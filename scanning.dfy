/** What the option parser `getopts` of the Paho MQTT C publish/subscribe
    samples computes, in terms of the flag table: `Step` (one pass of the
    loop body), `Scan` (steps from left to right over `argv`) and `Parse`
    (the whole call), followed by what each flag does to a step and a scan. */
module Scanning {
  import opened Options
  import opened Flags
  import opened Numbers

  /** The end of a scan: `ok` is false when some token was rejected, and
      `opts` holds every update made before that point (there is no rollback). */
  datatype ScanResult = ScanResult(ok: bool, opts: Opts)

  /** The return code of the parser (0 success, 1 failure) and the record it leaves. */
  datatype Outcome = Outcome(rc: int, opts: Opts)

  predicate StartsWithDash(s: string) {
    s != [] && s[0] == '-'
  }

  /** What one pass of the parser's loop body does at a cursor: `Next(last,
      o')` when the flag is accepted, with `last` the cursor on the flag's
      last argument and `o'` the updated record; `Stop` when the parser
      returns 1 there, which it does before writing anything. */
  datatype StepResult = Next(last: nat, opts: Opts) | Stop

  /** One step at a token naming `flag`: an unknown option stops, and so
      does a flag that lacks arguments or whose argument is outside its
      closed set. */
  function StepFlag(argv: seq<string>, count: nat, o: Opts, flag: Option<Flag>): (r: StepResult)
    requires count < |argv|
    ensures r.Next? ==> flag.Some? && r.last == count + Arity(flag.value) < |argv|
  {
    match flag
    case None => Stop
    case Some(f) =>
      if count + Arity(f) < |argv| then
        match Apply(f, argv[count + 1 .. count + 1 + Arity(f)], o)
        case Some(o') => Next(count + Arity(f), o')
        case None => Stop
      else
        Stop
  }

  /** One step at the cursor `count`, for the flag the token there names in
      the record's role. */
  function Step(argv: seq<string>, count: nat, o: Opts): (r: StepResult)
    requires count < |argv|
    ensures r.Next? ==> count <= r.last < |argv|
  {
    StepFlag(argv, count, o, Classify(argv[count], o.publisher))
  }

  /** Scans `argv` from `count` to its end one `Step` at a time, stopping at
      the first step that stops.

      `Scan`, `ScanAt`, `ScanToken` and `ScanFlag` are one definition cut into
      four layers (the second component of `decreases` orders them).  The
      layers carry no meaning of their own.  They are there for verification
      cost: unfolding `Scan` alone does not bring `Classify`'s long chain of
      spelling comparisons into a caller's proof.  `ScanStep` states the scan
      as a step followed by the rest of the scan, and `ScanClassified` as the
      scan of the flag the token names. */
  function Scan(argv: seq<string>, count: nat, o: Opts): ScanResult
    decreases |argv| - count, 3
  {
    if count >= |argv| then ScanResult(true, o) else ScanAt(argv, count, o)
  }

  /** `Scan` at a cursor inside `argv` (a verification layer, see `Scan`). */
  function ScanAt(argv: seq<string>, count: nat, o: Opts): ScanResult
    requires count < |argv|
    decreases |argv| - count, 2
  {
    ScanToken(argv, count, argv[count], o)
  }

  /** `Scan` at the token `tok` under the cursor (a verification layer, see
      `Scan`): the flag is the one `Classify` finds for `tok` in the record's role. */
  function ScanToken(argv: seq<string>, count: nat, tok: string, o: Opts): ScanResult
    requires count < |argv|
    decreases |argv| - count, 1
  {
    ScanFlag(argv, count, o, Classify(tok, o.publisher))
  }

  /** `Scan` at a token naming `flag` (a verification layer, see `Scan`):
      it stops where `StepFlag` stops and otherwise goes on after the
      flag's last argument. */
  function ScanFlag(argv: seq<string>, count: nat, o: Opts, flag: Option<Flag>): ScanResult
    requires count < |argv|
    decreases |argv| - count, 0
  {
    match StepFlag(argv, count, o, flag)
    case Stop => ScanResult(false, o)
    case Next(last, o') => Scan(argv, last + 1, o')
  }

  /** A scan is a step followed by the scan after the step's last token. */
  lemma ScanStep(argv: seq<string>, c: nat, o: Opts)
    requires c < |argv|
    ensures Scan(argv, c, o) ==
      match Step(argv, c, o)
      case Stop => ScanResult(false, o)
      case Next(last, o') => Scan(argv, last + 1, o')
  {
    assert ScanAt(argv, c, o) == ScanToken(argv, c, argv[c], o);
  }

  /** A scan at a token is the scan of the flag the token names. */
  lemma ScanClassified(argv: seq<string>, c: nat, o: Opts)
    requires c < |argv|
    ensures Scan(argv, c, o) == ScanFlag(argv, c, o, Classify(argv[c], o.publisher))
  {
    assert ScanAt(argv, c, o) == ScanToken(argv, c, argv[c], o);
  }

  /** The first token after the program name where flag scanning starts, and
      the record at that point: a first token that does not start with `-` is
      the topic. */
  function Start(argv: seq<string>, o: Opts): (nat, Opts)
    requires |argv| >= 2
  {
    if StartsWithDash(argv[1]) then (1, o) else (2, o.(topic := Some(argv[1])))
  }

  /** The whole parse: the scan, then the check that a topic is set. */
  function Parse(argv: seq<string>, o: Opts): (r: Outcome)
    requires |argv| >= 2
    ensures r.rc == 0 || r.rc == 1
    ensures r.rc == 0 ==> r.opts.topic.Some?
  {
    var (start, o1) := Start(argv, o);
    var s := Scan(argv, start, o1);
    Outcome(if s.ok && s.opts.topic.Some? then 0 else 1, s.opts)
  }

  /** `--verbose`/`-v` sets `verbose` and consumes no argument. */
  lemma ScanVerbose(argv: seq<string>, c: nat, o: Opts)
    requires c < |argv| && (argv[c] == "--verbose" || argv[c] == "-v")
    ensures Step(argv, c, o) == Next(c, o.(verbose := 1))
    ensures Scan(argv, c, o) == Scan(argv, c + 1, o.(verbose := 1))
  {
    assert Classify(argv[c], o.publisher) == Some(Verbose);
    ScanStep(argv, c, o);
  }

  /** `--connection`/`-c` stores the following token as the connection string;
      as the last token it fails. */
  lemma ScanConnection(argv: seq<string>, c: nat, o: Opts)
    requires c < |argv| && (argv[c] == "--connection" || argv[c] == "-c")
    ensures Step(argv, c, o) ==
      if c + 1 < |argv| then Next(c + 1, o.(connection := Some(argv[c + 1]))) else Stop
    ensures Scan(argv, c, o) ==
      if c + 1 < |argv| then Scan(argv, c + 2, o.(connection := Some(argv[c + 1]))) else ScanResult(false, o)
  {
    assert Classify(argv[c], o.publisher) == Some(Connection);
    ScanStep(argv, c, o);
  }

  /** `--host`/`-h` stores the following token as the host;
      as the last token it fails. */
  lemma ScanHost(argv: seq<string>, c: nat, o: Opts)
    requires c < |argv| && (argv[c] == "--host" || argv[c] == "-h")
    ensures Step(argv, c, o) ==
      if c + 1 < |argv| then Next(c + 1, o.(host := Some(argv[c + 1]))) else Stop
    ensures Scan(argv, c, o) ==
      if c + 1 < |argv| then Scan(argv, c + 2, o.(host := Some(argv[c + 1]))) else ScanResult(false, o)
  {
    assert Classify(argv[c], o.publisher) == Some(Host);
    ScanStep(argv, c, o);
  }

  /** `--port`/`-p` stores the following token as the port;
      as the last token it fails. */
  lemma ScanPort(argv: seq<string>, c: nat, o: Opts)
    requires c < |argv| && (argv[c] == "--port" || argv[c] == "-p")
    ensures Step(argv, c, o) ==
      if c + 1 < |argv| then Next(c + 1, o.(port := Some(argv[c + 1]))) else Stop
    ensures Scan(argv, c, o) ==
      if c + 1 < |argv| then Scan(argv, c + 2, o.(port := Some(argv[c + 1]))) else ScanResult(false, o)
  {
    assert Classify(argv[c], o.publisher) == Some(Port);
    ScanStep(argv, c, o);
  }

  /** `--clientid`/`-i` stores the following token as the client identifier;
      as the last token it fails. */
  lemma ScanClientId(argv: seq<string>, c: nat, o: Opts)
    requires c < |argv| && (argv[c] == "--clientid" || argv[c] == "-i")
    ensures Step(argv, c, o) ==
      if c + 1 < |argv| then Next(c + 1, o.(clientId := Some(argv[c + 1]))) else Stop
    ensures Scan(argv, c, o) ==
      if c + 1 < |argv| then Scan(argv, c + 2, o.(clientId := Some(argv[c + 1]))) else ScanResult(false, o)
  {
    assert Classify(argv[c], o.publisher) == Some(ClientId);
    ScanStep(argv, c, o);
  }

  /** `--username`/`-u` stores the following token as the user name;
      as the last token it fails. */
  lemma ScanUsername(argv: seq<string>, c: nat, o: Opts)
    requires c < |argv| && (argv[c] == "--username" || argv[c] == "-u")
    ensures Step(argv, c, o) ==
      if c + 1 < |argv| then Next(c + 1, o.(username := Some(argv[c + 1]))) else Stop
    ensures Scan(argv, c, o) ==
      if c + 1 < |argv| then Scan(argv, c + 2, o.(username := Some(argv[c + 1]))) else ScanResult(false, o)
  {
    assert Classify(argv[c], o.publisher) == Some(Username);
    ScanStep(argv, c, o);
  }

  /** `--password`/`-P` stores the following token as the password;
      as the last token it fails. */
  lemma ScanPassword(argv: seq<string>, c: nat, o: Opts)
    requires c < |argv| && (argv[c] == "--password" || argv[c] == "-P")
    ensures Step(argv, c, o) ==
      if c + 1 < |argv| then Next(c + 1, o.(password := Some(argv[c + 1]))) else Stop
    ensures Scan(argv, c, o) ==
      if c + 1 < |argv| then Scan(argv, c + 2, o.(password := Some(argv[c + 1]))) else ScanResult(false, o)
  {
    assert Classify(argv[c], o.publisher) == Some(Password);
    ScanStep(argv, c, o);
  }

  /** `--maxdatalen` stores `atoi` of the following token as the maximum data length;
      as the last token it fails. */
  lemma ScanMaxDataLen(argv: seq<string>, c: nat, o: Opts)
    requires c < |argv| && argv[c] == "--maxdatalen"
    ensures Step(argv, c, o) ==
      if c + 1 < |argv| then Next(c + 1, o.(maxDataLen := Atoi(argv[c + 1]))) else Stop
    ensures Scan(argv, c, o) ==
      if c + 1 < |argv| then Scan(argv, c + 2, o.(maxDataLen := Atoi(argv[c + 1]))) else ScanResult(false, o)
  {
    assert Classify(argv[c], o.publisher) == Some(MaxDataLen);
    ScanStep(argv, c, o);
  }

  /** `--delimiter` stores the following token as the delimiter;
      as the last token it fails. */
  lemma ScanDelimiter(argv: seq<string>, c: nat, o: Opts)
    requires c < |argv| && argv[c] == "--delimiter"
    ensures Step(argv, c, o) ==
      if c + 1 < |argv| then Next(c + 1, o.(delimiter := Some(argv[c + 1]))) else Stop
    ensures Scan(argv, c, o) ==
      if c + 1 < |argv| then Scan(argv, c + 2, o.(delimiter := Some(argv[c + 1]))) else ScanResult(false, o)
  {
    assert Classify(argv[c], o.publisher) == Some(Delimiter);
    ScanStep(argv, c, o);
  }

  /** `--keepalive`/`-k` stores `atoi` of the following token as the keep-alive interval;
      as the last token it fails. */
  lemma ScanKeepAlive(argv: seq<string>, c: nat, o: Opts)
    requires c < |argv| && (argv[c] == "--keepalive" || argv[c] == "-k")
    ensures Step(argv, c, o) ==
      if c + 1 < |argv| then Next(c + 1, o.(keepAlive := Atoi(argv[c + 1]))) else Stop
    ensures Scan(argv, c, o) ==
      if c + 1 < |argv| then Scan(argv, c + 2, o.(keepAlive := Atoi(argv[c + 1]))) else ScanResult(false, o)
  {
    assert Classify(argv[c], o.publisher) == Some(KeepAlive);
    ScanStep(argv, c, o);
  }

  /** `--topic`/`-t` stores the following token as the topic;
      as the last token it fails. */
  lemma ScanTopic(argv: seq<string>, c: nat, o: Opts)
    requires c < |argv| && (argv[c] == "--topic" || argv[c] == "-t")
    ensures Step(argv, c, o) ==
      if c + 1 < |argv| then Next(c + 1, o.(topic := Some(argv[c + 1]))) else Stop
    ensures Scan(argv, c, o) ==
      if c + 1 < |argv| then Scan(argv, c + 2, o.(topic := Some(argv[c + 1]))) else ScanResult(false, o)
  {
    assert Classify(argv[c], o.publisher) == Some(Topic);
    ScanStep(argv, c, o);
  }

  /** `--will-topic` stores the following token as the will topic;
      as the last token it fails. */
  lemma ScanWillTopic(argv: seq<string>, c: nat, o: Opts)
    requires c < |argv| && argv[c] == "--will-topic"
    ensures Step(argv, c, o) ==
      if c + 1 < |argv| then Next(c + 1, o.(willTopic := Some(argv[c + 1]))) else Stop
    ensures Scan(argv, c, o) ==
      if c + 1 < |argv| then Scan(argv, c + 2, o.(willTopic := Some(argv[c + 1]))) else ScanResult(false, o)
  {
    assert Classify(argv[c], o.publisher) == Some(WillTopic);
    ScanStep(argv, c, o);
  }

  /** `--will-payload` stores the following token as the will payload;
      as the last token it fails. */
  lemma ScanWillPayload(argv: seq<string>, c: nat, o: Opts)
    requires c < |argv| && argv[c] == "--will-payload"
    ensures Step(argv, c, o) ==
      if c + 1 < |argv| then Next(c + 1, o.(willPayload := Some(argv[c + 1]))) else Stop
    ensures Scan(argv, c, o) ==
      if c + 1 < |argv| then Scan(argv, c + 2, o.(willPayload := Some(argv[c + 1]))) else ScanResult(false, o)
  {
    assert Classify(argv[c], o.publisher) == Some(WillPayload);
    ScanStep(argv, c, o);
  }

  /** `--will-qos` stores `atoi` of the following token as the will QoS, unchecked;
      as the last token it fails. */
  lemma ScanWillQos(argv: seq<string>, c: nat, o: Opts)
    requires c < |argv| && argv[c] == "--will-qos"
    ensures Step(argv, c, o) ==
      if c + 1 < |argv| then Next(c + 1, o.(willQos := Atoi(argv[c + 1]))) else Stop
    ensures Scan(argv, c, o) ==
      if c + 1 < |argv| then Scan(argv, c + 2, o.(willQos := Atoi(argv[c + 1]))) else ScanResult(false, o)
  {
    assert Classify(argv[c], o.publisher) == Some(WillQos);
    ScanStep(argv, c, o);
  }

  /** `--will-retain` consumes and ignores the following token and sets `will_retain`;
      as the last token it fails. */
  lemma ScanWillRetain(argv: seq<string>, c: nat, o: Opts)
    requires c < |argv| && argv[c] == "--will-retain"
    ensures Step(argv, c, o) ==
      if c + 1 < |argv| then Next(c + 1, o.(willRetain := 1)) else Stop
    ensures Scan(argv, c, o) ==
      if c + 1 < |argv| then Scan(argv, c + 2, o.(willRetain := 1)) else ScanResult(false, o)
  {
    assert Classify(argv[c], o.publisher) == Some(WillRetain);
    ScanStep(argv, c, o);
  }

  /** `--insecure` consumes and ignores the following token and sets `insecure`;
      as the last token it fails. */
  lemma ScanInsecure(argv: seq<string>, c: nat, o: Opts)
    requires c < |argv| && argv[c] == "--insecure"
    ensures Step(argv, c, o) ==
      if c + 1 < |argv| then Next(c + 1, o.(insecure := 1)) else Stop
    ensures Scan(argv, c, o) ==
      if c + 1 < |argv| then Scan(argv, c + 2, o.(insecure := 1)) else ScanResult(false, o)
  {
    assert Classify(argv[c], o.publisher) == Some(Insecure);
    ScanStep(argv, c, o);
  }

  /** `--capath` stores the following token as the CA path;
      as the last token it fails. */
  lemma ScanCaPath(argv: seq<string>, c: nat, o: Opts)
    requires c < |argv| && argv[c] == "--capath"
    ensures Step(argv, c, o) ==
      if c + 1 < |argv| then Next(c + 1, o.(caPath := Some(argv[c + 1]))) else Stop
    ensures Scan(argv, c, o) ==
      if c + 1 < |argv| then Scan(argv, c + 2, o.(caPath := Some(argv[c + 1]))) else ScanResult(false, o)
  {
    assert Classify(argv[c], o.publisher) == Some(CaPath);
    ScanStep(argv, c, o);
  }

  /** `--cafile` stores the following token as the CA file;
      as the last token it fails. */
  lemma ScanCaFile(argv: seq<string>, c: nat, o: Opts)
    requires c < |argv| && argv[c] == "--cafile"
    ensures Step(argv, c, o) ==
      if c + 1 < |argv| then Next(c + 1, o.(caFile := Some(argv[c + 1]))) else Stop
    ensures Scan(argv, c, o) ==
      if c + 1 < |argv| then Scan(argv, c + 2, o.(caFile := Some(argv[c + 1]))) else ScanResult(false, o)
  {
    assert Classify(argv[c], o.publisher) == Some(CaFile);
    ScanStep(argv, c, o);
  }

  /** `--cert` stores the following token as the client certificate;
      as the last token it fails. */
  lemma ScanCert(argv: seq<string>, c: nat, o: Opts)
    requires c < |argv| && argv[c] == "--cert"
    ensures Step(argv, c, o) ==
      if c + 1 < |argv| then Next(c + 1, o.(cert := Some(argv[c + 1]))) else Stop
    ensures Scan(argv, c, o) ==
      if c + 1 < |argv| then Scan(argv, c + 2, o.(cert := Some(argv[c + 1]))) else ScanResult(false, o)
  {
    assert Classify(argv[c], o.publisher) == Some(Cert);
    ScanStep(argv, c, o);
  }

  /** `--key` stores the following token as the private key;
      as the last token it fails. */
  lemma ScanKey(argv: seq<string>, c: nat, o: Opts)
    requires c < |argv| && argv[c] == "--key"
    ensures Step(argv, c, o) ==
      if c + 1 < |argv| then Next(c + 1, o.(key := Some(argv[c + 1]))) else Stop
    ensures Scan(argv, c, o) ==
      if c + 1 < |argv| then Scan(argv, c + 2, o.(key := Some(argv[c + 1]))) else ScanResult(false, o)
  {
    assert Classify(argv[c], o.publisher) == Some(Key);
    ScanStep(argv, c, o);
  }

  /** `--keypass` stores the following token as the key password;
      as the last token it fails. */
  lemma ScanKeyPass(argv: seq<string>, c: nat, o: Opts)
    requires c < |argv| && argv[c] == "--keypass"
    ensures Step(argv, c, o) ==
      if c + 1 < |argv| then Next(c + 1, o.(keyPass := Some(argv[c + 1]))) else Stop
    ensures Scan(argv, c, o) ==
      if c + 1 < |argv| then Scan(argv, c + 2, o.(keyPass := Some(argv[c + 1]))) else ScanResult(false, o)
  {
    assert Classify(argv[c], o.publisher) == Some(KeyPass);
    ScanStep(argv, c, o);
  }

  /** `--ciphers` stores the following token as the cipher list;
      as the last token it fails. */
  lemma ScanCiphers(argv: seq<string>, c: nat, o: Opts)
    requires c < |argv| && argv[c] == "--ciphers"
    ensures Step(argv, c, o) ==
      if c + 1 < |argv| then Next(c + 1, o.(ciphers := Some(argv[c + 1]))) else Stop
    ensures Scan(argv, c, o) ==
      if c + 1 < |argv| then Scan(argv, c + 2, o.(ciphers := Some(argv[c + 1]))) else ScanResult(false, o)
  {
    assert Classify(argv[c], o.publisher) == Some(Ciphers);
    ScanStep(argv, c, o);
  }

  /** `--no-print-retained`/`-R` (subscriber only) sets `retained` and consumes no argument. */
  lemma ScanNoPrintRetained(argv: seq<string>, c: nat, o: Opts)
    requires o.publisher == 0 && c < |argv| && (argv[c] == "--no-print-retained" || argv[c] == "-R")
    ensures Step(argv, c, o) == Next(c, o.(retained := 1))
    ensures Scan(argv, c, o) == Scan(argv, c + 1, o.(retained := 1))
  {
    assert Classify(argv[c], o.publisher) == Some(NoPrintRetained);
    ScanStep(argv, c, o);
  }

  /** `--retained`/`-r` (publisher only) sets `retained` and consumes no argument. */
  lemma ScanRetained(argv: seq<string>, c: nat, o: Opts)
    requires o.publisher == 1 && c < |argv| && (argv[c] == "--retained" || argv[c] == "-r")
    ensures Step(argv, c, o) == Next(c, o.(retained := 1))
    ensures Scan(argv, c, o) == Scan(argv, c + 1, o.(retained := 1))
  {
    assert Classify(argv[c], o.publisher) == Some(Retained);
    ScanStep(argv, c, o);
  }

  /** `--message-expiry` (publisher only) stores `atoi` of the following
      token as the message expiry interval; as the last token it fails. */
  lemma ScanMessageExpiry(argv: seq<string>, c: nat, o: Opts)
    requires o.publisher == 1 && c < |argv| && argv[c] == "--message-expiry"
    ensures Step(argv, c, o) ==
      if c + 1 < |argv| then Next(c + 1, o.(messageExpiry := Atoi(argv[c + 1]))) else Stop
    ensures Scan(argv, c, o) ==
      if c + 1 < |argv| then Scan(argv, c + 2, o.(messageExpiry := Atoi(argv[c + 1]))) else ScanResult(false, o)
  {
    assert Classify(argv[c], o.publisher) == Some(MessageExpiry);
    ScanStep(argv, c, o);
  }

  /** `-m`/`--message` (publisher only) stores the following token as the
      message and turns off reading lines from standard input; as the last
      token it fails. */
  lemma ScanMessage(argv: seq<string>, c: nat, o: Opts)
    requires o.publisher == 1 && c < |argv| && (argv[c] == "-m" || argv[c] == "--message")
    ensures Step(argv, c, o) ==
      if c + 1 < |argv| then Next(c + 1, o.(stdinLines := 0, message := Some(argv[c + 1]))) else Stop
    ensures Scan(argv, c, o) ==
      if c + 1 < |argv| then Scan(argv, c + 2, o.(stdinLines := 0, message := Some(argv[c + 1]))) else ScanResult(false, o)
  {
    assert Classify(argv[c], o.publisher) == Some(Message);
    ScanStep(argv, c, o);
  }

  /** `-f`/`--filename` (publisher only) stores the following token in the
      message field, not in a file-name field, and turns off reading lines
      from standard input; as the last token it fails. */
  lemma ScanFilename(argv: seq<string>, c: nat, o: Opts)
    requires o.publisher == 1 && c < |argv| && (argv[c] == "-f" || argv[c] == "--filename")
    ensures Step(argv, c, o) ==
      if c + 1 < |argv| then Next(c + 1, o.(stdinLines := 0, message := Some(argv[c + 1]))) else Stop
    ensures Scan(argv, c, o) ==
      if c + 1 < |argv| then Scan(argv, c + 2, o.(stdinLines := 0, message := Some(argv[c + 1]))) else ScanResult(false, o)
  {
    assert Classify(argv[c], o.publisher) == Some(Filename);
    ScanStep(argv, c, o);
  }

  /** `-n`/`--null-message` (publisher only) sets `null_message`, turns off
      reading lines from standard input, and consumes no argument. */
  lemma ScanNullMessage(argv: seq<string>, c: nat, o: Opts)
    requires o.publisher == 1 && c < |argv| && (argv[c] == "-n" || argv[c] == "--null-message")
    ensures Step(argv, c, o) == Next(c, o.(stdinLines := 0, nullMessage := 1))
    ensures Scan(argv, c, o) == Scan(argv, c + 1, o.(stdinLines := 0, nullMessage := 1))
  {
    assert Classify(argv[c], o.publisher) == Some(NullMessage);
    ScanStep(argv, c, o);
  }

  /** `--qos`/`-q` accepts exactly "0", "1" and "2" as the following token and
      sets the QoS to that level; any other token, or none, fails. */
  lemma ScanQos(argv: seq<string>, c: nat, o: Opts)
    requires c < |argv| && (argv[c] == "--qos" || argv[c] == "-q")
    ensures Step(argv, c, o) ==
      if c + 1 < |argv| && QosLevel(argv[c + 1]).Some?
      then Next(c + 1, o.(qos := QosLevel(argv[c + 1]).value))
      else Stop
    ensures Scan(argv, c, o) ==
      if c + 1 < |argv| && QosLevel(argv[c + 1]).Some?
      then Scan(argv, c + 2, o.(qos := QosLevel(argv[c + 1]).value))
      else ScanResult(false, o)
  {
    assert Classify(argv[c], o.publisher) == Some(Qos);
    ScanStep(argv, c, o);
  }

  /** `-V` accepts the spellings of the three protocol versions as the
      following token; any other token, or none, fails. */
  lemma ScanVersion(argv: seq<string>, c: nat, o: Opts)
    requires c < |argv| && argv[c] == "-V"
    ensures Step(argv, c, o) ==
      if c + 1 < |argv| && ProtocolVersion(argv[c + 1]).Some?
      then Next(c + 1, o.(mqttVersion := ProtocolVersion(argv[c + 1]).value))
      else Stop
    ensures Scan(argv, c, o) ==
      if c + 1 < |argv| && ProtocolVersion(argv[c + 1]).Some?
      then Scan(argv, c + 2, o.(mqttVersion := ProtocolVersion(argv[c + 1]).value))
      else ScanResult(false, o)
  {
    assert Classify(argv[c], o.publisher) == Some(Version);
    ScanStep(argv, c, o);
  }

  /** `--trace` accepts the spellings of the four trace levels as the
      following token; any other token, or none, fails. */
  lemma ScanTrace(argv: seq<string>, c: nat, o: Opts)
    requires c < |argv| && argv[c] == "--trace"
    ensures Step(argv, c, o) ==
      if c + 1 < |argv| && TraceLevelOf(argv[c + 1]).Some?
      then Next(c + 1, o.(traceLevel := TraceLevelOf(argv[c + 1]).value))
      else Stop
    ensures Scan(argv, c, o) ==
      if c + 1 < |argv| && TraceLevelOf(argv[c + 1]).Some?
      then Scan(argv, c + 2, o.(traceLevel := TraceLevelOf(argv[c + 1]).value))
      else ScanResult(false, o)
  {
    assert Classify(argv[c], o.publisher) == Some(Trace);
    ScanStep(argv, c, o);
  }

  /** `--user-property` (publisher only) takes the next two tokens as the
      property's name and value; with fewer than two tokens left it fails. */
  lemma ScanUserProperty(argv: seq<string>, c: nat, o: Opts)
    requires o.publisher == 1 && c < |argv| && argv[c] == "--user-property"
    ensures Step(argv, c, o) ==
      if c + 2 < |argv|
      then Next(c + 2, o.(userProperty := UserProperty(Some(argv[c + 1]), Some(argv[c + 2]))))
      else Stop
    ensures Scan(argv, c, o) ==
      if c + 2 < |argv|
      then Scan(argv, c + 3, o.(userProperty := UserProperty(Some(argv[c + 1]), Some(argv[c + 2]))))
      else ScanResult(false, o)
  {
    assert Classify(argv[c], o.publisher) == Some(UserProp);
    ScanStep(argv, c, o);
  }

  /** A token that names no flag in the record's role is an unknown option:
      the scan fails there and changes nothing more. */
  lemma ScanUnknown(argv: seq<string>, c: nat, o: Opts)
    requires c < |argv| && Classify(argv[c], o.publisher) == None
    ensures Step(argv, c, o) == Stop
    ensures Scan(argv, c, o) == ScanResult(false, o)
  {
    ScanStep(argv, c, o);
  }
}
