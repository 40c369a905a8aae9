/** The table of flags the option parser recognises: which spellings name
    which flag for which role, how many following tokens each flag consumes,
    and what it does to the options record with them.

    This is the reference description against which the parser's chain of
    string comparisons is proved; it is stated flag by flag rather than
    comparison by comparison. */
module Flags {
  import opened Options
  import opened Numbers

  datatype Flag =
    | Verbose | Qos | Connection | Host | Port | ClientId | Username | Password
    | MaxDataLen | Delimiter | KeepAlive | Topic | WillTopic | WillPayload
    | WillQos | WillRetain | Insecure | CaPath | CaFile | Cert | Key | KeyPass
    | Ciphers | Version | Trace
      // subscriber only
    | NoPrintRetained
      // publisher only
    | Retained | UserProp | MessageExpiry | Message | Filename | NullMessage

  /** Spellings accepted whatever the record's `publisher` field holds. */
  const SharedSpellings: set<string> := {
    "--verbose", "-v", "--qos", "-q", "--connection", "-c", "--host", "-h",
    "--port", "-p", "--clientid", "-i", "--username", "-u", "--password", "-P",
    "--maxdatalen", "--delimiter", "--keepalive", "-k", "--topic", "-t",
    "--will-topic", "--will-payload", "--will-qos", "--will-retain", "--insecure",
    "--capath", "--cafile", "--cert", "--key", "--keypass", "--ciphers", "-V", "--trace"
  }

  /** Spellings accepted only when `publisher` is 0. */
  const SubscriberSpellings: set<string> := {"--no-print-retained", "-R"}

  /** Spellings accepted only when `publisher` is 1. */
  const PublisherSpellings: set<string> := {
    "--retained", "-r", "--user-property", "--message-expiry", "-m", "--message",
    "-f", "--filename", "-n", "--null-message"
  }

  /** The flags that take one following token. */
  const OneArgumentSpellings: set<string> := {
    "--qos", "-q", "--connection", "-c", "--host", "-h", "--port", "-p",
    "--clientid", "-i", "--username", "-u", "--password", "-P", "--maxdatalen",
    "--delimiter", "--keepalive", "-k", "--topic", "-t", "--will-topic",
    "--will-payload", "--will-qos", "--will-retain", "--insecure", "--capath",
    "--cafile", "--cert", "--key", "--keypass", "--ciphers", "-V", "--trace"
  }

  /** The flags that take one following token and exist only for publishers. */
  const PublisherOneArgumentSpellings: set<string> := {
    "--message-expiry", "-m", "--message", "-f", "--filename"
  }

  function SharedFlag(tok: string): Option<Flag> {
    match tok
    case "--verbose" | "-v" => Some(Verbose)
    case "--qos" | "-q" => Some(Qos)
    case "--connection" | "-c" => Some(Connection)
    case "--host" | "-h" => Some(Host)
    case "--port" | "-p" => Some(Port)
    case "--clientid" | "-i" => Some(ClientId)
    case "--username" | "-u" => Some(Username)
    case "--password" | "-P" => Some(Password)
    case "--maxdatalen" => Some(MaxDataLen)
    case "--delimiter" => Some(Delimiter)
    case "--keepalive" | "-k" => Some(KeepAlive)
    case "--topic" | "-t" => Some(Topic)
    case "--will-topic" => Some(WillTopic)
    case "--will-payload" => Some(WillPayload)
    case "--will-qos" => Some(WillQos)
    case "--will-retain" => Some(WillRetain)
    case "--insecure" => Some(Insecure)
    case "--capath" => Some(CaPath)
    case "--cafile" => Some(CaFile)
    case "--cert" => Some(Cert)
    case "--key" => Some(Key)
    case "--keypass" => Some(KeyPass)
    case "--ciphers" => Some(Ciphers)
    case "-V" => Some(Version)
    case "--trace" => Some(Trace)
    case _ => None
  }

  function SubscriberFlag(tok: string): Option<Flag> {
    match tok
    case "--no-print-retained" | "-R" => Some(NoPrintRetained)
    case _ => None
  }

  function PublisherFlag(tok: string): Option<Flag> {
    match tok
    case "--retained" | "-r" => Some(Retained)
    case "--user-property" => Some(UserProp)
    case "--message-expiry" => Some(MessageExpiry)
    case "-m" | "--message" => Some(Message)
    case "-f" | "--filename" => Some(Filename)
    case "-n" | "--null-message" => Some(NullMessage)
    case _ => None
  }

  /** The flag `tok` names for a record whose role field is `publisher`:
      shared flags first, then the role's own; `None` for an unknown option. */
  function Classify(tok: string, publisher: int): Option<Flag> {
    match SharedFlag(tok)
    case Some(f) => Some(f)
    case None =>
      if publisher == 0 then SubscriberFlag(tok)
      else if publisher == 1 then PublisherFlag(tok)
      else None
  }

  /** How many following tokens the flag consumes. */
  function Arity(f: Flag): nat {
    match f
    case Verbose | NoPrintRetained | Retained | NullMessage => 0
    case UserProp => 2
    case _ => 1
  }

  /** The QoS levels `-q` accepts. */
  function QosLevel(s: string): (r: Option<int>)
    ensures r.Some? <==> s in {"0", "1", "2"}
    ensures r.Some? ==> 0 <= r.value <= 2 && s == Decimal(r.value)
  {
    if s == "0" then Some(0)
    else if s == "1" then Some(1)
    else if s == "2" then Some(2)
    else None
  }

  /** The spellings `-V` accepts for each protocol version. */
  function VersionSpellings(v: MqttVersion): set<string> {
    match v
    case VersionDefault => {}
    case Version31 => {"mqttv31", "31"}
    case Version311 => {"mqttv311", "311"}
    case Version5 => {"mqttv5", "5"}
  }

  function ProtocolVersion(s: string): (r: Option<MqttVersion>)
    ensures r.Some? ==> s in VersionSpellings(r.value)
    ensures forall v :: s in VersionSpellings(v) ==> r == Some(v)
  {
    if s == "mqttv31" || s == "31" then Some(Version31)
    else if s == "mqttv311" || s == "311" then Some(Version311)
    else if s == "mqttv5" || s == "5" then Some(Version5)
    else None
  }

  /** The spellings `--trace` accepts for each trace level. */
  function TraceSpellings(l: TraceLevel): set<string> {
    match l
    case TraceDefault => {}
    case TraceError => {"error"}
    case TraceProtocol => {"protocol"}
    case TraceMinimum => {"min", "on"}
    case TraceMaximum => {"max"}
  }

  function TraceLevelOf(s: string): (r: Option<TraceLevel>)
    ensures r.Some? ==> s in TraceSpellings(r.value)
    ensures forall l :: s in TraceSpellings(l) ==> r == Some(l)
  {
    if s == "error" then Some(TraceError)
    else if s == "protocol" then Some(TraceProtocol)
    else if s == "min" || s == "on" then Some(TraceMinimum)
    else if s == "max" then Some(TraceMaximum)
    else None
  }

  /** The record after flag `f` has been applied to its arguments `args`, or
      `None` when an enumerated flag's argument is outside its closed set. */
  function Apply(f: Flag, args: seq<string>, o: Opts): (r: Option<Opts>)
    requires |args| == Arity(f)
    ensures r.None? ==> f in {Qos, Version, Trace}
    ensures r.Some? ==> r.value.publisher == o.publisher
    ensures r.Some? && f != Topic ==> r.value.topic == o.topic
  {
    match f
    case Verbose => Some(o.(verbose := 1))
    case Qos =>
      (match QosLevel(args[0])
       case Some(q) => Some(o.(qos := q))
       case None => None)
    case Connection => Some(o.(connection := Some(args[0])))
    case Host => Some(o.(host := Some(args[0])))
    case Port => Some(o.(port := Some(args[0])))
    case ClientId => Some(o.(clientId := Some(args[0])))
    case Username => Some(o.(username := Some(args[0])))
    case Password => Some(o.(password := Some(args[0])))
    case MaxDataLen => Some(o.(maxDataLen := Atoi(args[0])))
    case Delimiter => Some(o.(delimiter := Some(args[0])))
    case KeepAlive => Some(o.(keepAlive := Atoi(args[0])))
    case Topic => Some(o.(topic := Some(args[0])))
    case WillTopic => Some(o.(willTopic := Some(args[0])))
    case WillPayload => Some(o.(willPayload := Some(args[0])))
    case WillQos => Some(o.(willQos := Atoi(args[0])))
    case WillRetain => Some(o.(willRetain := 1))
    case Insecure => Some(o.(insecure := 1))
    case CaPath => Some(o.(caPath := Some(args[0])))
    case CaFile => Some(o.(caFile := Some(args[0])))
    case Cert => Some(o.(cert := Some(args[0])))
    case Key => Some(o.(key := Some(args[0])))
    case KeyPass => Some(o.(keyPass := Some(args[0])))
    case Ciphers => Some(o.(ciphers := Some(args[0])))
    case Version =>
      (match ProtocolVersion(args[0])
       case Some(v) => Some(o.(mqttVersion := v))
       case None => None)
    case Trace =>
      (match TraceLevelOf(args[0])
       case Some(l) => Some(o.(traceLevel := l))
       case None => None)
    case NoPrintRetained => Some(o.(retained := 1))
    case Retained => Some(o.(retained := 1))
    case UserProp => Some(o.(userProperty := UserProperty(Some(args[0]), Some(args[1]))))
    case MessageExpiry => Some(o.(messageExpiry := Atoi(args[0])))
    case Message => Some(o.(stdinLines := 0, message := Some(args[0])))
    case Filename => Some(o.(stdinLines := 0, message := Some(args[0])))
    case NullMessage => Some(o.(stdinLines := 0, nullMessage := 1))
  }

  /** Role gating: a token is recognised exactly when it is a shared spelling,
      or a subscriber spelling with `publisher == 0`, or a publisher spelling
      with `publisher == 1`. */
  lemma ClassifyRoles(tok: string, publisher: int)
    ensures Classify(tok, publisher).Some? <==>
      tok in SharedSpellings
      || (publisher == 0 && tok in SubscriberSpellings)
      || (publisher == 1 && tok in PublisherSpellings)
  {
  }

  /** The arity table agrees with the list of one-argument spellings. */
  lemma OneArgumentArity(tok: string, publisher: int)
    requires tok in OneArgumentSpellings || (publisher == 1 && tok in PublisherOneArgumentSpellings)
    ensures Classify(tok, publisher).Some? && Arity(Classify(tok, publisher).value) == 1
  {
  }
}
