/** The option parser `getopts` of the Paho MQTT C publish/subscribe samples,
    as the program runs it: a loop over a cursor into `argv` that updates the
    caller's record in place and returns early on the first error.  It is
    proved to compute what `Scanning.Parse` describes.

    The body of the loop is one long chain of string comparisons.  Here the
    chain is cut into consecutive pieces, each a method that tries its own
    flags in the source's order and hands any other token to the next piece
    in its final `else`; `ParseClientOption` is the head of the chain.  Each
    piece is proved to compute exactly one `Scanning.Step`: success and the
    cursor on the flag's last argument with the record `Step` gives, or
    failure with the record untouched. */
module Parser {
  import opened Options
  import opened Flags
  import opened Scanning
  import Numbers

  /** The spellings each piece of the chain compares the token with, in chain order. */
  predicate IsClientSpelling(tok: string) {
    tok == "--verbose" || tok == "-v" || tok == "--qos" || tok == "-q" || tok == "--connection"
    || tok == "-c" || tok == "--host" || tok == "-h" || tok == "--port" || tok == "-p"
  }

  predicate IsSessionSpelling(tok: string) {
    tok == "--clientid" || tok == "-i" || tok == "--username" || tok == "-u" || tok == "--password"
    || tok == "-P" || tok == "--maxdatalen" || tok == "--delimiter" || tok == "--keepalive"
    || tok == "-k" || tok == "--topic" || tok == "-t"
  }

  predicate IsWillSpelling(tok: string) {
    tok == "--will-topic" || tok == "--will-payload" || tok == "--will-qos" || tok == "--will-retain"
  }

  predicate IsTlsSpelling(tok: string) {
    tok == "--insecure" || tok == "--capath" || tok == "--cafile" || tok == "--cert" || tok == "--key"
    || tok == "--keypass" || tok == "--ciphers"
  }

  /** `getopts`: parses `argv` into `opts`, updating it in place, and returns
      0 on success and 1 on any failure.  `argv[0]` is the program name and
      the caller passes at least one further token. */
  method GetOpts(argv: seq<string>, opts: PubsubOpts) returns (rc: int)
    requires |argv| >= 2
    modifies opts
    ensures rc == Parse(argv, old(opts.Snapshot())).rc
    ensures opts.Snapshot() == Parse(argv, old(opts.Snapshot())).opts
  {
    ghost var goal := Scan(argv, Start(argv, opts.Snapshot()).0, Start(argv, opts.Snapshot()).1);
    var count := 1;
    if argv[1] == [] || argv[1][0] != '-' {
      opts.SetTopic(Some(argv[1]));
      count := 2;
    }

    while count < |argv|
      invariant 1 <= count <= |argv|
      invariant Scan(argv, count, opts.Snapshot()) == goal
      decreases |argv| - count
    {
      ScanStep(argv, count, opts.Snapshot());
      var ok;
      ok, count := ParseClientOption(argv, count, opts);
      if !ok {
        return 1;
      }
      count := count + 1;
    }

    if opts.topic == None {
      return 1;
    }
    return 0;
  }

  /** The head of the chain: `--verbose`, `--qos`, `--connection`, `--host` and `--port`. */
  method ParseClientOption(argv: seq<string>, at: nat, opts: PubsubOpts) returns (ok: bool, count: nat)
    requires at < |argv|
    modifies opts
    ensures ok ==> Step(argv, at, old(opts.Snapshot())) == Next(count, opts.Snapshot())
    ensures !ok ==> Step(argv, at, old(opts.Snapshot())) == Stop && opts.Snapshot() == old(opts.Snapshot())
  {
    count := at;
    var arg := argv[count];
    if arg == "--verbose" || arg == "-v" {
      ScanVerbose(argv, count, opts.Snapshot());
      opts.SetVerbose(1);
    } else if arg == "--qos" || arg == "-q" {
      ScanQos(argv, count, opts.Snapshot());
      count := count + 1;
      if count < |argv| {
        if argv[count] == "0" {
          opts.SetQos(0);
        } else if argv[count] == "1" {
          opts.SetQos(1);
        } else if argv[count] == "2" {
          opts.SetQos(2);
        } else {
          return false, count;
        }
      } else {
        return false, count;
      }
    } else if arg == "--connection" || arg == "-c" {
      ScanConnection(argv, count, opts.Snapshot());
      count := count + 1;
      if count < |argv| { opts.SetConnection(Some(argv[count])); } else { return false, count; }
    } else if arg == "--host" || arg == "-h" {
      ScanHost(argv, count, opts.Snapshot());
      count := count + 1;
      if count < |argv| { opts.SetHost(Some(argv[count])); } else { return false, count; }
    } else if arg == "--port" || arg == "-p" {
      ScanPort(argv, count, opts.Snapshot());
      count := count + 1;
      if count < |argv| { opts.SetPort(Some(argv[count])); } else { return false, count; }
    } else {
      ok, count := ParseSessionOption(argv, at, opts);
      return;
    }
    ok := true;
  }

  /** `--clientid`, `--username`, `--password`, `--maxdatalen`, `--delimiter`,
      `--keepalive` and `--topic`. */
  method ParseSessionOption(argv: seq<string>, at: nat, opts: PubsubOpts) returns (ok: bool, count: nat)
    requires at < |argv|
    requires !IsClientSpelling(argv[at])
    modifies opts
    ensures ok ==> Step(argv, at, old(opts.Snapshot())) == Next(count, opts.Snapshot())
    ensures !ok ==> Step(argv, at, old(opts.Snapshot())) == Stop && opts.Snapshot() == old(opts.Snapshot())
  {
    count := at;
    var arg := argv[count];
    if arg == "--clientid" || arg == "-i" {
      ScanClientId(argv, count, opts.Snapshot());
      count := count + 1;
      if count < |argv| { opts.SetClientId(Some(argv[count])); } else { return false, count; }
    } else if arg == "--username" || arg == "-u" {
      ScanUsername(argv, count, opts.Snapshot());
      count := count + 1;
      if count < |argv| { opts.SetUsername(Some(argv[count])); } else { return false, count; }
    } else if arg == "--password" || arg == "-P" {
      ScanPassword(argv, count, opts.Snapshot());
      count := count + 1;
      if count < |argv| { opts.SetPassword(Some(argv[count])); } else { return false, count; }
    } else if arg == "--maxdatalen" {
      ScanMaxDataLen(argv, count, opts.Snapshot());
      count := count + 1;
      if count < |argv| { opts.SetMaxDataLen(Numbers.Atoi(argv[count])); } else { return false, count; }
    } else if arg == "--delimiter" {
      ScanDelimiter(argv, count, opts.Snapshot());
      count := count + 1;
      if count < |argv| { opts.SetDelimiter(Some(argv[count])); } else { return false, count; }
    } else if arg == "--keepalive" || arg == "-k" {
      ScanKeepAlive(argv, count, opts.Snapshot());
      count := count + 1;
      if count < |argv| { opts.SetKeepAlive(Numbers.Atoi(argv[count])); } else { return false, count; }
    } else if arg == "--topic" || arg == "-t" {
      ScanTopic(argv, count, opts.Snapshot());
      count := count + 1;
      if count < |argv| { opts.SetTopic(Some(argv[count])); } else { return false, count; }
    } else {
      ok, count := ParseWillOption(argv, at, opts);
      return;
    }
    ok := true;
  }

  /** The last-will flags `--will-topic`, `--will-payload`, `--will-qos` and `--will-retain`. */
  method ParseWillOption(argv: seq<string>, at: nat, opts: PubsubOpts) returns (ok: bool, count: nat)
    requires at < |argv|
    requires !IsClientSpelling(argv[at]) && !IsSessionSpelling(argv[at])
    modifies opts
    ensures ok ==> Step(argv, at, old(opts.Snapshot())) == Next(count, opts.Snapshot())
    ensures !ok ==> Step(argv, at, old(opts.Snapshot())) == Stop && opts.Snapshot() == old(opts.Snapshot())
  {
    count := at;
    var arg := argv[count];
    if arg == "--will-topic" {
      ScanWillTopic(argv, count, opts.Snapshot());
      count := count + 1;
      if count < |argv| { opts.SetWillTopic(Some(argv[count])); } else { return false, count; }
    } else if arg == "--will-payload" {
      ScanWillPayload(argv, count, opts.Snapshot());
      count := count + 1;
      if count < |argv| { opts.SetWillPayload(Some(argv[count])); } else { return false, count; }
    } else if arg == "--will-qos" {
      ScanWillQos(argv, count, opts.Snapshot());
      count := count + 1;
      if count < |argv| { opts.SetWillQos(Numbers.Atoi(argv[count])); } else { return false, count; }
    } else if arg == "--will-retain" {
      ScanWillRetain(argv, count, opts.Snapshot());
      count := count + 1;
      if count < |argv| { opts.SetWillRetain(1); } else { return false, count; }
    } else {
      ok, count := ParseTlsOption(argv, at, opts);
      return;
    }
    ok := true;
  }

  /** The TLS flags `--insecure`, `--capath`, `--cafile`, `--cert`, `--key`,
      `--keypass` and `--ciphers`. */
  method ParseTlsOption(argv: seq<string>, at: nat, opts: PubsubOpts) returns (ok: bool, count: nat)
    requires at < |argv|
    requires !IsClientSpelling(argv[at]) && !IsSessionSpelling(argv[at]) && !IsWillSpelling(argv[at])
    modifies opts
    ensures ok ==> Step(argv, at, old(opts.Snapshot())) == Next(count, opts.Snapshot())
    ensures !ok ==> Step(argv, at, old(opts.Snapshot())) == Stop && opts.Snapshot() == old(opts.Snapshot())
  {
    count := at;
    var arg := argv[count];
    if arg == "--insecure" {
      ScanInsecure(argv, count, opts.Snapshot());
      count := count + 1;
      if count < |argv| { opts.SetInsecure(1); } else { return false, count; }
    } else if arg == "--capath" {
      ScanCaPath(argv, count, opts.Snapshot());
      count := count + 1;
      if count < |argv| { opts.SetCaPath(Some(argv[count])); } else { return false, count; }
    } else if arg == "--cafile" {
      ScanCaFile(argv, count, opts.Snapshot());
      count := count + 1;
      if count < |argv| { opts.SetCaFile(Some(argv[count])); } else { return false, count; }
    } else if arg == "--cert" {
      ScanCert(argv, count, opts.Snapshot());
      count := count + 1;
      if count < |argv| { opts.SetCert(Some(argv[count])); } else { return false, count; }
    } else if arg == "--key" {
      ScanKey(argv, count, opts.Snapshot());
      count := count + 1;
      if count < |argv| { opts.SetKey(Some(argv[count])); } else { return false, count; }
    } else if arg == "--keypass" {
      ScanKeyPass(argv, count, opts.Snapshot());
      count := count + 1;
      if count < |argv| { opts.SetKeyPass(Some(argv[count])); } else { return false, count; }
    } else if arg == "--ciphers" {
      ScanCiphers(argv, count, opts.Snapshot());
      count := count + 1;
      if count < |argv| { opts.SetCiphers(Some(argv[count])); } else { return false, count; }
    } else {
      ok, count := ParseProtocolOption(argv, at, opts);
      return;
    }
    ok := true;
  }

  /** `-V` and `--trace`, the last of the flags every role accepts. */
  method ParseProtocolOption(argv: seq<string>, at: nat, opts: PubsubOpts) returns (ok: bool, count: nat)
    requires at < |argv|
    requires !IsClientSpelling(argv[at]) && !IsSessionSpelling(argv[at])
    requires !IsWillSpelling(argv[at]) && !IsTlsSpelling(argv[at])
    modifies opts
    ensures ok ==> Step(argv, at, old(opts.Snapshot())) == Next(count, opts.Snapshot())
    ensures !ok ==> Step(argv, at, old(opts.Snapshot())) == Stop && opts.Snapshot() == old(opts.Snapshot())
  {
    count := at;
    var arg := argv[count];
    if arg == "-V" {
      ScanVersion(argv, count, opts.Snapshot());
      count := count + 1;
      if count < |argv| {
        if argv[count] == "mqttv31" || argv[count] == "31" {
          opts.SetMqttVersion(Version31);
        } else if argv[count] == "mqttv311" || argv[count] == "311" {
          opts.SetMqttVersion(Version311);
        } else if argv[count] == "mqttv5" || argv[count] == "5" {
          opts.SetMqttVersion(Version5);
        } else {
          return false, count;
        }
      } else {
        return false, count;
      }
    } else if arg == "--trace" {
      ScanTrace(argv, count, opts.Snapshot());
      count := count + 1;
      if count < |argv| {
        if argv[count] == "error" {
          opts.SetTraceLevel(TraceError);
        } else if argv[count] == "protocol" {
          opts.SetTraceLevel(TraceProtocol);
        } else if argv[count] == "min" || argv[count] == "on" {
          opts.SetTraceLevel(TraceMinimum);
        } else if argv[count] == "max" {
          opts.SetTraceLevel(TraceMaximum);
        } else {
          return false, count;
        }
      } else {
        return false, count;
      }
    } else {
      NoSharedSpelling(arg);
      ok, count := ParseRoleOption(argv, at, opts);
      return;
    }
    ok := true;
  }

  /** A token that is none of the spellings the chain has compared it with so
      far names no flag every role accepts. */
  lemma NoSharedSpelling(tok: string)
    requires !IsClientSpelling(tok) && !IsSessionSpelling(tok)
    requires !IsWillSpelling(tok) && !IsTlsSpelling(tok) && tok != "-V" && tok != "--trace"
    ensures SharedFlag(tok) == None
  {
  }

  /** The flags of the record's role: the subscriber's `--no-print-retained`
      here, the publisher's in `ParsePublisherOption`; any other token, and
      any token for a record of neither role, is an unknown option. */
  method ParseRoleOption(argv: seq<string>, at: nat, opts: PubsubOpts) returns (ok: bool, count: nat)
    requires at < |argv| && SharedFlag(argv[at]) == None
    modifies opts
    ensures ok ==> Step(argv, at, old(opts.Snapshot())) == Next(count, opts.Snapshot())
    ensures !ok ==> Step(argv, at, old(opts.Snapshot())) == Stop && opts.Snapshot() == old(opts.Snapshot())
  {
    count := at;
    var arg := argv[count];
    if opts.publisher == 0 {
      if arg == "--no-print-retained" || arg == "-R" {
        ScanNoPrintRetained(argv, count, opts.Snapshot());
        opts.SetRetained(1);
      } else {
        ScanUnknown(argv, count, opts.Snapshot());
        return false, count;
      }
    } else if opts.publisher == 1 {
      ok, count := ParsePublisherOption(argv, at, opts);
      return;
    } else {
      ScanUnknown(argv, count, opts.Snapshot());
      return false, count;
    }
    ok := true;
  }

  /** The flags only a publisher accepts; any other token is an unknown option. */
  method ParsePublisherOption(argv: seq<string>, at: nat, opts: PubsubOpts) returns (ok: bool, count: nat)
    requires at < |argv| && opts.publisher == 1 && SharedFlag(argv[at]) == None
    modifies opts
    ensures ok ==> Step(argv, at, old(opts.Snapshot())) == Next(count, opts.Snapshot())
    ensures !ok ==> Step(argv, at, old(opts.Snapshot())) == Stop && opts.Snapshot() == old(opts.Snapshot())
  {
    count := at;
    var arg := argv[count];
    if arg == "--retained" || arg == "-r" {
      ScanRetained(argv, count, opts.Snapshot());
      opts.SetRetained(1);
    } else if arg == "--user-property" {
      ScanUserProperty(argv, count, opts.Snapshot());
      if count + 2 < |argv| {
        count := count + 1;
        opts.SetUserPropertyName(Some(argv[count]));
        count := count + 1;
        opts.SetUserPropertyValue(Some(argv[count]));
      } else {
        return false, count;
      }
    } else if arg == "--message-expiry" {
      ScanMessageExpiry(argv, count, opts.Snapshot());
      count := count + 1;
      if count < |argv| { opts.SetMessageExpiry(Numbers.Atoi(argv[count])); } else { return false, count; }
    } else if arg == "-m" || arg == "--message" {
      ScanMessage(argv, count, opts.Snapshot());
      count := count + 1;
      if count < |argv| {
        opts.SetStdinLines(0);
        opts.SetMessage(Some(argv[count]));
      } else {
        return false, count;
      }
    } else if arg == "-f" || arg == "--filename" {
      ScanFilename(argv, count, opts.Snapshot());
      count := count + 1;
      if count < |argv| {
        opts.SetStdinLines(0);
        opts.SetMessage(Some(argv[count]));
      } else {
        return false, count;
      }
    } else if arg == "-n" || arg == "--null-message" {
      ScanNullMessage(argv, count, opts.Snapshot());
      opts.SetStdinLines(0);
      opts.SetNullMessage(1);
    } else {
      ScanUnknown(argv, count, opts.Snapshot());
      return false, count;
    }
    ok := true;
  }
}
