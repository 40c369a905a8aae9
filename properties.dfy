/** Properties of the option parser stated over its reference semantics
    (`Scanning.Parse`), and therefore, through `Parser.GetOpts`'s contract,
    of the parser itself. */
module Properties {
  import opened Options
  import opened Flags
  import opened Numbers
  import opened Scanning

  /** No token from `argv[c]` on is a spelling of `--topic`. */
  predicate NoTopicFlag(argv: seq<string>, c: nat) {
    forall i :: c <= i < |argv| ==> argv[i] != "--topic" && argv[i] != "-t"
  }

  /** Only the two spellings of `--topic` name the topic flag. */
  lemma ClassifyTopic(tok: string, publisher: int)
    requires Classify(tok, publisher) == Some(Topic)
    ensures tok == "--topic" || tok == "-t"
  {
  }

  /** No flag changes the role: a scan leaves `publisher` as it found it. */
  lemma {:induction false} ScanKeepsPublisher(argv: seq<string>, c: nat, o: Opts)
    ensures Scan(argv, c, o).opts.publisher == o.publisher
    decreases |argv| - c
  {
    if c < |argv| {
      ScanClassified(argv, c, o);
      match Classify(argv[c], o.publisher)
      case None =>
      case Some(f) =>
        if c + Arity(f) < |argv| {
          match Apply(f, argv[c + 1 .. c + 1 + Arity(f)], o)
          case None =>
          case Some(o') => ScanKeepsPublisher(argv, c + 1 + Arity(f), o');
        }
    }
  }

  /** Once set, the topic is never cleared: every flag either leaves it
      alone or sets it to a token. */
  lemma {:induction false} ScanKeepsTopic(argv: seq<string>, c: nat, o: Opts)
    requires o.topic.Some?
    ensures Scan(argv, c, o).opts.topic.Some?
    decreases |argv| - c
  {
    if c < |argv| {
      ScanClassified(argv, c, o);
      match Classify(argv[c], o.publisher)
      case None =>
      case Some(f) =>
        if c + Arity(f) < |argv| {
          match Apply(f, argv[c + 1 .. c + 1 + Arity(f)], o)
          case None =>
          case Some(o') => ScanKeepsTopic(argv, c + 1 + Arity(f), o');
        }
    }
  }

  /** Without a `--topic` token ahead, a scan ends with the topic it started with. */
  lemma {:induction false} ScanTopicUnchanged(argv: seq<string>, c: nat, o: Opts)
    requires NoTopicFlag(argv, c)
    ensures Scan(argv, c, o).opts.topic == o.topic
    decreases |argv| - c
  {
    if c < |argv| {
      ScanClassified(argv, c, o);
      match Classify(argv[c], o.publisher)
      case None =>
      case Some(f) =>
        if c + Arity(f) < |argv| {
          if f == Topic {
            ClassifyTopic(argv[c], o.publisher);
          }
          match Apply(f, argv[c + 1 .. c + 1 + Arity(f)], o)
          case None =>
          case Some(o') => ScanTopicUnchanged(argv, c + 1 + Arity(f), o');
        }
    }
  }

  /** With no topic before parsing, no positional topic and no `--topic`
      flag, the parse fails whatever the other flags are. */
  lemma MissingTopicFails(argv: seq<string>, o: Opts)
    requires |argv| >= 2 && o.topic == None
    requires StartsWithDash(argv[1]) && NoTopicFlag(argv, 1)
    ensures Parse(argv, o).rc == 1
    ensures Parse(argv, o).opts.topic == None
  {
    ScanTopicUnchanged(argv, 1, o);
  }

  /** A first token that does not start with `-` is the topic: the parse then
      succeeds exactly when the flags after it scan without error, and a
      later `--topic` is the only way to replace it. */
  lemma PositionalTopic(argv: seq<string>, o: Opts)
    requires |argv| >= 2 && !StartsWithDash(argv[1])
    ensures Parse(argv, o).rc == 0 <==> Scan(argv, 2, o.(topic := Some(argv[1]))).ok
    ensures NoTopicFlag(argv, 2) ==> Parse(argv, o).opts.topic == Some(argv[1])
  {
    ScanKeepsTopic(argv, 2, o.(topic := Some(argv[1])));
    if NoTopicFlag(argv, 2) {
      ScanTopicUnchanged(argv, 2, o.(topic := Some(argv[1])));
    }
  }

  /** A flag whose arguments would run past the end of `argv` fails where it
      stands, and the record is left as it was at that point: a flag that
      takes arguments fails as the last token, and `--user-property` fails
      with only one token after it.  `Flags.OneArgumentArity` lists the
      spellings of the flags that take one argument. */
  lemma MissingArgumentFails(argv: seq<string>, c: nat, o: Opts, f: Flag)
    requires c < |argv| && Classify(argv[c], o.publisher) == Some(f) && c + Arity(f) >= |argv|
    ensures Scan(argv, c, o) == ScanResult(false, o)
  {
    ScanClassified(argv, c, o);
  }

  /** A token that is no flag of the record's role fails the scan where it
      stands: publisher flags for a subscriber, subscriber flags for a
      publisher, and both for any other role. */
  lemma RoleGating(argv: seq<string>, c: nat, o: Opts)
    requires c < |argv| && argv[c] !in SharedSpellings
    requires o.publisher != 0 || argv[c] !in SubscriberSpellings
    requires o.publisher != 1 || argv[c] !in PublisherSpellings
    ensures Scan(argv, c, o) == ScanResult(false, o)
  {
    ClassifyRoles(argv[c], o.publisher);
    ScanUnknown(argv, c, o);
  }

  /** `--keepalive` reads back the number it is given in decimal. */
  lemma KeepAliveDecimal(argv: seq<string>, c: nat, o: Opts, n: nat)
    requires c + 1 < |argv| && argv[c] == "--keepalive" && argv[c + 1] == Decimal(n)
    ensures Scan(argv, c, o) == Scan(argv, c + 2, o.(keepAlive := n))
  {
    ScanKeepAlive(argv, c, o);
    AtoiDecimal(n);
  }

  /** A publisher run with a positional topic, a QoS and the retained flag. */
  lemma PublisherExample(o: Opts)
    requires o.publisher == 1
    ensures Parse(["pub", "t", "--qos", "2", "--retained"], o)
      == Outcome(0, o.(topic := Some("t"), qos := 2, retained := 1))
  {
    var argv := ["pub", "t", "--qos", "2", "--retained"];
    var o1 := o.(topic := Some("t"));
    ScanQos(argv, 2, o1);
    ScanRetained(argv, 4, o1.(qos := 2));
  }

  /** There is no rollback: a rejected QoS after `--host` fails the parse
      but leaves the host it has already stored. */
  lemma NoRollbackExample(o: Opts)
    requires o.topic == None
    ensures Parse(["pub", "--host", "broker", "--qos", "7"], o)
      == Outcome(1, o.(host := Some("broker")))
  {
    var argv := ["pub", "--host", "broker", "--qos", "7"];
    ScanHost(argv, 1, o);
    ScanQos(argv, 3, o.(host := Some("broker")));
  }

  /** A subscriber does not accept the publisher's `--message`. */
  lemma SubscriberRejectsMessage(o: Opts)
    requires o.publisher == 0
    ensures Parse(["sub", "t", "--message", "hi"], o) == Outcome(1, o.(topic := Some("t")))
  {
    var argv := ["sub", "t", "--message", "hi"];
    RoleGating(argv, 2, o.(topic := Some("t")));
  }

  /** `--user-property` with only one token after it fails. */
  lemma UserPropertyNeedsTwo(o: Opts)
    requires o.publisher == 1
    ensures Parse(["pub", "t", "--user-property", "a"], o) == Outcome(1, o.(topic := Some("t")))
  {
    var argv := ["pub", "t", "--user-property", "a"];
    ScanUserProperty(argv, 2, o.(topic := Some("t")));
  }
}
