# getopts of the Paho MQTT C publish/subscribe samples

This project models `getopts`, the command-line parser that the Paho MQTT C
sample clients `paho_c_pub` and `paho_c_sub` share. `getopts` walks the
argument vector once, from left to right, with a cursor `count`. A first
token that does not start with `-` is the topic. Each later token is compared
with a fixed chain of flag spellings. A flag may consume zero, one or two
following tokens, and it writes its result into the caller's
`struct pubsub_opts` in place. Which flags are accepted depends on the
record's `publisher` field: 0 for the subscriber, 1 for the publisher. The
parser returns 0, or 1 on the first error. It returns 1 at the end when no
topic has been set.

The model has three layers:

- **Reference semantics.** `Flags` is the flag table: which spelling names
  which flag for which role, each flag's arity, and what each flag does to
  the record. `Scanning.Step` is one pass of the loop body under that
  table. It either goes on, with the cursor on the flag's last argument and
  the updated record, or stops. `Scanning.Scan` repeats `Step` from left to
  right over `argv`. `Scanning.Parse` is the whole call.
- **The program.** `Parser.GetOpts` is the imperative parser: a `while`
  loop over `count` that mirrors the source's if/else-if chain and updates a
  `PubsubOpts` object in place. It is proved to compute exactly
  `Scanning.Parse`, through the loop invariant `Scan(argv, count, current
  record) == Scan(argv, start, initial record)`.
- **Properties.** `Properties` states what the parse promises, and
  `Numbers` models the C library's `atoi`, which the numeric flags use.

The `if/else-if` chain is cut into consecutive methods, in the source's order:
`ParseClientOption`, `ParseSessionOption`, `ParseWillOption`,
`ParseTlsOption`, `ParseProtocolOption`, `ParseRoleOption` and
`ParsePublisherOption`. Each one tries its own flags and hands any other
token to the next in its final `else`. Each one is proved to compute
exactly `Step`: its success flag, its cursor and the record it leaves. On
failure, the record is the one it was called with. Each field assignment
`opts->field = value` is a method of the `PubsubOpts` class (`SetHost`,
`SetQos`, …) that writes that field alone.

## Model

| member | source | states |
|---|---|---|
| Parser.GetOpts | src/samples/pubsub_opts.c:50-336 | the return code and the record left in the caller's object are exactly those of the reference parse `Parse(argv, initial record)`, so every property proved of `Parse` holds of the program |
| Parser.ParseClientOption | src/samples/pubsub_opts.c:62-100 | tries `--verbose`, `--qos`, `--connection`, `--host` and `--port`, and hands any other token on down the chain; when it returns success, the cursor is on the flag's last argument and the record is exactly the one `Step` gives from the record it was called with; when it returns failure, `Step` stops at that token and the record is exactly as it was called with. It is one pass of the loop body, with nothing left open |
| Parser.ParseSessionOption | src/samples/pubsub_opts.c:101-149 | the same exact one-step contract, for `--clientid`, `--username`, `--password`, `--maxdatalen`, `--delimiter`, `--keepalive` and `--topic` and the rest of the chain |
| Parser.ParseWillOption | src/samples/pubsub_opts.c:150-177 | the same exact one-step contract, for the four `--will-*` flags (each step ends on the flag's one argument) and the rest of the chain |
| Parser.ParseTlsOption | src/samples/pubsub_opts.c:178-226 | the same exact one-step contract, for `--insecure`, `--capath`, `--cafile`, `--cert`, `--key`, `--keypass`, `--ciphers` and the rest of the chain |
| Parser.ParseProtocolOption | src/samples/pubsub_opts.c:227-260 | the same exact one-step contract, for `-V` and `--trace` and the rest of the chain: an unknown version or level returns failure with the record untouched |
| Parser.NoSharedSpelling | src/samples/pubsub_opts.c:62-260 | a token unequal to every spelling compared so far names no flag shared by both roles |
| Parser.ParseRoleOption | src/samples/pubsub_opts.c:261-327 | the same exact one-step contract for a token that is no shared flag: a subscriber accepts `-R`/`--no-print-retained`, a publisher goes on to its own flags, and any other token, or any token when `publisher` is neither 0 nor 1, returns failure with the record untouched |
| Parser.ParsePublisherOption | src/samples/pubsub_opts.c:271-322 | the same exact one-step contract for the publisher's `--retained`, `--user-property` (the step ends on its second argument), `--message-expiry`, `-m`, `-f` and `-n`; any other token returns failure with the record untouched |
| Options.PubsubOpts.SetVerbose | src/samples/pubsub_opts.c:63 | writes `verbose` and no other field |
| Options.PubsubOpts.SetQos | src/samples/pubsub_opts.c:68-73 | writes `qos` and no other field |
| Options.PubsubOpts.SetConnection | src/samples/pubsub_opts.c:83 | writes `connection` and no other field |
| Options.PubsubOpts.SetHost | src/samples/pubsub_opts.c:90 | writes `host` and no other field |
| Options.PubsubOpts.SetPort | src/samples/pubsub_opts.c:97 | writes `port` and no other field |
| Options.PubsubOpts.SetClientId | src/samples/pubsub_opts.c:104 | writes `clientid` and no other field |
| Options.PubsubOpts.SetUsername | src/samples/pubsub_opts.c:111 | writes `username` and no other field |
| Options.PubsubOpts.SetPassword | src/samples/pubsub_opts.c:118 | writes `password` and no other field |
| Options.PubsubOpts.SetMaxDataLen | src/samples/pubsub_opts.c:125 | writes `maxdatalen` and no other field |
| Options.PubsubOpts.SetDelimiter | src/samples/pubsub_opts.c:132 | writes `delimiter` and no other field |
| Options.PubsubOpts.SetKeepAlive | src/samples/pubsub_opts.c:139 | writes `keepalive` and no other field |
| Options.PubsubOpts.SetTopic | src/samples/pubsub_opts.c:146 | writes `topic` and no other field (also used for the positional topic at line 56) |
| Options.PubsubOpts.SetWillTopic | src/samples/pubsub_opts.c:153 | writes `will_topic` and no other field |
| Options.PubsubOpts.SetWillPayload | src/samples/pubsub_opts.c:160 | writes `will_payload` and no other field |
| Options.PubsubOpts.SetWillQos | src/samples/pubsub_opts.c:167 | writes `will_qos` and no other field |
| Options.PubsubOpts.SetWillRetain | src/samples/pubsub_opts.c:174 | writes `will_retain` and no other field |
| Options.PubsubOpts.SetInsecure | src/samples/pubsub_opts.c:181 | writes `insecure` and no other field |
| Options.PubsubOpts.SetCaPath | src/samples/pubsub_opts.c:188 | writes `capath` and no other field |
| Options.PubsubOpts.SetCaFile | src/samples/pubsub_opts.c:195 | writes `cafile` and no other field |
| Options.PubsubOpts.SetCert | src/samples/pubsub_opts.c:202 | writes `cert` and no other field |
| Options.PubsubOpts.SetKey | src/samples/pubsub_opts.c:209 | writes `key` and no other field |
| Options.PubsubOpts.SetKeyPass | src/samples/pubsub_opts.c:216 | writes `keypass` and no other field |
| Options.PubsubOpts.SetCiphers | src/samples/pubsub_opts.c:223 | writes `ciphers` and no other field |
| Options.PubsubOpts.SetMqttVersion | src/samples/pubsub_opts.c:231-236 | writes `MQTTVersion` and no other field |
| Options.PubsubOpts.SetTraceLevel | src/samples/pubsub_opts.c:247-254 | writes `tracelevel` and no other field |
| Options.PubsubOpts.SetRetained | src/samples/pubsub_opts.c:264 | writes `retained` and no other field (also the publisher's `-r` at line 274) |
| Options.PubsubOpts.SetUserPropertyName | src/samples/pubsub_opts.c:279 | writes the user property's name and leaves its value and every other field |
| Options.PubsubOpts.SetUserPropertyValue | src/samples/pubsub_opts.c:280 | writes the user property's value and leaves its name and every other field |
| Options.PubsubOpts.SetMessageExpiry | src/samples/pubsub_opts.c:288 | writes `message_expiry` and no other field |
| Options.PubsubOpts.SetStdinLines | src/samples/pubsub_opts.c:296 | writes `stdin_lines` and no other field (also lines 306 and 314) |
| Options.PubsubOpts.SetMessage | src/samples/pubsub_opts.c:297 | writes `message` and no other field (also line 307) |
| Options.PubsubOpts.SetNullMessage | src/samples/pubsub_opts.c:315 | writes `null_message` and no other field |
| Scanning.Parse | src/samples/pubsub_opts.c:50-336 | the return code is 0 or 1, and 0 only when a topic is set at the end |
| Scanning.Scan | src/samples/pubsub_opts.c:60-330 | definition (no contract of its own): the loop, repeating `Step` from a cursor until the end of `argv` or the first `Stop`, keeping every update made before that point; `ScanStep` states it one step at a time |
| Scanning.Start | src/samples/pubsub_opts.c:52-58 | definition (no contract of its own): a first token that does not start with `-`, the empty string included, becomes the topic and scanning starts at index 2, otherwise at index 1; `Properties.PositionalTopic` and `Properties.MissingTopicFails` state its effect on the parse |
| Scanning.Step | src/samples/pubsub_opts.c:60-329 | one pass of the loop body at a cursor, for the flag `Classify` finds there: a step that goes on ends on a token of `argv` at or after the cursor |
| Scanning.StepFlag | src/samples/pubsub_opts.c:60-329 | a step that goes on names a flag and ends exactly `Arity` tokens after the cursor, inside `argv`; an unknown token, a missing argument and a rejected value stop it |
| Scanning.ScanStep | src/samples/pubsub_opts.c:60-330 | the scan from a cursor stops with the record unchanged where `Step` stops, and otherwise continues right after the step's last token on the record the step produced |
| Scanning.ScanClassified | src/samples/pubsub_opts.c:60-329 | the scan at a token is the scan of the flag the token names in the record's role |
| Scanning.ScanVerbose | src/samples/pubsub_opts.c:62-63 | `--verbose`/`-v` sets `verbose` to 1 and the step ends on the flag itself, so the scan resumes at the next token |
| Scanning.ScanQos | src/samples/pubsub_opts.c:64-79 | `--qos`/`-q` accepts exactly "0", "1", "2" as the next token and sets `qos` to that level, and the step ends on that argument; any other token, or none, stops with the record unchanged |
| Scanning.ScanConnection | src/samples/pubsub_opts.c:80-86 | `--connection`/`-c` stores the next token, and the step ends on that argument; as the last token the step stops with the record unchanged |
| Scanning.ScanHost | src/samples/pubsub_opts.c:87-93 | `--host`/`-h` stores the next token, and the step ends on that argument; as the last token the step stops with the record unchanged |
| Scanning.ScanPort | src/samples/pubsub_opts.c:94-100 | `--port`/`-p` stores the next token, and the step ends on that argument; as the last token the step stops with the record unchanged |
| Scanning.ScanClientId | src/samples/pubsub_opts.c:101-107 | `--clientid`/`-i` stores the next token, and the step ends on that argument; as the last token the step stops with the record unchanged |
| Scanning.ScanUsername | src/samples/pubsub_opts.c:108-114 | `--username`/`-u` stores the next token, and the step ends on that argument; as the last token the step stops with the record unchanged |
| Scanning.ScanPassword | src/samples/pubsub_opts.c:115-121 | `--password`/`-P` stores the next token, and the step ends on that argument; as the last token the step stops with the record unchanged |
| Scanning.ScanMaxDataLen | src/samples/pubsub_opts.c:122-128 | `--maxdatalen` stores `atoi` of the next token, and the step ends on that argument; as the last token the step stops with the record unchanged |
| Scanning.ScanDelimiter | src/samples/pubsub_opts.c:129-135 | `--delimiter` stores the next token, and the step ends on that argument; as the last token the step stops with the record unchanged |
| Scanning.ScanKeepAlive | src/samples/pubsub_opts.c:136-142 | `--keepalive`/`-k` stores `atoi` of the next token, and the step ends on that argument; as the last token the step stops with the record unchanged |
| Scanning.ScanTopic | src/samples/pubsub_opts.c:143-149 | `--topic`/`-t` stores the next token as the topic, and the step ends on that argument; as the last token the step stops with the record unchanged |
| Scanning.ScanWillTopic | src/samples/pubsub_opts.c:150-156 | `--will-topic` stores the next token, and the step ends on that argument; as the last token the step stops with the record unchanged |
| Scanning.ScanWillPayload | src/samples/pubsub_opts.c:157-163 | `--will-payload` stores the next token, and the step ends on that argument; as the last token the step stops with the record unchanged |
| Scanning.ScanWillQos | src/samples/pubsub_opts.c:164-170 | `--will-qos` stores `atoi` of the next token, and the step ends on that argument; as the last token the step stops with the record unchanged |
| Scanning.ScanWillRetain | src/samples/pubsub_opts.c:171-177 | `--will-retain` consumes and ignores one token and sets `will_retain` to 1, and the step ends on that argument; as the last token the step stops with the record unchanged |
| Scanning.ScanInsecure | src/samples/pubsub_opts.c:178-184 | `--insecure` consumes and ignores one token and sets `insecure` to 1, and the step ends on that argument; as the last token the step stops with the record unchanged |
| Scanning.ScanCaPath | src/samples/pubsub_opts.c:185-191 | `--capath` stores the next token, and the step ends on that argument; as the last token the step stops with the record unchanged |
| Scanning.ScanCaFile | src/samples/pubsub_opts.c:192-198 | `--cafile` stores the next token, and the step ends on that argument; as the last token the step stops with the record unchanged |
| Scanning.ScanCert | src/samples/pubsub_opts.c:199-205 | `--cert` stores the next token, and the step ends on that argument; as the last token the step stops with the record unchanged |
| Scanning.ScanKey | src/samples/pubsub_opts.c:206-212 | `--key` stores the next token, and the step ends on that argument; as the last token the step stops with the record unchanged |
| Scanning.ScanKeyPass | src/samples/pubsub_opts.c:213-219 | `--keypass` stores the next token, and the step ends on that argument; as the last token the step stops with the record unchanged |
| Scanning.ScanCiphers | src/samples/pubsub_opts.c:220-226 | `--ciphers` stores the next token, and the step ends on that argument; as the last token the step stops with the record unchanged |
| Scanning.ScanVersion | src/samples/pubsub_opts.c:227-242 | `-V` sets the protocol version named by the next token, and the step ends on that argument; an unknown spelling, or none, stops with the record unchanged |
| Scanning.ScanTrace | src/samples/pubsub_opts.c:243-260 | `--trace` sets the trace level named by the next token, and the step ends on that argument; an unknown spelling, or none, stops with the record unchanged |
| Scanning.ScanNoPrintRetained | src/samples/pubsub_opts.c:261-264 | for a subscriber, `--no-print-retained`/`-R` sets `retained` to 1 and the step ends on the flag itself, so the scan resumes at the next token |
| Scanning.ScanRetained | src/samples/pubsub_opts.c:273-274 | for a publisher, `--retained`/`-r` sets `retained` to 1 and the step ends on the flag itself, so the scan resumes at the next token |
| Scanning.ScanUserProperty | src/samples/pubsub_opts.c:275-284 | for a publisher, `--user-property` takes the next two tokens as name and value, and the step ends on the second; with fewer than two left it stops with the record unchanged |
| Scanning.ScanMessageExpiry | src/samples/pubsub_opts.c:285-291 | for a publisher, `--message-expiry` stores `atoi` of the next token, and the step ends on that argument; as the last token the step stops with the record unchanged |
| Scanning.ScanMessage | src/samples/pubsub_opts.c:292-301 | for a publisher, `-m`/`--message` sets `stdin_lines` to 0 and stores the next token as the message, and the step ends on that argument; as the last token the step stops with the record unchanged |
| Scanning.ScanFilename | src/samples/pubsub_opts.c:302-311 | for a publisher, `-f`/`--filename` does the same as `-m`: the token goes into `message`, not into a separate file-name field |
| Scanning.ScanNullMessage | src/samples/pubsub_opts.c:312-316 | for a publisher, `-n`/`--null-message` sets `stdin_lines` to 0 and `null_message` to 1 and the step ends on the flag itself, so the scan resumes at the next token |
| Scanning.ScanUnknown | src/samples/pubsub_opts.c:317-327 | a token that names no flag in the record's role stops the step and the scan where it stands, with the record unchanged |
| Flags.QosLevel | src/samples/pubsub_opts.c:66-75 | exactly "0", "1" and "2" are accepted, each read as its own decimal value |
| Flags.ProtocolVersion | src/samples/pubsub_opts.c:229-238 | a version is found exactly when the token is one of that version's two spellings |
| Flags.TraceLevelOf | src/samples/pubsub_opts.c:245-256 | a trace level is found exactly when the token is one of that level's spellings |
| Flags.Classify | src/samples/pubsub_opts.c:62-327 | definition (no contract of its own): the flag a token names in a role, checking the flags both roles accept before the role's own as the comparison chain does; `Flags.ClassifyRoles` states which tokens it recognises |
| Flags.Arity | src/samples/pubsub_opts.c:62-316 | definition (no contract of its own): how many tokens after the flag it consumes, 0 for `-v`, `-R`, `-r` and `-n`, 2 for `--user-property` and 1 for every other flag; `Flags.OneArgumentArity` states it for the one-argument spellings |
| Flags.Apply | src/samples/pubsub_opts.c:62-316 | only `--qos`, `-V` and `--trace` can reject their argument; no flag changes `publisher`; only `--topic` changes the topic |
| Flags.ClassifyRoles | src/samples/pubsub_opts.c:261-327 | a token is recognised exactly when it is a shared spelling, a subscriber spelling with `publisher == 0`, or a publisher spelling with `publisher == 1` |
| Flags.OneArgumentArity | src/samples/pubsub_opts.c:80-311 | every flag listed as taking one argument consumes exactly one following token |
| Properties.ScanKeepsPublisher | src/samples/pubsub_opts.c:60-330 | no flag changes the role field |
| Properties.ScanKeepsTopic | src/samples/pubsub_opts.c:143-149 | once the topic is set, the rest of the scan never clears it |
| Properties.ScanTopicUnchanged | src/samples/pubsub_opts.c:143-149 | without a `--topic`/`-t` token ahead, the scan ends with the topic it started with |
| Properties.MissingTopicFails | src/samples/pubsub_opts.c:332-333 | with no incoming topic, no positional topic and no `--topic` flag, the parse returns 1 and the topic stays unset |
| Properties.PositionalTopic | src/samples/pubsub_opts.c:52-58 | a first token not starting with `-` becomes the topic and scanning starts at index 2; the parse then succeeds exactly when that scan succeeds |
| Properties.MissingArgumentFails | src/samples/pubsub_opts.c:87-93 | a flag whose arguments would run past the end of `argv` fails there with the record unchanged, covering every one-argument flag as the last token and `--user-property` (line 277) |
| Properties.RoleGating | src/samples/pubsub_opts.c:261-327 | publisher flags fail for a subscriber, the subscriber flag fails for a publisher, and both fail for any other role |
| Properties.KeepAliveDecimal | src/samples/pubsub_opts.c:136-142 | `--keepalive` followed by a number written in decimal stores that number |
| Properties.PublisherExample | src/samples/pubsub_opts.c:50-336 | `pub t --qos 2 --retained` succeeds with topic `t`, QoS 2 and `retained` set |
| Properties.NoRollbackExample | src/samples/pubsub_opts.c:60-100 | `pub --host broker --qos 7` returns 1 but keeps the host already stored: there is no rollback |
| Properties.SubscriberRejectsMessage | src/samples/pubsub_opts.c:261-270 | a subscriber given `--message` returns 1 |
| Properties.UserPropertyNeedsTwo | src/samples/pubsub_opts.c:275-284 | `--user-property` with only one token after it returns 1 |
| Numbers.Atoi | src/samples/pubsub_opts.c:125 | definition (no contract of its own): C `atoi`, which skips leading white space, reads an optional sign and then the longest run of digits, with unbounded integers; `AtoiDecimal`, `AtoiSignedDigits` and `AtoiSkipsSpace` state what it reads |
| Numbers.AtoiDecimal | src/samples/pubsub_opts.c:139 | `atoi` reads back every non-negative number written in decimal |
| Numbers.AtoiSignedDigits | src/samples/pubsub_opts.c:125 | after any run of white space, `atoi` reads a decimal number with a `-` sign as its negation, and with a `+` sign or no sign as the number itself, ignoring everything after the digits |
| Numbers.AtoiSkipsSpace | src/samples/pubsub_opts.c:139 | leading white space (space, tab, newline, vertical tab, form feed, carriage return) never changes what `atoi` reads |

## Left out

- `usage` and the `Unknown option` messages written to standard error: the model keeps only the return code 1.
- The C `int` width: integers are unbounded. `atoi` of a number outside the range of `int` is undefined behaviour in C and is not modelled.
- The `MQTTVERSION_*` and `MQTTASYNC_TRACE_*` constants come from a header that is not part of this model. They are enum constructors. `VersionDefault` and `TraceDefault` stand for whatever value the caller stored before parsing.
- Pointer aliasing: the string fields hold copies of the `argv` strings, not pointers into `argv`.
- `argv[1]` is read without checking `argc` in the source. `GetOpts` and `Parse` require at least two tokens instead of modelling that undefined behaviour. An empty `argv[1]` is allowed: its first character is the terminating NUL, which is not `-`, so it becomes the topic.
- C strings cannot contain NUL, so `strcmp(a, b) == 0` is modelled as string equality.
- The chain of comparisons is one `if/else-if` statement in the source. The model splits it into seven methods, one after the other in the same order.
- The initial values of the record are not modelled: they come from the calling program, which is not part of this model. Every statement holds for any initial record.
