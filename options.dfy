/** The options record of the Paho MQTT C publish/subscribe samples
    (`struct pubsub_opts`), as far as the option parser reads and writes it.

    The record is owned by the calling program, filled with defaults before
    parsing, and updated field by field while the parser walks `argv`.  It is
    therefore a class whose fields mirror the struct's; `Snapshot` gives its
    value as an `Opts`, on which the parser's reference semantics is stated. */
module Options {

  /** A C `char*` field: `None` is the null pointer. */
  datatype Option<+T> = None | Some(value: T)

  /** The MQTT protocol versions `-V` can select.  `VersionDefault` stands for
      whatever other value the caller put in the field before parsing. */
  datatype MqttVersion = VersionDefault | Version31 | Version311 | Version5

  /** The trace levels `--trace` can select.  `TraceDefault` stands for
      whatever other value the caller put in the field before parsing. */
  datatype TraceLevel = TraceDefault | TraceError | TraceProtocol | TraceMinimum | TraceMaximum

  /** The single MQTT v5 user property (`opts->user_property`). */
  datatype UserProperty = UserProperty(name: Option<string>, value: Option<string>)

  /** The value of the options record.  The integer fields are C `int`s;
      see README for what is not modelled about their width. */
  datatype Opts = Opts(
    publisher: int,
    verbose: int,
    qos: int,
    retained: int,
    connection: Option<string>,
    host: Option<string>,
    port: Option<string>,
    clientId: Option<string>,
    username: Option<string>,
    password: Option<string>,
    maxDataLen: int,
    delimiter: Option<string>,
    keepAlive: int,
    topic: Option<string>,
    willTopic: Option<string>,
    willPayload: Option<string>,
    willQos: int,
    willRetain: int,
    insecure: int,
    caPath: Option<string>,
    caFile: Option<string>,
    cert: Option<string>,
    key: Option<string>,
    keyPass: Option<string>,
    ciphers: Option<string>,
    mqttVersion: MqttVersion,
    traceLevel: TraceLevel,
    userProperty: UserProperty,
    messageExpiry: int,
    message: Option<string>,
    stdinLines: int,
    nullMessage: int)

  /** The caller-owned record that the parser updates in place. */
  class PubsubOpts {
    var publisher: int
    var verbose: int
    var qos: int
    var retained: int
    var connection: Option<string>
    var host: Option<string>
    var port: Option<string>
    var clientId: Option<string>
    var username: Option<string>
    var password: Option<string>
    var maxDataLen: int
    var delimiter: Option<string>
    var keepAlive: int
    var topic: Option<string>
    var willTopic: Option<string>
    var willPayload: Option<string>
    var willQos: int
    var willRetain: int
    var insecure: int
    var caPath: Option<string>
    var caFile: Option<string>
    var cert: Option<string>
    var key: Option<string>
    var keyPass: Option<string>
    var ciphers: Option<string>
    var mqttVersion: MqttVersion
    var traceLevel: TraceLevel
    var userProperty: UserProperty
    var messageExpiry: int
    var message: Option<string>
    var stdinLines: int
    var nullMessage: int

    /** The current value of every field. */
    function Snapshot(): Opts
      reads this
    {
      Opts(publisher, verbose, qos, retained, connection, host, port, clientId,
           username, password, maxDataLen, delimiter, keepAlive, topic, willTopic,
           willPayload, willQos, willRetain, insecure, caPath, caFile, cert, key,
           keyPass, ciphers, mqttVersion, traceLevel, userProperty, messageExpiry,
           message, stdinLines, nullMessage)
    }

    /* One method per field the parser assigns: each writes that field alone,
       so that a caller reasons about one write at a time. */

    /** `opts->verbose = v` */
    method SetVerbose(v: int)
      modifies this
      ensures Snapshot() == old(Snapshot()).(verbose := v)
    {
      verbose := v;
    }

    /** `opts->qos = v` */
    method SetQos(v: int)
      modifies this
      ensures Snapshot() == old(Snapshot()).(qos := v)
    {
      qos := v;
    }

    /** `opts->retained = v` */
    method SetRetained(v: int)
      modifies this
      ensures Snapshot() == old(Snapshot()).(retained := v)
    {
      retained := v;
    }

    /** `opts->connection = v` */
    method SetConnection(v: Option<string>)
      modifies this
      ensures Snapshot() == old(Snapshot()).(connection := v)
    {
      connection := v;
    }

    /** `opts->host = v` */
    method SetHost(v: Option<string>)
      modifies this
      ensures Snapshot() == old(Snapshot()).(host := v)
    {
      host := v;
    }

    /** `opts->port = v` */
    method SetPort(v: Option<string>)
      modifies this
      ensures Snapshot() == old(Snapshot()).(port := v)
    {
      port := v;
    }

    /** `opts->clientid = v` */
    method SetClientId(v: Option<string>)
      modifies this
      ensures Snapshot() == old(Snapshot()).(clientId := v)
    {
      clientId := v;
    }

    /** `opts->username = v` */
    method SetUsername(v: Option<string>)
      modifies this
      ensures Snapshot() == old(Snapshot()).(username := v)
    {
      username := v;
    }

    /** `opts->password = v` */
    method SetPassword(v: Option<string>)
      modifies this
      ensures Snapshot() == old(Snapshot()).(password := v)
    {
      password := v;
    }

    /** `opts->maxdatalen = v` */
    method SetMaxDataLen(v: int)
      modifies this
      ensures Snapshot() == old(Snapshot()).(maxDataLen := v)
    {
      maxDataLen := v;
    }

    /** `opts->delimiter = v` */
    method SetDelimiter(v: Option<string>)
      modifies this
      ensures Snapshot() == old(Snapshot()).(delimiter := v)
    {
      delimiter := v;
    }

    /** `opts->keepalive = v` */
    method SetKeepAlive(v: int)
      modifies this
      ensures Snapshot() == old(Snapshot()).(keepAlive := v)
    {
      keepAlive := v;
    }

    /** `opts->topic = v` */
    method SetTopic(v: Option<string>)
      modifies this
      ensures Snapshot() == old(Snapshot()).(topic := v)
    {
      topic := v;
    }

    /** `opts->will_topic = v` */
    method SetWillTopic(v: Option<string>)
      modifies this
      ensures Snapshot() == old(Snapshot()).(willTopic := v)
    {
      willTopic := v;
    }

    /** `opts->will_payload = v` */
    method SetWillPayload(v: Option<string>)
      modifies this
      ensures Snapshot() == old(Snapshot()).(willPayload := v)
    {
      willPayload := v;
    }

    /** `opts->will_qos = v` */
    method SetWillQos(v: int)
      modifies this
      ensures Snapshot() == old(Snapshot()).(willQos := v)
    {
      willQos := v;
    }

    /** `opts->will_retain = v` */
    method SetWillRetain(v: int)
      modifies this
      ensures Snapshot() == old(Snapshot()).(willRetain := v)
    {
      willRetain := v;
    }

    /** `opts->insecure = v` */
    method SetInsecure(v: int)
      modifies this
      ensures Snapshot() == old(Snapshot()).(insecure := v)
    {
      insecure := v;
    }

    /** `opts->capath = v` */
    method SetCaPath(v: Option<string>)
      modifies this
      ensures Snapshot() == old(Snapshot()).(caPath := v)
    {
      caPath := v;
    }

    /** `opts->cafile = v` */
    method SetCaFile(v: Option<string>)
      modifies this
      ensures Snapshot() == old(Snapshot()).(caFile := v)
    {
      caFile := v;
    }

    /** `opts->cert = v` */
    method SetCert(v: Option<string>)
      modifies this
      ensures Snapshot() == old(Snapshot()).(cert := v)
    {
      cert := v;
    }

    /** `opts->key = v` */
    method SetKey(v: Option<string>)
      modifies this
      ensures Snapshot() == old(Snapshot()).(key := v)
    {
      key := v;
    }

    /** `opts->keypass = v` */
    method SetKeyPass(v: Option<string>)
      modifies this
      ensures Snapshot() == old(Snapshot()).(keyPass := v)
    {
      keyPass := v;
    }

    /** `opts->ciphers = v` */
    method SetCiphers(v: Option<string>)
      modifies this
      ensures Snapshot() == old(Snapshot()).(ciphers := v)
    {
      ciphers := v;
    }

    /** `opts->MQTTVersion = v` */
    method SetMqttVersion(v: MqttVersion)
      modifies this
      ensures Snapshot() == old(Snapshot()).(mqttVersion := v)
    {
      mqttVersion := v;
    }

    /** `opts->tracelevel = v` */
    method SetTraceLevel(v: TraceLevel)
      modifies this
      ensures Snapshot() == old(Snapshot()).(traceLevel := v)
    {
      traceLevel := v;
    }

    /** `opts->message_expiry = v` */
    method SetMessageExpiry(v: int)
      modifies this
      ensures Snapshot() == old(Snapshot()).(messageExpiry := v)
    {
      messageExpiry := v;
    }

    /** `opts->message = v` */
    method SetMessage(v: Option<string>)
      modifies this
      ensures Snapshot() == old(Snapshot()).(message := v)
    {
      message := v;
    }

    /** `opts->stdin_lines = v` */
    method SetStdinLines(v: int)
      modifies this
      ensures Snapshot() == old(Snapshot()).(stdinLines := v)
    {
      stdinLines := v;
    }

    /** `opts->null_message = v` */
    method SetNullMessage(v: int)
      modifies this
      ensures Snapshot() == old(Snapshot()).(nullMessage := v)
    {
      nullMessage := v;
    }

    /** `opts->user_property.name = v` */
    method SetUserPropertyName(v: Option<string>)
      modifies this
      ensures Snapshot() == old(Snapshot()).(userProperty := old(userProperty).(name := v))
    {
      userProperty := userProperty.(name := v);
    }

    /** `opts->user_property.value = v` */
    method SetUserPropertyValue(v: Option<string>)
      modifies this
      ensures Snapshot() == old(Snapshot()).(userProperty := old(userProperty).(value := v))
    {
      userProperty := userProperty.(value := v);
    }
  }
}
