/** The Unity end of the MQTT contract: the component that queues the sensor
    messages the broker delivers on its network thread, drains them once per
    frame into `OnTagValue` events, and publishes operator commands. */
module UnityClient {
  import opened Wrappers
  import opened Strings
  import opened Json
  import opened Sequences

  /** The serialized defaults of the component's topic fields. */
  const DefaultSensorsFilter: string := "planta/sensores/#"
  const DefaultCommandsBase: string := "planta/comandos/"

  /** The defaults of `PublishCommandAsync`'s optional parameters. */
  const DefaultCommandType: string := "Int32"
  const DefaultCommandSource: string := "unity"

  /** `SensorPayload` as `JsonUtility` fills it in; `value` is a C# `float`. */
  datatype SensorPayload = SensorPayload(vtype: string, ts: string, value: real)

  /** One entry of `incomingQueue`: a topic and the payload text. */
  datatype Incoming = Incoming(topic: string, payload: string)

  /** The arguments of one `OnTagValue(tagTopic, payload)` event. */
  datatype TagValue = TagValue(tagTopic: string, payload: SensorPayload)

  /** The text the receive handler queues for a payload: a null payload becomes
      the empty string, any other is decoded as UTF-8 (by `utf8`). */
  function ReceivedText(payload: Option<seq<byte>>, utf8: seq<byte> -> string): string
  {
    match payload
    case None => ""
    case Some(bytes) => utf8(bytes)
  }

  /** `topic.Split('/', 3)` followed by the `parts.Length < 3` test: the third
      part when there is one. */
  function TagTopicOf(topic: string): Option<string>
  {
    var parts := SplitLimit(topic, '/', 3);
    if |parts| < 3 then None else Some(parts[2])
  }

  /** A topic yields a tag topic exactly when it has at least two slashes, and
      the tag topic is then everything after the second slash, later slashes
      included. */
  lemma TagTopicMeaning(topic: string)
    ensures TagTopicOf(topic).None? <==> |Split(topic, '/')| < 3
    ensures TagTopicOf(topic).Some? ==> TagTopicOf(topic).value == Join(Split(topic, '/')[2..], '/')
  {
    var p := Split(topic, '/');
    SplitLimitAgrees(topic, '/', 3);
    if |p| == 3 {
      assert p[2..] == [p[2]];
    }
  }

  /** The tag topic of `a/b/rest` is `rest`, whatever `rest` holds. */
  lemma TagTopicOfBuilt(a: string, b: string, rest: string)
    requires '/' !in a && '/' !in b
    ensures TagTopicOf(a + "/" + b + "/" + rest) == Some(rest)
  {
    SplitLimitThree(a, b, '/', rest);
  }

  /** The event one dequeued message raises, if any: none for a topic with
      fewer than three parts, none for a payload `parse` rejects. */
  function DeliveryOf(m: Incoming, parse: string -> Option<SensorPayload>): Option<TagValue>
  {
    match TagTopicOf(m.topic)
    case None => None
    case Some(t) =>
      match parse(m.payload)
      case None => None
      case Some(pl) => Some(TagValue(t, pl))
  }

  /** The events one dequeued message raises: none or one. */
  function EventsOf(m: Incoming, parse: string -> Option<SensorPayload>): seq<TagValue>
  {
    if DeliveryOf(m, parse).Some? then [DeliveryOf(m, parse).value] else []
  }

  /** The events raised while draining `q`, front first. */
  function Deliveries(q: seq<Incoming>, parse: string -> Option<SensorPayload>): seq<TagValue>
  {
    if q == [] then [] else EventsOf(q[0], parse) + Deliveries(q[1..], parse)
  }

  /** Draining two queued runs one after the other raises the events of the
      first, then those of the second. */
  lemma {:induction false} DeliveriesAppend(a: seq<Incoming>, b: seq<Incoming>, parse: string -> Option<SensorPayload>)
    ensures Deliveries(a + b, parse) == Deliveries(a, parse) + Deliveries(b, parse)
  {
    if a == [] {
      assert a + b == b;
    } else {
      assert (a + b)[0] == a[0];
      assert (a + b)[1..] == a[1..] + b;
      DeliveriesAppend(a[1..], b, parse);
    }
  }

  /** A message that raises no event (short topic or bad payload) changes
      nothing for the messages queued around it. */
  lemma SkippedMessage(a: seq<Incoming>, m: Incoming, b: seq<Incoming>, parse: string -> Option<SensorPayload>)
    requires DeliveryOf(m, parse).None?
    ensures Deliveries(a + [m] + b, parse) == Deliveries(a + b, parse)
  {
    assert Deliveries([m], parse) == [] by {
      assert [m][1..] == [];
    }
    DeliveriesAppend(a, [m], parse);
    assert Deliveries(a + [m], parse) == Deliveries(a, parse);
    DeliveriesAppend(a + [m], b, parse);
    DeliveriesAppend(a, b, parse);
  }

  /** A message raises an event exactly when its topic has a tag part and the
      parser accepts its payload; the event then carries everything after the
      topic's second slash and the parsed payload. */
  lemma DeliveryMeaning(m: Incoming, parse: string -> Option<SensorPayload>)
    ensures DeliveryOf(m, parse).Some? <==> |Split(m.topic, '/')| >= 3 && parse(m.payload).Some?
    ensures DeliveryOf(m, parse).Some? ==>
      DeliveryOf(m, parse).value == TagValue(Join(Split(m.topic, '/')[2..], '/'), parse(m.payload).value)
  {
    TagTopicMeaning(m.topic);
  }

  /** A topic with fewer than three parts raises no event. */
  lemma ShortTopicIgnored(m: Incoming, parse: string -> Option<SensorPayload>)
    requires |Split(m.topic, '/')| < 3
    ensures DeliveryOf(m, parse) == None
  {
    TagTopicMeaning(m.topic);
  }

  /** At most one event per message. */
  lemma {:induction false} DeliveriesBound(q: seq<Incoming>, parse: string -> Option<SensorPayload>)
    ensures |Deliveries(q, parse)| <= |q|
  {
    if q != [] {
      DeliveriesBound(q[1..], parse);
    }
  }

  /** Events come in queue order: when every message is good, each raises its
      own event and the i-th event comes from the i-th message. */
  lemma {:induction false} DeliveriesInOrder(q: seq<Incoming>, parse: string -> Option<SensorPayload>)
    requires forall i :: 0 <= i < |q| ==> DeliveryOf(q[i], parse).Some?
    ensures |Deliveries(q, parse)| == |q|
    ensures forall i :: 0 <= i < |q| ==> Deliveries(q, parse)[i] == DeliveryOf(q[i], parse).value
  {
    if q != [] {
      var rest := q[1..];
      assert forall i :: 0 <= i < |rest| ==> rest[i] == q[i + 1];
      DeliveriesInOrder(rest, parse);
      var d := Deliveries(q, parse);
      assert d == [DeliveryOf(q[0], parse).value] + Deliveries(rest, parse);
      forall i | 1 <= i < |q|
        ensures d[i] == DeliveryOf(q[i], parse).value
      {
        assert d[i] == Deliveries(rest, parse)[i - 1];
      }
    }
  }

  /** Dequeuing the front message keeps the drain on course: what remains to be
      raised is the events of the rest of the queue. */
  lemma DrainStep(total: seq<TagValue>, before: seq<TagValue>, after: seq<TagValue>,
                  q: seq<Incoming>, parse: string -> Option<SensorPayload>)
    requires q != []
    requires total == before + Deliveries(q, parse)
    requires after == before + EventsOf(q[0], parse)
    ensures total == after + Deliveries(q[1..], parse)
  {
    var e, r := EventsOf(q[0], parse), Deliveries(q[1..], parse);
    assert Deliveries(q, parse) == e + r;
    Regroup(total, before, after, e, r);
  }

  /** The payload `PublishCommandAsync` fills in. */
  datatype CommandPayload = CommandPayload(value: Json, vtype: string, source: string)

  /** A command message: topic, JSON payload, QoS level and retain flag. */
  datatype CommandMessage = CommandMessage(topic: string, payload: Json, qos: nat, retain: bool)

  /** `JsonUtility.ToJson(cmd)` as the code is written: Unity's serializer
      writes only fields of types it can serialize, and a field declared
      `object` is not one of them, so `value` never reaches the text. */
  function CommandJsonAsWritten(cmd: CommandPayload): Json
  {
    Object(map["type" := Str(cmd.vtype), "source" := Str(cmd.source)])
  }

  /** The command document the gateway's listener reads: the value under
      `"value"`, next to the type and the source. */
  function CommandJson(cmd: CommandPayload): Json
  {
    Object(map["value" := cmd.value, "type" := Str(cmd.vtype), "source" := Str(cmd.source)])
  }

  /** As written, no command carries a value. */
  lemma CommandAsWrittenHasNoValue(cmd: CommandPayload)
    ensures Member(CommandJsonAsWritten(cmd), "value") == None
    ensures Member(CommandJsonAsWritten(cmd), "type") == Some(Str(cmd.vtype))
  {
  }

  /** The corrected document hands the value, the type and the source back. */
  lemma CommandJsonRoundTrip(cmd: CommandPayload)
    ensures Member(CommandJson(cmd), "value") == Some(cmd.value)
    ensures Member(CommandJson(cmd), "type") == Some(Str(cmd.vtype))
    ensures Member(CommandJson(cmd), "source") == Some(Str(cmd.source))
  {
  }

  /** The message `PublishCommandAsync` hands to the client as the code is
      written: the topic is the command base followed by the tag topic, the
      payload is what `JsonUtility.ToJson` makes of the command (so it carries
      no `"value"`), QoS 0 ("at most once"), not retained. */
  function CommandFor(commandsBase: string, tagTopic: string, cmd: CommandPayload): CommandMessage
  {
    CommandMessage(commandsBase + tagTopic, CommandJsonAsWritten(cmd), 0, false)
  }

  class MqttUnityClient {
    const sensorsFilter: string
    const commandsBase: string
    /** `incomingQueue`, front first. */
    var incoming: seq<Incoming>
    /** The `OnTagValue` events raised so far, in order. */
    var delivered: seq<TagValue>
    /** The command messages handed to the client, in order. */
    var outgoing: seq<CommandMessage>

    /** A component with the given topic fields (the serialized defaults when
        none are given) and nothing received yet. */
    constructor (sensorsFilter: string := DefaultSensorsFilter, commandsBase: string := DefaultCommandsBase)
      ensures this.sensorsFilter == sensorsFilter && this.commandsBase == commandsBase
      ensures incoming == [] && delivered == [] && outgoing == []
    {
      this.sensorsFilter := sensorsFilter;
      this.commandsBase := commandsBase;
      incoming := [];
      delivered := [];
      outgoing := [];
    }

    /** The application-message handler: queue the topic with the payload
        text, the empty string standing for a null payload. */
    method OnMessageReceived(topic: string, payload: Option<seq<byte>>, utf8: seq<byte> -> string)
      modifies this`incoming
      ensures incoming == old(incoming) + [Incoming(topic, ReceivedText(payload, utf8))]
      ensures payload.None? ==> incoming[|incoming| - 1].payload == ""
    {
      var text := if payload == None then "" else utf8(payload.value);
      incoming := incoming + [Incoming(topic, text)];
    }

    /** `Update`: dequeue until the queue is empty, raising one event per
        message whose topic has a tag part and whose payload parses. */
    method Update(parse: string -> Option<SensorPayload>)
      modifies this`incoming, this`delivered
      ensures incoming == []
      ensures delivered == old(delivered) + Deliveries(old(incoming), parse)
    {
      while incoming != []
        invariant old(delivered) + Deliveries(old(incoming), parse) == delivered + Deliveries(incoming, parse)
        decreases |incoming|
      {
        ghost var before, queued := delivered, incoming;
        var msg := incoming[0];
        incoming := incoming[1..];
        var parts := SplitLimit(msg.topic, '/', 3);
        if |parts| >= 3 {
          var tagTopic := parts[2];
          var pl := parse(msg.payload);
          if pl.Some? {
            delivered := delivered + [TagValue(tagTopic, pl.value)];
          }
        }
        assert delivered == before + EventsOf(msg, parse);
        DrainStep(old(delivered) + Deliveries(old(incoming), parse), before, delivered, queued, parse);
      }
    }

    /** `PublishCommandAsync`: the command goes to `commandsBase + tagTopic`,
        serialized as the code does it; the type and the source default as
        the optional parameters do. */
    method PublishCommand(tagTopic: string, value: Json, vtype: string := DefaultCommandType,
                          source: string := DefaultCommandSource) returns (msg: CommandMessage)
      modifies this`outgoing
      ensures msg == CommandFor(commandsBase, tagTopic, CommandPayload(value, vtype, source))
      ensures outgoing == old(outgoing) + [msg]
    {
      var cmd := CommandPayload(value, vtype, source);
      msg := CommandMessage(commandsBase + tagTopic, CommandJsonAsWritten(cmd), 0, false);
      outgoing := outgoing + [msg];
    }
  }
}
