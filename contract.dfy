/** The topic and payload contract between the two ends: the Unity client
    publishes commands the gateway routes back to a tag, and the gateway
    publishes sensor values the Unity client delivers under the tag's topic. */
module Contract {
  import opened Wrappers
  import opened Strings
  import opened Json
  import opened Translator
  import opened Gateway
  import UnityClient

  /** The gateway's routing key and the Unity client's tag topic are the same
      cut of a topic: everything after the second slash. Where the Unity client
      finds no tag part, the gateway's key is empty. */
  lemma RoutingKeyIsTagTopic(topic: string)
    ensures UnityClient.TagTopicOf(topic).Some? ==> RoutingKey(topic) == UnityClient.TagTopicOf(topic).value
    ensures UnityClient.TagTopicOf(topic).None? ==> RoutingKey(topic) == ""
  {
    UnityClient.TagTopicMeaning(topic);
  }

  /** With the default command base, the gateway's routing key of a command's
      topic is the tag topic the Unity client published it for. */
  lemma DefaultCommandTopicRoutesBack(tagTopic: string, cmd: UnityClient.CommandPayload)
    ensures RoutingKey(UnityClient.CommandFor(UnityClient.DefaultCommandsBase, tagTopic, cmd).topic) == tagTopic
  {
    var topic := UnityClient.CommandFor(UnityClient.DefaultCommandsBase, tagTopic, cmd).topic;
    assert topic == "planta" + "/" + "comandos" + "/" + tagTopic;
    RoutingKeyOf("planta", "comandos", tagTopic);
  }

  /** A sensor value the gateway publishes under a base of two slash-free
      segments reaches the Unity client under the tag's own topic. */
  lemma SensorTopicRoundTrip(mq: MqttSettings, tags: seq<Tag>, i: nat, value: Json, now: UtcTime, a: string, b: string)
    requires ValidUtc(now) && i < |tags| && UniqueNames(tags)
    requires mq.sensorsBase == a + "/" + b && '/' !in a && '/' !in b
    ensures var m := SensorMessageFor(mq, tags, tags[i].name, value, tags[i].typeName, now);
      m.Some? && UnityClient.TagTopicOf(m.value.topic) == Some(tags[i].topic)
  {
    TagNamedFindsItself(tags, i);
    SensorMessageMeaning(mq, tags, tags[i].name, value, tags[i].typeName, now);
    var m := SensorMessageFor(mq, tags, tags[i].name, value, tags[i].typeName, now).value;
    assert m.topic == a + "/" + b + "/" + tags[i].topic;
    UnityClient.TagTopicOfBuilt(a, b, tags[i].topic);
  }

  /** As written, a command from the Unity client is never written to a node:
      the message `PublishCommandAsync` hands over under the default command
      base has no `"value"`, so a routed command whose node exists fails on
      `payload["value"]`. */
  lemma AsWrittenCommandNeverWritten(cfg: Config, out: Outside, tagTopic: string, cmd: UnityClient.CommandPayload, bytes: seq<byte>)
    requires out.decode(bytes) == Some(UnityClient.CommandFor(UnityClient.DefaultCommandsBase, tagTopic, cmd).payload)
    ensures var d := DispatchCommand(cfg, out,
          InboundMessage(UnityClient.CommandFor(UnityClient.DefaultCommandsBase, tagTopic, cmd).topic, bytes));
      && !d.Written?
      && (RouteFor(cfg.tags, tagTopic).Some? &&
          NodeNamed(cfg.nodes, cfg.tags[RouteFor(cfg.tags, tagTopic).value].name).Some? ==>
          d == WriteFailed(cfg.tags[RouteFor(cfg.tags, tagTopic).value].name, NoValue))
  {
    var topic := UnityClient.CommandFor(UnityClient.DefaultCommandsBase, tagTopic, cmd).topic;
    assert topic == "planta" + "/" + "comandos" + "/" + tagTopic;
    RoutingKeyOf("planta", "comandos", tagTopic);
    UnityClient.CommandAsWrittenHasNoValue(cmd);
  }

  /** With the corrected document, a command for a routed tag whose node exists
      is written to that node with the value converted by the tag's type,
      whenever the server accepts the write. */
  lemma CorrectedCommandWritten(cfg: Config, out: Outside, tagTopic: string, cmd: UnityClient.CommandPayload, bytes: seq<byte>, i: nat, k: nat)
    requires out.decode(bytes) == Some(UnityClient.CommandJson(cmd))
    requires RouteFor(cfg.tags, tagTopic) == Some(i)
    requires i < |cfg.tags| && NodeNamed(cfg.nodes, cfg.tags[i].name) == Some(k) && k < |cfg.nodes|
    requires out.serverAccepts(WriteCall(cfg.nodes[k].node, ToVariant(cmd.value, cfg.tags[i].typeName)))
    ensures DispatchCommand(cfg, out, InboundMessage(UnityClient.DefaultCommandsBase + tagTopic, bytes))
      == Written(cfg.tags[i].name, WriteCall(cfg.nodes[k].node, ToVariant(cmd.value, cfg.tags[i].typeName)))
  {
    var topic := UnityClient.DefaultCommandsBase + tagTopic;
    assert topic == "planta" + "/" + "comandos" + "/" + tagTopic;
    RoutingKeyOf("planta", "comandos", tagTopic);
    UnityClient.CommandJsonRoundTrip(cmd);
  }
}
