/** The OPC UA to MQTT gateway object (TCC/gateway/src/main.py, `OpcUaMqttGateway`
    and `DataChangeHandler`): the command listener, the change-notification
    handler, one pass of the cyclic publisher, and the supervisor loop. */
module Gateway {
  import opened Wrappers
  import opened Json
  import opened Translator
  import opened Security
  import opened Supervision
  import opened Sequences

  /** An OPC UA node object; the source compares nodes with `==`. */
  datatype NodeId = NodeId(id: nat)

  /** One entry of `self.nodes`, in insertion order. */
  datatype NodeEntry = NodeEntry(name: string, node: NodeId)

  predicate UniqueNodeNames(nodes: seq<NodeEntry>)
  {
    forall i, j :: 0 <= i < j < |nodes| ==> nodes[i].name != nodes[j].name
  }

  /** `self.nodes[name]`: the position of the entry with that name, if any. */
  function NodeNamed(nodes: seq<NodeEntry>, name: string): (r: Option<nat>)
    ensures r.Some? ==> r.value < |nodes| && nodes[r.value].name == name
    ensures r.None? ==> forall j :: 0 <= j < |nodes| ==> nodes[j].name != name
  {
    FirstMatch(nodes, (e: NodeEntry) => e.name == name)
  }

  /** The first entry of `self.nodes`, in insertion order, holding `node`. */
  function NodeHolding(nodes: seq<NodeEntry>, node: NodeId): (r: Option<nat>)
    ensures r.Some? ==> r.value < |nodes| && nodes[r.value].node == node
    ensures r.Some? ==> forall j :: 0 <= j < r.value ==> nodes[j].node != node
    ensures r.None? ==> forall j :: 0 <= j < |nodes| ==> nodes[j].node != node
  {
    FirstMatch(nodes, (e: NodeEntry) => e.node == node)
  }

  /** What the gateway is configured with: MQTT settings, the tag table and the
      node table. The source leaves the node table empty (`self.nodes = {}`);
      here it is a parameter. */
  datatype Config = Config(mq: MqttSettings, tags: seq<Tag>, nodes: seq<NodeEntry>)

  /** The outside world as functions: decoding a payload (`bytes.decode("utf-8")`
      then `json.loads`, `None` when either raises), whether the OPC UA server
      accepts a write, whether the broker accepts a publish, and reading a node. */
  datatype Outside = Outside(
    decode: seq<byte> -> Option<Json>,
    serverAccepts: WriteCall -> bool,
    brokerAccepts: SensorMessage -> bool,
    read: NodeId -> Option<Json>)

  /** `node.write_value(variant)`. */
  datatype WriteCall = WriteCall(node: NodeId, variant: Variant)

  /** A message from the command subscription. */
  datatype InboundMessage = InboundMessage(topic: string, payload: seq<byte>)

  /** Why a routed command was not written: `self.nodes[name]` raised,
      `payload["value"]` raised, or the server refused the write. */
  datatype WriteError = NoSuchNode | NoValue | Rejected

  /** What the listener does with one message. */
  datatype Dispatch =
    | Undecodable(topic: string)
    | Unrouted
    | Written(name: string, call: WriteCall)
    | WriteFailed(name: string, err: WriteError)

  datatype LogEntry =
    | BadJson(topic: string)
    | Wrote(name: string, value: Json)
    | WriteError(name: string, err: WriteError)

  // ----- Inbound commands (`mqtt_listener`) -----

  /** The handling of one command message: decode, derive the routing key, take
      the first tag in table order with that topic, and write the payload's
      `value`, converted by the tag's type, to that tag's node. */
  function DispatchCommand(cfg: Config, out: Outside, m: InboundMessage): Dispatch
  {
    match out.decode(m.payload)
    case None => Undecodable(m.topic)
    case Some(payload) =>
      match RouteFor(cfg.tags, RoutingKey(m.topic))
      case None => Unrouted
      case Some(i) =>
        var tag := cfg.tags[i];
        match NodeNamed(cfg.nodes, tag.name)
        case None => WriteFailed(tag.name, NoSuchNode)
        case Some(k) =>
          match Member(payload, "value")
          case None => WriteFailed(tag.name, NoValue)
          case Some(v) =>
            var call := WriteCall(cfg.nodes[k].node, ToVariant(v, tag.typeName));
            if out.serverAccepts(call) then Written(tag.name, call) else WriteFailed(tag.name, Rejected)
  }

  /** What the listener does with one message: a payload that does not decode is
      skipped, with a log line naming the topic, and a decoded one whose routing
      key matches no tag topic is dropped without a trace. Anything else is a
      write attempt for the first tag in table order whose topic is the key. */
  lemma DispatchMeaning(cfg: Config, out: Outside, m: InboundMessage)
    ensures var d := DispatchCommand(cfg, out, m);
      && (d == Undecodable(m.topic) <==> out.decode(m.payload).None?)
      && (d == Unrouted <==> out.decode(m.payload).Some? && RouteFor(cfg.tags, RoutingKey(m.topic)).None?)
      && (d.Written? || d.WriteFailed? <==>
          out.decode(m.payload).Some? && RouteFor(cfg.tags, RoutingKey(m.topic)).Some?)
  {
  }

  /** A decoded command routed to tag `i`: it fails on the node lookup exactly
      when the node table has no entry for the tag, and otherwise on the missing
      `"value"` exactly when the document has none. With both present, the call
      is the payload's value under the tag's type, sent to the tag's node, and it
      is written exactly when the server accepts it and logged as rejected
      exactly when it does not. */
  lemma DispatchRouted(cfg: Config, out: Outside, m: InboundMessage, i: nat)
    requires out.decode(m.payload).Some? && RouteFor(cfg.tags, RoutingKey(m.topic)) == Some(i)
    ensures var d := DispatchCommand(cfg, out, m);
      var name := cfg.tags[i].name;
      var node := NodeNamed(cfg.nodes, name);
      var value := Member(out.decode(m.payload).value, "value");
      && (d == WriteFailed(name, NoSuchNode) <==> node.None?)
      && (node.Some? ==> (d == WriteFailed(name, NoValue) <==> value.None?))
      && (node.Some? && value.Some? ==>
          var call := WriteCall(cfg.nodes[node.value].node, ToVariant(value.value, cfg.tags[i].typeName));
          && (d == Written(name, call) <==> out.serverAccepts(call))
          && (d == WriteFailed(name, Rejected) <==> !out.serverAccepts(call)))
  {
  }

  function WritesOf(d: Dispatch): seq<WriteCall>
  {
    if d.Written? then [d.call] else []
  }

  function LogOf(d: Dispatch): seq<LogEntry>
  {
    match d
    case Undecodable(topic) => [BadJson(topic)]
    case Unrouted => []
    case Written(name, call) => [Wrote(name, call.variant.value)]
    case WriteFailed(name, e) => [WriteError(name, e)]
  }

  /** The handling of each message of a stream. */
  function Dispatches(cfg: Config, out: Outside, msgs: seq<InboundMessage>): (ds: seq<Dispatch>)
  {
    seq(|msgs|, i requires 0 <= i < |msgs| => DispatchCommand(cfg, out, msgs[i]))
  }

  /** The writes the server accepts over a series of dispatches, in order. */
  function WritesAll(ds: seq<Dispatch>): seq<WriteCall>
  {
    if ds == [] then [] else WritesAll(ds[..|ds| - 1]) + WritesOf(ds[|ds| - 1])
  }

  /** The log lines written over a series of dispatches, in order. */
  function LogAll(ds: seq<Dispatch>): seq<LogEntry>
  {
    if ds == [] then [] else LogAll(ds[..|ds| - 1]) + LogOf(ds[|ds| - 1])
  }

  /** The writes the server accepts while the listener handles `msgs` in order. */
  function CommandWrites(cfg: Config, out: Outside, msgs: seq<InboundMessage>): seq<WriteCall>
  {
    WritesAll(Dispatches(cfg, out, msgs))
  }

  /** The log lines the listener writes while handling `msgs` in order. */
  function CommandLog(cfg: Config, out: Outside, msgs: seq<InboundMessage>): seq<LogEntry>
  {
    LogAll(Dispatches(cfg, out, msgs))
  }

  lemma DispatchesSnoc(cfg: Config, out: Outside, msgs: seq<InboundMessage>, i: nat)
    requires i < |msgs|
    ensures Dispatches(cfg, out, msgs[..i + 1]) == Dispatches(cfg, out, msgs[..i]) + [DispatchCommand(cfg, out, msgs[i])]
  {
  }

  lemma WritesAllSnoc(ds: seq<Dispatch>, d: Dispatch)
    ensures WritesAll(ds + [d]) == WritesAll(ds) + WritesOf(d)
  {
    assert (ds + [d])[..|ds|] == ds;
  }

  lemma LogAllSnoc(ds: seq<Dispatch>, d: Dispatch)
    ensures LogAll(ds + [d]) == LogAll(ds) + LogOf(d)
  {
    assert (ds + [d])[..|ds|] == ds;
  }

  lemma {:induction false} WritesAllAppend(a: seq<Dispatch>, b: seq<Dispatch>)
    ensures WritesAll(a + b) == WritesAll(a) + WritesAll(b)
    decreases |b|
  {
    if b == [] {
      assert a + b == a;
    } else {
      var ab := a + b;
      assert ab[..|ab| - 1] == a + b[..|b| - 1];
      assert ab[|ab| - 1] == b[|b| - 1];
      WritesAllAppend(a, b[..|b| - 1]);
    }
  }

  /** A message that cannot be decoded or written changes nothing for the ones
      after it: the writes of a stream are those of its parts, in order. */
  lemma CommandWritesAppend(cfg: Config, out: Outside, a: seq<InboundMessage>, b: seq<InboundMessage>)
    ensures CommandWrites(cfg, out, a + b) == CommandWrites(cfg, out, a) + CommandWrites(cfg, out, b)
  {
    assert Dispatches(cfg, out, a + b) == Dispatches(cfg, out, a) + Dispatches(cfg, out, b);
    WritesAllAppend(Dispatches(cfg, out, a), Dispatches(cfg, out, b));
  }

  lemma {:induction false} WritesAllBound(ds: seq<Dispatch>)
    ensures |WritesAll(ds)| <= |ds|
    ensures (forall i :: 0 <= i < |ds| ==> !ds[i].Written?) ==> WritesAll(ds) == []
  {
    if ds != [] {
      WritesAllBound(ds[..|ds| - 1]);
    }
  }

  /** At most one write per message. */
  lemma AtMostOneWritePerMessage(cfg: Config, out: Outside, msgs: seq<InboundMessage>)
    ensures |CommandWrites(cfg, out, msgs)| <= |msgs|
  {
    WritesAllBound(Dispatches(cfg, out, msgs));
  }

  /** With the node table the source leaves empty, no command is ever written:
      each routed one fails on the node lookup. */
  lemma EmptyNodeTableWritesNothing(cfg: Config, out: Outside, msgs: seq<InboundMessage>)
    requires cfg.nodes == []
    ensures CommandWrites(cfg, out, msgs) == []
  {
    var ds := Dispatches(cfg, out, msgs);
    forall i | 0 <= i < |ds| ensures !ds[i].Written? {
      DispatchMeaning(cfg, out, msgs[i]);
      var route := RouteFor(cfg.tags, RoutingKey(msgs[i].topic));
      if out.decode(msgs[i].payload).Some? && route.Some? {
        DispatchRouted(cfg, out, msgs[i], route.value);
      }
    }
    WritesAllBound(ds);
  }

  // ----- Change notifications (`DataChangeHandler.datachange_notification`) -----

  /** Why publishing a tag's value failed: no node (`self.nodes[name]`), a read
      that raised, a name missing from the tag table (`tags_cfg[name]`), or a
      publish the broker refused. */
  datatype PublishError = NoNode | ReadFailed | UnknownTag | BrokerRefused

  datatype Notified = Unmonitored | Published(msg: SensorMessage) | NotifyFailed(name: string, err: PublishError)

  /** The handling of one change notification: the first node entry holding the
      node names the tag, whose value is published once with its configured type. */
  function Notification(cfg: Config, out: Outside, node: NodeId, val: Json, now: UtcTime): Notified
    requires ValidUtc(now)
  {
    match NodeHolding(cfg.nodes, node)
    case None => Unmonitored
    case Some(k) =>
      var name := cfg.nodes[k].name;
      match TagNamed(cfg.tags, name)
      case None => NotifyFailed(name, UnknownTag)
      case Some(i) =>
        var msg := SensorMessageFor(cfg.mq, cfg.tags, name, val, cfg.tags[i].typeName, now).value;
        if out.brokerAccepts(msg) then Published(msg) else NotifyFailed(name, BrokerRefused)
  }

  /** A notification for a node outside the node table publishes nothing; for a
      node in it, the value is published once, to the topic of the tag the first
      entry holding the node names, with that tag's type and the current time. */
  lemma NotificationMeaning(cfg: Config, out: Outside, node: NodeId, val: Json, now: UtcTime)
    requires ValidUtc(now)
    ensures var r := Notification(cfg, out, node, val, now);
      && (r.Unmonitored? <==> NodeHolding(cfg.nodes, node).None?)
      && (r.Published? ==>
        var name := cfg.nodes[NodeHolding(cfg.nodes, node).value].name;
        && TagNamed(cfg.tags, name).Some?
        && r.msg.topic == cfg.mq.sensorsBase + "/" + cfg.tags[TagNamed(cfg.tags, name).value].topic
        && r.msg.payload.value == val
        && r.msg.payload.vtype == cfg.tags[TagNamed(cfg.tags, name).value].typeName
        && ParseUtcIso(r.msg.payload.ts) == Some(now)
        && out.brokerAccepts(r.msg))
      && (r.NotifyFailed? ==>
        r.name == cfg.nodes[NodeHolding(cfg.nodes, node).value].name
        && (r.err == UnknownTag || r.err == BrokerRefused)
        && (r.err == UnknownTag <==> TagNamed(cfg.tags, r.name).None?))
  {
    match NodeHolding(cfg.nodes, node)
    case None =>
    case Some(k) =>
      var name := cfg.nodes[k].name;
      if TagNamed(cfg.tags, name).Some? {
        SensorMessageMeaning(cfg.mq, cfg.tags, name, val, cfg.tags[TagNamed(cfg.tags, name).value].typeName, now);
      }
  }

  /** A notification for the node of entry `k`, the first entry holding it:
      it fails on the tag lookup exactly when the tag table has no entry of that
      name; otherwise the tag's message is published exactly when the broker
      accepts it, and the failure is the broker's refusal exactly when it does not. */
  lemma NotificationMonitored(cfg: Config, out: Outside, node: NodeId, val: Json, now: UtcTime, k: nat)
    requires ValidUtc(now) && NodeHolding(cfg.nodes, node) == Some(k)
    ensures var r := Notification(cfg, out, node, val, now);
      var name := cfg.nodes[k].name;
      && (r == NotifyFailed(name, UnknownTag) <==> TagNamed(cfg.tags, name).None?)
      && (TagNamed(cfg.tags, name).Some? ==>
        var msg := SensorMessageFor(cfg.mq, cfg.tags, name, val, cfg.tags[TagNamed(cfg.tags, name).value].typeName, now).value;
        && (r == Published(msg) <==> out.brokerAccepts(msg))
        && (r == NotifyFailed(name, BrokerRefused) <==> !out.brokerAccepts(msg)))
  {
  }

  // ----- One pass of `cyclic_publisher` -----

  datatype PassResult = Completed | PassFailed(name: string, err: PublishError)

  /** Reading the i-th tag's node and publishing its value. */
  function PublishTag(cfg: Config, out: Outside, i: nat, now: UtcTime): Result<SensorMessage, PublishError>
    requires i < |cfg.tags| && ValidUtc(now)
  {
    var tag := cfg.tags[i];
    match NodeNamed(cfg.nodes, tag.name)
    case None => Err(NoNode)
    case Some(k) =>
      match out.read(cfg.nodes[k].node)
      case None => Err(ReadFailed)
      case Some(val) =>
        var msg := SensorMessageFor(cfg.mq, cfg.tags, tag.name, val, tag.typeName, now).value;
        if out.brokerAccepts(msg) then Ok(msg) else Err(BrokerRefused)
  }

  /** A tag is published only when the broker accepts it, with the value read
      from the tag's node, to its own topic with its own type and the current
      time; it fails on the node lookup exactly when the node table has no entry
      for it, and never on the tag lookup. */
  lemma PublishTagMeaning(cfg: Config, out: Outside, i: nat, now: UtcTime)
    requires i < |cfg.tags| && ValidUtc(now)
    ensures var r := PublishTag(cfg, out, i, now);
      && (r.Ok? ==> out.brokerAccepts(r.value))
      && (r.Ok? ==>
        && NodeNamed(cfg.nodes, cfg.tags[i].name).Some?
        && out.read(cfg.nodes[NodeNamed(cfg.nodes, cfg.tags[i].name).value].node) == Some(r.value.payload.value))
      && r != Err(UnknownTag)
      && (r.Ok? && UniqueNames(cfg.tags) ==>
        && r.value.topic == cfg.mq.sensorsBase + "/" + cfg.tags[i].topic
        && r.value.payload.vtype == cfg.tags[i].typeName
        && ParseUtcIso(r.value.payload.ts) == Some(now))
      && (r == Err(NoNode) <==> NodeNamed(cfg.nodes, cfg.tags[i].name).None?)
  {
    var tag := cfg.tags[i];
    match NodeNamed(cfg.nodes, tag.name)
    case None =>
    case Some(k) =>
      match out.read(cfg.nodes[k].node)
      case None =>
      case Some(val) =>
        SensorMessageMeaning(cfg.mq, cfg.tags, tag.name, val, tag.typeName, now);
        if UniqueNames(cfg.tags) {
          TagNamedFindsItself(cfg.tags, i);
        }
  }

  /** A tag whose node is entry `k`: it fails on the read exactly when the read
      raises; otherwise the message carrying the value read is published exactly
      when the broker accepts it, and the failure is the broker's refusal
      exactly when it does not. */
  lemma PublishTagFound(cfg: Config, out: Outside, i: nat, now: UtcTime, k: nat)
    requires i < |cfg.tags| && ValidUtc(now) && NodeNamed(cfg.nodes, cfg.tags[i].name) == Some(k)
    ensures var r := PublishTag(cfg, out, i, now);
      var read := out.read(cfg.nodes[k].node);
      && (r == Err(ReadFailed) <==> read.None?)
      && (read.Some? ==>
        var msg := SensorMessageFor(cfg.mq, cfg.tags, cfg.tags[i].name, read.value, cfg.tags[i].typeName, now).value;
        && (r == Ok(msg) <==> out.brokerAccepts(msg))
        && (r == Err(BrokerRefused) <==> !out.brokerAccepts(msg)))
  {
  }

  datatype Pass = Pass(published: seq<SensorMessage>, result: PassResult)

  /** The clock readings of one pass: `utc_iso()` runs inside each tag's
      `publish_value`, after that tag's read, so every tag has its own. */
  predicate PassClock(cfg: Config, times: seq<UtcTime>)
  {
    |times| == |cfg.tags| && forall i :: 0 <= i < |times| ==> ValidUtc(times[i])
  }

  /** The outcome each tag's read and publish would have, the i-th at time
      `times[i]`. */
  function TagResults(cfg: Config, out: Outside, times: seq<UtcTime>): (rs: seq<Result<SensorMessage, PublishError>>)
    requires PassClock(cfg, times)
    ensures |rs| == |cfg.tags|
  {
    seq(|cfg.tags|, i requires 0 <= i < |cfg.tags| => PublishTag(cfg, out, i, times[i]))
  }

  /** The first `n` tags of a pass whose tags have outcomes `rs`, in table order,
      stopping at the first failure. */
  function PassOver(tags: seq<Tag>, rs: seq<Result<SensorMessage, PublishError>>, n: nat): Pass
    requires n <= |rs| == |tags|
  {
    if n == 0 then Pass([], Completed)
    else
      var p := PassOver(tags, rs, n - 1);
      if p.result.PassFailed? then p
      else match rs[n - 1]
        case Err(e) => Pass(p.published, PassFailed(tags[n - 1].name, e))
        case Ok(m) => Pass(p.published + [m], Completed)
  }

  /** The first `n` tags of one pass of `cyclic_publisher` with clock readings
      `times`. */
  function CyclicPrefix(cfg: Config, out: Outside, n: nat, times: seq<UtcTime>): Pass
    requires n <= |cfg.tags| && PassClock(cfg, times)
  {
    PassOver(cfg.tags, TagResults(cfg, out, times), n)
  }

  /** A pass that completes has published every tag's message, in table order. */
  lemma {:induction false} CompletedPassOver(tags: seq<Tag>, rs: seq<Result<SensorMessage, PublishError>>, n: nat)
    requires n <= |rs| == |tags|
    requires PassOver(tags, rs, n).result == Completed
    ensures |PassOver(tags, rs, n).published| == n
    ensures forall i :: 0 <= i < n ==> rs[i].Ok? && PassOver(tags, rs, n).published[i] == rs[i].value
  {
    if n > 0 {
      CompletedPassOver(tags, rs, n - 1);
    }
  }

  /** Once a pass has failed, later tags change nothing: the exception has left
      the `for` loop. */
  lemma {:induction false} FailedPassStays(tags: seq<Tag>, rs: seq<Result<SensorMessage, PublishError>>, k: nat, n: nat)
    requires k <= n <= |rs| == |tags|
    requires PassOver(tags, rs, k).result.PassFailed?
    ensures PassOver(tags, rs, n) == PassOver(tags, rs, k)
    decreases n - k
  {
    if k < n {
      FailedPassStays(tags, rs, k, n - 1);
    }
  }

  /** A good tag after a good prefix extends what the pass has published. */
  lemma PassOverPublishes(tags: seq<Tag>, rs: seq<Result<SensorMessage, PublishError>>, i: nat)
    requires i < |rs| == |tags| && PassOver(tags, rs, i).result == Completed && rs[i].Ok?
    ensures PassOver(tags, rs, i + 1) == Pass(PassOver(tags, rs, i).published + [rs[i].value], Completed)
  {
  }

  /** A failing tag after a good prefix ends the pass with that tag's error. */
  lemma PassOverFails(tags: seq<Tag>, rs: seq<Result<SensorMessage, PublishError>>, i: nat)
    requires i < |rs| == |tags| && PassOver(tags, rs, i).result == Completed && rs[i].Err?
    ensures PassOver(tags, rs, |tags|) == Pass(PassOver(tags, rs, i).published, PassFailed(tags[i].name, rs[i].error))
  {
    FailedPassStays(tags, rs, i + 1, |tags|);
  }

  /** A pass that fails publishes exactly the tags before the failing one, and
      fails with that tag's name and error. */
  lemma {:induction false} FailedPassStopsAtFailure(tags: seq<Tag>, rs: seq<Result<SensorMessage, PublishError>>, n: nat)
    requires n <= |rs| == |tags|
    requires PassOver(tags, rs, n).result.PassFailed?
    ensures var p := PassOver(tags, rs, n);
      && |p.published| < n
      && (forall j :: 0 <= j < |p.published| ==> rs[j].Ok? && p.published[j] == rs[j].value)
      && rs[|p.published|].Err?
      && p.result == PassFailed(tags[|p.published|].name, rs[|p.published|].error)
  {
    if PassOver(tags, rs, n - 1).result.PassFailed? {
      FailedPassStopsAtFailure(tags, rs, n - 1);
    } else {
      CompletedPassOver(tags, rs, n - 1);
    }
  }

  /** A good tag after a good prefix of a pass adds its message to what the
      pass has published. */
  lemma PrefixGrows(cfg: Config, out: Outside, times: seq<UtcTime>, i: nat,
                    start: seq<SensorMessage>, before: seq<SensorMessage>, after: seq<SensorMessage>)
    requires PassClock(cfg, times) && i < |cfg.tags|
    requires CyclicPrefix(cfg, out, i, times).result == Completed
    requires before == start + CyclicPrefix(cfg, out, i, times).published
    requires PublishTag(cfg, out, i, times[i]).Ok?
    requires after == before + [PublishTag(cfg, out, i, times[i]).value]
    ensures CyclicPrefix(cfg, out, i + 1, times).result == Completed
    ensures after == start + CyclicPrefix(cfg, out, i + 1, times).published
  {
    var rs := TagResults(cfg, out, times);
    PassOverPublishes(cfg.tags, rs, i);
    var prefix := PassOver(cfg.tags, rs, i).published;
    Regroup(start + (prefix + [rs[i].value]), start, before, prefix, [rs[i].value]);
  }

  /** A failing tag after a good prefix of a pass ends the pass with its error. */
  lemma PrefixFails(cfg: Config, out: Outside, times: seq<UtcTime>, i: nat)
    requires PassClock(cfg, times) && i < |cfg.tags|
    requires CyclicPrefix(cfg, out, i, times).result == Completed
    requires PublishTag(cfg, out, i, times[i]).Err?
    ensures CyclicPrefix(cfg, out, |cfg.tags|, times)
      == Pass(CyclicPrefix(cfg, out, i, times).published, PassFailed(cfg.tags[i].name, PublishTag(cfg, out, i, times[i]).error))
  {
    PassOverFails(cfg.tags, TagResults(cfg, out, times), i);
  }

  /** `m` is the sensor message of the i-th tag: the value read from the tag's
      node, to its topic, with its type, stamped at time `now`. */
  predicate PublishedFor(cfg: Config, out: Outside, i: nat, m: SensorMessage, now: UtcTime)
    requires i < |cfg.tags|
  {
    && NodeNamed(cfg.nodes, cfg.tags[i].name).Some?
    && out.read(cfg.nodes[NodeNamed(cfg.nodes, cfg.tags[i].name).value].node) == Some(m.payload.value)
    && m.topic == cfg.mq.sensorsBase + "/" + cfg.tags[i].topic
    && m.payload.vtype == cfg.tags[i].typeName
    && ParseUtcIso(m.payload.ts) == Some(now)
  }

  /** A pass that completes publishes every tag once, in table order, each with
      the value read from its node, to its own topic with its own type and the
      time of its own publish. */
  lemma CompletedPassPublishesAll(cfg: Config, out: Outside, times: seq<UtcTime>)
    requires PassClock(cfg, times) && UniqueNames(cfg.tags)
    requires CyclicPrefix(cfg, out, |cfg.tags|, times).result == Completed
    ensures |CyclicPrefix(cfg, out, |cfg.tags|, times).published| == |cfg.tags|
    ensures forall i :: 0 <= i < |cfg.tags| ==>
      PublishedFor(cfg, out, i, CyclicPrefix(cfg, out, |cfg.tags|, times).published[i], times[i])
  {
    var rs := TagResults(cfg, out, times);
    CompletedPassOver(cfg.tags, rs, |cfg.tags|);
    forall i | 0 <= i < |cfg.tags|
      ensures PublishedFor(cfg, out, i, CyclicPrefix(cfg, out, |cfg.tags|, times).published[i], times[i])
    {
      PublishTagMeaning(cfg, out, i, times[i]);
    }
  }

  /** `after` is `before` followed by one message per tag, in table order, the
      i-th being the i-th tag's message with clock reading `times[i]`. */
  predicate PassRecorded(cfg: Config, out: Outside, times: seq<UtcTime>, before: seq<SensorMessage>, after: seq<SensorMessage>)
  {
    && |times| == |cfg.tags|
    && |after| == |before| + |cfg.tags|
    && forall i :: 0 <= i < |cfg.tags| ==> PublishedFor(cfg, out, i, after[|before| + i], times[i])
  }

  /** What a completed pass appends to a record of published messages is every
      tag's message, in table order. */
  lemma CompletedPassRecorded(cfg: Config, out: Outside, times: seq<UtcTime>, before: seq<SensorMessage>, after: seq<SensorMessage>)
    requires PassClock(cfg, times) && UniqueNames(cfg.tags)
    requires CyclicPrefix(cfg, out, |cfg.tags|, times).result == Completed
    requires after == before + CyclicPrefix(cfg, out, |cfg.tags|, times).published
    ensures PassRecorded(cfg, out, times, before, after)
  {
    var p := CyclicPrefix(cfg, out, |cfg.tags|, times).published;
    CompletedPassPublishesAll(cfg, out, times);
    forall i | 0 <= i < |cfg.tags| ensures PublishedFor(cfg, out, i, after[|before| + i], times[i]) {
      assert after[|before| + i] == p[i];
    }
  }

  /** With the empty node table of the source, every pass fails on its first tag
      and publishes nothing. */
  lemma EmptyNodeTableFailsFirst(cfg: Config, out: Outside, times: seq<UtcTime>)
    requires cfg.nodes == [] && |cfg.tags| > 0 && PassClock(cfg, times)
    ensures CyclicPrefix(cfg, out, |cfg.tags|, times) == Pass([], PassFailed(cfg.tags[0].name, NoNode))
  {
    var rs := TagResults(cfg, out, times);
    assert rs[0] == Err(NoNode);
    assert PassOver(cfg.tags, rs, 1) == Pass([], PassFailed(cfg.tags[0].name, NoNode));
    FailedPassStays(cfg.tags, rs, 1, |cfg.tags|);
  }

  /** `self.mqtt`, `self.opc_client`: a client object, connected or not. */
  datatype Client = Client(connected: bool)

  class OpcUaMqttGateway {
    const cfg: Config
    /** The raw security descriptor `SEC` and the file system it refers to. */
    const security: Option<string>
    const fs: FileSystem
    var running: bool
    var mqtt: Option<Client>
    var opcClient: Option<Client>
    /** Whether `self.sub` holds a subscription. */
    var subscribed: bool
    /** What the supervisor did, in order. */
    var trace: seq<Step>
    /** Sensor messages the broker accepted, in order. */
    var published: seq<SensorMessage>
    /** Command writes the OPC UA server accepted, in order. */
    var writes: seq<WriteCall>
    var log: seq<LogEntry>

    /** The tag table and the node table come from dictionaries. */
    predicate Valid()
    {
      UniqueNames(cfg.tags) && UniqueNodeNames(cfg.nodes)
    }

    constructor (cfg: Config, security: Option<string>, fs: FileSystem)
      requires UniqueNames(cfg.tags) && UniqueNodeNames(cfg.nodes)
      ensures Valid()
      ensures this.cfg == cfg && this.security == security && this.fs == fs
      ensures running && mqtt.None? && opcClient.None? && !subscribed
      ensures trace == [] && published == [] && writes == [] && log == []
    {
      this.cfg := cfg;
      this.security := security;
      this.fs := fs;
      running := true;
      mqtt := None;
      opcClient := None;
      subscribed := false;
      trace := [];
      published := [];
      writes := [];
      log := [];
    }

    /** Whether `_resolve_sec_string(SEC)` returns instead of raising. */
    function SecurityOk(): bool
    {
      ResolveSecString(security, fs).Ok?
    }

    /** The inner `for ... break` of `mqtt_listener`: the first tag, in table
        order, whose topic is `key`. */
    method FindRoute(key: string) returns (r: Option<nat>)
      ensures r == RouteFor(cfg.tags, key)
    {
      var j := 0;
      while j < |cfg.tags|
        invariant 0 <= j <= |cfg.tags|
        invariant forall k :: 0 <= k < j ==> cfg.tags[k].topic != key
      {
        if cfg.tags[j].topic == key {
          return Some(j);
        }
        j := j + 1;
      }
      return None;
    }

    /** One turn of the `async for` in `mqtt_listener`. */
    method HandleCommand(m: InboundMessage, out: Outside)
      modifies this`writes, this`log
      ensures writes == old(writes) + WritesOf(DispatchCommand(cfg, out, m))
      ensures log == old(log) + LogOf(DispatchCommand(cfg, out, m))
    {
      var payload := out.decode(m.payload);
      if payload.None? {
        log := log + [BadJson(m.topic)];
        return;
      }
      var route := FindRoute(RoutingKey(m.topic));
      if route.None? {
        return;
      }
      var tag := cfg.tags[route.value];
      var node := NodeNamed(cfg.nodes, tag.name);
      if node.None? {
        log := log + [WriteError(tag.name, NoSuchNode)];
        return;
      }
      var value := Member(payload.value, "value");
      if value.None? {
        log := log + [WriteError(tag.name, NoValue)];
        return;
      }
      var call := WriteCall(cfg.nodes[node.value].node, ToVariant(value.value, tag.typeName));
      if out.serverAccepts(call) {
        writes := writes + [call];
        log := log + [Wrote(tag.name, value.value)];
      } else {
        log := log + [WriteError(tag.name, Rejected)];
      }
    }

    /** `mqtt_listener`: every message in arrival order, the first matching tag
        only, and every failure logged and passed over. */
    method Listen(msgs: seq<InboundMessage>, out: Outside)
      modifies this`writes, this`log
      ensures writes == old(writes) + CommandWrites(cfg, out, msgs)
      ensures log == old(log) + CommandLog(cfg, out, msgs)
    {
      var i := 0;
      while i < |msgs|
        invariant 0 <= i <= |msgs|
        invariant writes == old(writes) + WritesAll(Dispatches(cfg, out, msgs[..i]))
        invariant log == old(log) + LogAll(Dispatches(cfg, out, msgs[..i]))
      {
        ghost var ds, d := Dispatches(cfg, out, msgs[..i]), DispatchCommand(cfg, out, msgs[i]);
        ghost var writesBefore, logBefore := writes, log;
        HandleCommand(msgs[i], out);
        DispatchesSnoc(cfg, out, msgs, i);
        WritesAllSnoc(ds, d);
        LogAllSnoc(ds, d);
        Regroup(old(writes) + WritesAll(ds + [d]), old(writes), writesBefore, WritesAll(ds), WritesOf(d));
        Regroup(old(log) + LogAll(ds + [d]), old(log), logBefore, LogAll(ds), LogOf(d));
        i := i + 1;
      }
      assert msgs[..i] == msgs;
    }

    /** `datachange_notification`: scan the node table for the notified node and
        publish the first match once. */
    method OnDataChange(node: NodeId, val: Json, now: UtcTime, out: Outside) returns (r: Notified)
      requires ValidUtc(now)
      modifies this`published
      ensures r == Notification(cfg, out, node, val, now)
      ensures published == old(published) + (if r.Published? then [r.msg] else [])
    {
      r := Unmonitored;
      var k := 0;
      while k < |cfg.nodes|
        invariant 0 <= k <= |cfg.nodes|
        invariant forall j :: 0 <= j < k ==> cfg.nodes[j].node != node
      {
        if cfg.nodes[k].node == node {
          var name := cfg.nodes[k].name;
          var i := TagNamed(cfg.tags, name);
          if i.None? {
            r := NotifyFailed(name, UnknownTag);
          } else {
            var msg := SensorMessageFor(cfg.mq, cfg.tags, name, val, cfg.tags[i.value].typeName, now).value;
            if out.brokerAccepts(msg) {
              published := published + [msg];
              r := Published(msg);
            } else {
              r := NotifyFailed(name, BrokerRefused);
            }
          }
          break;
        }
        k := k + 1;
      }
    }

    /** The body of the `for` loop of `cyclic_publisher` for the i-th tag. */
    method PublishOne(i: nat, out: Outside, now: UtcTime) returns (r: Result<SensorMessage, PublishError>)
      requires i < |cfg.tags| && ValidUtc(now)
      modifies this`published
      ensures r == PublishTag(cfg, out, i, now)
      ensures published == old(published) + (if r.Ok? then [r.value] else [])
    {
      var tag := cfg.tags[i];
      var node := NodeNamed(cfg.nodes, tag.name);
      if node.None? {
        return Err(NoNode);
      }
      var val := out.read(cfg.nodes[node.value].node);
      if val.None? {
        return Err(ReadFailed);
      }
      var msg := SensorMessageFor(cfg.mq, cfg.tags, tag.name, val.value, tag.typeName, now).value;
      if !out.brokerAccepts(msg) {
        return Err(BrokerRefused);
      }
      published := published + [msg];
      return Ok(msg);
    }

    /** One pass of `cyclic_publisher`: every tag in table order, re-raising the
        first failure; the i-th tag's stamp is the clock reading `times[i]`.
        What a completed pass appends is described by `CompletedPassRecorded`. */
    method CyclicPass(out: Outside, times: seq<UtcTime>) returns (r: PassResult)
      requires Valid() && PassClock(cfg, times)
      modifies this`published
      ensures r == CyclicPrefix(cfg, out, |cfg.tags|, times).result
      ensures published == old(published) + CyclicPrefix(cfg, out, |cfg.tags|, times).published
    {
      var i := 0;
      while i < |cfg.tags|
        invariant 0 <= i <= |cfg.tags|
        invariant CyclicPrefix(cfg, out, i, times).result == Completed
        invariant published == old(published) + CyclicPrefix(cfg, out, i, times).published
      {
        ghost var before := published;
        var m := PublishOne(i, out, times[i]);
        if m.Err? {
          PrefixFails(cfg, out, times, i);
          return PassFailed(cfg.tags[i].name, m.error);
        }
        PrefixGrows(cfg, out, times, i, old(published), before, published);
        i := i + 1;
      }
      return Completed;
    }

    /** The `try` block of `run`: MQTT, then OPC UA, then the change subscription,
        then the listener, stopping at the first phase that raises. */
    method Attempt(env: CycleEnv, secOk: bool) returns (failed: bool)
      modifies this`mqtt, this`opcClient, this`subscribed, this`trace
      ensures failed == TryBlock(env, secOk).failed
      ensures trace == old(trace) + TryBlock(env, secOk).steps
      ensures mqtt.Some?
      ensures opcClient.Some? <==> OpcAfter(env, secOk, old(opcClient).Some?)
      ensures subscribed <==> old(subscribed) || Subscribed in TryBlock(env, secOk).steps
      ensures !failed ==> mqtt == Some(Client(true)) && opcClient == Some(Client(true))
    {
      var m := ConnectWithRetry(env.mqttUp);
      mqtt := Some(Client(m.connected));
      trace := trace + [MqttConnect(m)];
      if !m.connected {
        return true;
      }
      var o := ConnectWithRetry(OpcAttempts(env, secOk));
      opcClient := Some(Client(o.connected));
      trace := trace + [OpcConnect(o)];
      if !o.connected || !env.subscribeOk {
        return true;
      }
      subscribed := true;
      trace := trace + [Subscribed, Listened];
      return env.listen == StreamFailed;
    }

    /** The `except` block with the teardown it evidently intends: disconnect
        MQTT, disconnect OPC UA when its client exists, both best effort, and
        sleep before the next pass. */
    method Teardown()
      modifies this`mqtt, this`opcClient, this`trace
      ensures mqtt == Some(Client(false))
      ensures opcClient == if old(opcClient).Some? then Some(Client(false)) else None
      ensures trace == old(trace) + [MqttDisconnect]
        + (if old(opcClient).Some? then [OpcDisconnect] else []) + [Slept(RestartDelaySeconds)]
    {
      mqtt := Some(Client(false));
      trace := trace + [MqttDisconnect];
      if opcClient.Some? {
        opcClient := Some(Client(false));
        trace := trace + [OpcDisconnect];
      }
      trace := trace + [Slept(RestartDelaySeconds)];
    }

    /** One pass of the `while self.running` body, with the intended teardown. */
    method RunCycle(env: CycleEnv)
      modifies this`mqtt, this`opcClient, this`subscribed, this`trace
      ensures trace == old(trace) + Cycle(env, SecurityOk(), old(opcClient).Some?).steps
      ensures opcClient.Some? <==> OpcAfter(env, SecurityOk(), old(opcClient).Some?)
      ensures !TryBlock(env, SecurityOk()).failed ==>
        mqtt == Some(Client(true)) && opcClient == Some(Client(true))
      ensures TryBlock(env, SecurityOk()).failed ==>
        mqtt == Some(Client(false)) && (opcClient.Some? ==> opcClient == Some(Client(false)))
    {
      var failed := Attempt(env, SecurityOk());
      if failed {
        Teardown();
      }
    }

    /** `run` with the intended teardown: every pass, failed or not, returns to
        the loop head, so there is one pass for each environment the passes
        meet in turn. */
    method Run(envs: seq<CycleEnv>)
      requires running
      modifies this`mqtt, this`opcClient, this`subscribed, this`trace
      ensures running
      ensures trace == old(trace) + Supervision.Run(envs, SecurityOk(), old(opcClient).Some?)
    {
      ghost var secOk := SecurityOk();
      ghost var opcBefore := opcClient.Some?;
      var i := 0;
      while running && i < |envs|
        invariant 0 <= i <= |envs|
        invariant old(trace) + Supervision.Run(envs, secOk, opcBefore)
          == trace + Supervision.Run(envs[i..], secOk, opcClient.Some?)
      {
        ghost var before := trace;
        ghost var opcNow := opcClient.Some?;
        RunCycle(envs[i]);
        RunStep(old(trace), before, trace, envs, i, secOk, opcBefore, opcNow, opcClient.Some?);
        i := i + 1;
      }
    }

    /** The `except` block as written: disconnect MQTT (`self.mqtt` always exists
        by then), then call `self.disconnect_opc()`, which the class does not
        define, so the pass raises out of `run` either way; OPC UA is never
        disconnected and there is no sleep. */
    method TeardownAsWritten(mqttDisconnectOk: bool) returns (reason: Crash)
      modifies this`mqtt, this`trace
      ensures reason == if mqttDisconnectOk then NoDisconnectOpc else MqttDisconnectRaised
      ensures trace == old(trace) + [MqttDisconnect]
      ensures mqtt == if mqttDisconnectOk then Some(Client(false)) else old(mqtt)
    {
      trace := trace + [MqttDisconnect];
      if !mqttDisconnectOk {
        return MqttDisconnectRaised;
      }
      mqtt := Some(Client(false));
      return NoDisconnectOpc;
    }

    /** One pass of the `while self.running` body as the code is written: a pass
        whose `try` block raises leaves `run` with the OPC UA client as the
        `try` block left it. */
    method RunCycleAsWritten(env: CycleEnv) returns (exit: Exit)
      modifies this`mqtt, this`opcClient, this`subscribed, this`trace
      ensures exit == CycleAsWritten(env, SecurityOk()).exit
      ensures trace == old(trace) + CycleAsWritten(env, SecurityOk()).steps
      ensures opcClient.Some? <==> OpcAfter(env, SecurityOk(), old(opcClient).Some?)
      ensures exit == Continue ==> mqtt == Some(Client(true)) && opcClient == Some(Client(true))
    {
      var failed := Attempt(env, SecurityOk());
      if !failed {
        return Continue;
      }
      var reason := TeardownAsWritten(env.mqttDisconnectOk);
      return Crashed(reason);
    }

    /** `run` as the code is written: passes of the loop body, one for each
        environment the passes meet in turn, until the first pass whose `try`
        block raises, which ends `run` with that pass's exception. */
    method RunAsWritten(envs: seq<CycleEnv>) returns (exit: Exit)
      requires running
      modifies this`mqtt, this`opcClient, this`subscribed, this`trace
      ensures trace == old(trace) + Supervision.RunAsWritten(envs, SecurityOk())
      ensures exit.Crashed? <==> FirstFailure(envs, SecurityOk()).Some?
      ensures exit.Crashed? ==> exit == CycleAsWritten(envs[FirstFailure(envs, SecurityOk()).value], SecurityOk()).exit
    {
      ghost var secOk := SecurityOk();
      exit := Continue;
      var i := 0;
      while running && i < |envs|
        invariant 0 <= i <= |envs|
        invariant FirstFailure(envs, secOk).None? || FirstFailure(envs, secOk).value >= i
        invariant old(trace) + Supervision.RunAsWritten(envs, secOk)
          == trace + Supervision.RunAsWritten(envs[i..], secOk)
        invariant exit == Continue
      {
        ghost var before := trace;
        FirstFailureStep(envs, secOk, i);
        exit := RunCycleAsWritten(envs[i]);
        if exit.Crashed? {
          RunAsWrittenLast(old(trace), before, trace, envs, i, secOk);
          return;
        }
        RunAsWrittenStep(old(trace), before, trace, envs, i, secOk);
        i := i + 1;
      }
      assert envs[i..] == [];
    }
  }
}
