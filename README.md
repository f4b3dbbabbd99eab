# OPC UA to MQTT gateway and Unity MQTT client, modelled in Dafny

The system bridges an OPC UA server and an MQTT broker for a digital twin.
The Python gateway (`TCC/gateway/src/main.py`) connects to both with fixed retry policies.
It tries to write commands arriving under `<commands base>/<tag topic>` to the tag's OPC UA node; as written it never can, because the node lookup `self.nodes[name]` (main.py:123) runs against a table that is never filled (main.py:79), as `Gateway.EmptyNodeTableWritesNothing` states.
Its publishing side has two paths: a data-change handler and a cyclic pass, each publishing a tag's value as JSON under `<sensors base>/<tag topic>`.
As the code is written neither path publishes anything:

- `cyclic_publisher` (main.py:182) is never called;
- the change subscription covers the node table `self.nodes`, which is never filled (main.py:79, 167), so no notification arrives.

The model gives both publishing paths over a node table taken as a parameter, and proves what the empty table of the code leads to.
When a phase of the supervisor loop raises, its `except` block disconnects MQTT and then calls a method the class does not define, so `run` ends (first row of "## Findings").
The Unity component (`MqttUnityClient.cs`) queues the sensor messages the broker delivers and drains them once per frame into `OnTagValue(tagTopic, payload)` events.
It also publishes operator commands under `commandsBase + tagTopic`.

The model keeps the form of each side:

- **Pure logic** is datatypes and functions with lemmas. This covers:
  - the security-descriptor normaliser;
  - the type table;
  - the time stamp;
  - the topic and payload construction;
  - the routing key and the table lookups;
  - the retry policy;
  - the passes of the supervisor loop.
- **The gateway object and the Unity component** are classes whose fields hold what they change: clients, trace, published messages, writes, log, queue and raised events.
  - Each method is proved against the function that specifies it.
  - Those functions carry the lemmas.

Modules and files:

- `wrappers.dfy`: `Option`, `Result`.
- `sequences.dfy`: the first-match scan behind every table lookup, and regrouping of concatenations shared by the trace proofs.
- `strings.dfy`: Python `split`/`join`/`strip` and C# `Split(char, count)`.
- `json.dfy`: decoded JSON values and member lookup.
- `security.dfy`: `_resolve_sec_string`.
- `translator.dfy`:
  - `UA_TYPES`/`to_variant`;
  - `utc_iso`;
  - `publish_value`'s message;
  - the command routing key;
  - `tags_cfg` lookups.
- `supervision.dfy`:
  - the `@retry` policies;
  - one pass and several passes of `run`, both as written and with the intended teardown.
- `gateway.dfy`:
  - `mqtt_listener`;
  - `datachange_notification`;
  - one pass of `cyclic_publisher`;
  - class `OpcUaMqttGateway` with the listener, the notification handler, the cyclic pass and the supervisor loop, both as written and with the intended teardown.
- `unity_client.dfy`: class `MqttUnityClient`, covering the receive handler, `Update` and `PublishCommandAsync`.
- `contract.dfy`: lemmas that connect the two ends through their topics and payloads.

The outside world is a set of function-valued parameters:

- payload decoding;
- whether the OPC UA server accepts a write;
- whether the broker accepts a publish;
- node reads;
- the outcome of each connection attempt;
- the file system behind the descriptor's paths;
- the clock readings, one per `utc_iso()` call;
- the Unity JSON parser.

Two behaviours of the code the model keeps:

- **Descriptor errors are retried.** A malformed or missing security descriptor file is raised inside `connect_opc`, so the `@retry` policy retries it like any failed attempt (100 attempts). It is not a fatal configuration error. `Supervision.TryBlockOrder` states this.
- **The node table is never populated.** `self.nodes` is never filled in the source. The model takes the node table as a parameter and proves what happens when it is left empty: `Gateway.EmptyNodeTableWritesNothing` and `Gateway.EmptyNodeTableFailsFirst`.

## Model

| member | source | states |
|---|---|---|
| Strings.Split | TCC/gateway/src/main.py:20 | Python `str.split(sep)` always yields at least one field and no field holds the separator. |
| Strings.Join | TCC/gateway/src/main.py:38 | Python `sep.join(parts)`, the fields with the separator between each two; it has no contract of its own, and `JoinSplit` and `SplitJoin` state that it and `Split` undo each other. |
| Strings.JoinSplit | TCC/gateway/src/main.py:118-119 | Joining the fields of a split with the same separator gives the original text back. |
| Strings.SplitJoin | TCC/gateway/src/main.py:20-38 | Splitting a join of separator-free fields gives those fields back, so the descriptor `_resolve_sec_string` builds can be read field by field. |
| Strings.SplitAround | TCC/gateway/src/main.py:118 | A split of `x + sep + y` is the split of `x` followed by the split of `y`. |
| Strings.SplitTwoLeading | TCC/gateway/src/main.py:117-119 | Two separator-free leading segments of a topic come off its split as its first two fields; the rest is the split of the remainder. |
| Strings.SplitLimit | TCC/unity/DigitalTwin_v1/Assets/_Project/Scripts/Net/Mqtt/MqttUnityClient.cs:99 | C# `Split(sep, count)` yields at least one and at most `count` parts. |
| Strings.SplitLimitAgrees | TCC/unity/DigitalTwin_v1/Assets/_Project/Scripts/Net/Mqtt/MqttUnityClient.cs:99 | C# `Split(sep, count)` agrees with the unlimited split while there are at most `count` fields, and otherwise keeps the first `count - 1` fields and the rest of the text, later separators included, as the last field. |
| Strings.SplitLimitThree | TCC/unity/DigitalTwin_v1/Assets/_Project/Scripts/Net/Mqtt/MqttUnityClient.cs:99-101 | `Split('/', 3)` of `a/b/rest` with slash-free `a` and `b` is exactly `[a, b, rest]`. |
| Strings.Strip | TCC/gateway/src/main.py:20 | Python `str.strip()`: the result is the slice of the input that starts after its leading white space; everything before and after that slice is white space, and the result neither starts nor ends with white space. |
| Sequences.FirstMatch | TCC/gateway/src/main.py:120-128 | A scan that stops at the first match finds the first element satisfying the test, and finds nothing exactly when no element satisfies it. |
| Security.Fields | TCC/gateway/src/main.py:20 | One field per comma-separated part, the i-th being the i-th part stripped as `Strip` states, none of them holding a comma. |
| Security.ClientPath | TCC/gateway/src/main.py:24-29 | A certificate or key field is kept when absolute and resolved against the gateway's directory when relative; it has no contract of its own, and `ResolveSecString` states which of these paths are checked and reported. |
| Security.ResolveSecString | TCC/gateway/src/main.py:17-38 | No security exactly for a missing, empty or `"None"` descriptor; `ValueError` exactly for fewer than four fields; `FileNotFoundError` for the certificate exactly when it is missing and for the key exactly when the certificate exists and the key does not, each carrying the path checked. |
| Security.DescriptorFields | TCC/gateway/src/main.py:23-38 | A well-formed descriptor comes back exactly when both files exist, and its fields are then the stripped policy and mode, the two resolved paths, and every extra field in order. |
| Translator.TagNamed | TCC/gateway/src/main.py:98 | `tags_cfg[name]`: the position of the first entry with that name, or none when no entry has it. |
| Translator.RouteFor | TCC/gateway/src/main.py:120-121 | The first tag in table order whose topic equals the key, or none when no tag has that topic. |
| Translator.TagNamedFindsItself | TCC/gateway/src/main.py:98 | With distinct tag names, looking a tag up by its own name finds that tag. |
| Translator.UaType | TCC/gateway/src/main.py:41-48 | The four known type names map to their own variant type and every other name to String. |
| Translator.UaTypeOfTypeName | TCC/gateway/src/main.py:41-46 | Each variant type of the table is found again from its own name. |
| Translator.ToVariant | TCC/gateway/src/main.py:47-48 | The value is kept unchanged, under `UaType(typeName)`: the named type when the table knows the name and String otherwise. |
| Translator.UtcIso | TCC/gateway/src/main.py:50-51 | The stamp is 20 characters with `-`, `-`, `T`, `:`, `:` and `Z` at their places. |
| Translator.UtcIsoRoundTrip | TCC/gateway/src/main.py:50-51 | The stamp reads back as the time it was made from: formatting loses nothing. |
| Translator.ParseUtcIsoInverse | TCC/gateway/src/main.py:50-51 | Every well-formed stamp is the formatting of the time it reads as. |
| Translator.SensorMessageFor | TCC/gateway/src/main.py:97-98 | A message exists exactly when the tag name is in the tag table (`tags_cfg[name]` raises otherwise). |
| Translator.SensorMessageMeaning | TCC/gateway/src/main.py:97-104 | The message goes to `sensorsBase/<tag topic>` with the configured QoS and retain flag; the payload carries the value and type as given and a 20-character stamp that reads back as the clock reading. |
| Translator.RoutingKey | TCC/gateway/src/main.py:118-119 | The key is empty for a topic of at most two segments; otherwise the key's own segments are exactly the topic's segments from the third on. |
| Translator.RoutingKeyOf | TCC/gateway/src/main.py:117-119 | For a topic `a/b/rest` with slash-free `a` and `b`, the routing key is `rest`, slashes included. |
| Supervision.RetryFrom | TCC/gateway/src/main.py:84 | From attempt `k` the policy makes at most 100 attempts and waits 5 seconds after each failed one but the last. |
| Supervision.Retry | TCC/gateway/src/main.py:131 | A whole connect phase, the policy from its first attempt; it has no contract of its own, and `RetryPolicy` states what it does. |
| Supervision.RetryPolicy | TCC/gateway/src/main.py:84 | A connect phase connects exactly when one of its 100 attempts succeeds; it then stops at the first success, the attempt it stopped at succeeded, and it waited 5 seconds after each earlier attempt. Otherwise it gives up after 100 attempts and 99 waits of 5 seconds. |
| Supervision.ConnectWithRetry | TCC/gateway/src/main.py:131 | The retry loop around a connect phase ends as the retry policy says, within 1 to 100 attempts. |
| Supervision.TryBlock | TCC/gateway/src/main.py:157-171 | The `try` block of one pass: MQTT, OPC UA, the subscription, then the listener, stopping at the first phase that raises; it has no contract of its own, and `TryBlockOrder` states each phase's outcome and when it raises. |
| Supervision.TryBlockOrder | TCC/gateway/src/main.py:157-171 | The first step is the MQTT phase under its retry policy; OPC UA is tried, under its own retry policy, exactly when MQTT connected; the subscription is made and the listener runs exactly when both connected and the subscription is created; an OPC UA phase whose descriptor raises uses all 100 attempts; the block ends without an exception exactly when every phase succeeds and the command stream ends on its own. |
| Supervision.CycleAsWritten | TCC/gateway/src/main.py:173-178 | As written, a pass leaves `run` exactly when its `try` block raised, and it then neither disconnects OPC UA nor sleeps. |
| Supervision.Cycle | TCC/gateway/src/main.py:173-179 | The corrected half of the first finding: one pass with the intended teardown. It has no contract of its own; `CycleMeaning` and `CyclePasses` state what it does. |
| Supervision.CycleMeaning | TCC/gateway/src/main.py:173-179 | The corrected half of the first finding: with the intended teardown every pass returns to the loop head, starts with the MQTT phase, ends with the 5-second sleep exactly when it raised, and then disconnects OPC UA exactly when its client exists. |
| Supervision.RunAsWritten | TCC/gateway/src/main.py:156-178 | The trace of `run` as written: passes in turn until the first that raises, whose steps end it. It has no contract of its own; `AsWrittenStopsAtFailure` and `AsWrittenWithoutFailure` state what it does. |
| Supervision.Run | TCC/gateway/src/main.py:156-179 | The corrected half of the first finding: the trace of `run` with the intended teardown, one pass per environment. It has no contract of its own; `EveryPassRuns` states what it does. |
| Supervision.FirstFailure | TCC/gateway/src/main.py:156-178 | The first pass whose `try` block raises: that pass raises and no earlier one does, and no pass is found exactly when none raises. |
| Supervision.AsWrittenStopsAtFailure | TCC/gateway/src/main.py:156-178 | As written, when pass `j` is the first that raises, the trace is that of passes `0` to `j`, whatever the later passes would meet, and it holds exactly `j + 1` MQTT connect phases. |
| Supervision.AsWrittenWithoutFailure | TCC/gateway/src/main.py:156-171 | As written, when no pass raises, every pass runs: one MQTT connect phase per environment. |
| Supervision.CycleAsWrittenPasses | TCC/gateway/src/main.py:157-178 | Each pass as written holds exactly one MQTT connect phase. |
| Supervision.CyclePasses | TCC/gateway/src/main.py:156-179 | Each pass with the intended teardown holds exactly one MQTT connect phase. |
| Supervision.EveryPassRuns | TCC/gateway/src/main.py:156-179 | With the intended teardown the run makes one pass per environment, failed or not. |
| Supervision.BrokerOutageEndsRun | TCC/gateway/src/main.py:176-178 | A broker that is down for the first pass and up for the second: as written one pass is made, whether the teardown's MQTT disconnect raises or returns; with the intended teardown two. |
| Gateway.NodeNamed | TCC/gateway/src/main.py:123 | `self.nodes[name]`: an entry with that name, or none when no entry has it. |
| Gateway.NodeHolding | TCC/gateway/src/main.py:198-199 | The first node entry in insertion order holding the node, or none when no entry holds it. |
| Gateway.DispatchCommand | TCC/gateway/src/main.py:111-128 | One command message: decode it, take the first tag whose topic is the routing key, look up its node, read `"value"` and write it. It has no contract of its own; `DispatchMeaning` and `DispatchRouted` state every outcome. |
| Gateway.DispatchMeaning | TCC/gateway/src/main.py:106-128 | Every message has exactly one of three fates: it is skipped with a log line exactly when its payload does not decode, dropped silently exactly when it decodes and no tag has the routing key, and otherwise becomes a write attempt for the first such tag. |
| Gateway.DispatchRouted | TCC/gateway/src/main.py:122-127 | A routed command fails on the node lookup exactly when the node table lacks the tag, and then on `payload["value"]` exactly when the document has none; otherwise the call is the payload's value under the tag's type to the tag's node, written exactly when the server accepts it and logged as rejected exactly when it does not. |
| Gateway.CommandWritesAppend | TCC/gateway/src/main.py:110-128 | The writes of a stream are those of its first part followed by those of its second: one message never affects another. |
| Gateway.WritesAllAppend | TCC/gateway/src/main.py:110-128 | The writes of two runs of dispatches are those of the first run followed by those of the second. |
| Gateway.WritesAllBound | TCC/gateway/src/main.py:120-128 | At most one write per dispatch, and none when no dispatch wrote. |
| Gateway.AtMostOneWritePerMessage | TCC/gateway/src/main.py:120-128 | The listener writes at most once per message, since it stops at the first matching tag. |
| Gateway.EmptyNodeTableWritesNothing | TCC/gateway/src/main.py:79 | With the node table left empty, no command is ever written. |
| Gateway.Notification | TCC/gateway/src/main.py:197-201 | One change notification: the first node entry holding the node names the tag whose value is published once. It has no contract of its own; `NotificationMeaning` and `NotificationMonitored` state every outcome. |
| Gateway.NotificationMeaning | TCC/gateway/src/main.py:197-201 | A notification is ignored exactly when no node entry holds the node. A publish goes to the topic of the tag that the first entry holding the node names, with the notified value, the tag's type and a stamp of the clock reading, and the broker accepted it. A failure names that tag and is an unknown tag exactly when the tag table lacks the name, and a refused publish otherwise. |
| Gateway.NotificationMonitored | TCC/gateway/src/main.py:198-200 | For a node the node table holds, the notification fails on the tag lookup exactly when the tag table lacks the entry's name; otherwise the tag's message is published exactly when the broker accepts it, and the failure is the broker's refusal exactly when it does not. |
| Gateway.PublishTag | TCC/gateway/src/main.py:185-187 | One tag of the cyclic pass: look up its node, read it and publish the value. It has no contract of its own; `PublishTagMeaning` and `PublishTagFound` state every outcome. |
| Gateway.PublishTagMeaning | TCC/gateway/src/main.py:185-187 | A tag is published only when the broker accepts it and its node exists and reads as the published value; with distinct tag names it goes to the tag's topic with its type and its stamp. It fails on the node lookup exactly when the node table lacks the tag, and never on the tag lookup. |
| Gateway.PublishTagFound | TCC/gateway/src/main.py:186-187 | For a tag whose node exists, the step fails on the read exactly when the read raises; otherwise the message carrying the value read is published exactly when the broker accepts it, and refused exactly when it does not. |
| Gateway.TagResults | TCC/gateway/src/main.py:184-187 | One read-and-publish outcome per tag of the table. Its contract gives only the length; `CompletedPassPublishesAll` and `CompletedPassRecorded` state that the i-th outcome is tag i's read and publish at clock reading i. |
| Gateway.PassOver | TCC/gateway/src/main.py:184-190 | The first `n` tags of a pass in table order, stopping at the first failure. It has no contract of its own; `CompletedPassOver`, `FailedPassStays`, `PassOverFails` and `FailedPassStopsAtFailure` state what it does. |
| Gateway.CyclicPrefix | TCC/gateway/src/main.py:183-190 | The first `n` tags of one pass of `cyclic_publisher`. It has no contract of its own; `CompletedPassPublishesAll` and `EmptyNodeTableFailsFirst` state what a whole pass does. |
| Gateway.CompletedPassOver | TCC/gateway/src/main.py:184-187 | A pass that completes has published every tag's message, in table order. |
| Gateway.FailedPassStays | TCC/gateway/src/main.py:188-190 | Once a pass has failed, later tags change nothing. |
| Gateway.PassOverFails | TCC/gateway/src/main.py:188-190 | A failing tag after a good prefix ends the pass with that tag's name and error. |
| Gateway.FailedPassStopsAtFailure | TCC/gateway/src/main.py:184-190 | A failed pass has published exactly the messages of the tags before the failing one, all of whose outcomes were good, so the failing tag is the first error; the pass fails with that tag's name and error. |
| Gateway.CompletedPassPublishesAll | TCC/gateway/src/main.py:182-191 | A pass that completes publishes every tag once, in table order, each with the value read from its node, to its own topic, with its own type and the stamp of its own clock reading. |
| Gateway.EmptyNodeTableFailsFirst | TCC/gateway/src/main.py:79 | With the node table left empty, every pass fails on its first tag and publishes nothing. |
| Gateway.OpcUaMqttGateway.constructor | TCC/gateway/src/main.py:76-81 | A new gateway is running, with no clients, no subscription and nothing recorded. |
| Gateway.OpcUaMqttGateway.FindRoute | TCC/gateway/src/main.py:120-121 | The scan for the first tag with the routing key returns exactly `RouteFor`. |
| Gateway.OpcUaMqttGateway.HandleCommand | TCC/gateway/src/main.py:111-127 | One message adds its accepted write, if any, and its log line to what was there before. |
| Gateway.OpcUaMqttGateway.Listen | TCC/gateway/src/main.py:106-128 | The listener records exactly the writes and log lines of its messages, handled in arrival order. |
| Gateway.OpcUaMqttGateway.OnDataChange | TCC/gateway/src/main.py:197-201 | The notification handler returns the notification's outcome and publishes its message exactly when that outcome is a publish. |
| Gateway.OpcUaMqttGateway.PublishOne | TCC/gateway/src/main.py:185-187 | One tag's read and publish has the outcome of `PublishTag` and records its message exactly when it succeeds. |
| Gateway.OpcUaMqttGateway.CyclicPass | TCC/gateway/src/main.py:183-190 | One pass of the publisher, one clock reading per tag, returns the pass's result and records exactly the messages the pass publishes, in table order; `CompletedPassRecorded` states what those messages are. |
| Gateway.CompletedPassRecorded | TCC/gateway/src/main.py:183-190 | After a pass that completes, the messages it appended to the record are one per tag, and the i-th carries the value read from the i-th tag's node, to its topic, with its type and the stamp of the i-th clock reading. |
| Gateway.OpcUaMqttGateway.Attempt | TCC/gateway/src/main.py:157-171 | The `try` block records its steps and raises as `TryBlock` says; both clients are connected when it does not raise. |
| Gateway.OpcUaMqttGateway.TeardownAsWritten | TCC/gateway/src/main.py:173-178 | As written, the `except` block records one MQTT disconnect and then raises: the `AttributeError` of the missing `disconnect_opc` when the disconnect returns, and the disconnect's own exception when it raises. OPC UA is not disconnected and there is no sleep. |
| Gateway.OpcUaMqttGateway.RunCycleAsWritten | TCC/gateway/src/main.py:156-178 | One pass as written records the steps of `CycleAsWritten` and ends as it does, leaving `run` exactly when the `try` block raised; both clients are connected after a pass that did not raise. |
| Gateway.OpcUaMqttGateway.RunAsWritten | TCC/gateway/src/main.py:154-178 | `run` as written records the trace of `Supervision.RunAsWritten`. It ends with an exception exactly when some pass raises, and that exception is the one the first such pass raises. |
| Gateway.OpcUaMqttGateway.Teardown | TCC/gateway/src/main.py:173-179 | The corrected half of the first finding: the intended teardown disconnects MQTT, disconnects OPC UA only when its client exists, and sleeps 5 seconds. |
| Gateway.OpcUaMqttGateway.RunCycle | TCC/gateway/src/main.py:156-179 | The corrected half of the first finding: one pass with the intended teardown records the steps of `Cycle`; both clients are connected after a pass that did not raise and disconnected after one that did. |
| Gateway.OpcUaMqttGateway.Run | TCC/gateway/src/main.py:154-179 | The corrected half of the first finding: the loop with the intended teardown records the trace of `Supervision.Run` over every pass it meets, in order. |
| UnityClient.ReceivedText | TCC/unity/DigitalTwin_v1/Assets/_Project/Scripts/Net/Mqtt/MqttUnityClient.cs:63 | The text queued for a payload: the empty string for a null payload, its UTF-8 decoding otherwise. It has no contract of its own; `OnMessageReceived` states its use. |
| UnityClient.TagTopicOf | TCC/unity/DigitalTwin_v1/Assets/_Project/Scripts/Net/Mqtt/MqttUnityClient.cs:99-101 | The third part of `Split('/', 3)`, when there is one. It has no contract of its own; `TagTopicMeaning` and `TagTopicOfBuilt` state what it yields. |
| UnityClient.TagTopicMeaning | TCC/unity/DigitalTwin_v1/Assets/_Project/Scripts/Net/Mqtt/MqttUnityClient.cs:99-101 | A topic yields a tag topic exactly when it has at least two slashes, and the tag topic is everything after the second slash. |
| UnityClient.TagTopicOfBuilt | TCC/unity/DigitalTwin_v1/Assets/_Project/Scripts/Net/Mqtt/MqttUnityClient.cs:99-101 | The tag topic of `a/b/rest` with slash-free `a` and `b` is `rest`, whatever `rest` holds. |
| UnityClient.DeliveryOf | TCC/unity/DigitalTwin_v1/Assets/_Project/Scripts/Net/Mqtt/MqttUnityClient.cs:99-114 | The event one dequeued message raises: none for a topic without a tag part or a payload the parser rejects. It has no contract of its own; `DeliveryMeaning` states what it does. |
| UnityClient.DeliveryMeaning | TCC/unity/DigitalTwin_v1/Assets/_Project/Scripts/Net/Mqtt/MqttUnityClient.cs:99-114 | A dequeued message raises an event exactly when its topic has at least three `/`-parts and the parser accepts its payload; the event carries everything after the second slash as the tag topic, and the parsed payload. |
| UnityClient.Deliveries | TCC/unity/DigitalTwin_v1/Assets/_Project/Scripts/Net/Mqtt/MqttUnityClient.cs:94-115 | The events of a drained queue, front first. It has no contract of its own; `DeliveriesAppend`, `DeliveriesBound` and `DeliveriesInOrder` state what it does. |
| UnityClient.DeliveriesAppend | TCC/unity/DigitalTwin_v1/Assets/_Project/Scripts/Net/Mqtt/MqttUnityClient.cs:94-115 | Draining two queued runs raises the events of the first, then those of the second. |
| UnityClient.SkippedMessage | TCC/unity/DigitalTwin_v1/Assets/_Project/Scripts/Net/Mqtt/MqttUnityClient.cs:100-111 | A message with a short topic or a bad payload changes nothing for the messages around it. |
| UnityClient.ShortTopicIgnored | TCC/unity/DigitalTwin_v1/Assets/_Project/Scripts/Net/Mqtt/MqttUnityClient.cs:99-100 | A topic with fewer than three parts raises no event. |
| UnityClient.DeliveriesBound | TCC/unity/DigitalTwin_v1/Assets/_Project/Scripts/Net/Mqtt/MqttUnityClient.cs:94-115 | At most one event per dequeued message. |
| UnityClient.DeliveriesInOrder | TCC/unity/DigitalTwin_v1/Assets/_Project/Scripts/Net/Mqtt/MqttUnityClient.cs:94-115 | When every message is good, each raises its own event and the i-th event comes from the i-th message. |
| UnityClient.CommandJsonAsWritten | TCC/unity/DigitalTwin_v1/Assets/_Project/Scripts/Net/Mqtt/MqttUnityClient.cs:19-25 | What `JsonUtility.ToJson` makes of a command: its type and source, without the `object`-typed value. It has no contract of its own; `Contract.AsWrittenCommandNeverWritten` states what the gateway does with it. |
| UnityClient.CommandFor | TCC/unity/DigitalTwin_v1/Assets/_Project/Scripts/Net/Mqtt/MqttUnityClient.cs:120-128 | The message `PublishCommandAsync` builds: topic `commandsBase + tagTopic`, the as-written document, QoS 0, not retained. It has no contract of its own; `Contract.DefaultCommandTopicRoutesBack` and `Contract.AsWrittenCommandNeverWritten` state what the gateway does with it. |
| UnityClient.MqttUnityClient.constructor | TCC/unity/DigitalTwin_v1/Assets/_Project/Scripts/Net/Mqtt/MqttUnityClient.cs:35-42 | A new component has the given sensor filter and command base (the serialized defaults when none are given) and nothing queued, raised or sent. |
| UnityClient.MqttUnityClient.OnMessageReceived | TCC/unity/DigitalTwin_v1/Assets/_Project/Scripts/Net/Mqtt/MqttUnityClient.cs:60-65 | The handler queues the topic with the payload text at the back, the empty string for a null payload. |
| UnityClient.MqttUnityClient.Update | TCC/unity/DigitalTwin_v1/Assets/_Project/Scripts/Net/Mqtt/MqttUnityClient.cs:92-116 | A frame empties the queue and raises exactly the events of the queued messages, front first. |
| UnityClient.MqttUnityClient.PublishCommand | TCC/unity/DigitalTwin_v1/Assets/_Project/Scripts/Net/Mqtt/MqttUnityClient.cs:118-131 | The command is the message `CommandFor` builds: it goes to `commandsBase + tagTopic` with the as-written document (type and source, no value), the type and source defaulting to `"Int32"` and `"unity"`, at QoS 0, not retained, and it is appended to what was sent. |
| Contract.RoutingKeyIsTagTopic | TCC/gateway/src/main.py:118-119 | The gateway's routing key and the Unity client's tag topic are the same cut of a topic, and the key is empty where the client finds no tag part. |
| Contract.DefaultCommandTopicRoutesBack | TCC/unity/DigitalTwin_v1/Assets/_Project/Scripts/Net/Mqtt/MqttUnityClient.cs:36 | With the default command base, the gateway routes a Unity command back to the tag topic it was sent for. |
| Contract.SensorTopicRoundTrip | TCC/gateway/src/main.py:98 | A value the gateway publishes under a two-segment base reaches the Unity client under the tag's own topic. |
| Contract.AsWrittenCommandNeverWritten | TCC/unity/DigitalTwin_v1/Assets/_Project/Scripts/Net/Mqtt/MqttUnityClient.cs:120-121 | As written, no command the Unity client publishes under the default base is ever written to a node; a routed one whose node exists fails on the missing `"value"`. |
| Contract.CorrectedCommandWritten | TCC/gateway/src/main.py:124 | With the corrected document, a routed command whose node exists is written to that node with the value converted by the tag's type whenever the server accepts it. |

## Left out

- Network I/O, the MQTT and OPC UA client libraries, `asyncio` scheduling and concurrency between the listener, the notification handler and the cyclic publisher. These are modelled as sequential operations over their inputs.
- The broker's message delivery order and the thread hand-off of the Unity `ConcurrentQueue`. The model takes the messages as a queue in delivery order.
- `connect_mqtt`'s two command subscriptions, `mqtt_listener`'s extra subscription and `create_subscription`/`subscribe_data_change` parameters. Only whether the subscription succeeds is modelled.
- Time: the 5-second waits and sleeps are recorded as numbers. `asyncio.sleep(PUB_INT)` between cyclic passes is not modelled, and neither is the endless repetition of `cyclic_publisher`, which is modelled one pass at a time. Each `utc_iso()` call is a clock reading given as a parameter, one per tag in a cyclic pass.
- Reconnection inside the Unity disconnect handler, `Start`, `ConnectAndSubscribe` and `OnApplicationQuit`. These are client-library calls with no logic of their own beyond retrying.
- The Unity component's broker fields (`host`, `port`, `useWebSocket`) and debug flags. They only feed the client library and the log.
- Logging text and the console/file log configuration. The gateway's log is kept as a sequence of entries naming the tag and the error.
- The module-level configuration loading (`yaml.safe_load`). The configuration is a parameter.
- `event_notification`, which does nothing.
- JSON text encoding and decoding (`json.dumps`, `json.loads`, `JsonUtility`). These are functions supplied as parameters, and the model works on decoded values.
- `UnityClient.SensorPayload`: `value` is a real number, not a 32-bit C# `float`. Rounding to single precision is not modelled.
- `Supervision.Cycle`: the intended teardown treats `mqtt.disconnect()` and the OPC UA disconnect as best effort (they cannot raise). The code never reaches an OPC UA disconnect, so the exceptions it could raise are not modelled.
- `Gateway.OpcUaMqttGateway.RunAsWritten`: `self.running` is never cleared, so as written the loop only ends at the first pass that raises. The model runs it over any finite sequence of pass environments; when none of them raises, the endless rest of the loop is not modelled.
- `Supervision.TryBlock`: the security descriptor and the existence of the certificate and key files are one snapshot of the file system for the whole run (`secOk`). The source resolves them again at every `connect_opc` attempt, so a file that appears between attempts would let a later attempt through; the model fails all 100 attempts of every pass instead.
- `UnityClient.MqttUnityClient.Update`: `OnTagValue` subscribers are assumed not to throw; a throwing subscriber ends the frame's drain early and leaves the rest of the queue for the next frame.
- `Gateway.OpcUaMqttGateway.Run`: with the intended teardown the loop never ends. The model runs one pass per environment given, as any finite prefix of the endless loop.

## Findings

| source | as written | input that shows it | evidently intended | confidence | as-written member | corrected member |
|---|---|---|---|---|---|---|
| TCC/gateway/src/main.py:178 | the `except` block of `run` calls `self.disconnect_opc()`, which the class does not define, so the first pass whose `try` block raises ends `run`: the exception of the teardown's MQTT disconnect (main.py:177) or else the `AttributeError` (main.py:178) escapes it | the broker down for all 100 MQTT attempts of the first pass and up afterwards: the gateway stops after one pass instead of reconnecting, whichever of the two escapes | disconnect OPC UA when its client exists, sleep 5 seconds and go round again | medium, not executed | Supervision.BrokerOutageEndsRun | Supervision.EveryPassRuns |
| TCC/unity/DigitalTwin_v1/Assets/_Project/Scripts/Net/Mqtt/MqttUnityClient.cs:22 | `CommandPayload.value` is declared `object`, which `JsonUtility.ToJson` does not serialize, so the command text has only `type` and `source` | any `PublishCommandAsync(tagTopic, 1)` on a gateway whose node table holds the tag: the gateway routes it and finds the node, then `payload["value"]` raises and nothing is written | the value is serialized under `"value"` next to the type and the source | medium, not executed | Contract.AsWrittenCommandNeverWritten | Contract.CorrectedCommandWritten |
