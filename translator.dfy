/** The gateway's pure translation logic (TCC/gateway/src/main.py): the type
    table `UA_TYPES`/`to_variant`, the `utc_iso` time stamp, the topic and payload
    that `publish_value` builds, the routing key `mqtt_listener` derives from a
    command topic, and the table lookups behind them. */
module Translator {
  import opened Wrappers
  import opened Strings
  import opened Json
  import opened Sequences

  // ----- Tag table -----

  /** One entry of the tag table: its name (the dictionary key), its topic
      suffix and its configured type name. */
  datatype Tag = Tag(name: string, topic: string, typeName: string)

  /** The tag table comes from a dictionary, so its names are distinct. */
  predicate UniqueNames(tags: seq<Tag>)
  {
    forall i, j :: 0 <= i < j < |tags| ==> tags[i].name != tags[j].name
  }

  /** `tags_cfg[name]`: the position of the entry with that name, if any. */
  function TagNamed(tags: seq<Tag>, name: string): (r: Option<nat>)
    ensures r.Some? ==> r.value < |tags| && tags[r.value].name == name
    ensures r.Some? ==> forall j :: 0 <= j < r.value ==> tags[j].name != name
    ensures r.None? ==> forall j :: 0 <= j < |tags| ==> tags[j].name != name
  {
    FirstMatch(tags, (t: Tag) => t.name == name)
  }

  /** The first entry, in table order, whose topic suffix is `key`. */
  function RouteFor(tags: seq<Tag>, key: string): (r: Option<nat>)
    ensures r.Some? ==> r.value < |tags| && tags[r.value].topic == key
    ensures r.Some? ==> forall j :: 0 <= j < r.value ==> tags[j].topic != key
    ensures r.None? ==> forall j :: 0 <= j < |tags| ==> tags[j].topic != key
  {
    FirstMatch(tags, (t: Tag) => t.topic == key)
  }

  /** With distinct names, looking a tag up by its own name finds that tag. */
  lemma TagNamedFindsItself(tags: seq<Tag>, i: nat)
    requires UniqueNames(tags) && i < |tags|
    ensures TagNamed(tags, tags[i].name) == Some(i)
  {
  }

  // ----- Variant types -----

  /** The OPC UA variant types of `UA_TYPES`. */
  datatype VariantType = Int32 | Float | Boolean | String

  function TypeName(t: VariantType): string
  {
    match t
    case Int32 => "Int32"
    case Float => "Float"
    case Boolean => "Boolean"
    case String => "String"
  }

  /** `UA_TYPES.get(name, ua.VariantType.String)`: the four known names map to
      their own type, every other name to String. */
  function UaType(name: string): (t: VariantType)
    ensures t == String <==> name != "Int32" && name != "Float" && name != "Boolean"
    ensures t != String ==> TypeName(t) == name
  {
    if name == "Int32" then Int32
    else if name == "Float" then Float
    else if name == "Boolean" then Boolean
    else String
  }

  /** Each variant type is found again from its own name. */
  lemma UaTypeOfTypeName(t: VariantType)
    ensures UaType(TypeName(t)) == t
  {
  }

  /** `ua.Variant(value, type)`. */
  datatype Variant = Variant(value: Json, vtype: VariantType)

  /** `to_variant(value, name)`: the value unchanged, under the named type when
      the table knows the name, and under String otherwise. */
  function ToVariant(value: Json, typeName: string): (r: Variant)
    ensures r.value == value
    ensures r.vtype == UaType(typeName)
    ensures r.vtype == String || TypeName(r.vtype) == typeName
  {
    Variant(value, UaType(typeName))
  }

  // ----- UTC time stamps -----

  /** The broken-down UTC fields `time.gmtime()` gives for the current clock. */
  datatype UtcTime = UtcTime(year: int, month: int, day: int, hour: int, minute: int, second: int)

  predicate ValidUtc(t: UtcTime)
  {
    && 1970 <= t.year <= 9999 && 1 <= t.month <= 12 && 1 <= t.day <= 31
    && 0 <= t.hour <= 23 && 0 <= t.minute <= 59 && 0 <= t.second <= 61
  }

  function Digit(d: int): char
    requires 0 <= d <= 9
  {
    ('0' as int + d) as char
  }

  predicate IsDigit(c: char)
  {
    '0' <= c <= '9'
  }

  function DigitValue(c: char): int
  {
    c as int - '0' as int
  }

  /** A two-digit zero-padded field (`%m`, `%d`, `%H`, `%M`, `%S`). */
  function Digits2(n: int): string
    requires 0 <= n <= 99
  {
    [Digit(n / 10), Digit(n % 10)]
  }

  /** A four-digit year (`%Y`). */
  function Digits4(n: int): string
    requires 0 <= n <= 9999
  {
    Digits2(n / 100) + Digits2(n % 100)
  }

  /** `time.strftime("%Y-%m-%dT%H:%M:%SZ", t)`. */
  function UtcIso(t: UtcTime): (r: string)
    requires ValidUtc(t)
    ensures |r| == 20
    ensures r[4] == '-' && r[7] == '-' && r[10] == 'T' && r[13] == ':' && r[16] == ':' && r[19] == 'Z'
  {
    Digits4(t.year) + "-" + Digits2(t.month) + "-" + Digits2(t.day) + "T"
      + Digits2(t.hour) + ":" + Digits2(t.minute) + ":" + Digits2(t.second) + "Z"
  }

  function Value2(s: string, i: nat): int
    requires i + 2 <= |s|
  {
    10 * DigitValue(s[i]) + DigitValue(s[i + 1])
  }

  predicate DigitsAt(s: string, i: nat, n: nat)
    requires i + n <= |s|
  {
    forall j :: i <= j < i + n ==> IsDigit(s[j])
  }

  /** Reads a `YYYY-MM-DDTHH:MM:SSZ` stamp back into its fields; `None` for text
      of any other shape or with fields out of range. */
  function ParseUtcIso(s: string): (r: Option<UtcTime>)
    ensures r.Some? ==> ValidUtc(r.value)
  {
    if |s| == 20 && s[4] == '-' && s[7] == '-' && s[10] == 'T' && s[13] == ':' && s[16] == ':' && s[19] == 'Z'
       && DigitsAt(s, 0, 4) && DigitsAt(s, 5, 2) && DigitsAt(s, 8, 2)
       && DigitsAt(s, 11, 2) && DigitsAt(s, 14, 2) && DigitsAt(s, 17, 2)
    then
      var t := UtcTime(100 * Value2(s, 0) + Value2(s, 2), Value2(s, 5), Value2(s, 8),
                       Value2(s, 11), Value2(s, 14), Value2(s, 17));
      if ValidUtc(t) then Some(t) else None
    else None
  }

  lemma Digits2Read(n: int, s: string, i: nat)
    requires 0 <= n <= 99 && i + 2 <= |s| && s[i..i + 2] == Digits2(n)
    ensures DigitsAt(s, i, 2) && Value2(s, i) == n
  {
    assert s[i] == Digits2(n)[0] && s[i + 1] == Digits2(n)[1];
  }

  /** The time stamp can be read back: formatting loses nothing. */
  lemma UtcIsoRoundTrip(t: UtcTime)
    requires ValidUtc(t)
    ensures ParseUtcIso(UtcIso(t)) == Some(t)
  {
    var s := UtcIso(t);
    Digits2Read(t.year / 100, s, 0);
    Digits2Read(t.year % 100, s, 2);
    Digits2Read(t.month, s, 5);
    Digits2Read(t.day, s, 8);
    Digits2Read(t.hour, s, 11);
    Digits2Read(t.minute, s, 14);
    Digits2Read(t.second, s, 17);
    assert DigitsAt(s, 0, 4);
  }

  lemma Digits2Of(s: string, i: nat)
    requires i + 2 <= |s| && DigitsAt(s, i, 2)
    ensures 0 <= Value2(s, i) <= 99 && Digits2(Value2(s, i)) == s[i..i + 2]
  {
    assert IsDigit(s[i]) && IsDigit(s[i + 1]);
  }

  /** Where each field of a formatted stamp sits. */
  lemma UtcIsoLayout(t: UtcTime)
    requires ValidUtc(t)
    ensures var u := UtcIso(t);
      && u[0..2] == Digits2(t.year / 100) && u[2..4] == Digits2(t.year % 100)
      && u[5..7] == Digits2(t.month) && u[8..10] == Digits2(t.day)
      && u[11..13] == Digits2(t.hour) && u[14..16] == Digits2(t.minute) && u[17..19] == Digits2(t.second)
  {
  }

  /** Two stamps with the same separators and the same two-character fields are
      the same text. */
  lemma SameStamp(u: string, s: string)
    requires |u| == 20 && |s| == 20
    requires u[4] == s[4] && u[7] == s[7] && u[10] == s[10] && u[13] == s[13] && u[16] == s[16] && u[19] == s[19]
    requires u[0..2] == s[0..2] && u[2..4] == s[2..4] && u[5..7] == s[5..7] && u[8..10] == s[8..10]
    requires u[11..13] == s[11..13] && u[14..16] == s[14..16] && u[17..19] == s[17..19]
    ensures u == s
  {
    forall j | 0 <= j < 20 ensures u[j] == s[j] {
      if j < 2 { assert u[j] == u[0..2][j]; }
      else if j < 4 { assert u[j] == u[2..4][j - 2]; }
      else if 5 <= j < 7 { assert u[j] == u[5..7][j - 5]; }
      else if 8 <= j < 10 { assert u[j] == u[8..10][j - 8]; }
      else if 11 <= j < 13 { assert u[j] == u[11..13][j - 11]; }
      else if 14 <= j < 16 { assert u[j] == u[14..16][j - 14]; }
      else if 17 <= j < 19 { assert u[j] == u[17..19][j - 17]; }
    }
  }

  /** Every well-formed stamp is the formatting of the time it reads as. */
  lemma ParseUtcIsoInverse(s: string)
    requires ParseUtcIso(s).Some?
    ensures UtcIso(ParseUtcIso(s).value) == s
  {
    var t := ParseUtcIso(s).value;
    Digits2Of(s, 0);
    Digits2Of(s, 2);
    Digits2Of(s, 5);
    Digits2Of(s, 8);
    Digits2Of(s, 11);
    Digits2Of(s, 14);
    Digits2Of(s, 17);
    assert t.year / 100 == Value2(s, 0) && t.year % 100 == Value2(s, 2);
    UtcIsoLayout(t);
    SameStamp(UtcIso(t), s);
  }

  // ----- Outbound sensor messages -----

  /** The MQTT settings the gateway reads from its configuration. */
  datatype MqttSettings = MqttSettings(sensorsBase: string, commandsBase: string, qos: nat, retain: bool)

  /** The payload `{"value", "type", "ts"}`, before `json.dumps`. */
  datatype SensorPayload = SensorPayload(value: Json, vtype: string, ts: string)

  datatype SensorMessage = SensorMessage(topic: string, payload: SensorPayload, qos: nat, retain: bool)

  /** What `publish_value(name, value, vtype)` hands to the broker at time `now`;
      `None` where `tags_cfg[name]` raises `KeyError`. */
  function SensorMessageFor(mq: MqttSettings, tags: seq<Tag>, name: string, value: Json, vtype: string, now: UtcTime)
    : (r: Option<SensorMessage>)
    requires ValidUtc(now)
    ensures r.Some? <==> TagNamed(tags, name).Some?
  {
    match TagNamed(tags, name)
    case None => None
    case Some(i) =>
      Some(SensorMessage(mq.sensorsBase + "/" + tags[i].topic,
                         SensorPayload(value, vtype, UtcIso(now)), mq.qos, mq.retain))
  }

  /** The message goes to the sensors base followed by the tag's topic, carries
      the value and type it was given and a 20-character timestamp that parses
      back to the time of the call, with the configured QoS and retain flag. */
  lemma SensorMessageMeaning(mq: MqttSettings, tags: seq<Tag>, name: string, value: Json, vtype: string, now: UtcTime)
    requires ValidUtc(now) && TagNamed(tags, name).Some?
    ensures var m := SensorMessageFor(mq, tags, name, value, vtype, now).value;
      && m.topic == mq.sensorsBase + "/" + tags[TagNamed(tags, name).value].topic
      && m.payload.value == value && m.payload.vtype == vtype
      && |m.payload.ts| == 20 && ParseUtcIso(m.payload.ts) == Some(now)
      && m.qos == mq.qos && m.retain == mq.retain
  {
    UtcIsoRoundTrip(now);
  }

  // ----- Inbound command routing key -----

  /** `"/".join(topic.split("/")[2:])`: the topic without its first two
      segments. The key is empty for a topic of at most two segments, and
      otherwise its own segments are the topic's from the third on. */
  function RoutingKey(topic: string): (r: string)
    ensures |Split(topic, '/')| <= 2 ==> r == ""
    ensures |Split(topic, '/')| > 2 ==> Split(r, '/') == Split(topic, '/')[2..]
  {
    var parts := Split(topic, '/');
    if |parts| <= 2 then ""
    else
      SplitJoin(parts[2..], '/');
      Join(parts[2..], '/')
  }

  /** Whatever the two leading segments are, the key is the rest of the topic,
      slashes included. */
  lemma RoutingKeyOf(a: string, b: string, rest: string)
    requires '/' !in a && '/' !in b
    ensures RoutingKey(a + "/" + b + "/" + rest) == rest
  {
    var p := Split(a + "/" + b + "/" + rest, '/');
    SplitTwoLeading(a, b, '/', rest);
    assert p[2..] == Split(rest, '/');
    JoinSplit(rest, '/');
  }
}
