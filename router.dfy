/**
 * The MQTT `message` handler's classification: which topic reaches which policy, under
 * which key, and which messages end in an early return or a caught exception.
 */
module Router {
  import opened Options
  import opened JsValues
  import opened Debounce

  const ZigbeePrefix: string := "Zigbee/"
  const BridgePrefix: string := "Zigbee/bridge"
  const MeterTopic: string := "tasmota/espstrom/tele/SENSOR"
  const VitoTopic: string := "vito/tele/LWT"
  const LwtHead: string := "tasmota/"
  const LwtTail: string := "/tele/LWT"
  const Offline: string := "Offline"
  const IgnoredBeacon: string := "steckdose"

  predicate StartsWith(s: string, prefix: string) {
    |prefix| <= |s| && s[..|prefix|] == prefix
  }

  /** The capture group of `/^tasmota\/([^/]+)\/tele\/LWT$/`, or None when the topic does not match. */
  function LwtSender(topic: string): (r: Option<string>)
    ensures r.Some? ==> topic == LwtHead + r.value + LwtTail && r.value != [] && '/' !in r.value
  {
    if |topic| > |LwtHead| + |LwtTail| && StartsWith(topic, LwtHead)
       && topic[|topic| - |LwtTail|..] == LwtTail
       && '/' !in topic[|LwtHead|..|topic| - |LwtTail|]
    then
      var name := topic[|LwtHead|..|topic| - |LwtTail|];
      assert topic == topic[..|LwtHead|] + name + topic[|topic| - |LwtTail|..];
      Some(name)
    else None
  }

  /** The converse: every topic of that shape matches, capturing exactly the name. */
  lemma LwtSenderMatches(name: string)
    requires name != [] && '/' !in name
    ensures LwtSender(LwtHead + name + LwtTail) == Some(name)
  {
    var topic := LwtHead + name + LwtTail;
    assert topic[..|LwtHead|] == LwtHead;
    assert topic[|topic| - |LwtTail|..] == LwtTail;
    assert topic[|LwtHead|..|topic| - |LwtTail|] == name;
  }

  /** `${message.SML.Verbrauch}:${message.SML.Leistung}`: a TypeError when `message` or
      `message.SML` is `null` or `undefined`, or when either reading has no conversion to text. */
  function Snapshot(message: JsValue): (r: Outcome<string>)
    ensures var sml := Property(message, "SML");
      r.Throws? <==>
        || Nullish(message) || Nullish(sml)
        || ConversionThrows(Property(sml, "Verbrauch")) || ConversionThrows(Property(sml, "Leistung"))
    ensures var sml := Property(message, "SML");
      r.Returns? ==> r == Returns(ToText(Property(sml, "Verbrauch")).value + ":" + ToText(Property(sml, "Leistung")).value)
  {
    match Member(message, "SML")
    case Throws => Throws
    case Returns(sml) =>
      match Member(sml, "Verbrauch")
      case Throws => Throws
      case Returns(verbrauch) =>
        match ToText(verbrauch)
        case Throws => Throws
        case Returns(left) =>
          match Member(sml, "Leistung")
          case Throws => Throws
          case Returns(leistung) =>
            match ToText(leistung)
            case Throws => Throws
            case Returns(right) => Returns(left + ":" + right)
  }

  /** The handler for one message, first match wins: Zigbee topics (bridge topics dropped),
      the espstrom sensor topic, the tasmota and vito LWT topics; any other topic throws
      "Sender not detected", which the handler's outer `try` catches. */
  function Route(topic: string, raw: string, payload: Parsed): (a: Action)
    ensures a.Beat? ==> topic == ZigbeePrefix + a.key && !StartsWith(topic, BridgePrefix)
    ensures a.Meter? ==> topic == MeterTopic
    ensures a.Signal? ==> a.channel == Lwt && (a.distress <==> raw == Offline) && a.key != IgnoredBeacon
  {
    var message := Decode(payload);
    if StartsWith(topic, ZigbeePrefix) then
      if StartsWith(topic, BridgePrefix) then Ignored
      // `const {battery} = message` throws for a `null` payload
      else if Nullish(message) then Caught(TypeError)
      // `battery < 50` converts `battery` to a primitive first
      else if ConversionThrows(Property(message, "battery")) then Caught(TypeError)
      else
        assert topic == ZigbeePrefix + topic[|ZigbeePrefix|..];
        Beat(topic[|ZigbeePrefix|..])
    else if topic == MeterTopic then
      match Snapshot(message)
      case Throws => Caught(TypeError)
      case Returns(snapshot) => Meter(snapshot)
    else
      match LwtSender(topic)
      case Some(name) => if name == IgnoredBeacon then Ignored else Signal(name, raw == Offline, Lwt)
      case None =>
        if topic == VitoTopic then Signal("vito", raw == Offline, Lwt)
        else Caught(SenderNotDetected)
  }

  /** A Zigbee device's message refreshes its dead-man timer under the topic's remainder as
      key, unless it parses to `null` or its `battery` member cannot be compared with a
      number; those throw and are caught. A payload that is not JSON decodes to `{}` and so
      still counts. */
  lemma RouteZigbee(sender: string, raw: string, payload: Parsed)
    requires !StartsWith(ZigbeePrefix + sender, BridgePrefix)
    ensures Route(ZigbeePrefix + sender, raw, payload) ==
      if payload.Parsed? && (Nullish(payload.value) || ConversionThrows(Property(payload.value, "battery")))
      then Caught(TypeError) else Beat(sender)
  {
    var topic := ZigbeePrefix + sender;
    assert topic[..|ZigbeePrefix|] == ZigbeePrefix;
    assert topic[|ZigbeePrefix|..] == sender;
  }

  /** Every topic under `Zigbee/bridge` is dropped before any state is touched. */
  lemma RouteBridge(topic: string, raw: string, payload: Parsed)
    requires StartsWith(topic, BridgePrefix)
    ensures Route(topic, raw, payload) == Ignored
  {
    assert topic[..|ZigbeePrefix|] == topic[..|BridgePrefix|][..|ZigbeePrefix|];
  }

  /** A tasmota beacon `tasmota/<name>/tele/LWT` is an edge signal for `<name>`: exactly the
      payload `Offline` is distress, every other payload a clear; `steckdose` is ignored. */
  lemma RouteTasmota(name: string, raw: string, payload: Parsed)
    requires name != [] && '/' !in name
    ensures Route(LwtHead + name + LwtTail, raw, payload) ==
      if name == IgnoredBeacon then Ignored else Signal(name, raw == Offline, Lwt)
  {
    var topic := LwtHead + name + LwtTail;
    LwtSenderMatches(name);
    assert topic[0] == 't';
    assert !StartsWith(topic, ZigbeePrefix) by { assert ZigbeePrefix[0] == 'Z'; }
    assert topic[|topic| - 1] == 'T';
    assert topic != MeterTopic by { assert MeterTopic[|MeterTopic| - 1] == 'R'; }
  }

  /** `vito/tele/LWT` is the edge signal for `vito`. */
  lemma RouteVito(raw: string, payload: Parsed)
    ensures Route(VitoTopic, raw, payload) == Signal("vito", raw == Offline, Lwt)
  {
    assert VitoTopic[0] == 'v';
    assert !StartsWith(VitoTopic, ZigbeePrefix) by { assert ZigbeePrefix[0] == 'Z'; }
    assert VitoTopic != MeterTopic by { assert MeterTopic[0] == 't'; }
    assert LwtSender(VitoTopic) == None by {
      assert !StartsWith(VitoTopic, LwtHead) by { assert LwtHead[0] == 't'; }
    }
  }

  /** Any other topic throws "Sender not detected"; the exception is caught and nothing changes. */
  lemma RouteOther(topic: string, raw: string, payload: Parsed)
    requires !StartsWith(topic, ZigbeePrefix) && topic != MeterTopic && topic != VitoTopic
    requires forall name :: name != [] && '/' !in name ==> topic != LwtHead + name + LwtTail
    ensures Route(topic, raw, payload) == Caught(SenderNotDetected)
  {
  }

  /** Every payload on the meter topic: the reading is its snapshot, or the snapshot's
      TypeError, which is caught. */
  lemma RouteMeter(raw: string, payload: Parsed)
    ensures Route(MeterTopic, raw, payload) ==
      if Snapshot(Decode(payload)).Throws? then Caught(TypeError) else Meter(Snapshot(Decode(payload)).value)
  {
    assert !StartsWith(MeterTopic, ZigbeePrefix) by { assert MeterTopic[0] == 't' && ZigbeePrefix[0] == 'Z'; }
  }

  /** A meter payload, whatever its other members, whose two readings are numbers is
      compared by the text `Verbrauch:Leistung`. */
  lemma RouteMeterReading(raw: string, payload: Parsed, verbrauch: string, leistung: string)
    requires payload.Parsed?
    requires Property(Property(payload.value, "SML"), "Verbrauch") == Num(verbrauch)
    requires Property(Property(payload.value, "SML"), "Leistung") == Num(leistung)
    ensures Route(MeterTopic, raw, payload) == Meter(verbrauch + ":" + leistung)
  {
    RouteMeter(raw, payload);
  }

  /** A meter payload that is not JSON becomes `{}`, so `message.SML.Verbrauch` throws; the
      exception is caught and nothing changes. */
  lemma RouteMeterMalformed(raw: string)
    ensures Route(MeterTopic, raw, Malformed) == Caught(TypeError)
  {
    assert MeterTopic[0] == 't';
    assert !StartsWith(MeterTopic, ZigbeePrefix) by { assert ZigbeePrefix[0] == 'Z'; }
  }

  /** A meter payload either of whose readings has no conversion to text (an object with its
      own `toString` member, or an array holding one) throws a TypeError, which is caught
      and changes nothing. */
  lemma RouteMeterUnprintable(raw: string, payload: Parsed)
    requires payload.Parsed?
    requires var sml := Property(payload.value, "SML");
      ConversionThrows(Property(sml, "Verbrauch")) || ConversionThrows(Property(sml, "Leistung"))
    ensures Route(MeterTopic, raw, payload) == Caught(TypeError)
  {
    RouteMeter(raw, payload);
  }
}
