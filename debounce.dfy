/**
 * The per-key debounce state of the watchdog and the two policies that drive it.
 *
 * The process keeps two module-global objects keyed by entity name: `timeout`, the timer
 * handle last stored for the key, and `notified`, set once a "down" mail went out. Beside
 * them it keeps `lastStrom`, the previous power-meter snapshot. A `Registry` holds these,
 * the timers the event loop still has scheduled, the clock, and a log of every mail
 * attempted (the log is the model's observation point; the program keeps none).
 *
 * Edge-triggered policy (health poller, LWT beacons, power meter): `Arm` on distress,
 * `Clear` on recovery. Sliding dead-man policy (Zigbee devices): `Rearm` on every message.
 * `Fire` is a timer callback.
 */
module Debounce {
  import opened Options

  /** A timer handle; the event loop hands out a fresh one for every `setTimeout`. */
  type TimerId = nat

  /** Which handler a timer or a mail belongs to. It fixes the delay and the mail subject. */
  datatype Channel =
    | Server   // checkServers: "server warning" / "server back up"
    | Zigbee   // Zigbee devices: "Zigbee device inactive" / "Zigbee device back up"
    | Strom    // the espstrom meter: "MQTT device down" / "MQTT device back up"
    | Lwt      // tasmota and vito beacons: "MQTT device down" / "MQTT device back up"

  const MINUTE: nat := 60 * 1000

  /** The timer delay of each channel, in milliseconds. */
  function Delay(c: Channel): nat {
    match c
    case Server => 20 * MINUTE
    case Zigbee => 15 * 60 * MINUTE
    case Strom => 5 * MINUTE
    case Lwt => 20 * MINUTE
  }

  /** The key the power-meter handler uses. */
  const MeterKey: string := "espstrom"

  /** A scheduled callback: it sends the down mail about `key` once the clock reaches `due`. */
  datatype Timer = Timer(key: string, due: nat, channel: Channel)

  datatype Kind = Down | Up

  /** One `transport.sendMail` attempt and whether it succeeded. */
  datatype Mail = Mail(kind: Kind, channel: Channel, key: string, delivered: bool)

  datatype Registry = Registry(
    timeout: map<string, TimerId>,   // the `timeout` object
    timers: map<TimerId, Timer>,     // timers neither fired nor cancelled
    nextId: TimerId,                 // the handle the next `setTimeout` returns
    notified: set<string>,           // the keys set in the `notified` object
    lastStrom: Option<string>,       // `lastStrom`; None while undefined
    now: nat,                        // the event loop's clock, in milliseconds
    sent: seq<Mail>)                 // every mail attempted so far

  /** The state at start-up: both objects empty, `lastStrom` undefined. */
  const Initial: Registry := Registry(map[], map[], 0, {}, None, 0, [])

  /** What every reachable state satisfies: handles are fresh, every live timer is the one
      recorded for its key, and the live timer recorded for a key is that key's. */
  ghost predicate WellFormed(s: Registry) {
    && (forall k :: k in s.timeout ==> s.timeout[k] < s.nextId)
    && (forall id :: id in s.timers ==> s.timers[id].key in s.timeout && s.timeout[s.timers[id].key] == id)
    && (forall k :: k in s.timeout && s.timeout[k] in s.timers ==> s.timers[s.timeout[k]].key == k)
  }

  /** The live timers whose callback concerns `key`. */
  ghost function LiveTimers(s: Registry, key: string): set<TimerId> {
    set id | id in s.timers && s.timers[id].key == key
  }

  /** Between `s` and `r` nothing about a key other than `key` changed. */
  ghost predicate Unaffected(s: Registry, r: Registry, key: string) {
    && (forall k :: k != key ==> (k in r.timeout <==> k in s.timeout))
    && (forall k :: k != key && k in s.timeout && k in r.timeout ==> r.timeout[k] == s.timeout[k])
    && (forall k :: k != key ==> (k in r.notified <==> k in s.notified))
    && (forall id :: id in s.timers && s.timers[id].key != key ==> id in r.timers && r.timers[id] == s.timers[id])
    && (forall id :: id in r.timers && r.timers[id].key != key ==> id in s.timers && s.timers[id] == r.timers[id])
  }

  /** Every timer scheduled between `s` and `r` got a handle `s` had not handed out. */
  ghost predicate NewTimersFresh(s: Registry, r: Registry) {
    && s.nextId <= r.nextId
    && (forall id :: id in r.timers && id !in s.timers ==> s.nextId <= id)
  }

  /** `after` is `before`, or `before` followed by one back-up mail. */
  ghost predicate UpOnly(before: seq<Mail>, after: seq<Mail>) {
    after == before || (|after| == |before| + 1 && after[..|before|] == before && after[|before|].kind == Up)
  }

  /** The outcome of one `transport.sendMail` call inside a `try`: on success a down mail sets
      and a back-up mail deletes the key's `notified` entry; on failure the entry stays. */
  function Send(s: Registry, m: Mail): (r: Registry)
    ensures r.sent == s.sent + [m]
    ensures m.key in r.notified <==> (if m.delivered then m.kind == Down else m.key in s.notified)
    ensures forall k :: k != m.key ==> (k in r.notified <==> k in s.notified)
    ensures r.(sent := s.sent, notified := s.notified) == s
  {
    var notified :=
      if !m.delivered then s.notified
      else if m.kind == Down then s.notified + {m.key}
      else s.notified - {m.key};
    s.(sent := s.sent + [m], notified := notified)
  }

  /** Edge-triggered distress: start one timer for `key` unless `timeout` already records one. */
  function Arm(s: Registry, key: string, c: Channel): (r: Registry)
    ensures key in s.timeout ==> r == s
    ensures key in r.timeout
    ensures r.sent == s.sent && r.notified == s.notified
    ensures r.lastStrom == s.lastStrom && r.now == s.now
    ensures NewTimersFresh(s, r)
    ensures WellFormed(s) ==> WellFormed(r) && Unaffected(s, r, key)
    ensures WellFormed(s) && key !in s.timeout ==>
      && LiveTimers(r, key) == {s.nextId}
      && r.timers[s.nextId].due == s.now + Delay(c) && r.timers[s.nextId].channel == c
  {
    if key in s.timeout then s
    else
      s.(timeout := s.timeout[key := s.nextId],
         timers := s.timers[s.nextId := Timer(key, s.now + Delay(c), c)],
         nextId := s.nextId + 1)
  }

  /** Edge-triggered clear: cancel and forget the recorded timer, then send the back-up mail
      if and only if `notified` is set. */
  function Clear(s: Registry, key: string, c: Channel, mailOk: bool): (r: Registry)
    ensures key !in r.timeout
    ensures key in s.notified ==> r.sent == s.sent + [Mail(Up, c, key, mailOk)] && (key in r.notified <==> !mailOk)
    ensures key !in s.notified ==> r.sent == s.sent && key !in r.notified
    ensures r.lastStrom == s.lastStrom && r.now == s.now && r.nextId == s.nextId
    ensures forall id :: id in r.timers ==> id in s.timers
    ensures NewTimersFresh(s, r)
    ensures WellFormed(s) ==> WellFormed(r) && LiveTimers(r, key) == {} && Unaffected(s, r, key)
  {
    var s1 := Cancel(s, key);
    if key in s1.notified then Send(s1, Mail(Up, c, key, mailOk)) else s1
  }

  /** `clearTimeout(timeout[key])` and `Reflect.deleteProperty(timeout, key)`, when an entry exists. */
  function Cancel(s: Registry, key: string): (r: Registry)
    ensures r.timeout == s.timeout - {key}
    ensures r.sent == s.sent && r.notified == s.notified && r.lastStrom == s.lastStrom
    ensures r.now == s.now && r.nextId == s.nextId
    ensures forall id :: id in r.timers ==> id in s.timers
    ensures WellFormed(s) ==> WellFormed(r) && LiveTimers(r, key) == {} && Unaffected(s, r, key)
  {
    if key in s.timeout then s.(timeout := s.timeout - {key}, timers := s.timers - {s.timeout[key]})
    else s
  }

  /** Sliding dead-man timer: cancel any recorded timer, record a fresh 15-hour one, and only
      then send the back-up mail if and only if `notified` is set. */
  function Rearm(s: Registry, key: string, mailOk: bool): (r: Registry)
    ensures key in r.timeout && r.timeout[key] == s.nextId
    ensures key in s.notified ==> r.sent == s.sent + [Mail(Up, Zigbee, key, mailOk)] && (key in r.notified <==> !mailOk)
    ensures key !in s.notified ==> r.sent == s.sent && key !in r.notified
    ensures r.lastStrom == s.lastStrom && r.now == s.now && r.nextId == s.nextId + 1
    ensures NewTimersFresh(s, r)
    ensures WellFormed(s) ==> WellFormed(r) && Unaffected(s, r, key)
    ensures WellFormed(s) ==>
      && LiveTimers(r, key) == {s.nextId}
      && r.timers[s.nextId].due == s.now + Delay(Zigbee) && r.timers[s.nextId].channel == Zigbee
  {
    var s1 := Restart(s, key);
    if key in s1.notified then Send(s1, Mail(Up, Zigbee, key, mailOk)) else s1
  }

  /** `clearTimeout(timeout[key])` when an entry exists, then `timeout[key] = setTimeout(...)`. */
  function Restart(s: Registry, key: string): (r: Registry)
    ensures r.timeout == s.timeout[key := s.nextId] && r.nextId == s.nextId + 1
    ensures r.sent == s.sent && r.notified == s.notified && r.lastStrom == s.lastStrom && r.now == s.now
    ensures NewTimersFresh(s, r)
    ensures WellFormed(s) ==> WellFormed(r) && Unaffected(s, r, key)
    ensures WellFormed(s) ==>
      && LiveTimers(r, key) == {s.nextId}
      && r.timers[s.nextId].due == s.now + Delay(Zigbee) && r.timers[s.nextId].channel == Zigbee
  {
    var remaining := if key in s.timeout then s.timers - {s.timeout[key]} else s.timers;
    s.(timeout := s.timeout[key := s.nextId],
       timers := remaining[s.nextId := Timer(key, s.now + Delay(Zigbee), Zigbee)],
       nextId := s.nextId + 1)
  }

  /** A timer callback runs: it is no longer scheduled, its `timeout` entry stays, and it
      sends the down mail, setting `notified` only if the mail went out. */
  function Fire(s: Registry, id: TimerId, mailOk: bool): (r: Registry)
    requires id in s.timers && s.timers[id].due <= s.now
    ensures r.timers == s.timers - {id}
    ensures r.timeout == s.timeout && r.nextId == s.nextId
    ensures r.lastStrom == s.lastStrom && r.now == s.now
    ensures r.sent == s.sent + [Mail(Down, s.timers[id].channel, s.timers[id].key, mailOk)]
    ensures s.timers[id].key in r.notified <==> mailOk || s.timers[id].key in s.notified
    ensures forall k :: k != s.timers[id].key ==> (k in r.notified <==> k in s.notified)
    ensures WellFormed(s) ==> WellFormed(r)
  {
    var t := s.timers[id];
    Send(s.(timers := s.timers - {id}), Mail(Down, t.channel, t.key, mailOk))
  }

  /** The power-meter handler: a snapshot equal to `lastStrom` is distress; any other one
      (the first one included, since `lastStrom` starts undefined) is a clear, after which
      `lastStrom` holds the new snapshot. */
  function ObserveMeter(s: Registry, snapshot: string, mailOk: bool): (r: Registry)
    ensures r.lastStrom == Some(snapshot)
    ensures MeterKey in r.timeout <==> s.lastStrom == Some(snapshot)
    ensures s.lastStrom == Some(snapshot) ==> r.sent == s.sent && r.notified == s.notified
    ensures s.lastStrom == Some(snapshot) && MeterKey in s.timeout ==> r == s
    ensures WellFormed(s) && s.lastStrom == Some(snapshot) && MeterKey !in s.timeout ==>
      && LiveTimers(r, MeterKey) == {s.nextId}
      && r.timers[s.nextId].due == s.now + Delay(Strom) && r.timers[s.nextId].channel == Strom
    ensures s.lastStrom != Some(snapshot) ==>
      && (MeterKey in s.notified ==> r.sent == s.sent + [Mail(Up, Strom, MeterKey, mailOk)])
      && (MeterKey !in s.notified ==> r.sent == s.sent)
      && (MeterKey !in r.notified <==> MeterKey !in s.notified || mailOk)
      && MeterKey !in r.timeout && r.nextId == s.nextId
      && (WellFormed(s) ==> LiveTimers(r, MeterKey) == {})
    ensures r.now == s.now && UpOnly(s.sent, r.sent)
    ensures NewTimersFresh(s, r)
    ensures WellFormed(s) ==> WellFormed(r) && Unaffected(s, r, MeterKey)
  {
    if s.lastStrom == Some(snapshot) then Arm(s, MeterKey, Strom)
    else Clear(s, MeterKey, Strom, mailOk).(lastStrom := Some(snapshot))
  }

  /** The environment's clock advancing; the program has no code for this, but its timers
      become due only as time passes. */
  function Elapse(s: Registry, dt: nat): Registry {
    s.(now := s.now + dt)
  }

  /** An exception the message handler's outer `try` catches. */
  datatype Fault = SenderNotDetected | TypeError

  /** What one handler step does to the registry. */
  datatype Action =
    | Ignored                                            // an early `return`
    | Caught(fault: Fault)                               // a thrown and caught exception
    | Signal(key: string, distress: bool, channel: Channel)  // edge-triggered distress or clear
    | Beat(key: string)                                  // a Zigbee message
    | Meter(snapshot: string)                            // an espstrom reading

  /** One handler step. Only a timer sends a down mail; a handler sends at most a back-up mail,
      and an ignored message or a caught exception changes nothing. */
  function Apply(s: Registry, a: Action, mailOk: bool): (r: Registry)
    ensures a.Ignored? || a.Caught? ==> r == s
    ensures r.now == s.now && UpOnly(s.sent, r.sent)
    ensures NewTimersFresh(s, r)
    ensures WellFormed(s) ==> WellFormed(r)
  {
    match a
    case Ignored => s
    case Caught(_) => s
    case Signal(key, distress, c) => if distress then Arm(s, key, c) else Clear(s, key, c, mailOk)
    case Beat(key) => Rearm(s, key, mailOk)
    case Meter(snapshot) => ObserveMeter(s, snapshot, mailOk)
  }

  /** Handler steps applied in order, the i-th one with the i-th mail outcome. */
  function ApplyAll(s: Registry, actions: seq<Action>, mailOks: seq<bool>): (r: Registry)
    requires |actions| == |mailOks|
    ensures r.now == s.now && NewTimersFresh(s, r)
    ensures WellFormed(s) ==> WellFormed(r)
    decreases |actions|
  {
    if |actions| == 0 then s
    else
      var n := |actions| - 1;
      Apply(ApplyAll(s, actions[..n], mailOks[..n]), actions[n], mailOks[n])
  }

  // ---------------------------------------------------------------------------
  // The mail log against `notified`

  /** The last delivered mail about `key` is a down mail. */
  ghost function Outstanding(log: seq<Mail>, key: string): bool
    decreases |log|
  {
    if |log| == 0 then false
    else
      var last := log[|log| - 1];
      if last.key == key && last.delivered then last.kind == Down
      else Outstanding(log[..|log| - 1], key)
  }

  /** Every back-up mail was attempted while a delivered down mail about its key was outstanding. */
  ghost predicate UpsJustified(log: seq<Mail>) {
    forall i :: 0 <= i < |log| && log[i].kind == Up ==> Outstanding(log[..i], log[i].key)
  }

  /** `notified` holds exactly the keys with an outstanding delivered down mail. */
  ghost predicate Accountable(s: Registry) {
    && (forall k :: k in s.notified <==> Outstanding(s.sent, k))
    && UpsJustified(s.sent)
  }

  lemma OutstandingAppend(log: seq<Mail>, m: Mail, key: string)
    ensures Outstanding(log + [m], key) ==
      if m.key == key && m.delivered then m.kind == Down else Outstanding(log, key)
  {
    assert (log + [m])[..|log|] == log;
  }

  /** A mail keeps the log accountable, provided a back-up mail is sent only while `notified`. */
  lemma SendKeepsAccountable(s: Registry, m: Mail)
    requires Accountable(s)
    requires m.kind == Up ==> m.key in s.notified
    ensures Accountable(Send(s, m))
  {
    var r := Send(s, m);
    forall k ensures k in r.notified <==> Outstanding(r.sent, k) {
      OutstandingAppend(s.sent, m, k);
    }
    forall i | 0 <= i < |r.sent| && r.sent[i].kind == Up
      ensures Outstanding(r.sent[..i], r.sent[i].key)
    {
      if i < |s.sent| {
        assert r.sent[..i] == s.sent[..i];
      } else {
        assert r.sent[..i] == s.sent;
      }
    }
  }

  lemma ApplyKeepsAccountable(s: Registry, a: Action, mailOk: bool)
    requires Accountable(s)
    ensures Accountable(Apply(s, a, mailOk))
  {
    match a
    case Ignored =>
    case Caught(_) =>
    case Signal(key, distress, c) =>
      if !distress { ClearKeepsAccountable(s, key, c, mailOk); }
    case Beat(key) =>
      var s1 := Restart(s, key);
      if key in s1.notified { SendKeepsAccountable(s1, Mail(Up, Zigbee, key, mailOk)); }
    case Meter(snapshot) =>
      if s.lastStrom != Some(snapshot) { ClearKeepsAccountable(s, MeterKey, Strom, mailOk); }
  }

  lemma ClearKeepsAccountable(s: Registry, key: string, c: Channel, mailOk: bool)
    requires Accountable(s)
    ensures Accountable(Clear(s, key, c, mailOk))
  {
    var s1 := Cancel(s, key);
    if key in s1.notified { SendKeepsAccountable(s1, Mail(Up, c, key, mailOk)); }
  }

  lemma FireKeepsAccountable(s: Registry, id: TimerId, mailOk: bool)
    requires id in s.timers && s.timers[id].due <= s.now
    requires Accountable(s)
    ensures Accountable(Fire(s, id, mailOk))
  {
    var t := s.timers[id];
    SendKeepsAccountable(s.(timers := s.timers - {id}), Mail(Down, t.channel, t.key, mailOk));
  }
}
