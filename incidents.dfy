/**
 * Runs of the watchdog: handler steps, timer callbacks and the passing of time, in any
 * order the event loop may produce, and what holds of every such run.
 */
module Incidents {
  import opened Options
  import opened JsValues
  import opened Debounce
  import opened Router

  /** One atomic step of the event loop. */
  datatype Event =
    | Handle(action: Action, mailOk: bool)  // a message handler or one poll iteration
    | Expire(id: TimerId, mailOk: bool)     // the event loop runs a timer callback
    | Wait(dt: nat)                         // time passes

  /** A callback can run only for a scheduled timer whose delay has passed; the event loop
      offers nothing else, so any other `Expire` is no step at all. */
  function Step(s: Registry, e: Event): Registry {
    match e
    case Handle(a, ok) => Apply(s, a, ok)
    case Expire(id, ok) => if id in s.timers && s.timers[id].due <= s.now then Fire(s, id, ok) else s
    case Wait(dt) => Elapse(s, dt)
  }

  function Run(s: Registry, es: seq<Event>): Registry
    decreases |es|
  {
    if |es| == 0 then s else Run(Step(s, es[0]), es[1..])
  }

  ghost predicate Invariant(s: Registry) {
    WellFormed(s) && Accountable(s)
  }

  lemma StepKeepsInvariant(s: Registry, e: Event)
    requires Invariant(s)
    ensures Invariant(Step(s, e))
  {
    match e
    case Handle(a, ok) => ApplyKeepsAccountable(s, a, ok);
    case Expire(id, ok) => if id in s.timers && s.timers[id].due <= s.now { FireKeepsAccountable(s, id, ok); }
    case Wait(dt) =>
  }

  /** Every state a run reaches from a good state is good; in particular every state
      reachable from start-up. */
  lemma {:induction false} RunKeepsInvariant(s: Registry, es: seq<Event>)
    requires Invariant(s)
    ensures Invariant(Run(s, es))
    decreases |es|
  {
    if |es| > 0 {
      StepKeepsInvariant(s, es[0]);
      RunKeepsInvariant(Step(s, es[0]), es[1..]);
    }
  }

  lemma {:induction false} RunAppend(s: Registry, es: seq<Event>, e: Event)
    ensures Run(s, es + [e]) == Step(Run(s, es), e)
    decreases |es|
  {
    if |es| == 0 {
      assert es + [e] == [e];
    } else {
      assert (es + [e])[1..] == es[1..] + [e];
      RunAppend(Step(s, es[0]), es[1..], e);
    }
  }

  /** The events of a poll cycle: iteration i with the i-th outcome of its back-up mail. */
  function Handles(actions: seq<Action>, mailOks: seq<bool>): (es: seq<Event>)
    requires |actions| == |mailOks|
    ensures |es| == |actions|
  {
    seq(|actions|, i requires 0 <= i < |actions| => Handle(actions[i], mailOks[i]))
  }

  /** A poll cycle is the run of its iterations, so everything proved about runs holds
      across poll cycles too. */
  lemma {:induction false} CycleIsRun(s: Registry, actions: seq<Action>, mailOks: seq<bool>)
    requires |actions| == |mailOks|
    ensures ApplyAll(s, actions, mailOks) == Run(s, Handles(actions, mailOks))
    decreases |actions|
  {
    if |actions| > 0 {
      var n := |actions| - 1;
      CycleIsRun(s, actions[..n], mailOks[..n]);
      HandlesSnoc(actions, mailOks);
      RunAppend(s, Handles(actions[..n], mailOks[..n]), Handle(actions[n], mailOks[n]));
    }
  }

  lemma HandlesSnoc(actions: seq<Action>, mailOks: seq<bool>)
    requires |actions| == |mailOks| > 0
    ensures var n := |actions| - 1;
      Handles(actions, mailOks) == Handles(actions[..n], mailOks[..n]) + [Handle(actions[n], mailOks[n])]
  {
    var n := |actions| - 1;
    var front := Handles(actions[..n], mailOks[..n]);
    assert forall k :: 0 <= k < n ==> front[k] == Handle(actions[k], mailOks[k]);
  }

  // ---------------------------------------------------------------------------
  // At most one down mail per incident

  /** The number of down mails about `key` in `log`, delivered or not. */
  function Downs(log: seq<Mail>, key: string): nat
    decreases |log|
  {
    if |log| == 0 then 0
    else
      var last := log[|log| - 1];
      Downs(log[..|log| - 1], key) + (if last.kind == Down && last.key == key then 1 else 0)
  }

  lemma DownsAppend(log: seq<Mail>, m: Mail, key: string)
    ensures Downs(log + [m], key) == Downs(log, key) + (if m.kind == Down && m.key == key then 1 else 0)
  {
    assert (log + [m])[..|log|] == log;
  }

  /** How many more down mails about `key` the recorded timer can still produce: none once it
      has fired, one otherwise. */
  function Budget(s: Registry, key: string): nat {
    if key in s.timeout && s.timeout[key] !in s.timers then 0 else 1
  }

  /** A step that neither removes nor replaces the timer recorded for `key`: the incident goes on. */
  ghost predicate KeepsEntry(s: Registry, r: Registry, key: string) {
    key in s.timeout ==> key in r.timeout && r.timeout[key] == s.timeout[key]
  }

  ghost predicate EntryKept(s: Registry, es: seq<Event>, key: string)
    decreases |es|
  {
    |es| == 0 || (KeepsEntry(s, Step(s, es[0]), key) && EntryKept(Step(s, es[0]), es[1..], key))
  }

  lemma StepBudget(s: Registry, e: Event, key: string)
    requires WellFormed(s) && KeepsEntry(s, Step(s, e), key)
    ensures WellFormed(Step(s, e))
    ensures Downs(Step(s, e).sent, key) + Budget(Step(s, e), key) <= Downs(s.sent, key) + Budget(s, key)
  {
    var r := Step(s, e);
    match e
    case Wait(_) =>
    case Handle(a, ok) =>
      if r.sent != s.sent {
        assert r.sent == s.sent + [r.sent[|s.sent|]];
        DownsAppend(s.sent, r.sent[|s.sent|], key);
      }
      if key in s.timeout && s.timeout[key] !in s.timers {
        assert s.timeout[key] < s.nextId;
      }
    case Expire(id, ok) =>
      if id in s.timers && s.timers[id].due <= s.now {
        var t := s.timers[id];
        DownsAppend(s.sent, Mail(Down, t.channel, t.key, ok), key);
        if key in s.timeout && s.timeout[key] in s.timers && t.key != key {
          assert s.timeout[key] != id;
        }
      }
  }

  /** Between the moment `timeout` records a timer for `key` and the clear that removes it
      (or a Zigbee message that replaces it), at most one down mail about `key` is sent, and
      none once the recorded timer has fired: the fired timer stays recorded, so distress
      starts no new one. */
  lemma {:induction false} AtMostOneDownPerIncident(s: Registry, es: seq<Event>, key: string)
    requires WellFormed(s) && EntryKept(s, es, key)
    ensures Downs(Run(s, es).sent, key) <= Downs(s.sent, key) + Budget(s, key)
    ensures Downs(Run(s, es).sent, key) <= Downs(s.sent, key) + 1
    ensures key in s.timeout && s.timeout[key] !in s.timers ==> Downs(Run(s, es).sent, key) == Downs(s.sent, key)
    decreases |es|
  {
    if |es| > 0 {
      StepBudget(s, es[0], key);
      AtMostOneDownPerIncident(Step(s, es[0]), es[1..], key);
    }
    assert Downs(s.sent, key) <= Downs(Run(s, es).sent, key) by {
      RunKeepsDowns(s, es, key);
    }
  }

  /** Mails are only ever appended to the log, so no count of down mails ever falls. */
  lemma {:induction false} RunKeepsDowns(s: Registry, es: seq<Event>, key: string)
    ensures |s.sent| <= |Run(s, es).sent| && Run(s, es).sent[..|s.sent|] == s.sent
    ensures Downs(s.sent, key) <= Downs(Run(s, es).sent, key)
    decreases |es|
  {
    if |es| > 0 {
      var r := Step(s, es[0]);
      if r.sent != s.sent {
        assert r.sent == s.sent + [r.sent[|s.sent|]];
        DownsAppend(s.sent, r.sent[|s.sent|], key);
      }
      assert r.sent[..|s.sent|] == s.sent;
      RunKeepsDowns(r, es[1..], key);
      var log := Run(r, es[1..]).sent;
      assert log[..|s.sent|] == log[..|r.sent|][..|s.sent|];
    }
  }

  /** In a good state a key has at most one live timer, the one `timeout` records. */
  lemma OneLiveTimerPerKey(s: Registry, key: string)
    requires WellFormed(s)
    ensures LiveTimers(s, key) <= if key in s.timeout then {s.timeout[key]} else {}
    ensures |LiveTimers(s, key)| <= 1
  {
    var bound: set<TimerId> := if key in s.timeout then {s.timeout[key]} else {};
    assert LiveTimers(s, key) <= bound;
    assert |bound| <= 1;
    SubsetCard(LiveTimers(s, key), bound);
  }

  lemma SubsetCard(a: set<TimerId>, b: set<TimerId>)
    requires a <= b
    ensures |a| <= |b|
  {
    assert b == a + (b - a);
  }

  // ---------------------------------------------------------------------------
  // Clears

  /** A clear that delivered its back-up mail, or had none to send, leaves nothing for a
      second clear to do: repeated clears mail nothing and change nothing. */
  lemma ClearIdempotent(s: Registry, key: string, c: Channel, mailOk: bool, c2: Channel, mailOk2: bool)
    requires key !in s.notified || mailOk
    ensures Clear(Clear(s, key, c, mailOk), key, c2, mailOk2) == Clear(s, key, c, mailOk)
  {
  }

  /** Distress cleared before its timer fired: no mail, and the registry is as before except
      for the handle the cancelled timer used up. */
  lemma AbortedIncident(s: Registry, key: string, c: Channel, mailOk: bool)
    requires WellFormed(s) && key !in s.timeout && key !in s.notified
    ensures Clear(Arm(s, key, c), key, c, mailOk) == s.(nextId := s.nextId + 1)
  {
    var a := Arm(s, key, c);
    assert a.timeout - {key} == s.timeout;
    assert s.nextId !in s.timers;
    assert a.timers - {s.nextId} == s.timers;
  }

  // ---------------------------------------------------------------------------
  // Back-up mails follow delivered down mails

  ghost predicate NoDeliveredUpBetween(log: seq<Mail>, j: int, i: int, key: string)
    requires 0 <= j <= i <= |log|
  {
    forall l :: j < l < i && log[l].key == key && log[l].kind == Up ==> !log[l].delivered
  }

  lemma {:induction false} OutstandingWitness(log: seq<Mail>, key: string)
    requires Outstanding(log, key)
    ensures exists j :: 0 <= j < |log| && log[j].kind == Down && log[j].key == key && log[j].delivered
                        && NoDeliveredUpBetween(log, j, |log|, key)
    decreases |log|
  {
    var n := |log| - 1;
    var last := log[n];
    if !(last.key == key && last.delivered) {
      var prefix := log[..n];
      OutstandingWitness(prefix, key);
      var j :| 0 <= j < |prefix| && prefix[j].kind == Down && prefix[j].key == key && prefix[j].delivered
               && NoDeliveredUpBetween(prefix, j, |prefix|, key);
      assert log[j] == prefix[j];
      assert NoDeliveredUpBetween(log, j, |log|, key) by {
        forall l | j < l < |log| && log[l].key == key && log[l].kind == Up
          ensures !log[l].delivered
        {
          if l < n { assert log[l] == prefix[l]; }
        }
      }
    }
  }

  /** Every back-up mail from start-up on was sent after a delivered down mail about the same
      key, with no delivered back-up mail about that key in between. */
  lemma BackUpOnlyAfterDeliveredDown(es: seq<Event>, i: nat)
    requires i < |Run(Initial, es).sent| && Run(Initial, es).sent[i].kind == Up
    ensures var log := Run(Initial, es).sent;
      exists j :: 0 <= j < i && log[j].kind == Down && log[j].key == log[i].key && log[j].delivered
                  && NoDeliveredUpBetween(log, j, i, log[i].key)
  {
    var log := Run(Initial, es).sent;
    var key := log[i].key;
    RunKeepsInvariant(Initial, es);
    var prefix := log[..i];
    OutstandingWitness(prefix, key);
    var j :| 0 <= j < |prefix| && prefix[j].kind == Down && prefix[j].key == key && prefix[j].delivered
             && NoDeliveredUpBetween(prefix, j, |prefix|, key);
    assert log[j] == prefix[j];
    assert NoDeliveredUpBetween(log, j, i, key) by {
      forall l | j < l < i && log[l].key == key && log[l].kind == Up
        ensures !log[l].delivered
      {
        assert log[l] == prefix[l];
      }
    }
  }

  /** Once a back-up mail about a key went out, the next one needs a new delivered down
      mail first: at most one recovery notice per down notice. */
  lemma OneBackUpPerDown(es: seq<Event>, l: nat, i: nat)
    requires l < i < |Run(Initial, es).sent|
    requires var log := Run(Initial, es).sent;
      log[l].kind == Up && log[l].delivered && log[i].kind == Up && log[i].key == log[l].key
    ensures var log := Run(Initial, es).sent;
      exists j :: l < j < i && log[j].kind == Down && log[j].key == log[i].key && log[j].delivered
  {
    var log := Run(Initial, es).sent;
    BackUpOnlyAfterDeliveredDown(es, i);
    var j :| 0 <= j < i && log[j].kind == Down && log[j].key == log[i].key && log[j].delivered
             && NoDeliveredUpBetween(log, j, i, log[i].key);
    assert l < j;
  }

  // ---------------------------------------------------------------------------
  // Scenarios

  /** Short runs unrolled into their steps. */
  lemma RunOfOne(s: Registry, e0: Event)
    ensures Run(s, [e0]) == Step(s, e0)
  {
    assert [e0][1..] == [];
  }

  lemma RunOfTwo(s: Registry, e0: Event, e1: Event)
    ensures Run(s, [e0, e1]) == Step(Step(s, e0), e1)
  {
    assert [e0, e1][1..] == [e1];
    RunOfOne(Step(s, e0), e1);
  }

  lemma RunOfThree(s: Registry, e0: Event, e1: Event, e2: Event)
    ensures Run(s, [e0, e1, e2]) == Step(Step(Step(s, e0), e1), e2)
  {
    assert [e0, e1, e2][1..] == [e1, e2];
    RunOfTwo(Step(s, e0), e1, e2);
  }

  lemma RunOfFour(s: Registry, e0: Event, e1: Event, e2: Event, e3: Event)
    ensures Run(s, [e0, e1, e2, e3]) == Step(Step(Step(Step(s, e0), e1), e2), e3)
  {
    assert [e0, e1, e2, e3][1..] == [e1, e2, e3];
    RunOfThree(Step(s, e0), e1, e2, e3);
  }

  lemma RunOfFive(s: Registry, e0: Event, e1: Event, e2: Event, e3: Event, e4: Event)
    ensures Run(s, [e0, e1, e2, e3, e4]) == Step(Step(Step(Step(Step(s, e0), e1), e2), e3), e4)
  {
    assert [e0, e1, e2, e3, e4][1..] == [e1, e2, e3, e4];
    RunOfFour(Step(s, e0), e1, e2, e3, e4);
  }

  /** A beacon reports `Offline` and, within twenty minutes, anything else: no callback can
      run in between, no mail is sent and the key is fully clear again. */
  lemma BeaconRecoversInTime(name: string, p: Parsed, q: Parsed, raw: string, dt: nat, id: TimerId,
                             ok0: bool, okFire: bool, ok: bool)
    requires name != [] && '/' !in name && name != IgnoredBeacon
    requires raw != Offline && dt < Delay(Lwt)
    ensures var topic := LwtHead + name + LwtTail;
      var r := Run(Initial, [Handle(Route(topic, Offline, p), ok0), Wait(dt), Expire(id, okFire),
                             Handle(Route(topic, raw, q), ok)]);
      r.sent == [] && name !in r.timeout && name !in r.notified && r.timers == map[]
  {
    var topic := LwtHead + name + LwtTail;
    RouteTasmota(name, Offline, p);
    RouteTasmota(name, raw, q);
    var e0, e1, e2, e3 := Handle(Route(topic, Offline, p), ok0), Wait(dt), Expire(id, okFire), Handle(Route(topic, raw, q), ok);
    RunOfFour(Initial, e0, e1, e2, e3);
    var s1 := Step(Initial, e0);
    assert s1 == Initial.(timeout := map[name := 0], timers := map[0 := Timer(name, Delay(Lwt), Lwt)], nextId := 1);
    var s2 := Step(s1, e1);
    assert s2 == s1.(now := dt);
    var s3 := Step(s2, e2);
    assert s3 == s2;
    var s4 := Step(s3, e3);
    assert s4 == s3.(timeout := map[], timers := map[]);
  }

  /** A beacon stays `Offline`: after twenty minutes the callback sends exactly one down mail;
      a further `Offline` adds nothing; the next other payload sends exactly one back-up mail. */
  lemma BeaconAlertsOnceThenRecovers(name: string, p: Parsed, raw: string, ok: bool)
    requires name != [] && '/' !in name && name != IgnoredBeacon && raw != Offline
    ensures var topic := LwtHead + name + LwtTail;
      var r := Run(Initial, [Handle(Route(topic, Offline, p), true), Wait(Delay(Lwt)), Expire(0, true),
                             Handle(Route(topic, Offline, p), true), Handle(Route(topic, raw, p), ok)]);
      && r.sent == [Mail(Down, Lwt, name, true), Mail(Up, Lwt, name, ok)]
      && name !in r.timeout && (name in r.notified <==> !ok)
  {
    var topic := LwtHead + name + LwtTail;
    RouteTasmota(name, Offline, p);
    RouteTasmota(name, raw, p);
    var e0, e1, e2 := Handle(Route(topic, Offline, p), true), Wait(Delay(Lwt)), Expire(0, true);
    var e3, e4 := Handle(Route(topic, Offline, p), true), Handle(Route(topic, raw, p), ok);
    RunOfFive(Initial, e0, e1, e2, e3, e4);
    var s1 := Step(Initial, e0);
    assert s1 == Initial.(timeout := map[name := 0], timers := map[0 := Timer(name, Delay(Lwt), Lwt)], nextId := 1);
    var s2 := Step(s1, e1);
    assert s2 == s1.(now := Delay(Lwt));
    var s3 := Step(s2, e2);
    assert s3 == s2.(timers := map[], sent := [Mail(Down, Lwt, name, true)], notified := {name});
    var s4 := Step(s3, e3);
    assert s4 == s3;
    var s5 := Step(s4, e4);
    assert s5 == Send(s4.(timeout := map[]), Mail(Up, Lwt, name, ok));
  }

  /** A run of two event sequences is the second run from where the first one ends. */
  lemma {:induction false} RunConcat(s: Registry, xs: seq<Event>, ys: seq<Event>)
    ensures Run(s, xs + ys) == Run(Run(s, xs), ys)
    decreases |xs|
  {
    if |xs| > 0 {
      assert (xs + ys)[0] == xs[0] && (xs + ys)[1..] == xs[1..] + ys;
      RunConcat(Step(s, xs[0]), xs[1..], ys);
    } else {
      assert xs + ys == ys;
    }
  }

  /** The state fifteen hours after a Zigbee device's only message once its callback ran. */
  function Silenced(sender: string, okDown: bool): Registry {
    Send(Registry(map[sender := 0], map[], 1, {}, None, Delay(Zigbee), []), Mail(Down, Zigbee, sender, okDown))
  }

  /** A device's message followed by fifteen hours of silence: one inactive mail, and the
      entry of the fired timer stays. */
  lemma ZigbeeSilence(sender: string, okDown: bool)
    ensures Run(Initial, [Handle(Beat(sender), true), Wait(Delay(Zigbee)), Expire(0, okDown)]) ==
            Silenced(sender, okDown)
  {
    var e0, e1, e2 := Handle(Beat(sender), true), Wait(Delay(Zigbee)), Expire(0, okDown);
    RunOfThree(Initial, e0, e1, e2);
    var s1 := Step(Initial, e0);
    assert s1 == Initial.(timeout := map[sender := 0], timers := map[0 := Timer(sender, Delay(Zigbee), Zigbee)],
                          nextId := 1);
    var s2 := Step(s1, e1);
    assert s2 == s1.(now := Delay(Zigbee));
  }

  /** After the inactive mail the fired timer cannot run again, and the device's next message
      installs a fresh timer and reports it back exactly when the inactive mail went out. */
  lemma ZigbeeReturn(sender: string, dt: nat, okDown: bool, okAgain: bool, okUp: bool)
    ensures var r := Run(Silenced(sender, okDown), [Wait(dt), Expire(0, okAgain), Handle(Beat(sender), okUp)]);
      && r.sent == [Mail(Down, Zigbee, sender, okDown)] + (if okDown then [Mail(Up, Zigbee, sender, okUp)] else [])
      && LiveTimers(r, sender) == {1} && sender in r.timeout && r.timeout[sender] == 1
  {
    var s3 := Silenced(sender, okDown);
    var e3, e4, e5 := Wait(dt), Expire(0, okAgain), Handle(Beat(sender), okUp);
    RunOfThree(s3, e3, e4, e5);
    assert s3.sent == [Mail(Down, Zigbee, sender, okDown)] && s3.timers == map[];
    assert sender in s3.notified <==> okDown;
    var s4 := Step(s3, e3);
    assert s4 == s3.(now := Delay(Zigbee) + dt);
    var s5 := Step(s4, e4);
    assert s5 == s4;
    assert WellFormed(s5);
  }

  /** A Zigbee device goes quiet for fifteen hours: one inactive mail. The fired timer cannot
      run again. Its next message (even one that is not JSON) installs a fresh timer and sends
      one back-up mail if and only if the inactive mail went out. */
  lemma ZigbeeSilenceAndReturn(sender: string, raw: string, dt: nat, okDown: bool, okAgain: bool, okUp: bool)
    requires !StartsWith(ZigbeePrefix + sender, BridgePrefix)
    ensures var topic := ZigbeePrefix + sender;
      var r := Run(Initial, [Handle(Route(topic, raw, Malformed), true), Wait(Delay(Zigbee)), Expire(0, okDown),
                             Wait(dt), Expire(0, okAgain), Handle(Route(topic, raw, Malformed), okUp)]);
      && r.sent == [Mail(Down, Zigbee, sender, okDown)] + (if okDown then [Mail(Up, Zigbee, sender, okUp)] else [])
      && LiveTimers(r, sender) == {1} && sender in r.timeout && r.timeout[sender] == 1
  {
    RouteZigbee(sender, raw, Malformed);
    var xs := [Handle(Beat(sender), true), Wait(Delay(Zigbee)), Expire(0, okDown)];
    var ys := [Wait(dt), Expire(0, okAgain), Handle(Beat(sender), okUp)];
    assert xs + ys == [Handle(Beat(sender), true), Wait(Delay(Zigbee)), Expire(0, okDown),
                       Wait(dt), Expire(0, okAgain), Handle(Beat(sender), okUp)];
    RunConcat(Initial, xs, ys);
    ZigbeeSilence(sender, okDown);
    ZigbeeReturn(sender, dt, okDown, okAgain, okUp);
  }

  /** The state after a repeated snapshot `a` persisted for five minutes and its callback ran
      with the down mail delivered. */
  function MeterAlerted(a: string): Registry {
    Registry(map[MeterKey := 0], map[], 1, {MeterKey}, Some(a), Delay(Strom), [Mail(Down, Strom, MeterKey, true)])
  }

  /** The meter repeats one snapshot for five minutes: one down mail. The first reading only
      sets `lastStrom`. */
  lemma MeterStuck(a: string)
    ensures Run(Initial, [Handle(Meter(a), true), Handle(Meter(a), true), Wait(Delay(Strom)), Expire(0, true)]) ==
            MeterAlerted(a)
  {
    var e0, e1, e2, e3 := Handle(Meter(a), true), Handle(Meter(a), true), Wait(Delay(Strom)), Expire(0, true);
    RunOfFour(Initial, e0, e1, e2, e3);
    var s1 := Step(Initial, e0);
    assert s1 == Initial.(lastStrom := Some(a));
    var s2 := Step(s1, e1);
    assert s2 == s1.(timeout := map[MeterKey := 0], timers := map[0 := Timer(MeterKey, Delay(Strom), Strom)], nextId := 1);
    var s3 := Step(s2, e2);
    assert s3 == s2.(now := Delay(Strom));
  }

  /** After the down mail a further repeat adds nothing, and a changed snapshot sends one
      back-up mail and clears the entry. */
  lemma MeterMoves(a: string, b: string, ok: bool)
    requires a != b
    ensures var r := Run(MeterAlerted(a), [Handle(Meter(a), true), Handle(Meter(b), ok)]);
      && r.sent == [Mail(Down, Strom, MeterKey, true), Mail(Up, Strom, MeterKey, ok)]
      && r.lastStrom == Some(b) && MeterKey !in r.timeout
  {
    var s4 := MeterAlerted(a);
    var e4, e5 := Handle(Meter(a), true), Handle(Meter(b), ok);
    RunOfTwo(s4, e4, e5);
    var s5 := Step(s4, e4);
    assert s5 == s4;
  }

  /** The two halves together. */
  lemma MeterStuckThenMoves(a: string, b: string, ok: bool)
    requires a != b
    ensures var r := Run(Initial, [Handle(Meter(a), true), Handle(Meter(a), true), Wait(Delay(Strom)),
                                   Expire(0, true), Handle(Meter(a), true), Handle(Meter(b), ok)]);
      && r.sent == [Mail(Down, Strom, MeterKey, true), Mail(Up, Strom, MeterKey, ok)]
      && r.lastStrom == Some(b) && MeterKey !in r.timeout
  {
    var xs := [Handle(Meter(a), true), Handle(Meter(a), true), Wait(Delay(Strom)), Expire(0, true)];
    var ys := [Handle(Meter(a), true), Handle(Meter(b), ok)];
    assert xs + ys == [Handle(Meter(a), true), Handle(Meter(a), true), Wait(Delay(Strom)),
                       Expire(0, true), Handle(Meter(a), true), Handle(Meter(b), ok)];
    RunConcat(Initial, xs, ys);
    MeterStuck(a);
    MeterMoves(a, b, ok);
  }
}
