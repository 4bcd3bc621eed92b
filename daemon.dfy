/**
 * The watchdog process's mutable state and its handlers, written as they update that state
 * in place, each proved to do what the corresponding `Debounce` function describes.
 */
module Daemon {
  import opened Options
  import opened JsValues
  import opened Debounce
  import opened Router
  import opened Poller

  class Watchdog {
    var timeout: map<string, TimerId>
    var timers: map<TimerId, Timer>
    var nextId: TimerId
    var notified: set<string>
    var lastStrom: Option<string>
    var now: nat
    ghost var sent: seq<Mail>

    ghost function State(): Registry
      reads this
    {
      Registry(timeout, timers, nextId, notified, lastStrom, now, sent)
    }

    ghost predicate Valid()
      reads this
    {
      WellFormed(State()) && Accountable(State())
    }

    /** Start-up: both objects empty, `lastStrom` undefined, nothing scheduled. */
    constructor ()
      ensures Valid() && State() == Initial
    {
      timeout, timers, nextId := map[], map[], 0;
      notified, lastStrom := {}, None;
      now := 0;
      sent := [];
    }

    /** `await transport.sendMail(...)` followed, inside the same `try`, by the update of `notified`. */
    method SendMail(m: Mail)
      modifies this
      ensures State() == Send(old(State()), m)
    {
      sent := sent + [m];
      if m.delivered {
        if m.kind == Down {
          notified := notified + {m.key};
        } else {
          notified := notified - {m.key};
        }
      }
    }

    /** Distress under the edge-triggered policy. */
    method Arm(key: string, c: Channel)
      requires Valid()
      modifies this
      ensures Valid() && State() == Debounce.Arm(old(State()), key, c)
    {
      if key !in timeout {
        timers := timers[nextId := Timer(key, now + Delay(c), c)];
        timeout := timeout[key := nextId];
        nextId := nextId + 1;
      }
    }

    /** A clear under the edge-triggered policy. */
    method Clear(key: string, c: Channel, mailOk: bool)
      requires Valid()
      modifies this
      ensures Valid() && State() == Debounce.Clear(old(State()), key, c, mailOk)
    {
      if key in timeout {
        timers := timers - {timeout[key]};
        timeout := timeout - {key};
      }
      if key in notified {
        SendMail(Mail(Up, c, key, mailOk));
      }
      ClearKeepsAccountable(old(State()), key, c, mailOk);
    }

    /** A Zigbee message: restart the dead-man timer, then report the device back if it was reported. */
    method Rearm(key: string, mailOk: bool)
      requires Valid()
      modifies this
      ensures Valid() && State() == Debounce.Rearm(old(State()), key, mailOk)
    {
      ghost var s0 := State();
      if key in timeout {
        timers := timers - {timeout[key]};
      }
      timers := timers[nextId := Timer(key, now + Delay(Zigbee), Zigbee)];
      timeout := timeout[key := nextId];
      nextId := nextId + 1;
      ghost var s1 := State();
      if key in notified {
        SendMail(Mail(Up, Zigbee, key, mailOk));
        assert State() == Send(s1, Mail(Up, Zigbee, key, mailOk));
      }
      assert State() == Debounce.Rearm(s0, key, mailOk);
      ApplyKeepsAccountable(s0, Beat(key), mailOk);
    }

    /** An espstrom reading with snapshot `snapshot`. */
    method ObserveMeter(snapshot: string, mailOk: bool)
      requires Valid()
      modifies this
      ensures Valid() && State() == Debounce.ObserveMeter(old(State()), snapshot, mailOk)
    {
      if lastStrom == Some(snapshot) {
        Arm(MeterKey, Strom);
      } else {
        Clear(MeterKey, Strom, mailOk);
        lastStrom := Some(snapshot);
      }
    }

    /** A timer callback, run by the event loop once the timer is due. */
    method Fire(id: TimerId, mailOk: bool)
      requires Valid() && id in timers && timers[id].due <= now
      modifies this
      ensures Valid() && State() == Debounce.Fire(old(State()), id, mailOk)
    {
      var t := timers[id];
      timers := timers - {id};
      SendMail(Mail(Down, t.channel, t.key, mailOk));
      FireKeepsAccountable(old(State()), id, mailOk);
    }

    /** The event loop's clock advancing: no code of the program, the environment's step
        that makes timers due. */
    method Elapse(dt: nat)
      requires Valid()
      modifies this
      ensures Valid() && State() == Debounce.Elapse(old(State()), dt)
    {
      now := now + dt;
    }

    method Perform(a: Action, mailOk: bool)
      requires Valid()
      modifies this
      ensures Valid() && State() == Apply(old(State()), a, mailOk)
    {
      match a
      case Ignored =>
      case Caught(_) =>
      case Signal(key, distress, c) =>
        if distress {
          Arm(key, c);
        } else {
          Clear(key, c, mailOk);
        }
      case Beat(key) => Rearm(key, mailOk);
      case Meter(snapshot) => ObserveMeter(snapshot, mailOk);
    }

    /** The MQTT `message` handler: classify, then run the policy; a caught exception or an
        early return leaves the state as it was, so the next message is handled normally. */
    method OnMessage(topic: string, raw: string, payload: Parsed, mailOk: bool)
      requires Valid()
      modifies this
      ensures Valid() && State() == Apply(old(State()), Route(topic, raw, payload), mailOk)
    {
      var action := Route(topic, raw, payload);
      Perform(action, mailOk);
    }

    /** One run of `checkServers`: every configured host once, in order, except the one this
        watchdog runs on; `replies[i]` is what the request to `Servers[i]` produced and
        `mailOks[i]` whether its back-up mail, if any, went out. */
    method CheckServers(hostname: string, replies: seq<Reply>, mailOks: seq<bool>)
      requires Valid() && |replies| == |Servers| && |mailOks| == |Servers|
      modifies this
      ensures Valid()
      ensures State() == ApplyAll(old(State()), CycleActions(hostname, replies), mailOks)
    {
      ghost var acts := CycleActions(hostname, replies);
      for i := 0 to |Servers|
        invariant Valid()
        invariant State() == ApplyAll(old(State()), acts[..i], mailOks[..i])
      {
        assert acts[..i + 1][..i] == acts[..i] && mailOks[..i + 1][..i] == mailOks[..i];
        ghost var before := State();
        assert ApplyAll(old(State()), acts[..i + 1], mailOks[..i + 1]) == Apply(before, acts[i], mailOks[i]);
        var server := Servers[i];
        if IsSelf(hostname, server) {
          continue;
        }
        var error := HealthError(server, replies[i]);
        if Truthy(error) {
          Arm(server, Server);
        } else {
          Clear(server, Server, mailOks[i]);
        }
      }
      assert acts[..|Servers|] == acts && mailOks[..|Servers|] == mailOks;
    }
  }
}
