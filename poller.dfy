/**
 * The outcome handling of `checkServers`: one health request per configured host and
 * cycle, turned into an edge-triggered signal keyed by the host name.
 */
module Poller {
  import opened Options
  import opened Debounce

  /** The configured hosts, in the order the loop visits them. */
  const Servers: seq<string> := ["pi-jalousie", "pi-wecker", "qnap"]

  /** What the GET request to a host's health endpoint produced: a response body, or a
      thrown error with its message. */
  datatype Reply = Body(text: string) | Unreachable(reason: string)

  /** The value of `error` after the request: still undefined for the body `ok`, the body for
      any other response, a description for a thrown request. */
  function HealthError(server: string, reply: Reply): (e: Option<string>)
    ensures reply.Unreachable? ==> e.Some? && e.value != ""
    ensures reply.Body? ==> (e.Some? <==> reply.text != "ok") && (e.Some? ==> e.value == reply.text)
  {
    match reply
    case Body(text) => if text != "ok" then Some(text) else None
    case Unreachable(reason) => Some("Server unresponsive " + server + ": " + reason)
  }

  /** JavaScript truthiness of `error`: defined and not the empty string. */
  predicate Truthy(e: Option<string>) {
    e.Some? && e.value != ""
  }

  /** The host this watchdog runs on is named `<server>-watchdog` and is not checked. */
  predicate IsSelf(hostname: string, server: string) {
    hostname == server + "-watchdog"
  }

  /** One iteration of the loop. A host is in distress when its request threw or it answered
      with a body that is neither `ok` nor empty; an empty body is falsy and counts as healthy. */
  function ServerAction(hostname: string, server: string, reply: Reply): (a: Action)
    ensures IsSelf(hostname, server) ==> a == Ignored
    ensures !IsSelf(hostname, server) ==>
      a == Signal(server, reply.Unreachable? || (reply.text != "ok" && reply.text != ""), Server)
  {
    if IsSelf(hostname, server) then Ignored
    else Signal(server, Truthy(HealthError(server, reply)), Server)
  }

  /** The actions of one cycle, one per configured host. */
  function CycleActions(hostname: string, replies: seq<Reply>): (acts: seq<Action>)
    requires |replies| == |Servers|
    ensures |acts| == |Servers|
    ensures forall i :: 0 <= i < |Servers| ==> (acts[i].Ignored? <==> IsSelf(hostname, Servers[i]))
    ensures forall i :: 0 <= i < |Servers| && !IsSelf(hostname, Servers[i]) ==>
      acts[i].Signal? && acts[i].key == Servers[i] && acts[i].channel == Server
    ensures forall i :: 0 <= i < |Servers| && !IsSelf(hostname, Servers[i]) ==>
      (acts[i].distress <==> replies[i].Unreachable? || (replies[i].text != "ok" && replies[i].text != ""))
  {
    seq(|Servers|, i requires 0 <= i < |Servers| => ServerAction(hostname, Servers[i], replies[i]))
  }

  /** On `qnap-watchdog` the cycle skips `qnap` and signals the other two hosts. */
  lemma QnapSkipsItself(replies: seq<Reply>)
    requires |replies| == |Servers|
    ensures CycleActions("qnap-watchdog", replies)[2] == Ignored
    ensures forall i :: 0 <= i < 2 ==> CycleActions("qnap-watchdog", replies)[i].Signal?
  {
    assert IsSelf("qnap-watchdog", Servers[2]);
    assert !IsSelf("qnap-watchdog", Servers[0]) by {
      assert |Servers[0] + "-watchdog"| != |"qnap-watchdog"|;
    }
    assert !IsSelf("qnap-watchdog", Servers[1]) by {
      assert |Servers[1] + "-watchdog"| != |"qnap-watchdog"|;
    }
  }
}
