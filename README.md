# Watchdog alert debounce, modelled in Dafny

The watchdog daemon (`watchdog.js`) looks after three home servers and a set of MQTT
devices. It mails one "down" notice when something has been unhealthy for a while and one
"back up" notice when it recovers. All of its alerting goes through two module-global
objects keyed by entity name:

- `timeout`: the timer handle last stored for the key;
- `notified`: set once a down mail went out.

Beside them it keeps `lastStrom`, the previous power-meter snapshot. Four handlers drive this
state with one of two policies:

- **Edge-triggered arm/clear.** Used by the server health poll (20 minutes), the tasmota
  and vito last-will beacons (20 minutes) and the espstrom meter's "same reading again"
  detector (5 minutes).
  - Distress starts one timer, and only if `timeout` holds no entry for the key.
  - A clear cancels and deletes the entry. It sends the back-up mail if and only if
    `notified` is set.
- **Sliding dead-man timer.** Used by Zigbee devices (15 hours). Every message cancels the
  recorded timer, installs a fresh one, and only then sends the back-up mail if `notified`
  is set.

A timer callback sends the down mail. A delivered down mail sets `notified`; a delivered
back-up mail deletes it. A mail that fails changes neither. The entry of a fired timer stays
in `timeout`, so further distress schedules nothing until a clear arrives.

In front of the MQTT policies sits a topic classifier:

- topics under `Zigbee/bridge` are dropped;
- `tasmota/<name>/tele/LWT` is the beacon of `<name>`, except `steckdose`, which is ignored;
- `vito/tele/LWT` is the beacon of `vito`;
- exactly the payload `Offline` is distress;
- any other topic throws "Sender not detected", and the handler's `try` catches it.

A payload that is not JSON becomes `{}`.

The project's modules:

- `Debounce` (`debounce.dfy`): the state as a value (`Registry`) and each policy, the timer
  callback and the mail outcome as a function. They are specified by what they do to the
  key's entry, to its live timer, to `notified` and to the mail log, and by the invariants
  they keep.
- `Daemon` (`daemon.dfy`): the class `Watchdog`, whose fields are the process's globals
  plus the event loop's pending timers and clock. It has one method per handler, per timer
  callback and per poll cycle. Each method updates the fields in place and is proved to
  keep the invariant and to produce the state the corresponding `Debounce` function
  describes. `CheckServers` is the `for` loop of `checkServers`.
- `Router` (`router.dfy`): the classification of MQTT messages.
- `JsValues` (`js_values.dfy`): the parts of JavaScript's value semantics it relies on:
  the outcome of `JSON.parse` (a value, or the `{}` fallback when it throws), property access that throws on `null`/`undefined`, and
  template-literal text.
- `Poller` (`poller.dfy`): the outcome handling of one health request.
- `Incidents` (`incidents.dfy`): arbitrary runs of the event loop, meaning handler steps,
  timer callbacks and the passage of time in any order. It holds the theorems about such
  runs (at most one down mail per incident; back-up mails only after delivered down
  mails) and a few concrete scenarios.
- `Options` (`options.dfy`): the Option datatype.

The program behaves as follows where a reader might expect otherwise:

- Each host is requested once per cycle; there is no retry loop.
- A single repeated meter reading arms the meter timer; there is no repeat counter.
- The entry of a fired edge timer is never removed from `timeout`.
- `notified` is updated only when the mail succeeded.
- Every LWT payload other than `Offline` is a clear.

The keys share one name space across handlers. The tasmota beacon
`tasmota/espstrom/tele/LWT` and the meter reading therefore act on the same
`timeout`/`notified` entries, as they do in the program.

## Model

| member | source | states |
|---|---|---|
| Debounce.Send | watchdog.js:102-114 | the attempt is appended to the log; on delivery a down mail sets and a back-up mail deletes the key's `notified` entry, and on failure it stays; no other key and no other field changes |
| Debounce.Arm | watchdog.js:86-116 | with an entry for the key nothing changes; otherwise exactly one fresh timer, Delay(channel) ahead and on that channel, becomes the key's only live timer; no mail is sent; other keys are unaffected and well-formedness is kept |
| Debounce.Cancel | watchdog.js:118-122 | the key's entry is removed together with its live timer, so the key has no live timer left; `notified`, the log and other keys are untouched |
| Debounce.Clear | watchdog.js:117-147 | the key ends with no entry and no live timer; a back-up mail is sent exactly when `notified` was set, and `notified` then stays set only if that mail failed; without `notified` nothing is mailed; other keys are unaffected |
| Debounce.Restart | watchdog.js:215-243 | the key's recorded timer is replaced by exactly one fresh 15-hour Zigbee timer, its only live timer; nothing is mailed and other keys are unaffected |
| Debounce.Rearm | watchdog.js:215-267 | after a Zigbee message the sender has exactly one live timer, the fresh 15-hour Zigbee one, and its entry records it; a back-up mail is sent exactly when `notified` was set, and afterwards `notified` reflects its outcome |
| Debounce.Fire | watchdog.js:91-115 | a due timer runs once: it alone leaves the scheduled timers, its `timeout` entry stays, `lastStrom` and the clock are unchanged, one down mail is logged, and `notified` is set for its key exactly when it was already set or the mail went out |
| Debounce.ObserveMeter | watchdog.js:268-341 | afterwards `lastStrom` is the snapshot; the meter's entry exists exactly when the snapshot repeats `lastStrom`; a repeat sends nothing, changes nothing when an entry exists and otherwise starts exactly one 5-minute meter timer; a change uses no handle, removes the entry and its timer and sends the meter's back-up mail with the given outcome exactly when `notified` was set |
| Debounce.Apply | watchdog.js:198-423 | an early return or a caught exception changes nothing; a handler step sends at most one back-up mail and never a down mail; it keeps well-formedness and hands out only fresh timer handles |
| Debounce.ApplyAll | watchdog.js:55-148 | a sequence of handler steps keeps well-formedness and the clock |
| Debounce.OutstandingAppend | watchdog.js:111 | whether a key has an outstanding delivered down mail is decided by the newest delivered mail about it |
| Debounce.SendKeepsAccountable | watchdog.js:102-114 | a mail keeps `notified` equal to the set of keys with an outstanding delivered down mail, provided back-up mails are sent only while `notified` is set |
| Debounce.ClearKeepsAccountable | watchdog.js:124-146 | a clear keeps `notified` in step with the mail log |
| Debounce.FireKeepsAccountable | watchdog.js:91-115 | a timer callback keeps `notified` in step with the mail log |
| Debounce.ApplyKeepsAccountable | watchdog.js:198-423 | every handler step keeps `notified` in step with the mail log and sends back-up mails only while a delivered down mail is outstanding |
| JsValues.ToText | watchdog.js:270 | converting a value to text throws exactly when the value has no conversion: an object with its own `toString` member, or an array holding such a value at any depth; numbers and strings give their own text |
| JsValues.JoinItems | watchdog.js:270 | joining array items throws exactly when one of the remaining items has no conversion |
| Router.Snapshot | watchdog.js:270 | the meter snapshot throws exactly when the message or its `SML` member is `null` or `undefined`, or when either reading has no conversion to text; otherwise it is the two readings' texts joined by `:` |
| Router.LwtSender | watchdog.js:346-347 | a captured name is non-empty, contains no `/`, and the topic is exactly `tasmota/<name>/tele/LWT` |
| Router.LwtSenderMatches | watchdog.js:346-347 | every topic `tasmota/<name>/tele/LWT` with such a name matches and captures exactly `<name>` |
| Router.Route | watchdog.js:198-356 | a dead-man refresh comes only from a `Zigbee/` topic outside `Zigbee/bridge`, keyed by the rest of the topic; a meter reading only from the espstrom sensor topic; an edge signal is an LWT signal, distress exactly for `Offline`, never for `steckdose` |
| Router.RouteZigbee | watchdog.js:201-215 | a Zigbee device's message refreshes its timer under the topic's remainder, and throws (changing nothing) exactly for a JSON `null` payload or a `battery` member that cannot be compared with a number |
| Router.RouteBridge | watchdog.js:201-204 | every `Zigbee/bridge` topic is dropped |
| Router.RouteTasmota | watchdog.js:346-358 | a tasmota beacon is the edge signal of its name, with distress exactly for `Offline`, and `steckdose` is ignored |
| Router.RouteVito | watchdog.js:352-358 | `vito/tele/LWT` is the edge signal of `vito` |
| Router.RouteOther | watchdog.js:354-356 | every other topic ends in the caught "Sender not detected" |
| Router.RouteMeter | watchdog.js:268-270 | every payload on the meter topic yields its snapshot as the reading, or the snapshot's TypeError, which is caught |
| Router.RouteMeterReading | watchdog.js:270 | a meter payload whose two readings are numbers, whatever its other members, is compared by the text `Verbrauch:Leistung` |
| Router.RouteMeterMalformed | watchdog.js:191-196 | a meter payload that is not JSON throws a TypeError, which is caught |
| Router.RouteMeterUnprintable | watchdog.js:270 | a meter payload either of whose readings has no conversion to text throws a TypeError, which is caught |
| Poller.HealthError | watchdog.js:64-84 | `error` stays undefined exactly for the body `ok`, is the body for any other response, and is non-empty for a thrown request |
| Poller.ServerAction | watchdog.js:55-86 | the watchdog's own host is skipped; any other host is in distress exactly when its request threw or its body is neither `ok` nor empty |
| Poller.Truthy | watchdog.js:86 | `if(error)` holds exactly for a defined, non-empty `error` |
| Poller.CycleActions | watchdog.js:55-86 | one cycle yields one action per configured host (`pi-jalousie`, `pi-wecker`, `qnap`, lines 20-24), in order; the action is the early skip exactly for the watchdog's own host, and for every other host an edge signal keyed by that host on the server channel, in distress exactly when that host's request threw or its body is neither `ok` nor empty |
| Poller.QnapSkipsItself | watchdog.js:55-60 | on `qnap-watchdog` the cycle skips `qnap` and signals the two other hosts |
| Incidents.StepKeepsInvariant | watchdog.js:31-32 | every handler step, callback and passage of time keeps the registry well-formed and `notified` in step with the mail log |
| Incidents.RunKeepsInvariant | watchdog.js:31-32 | so does every run of them in any order |
| Incidents.RunAppend | watchdog.js:187-423 | a run followed by one more event is that event applied to the run's result |
| Incidents.RunConcat | watchdog.js:187-423 | a run of two event sequences is the second run started where the first ends |
| Incidents.CycleIsRun | watchdog.js:54-149 | a poll cycle is a run of its iterations, so every theorem about runs covers poll cycles |
| Incidents.StepBudget | watchdog.js:87-115 | a step that keeps the key's entry never adds to the remaining down mails plus those already sent |
| Incidents.AtMostOneDownPerIncident | watchdog.js:87-115 | while the key's entry is neither removed nor replaced, at most one down mail about it is sent, and none once its timer has fired |
| Incidents.RunKeepsDowns | watchdog.js:102-109 | mails are only ever appended to the log: the log before a run is a prefix of the log after it, and no count of down mails falls |
| Incidents.OneLiveTimerPerKey | watchdog.js:215-219 | a key has at most one live timer, the one its entry records |
| Incidents.ClearIdempotent | watchdog.js:117-147 | once a clear has delivered its back-up mail, or had none to send, a second clear sends nothing and changes nothing |
| Incidents.AbortedIncident | watchdog.js:117-122 | for a key without `notified`, distress cleared before its timer fired sends no mail and leaves the state as it was except for the used-up handle; a key whose earlier back-up mail failed keeps `notified`, so such a clear does mail |
| Incidents.OutstandingWitness | watchdog.js:111 | an outstanding key has a delivered down mail after which no back-up mail about it was delivered |
| Incidents.BackUpOnlyAfterDeliveredDown | watchdog.js:124-146 | from start-up on, every back-up mail follows a delivered down mail about its key, with no delivered back-up mail about it in between |
| Incidents.OneBackUpPerDown | watchdog.js:124-146 | between two back-up mails about a key of which the first went out, a delivered down mail about it was sent |
| Incidents.BeaconRecoversInTime | watchdog.js:358-394 | `Offline` followed within twenty minutes by any other payload sends no mail and leaves no entry and no timer |
| Incidents.BeaconAlertsOnceThenRecovers | watchdog.js:358-418 | a beacon that stays `Offline` gets one down mail; a further `Offline` adds nothing; the next other payload sends one back-up mail |
| Incidents.ZigbeeSilence | watchdog.js:219-243 | fifteen hours of silence after a device's message lead to one inactive mail, and the fired timer's entry stays |
| Incidents.ZigbeeReturn | watchdog.js:215-267 | the fired timer cannot run again; the device's next message installs a fresh timer and sends one back-up mail exactly when the inactive mail went out |
| Incidents.ZigbeeSilenceAndReturn | watchdog.js:201-267 | the two together, starting from a message that is not JSON |
| Incidents.MeterStuck | watchdog.js:268-301 | the first reading only sets `lastStrom`; a repeat arms the meter timer, which sends one down mail five minutes later |
| Incidents.MeterMoves | watchdog.js:272-334 | a further repeat then adds nothing, and a changed snapshot sends one back-up mail, clears the entry and becomes `lastStrom` |
| Incidents.MeterStuckThenMoves | watchdog.js:268-334 | the two together from start-up |
| Daemon.Watchdog.constructor | watchdog.js:30-32 | start-up: both objects empty, `lastStrom` undefined, nothing scheduled, and the invariant holds |
| Daemon.Watchdog.SendMail | watchdog.js:102-114 | the in-place update is the one `Send` describes |
| Daemon.Watchdog.Arm | watchdog.js:86-116 | keeps the invariant and performs `Arm` in place |
| Daemon.Watchdog.Clear | watchdog.js:117-147 | keeps the invariant and performs `Clear` in place |
| Daemon.Watchdog.Rearm | watchdog.js:215-267 | keeps the invariant and performs `Rearm` in place |
| Daemon.Watchdog.ObserveMeter | watchdog.js:268-341 | keeps the invariant and performs `ObserveMeter` in place |
| Daemon.Watchdog.Fire | watchdog.js:91-115 | keeps the invariant and performs `Fire` in place |
| Daemon.Watchdog.Perform | watchdog.js:198-423 | keeps the invariant and performs `Apply` in place |
| Daemon.Watchdog.OnMessage | watchdog.js:187-423 | a message is classified and handled; an early return or caught exception leaves the state as it was, and the invariant holds for the next message |
| Daemon.Watchdog.CheckServers | watchdog.js:54-149 | one poll cycle visits every configured host once, in order, skipping the watchdog's own host, and leaves the state that applying the cycle's actions describes, with the invariant kept |

## Left out

- The HTTP health endpoint the daemon serves and the GET request it makes. These are network I/O. A request's result is an input, either a response body or a thrown error with its message.
- Poller.HealthError: response bodies are strings; a body that the HTTP client decodes into an object is not modelled.
- The mail transport and the mail subjects and bodies. `mail.js` and `testMail.js` are not part of this model. Each send is a boolean outcome; its channel stands for the subject.
- The MQTT connection, its subscriptions, the espstrom LED blink after a changed reading, and the `qnap-watchdog` test that decides whether MQTT monitoring runs at all. These are transport I/O and start-up configuration.
- Signal handling, shutdown and the one-minute `setInterval` that starts poll cycles. These are process lifecycle; a poll cycle is one call of `CheckServers`.
- Interleavings of overlapping poll cycles and of in-flight mail awaits. This is concurrency: each handler step, poll iteration and timer callback is atomic.
- The order in which the event loop runs due timers. A run may fire any due timer at any point, so every order is covered; which order Node picks is not modelled.
- The battery warning of Zigbee messages and all logging. Neither affects the state.
- The library that parses durations. The delays are constants in milliseconds.
- Parsing text into a value is not modelled. The handler's input is the raw text and, independently, the outcome of `JSON.parse` on it; `Route` and `Daemon.Watchdog.OnMessage` take both, so every pairing is covered, including ones `JSON.parse` never produces.
- JsValues.ToText: numbers are carried as the text JavaScript prints for them; the conversion from a binary double to that text is not modelled.
- JsValues.Member: only own members of parsed values. The payload members the handler reads (`battery`, `SML`, `Verbrauch`, `Leistung`) are not members of any built-in prototype, so nothing is lost there.
- Keys that name members of `Object.prototype` (`constructor`, `toString`, `valueOf`, `hasOwnProperty`, `__proto__` and the like) are not modelled. `timeout` and `notified` are plain objects, so for such a key the program finds an inherited, truthy member. It then never arms for `toString`, mails "back up" for `constructor` on every clear, and for `__proto__` replaces the object's prototype. The model treats every key as absent until set. Its theorems, `Incidents.BackUpOnlyAfterDeliveredDown` among them, describe the program only for keys that are not such names.
