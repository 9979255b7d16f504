# seneca-mesh: membership-to-routing bridge in Dafny

This project models the core of the seneca-mesh plugin (`mesh.js`). The plugin joins a node to a
service mesh through a SWIM gossip engine. For every membership record the engine delivers, it
updates `balance_map`, which maps a pin id to the set of target ids serving that pin. It also
issues requests to the local Seneca runtime: a one-time balancer mount per pin, plus add-client
and remove-client requests. Around that sit the option defaulting (base mode, defaults, the
startup listeners), the local member that `join` advertises, and the retry of `join` on a bind
conflict.

Modules:

- `Values` (values.dfy): JavaScript values as the plugin sees them (`undefined`, strings, arrays,
  objects), JavaScript truthiness, and property reads.
- `Numerals` (numerals.dfy): the decimal text of a port number, and reading it back.
- `Routing` (routing.dfy): `updateinfo`, `add_client` and `remove_client` as functions on a
  `Router`. A `Router` is the table plus the log of requests.
- `RoutingProperties` (routing_properties.dfy): what the table and the log promise over any run
  of membership records.
- `JoinRetry` (retry.dfy): the gossip engine's error handler and the shared attempt counter.
- `Config` (config.dfy): base mode, the defaults, `pin || pins`, the startup listen requests,
  and the local member `join` advertises.
- `Plugin` (plugin.dfy): the class `Mesh`. It holds `balanceMap`, `requests` and `attempts`,
  and its methods update them in place with the source's loops. Each method is proved equal to
  the `Routing` or `JoinRetry` function it implements. Its invariant `Valid()` keeps the attempt
  counter within budget. It also keeps the mount log consistent with the table.

Injected capabilities:

- `instance.util.pattern` is a deterministic function `pattern: Value -> string`, a constant of
  the `Mesh` object.
- `instance.find` is a lookup `find: Value -> ActionMeta`, passed to each call. It can change
  between calls, as the runtime's actions do: a run of delivered records (`Replay`) takes one
  lookup per record.
- `seneca.id` is the constant `localId`.
- `Math.random` appears as two integer parameters, each within the range the source's
  expression can produce: the retry jitter (`jitter`) and the drawn gossip port (`drawn`).
- The listen port generator that mesh.js:53-55 hands to `root.listen` is never called by the
  plugin. A `ListenRequest` represents it by its range, `portLow` to `portHigh`.
- `Date.now()` is a parameter.

Two behaviours of the code that a reader might not expect, both modelled as written:

- The join retry budget. The code compares the counter with `max_attempts = 11` before it
  increments it (mesh.js:112). That allows 11 retries, so 12 engines are built before a
  persistent bind conflict reaches `done` (`JoinRetry.ExhaustedAfterElevenRetries`).
- Emptied table entries. `remove_client` deletes a target id from its pin's set and never
  deletes the entry (mesh.js:226-230). A pin whose last target left keeps an empty set. An empty
  set is truthy in JavaScript, so the pin is not mounted again when a target comes back
  (`RoutingProperties.JoinThenLeave`, `RoutingProperties.MountAtMostOnce`).

The startup listen requests the plugin stores (`Plugin.Mesh.constructor`, `Config.StartupListens`)
are those of the code as written, which drops `pins` (see "## Findings").
`Config.StartupListensIntended` states the corrected requests.

## Model

| member | source | states |
|---|---|---|
| Routing.PinConfig | mesh.js:178-182 | the per-pin descriptor has no `pins`, has `pin` set to the pin id, and keeps every other key of the advertised descriptor with its value |
| Routing.Patterns | mesh.js:172-173 | the patterns of a listen descriptor are `pins` when truthy and `pin` otherwise: the items when that value is an array, else that single value |
| Routing.AddPin | mesh.js:176-206 | one pattern: served by a local non-client action, nothing changes; otherwise the pin id gets an entry, its target id joins that entry and no other entry changes, and the log gains a mount exactly when the pin id was new, then one add-client request with the per-pin descriptor |
| Routing.RemovePin | mesh.js:216-234 | one pattern: the pin ids stay the same, only this pattern's target id is deleted from only this pin's set, and one remove-client request with the per-pin descriptor is appended |
| Routing.AddAll | mesh.js:171-207 | `add_client` over the patterns: the pin ids become exactly the old ones plus those of the patterns not served locally; each pin's set becomes the old set plus exactly the target ids of those patterns with that pin id; the log is only appended to, with one add-client request per pattern not served locally |
| Routing.RemoveAll | mesh.js:211-237 | `remove_client` over the patterns: the table keeps exactly the same pin ids; each pin's set loses exactly the target ids of the patterns with that pin id; exactly one remove-client request per pattern, with that pattern's per-pin descriptor, is appended in order |
| Routing.Replay | mesh.js:142-151 | applying the delivered records in order never deletes a pin id and never retracts a logged request |
| Routing.Update | mesh.js:156-168 | a record whose `meta.instance` is the local id changes nothing; no update ever removes a pin id or a logged request; a non-alive record never adds a pin id |
| RoutingProperties.SelfRecordsIgnored | mesh.js:157-160 | any run of records about the local instance leaves the table and the request log unchanged |
| RoutingProperties.LocalHandlerWins | mesh.js:186-192 | an alive record whose patterns are all served by a local non-client action yields no mount, no table change and no add-client request |
| RoutingProperties.LocalPinsSkipped | mesh.js:187-192 | `add_client` over patterns that are all served locally leaves the router unchanged |
| RoutingProperties.AddPinKeepsMounts | mesh.js:194-206 | one add step keeps the invariant "a pin id has had exactly one mount iff it has an entry" |
| RoutingProperties.RemovePinKeepsMounts | mesh.js:226-234 | one remove step keeps the same mount invariant |
| RoutingProperties.AddAllKeepsMounts | mesh.js:171-207 | `add_client` keeps the mount invariant |
| RoutingProperties.RemoveAllKeepsMounts | mesh.js:211-237 | `remove_client` keeps the mount invariant |
| RoutingProperties.UpdateKeepsMounts | mesh.js:156-168 | every membership update keeps the mount invariant |
| RoutingProperties.ReplayKeepsMounts | mesh.js:149-151 | any run of delivered updates, each with its own lookup of local actions, keeps the mount invariant |
| RoutingProperties.MountAtMostOnce | mesh.js:194-198 | from the empty table, over any run of updates, with the runtime's actions free to change between records, every pin id is mounted at most once, and exactly once iff it has an entry |
| RoutingProperties.AddPinIdempotent | mesh.js:194-206 | adding the same target for the same pattern twice leaves the table as after one add; the second add only appends an add-client request, with no second mount |
| RoutingProperties.RemovePinIdempotent | mesh.js:226-230 | removing the same target twice leaves the table as after one remove |
| RoutingProperties.RemoveUndoesAdd | mesh.js:194-230 | a remove right after an add of a new target restores the pin's earlier target set; a pin first seen by that add keeps an empty entry |
| RoutingProperties.ManyTargetsOneMount | mesh.js:194-206 | N alive records advertising one pin id, not served locally when each arrives, give exactly one mount for it (none if N = 0) and N add-client requests, and the pin's set is the set of their target ids |
| RoutingProperties.DistinctTargetsCount | mesh.js:202 | N records with pairwise distinct target ids give a target set of exactly N elements |
| RoutingProperties.JoinThenLeave | mesh.js:156-237 | a peer that comes alive advertising one pattern and then leaves: the empty table first holds that pin with the peer's target id, then the pin with an empty set, and the log is mount, add-client, remove-client |
| JoinRetry.OnError | mesh.js:111-125 | the handler retries iff the code is `EADDRINUSE` and the counter is below 11; a retry increments the counter and waits 100 to 321 ms; any other case passes the same error to `done` and leaves the counter; the counter never passes 11 |
| JoinRetry.Supervise | mesh.js:73 | a run of error events gives one outcome per event; the shared counter never decreases and stays within 11 |
| JoinRetry.PersistentConflict | mesh.js:111-121 | in a run of bind conflicts the i-th is retried exactly when the counter was below 11, and the counter ends at min(start + n, 11) |
| JoinRetry.ExhaustedAfterElevenRetries | mesh.js:73 | from a fresh counter, 12 bind conflicts give 11 retries and then the 12th error is passed to `done`; the counter ends at 11 |
| JoinRetry.ConflictsWithinBudgetRetried | mesh.js:112-120 | while the budget is not used up, bind conflicts are all retried and `done` never sees an error |
| JoinRetry.SuperviseFailCarries | mesh.js:122-124 | every failure outcome carries the very error that caused it |
| Numerals.Decimal | mesh.js:23 | the decimal text of a number is a non-empty string of digits without leading zero |
| Numerals.DecimalRoundTrip | mesh.js:84-86 | reading the decimal text of a port gives the port back |
| Config.BaseOptions | mesh.js:18-24 | outside base mode the options are unchanged; in base mode host and port get their defaults, the pin becomes `role:mesh,base:true`, `auto` is set and the remotes become the node's own address; no other option changes |
| Config.Configure | mesh.js:18-39 | outside base mode the options' host (else 127.0.0.1), `pin || pins`, and `auto` are kept; a missing port becomes the random-port generator and a supplied one is kept; supplied remotes are kept; missing remotes become `[basehost-or-127.0.0.1 : baseport-or-39999]`; a missing listen list becomes `[{pin}]`; in base mode the host is the host or 127.0.0.1 |
| Config.BaseNodeSeedsItself | mesh.js:18-24 | in base mode the pin is `role:mesh,base:true`, `auto` is set, the host defaults to 127.0.0.1, the port to 39999, and the only remote is exactly the address the node advertises |
| Config.Who | mesh.js:84-86 | the advertised address starts with the host; it is the host alone iff the port is the falsy 0; otherwise `:` follows, then digits that read back as the fixed or drawn port |
| Config.JoinConfig | mesh.js:78-82 | the advertised listen descriptor always has a truthy `pin`: it is `null:true` when the pin was missing or falsy, and otherwise the descriptor is unchanged; all other keys are untouched |
| Config.JoinConfigIdempotent | mesh.js:114-117 | a retried `join`, given the descriptor the first call already defaulted, advertises the same descriptor |
| Config.Advertise | mesh.js:84-98 | the local member's host is its `meta.who`, and it starts with the configured host; `meta.instance` is the instance id; `incarnation` is the clock reading; the advertised listen descriptor has a truthy pin; the host is exactly the advertised address and `meta.listen` is exactly the defaulted listen descriptor |
| Config.Compact | mesh.js:134 | the seed list holds every non-blank remote exactly as often as the remotes do, and no blank one; remotes without a blank are kept as they are |
| Config.ListenAsWritten | mesh.js:49-58 | as written: a startup listen request carries the entry's `pin` unchanged, its `model` when truthy and `actor` otherwise, and the port range 50000 to 59999 |
| Config.Listen | mesh.js:49-58 | corrected: the request's pin is the entry's `pin` when truthy and its `pins` otherwise; the model and the port range are as written |
| Config.PinsOnlyEntryLosesPatterns | mesh.js:49-56 | as written, a listen entry naming its patterns only through `pins` is listened with an undefined pin |
| Config.ListenKeepsPatterns | mesh.js:47-58 | under the correction a startup listen request carries a truthy pattern iff its entry names one through `pin` or `pins`, and its model is always truthy |
| Config.StartupListens | mesh.js:47-60 | as written: in automatic mode one listen request per listen entry, in order, each with the entry's own `pin`; otherwise none |
| Config.StartupListensIntended | mesh.js:47-60 | corrected: the same requests, each with a truthy pin exactly when its entry names a pattern through `pin` or `pins` |
| Config.StartupListensDiffer | mesh.js:49-56 | the as-written and corrected requests differ exactly for entries with a falsy `pin` whose `pins` differs from it |
| Plugin.Mesh.constructor | mesh.js:13-75 | a new plugin holds the configured settings and startup listen requests, an empty table, an empty log and a zero attempt counter, and satisfies the invariant |
| Plugin.Mesh.AddClient | mesh.js:171-208 | the loop leaves table and log equal to `Routing.AddAll` of the old ones over `Patterns(config)`, and keeps the invariant |
| Plugin.Mesh.AddPinInPlace | mesh.js:175-207 | one loop iteration updates table and log in place exactly as `Routing.AddPin` |
| Plugin.Mesh.RemoveClient | mesh.js:211-237 | the loop leaves table and log equal to `Routing.RemoveAll` of the old ones over `Patterns(config)`, and keeps the invariant |
| Plugin.Mesh.RemovePinInPlace | mesh.js:215-235 | one loop iteration updates table and log in place exactly as `Routing.RemovePin` |
| Plugin.Mesh.UpdateInfo | mesh.js:156-168 | a record about the local instance changes nothing; an alive record has exactly the effect of `add_client(meta.listen)`; any other state has exactly the effect of `remove_client(meta.listen)` |
| Plugin.Mesh.OnJoinError | mesh.js:111-126 | the new counter and the outcome are those of `JoinRetry.OnError` on the old counter, and the counter stays within 11 |

## Findings

| source | as written | input that shows it | evidently intended | confidence | as-written member | corrected member |
|---|---|---|---|---|---|---|
| mesh.js:49-56 | each startup listener is requested with `pin: listen_opts.pin`. The `pin || pins` computed on line 49 is never used | a listen entry `{pins: 'role:math,cmd:add'}` is listened with `pin` undefined, so its patterns are dropped | listen with `listen_opts.pin \|\| listen_opts.pins` | medium (not executed) | Config.ListenAsWritten, Config.PinsOnlyEntryLosesPatterns | Config.Listen, Config.ListenKeepsPatterns, Config.StartupListensIntended |

## Left out

- The SWIM gossip engine is not modelled. This covers its construction parameters (dissemination factor 15, interval 100, join timeout 200, ping timeout 20, ping-request timeout 60 and group size 3, datagram size 512, msgpack), `bootstrap`, `members()` and the event wiring (mesh.js:93-153). It is a foreign library doing network I/O. Only the records it delivers are modelled, as the `Member` sequence that `Replay` applies in order.
- A bootstrap failure is only logged as a warning (mesh.js:136-140). Logging is not modelled.
- `setTimeout` and the re-entry into `join` are timers. The model returns `Retry(delay)` instead.
- `transport_listen` (mesh.js:63-70), the `Ready` handler (mesh.js:130-132) and the disabled `Change` handler (mesh.js:144-147) are callback plumbing. The source marks their completion calls as unreliable (duplicate or never made), so no contract is stated for them.
- The Seneca runtime calls are not modelled as effects. `seneca.use`, `seneca.add` and `seneca.log` are left out. `root.client`, `instance.act` and `root.listen` appear as `Request` and `ListenRequest` values.
- `seneca.util.deepextend` is a foreign call. It is modelled as a per-key merge: a key the options carry replaces the default, and an array the options carry replaces the default array.
- A caller-supplied port generator function and string ports are not modelled. A caller-supplied port is a number; the random default generator is `Drawn`.
- Numbers are integers. `NaN` and floating point are not modelled.
- `Math.random` appears only as the integer parameters `jitter` and `drawn`, within the bounds of the source's expressions. The listen port generator is kept as its range, not called.
- Plain-object key quirks are not modelled. A pin id that names an `Object.prototype` property, such as `constructor`, would read as present in `balance_map`; the model uses a `map`, which has no such keys.
- `instance.find`'s `client` flag is a boolean. Any truthy `client` value behaves the same.
- `seneca.id` and `instance.id` are kept apart, as in the source. Records are filtered against `seneca.id` (`localId`), while the advertisement carries the joining instance's id. Whether the two agree depends on the runtime.
- `_.compact` removes every falsy value. Remotes are strings, so the model drops only empty strings.
- `Jsonic` is imported but unused.
- Membership records without `meta`, or whose `meta` has no `listen`, make the source throw (mesh.js:158, mesh.js:172). A `Member` always carries both, so these records and the exception cannot be expressed.
