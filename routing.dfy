/** The membership-to-routing bridge of mesh.js: `updateinfo`, `add_client`
    and `remove_client` over the `balance_map` table, stated as functions on
    a value (the table plus the log of requests sent to the balancer). The
    class in module Plugin runs the same steps in place and is proved equal
    to these functions. */
module Routing {
  import opened Values

  /** `instance.util.pattern(pin)`: canonical text of a pattern. */
  type PinId = string
  /** `instance.util.pattern(pin_config)`: canonical text of a per-pin descriptor. */
  type TargetId = string

  /** What `instance.find(pin)` reports: no action, or the action's metadata
      with its `client` flag. */
  datatype ActionMeta = NotFound | Found(client: bool)

  /** Requests issued to the local runtime. */
  datatype Request =
    | Mount(pin: Value, model: Value)        // root.client({type:'balance', pin, model})
    | AddClient(config: Descriptor)         // act('role:transport,type:balance,add:client', {config})
    | RemoveClient(config: Descriptor)      // act('role:transport,type:balance,remove:client', {config})

  /** `balance_map` (pin id to the set of target ids) and the requests issued so far. */
  datatype Router = Router(table: map<PinId, set<TargetId>>, log: seq<Request>)

  /** The metadata a node gossips about itself, and a membership record. */
  datatype Meta = Meta(who: string, listen: Descriptor, instance: string)
  datatype Member = Member(state: int, meta: Meta)

  const Alive: int := 0

  const Empty := Router(map[], [])

  /** `config.pins || config.pin`, a non-array wrapped into a one-element list:
      a truthy `pins` wins over `pin`. */
  function Patterns(config: Descriptor): (pins: seq<Value>)
    ensures Truthy(Get(config, "pins")) && Get(config, "pins").Arr? ==> pins == Get(config, "pins").items
    ensures Truthy(Get(config, "pins")) && !Get(config, "pins").Arr? ==> pins == [Get(config, "pins")]
    ensures !Truthy(Get(config, "pins")) && Get(config, "pin").Arr? ==> pins == Get(config, "pin").items
    ensures !Truthy(Get(config, "pins")) && !Get(config, "pin").Arr? ==> pins == [Get(config, "pin")]
  {
    var p := if Truthy(Get(config, "pins")) then Get(config, "pins") else Get(config, "pin");
    if p.Arr? then p.items else [p]
  }

  /** The per-pin descriptor: a copy of `config` without `pins`, whose `pin` is the pin id. */
  function PinConfig(config: Descriptor, pinId: PinId): (pc: Descriptor)
    ensures "pins" !in pc
    ensures "pin" in pc && pc["pin"] == Str(pinId)
    ensures forall k :: k in config && k != "pins" && k != "pin" ==> k in pc && pc[k] == config[k]
    ensures forall k :: k in pc ==> k == "pin" || k in config
  {
    (config - {"pins", "pin"})["pin" := Str(pinId)]
  }

  /** The target id of `config` advertised for `pin`. */
  function TargetOf(pattern: Value -> string, config: Descriptor, pin: Value): TargetId {
    pattern(Obj(PinConfig(config, pattern(pin))))
  }

  /** `!!(actmeta && !actmeta.client)`: a local action that is not a client serves `pin`. */
  predicate ServedLocally(find: Value -> ActionMeta, pin: Value) {
    find(pin).Found? && !find(pin).client
  }

  function Targets(r: Router, p: PinId): set<TargetId> {
    if p in r.table then r.table[p] else {}
  }

  /** Number of add-client requests in `log`. */
  function AddCount(log: seq<Request>): nat
    decreases |log|
  {
    if log == [] then 0 else AddCount(log[..|log| - 1]) + (if log[|log| - 1].AddClient? then 1 else 0)
  }

  lemma {:induction false} AddCountAppend(a: seq<Request>, b: seq<Request>)
    ensures AddCount(a + b) == AddCount(a) + AddCount(b)
    decreases |b|
  {
    if b == [] {
      assert a + b == a;
    } else {
      AddCountAppend(a, b[..|b| - 1]);
      assert (a + b)[..|a + b| - 1] == a + b[..|b| - 1];
    }
  }

  /** Number of patterns in `pins` that no local non-client action serves. */
  function RemoteCount(find: Value -> ActionMeta, pins: seq<Value>): nat
    decreases |pins|
  {
    if pins == [] then 0
    else RemoteCount(find, pins[..|pins| - 1]) + (if ServedLocally(find, pins[|pins| - 1]) then 0 else 1)
  }

  /** One iteration of `add_client`'s loop: a locally served pattern is
      skipped; otherwise a pin id seen for the first time is mounted, the
      target id joins its set, and an add-client request follows. */
  function AddPin(pattern: Value -> string, find: Value -> ActionMeta, r: Router,
                  config: Descriptor, pin: Value): (r': Router)
    ensures ServedLocally(find, pin) ==> r' == r
    ensures !ServedLocally(find, pin) ==>
              && r'.table.Keys == r.table.Keys + {pattern(pin)}
              && r'.table[pattern(pin)] == Targets(r, pattern(pin)) + {TargetOf(pattern, config, pin)}
              && (forall p :: p in r.table && p != pattern(pin) ==> r'.table[p] == r.table[p])
              && r'.log == r.log
                           + (if pattern(pin) in r.table then [] else [Mount(pin, Get(config, "model"))])
                           + [AddClient(PinConfig(config, pattern(pin)))]
  {
    if ServedLocally(find, pin) then r
    else
      var pinId := pattern(pin);
      var mount := if pinId in r.table then [] else [Mount(pin, Get(config, "model"))];
      Router(r.table[pinId := Targets(r, pinId) + {TargetOf(pattern, config, pin)}],
             r.log + mount + [AddClient(PinConfig(config, pinId))])
  }

  /** One iteration of `remove_client`'s loop: the target id leaves its pin's
      set if the pin is known, and a remove-client request is always issued. */
  function RemovePin(pattern: Value -> string, r: Router, config: Descriptor, pin: Value): (r': Router)
    ensures r'.table.Keys == r.table.Keys
    ensures forall p :: p in r.table ==>
              r'.table[p] == if p == pattern(pin) then r.table[p] - {TargetOf(pattern, config, pin)} else r.table[p]
    ensures r'.log == r.log + [RemoveClient(PinConfig(config, pattern(pin)))]
  {
    var pinId := pattern(pin);
    var table := if pinId in r.table then r.table[pinId := r.table[pinId] - {TargetOf(pattern, config, pin)}]
                 else r.table;
    Router(table, r.log + [RemoveClient(PinConfig(config, pinId))])
  }

  /** `add_client`'s loop over `pins`, in order. The table gains exactly the
      pin ids and target ids of the patterns not served locally, entries are
      never deleted, the log is only appended to, and one add-client request
      is issued per pattern not served locally. */
  function AddAll(pattern: Value -> string, find: Value -> ActionMeta, r: Router,
                  config: Descriptor, pins: seq<Value>): (r': Router)
    ensures r'.table.Keys == r.table.Keys + KeysAdded(pattern, find, pins)
    ensures forall p :: Targets(r', p) == Targets(r, p) + TargetsAdded(pattern, find, config, pins, p)
    ensures r.log <= r'.log
    ensures AddCount(r'.log) == AddCount(r.log) + RemoteCount(find, pins)
    decreases |pins|
  {
    if pins == [] then r
    else
      var front, pin := pins[..|pins| - 1], pins[|pins| - 1];
      var r1 := AddAll(pattern, find, r, config, front);
      AddAllStep(pattern, find, r, r1, config, front, pin);
      assert front + [pin] == pins;
      AddPin(pattern, find, r1, config, pin)
  }

  /** The pin ids of the patterns in `pins` not served locally. */
  ghost function KeysAdded(pattern: Value -> string, find: Value -> ActionMeta, pins: seq<Value>): set<PinId> {
    set x | x in pins && !ServedLocally(find, x) :: pattern(x)
  }

  /** The target ids of the patterns in `pins` not served locally whose pin id is `p`. */
  ghost function TargetsAdded(pattern: Value -> string, find: Value -> ActionMeta, config: Descriptor,
                              pins: seq<Value>, p: PinId): set<TargetId>
  {
    set x | x in pins && !ServedLocally(find, x) && pattern(x) == p :: TargetOf(pattern, config, x)
  }

  /** The table entries `add_client` gives the patterns `pins` not served locally. */
  ghost predicate AddedExactly(pattern: Value -> string, find: Value -> ActionMeta, r: Router, r': Router,
                               config: Descriptor, pins: seq<Value>)
  {
    && r'.table.Keys == r.table.Keys + KeysAdded(pattern, find, pins)
    && forall p :: Targets(r', p) == Targets(r, p) + TargetsAdded(pattern, find, config, pins, p)
  }

  lemma KeysAddedStep(pattern: Value -> string, find: Value -> ActionMeta, front: seq<Value>, pin: Value)
    ensures KeysAdded(pattern, find, front + [pin])
            == KeysAdded(pattern, find, front) + (if ServedLocally(find, pin) then {} else {pattern(pin)})
  {
    assert forall x :: x in front + [pin] <==> x in front || x == pin;
  }

  lemma TargetsAddedStep(pattern: Value -> string, find: Value -> ActionMeta, config: Descriptor,
                         front: seq<Value>, pin: Value, p: PinId)
    ensures TargetsAdded(pattern, find, config, front + [pin], p)
            == TargetsAdded(pattern, find, config, front, p)
               + (if !ServedLocally(find, pin) && pattern(pin) == p then {TargetOf(pattern, config, pin)} else {})
  {
    assert forall x :: x in front + [pin] <==> x in front || x == pin;
  }

  /** One more pattern for `AddAll` (helper of its contract). */
  lemma AddAllStep(pattern: Value -> string, find: Value -> ActionMeta, r: Router, r1: Router,
                   config: Descriptor, front: seq<Value>, pin: Value)
    requires AddedExactly(pattern, find, r, r1, config, front)
    requires r.log <= r1.log && AddCount(r1.log) == AddCount(r.log) + RemoteCount(find, front)
    ensures var r2 := AddPin(pattern, find, r1, config, pin);
            && AddedExactly(pattern, find, r, r2, config, front + [pin])
            && r.log <= r2.log
            && AddCount(r2.log) == AddCount(r.log) + RemoteCount(find, front + [pin])
  {
    AddPinTableStep(pattern, find, r, r1, config, front, pin);
    AddPinCountStep(pattern, find, r1, config, front, pin);
  }

  lemma AddPinTableStep(pattern: Value -> string, find: Value -> ActionMeta, r: Router, r1: Router,
                        config: Descriptor, front: seq<Value>, pin: Value)
    requires AddedExactly(pattern, find, r, r1, config, front)
    ensures AddedExactly(pattern, find, r, AddPin(pattern, find, r1, config, pin), config, front + [pin])
  {
    var r2 := AddPin(pattern, find, r1, config, pin);
    KeysAddedStep(pattern, find, front, pin);
    forall p ensures Targets(r2, p) == Targets(r, p) + TargetsAdded(pattern, find, config, front + [pin], p) {
      TargetsAddedStep(pattern, find, config, front, pin, p);
    }
  }

  lemma AddPinCountStep(pattern: Value -> string, find: Value -> ActionMeta, r1: Router,
                        config: Descriptor, front: seq<Value>, pin: Value)
    ensures var r2 := AddPin(pattern, find, r1, config, pin);
            && r1.log <= r2.log
            && AddCount(r2.log) == AddCount(r1.log) + RemoteCount(find, front + [pin]) - RemoteCount(find, front)
  {
    var pins := front + [pin];
    assert pins[..|pins| - 1] == front;
    assert RemoteCount(find, pins) == RemoteCount(find, front) + (if ServedLocally(find, pin) then 0 else 1);
    if !ServedLocally(find, pin) {
      var mount := if pattern(pin) in r1.table then [] else [Mount(pin, Get(config, "model"))];
      var add := [AddClient(PinConfig(config, pattern(pin)))];
      AddCountAppend(r1.log, mount + add);
      AddCountAppend(mount, add);
      assert AddCount(mount) == 0;
      assert AddCount(add) == 1 by {
        assert add[..0] == [];
      }
      assert r1.log + mount + add == r1.log + (mount + add);
    }
  }

  /** `AddAll` over one more pattern of `pins` is one more `AddPin`. */
  lemma AddAllPrefix(pattern: Value -> string, find: Value -> ActionMeta, r: Router,
                     config: Descriptor, pins: seq<Value>, i: nat)
    requires i < |pins|
    ensures AddAll(pattern, find, r, config, pins[..i + 1])
            == AddPin(pattern, find, AddAll(pattern, find, r, config, pins[..i]), config, pins[i])
  {
    assert pins[..i + 1][..i] == pins[..i];
  }

  /** `RemoveAll` over one more pattern of `pins` is one more `RemovePin`. */
  lemma RemoveAllPrefix(pattern: Value -> string, r: Router, config: Descriptor, pins: seq<Value>, i: nat)
    requires i < |pins|
    ensures RemoveAll(pattern, r, config, pins[..i + 1])
            == RemovePin(pattern, RemoveAll(pattern, r, config, pins[..i]), config, pins[i])
  {
    assert pins[..i + 1][..i] == pins[..i];
  }

  /** `remove_client`'s loop over `pins`, in order: no entry is created or
      deleted, exactly the patterns' target ids leave their pins' sets, and
      exactly one remove-client request is issued per pattern, whether or not
      the pin is known. */
  function RemoveAll(pattern: Value -> string, r: Router, config: Descriptor, pins: seq<Value>): (r': Router)
    ensures r'.table.Keys == r.table.Keys
    ensures forall p :: p in r.table ==> r'.table[p] == r.table[p] - TargetsRemoved(pattern, config, pins, p)
    ensures |r'.log| == |r.log| + |pins| && r'.log[..|r.log|] == r.log
    ensures forall i :: 0 <= i < |pins| ==>
              r'.log[|r.log| + i] == RemoveClient(PinConfig(config, pattern(pins[i])))
    decreases |pins|
  {
    if pins == [] then r
    else
      var front, pin := pins[..|pins| - 1], pins[|pins| - 1];
      var r1 := RemoveAll(pattern, r, config, front);
      RemoveAllStep(pattern, r, r1, config, front, pin);
      assert front + [pin] == pins;
      RemovePin(pattern, r1, config, pin)
  }

  /** The target ids of the patterns in `pins` whose pin id is `p`. */
  ghost function TargetsRemoved(pattern: Value -> string, config: Descriptor, pins: seq<Value>, p: PinId): set<TargetId> {
    set x | x in pins && pattern(x) == p :: TargetOf(pattern, config, x)
  }

  lemma TargetsRemovedStep(pattern: Value -> string, config: Descriptor, front: seq<Value>, pin: Value, p: PinId)
    ensures TargetsRemoved(pattern, config, front + [pin], p)
            == TargetsRemoved(pattern, config, front, p)
               + (if pattern(pin) == p then {TargetOf(pattern, config, pin)} else {})
  {
    assert forall x :: x in front + [pin] <==> x in front || x == pin;
  }

  /** One more pattern for `RemoveAll` (helper of its contract). */
  lemma RemoveAllStep(pattern: Value -> string, r: Router, r1: Router, config: Descriptor,
                      front: seq<Value>, pin: Value)
    requires r1.table.Keys == r.table.Keys
    requires forall p :: p in r.table ==> r1.table[p] == r.table[p] - TargetsRemoved(pattern, config, front, p)
    requires |r1.log| == |r.log| + |front| && r1.log[..|r.log|] == r.log
    requires forall i :: 0 <= i < |front| ==>
               r1.log[|r.log| + i] == RemoveClient(PinConfig(config, pattern(front[i])))
    ensures var r2 := RemovePin(pattern, r1, config, pin);
            && (forall p :: p in r.table ==>
                  r2.table[p] == r.table[p] - TargetsRemoved(pattern, config, front + [pin], p))
            && |r2.log| == |r.log| + |front + [pin]| && r2.log[..|r.log|] == r.log
            && (forall i :: 0 <= i < |front + [pin]| ==>
                  r2.log[|r.log| + i] == RemoveClient(PinConfig(config, pattern((front + [pin])[i]))))
  {
    var r2 := RemovePin(pattern, r1, config, pin);
    forall p | p in r.table
      ensures r2.table[p] == r.table[p] - TargetsRemoved(pattern, config, front + [pin], p)
    {
      TargetsRemovedStep(pattern, config, front, pin, p);
    }
    assert r2.log == r1.log + [RemoveClient(PinConfig(config, pattern(pin)))];
  }

  /** `updateinfo`: records about the local instance are ignored; an alive
      record adds its listen descriptor, any other state removes it. */
  function Update(pattern: Value -> string, find: Value -> ActionMeta, localId: string,
                  r: Router, m: Member): (r': Router)
    ensures m.meta.instance == localId ==> r' == r
    ensures r.table.Keys <= r'.table.Keys && r.log <= r'.log
    ensures m.state != Alive ==> r'.table.Keys == r.table.Keys
  {
    if m.meta.instance == localId then r
    else if m.state == Alive then AddAll(pattern, find, r, m.meta.listen, Patterns(m.meta.listen))
    else RemoveAll(pattern, r, m.meta.listen, Patterns(m.meta.listen))
  }

  /** The records the gossip engine delivers, applied in delivery order; the
      i-th record meets the runtime's actions as `finds[i]` finds them.
      Table entries are never deleted and requests never retracted: every pin
      id known before a run of updates is still known after it. */
  function Replay(pattern: Value -> string, finds: seq<Value -> ActionMeta>, localId: string,
                  r: Router, ms: seq<Member>): (r': Router)
    requires |finds| == |ms|
    ensures r.table.Keys <= r'.table.Keys && r.log <= r'.log
    decreases |ms|
  {
    if ms == [] then r
    else Update(pattern, finds[|ms| - 1], localId,
                Replay(pattern, finds[..|ms| - 1], localId, r, ms[..|ms| - 1]), ms[|ms| - 1])
  }
}
