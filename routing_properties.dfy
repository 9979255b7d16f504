/** What the routing table and the request log promise over time. */
module RoutingProperties {
  import opened Values
  import opened Routing

  /** Number of mount requests in `log` whose pattern has id `p`. */
  function MountCount(pattern: Value -> string, log: seq<Request>, p: PinId): nat
    decreases |log|
  {
    if log == [] then 0
    else MountCount(pattern, log[..|log| - 1], p)
         + (if log[|log| - 1].Mount? && pattern(log[|log| - 1].pin) == p then 1 else 0)
  }

  lemma {:induction false} MountCountAppend(pattern: Value -> string, a: seq<Request>, b: seq<Request>, p: PinId)
    ensures MountCount(pattern, a + b, p) == MountCount(pattern, a, p) + MountCount(pattern, b, p)
    decreases |b|
  {
    if b == [] {
      assert a + b == a;
    } else {
      MountCountAppend(pattern, a, b[..|b| - 1], p);
      assert (a + b)[..|a + b| - 1] == a + b[..|b| - 1];
    }
  }

  /** The invariant behind "one mount per pin": a pin id has had exactly one
      mount request if it has a table entry, and none otherwise. */
  ghost predicate MountsMatchTable(pattern: Value -> string, r: Router) {
    forall p :: MountCount(pattern, r.log, p) == if p in r.table then 1 else 0
  }

  lemma EmptyMountsMatchTable(pattern: Value -> string)
    ensures MountsMatchTable(pattern, Empty)
  {
  }

  lemma AddPinKeepsMounts(pattern: Value -> string, find: Value -> ActionMeta, r: Router,
                          config: Descriptor, pin: Value)
    requires MountsMatchTable(pattern, r)
    ensures MountsMatchTable(pattern, AddPin(pattern, find, r, config, pin))
  {
    if !ServedLocally(find, pin) {
      var pinId := pattern(pin);
      var r' := AddPin(pattern, find, r, config, pin);
      var add := AddClient(PinConfig(config, pinId));
      if pinId in r.table {
        assert r'.log == r.log + [add];
        forall p ensures MountCount(pattern, r'.log, p) == if p in r'.table then 1 else 0 {
          MountCountAppend(pattern, r.log, [add], p);
          assert [add][..0] == [];
        }
      } else {
        var mount := Mount(pin, Get(config, "model"));
        assert r'.log == r.log + [mount, add];
        assert r'.table.Keys == r.table.Keys + {pinId};
        forall p ensures MountCount(pattern, r'.log, p) == if p in r'.table then 1 else 0 {
          MountCountAppend(pattern, r.log, [mount, add], p);
          assert [mount, add][..1] == [mount];
          assert [mount][..0] == [];
        }
      }
    }
  }

  lemma RemovePinKeepsMounts(pattern: Value -> string, r: Router, config: Descriptor, pin: Value)
    requires MountsMatchTable(pattern, r)
    ensures MountsMatchTable(pattern, RemovePin(pattern, r, config, pin))
  {
    var extra := [RemoveClient(PinConfig(config, pattern(pin)))];
    var r' := RemovePin(pattern, r, config, pin);
    forall p ensures MountCount(pattern, r'.log, p) == if p in r'.table then 1 else 0 {
      MountCountAppend(pattern, r.log, extra, p);
      assert extra[..0] == [];
    }
  }

  lemma {:induction false} AddAllKeepsMounts(pattern: Value -> string, find: Value -> ActionMeta, r: Router,
                                             config: Descriptor, pins: seq<Value>)
    requires MountsMatchTable(pattern, r)
    ensures MountsMatchTable(pattern, AddAll(pattern, find, r, config, pins))
    decreases |pins|
  {
    if pins != [] {
      AddAllKeepsMounts(pattern, find, r, config, pins[..|pins| - 1]);
      AddPinKeepsMounts(pattern, find, AddAll(pattern, find, r, config, pins[..|pins| - 1]), config, pins[|pins| - 1]);
    }
  }

  lemma {:induction false} RemoveAllKeepsMounts(pattern: Value -> string, r: Router, config: Descriptor, pins: seq<Value>)
    requires MountsMatchTable(pattern, r)
    ensures MountsMatchTable(pattern, RemoveAll(pattern, r, config, pins))
    decreases |pins|
  {
    if pins != [] {
      RemoveAllKeepsMounts(pattern, r, config, pins[..|pins| - 1]);
      RemovePinKeepsMounts(pattern, RemoveAll(pattern, r, config, pins[..|pins| - 1]), config, pins[|pins| - 1]);
    }
  }

  /** Every membership update keeps the mount invariant. */
  lemma UpdateKeepsMounts(pattern: Value -> string, find: Value -> ActionMeta, localId: string, r: Router, m: Member)
    requires MountsMatchTable(pattern, r)
    ensures MountsMatchTable(pattern, Update(pattern, find, localId, r, m))
  {
    if m.meta.instance != localId {
      if m.state == Alive {
        AddAllKeepsMounts(pattern, find, r, m.meta.listen, Patterns(m.meta.listen));
      } else {
        RemoveAllKeepsMounts(pattern, r, m.meta.listen, Patterns(m.meta.listen));
      }
    }
  }

  lemma {:induction false} ReplayKeepsMounts(pattern: Value -> string, finds: seq<Value -> ActionMeta>, localId: string,
                                             r: Router, ms: seq<Member>)
    requires |finds| == |ms|
    requires MountsMatchTable(pattern, r)
    ensures MountsMatchTable(pattern, Replay(pattern, finds, localId, r, ms))
    decreases |ms|
  {
    if ms != [] {
      var n := |ms| - 1;
      ReplayKeepsMounts(pattern, finds[..n], localId, r, ms[..n]);
      UpdateKeepsMounts(pattern, finds[n], localId, Replay(pattern, finds[..n], localId, r, ms[..n]), ms[n]);
    }
  }

  /** Over the table's whole lifetime each pin id is mounted at most once, and
      exactly once when it has an entry. */
  lemma MountAtMostOnce(pattern: Value -> string, finds: seq<Value -> ActionMeta>, localId: string,
                        ms: seq<Member>, p: PinId)
    requires |finds| == |ms|
    ensures var r := Replay(pattern, finds, localId, Empty, ms);
            MountCount(pattern, r.log, p) <= 1 && (MountCount(pattern, r.log, p) == 1 <==> p in r.table)
  {
    EmptyMountsMatchTable(pattern);
    ReplayKeepsMounts(pattern, finds, localId, Empty, ms);
  }

  /** Records that come from the local instance never change the table nor emit a request. */
  lemma {:induction false} SelfRecordsIgnored(pattern: Value -> string, finds: seq<Value -> ActionMeta>, localId: string,
                                              r: Router, ms: seq<Member>)
    requires |finds| == |ms|
    requires forall i :: 0 <= i < |ms| ==> ms[i].meta.instance == localId
    ensures Replay(pattern, finds, localId, r, ms) == r
    decreases |ms|
  {
    if ms != [] {
      SelfRecordsIgnored(pattern, finds[..|ms| - 1], localId, r, ms[..|ms| - 1]);
    }
  }

  /** A pattern served by a local non-client action is skipped by an alive
      update: no mount, no table change, no add-client request. */
  lemma LocalHandlerWins(pattern: Value -> string, find: Value -> ActionMeta, localId: string, r: Router, m: Member)
    requires m.meta.instance != localId && m.state == Alive
    requires forall pin :: pin in Patterns(m.meta.listen) ==> ServedLocally(find, pin)
    ensures Update(pattern, find, localId, r, m) == r
  {
    var pins := Patterns(m.meta.listen);
    LocalPinsSkipped(pattern, find, r, m.meta.listen, pins);
  }

  lemma {:induction false} LocalPinsSkipped(pattern: Value -> string, find: Value -> ActionMeta, r: Router,
                                            config: Descriptor, pins: seq<Value>)
    requires forall pin :: pin in pins ==> ServedLocally(find, pin)
    ensures AddAll(pattern, find, r, config, pins) == r
    decreases |pins|
  {
    if pins != [] {
      LocalPinsSkipped(pattern, find, r, config, pins[..|pins| - 1]);
    }
  }

  /** Adding the same target twice leaves the table as one add does, and the
      second add issues only an add-client request (no second mount). */
  lemma AddPinIdempotent(pattern: Value -> string, find: Value -> ActionMeta, r: Router, config: Descriptor, pin: Value)
    requires !ServedLocally(find, pin)
    ensures var once := AddPin(pattern, find, r, config, pin);
            var twice := AddPin(pattern, find, once, config, pin);
            twice.table == once.table && twice.log == once.log + [AddClient(PinConfig(config, pattern(pin)))]
  {
  }

  /** Removing the same target twice leaves the table as one remove does. */
  lemma RemovePinIdempotent(pattern: Value -> string, r: Router, config: Descriptor, pin: Value)
    ensures var once := RemovePin(pattern, r, config, pin);
            RemovePin(pattern, once, config, pin).table == once.table
  {
    var once := RemovePin(pattern, r, config, pin);
    var pinId, id := pattern(pin), TargetOf(pattern, config, pin);
    if pinId in r.table {
      assert once.table[pinId] - {id} == once.table[pinId];
      assert once.table[pinId := once.table[pinId] - {id}] == once.table;
    }
  }

  /** Removing a target right after adding it restores the pin's earlier
      target set; a pin first seen by that add keeps an empty entry. */
  lemma RemoveUndoesAdd(pattern: Value -> string, find: Value -> ActionMeta, r: Router, config: Descriptor, pin: Value)
    requires !ServedLocally(find, pin)
    requires TargetOf(pattern, config, pin) !in Targets(r, pattern(pin))
    ensures RemovePin(pattern, AddPin(pattern, find, r, config, pin), config, pin).table
            == r.table[pattern(pin) := Targets(r, pattern(pin))]
  {
  }

  /** The set of target ids advertised by `ms`, one per record. */
  function TargetSet(pattern: Value -> string, ms: seq<Member>): set<TargetId>
    requires forall i :: 0 <= i < |ms| ==> |Patterns(ms[i].meta.listen)| == 1
    decreases |ms|
  {
    if ms == [] then {}
    else TargetSet(pattern, ms[..|ms| - 1])
         + {TargetOf(pattern, ms[|ms| - 1].meta.listen, Patterns(ms[|ms| - 1].meta.listen)[0])}
  }

  /** Records that each advertise the single pattern `pin` of pin id `pinId`,
      from other instances, in the alive state, not served locally. */
  ghost predicate AliveAdvertisers(pattern: Value -> string, finds: seq<Value -> ActionMeta>, localId: string,
                                   ms: seq<Member>, pinId: PinId)
  {
    && |finds| == |ms|
    && forall i :: 0 <= i < |ms| ==>
         && ms[i].state == Alive && ms[i].meta.instance != localId
         && |Patterns(ms[i].meta.listen)| == 1
         && pattern(Patterns(ms[i].meta.listen)[0]) == pinId
         && !ServedLocally(finds[i], Patterns(ms[i].meta.listen)[0])
  }

  /** N alive targets advertising one pin yield exactly one mount and N
      add-client requests, and the pin's set holds their target ids. */
  lemma {:induction false} ManyTargetsOneMount(pattern: Value -> string, finds: seq<Value -> ActionMeta>, localId: string,
                                               r: Router, ms: seq<Member>, pinId: PinId)
    requires MountsMatchTable(pattern, r) && pinId !in r.table
    requires AliveAdvertisers(pattern, finds, localId, ms, pinId)
    ensures var r' := Replay(pattern, finds, localId, r, ms);
            && MountCount(pattern, r'.log, pinId) == (if ms == [] then 0 else 1)
            && AddCount(r'.log) == AddCount(r.log) + |ms|
            && Targets(r', pinId) == TargetSet(pattern, ms)
    decreases |ms|
  {
    ReplayKeepsMounts(pattern, finds, localId, r, ms);
    if ms != [] {
      var n := |ms| - 1;
      var front, m := ms[..n], ms[n];
      assert AliveAdvertisers(pattern, finds[..n], localId, front, pinId);
      ManyTargetsOneMount(pattern, finds[..n], localId, r, front, pinId);
      var r1 := Replay(pattern, finds[..n], localId, r, front);
      AliveAdvertiserStep(pattern, finds[n], localId, r1, m, pinId);
    }
  }

  /** One alive record advertising `pin`: one more add-client request, and its
      target joins the pin's set (helper of ManyTargetsOneMount). */
  lemma AliveAdvertiserStep(pattern: Value -> string, find: Value -> ActionMeta, localId: string,
                            r: Router, m: Member, pinId: PinId)
    requires m.state == Alive && m.meta.instance != localId
    requires |Patterns(m.meta.listen)| == 1 && pattern(Patterns(m.meta.listen)[0]) == pinId
    requires !ServedLocally(find, Patterns(m.meta.listen)[0])
    ensures var r' := Update(pattern, find, localId, r, m);
            && pinId in r'.table
            && AddCount(r'.log) == AddCount(r.log) + 1
            && Targets(r', pinId) == Targets(r, pinId) + {TargetOf(pattern, m.meta.listen, Patterns(m.meta.listen)[0])}
  {
    var pins := Patterns(m.meta.listen);
    assert pins[..0] == [];
    var r' := AddPin(pattern, find, r, m.meta.listen, pins[0]);
    assert AddAll(pattern, find, r, m.meta.listen, pins) == r';
    var mount := if pinId in r.table then [] else [Mount(pins[0], Get(m.meta.listen, "model"))];
    var extra := mount + [AddClient(PinConfig(m.meta.listen, pinId))];
    assert r'.log == r.log + extra;
    AddCountAppend(r.log, extra);
    assert extra[..|extra| - 1] == mount;
    if mount != [] {
      assert mount[..0] == [];
    }
  }

  /** Distinct target ids give a set of exactly that many targets. */
  lemma {:induction false} DistinctTargetsCount(pattern: Value -> string, ms: seq<Member>)
    requires forall i :: 0 <= i < |ms| ==> |Patterns(ms[i].meta.listen)| == 1
    requires forall i, j :: 0 <= i < j < |ms| ==>
               TargetOf(pattern, ms[i].meta.listen, Patterns(ms[i].meta.listen)[0])
               != TargetOf(pattern, ms[j].meta.listen, Patterns(ms[j].meta.listen)[0])
    ensures |TargetSet(pattern, ms)| == |ms|
    decreases |ms|
  {
    if ms != [] {
      var front := ms[..|ms| - 1];
      DistinctTargetsCount(pattern, front);
      var last := TargetOf(pattern, ms[|ms| - 1].meta.listen, Patterns(ms[|ms| - 1].meta.listen)[0]);
      if last in TargetSet(pattern, front) {
        var i := TargetSetWitness(pattern, front, last);
        assert false;
      }
    }
  }

  lemma {:induction false} TargetSetWitness(pattern: Value -> string, ms: seq<Member>, t: TargetId) returns (i: nat)
    requires forall i :: 0 <= i < |ms| ==> |Patterns(ms[i].meta.listen)| == 1
    requires t in TargetSet(pattern, ms)
    ensures i < |ms| && TargetOf(pattern, ms[i].meta.listen, Patterns(ms[i].meta.listen)[0]) == t
    decreases |ms|
  {
    var last := TargetOf(pattern, ms[|ms| - 1].meta.listen, Patterns(ms[|ms| - 1].meta.listen)[0]);
    if t == last {
      i := |ms| - 1;
    } else {
      i := TargetSetWitness(pattern, ms[..|ms| - 1], t);
    }
  }

  /** A base node with an empty table sees a peer come alive advertising one
      pattern, then leave: the pin keeps an empty entry, and the log holds one
      mount, one add-client and one remove-client request. */
  lemma JoinThenLeave(pattern: Value -> string, find: Value -> ActionMeta, localId: string, peer: Meta, departed: int)
    requires peer.instance != localId && departed != Alive
    requires |Patterns(peer.listen)| == 1 && !ServedLocally(find, Patterns(peer.listen)[0])
    ensures var pin := Patterns(peer.listen)[0];
            var pc := PinConfig(peer.listen, pattern(pin));
            var joined := Update(pattern, find, localId, Empty, Member(Alive, peer));
            var left := Update(pattern, find, localId, joined, Member(departed, peer));
            && joined.table == map[pattern(pin) := {TargetOf(pattern, peer.listen, pin)}]
            && left.table == map[pattern(pin) := {}]
            && left.log == [Mount(pin, Get(peer.listen, "model")), AddClient(pc), RemoveClient(pc)]
  {
    var pins := Patterns(peer.listen);
    var pin := pins[0];
    var pinId, id := pattern(pin), TargetOf(pattern, peer.listen, pin);
    var pc := PinConfig(peer.listen, pinId);
    assert pins[..0] == [];
    var joined := AddPin(pattern, find, Empty, peer.listen, pin);
    assert AddAll(pattern, find, Empty, peer.listen, pins) == joined;
    assert Targets(Empty, pinId) + {id} == {id};
    assert joined.table == map[pinId := {id}];
    assert joined.log == [Mount(pin, Get(peer.listen, "model")), AddClient(pc)];
    var left := RemovePin(pattern, joined, peer.listen, pin);
    assert RemoveAll(pattern, joined, peer.listen, pins) == left;
    assert left.table == map[pinId := {}];
  }
}
