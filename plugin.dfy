/** The mesh plugin's state: the `balance_map` routing table and the requests
    sent to the local runtime, updated in place as membership records arrive,
    and the join attempt counter shared by every `join`. */
module Plugin {
  import opened Values
  import opened Routing
  import opened RoutingProperties
  import opened JoinRetry
  import opened Config

  class Mesh {
    /** `seneca.id`: records carrying it are about this node. */
    const localId: string
    /** `instance.util.pattern`: canonical text of a pattern or descriptor. */
    const pattern: Value -> string
    const settings: Settings
    const listens: seq<ListenRequest>

    var balanceMap: map<PinId, set<TargetId>>
    var requests: seq<Request>
    var attempts: nat

    function Snapshot(): Router
      reads this
    {
      Router(balanceMap, requests)
    }

    ghost predicate Valid()
      reads this
    {
      attempts <= MaxAttempts && MountsMatchTable(pattern, Snapshot())
    }

    /** Plugin setup: options resolved, startup listeners requested, an empty
        table, no request yet and a fresh attempt counter. */
    constructor (options: Options, localId: string, pattern: Value -> string)
      ensures Valid()
      ensures this.localId == localId && this.pattern == pattern
      ensures settings == Configure(options) && listens == StartupListens(settings)
      ensures Snapshot() == Empty && attempts == 0
    {
      this.localId := localId;
      this.pattern := pattern;
      settings := Configure(options);
      listens := StartupListens(Configure(options));
      balanceMap := map[];
      requests := [];
      attempts := 0;
      new;
      EmptyMountsMatchTable(pattern);
    }

    /** `add_client(config)`, with `find` the runtime's action lookup. */
    method AddClient(find: Value -> ActionMeta, config: Descriptor)
      requires Valid()
      modifies this`balanceMap, this`requests
      ensures Valid()
      ensures Snapshot() == AddAll(pattern, find, old(Snapshot()), config, Patterns(config))
    {
      var pins := Patterns(config);
      var i := 0;
      while i < |pins|
        invariant 0 <= i <= |pins|
        invariant Snapshot() == AddAll(pattern, find, old(Snapshot()), config, pins[..i])
      {
        AddPinInPlace(find, config, pins[i]);
        AddAllPrefix(pattern, find, old(Snapshot()), config, pins, i);
        i := i + 1;
      }
      assert pins[..i] == pins;
      AddAllKeepsMounts(pattern, find, old(Snapshot()), config, pins);
    }

    /** The body of `add_client`'s loop for one pattern. */
    method AddPinInPlace(find: Value -> ActionMeta, config: Descriptor, pin: Value)
      modifies this`balanceMap, this`requests
      ensures Snapshot() == AddPin(pattern, find, old(Snapshot()), config, pin)
    {
      var pinId := pattern(pin);
      var pinConfig := PinConfig(config, pinId);
      var id := pattern(Obj(pinConfig));
      var actmeta := find(pin);
      var ignoreClient := actmeta.Found? && !actmeta.client;
      if ignoreClient {
        return;
      }
      if pinId !in balanceMap {
        requests := requests + [Mount(pin, Get(config, "model"))];
        balanceMap := balanceMap[pinId := {}];
      }
      balanceMap := balanceMap[pinId := balanceMap[pinId] + {id}];
      requests := requests + [Request.AddClient(pinConfig)];
    }

    /** `remove_client(config)`. */
    method RemoveClient(config: Descriptor)
      requires Valid()
      modifies this`balanceMap, this`requests
      ensures Valid()
      ensures Snapshot() == RemoveAll(pattern, old(Snapshot()), config, Patterns(config))
    {
      var pins := Patterns(config);
      var i := 0;
      while i < |pins|
        invariant 0 <= i <= |pins|
        invariant Snapshot() == RemoveAll(pattern, old(Snapshot()), config, pins[..i])
      {
        RemovePinInPlace(config, pins[i]);
        RemoveAllPrefix(pattern, old(Snapshot()), config, pins, i);
        i := i + 1;
      }
      assert pins[..i] == pins;
      RemoveAllKeepsMounts(pattern, old(Snapshot()), config, pins);
    }

    /** The body of `remove_client`'s loop for one pattern. */
    method RemovePinInPlace(config: Descriptor, pin: Value)
      modifies this`balanceMap, this`requests
      ensures Snapshot() == RemovePin(pattern, old(Snapshot()), config, pin)
    {
      var pinId := pattern(pin);
      var pinConfig := PinConfig(config, pinId);
      var id := pattern(Obj(pinConfig));
      if pinId in balanceMap {
        balanceMap := balanceMap[pinId := balanceMap[pinId] - {id}];
      }
      requests := requests + [Request.RemoveClient(pinConfig)];
    }

    /** `updateinfo(m)`: ignore records about this node; an alive record runs
        `add_client` on its listen descriptor, any other state `remove_client`. */
    method UpdateInfo(find: Value -> ActionMeta, m: Member)
      requires Valid()
      modifies this`balanceMap, this`requests
      ensures Valid()
      ensures Snapshot() == Update(pattern, find, localId, old(Snapshot()), m)
      ensures m.meta.instance == localId ==> Snapshot() == old(Snapshot())
      ensures m.meta.instance != localId && m.state == Alive ==>
                Snapshot() == AddAll(pattern, find, old(Snapshot()), m.meta.listen, Patterns(m.meta.listen))
      ensures m.meta.instance != localId && m.state != Alive ==>
                Snapshot() == RemoveAll(pattern, old(Snapshot()), m.meta.listen, Patterns(m.meta.listen))
    {
      if m.meta.instance == localId {
        return;
      }
      if m.state == Alive {
        AddClient(find, m.meta.listen);
      } else {
        RemoveClient(m.meta.listen);
      }
    }

    /** The handler of the gossip engine's error event. `jitter` stands for
        `Math.floor(Math.random() * 222)`; a `Retry` outcome is the re-join
        `setTimeout` schedules, a `Fail` outcome is `done(err)`. */
    method OnJoinError(err: EngineError, jitter: int) returns (outcome: Outcome)
      requires Valid() && IsJitter(jitter)
      modifies this`attempts
      ensures Valid()
      ensures Step(attempts, outcome) == OnError(old(attempts), err, jitter)
    {
      if err.code == BindConflict && attempts < MaxAttempts {
        attempts := attempts + 1;
        outcome := Retry(RetryDelayBase + jitter);
        return;
      }
      outcome := Fail(err);
    }
  }
}
