/** Option handling of the mesh plugin: base mode, defaults, the startup
    listen requests, and what `join` advertises about the local node. */
module Config {
  import opened Values
  import opened Numerals
  import opened Routing

  const LocalHost := "127.0.0.1"
  const BasePort: nat := 39999
  const BasePin := "role:mesh,base:true"
  /** The pattern a listen descriptor without a `pin` is advertised with. */
  const NullPin := "null:true"
  /** The default gossip port is `40000 + Math.floor(10000 * Math.random())`. */
  const GossipPortLow: nat := 40000
  const GossipPortHigh: nat := 49999
  /** A startup listener's port is `50000 + Math.floor(10000 * Math.random())`. */
  const ListenPortLow: nat := 50000
  const ListenPortHigh: nat := 59999
  const DefaultModel := "actor"

  /** The options the plugin is given; `None` and `Undefined` stand for a missing key. */
  datatype Options = Options(
    base: bool,
    host: Option<string>,
    port: Option<nat>,
    pin: Value,
    pins: Value,
    auto: bool,
    remotes: Option<seq<string>>,
    basehost: Option<string>,
    baseport: Option<nat>,
    listen: Option<seq<Descriptor>>)

  /** The gossip port once defaults are applied: a number, or the default
      generator of a random port in [GossipPortLow, GossipPortHigh]. */
  datatype Port = Fixed(n: nat) | Drawn

  datatype Settings = Settings(
    host: string,
    port: Port,
    pin: Value,
    auto: bool,
    remotes: seq<string>,
    listen: seq<Descriptor>)

  /** `s || fallback` for an optional string. */
  function StringOr(s: Option<string>, fallback: string): string {
    if s.Some? && s.value != "" then s.value else fallback
  }

  /** `n || fallback` for an optional number. */
  function NumberOr(n: Option<nat>, fallback: nat): nat {
    if n.Some? && n.value != 0 then n.value else fallback
  }

  /** Base mode: the node is the mesh's seed and lists itself as its only remote. */
  function BaseOptions(o: Options): (b: Options)
    ensures !o.base ==> b == o
    ensures o.base ==>
              && b.host == Some(StringOr(o.host, LocalHost))
              && b.port == Some(NumberOr(o.port, BasePort))
              && b.pin == Str(BasePin) && b.auto
              && b.remotes == Some([StringOr(o.host, LocalHost) + ":" + Decimal(NumberOr(o.port, BasePort))])
    ensures b.(host := o.host, port := o.port, pin := o.pin, auto := o.auto, remotes := o.remotes) == o
  {
    if !o.base then o
    else
      var host := StringOr(o.host, LocalHost);
      var port := NumberOr(o.port, BasePort);
      o.(host := Some(host), port := Some(port), pin := Str(BasePin), auto := true,
         remotes := Some([host + ":" + Decimal(port)]))
  }

  /** Base mode, then the defaults merged under the options (a key the
      options carry replaces the default), then `pin || pins`, then the
      default listen list `[{pin}]`. */
  function Configure(o: Options): (s: Settings)
    ensures !o.base ==> s.auto == o.auto && s.pin == (if Truthy(o.pin) then o.pin else o.pins)
    ensures o.base ==> s.host == StringOr(o.host, LocalHost)
    ensures !o.base ==> s.host == (if o.host.Some? then o.host.value else LocalHost)
    ensures !o.base && o.port.None? ==> s.port == Drawn
    ensures !o.base && o.port.Some? ==> s.port == Fixed(o.port.value)
    ensures !o.base && o.remotes.Some? ==> s.remotes == o.remotes.value
    ensures o.listen.Some? ==> s.listen == o.listen.value
    ensures o.listen.None? ==> s.listen == [map["pin" := s.pin]]
    ensures !o.base && o.remotes.None? ==>
              s.remotes == [StringOr(o.basehost, LocalHost) + ":" + Decimal(NumberOr(o.baseport, BasePort))]
  {
    var b := BaseOptions(o);
    var seed := StringOr(b.basehost, LocalHost) + ":" + Decimal(NumberOr(b.baseport, BasePort));
    var pin := if Truthy(b.pin) then b.pin else b.pins;
    Settings(
      host := if b.host.Some? then b.host.value else LocalHost,
      port := if b.port.Some? then Fixed(b.port.value) else Drawn,
      pin := pin,
      auto := b.auto,
      remotes := if b.remotes.Some? then b.remotes.value else [seed],
      listen := if b.listen.Some? then b.listen.value else [map["pin" := pin]])
  }

  /** The gossip port: the fixed number, or the value the generator drew. */
  function PortNumber(p: Port, drawn: nat): nat {
    match p
    case Fixed(n) => n
    case Drawn => drawn
  }

  predicate IsDrawnPort(s: Settings, drawn: nat) {
    s.port.Drawn? ==> GossipPortLow <= drawn <= GossipPortHigh
  }

  /** The `host` string `join` gossips: the host, followed by `:port` unless
      the port is the falsy 0. */
  function Who(s: Settings, drawn: nat): (who: string)
    requires IsDrawnPort(s, drawn)
    ensures |who| >= |s.host| && who[..|s.host|] == s.host
    ensures |who| == |s.host| <==> s.port == Fixed(0)
    ensures |who| > |s.host| ==>
              who[|s.host|] == ':' && AllDigits(who[|s.host| + 1..])
              && DigitsValue(who[|s.host| + 1..]) == PortNumber(s.port, drawn)
  {
    if s.port == Fixed(0) then s.host
    else
      var digits := Decimal(PortNumber(s.port, drawn));
      DecimalRoundTrip(PortNumber(s.port, drawn));
      assert (s.host + ":" + digits)[|s.host| + 1..] == digits;
      s.host + ":" + digits
  }

  /** A base node's only remote is the very address it advertises: it seeds itself. */
  lemma BaseNodeSeedsItself(o: Options, drawn: nat)
    requires o.base
    ensures var s := Configure(o);
            && s.pin == Str(BasePin) && s.auto
            && s.host == StringOr(o.host, LocalHost)
            && s.port == Fixed(NumberOr(o.port, BasePort))
            && s.remotes == [Who(s, drawn)]
  {
  }

  /** `config || {}`, then a falsy `pin` becomes `'null:true'`. `join` makes
      this change on the caller's object, so a retried `join` sees it again. */
  function JoinConfig(config: Option<Descriptor>): (c: Descriptor)
    ensures Truthy(Get(c, "pin"))
    ensures c - {"pin"} == (if config.Some? then config.value else map[]) - {"pin"}
    ensures config.Some? && Truthy(Get(config.value, "pin")) ==> c == config.value
    ensures (config.None? || !Truthy(Get(config.value, "pin"))) ==> c["pin"] == Str(NullPin)
  {
    var c := if config.Some? then config.value else map[];
    if Truthy(Get(c, "pin")) then c else c["pin" := Str(NullPin)]
  }

  /** Defaulting the pin twice is defaulting it once: a retried join
      advertises the same listen descriptor. */
  lemma JoinConfigIdempotent(config: Option<Descriptor>)
    ensures JoinConfig(Some(JoinConfig(config))) == JoinConfig(config)
  {
  }

  /** The local member `join` gives the gossip engine; `now` stands for `Date.now()`. */
  datatype LocalMember = LocalMember(host: string, meta: Meta, incarnation: int)

  function Advertise(s: Settings, config: Option<Descriptor>, instanceId: string, drawn: nat, now: int): (l: LocalMember)
    requires IsDrawnPort(s, drawn)
    ensures l.host == l.meta.who && l.meta.instance == instanceId && l.incarnation == now
    ensures Truthy(Get(l.meta.listen, "pin"))
    ensures |l.host| >= |s.host| && l.host[..|s.host|] == s.host
    ensures l.host == Who(s, drawn) && l.meta.listen == JoinConfig(config)
  {
    var who := Who(s, drawn);
    LocalMember(who, Meta(who, JoinConfig(config), instanceId), now)
  }

  /** `_.compact(options.remotes)`: the seed list without blank entries, in order. */
  function Compact(remotes: seq<string>): (seeds: seq<string>)
    ensures forall i :: 0 <= i < |seeds| ==> seeds[i] != ""
    ensures forall x :: x in seeds <==> x in remotes && x != ""
    ensures |seeds| <= |remotes|
    ensures forall x :: x != "" ==> multiset(seeds)[x] == multiset(remotes)[x]
    ensures "" !in remotes ==> seeds == remotes
    decreases |remotes|
  {
    if remotes == [] then []
    else
      assert remotes == [remotes[0]] + remotes[1..];
      (if remotes[0] == "" then [] else [remotes[0]]) + Compact(remotes[1..])
  }

  /** A `seneca.root.listen` request made at startup. The port is a
      generator of a random port in [portLow, portHigh]. */
  datatype ListenRequest = ListenRequest(portLow: nat, portHigh: nat, pin: Value, model: Value)

  function ModelOf(entry: Descriptor): Value {
    if Truthy(Get(entry, "model")) then Get(entry, "model") else Str(DefaultModel)
  }

  /** The request as mesh.js builds it: `pin: listen_opts.pin`, although the
      `pin || pins` it computes just before is what the entry serves. */
  function ListenAsWritten(entry: Descriptor): (l: ListenRequest)
    ensures l.pin == Get(entry, "pin")
    ensures Truthy(Get(entry, "model")) ==> l.model == Get(entry, "model")
    ensures !Truthy(Get(entry, "model")) ==> l.model == Str(DefaultModel)
    ensures l.portLow == ListenPortLow && l.portHigh == ListenPortHigh
  {
    ListenRequest(ListenPortLow, ListenPortHigh, Get(entry, "pin"), ModelOf(entry))
  }

  /** An entry that names its patterns only through `pins` loses them. */
  lemma PinsOnlyEntryLosesPatterns()
    ensures var entry := map["pins" := Str("role:math,cmd:add")];
            ListenAsWritten(entry).pin == Undefined && !Truthy(ListenAsWritten(entry).pin)
  {
  }

  /** The request with the pattern the entry serves, `pin || pins`. */
  function Listen(entry: Descriptor): (l: ListenRequest)
    ensures Truthy(Get(entry, "pin")) ==> l.pin == Get(entry, "pin")
    ensures !Truthy(Get(entry, "pin")) ==> l.pin == Get(entry, "pins")
    ensures l.model == ListenAsWritten(entry).model
    ensures l.portLow == ListenPortLow && l.portHigh == ListenPortHigh
  {
    var pin := if Truthy(Get(entry, "pin")) then Get(entry, "pin") else Get(entry, "pins");
    ListenRequest(ListenPortLow, ListenPortHigh, pin, ModelOf(entry))
  }

  /** Exactly the entries that name a pattern, through `pin` or `pins`, are
      listened with a pattern, and every request has a model. */
  lemma ListenKeepsPatterns(entry: Descriptor)
    ensures var l := Listen(entry);
            && (Truthy(Get(entry, "pin")) || Truthy(Get(entry, "pins")) <==> Truthy(l.pin))
            && Truthy(l.model)
  {
  }

  /** The listeners requested at startup, as mesh.js requests them: one per
      entry, only in automatic mode, each with the entry's own `pin`. */
  function StartupListens(s: Settings): (ls: seq<ListenRequest>)
    ensures |ls| == if s.auto then |s.listen| else 0
    ensures forall i :: 0 <= i < |ls| ==> ls[i] == ListenAsWritten(s.listen[i])
  {
    if s.auto then seq(|s.listen|, i requires 0 <= i < |s.listen| => ListenAsWritten(s.listen[i])) else []
  }

  /** The startup listeners with the pattern each entry serves, `pin || pins`. */
  function StartupListensIntended(s: Settings): (ls: seq<ListenRequest>)
    ensures |ls| == if s.auto then |s.listen| else 0
    ensures forall i :: 0 <= i < |ls| ==> ls[i] == Listen(s.listen[i])
    ensures forall i :: 0 <= i < |ls| ==>
              (Truthy(Get(s.listen[i], "pin")) || Truthy(Get(s.listen[i], "pins")) <==> Truthy(ls[i].pin))
  {
    if s.auto then seq(|s.listen|, i requires 0 <= i < |s.listen| => Listen(s.listen[i])) else []
  }

  /** The two differ exactly on entries whose `pin` is falsy and whose `pins`
      is a different value (a truthy `pins`, or say `null` against a missing `pin`). */
  lemma StartupListensDiffer(s: Settings, i: nat)
    requires s.auto && i < |s.listen|
    ensures StartupListens(s)[i] != StartupListensIntended(s)[i]
            <==> !Truthy(Get(s.listen[i], "pin")) && Get(s.listen[i], "pins") != Get(s.listen[i], "pin")
  {
  }
}
