/**
  The registry of stations and their life cycle: station_warehouse.cpp keeps loaded configurations, running instances
  and a redis store, zero_config.h changes a station's state, and zero_station.cpp polls while the state allows it.
  A configuration is shared by the registry and by the instance that runs it, so it lives at an address.
 */
module Warehouse {
  import opened Common

  /** `station_state`, in the order of its values. */
  datatype State = Init | ReStart | Start | Run | Pause | Failed | Closing | Closed | Destroy | Stop | Unknown

  const MAX_INT := 0x7FFF_FFFF
  const MIN_INT := -0x8000_0000

  /** The cast of a redis counter to a 32-bit `int`. */
  function ToInt(x: int): (r: int)
    ensures MIN_INT <= r <= MAX_INT
  {
    var low := x % 0x1_0000_0000;
    if low <= MAX_INT then low else low - 0x1_0000_0000
  }

  /** `ticket` is the counter before the ports were taken from it; the source keeps the ports only. */
  datatype Config = Config(
    name: string, shortName: string, alias: seq<string>, caption: string, description: string,
    kind: int, isBase: bool, state: State, requestPort: int, outPort: int, inPort: int, ticket: int)

  type Ref = nat

  /** A running instance and the configuration it was built on. */
  datatype Station = Station(id: nat, config: Ref)

  /**
    `since` marks the first configuration made after the last full clear, and `first` is the value the counter was then
    first set to; the source keeps neither.
   */
  datatype World = World(
    objects: map<Ref, Config>, configs: map<string, Ref>, examples: map<string, Station>,
    store: map<string, Config>, counter: Option<int>, next: Ref, since: Ref, first: int)

  const BLANK := World(map[], map[], map[], map[], None, 0, 0, 0)

  // ---------- Life cycle of one configuration ----------

  predicate IsRun(state: State) {
    state.Start? || state.Run? || state.Pause?
  }

  predicate IsGeneral(kind: int) {
    kind == API || kind == PUBLISH || kind == VOTE || kind == ROUTE_API
  }

  /** Stations with a third, returning port. */
  predicate HasIn(kind: int) {
    kind == API || kind == VOTE || kind == ROUTE_API
  }

  function Runtime(c: Config, to: State): Config {
    if c.state.Stop? then c else c.(state := to)
  }

  /** What comes back from the store: the caption is not written. */
  function Stored(c: Config): Config {
    c.(caption := "")
  }

  /** Whether the key is the name, the short name or an alias, ignoring case. */
  predicate Owns(c: Config, key: string) {
    Fold(c.name) == Fold(key) || Fold(c.shortName) == Fold(key) || exists i :: 0 <= i < |c.alias| && Fold(c.alias[i]) == Fold(key)
  }

  // ---------- Steps on the registry ----------

  predicate Known(s: World, n: string) {
    n in s.configs && s.configs[n] in s.objects
  }

  function Find(s: World, n: string): Config
    requires Known(s, n)
  {
    s.objects[s.configs[n]]
  }

  /** A configuration changes in memory. */
  function Touch(s: World, r: Ref, c: Config): World {
    s.(objects := s.objects[r := c])
  }

  /** A loaded configuration changes in memory and is saved. */
  function Rewrite(s: World, n: string, c: Config): World
    requires n in s.configs
  {
    s.(objects := s.objects[s.configs[n] := c], store := s.store[n := Stored(c)])
  }

  /** `insert_config` of what the store holds. */
  function Insert(s: World, n: string): World
    requires n in s.store
  {
    s.(objects := s.objects[s.next := s.store[n]], configs := s.configs[n := s.next], next := s.next + 1)
  }

  /** `get_config`: a configuration that is not loaded is looked up in the store. */
  function Load(s: World, n: string): World {
    if n in s.configs || n !in s.store then s else Insert(s, n)
  }

  predicate Clashes(s: World, shortName: string) {
    exists n :: n in s.configs && Known(s, n) && Owns(Find(s, n), shortName)
  }

  function CounterOf(s: World): int {
    if s.counter.Some? then s.counter.value else 0
  }

  function PortsTaken(kind: int): nat {
    if HasIn(kind) then 3 else 2
  }

  function WithPorts(c: Config, p: int): Config {
    c.(requestPort := ToInt(p + 1), outPort := ToInt(p + 2), inPort := if HasIn(c.kind) then ToInt(p + 3) else c.inPort, ticket := p)
  }

  /** Allocate ports, save and insert a new configuration. */
  function Add(s: World, c: Config): World {
    var p := CounterOf(s);
    var c1 := WithPorts(c, p);
    s.(objects := s.objects[s.next := c1], configs := s.configs[c.name := s.next], store := s.store[c.name := Stored(c1)],
       counter := Some(p + PortsTaken(c.kind)), next := s.next + 1, first := if s.counter.Some? then s.first else 0)
  }

  function Erase(s: World, n: string): World {
    s.(store := s.store - {n}, configs := s.configs - {n})
  }

  datatype Answer = Answer(world: World, ok: bool)

  // ---------- The operations ----------

  function Install(s: World, c: Config): Answer {
    if c.name == "" then Answer(s, false)
    else
      var s1 := Load(s, c.name);
      if c.name in s1.configs || Clashes(s1, c.shortName) then Answer(s1, false)
      else Answer(Add(s1, c), true)
  }

  /** `install(json)`: what was parsed, or nothing when the text does not start with a brace. */
  function InstallJson(s: World, json: Option<Config>): Answer {
    if json.None? || json.value.name == "" || !IsGeneral(json.value.kind) then Answer(s, false)
    else Install(s, json.value.(isBase := false))
  }

  function NewConfig(name: string, kind: int, shortName: string, desc: string, isBase: bool): Config {
    Config(name, shortName, [], "", desc, kind, isBase, Init, 0, 0, 0, 0)
  }

  function TypeOf(typeName: string): Option<int> {
    var t := Fold(typeName);
    if t == "api" then Some(API)
    else if t == "pub" then Some(PUBLISH)
    else if t == "vote" then Some(VOTE)
    else if t == "rapi" then Some(ROUTE_API)
    else None
  }

  function InstallTyped(s: World, name: string, typeName: string, shortName: string, desc: string): Answer {
    match TypeOf(typeName)
    case None => Answer(s, false)
    case Some(kind) => Install(s, NewConfig(name, kind, shortName, desc, false))
  }

  function LoadAll(s: World, keys: seq<string>): World
    decreases |keys|
  {
    if keys == [] then s else LoadAll(if keys[0] in s.store then Insert(s, keys[0]) else s, keys[1..])
  }

  function BaseStation(i: nat): Config
    requires i < 4
  {
    match i
    case 0 => NewConfig("SystemManage", DISPATCHER, "man", "ZeroNet system mamage station.", true)
    case 1 => NewConfig("PlanDispatcher", PLAN, "plan", "ZeroNet plan & task mamage station.", true)
    case 2 => NewConfig("RemoteLog", PUBLISH, "log", "ZeroNet remote log station.", true)
    case 3 => NewConfig("HealthCenter", PUBLISH, "hea", "ZeroNet health center log station.", true)
  }

  function InstallBase(s: World): World {
    var s1 := Install(s, BaseStation(0)).world;
    var s2 := Install(s1, BaseStation(1)).world;
    var s3 := Install(s2, BaseStation(2)).world;
    Install(s3, BaseStation(3)).world
  }

  /** `initialize`; `keys` is what the scan of the store returns. */
  function Initialize(s: World, base: int, keys: seq<string>): World {
    if s.counter.Some? && s.counter.value >= base then LoadAll(s, keys)
    else InstallBase(Raised(s, base))
  }

  /** The counter is set to the base port. */
  function Raised(s: World, base: int): World {
    s.(counter := Some(base), first := if s.counter.Some? then s.first else base)
  }

  /** A new process finds the store only. */
  function Forgotten(s: World): World {
    World(map[], map[], map[], s.store, s.counter, s.next, s.next, s.first)
  }

  /** A restarted process keeps the store only. */
  function Boot(s: World, base: int, keys: seq<string>): World {
    Initialize(Forgotten(s), base, keys)
  }

  /** What a clear leaves before the base stations are installed again. */
  function Emptied(s: World): World {
    s.(store := map[], counter := None, configs := map[], since := s.next)
  }

  function Clear(s: World, base: int): World {
    Initialize(Emptied(s), base, [])
  }

  function Update(s: World, json: Config): Answer {
    var s1 := Load(s, json.name);
    if !Known(s1, json.name) || Find(s1, json.name).isBase then Answer(s1, false)
    else
      var c := Find(s1, json.name);
      var alias := if DISPATCHER < c.kind < SPECIAL then json.alias else c.alias;
      Answer(Rewrite(s1, json.name, c.(caption := json.caption, description := json.description, alias := alias)), true)
  }

  function Recover(s: World, n: string): Answer {
    var s1 := Load(s, n);
    if !Known(s1, n) || !Find(s1, n).state.Stop? || Find(s1, n).isBase then Answer(s1, false)
    else Answer(Rewrite(s1, n, Find(s1, n).(state := Init)), true)
  }

  function RemoveStation(s: World, n: string): Answer {
    var s1 := Load(s, n);
    if !Known(s1, n) || !Find(s1, n).state.Stop? || Find(s1, n).isBase then Answer(s1, false)
    else Answer(Erase(s1, n), true)
  }

  function StopStation(s: World, n: string): Answer {
    var s1 := Load(s, n);
    if !Known(s1, n) || Find(s1, n).state.Stop? || Find(s1, n).isBase then Answer(s1, false)
    else
      var s2 := Rewrite(s1, n, Find(s1, n).(state := Stop));
      Answer(if n in s2.examples then Close(s2, s2.examples[n].config) else s2, true)
  }

  /** `close` on an instance of the configuration at `r`. */
  function Close(s: World, r: Ref): World {
    if r in s.objects && (s.objects[r].state.Run? || s.objects[r].state.Pause? || s.objects[r].state.Stop?) then
      Touch(s, r, Runtime(s.objects[r], Closing))
    else s
  }

  function PauseStation(s: World, r: Ref): World {
    if r in s.objects && s.objects[r].state.Run? then Touch(s, r, Runtime(s.objects[r], Pause)) else s
  }

  function Resume(s: World, r: Ref): World {
    if r in s.objects && s.objects[r].state.Pause? then Touch(s, r, Runtime(s.objects[r], Run)) else s
  }

  function SetRuntime(s: World, r: Ref, to: State): World {
    if r in s.objects then Touch(s, r, Runtime(s.objects[r], to)) else s
  }

  function Join(s: World, st: Station): Answer
    requires st.config in s.objects
  {
    var c := s.objects[st.config];
    if c.name in s.examples then Answer(s, false)
    else Answer(Touch(s, st.config, Runtime(c, Run)).(examples := s.examples[c.name := st]), true)
  }

  function Left(s: World, st: Station): Answer
    requires st.config in s.objects
  {
    var c := s.objects[st.config];
    if c.name !in s.examples || s.examples[c.name] != st then Answer(s, false)
    else Answer(Touch(s, st.config, Runtime(c, Closed)).(examples := s.examples - {c.name}), true)
  }

  /** `set_all_destroy`, one loaded station at a time. */
  function DestroyAll(s: World, names: seq<string>): World
    decreases |names|
  {
    if names == [] then s
    else DestroyAll(if Known(s, names[0]) then Rewrite(s, names[0], Runtime(Find(s, names[0]), Destroy)) else s, names[1..])
  }

  // ---------- The invariant ----------

  /** The same installation: whatever else changed, the identity and the ports did not. */
  predicate Same(a: Config, b: Config) {
    && a.name == b.name && a.kind == b.kind && a.isBase == b.isBase && a.ticket == b.ticket
    && a.requestPort == b.requestPort && a.outPort == b.outPort && (HasIn(a.kind) ==> a.inPort == b.inPort)
  }

  predicate Agree(a: Config, b: Config) {
    Same(a, b) && (a.state.Stop? <==> b.state.Stop?)
  }

  function Ports(c: Config): set<int> {
    {c.requestPort, c.outPort} + if HasIn(c.kind) then {c.inPort} else {}
  }

  /** The ports are the casts of the numbers that the counter gave between these two values. */
  predicate Ported(c: Config, first: int, counter: int) {
    && first <= c.ticket && c.ticket + PortsTaken(c.kind) <= counter
    && c.requestPort == ToInt(c.ticket + 1) && c.outPort == ToInt(c.ticket + 2)
    && (HasIn(c.kind) ==> c.inPort == ToInt(c.ticket + 3))
  }

  /** One took its numbers before the other. */
  predicate InTurn(a: Config, b: Config) {
    a.ticket + PortsTaken(a.kind) <= b.ticket || b.ticket + PortsTaken(b.kind) <= a.ticket
  }

  ghost predicate PortsOk(rs: set<Config>, first: int, counter: int) {
    && (forall c | c in rs :: Ported(c, first, counter))
    && (forall a, b | a in rs && b in rs :: Same(a, b) || InTurn(a, b))
  }

  /** Everything that was installed since the last clear and can still be reached: stored, loaded, or run by an instance. */
  ghost function Records(s: World): set<Config> {
    (set n | n in s.store :: s.store[n]) + (set r | r in s.objects && s.since <= r :: s.objects[r])
  }

  ghost predicate LoadedOk(s: World) {
    forall n | n in s.configs ::
      && s.configs[n] in s.objects && s.since <= s.configs[n] && s.objects[s.configs[n]].name == n
      && n in s.store && Agree(s.objects[s.configs[n]], s.store[n])
  }

  ghost predicate StoreOk(s: World) {
    forall n | n in s.store :: s.store[n].name == n
  }

  ghost predicate ExamplesOk(s: World) {
    forall n | n in s.examples :: s.examples[n].config in s.objects && s.objects[s.examples[n].config].name == n
  }

  ghost predicate RefsOk(s: World) {
    s.since <= s.next && forall r | r in s.objects :: r < s.next
  }

  ghost predicate BaseOk(s: World) {
    forall c | c in Records(s) :: c.isBase ==> !c.state.Stop?
  }

  ghost predicate CounterOk(s: World) {
    && (s.counter.None? ==> Records(s) == {})
    && (s.counter.Some? ==> MIN_INT <= s.first <= s.counter.value && PortsOk(Records(s), s.first, s.counter.value))
  }

  ghost predicate Inv(s: World) {
    LoadedOk(s) && StoreOk(s) && ExamplesOk(s) && RefsOk(s) && BaseOk(s) && CounterOk(s)
  }

  // ---------- Ports ----------

  /** Every record of `after` is an installation of `before`. */
  ghost predicate Covers(before: set<Config>, after: set<Config>) {
    forall x | x in after :: exists a :: a in before && Same(a, x)
  }

  lemma SamePorts(a0: Config, a: Config, b0: Config, b: Config, first: int, counter: int)
    requires Same(a0, a) && Same(b0, b) && Ported(a0, first, counter) && (Same(a0, b0) || InTurn(a0, b0))
    ensures Ported(a, first, counter) && (Same(a, b) || InTurn(a, b))
  {
    hide ToInt;
  }

  lemma CoveredPortsOk(before: set<Config>, after: set<Config>, first: int, counter: int)
    requires PortsOk(before, first, counter) && Covers(before, after)
    ensures PortsOk(after, first, counter)
  {
    hide Ported, Same, InTurn;
    forall a, b | a in after && b in after
      ensures Ported(a, first, counter) && (Same(a, b) || InTurn(a, b))
    {
      var a0 :| a0 in before && Same(a0, a);
      var b0 :| b0 in before && Same(b0, b);
      SamePorts(a0, a, b0, b, first, counter);
    }
  }

  /** Numbers above the counter are nobody's. */
  lemma NewPortsOk(before: set<Config>, after: set<Config>, c: Config, first: int, counter: int, counter': int)
    requires PortsOk(before, first, counter)
    requires Ported(c, first, counter') && counter <= c.ticket && counter <= counter'
    requires forall x | x in after :: Same(c, x) || exists a :: a in before && Same(a, x)
    ensures PortsOk(after, first, counter')
  {
    hide ToInt;
    forall a, b | a in after && b in after
      ensures Ported(a, first, counter') && (Same(a, b) || InTurn(a, b))
    {
      if Same(c, a) && Same(c, b) {
      } else if Same(c, a) {
        var b0 :| b0 in before && Same(b0, b);
        assert Ported(b0, first, counter);
      } else if Same(c, b) {
        var a0 :| a0 in before && Same(a0, a);
        assert Ported(a0, first, counter);
      } else {
        var a0 :| a0 in before && Same(a0, a);
        var b0 :| b0 in before && Same(b0, b);
        assert Same(a0, b0) || InTurn(a0, b0);
      }
    }
  }

  // ---------- Every step keeps the invariant ----------

  /** No new installation, and no base station gets stopped. */
  ghost predicate RecordsKept(s: World, t: World) {
    Covers(Records(s), Records(t)) && (BaseOk(s) ==> BaseOk(t))
  }

  lemma CounterKept(s: World, t: World)
    requires CounterOk(s) && t.counter == s.counter && t.first == s.first && Covers(Records(s), Records(t))
    ensures CounterOk(t)
  {
    if s.counter.Some? {
      CoveredPortsOk(Records(s), Records(t), s.first, s.counter.value);
    }
  }

  lemma TouchRecords(s: World, r: Ref, c: Config)
    requires r in s.objects && Agree(s.objects[r], c)
    ensures RecordsKept(s, Touch(s, r, c))
  {
    var t := Touch(s, r, c);
    forall x | x in Records(t)
      ensures exists a :: a in Records(s) && Same(a, x) && (a.isBase && !a.state.Stop? ==> x.isBase && !x.state.Stop?)
    {
      if x !in Records(s) {
        assert s.objects[r] in Records(s);
      }
    }
  }

  lemma TouchLoaded(s: World, r: Ref, c: Config)
    requires LoadedOk(s) && ExamplesOk(s) && RefsOk(s) && r in s.objects && Agree(s.objects[r], c)
    ensures LoadedOk(Touch(s, r, c)) && ExamplesOk(Touch(s, r, c)) && RefsOk(Touch(s, r, c))
  {
  }

  lemma TouchKeepsInv(s: World, r: Ref, c: Config)
    requires Inv(s) && r in s.objects && Agree(s.objects[r], c)
    ensures Inv(Touch(s, r, c))
  {
    hide LoadedOk, ExamplesOk, RefsOk, BaseOk, CounterOk, Records, Covers, Agree;
    TouchRecords(s, r, c);
    TouchLoaded(s, r, c);
    CounterKept(s, Touch(s, r, c));
  }

  lemma RewriteRecords(s: World, n: string, c: Config)
    requires Known(s, n) && s.since <= s.configs[n] && Same(Find(s, n), c) && (c.isBase ==> !c.state.Stop?)
    ensures RecordsKept(s, Rewrite(s, n, c))
  {
    var t := Rewrite(s, n, c);
    assert Find(s, n) in Records(s);
    forall x | x in Records(t)
      ensures x in Records(s) || x == c || x == Stored(c)
    {
    }
    assert Same(Find(s, n), Stored(c));
  }

  lemma RewriteLoaded(s: World, n: string, c: Config)
    requires LoadedOk(s) && ExamplesOk(s) && RefsOk(s) && StoreOk(s) && n in s.configs && Known(s, n) && Same(Find(s, n), c)
    ensures var t := Rewrite(s, n, c); LoadedOk(t) && ExamplesOk(t) && RefsOk(t) && StoreOk(t)
  {
  }

  lemma LoadedFacts(s: World, n: string)
    requires LoadedOk(s) && n in s.configs
    ensures Known(s, n) && s.since <= s.configs[n] && Find(s, n).name == n && n in s.store && Agree(Find(s, n), s.store[n])
  {
  }

  lemma RewriteKeepsInv(s: World, n: string, c: Config)
    requires Inv(s) && Known(s, n) && Same(Find(s, n), c) && (c.isBase ==> !c.state.Stop?)
    ensures Inv(Rewrite(s, n, c))
  {
    hide LoadedOk, ExamplesOk, RefsOk, BaseOk, CounterOk, Records, Covers, Same, StoreOk;
    LoadedFacts(s, n);
    RewriteRecords(s, n, c);
    RewriteLoaded(s, n, c);
    CounterKept(s, Rewrite(s, n, c));
  }

  lemma InsertRecords(s: World, n: string)
    requires n in s.store && RefsOk(s)
    ensures Records(Insert(s, n)) == Records(s)
  {
    var t := Insert(s, n);
    assert s.next !in s.objects;
    forall x
      ensures x in Records(t) <==> x in Records(s)
    {
      if x in Records(s) && x !in s.store.Values {
        var r :| r in s.objects && s.since <= r && s.objects[r] == x;
        assert t.objects[r] == x;
      }
      if x in s.store.Values {
        var m :| m in s.store && s.store[m] == x;
        assert t.store[m] == x;
      }
    }
  }

  lemma InsertLoaded(s: World, n: string)
    requires LoadedOk(s) && ExamplesOk(s) && RefsOk(s) && StoreOk(s) && n in s.store
    ensures var t := Insert(s, n); LoadedOk(t) && ExamplesOk(t) && RefsOk(t) && StoreOk(t)
  {
  }

  lemma InsertKeepsInv(s: World, n: string)
    requires Inv(s) && n in s.store
    ensures Inv(Insert(s, n))
  {
    hide LoadedOk, ExamplesOk, RefsOk, Records, StoreOk, PortsOk;
    InsertRecords(s, n);
    InsertLoaded(s, n);
  }

  lemma LoadKeepsInv(s: World, n: string)
    requires Inv(s)
    ensures Inv(Load(s, n)) && Load(s, n).store == s.store && Load(s, n).counter == s.counter
    ensures n in Load(s, n).configs <==> n in s.configs || n in s.store
    ensures n in Load(s, n).configs ==> Known(Load(s, n), n)
  {
    if n in s.store {
      InsertKeepsInv(s, n);
    }
    if n in Load(s, n).configs {
      LoadedFacts(Load(s, n), n);
    }
    hide Inv;
  }

  lemma AddRecords(s: World, c: Config)
    requires RefsOk(s)
    ensures forall x | x in Records(Add(s, c)) :: x in Records(s) || x == WithPorts(c, CounterOf(s)) || x == Stored(WithPorts(c, CounterOf(s)))
  {
  }

  lemma AddLoaded(s: World, c: Config)
    requires LoadedOk(s) && ExamplesOk(s) && RefsOk(s) && StoreOk(s) && c.name !in s.configs && c.name !in s.store
    ensures var t := Add(s, c); LoadedOk(t) && ExamplesOk(t) && RefsOk(t) && StoreOk(t)
  {
    assert WithPorts(c, CounterOf(s)).name == c.name && Agree(WithPorts(c, CounterOf(s)), Stored(WithPorts(c, CounterOf(s))));
    hide WithPorts, Agree;
  }

  lemma AddPorted(c: Config, first: int, p: int)
    requires first <= p
    ensures Ported(WithPorts(c, p), first, p + PortsTaken(c.kind)) && WithPorts(c, p).ticket == p
  {
    hide ToInt;
  }

  lemma AddCounter(s: World, c: Config)
    requires CounterOk(s) && RefsOk(s)
    ensures CounterOk(Add(s, c))
  {
    var t, p, c1 := Add(s, c), CounterOf(s), WithPorts(c, CounterOf(s));
    AddRecords(s, c);
    AddPorted(c, t.first, p);
    assert t.counter == Some(p + PortsTaken(c.kind));
    hide WithPorts, Ported, Records, Add;
    forall x | x in Records(t)
      ensures Same(c1, x) || exists a :: a in Records(s) && Same(a, x)
    {
    }
    NewPortsOk(Records(s), Records(t), c1, t.first, p, p + PortsTaken(c.kind));
  }

  lemma AddKeepsInv(s: World, c: Config)
    requires Inv(s) && c.name !in s.configs && c.name !in s.store && (c.isBase ==> !c.state.Stop?)
    ensures Inv(Add(s, c))
  {
    AddRecords(s, c);
    AddLoaded(s, c);
    AddCounter(s, c);
    hide LoadedOk, ExamplesOk, RefsOk, Records, StoreOk, CounterOk;
  }

  lemma EraseKeepsInv(s: World, n: string)
    requires Inv(s)
    ensures Inv(Erase(s, n))
  {
    var t := Erase(s, n);
    EraseLoaded(s, n);
    EraseRecords(s, n);
    hide LoadedOk, ExamplesOk, RefsOk, Records, StoreOk;
    CounterKept(s, t);
  }

  lemma EraseRecords(s: World, n: string)
    ensures Records(Erase(s, n)) <= Records(s) && Covers(Records(s), Records(Erase(s, n)))
  {
    forall x | x in Records(Erase(s, n))
      ensures x in Records(s) && Same(x, x)
    {
    }
  }

  lemma EraseLoaded(s: World, n: string)
    requires LoadedOk(s) && ExamplesOk(s) && RefsOk(s) && StoreOk(s)
    ensures var t := Erase(s, n); LoadedOk(t) && ExamplesOk(t) && RefsOk(t) && StoreOk(t)
  {
  }

  /** A change of the running instances only. */
  lemma ExamplesKeepInv(s: World, examples: map<string, Station>)
    requires Inv(s) && ExamplesOk(s.(examples := examples))
    ensures Inv(s.(examples := examples))
  {
    var t := s.(examples := examples);
    assert Records(t) == Records(s);
    hide Records, PortsOk, ExamplesOk;
  }

  // ---------- Every operation keeps the invariant ----------

  lemma InstallKeepsInv(s: World, c: Config)
    requires Inv(s) && (c.isBase ==> !c.state.Stop?)
    ensures Inv(Install(s, c).world)
  {
    LoadKeepsInv(s, c.name);
    var s1 := Load(s, c.name);
    if c.name !in s1.configs {
      AddKeepsInv(s1, c);
    }
    hide Inv, Load, Add, Clashes;
  }

  lemma RuntimeAgrees(c: Config, to: State)
    requires !to.Stop?
    ensures Agree(c, Runtime(c, to))
  {
  }

  lemma SetRuntimeKeepsInv(s: World, r: Ref, to: State)
    requires Inv(s) && !to.Stop?
    ensures Inv(SetRuntime(s, r, to))
    ensures Inv(Close(s, r)) && Inv(PauseStation(s, r)) && Inv(Resume(s, r))
  {
    hide Inv, Touch, Runtime, Agree;
    if r in s.objects {
      RuntimeAgrees(s.objects[r], to);
      TouchKeepsInv(s, r, Runtime(s.objects[r], to));
      RuntimeAgrees(s.objects[r], Closing);
      TouchKeepsInv(s, r, Runtime(s.objects[r], Closing));
      RuntimeAgrees(s.objects[r], Pause);
      TouchKeepsInv(s, r, Runtime(s.objects[r], Pause));
      RuntimeAgrees(s.objects[r], Run);
      TouchKeepsInv(s, r, Runtime(s.objects[r], Run));
    }
  }

  lemma RewriteOpsKeepInv(s: World, n: string, json: Config)
    requires Inv(s)
    ensures Inv(Update(s, json).world) && Inv(Recover(s, n).world) && Inv(RemoveStation(s, n).world)
  {
    hide Inv, Rewrite, Erase, Load;
    LoadKeepsInv(s, json.name);
    LoadKeepsInv(s, n);
    UpdateKeepsInv(s, json);
    var s1 := Load(s, n);
    if Known(s1, n) && !Find(s1, n).isBase {
      RewriteKeepsInv(s1, n, Find(s1, n).(state := Init));
      EraseKeepsInv(s1, n);
    }
  }

  lemma UpdateKeepsInv(s: World, json: Config)
    requires Inv(s)
    ensures Inv(Update(s, json).world)
  {
    hide Inv, Rewrite, Load;
    LoadKeepsInv(s, json.name);
    var s1 := Load(s, json.name);
    if Known(s1, json.name) && !Find(s1, json.name).isBase {
      var c := Find(s1, json.name);
      var alias := if DISPATCHER < c.kind < SPECIAL then json.alias else c.alias;
      RewriteKeepsInv(s1, json.name, c.(caption := json.caption, description := json.description, alias := alias));
    }
  }

  lemma StopKeepsInv(s: World, n: string)
    requires Inv(s)
    ensures Inv(StopStation(s, n).world)
  {
    hide Inv, Rewrite, Load, Close;
    LoadKeepsInv(s, n);
    var s1 := Load(s, n);
    if Known(s1, n) && !Find(s1, n).isBase {
      var s2 := Rewrite(s1, n, Find(s1, n).(state := Stop));
      RewriteKeepsInv(s1, n, Find(s1, n).(state := Stop));
      if n in s2.examples {
        SetRuntimeKeepsInv(s2, s2.examples[n].config, Closing);
      }
    }
  }

  lemma JoinLeftKeepInv(s: World, st: Station)
    requires Inv(s) && st.config in s.objects
    ensures Inv(Join(s, st).world) && Inv(Left(s, st).world)
  {
    var c := s.objects[st.config];
    RuntimeAgrees(c, Run);
    RuntimeAgrees(c, Closed);
    var j, l := Touch(s, st.config, Runtime(c, Run)), Touch(s, st.config, Runtime(c, Closed));
    TouchKeepsInv(s, st.config, Runtime(c, Run));
    TouchKeepsInv(s, st.config, Runtime(c, Closed));
    assert ExamplesOk(j) && ExamplesOk(l);
    assert ExamplesOk(j.(examples := s.examples[c.name := st]));
    assert ExamplesOk(l.(examples := s.examples - {c.name}));
    hide Inv, Runtime, Agree;
    ExamplesKeepInv(j, s.examples[c.name := st]);
    ExamplesKeepInv(l, s.examples - {c.name});
  }

  lemma {:induction false} DestroyAllKeepsInv(s: World, names: seq<string>)
    requires Inv(s)
    ensures Inv(DestroyAll(s, names))
    decreases |names|
  {
    hide Inv, Rewrite;
    if names != [] {
      if Known(s, names[0]) {
        RewriteDestroy(s, names[0]);
        DestroyAllKeepsInv(Rewrite(s, names[0], Runtime(Find(s, names[0]), Destroy)), names[1..]);
      } else {
        DestroyAllKeepsInv(s, names[1..]);
      }
    }
  }

  lemma RewriteDestroy(s: World, n: string)
    requires Inv(s) && Known(s, n)
    ensures Inv(Rewrite(s, n, Runtime(Find(s, n), Destroy)))
  {
    var c := Find(s, n);
    LoadedFacts(s, n);
    assert c in Records(s);
    assert c.isBase ==> !c.state.Stop?;
    hide Inv;
    RewriteKeepsInv(s, n, Runtime(c, Destroy));
  }

  lemma {:induction false} LoadAllKeepsInv(s: World, keys: seq<string>)
    requires Inv(s)
    ensures Inv(LoadAll(s, keys))
    decreases |keys|
  {
    hide Inv, Insert;
    if keys != [] {
      if keys[0] in s.store {
        InsertKeepsInv(s, keys[0]);
        LoadAllKeepsInv(Insert(s, keys[0]), keys[1..]);
      } else {
        LoadAllKeepsInv(s, keys[1..]);
      }
    }
  }

  /** Nothing loaded; a missing or low counter is set to the base port before the base stations are installed. */
  lemma InitializeKeepsInv(s: World, base: int, keys: seq<string>)
    requires Inv(s) && base >= MIN_INT
    ensures Inv(Initialize(s, base, keys))
  {
    if s.counter.Some? && s.counter.value >= base {
      LoadAllKeepsInv(s, keys);
    } else {
      RaiseCounter(s, base);
      InstallBaseKeepsInv(Raised(s, base));
    }
    hide Inv, InstallBase, LoadAll;
  }

  lemma RaiseCounter(s: World, base: int)
    requires Inv(s) && base >= MIN_INT && (s.counter.Some? ==> s.counter.value < base)
    ensures Inv(Raised(s, base))
  {
    var t := Raised(s, base);
    assert Records(t) == Records(s);
    RaisePorts(s, base);
    hide Records;
  }

  lemma RaisePorts(s: World, base: int)
    requires CounterOk(s) && (s.counter.Some? ==> s.counter.value < base)
    ensures PortsOk(Records(s), if s.counter.Some? then s.first else base, base)
  {
    hide Records, ToInt;
  }

  lemma InstallBaseKeepsInv(s: World)
    requires Inv(s)
    ensures Inv(InstallBase(s))
  {
    hide Inv, Install;
    var c1, c2, c3, c4 := BaseStation(0), BaseStation(1), BaseStation(2), BaseStation(3);
    InstallKeepsInv(s, c1);
    var s1 := Install(s, c1).world;
    InstallKeepsInv(s1, c2);
    var s2 := Install(s1, c2).world;
    InstallKeepsInv(s2, c3);
    var s3 := Install(s2, c3).world;
    InstallKeepsInv(s3, c4);
  }

  /** A restart forgets what is loaded and what runs. */
  lemma BootKeepsInv(s: World, base: int, keys: seq<string>)
    requires Inv(s) && base >= MIN_INT
    ensures Inv(Boot(s, base, keys))
  {
    var t := Forgotten(s);
    ForgetKeepsInv(s);
    InitializeKeepsInv(t, base, keys);
    hide Inv, Initialize;
  }

  lemma ForgetKeepsInv(s: World)
    requires Inv(s)
    ensures Inv(Forgotten(s))
  {
    var t := Forgotten(s);
    ForgetRecords(s);
    CounterKept(s, t);
    hide Records, CounterOk;
  }

  lemma ForgetRecords(s: World)
    ensures var t := Forgotten(s);
      Records(t) <= Records(s) && Covers(Records(s), Records(t)) && (Records(s) == {} ==> Records(t) == {})
  {
    var t := Forgotten(s);
    forall x | x in Records(t)
      ensures x in Records(s) && Same(x, x)
    {
    }
  }

  lemma ClearKeepsInv(s: World, base: int)
    requires Inv(s) && base >= MIN_INT
    ensures Inv(Clear(s, base))
  {
    var t := Emptied(s);
    assert Records(t) == {};
    assert Inv(t);
    InitializeKeepsInv(t, base, []);
    hide Inv, Initialize;
  }

  // ---------- Runs ----------

  datatype Op =
    | DoBoot(base: int, keys: seq<string>)
    | DoClear(base: int)
    | DoInstallJson(json: Option<Config>)
    | DoInstallTyped(name: string, typeName: string, shortName: string, desc: string)
    | DoUpdate(update: Config)
    | DoRecover(n: string)
    | DoRemove(n: string)
    | DoStop(n: string)
    | DoLoad(n: string)
    | DoJoin(st: Station)
    | DoLeft(st: Station)
    | DoEnter(r: Ref, to: State)
    | DoPause(r: Ref)
    | DoResume(r: Ref)
    | DoClose(r: Ref)
    | DoDestroyAll(names: seq<string>)

  /** Instances exist before they join; `runtime_state` is never called with `Stop`; a port fits in an `int`. */
  predicate Allowed(s: World, op: Op) {
    match op
    case DoBoot(base, _) => MIN_INT <= base <= MAX_INT
    case DoClear(base) => MIN_INT <= base <= MAX_INT
    case DoJoin(st) => st.config in s.objects
    case DoLeft(st) => st.config in s.objects
    case DoEnter(_, to) => !to.Stop?
    case _ => true
  }

  function Apply(s: World, op: Op): World
    requires Allowed(s, op)
  {
    match op
    case DoBoot(base, keys) => Boot(s, base, keys)
    case DoClear(base) => Clear(s, base)
    case DoInstallJson(json) => InstallJson(s, json).world
    case DoInstallTyped(name, typeName, shortName, desc) => InstallTyped(s, name, typeName, shortName, desc).world
    case DoUpdate(json) => Update(s, json).world
    case DoRecover(n) => Recover(s, n).world
    case DoRemove(n) => RemoveStation(s, n).world
    case DoStop(n) => StopStation(s, n).world
    case DoLoad(n) => Load(s, n)
    case DoJoin(st) => Join(s, st).world
    case DoLeft(st) => Left(s, st).world
    case DoEnter(r, to) => SetRuntime(s, r, to)
    case DoPause(r) => PauseStation(s, r)
    case DoResume(r) => Resume(s, r)
    case DoClose(r) => Close(s, r)
    case DoDestroyAll(names) => DestroyAll(s, names)
  }

  lemma ApplyKeepsInv(s: World, op: Op)
    requires Inv(s) && Allowed(s, op)
    ensures Inv(Apply(s, op))
  {
    hide Inv, Boot, Clear, Install, Update, Recover, RemoveStation, StopStation, Load, Join, Left, SetRuntime,
      PauseStation, Resume, Close, DestroyAll, TypeOf;
    match op
    case DoBoot(base, keys) => BootKeepsInv(s, base, keys);
    case DoClear(base) => ClearKeepsInv(s, base);
    case DoInstallJson(json) =>
      if json.Some? { InstallKeepsInv(s, json.value.(isBase := false)); }
    case DoInstallTyped(name, typeName, shortName, desc) =>
      if TypeOf(typeName).Some? { InstallKeepsInv(s, NewConfig(name, TypeOf(typeName).value, shortName, desc, false)); }
    case DoUpdate(json) => UpdateKeepsInv(s, json);
    case DoRecover(n) => RewriteOpsKeepInv(s, n, NewConfig(n, 0, "", "", false));
    case DoRemove(n) => RewriteOpsKeepInv(s, n, NewConfig(n, 0, "", "", false));
    case DoStop(n) => StopKeepsInv(s, n);
    case DoLoad(n) => LoadKeepsInv(s, n);
    case DoJoin(st) => JoinLeftKeepInv(s, st);
    case DoLeft(st) => JoinLeftKeepInv(s, st);
    case DoEnter(r, to) => SetRuntimeKeepsInv(s, r, to);
    case DoPause(r) => SetRuntimeKeepsInv(s, r, Run);
    case DoResume(r) => SetRuntimeKeepsInv(s, r, Run);
    case DoClose(r) => SetRuntimeKeepsInv(s, r, Run);
    case DoDestroyAll(names) => DestroyAllKeepsInv(s, names);
  }

  /** `None` when a step is not allowed. */
  function Execute(s: World, ops: seq<Op>): Option<World>
    decreases |ops|
  {
    if ops == [] then Some(s)
    else if !Allowed(s, ops[0]) then None
    else Execute(Apply(s, ops[0]), ops[1..])
  }

  lemma BlankInv()
    ensures Inv(BLANK)
  {
  }

  lemma {:induction false} RunKeepsInv(s: World, ops: seq<Op>)
    requires Inv(s) && Execute(s, ops).Some?
    ensures Inv(Execute(s, ops).value)
    decreases |ops|
  {
    hide Inv, Apply;
    if ops != [] {
      ApplyKeepsInv(s, ops[0]);
      RunKeepsInv(Apply(s, ops[0]), ops[1..]);
    }
  }

  const SPAN := 0x1_0000_0000

  /** Two numbers are cast to one port exactly when they differ by a multiple of 2^32. */
  lemma ToIntEqualIff(p: int, q: int)
    ensures ToInt(p) == ToInt(q) <==> (p - q) % SPAN == 0
  {
    var pq, pr, qq, qr := p / SPAN, p % SPAN, q / SPAN, q % SPAN;
    assert p - q == (pq - qq) * SPAN + (pr - qr);
  }

  lemma SpanDivides(d: int)
    requires d % SPAN == 0
    ensures d == 0 || d >= SPAN || d <= -SPAN
  {
  }

  lemma ToIntIdentity(p: int)
    requires MIN_INT <= p <= MAX_INT
    ensures ToInt(p) == p
  {
  }

  /** The numbers that a station's ports were cast from. */
  function Numbers(c: Config): set<int> {
    {c.ticket + 1, c.ticket + 2} + if HasIn(c.kind) then {c.ticket + 3} else {}
  }

  /** Some number of one and some number of the other differ by a multiple of 2^32. */
  predicate Collide(a: Config, b: Config) {
    exists p, q :: p in Numbers(a) && q in Numbers(b) && (p - q) % SPAN == 0
  }

  lemma PortOfNumber(c: Config, first: int, counter: int)
    requires Ported(c, first, counter)
    ensures forall p | p in Numbers(c) :: ToInt(p) in Ports(c) && first < p <= counter
    ensures forall x | x in Ports(c) :: exists p :: p in Numbers(c) && ToInt(p) == x
  {
    hide ToInt;
    forall x | x in Ports(c)
      ensures exists p :: p in Numbers(c) && ToInt(p) == x
    {
      if x == c.requestPort {
        assert c.ticket + 1 in Numbers(c);
      } else if x == c.outPort {
        assert c.ticket + 2 in Numbers(c);
      } else {
        assert c.ticket + 3 in Numbers(c);
      }
    }
  }

  lemma CollisionIsShared(a: Config, b: Config, first: int, counter: int)
    requires Ported(a, first, counter) && Ported(b, first, counter) && Collide(a, b)
    ensures !(Ports(a) !! Ports(b))
  {
    var p, q :| p in Numbers(a) && q in Numbers(b) && (p - q) % SPAN == 0;
    hide *;
    PortOfNumber(a, first, counter);
    PortOfNumber(b, first, counter);
    ToIntEqualIff(p, q);
    assert ToInt(p) in Ports(a) && ToInt(p) in Ports(b);
  }

  lemma SharedIsCollision(a: Config, b: Config, first: int, counter: int, x: int)
    requires Ported(a, first, counter) && Ported(b, first, counter) && x in Ports(a) && x in Ports(b)
    ensures Collide(a, b)
  {
    hide ToInt, Ported, Ports, Numbers;
    PortOfNumber(a, first, counter);
    PortOfNumber(b, first, counter);
    var p :| p in Numbers(a) && ToInt(p) == x;
    var q :| q in Numbers(b) && ToInt(q) == x;
    ToIntEqualIff(p, q);
  }

  lemma NothingInBoth(a: set<int>, b: set<int>)
    ensures a !! b <==> forall x | x in a :: x !in b
  {
    if forall x | x in a :: x !in b {
      assert a * b == {};
    }
  }

  lemma SharedIff(a: Config, b: Config, first: int, counter: int)
    requires Ported(a, first, counter) && Ported(b, first, counter)
    ensures Ports(a) !! Ports(b) <==> !Collide(a, b)
  {
    hide Ported, Ports, Collide;
    if Collide(a, b) {
      CollisionIsShared(a, b, first, counter);
    }
    NothingInBoth(Ports(a), Ports(b));
    if !(Ports(a) !! Ports(b)) {
      var x :| x in Ports(a) && x in Ports(b);
      SharedIsCollision(a, b, first, counter, x);
    }
  }

  lemma NoCollision(a: Config, b: Config, first: int, counter: int)
    requires Ported(a, first, counter) && Ported(b, first, counter) && InTurn(a, b) && counter - first <= SPAN
    ensures !Collide(a, b)
  {
    if p, q :| p in Numbers(a) && q in Numbers(b) && (p - q) % SPAN == 0 {
      SpanDivides(p - q);
    }
  }

  lemma OwnPortsDiffer(c: Config, first: int, counter: int)
    requires Ported(c, first, counter)
    ensures c.requestPort != c.outPort && (HasIn(c.kind) ==> c.inPort != c.requestPort && c.inPort != c.outPort)
  {
    ToIntEqualIff(c.ticket + 1, c.ticket + 2);
    ToIntEqualIff(c.ticket + 1, c.ticket + 3);
    ToIntEqualIff(c.ticket + 2, c.ticket + 3);
  }

  lemma PortsBelowCounter(c: Config, first: int, counter: int)
    requires Ported(c, first, counter) && MIN_INT <= first && counter <= MAX_INT
    ensures forall x | x in Ports(c) :: first < x <= counter
  {
    ToIntIdentity(c.ticket + 1);
    ToIntIdentity(c.ticket + 2);
    if HasIn(c.kind) { ToIntIdentity(c.ticket + 3); }
  }

  /** No two stations share a port, and none shares one with a removed station that an instance still runs. */
  ghost predicate AllApart(s: World) {
    && (forall n, m | n in s.store && m in s.store && n != m :: Ports(s.store[n]) !! Ports(s.store[m]))
    && (forall n, r | n in s.store && r in s.objects && s.since <= r && !Same(s.store[n], s.objects[r]) ::
          Ports(s.store[n]) !! Ports(s.objects[r]))
  }

  /**
    Over every run from a blank store, with restarts at any base port: what is loaded is stored, with the same ports; a
    station's own ports differ; two stations share one exactly when numbers they were cast from differ by a multiple of
    2^32, hence never before the counter is 2^32 past its first value since the last clear; and while the counter fits in
    an `int`, no port exceeds it.
   */
  lemma PortsNeverShared(ops: seq<Op>)
    requires Execute(BLANK, ops).Some?
    ensures var s := Execute(BLANK, ops).value;
      && s.configs.Keys <= s.store.Keys
      && (forall n | n in s.configs :: Known(s, n) && Same(Find(s, n), s.store[n]))
      && (forall n | n in s.store :: s.counter.Some? && |Ports(s.store[n])| == PortsTaken(s.store[n].kind))
      && (forall n, m | n in s.store && m in s.store && n != m :: Ports(s.store[n]) !! Ports(s.store[m]) <==> !Collide(s.store[n], s.store[m]))
      && (s.counter.Some? && s.counter.value - s.first < SPAN ==> AllApart(s))
      && (s.counter.Some? && s.counter.value <= MAX_INT ==>
            forall n, x | n in s.store && x in Ports(s.store[n]) :: s.first < x <= s.counter.value)
  {
    BlankInv();
    RunKeepsInv(BLANK, ops);
    var s := Execute(BLANK, ops).value;
    hide Inv, Execute, Ports, Same, Collide, AllApart;
    InvGivesLoaded(s);
    if s.counter.Some? {
      InvGivesPorts(s);
      if s.counter.value - s.first < SPAN {
        InvGivesApart(s);
      }
    }
  }

  lemma InvGivesLoaded(s: World)
    requires Inv(s)
    ensures s.configs.Keys <= s.store.Keys
    ensures forall n | n in s.configs :: Known(s, n) && Same(Find(s, n), s.store[n])
    ensures s.store != map[] ==> s.counter.Some?
  {
    if s.store != map[] {
      var n :| n in s.store;
      assert s.store[n] in Records(s);
    }
  }

  /** What the invariant says of the records, with the invariant itself out of the way. */
  lemma InvGivesRecords(s: World)
    requires Inv(s) && s.counter.Some?
    ensures PortsOk(Records(s), s.first, s.counter.value) && MIN_INT <= s.first
    ensures forall n | n in s.store :: s.store[n] in Records(s) && s.store[n].name == n
    ensures forall r | r in s.objects && s.since <= r :: s.objects[r] in Records(s)
  {
    hide LoadedOk, ExamplesOk, RefsOk, BaseOk, PortsOk;
  }

  lemma InvGivesPorts(s: World)
    requires Inv(s) && s.counter.Some?
    ensures forall n | n in s.store :: |Ports(s.store[n])| == PortsTaken(s.store[n].kind)
    ensures forall n, m | n in s.store && m in s.store && n != m :: Ports(s.store[n]) !! Ports(s.store[m]) <==> !Collide(s.store[n], s.store[m])
    ensures s.counter.value <= MAX_INT ==> forall n, x | n in s.store && x in Ports(s.store[n]) :: s.first < x <= s.counter.value
  {
    InvGivesRecords(s);
    hide Inv, Records, Collide, Ported;
    forall n | n in s.store
      ensures |Ports(s.store[n])| == PortsTaken(s.store[n].kind)
      ensures s.counter.value <= MAX_INT ==> forall x | x in Ports(s.store[n]) :: s.first < x <= s.counter.value
    {
      OwnPortsDiffer(s.store[n], s.first, s.counter.value);
      if s.counter.value <= MAX_INT {
        PortsBelowCounter(s.store[n], s.first, s.counter.value);
      }
    }
    hide Ports;
    forall n, m | n in s.store && m in s.store && n != m
      ensures Ports(s.store[n]) !! Ports(s.store[m]) <==> !Collide(s.store[n], s.store[m])
    {
      SharedIff(s.store[n], s.store[m], s.first, s.counter.value);
    }
  }

  lemma InvGivesApart(s: World)
    requires Inv(s) && s.counter.Some? && s.counter.value - s.first < SPAN
    ensures AllApart(s)
  {
    InvGivesRecords(s);
    hide Inv, Records, Collide, Ported, Ports, InTurn;
    forall a, b | a in Records(s) && b in Records(s) && !Same(a, b)
      ensures Ports(a) !! Ports(b)
    {
      SharedIff(a, b, s.first, s.counter.value);
      NoCollision(a, b, s.first, s.counter.value);
    }
  }

  // ---------- What a step leaves alone ----------

  /** The stored station keeps its identity, its ports, and whether it is stopped. */
  predicate Keeps(s: World, t: World, m: string) {
    m in s.store ==> m in t.store && Agree(s.store[m], t.store[m])
  }

  /** A step that is meant to change whether `m` is stopped, or to take it away. */
  predicate Targets(op: Op, m: string) {
    op.DoClear? || ((op.DoRecover? || op.DoRemove? || op.DoStop?) && op.n == m)
  }

  lemma RewriteKeepsStored(s: World, n: string, c: Config, m: string)
    requires n in s.configs && (n == m ==> Known(s, n) && Agree(Find(s, n), c) && LoadedOk(s))
    ensures Keeps(s, Rewrite(s, n, c), m)
  {
  }

  lemma InstallKeepsStored(s: World, c: Config, m: string)
    ensures Keeps(s, Install(s, c).world, m)
  {
  }

  lemma {:induction false} LoadAllKeepsStored(s: World, keys: seq<string>)
    ensures LoadAll(s, keys).store == s.store && LoadAll(s, keys).counter == s.counter && LoadAll(s, keys).next >= s.next
    decreases |keys|
  {
    if keys != [] {
      LoadAllKeepsStored(if keys[0] in s.store then Insert(s, keys[0]) else s, keys[1..]);
    }
  }

  lemma InstallBaseKeepsStored(s: World, m: string)
    ensures Keeps(s, InstallBase(s), m)
  {
    hide Install, Keeps;
    var c1, c2, c3, c4 := BaseStation(0), BaseStation(1), BaseStation(2), BaseStation(3);
    InstallKeepsStored(s, c1, m);
    var s1 := Install(s, c1).world;
    InstallKeepsStored(s1, c2, m);
    var s2 := Install(s1, c2).world;
    InstallKeepsStored(s2, c3, m);
    var s3 := Install(s2, c3).world;
    InstallKeepsStored(s3, c4, m);
    KeepsTransitive(s, s1, s2, m);
    KeepsTransitive(s, s2, s3, m);
    KeepsTransitive(s, s3, Install(s3, c4).world, m);
  }

  lemma KeepsTransitive(s: World, t: World, u: World, m: string)
    requires Keeps(s, t, m) && Keeps(t, u, m)
    ensures Keeps(s, u, m)
  {
  }

  lemma BootKeepsStored(s: World, base: int, keys: seq<string>, m: string)
    ensures Keeps(s, Boot(s, base, keys), m)
  {
    var t := Forgotten(s);
    LoadAllKeepsStored(t, keys);
    InstallBaseKeepsStored(Raised(t, base), m);
    hide InstallBase, LoadAll;
  }

  lemma {:induction false} DestroyAllKeepsStored(s: World, names: seq<string>, m: string)
    requires Inv(s)
    ensures Keeps(s, DestroyAll(s, names), m)
    decreases |names|
  {
    hide Inv, Rewrite, Keeps, Agree, LoadedOk;
    if names == [] {
      KeepsSelf(s, m);
    } else {
      if Known(s, names[0]) {
        RewriteDestroy(s, names[0]);
        var t := Rewrite(s, names[0], Runtime(Find(s, names[0]), Destroy));
        RuntimeAgrees(Find(s, names[0]), Destroy);
        InvLoaded(s);
        RewriteKeepsStored(s, names[0], Runtime(Find(s, names[0]), Destroy), m);
        DestroyAllKeepsStored(t, names[1..], m);
        KeepsTransitive(s, t, DestroyAll(t, names[1..]), m);
      } else {
        DestroyAllKeepsStored(s, names[1..], m);
      }
    }
  }

  lemma KeepsSelf(s: World, m: string)
    ensures Keeps(s, s, m)
  {
  }

  lemma InvLoaded(s: World)
    requires Inv(s)
    ensures LoadedOk(s)
  {
  }

  lemma UpdateKeepsStored(s: World, json: Config, m: string)
    requires Inv(s)
    ensures Keeps(s, Update(s, json).world, m)
  {
    LoadKeepsInv(s, json.name);
    var s1 := Load(s, json.name);
    InvLoaded(s1);
    hide Inv, Load, LoadedOk;
    if Known(s1, json.name) {
      var c := Find(s1, json.name);
      var alias := if DISPATCHER < c.kind < SPECIAL then json.alias else c.alias;
      RewriteKeepsStored(s1, json.name, c.(caption := json.caption, description := json.description, alias := alias), m);
    }
  }

  /** Stop, recover and remove change another station or none, when the target is a base station. */
  lemma StopKeepsStored(s: World, n: string, m: string)
    requires Inv(s) && (n == m && m in s.store ==> s.store[m].isBase)
    ensures Keeps(s, StopStation(s, n).world, m)
  {
    LoadKeepsInv(s, n);
    var s1 := Load(s, n);
    hide Inv, Load;
    if n == m && n in s1.configs {
      InvLoaded(s1);
      LoadedFacts(s1, n);
    }
    hide LoadedOk;
  }

  lemma RecoverRemoveKeepStored(s: World, n: string, m: string)
    requires Inv(s) && (n == m && m in s.store ==> s.store[m].isBase)
    ensures Keeps(s, Recover(s, n).world, m) && Keeps(s, RemoveStation(s, n).world, m)
  {
    LoadKeepsInv(s, n);
    var s1 := Load(s, n);
    hide Inv, Load;
    if n == m && n in s1.configs {
      InvLoaded(s1);
      LoadedFacts(s1, n);
    }
    hide LoadedOk;
  }

  /** The target that is already stopped stays as it is. */
  lemma StopAgainKeepsStored(s: World, n: string)
    requires Inv(s) && n in s.store && s.store[n].state.Stop?
    ensures Keeps(s, StopStation(s, n).world, n)
  {
    LoadKeepsInv(s, n);
    var s1 := Load(s, n);
    InvLoaded(s1);
    LoadedFacts(s1, n);
    hide Inv, Load, LoadedOk;
  }

  lemma StepKeepsStored(s: World, op: Op, m: string)
    requires Inv(s) && Allowed(s, op) && !op.DoClear?
    requires Targets(op, m) && m in s.store ==> s.store[m].isBase || (op.DoStop? && s.store[m].state.Stop?)
    ensures Keeps(s, Apply(s, op), m)
  {
    hide Inv, Boot, Clear, Install, Update, Recover, RemoveStation, StopStation, DestroyAll, TypeOf, Keeps, Agree;
    KeepsSelf(s, m);
    match op
    case DoBoot(base, keys) => BootKeepsStored(s, base, keys, m);
    case DoInstallJson(json) =>
      if json.Some? { InstallKeepsStored(s, json.value.(isBase := false), m); }
    case DoInstallTyped(name, typeName, shortName, desc) =>
      if TypeOf(typeName).Some? { InstallKeepsStored(s, NewConfig(name, TypeOf(typeName).value, shortName, desc, false), m); }
    case DoUpdate(json) => UpdateKeepsStored(s, json, m);
    case DoRecover(n) => RecoverRemoveKeepStored(s, n, m);
    case DoRemove(n) => RecoverRemoveKeepStored(s, n, m);
    case DoStop(n) =>
      if n == m && m in s.store && s.store[m].state.Stop? {
        StopAgainKeepsStored(s, n);
      } else {
        StopKeepsStored(s, n, m);
      }
    case DoDestroyAll(names) => DestroyAllKeepsStored(s, names, m);
    case DoLoad(_) => SameStoreKeeps(s, Apply(s, op), m);
    case DoJoin(_) => SameStoreKeeps(s, Apply(s, op), m);
    case DoLeft(_) => SameStoreKeeps(s, Apply(s, op), m);
    case DoEnter(_, _) => SameStoreKeeps(s, Apply(s, op), m);
    case DoPause(_) => SameStoreKeeps(s, Apply(s, op), m);
    case DoResume(_) => SameStoreKeeps(s, Apply(s, op), m);
    case DoClose(_) => SameStoreKeeps(s, Apply(s, op), m);
  }

  lemma SameStoreKeeps(s: World, t: World, m: string)
    ensures s.store == t.store ==> Keeps(s, t, m)
  {
  }

  /** Over every run, restarts included, a stopped station stays stopped until it is recovered, removed or cleared. */
  lemma {:induction false} StopAbsorbs(s: World, ops: seq<Op>, n: string)
    requires Inv(s) && Execute(s, ops).Some? && n in s.store && s.store[n].state.Stop?
    requires forall op | op in ops :: !op.DoClear? && !(op.DoRecover? && op.n == n) && !(op.DoRemove? && op.n == n)
    ensures var t := Execute(s, ops).value;
      && n in t.store && t.store[n].state.Stop?
      && (n in t.configs ==> Known(t, n) && Find(t, n).state.Stop? && !IsRun(Find(t, n).state))
    decreases |ops|
  {
    if ops == [] {
      InvLoaded(s);
      if n in s.configs { LoadedFacts(s, n); }
      hide Inv, LoadedOk;
    } else {
      StepKeepsStored(s, ops[0], n);
      ApplyKeepsInv(s, ops[0]);
      hide Inv, Apply;
      StopAbsorbs(Apply(s, ops[0]), ops[1..], n);
    }
  }

  /** Over every run without a full clear, a base station stays, with its ports, and is never stopped. */
  lemma {:induction false} BaseStationsStay(s: World, ops: seq<Op>, n: string)
    requires Inv(s) && Execute(s, ops).Some? && n in s.store && s.store[n].isBase
    requires forall op | op in ops :: !op.DoClear?
    ensures var t := Execute(s, ops).value; n in t.store && Same(s.store[n], t.store[n]) && !t.store[n].state.Stop?
    decreases |ops|
  {
    if ops == [] {
      assert s.store[n] in Records(s);
    } else {
      StepKeepsStored(s, ops[0], n);
      ApplyKeepsInv(s, ops[0]);
      hide Inv, Apply;
      BaseStationsStay(Apply(s, ops[0]), ops[1..], n);
    }
  }

  // ---------- Instances ----------

  /** The configuration at `r`, if it still exists, is stopped; addresses are not used again. */
  predicate StoppedAt(s: World, r: Ref) {
    r < s.next && (r in s.objects ==> s.objects[r].state.Stop?)
  }

  /** A step that could restart the configuration at `r`. */
  predicate Revives(s: World, op: Op, r: Ref) {
    op.DoRecover? && r in s.objects && op.n == s.objects[r].name
  }

  lemma RewriteKeepsStopped(s: World, n: string, c: Config, r: Ref)
    requires LoadedOk(s) && Known(s, n) && StoppedAt(s, r) && (Find(s, n).state.Stop? && s.configs[n] == r ==> c.state.Stop?)
    ensures StoppedAt(Rewrite(s, n, c), r)
  {
  }

  lemma LoadKeepsStopped(s: World, n: string, r: Ref)
    requires StoppedAt(s, r)
    ensures StoppedAt(Load(s, n), r) && (r in s.objects ==> r in Load(s, n).objects && Load(s, n).objects[r] == s.objects[r])
    ensures r !in s.objects ==> r !in Load(s, n).objects
  {
  }

  lemma {:induction false} LoadAllKeepsStopped(s: World, keys: seq<string>, r: Ref)
    requires StoppedAt(s, r)
    ensures StoppedAt(LoadAll(s, keys), r)
    decreases |keys|
  {
    if keys != [] {
      LoadAllKeepsStopped(if keys[0] in s.store then Insert(s, keys[0]) else s, keys[1..], r);
    }
  }

  lemma InstallKeepsStopped(s: World, c: Config, r: Ref)
    requires StoppedAt(s, r)
    ensures StoppedAt(Install(s, c).world, r)
  {
    hide WithPorts;
  }

  lemma InitializeKeepsStopped(s: World, base: int, keys: seq<string>, r: Ref)
    requires StoppedAt(s, r)
    ensures StoppedAt(Initialize(s, base, keys), r)
  {
    hide Install;
    LoadAllKeepsStopped(s, keys, r);
    var c1, c2, c3, c4 := BaseStation(0), BaseStation(1), BaseStation(2), BaseStation(3);
    var s0 := Raised(s, base);
    InstallKeepsStopped(s0, c1, r);
    var s1 := Install(s0, c1).world;
    InstallKeepsStopped(s1, c2, r);
    var s2 := Install(s1, c2).world;
    InstallKeepsStopped(s2, c3, r);
    InstallKeepsStopped(Install(s2, c3).world, c4, r);
  }

  lemma {:induction false} DestroyAllKeepsStopped(s: World, names: seq<string>, r: Ref)
    requires Inv(s) && StoppedAt(s, r)
    ensures StoppedAt(DestroyAll(s, names), r)
    decreases |names|
  {
    hide Inv, Rewrite, LoadedOk;
    if names != [] {
      if Known(s, names[0]) {
        InvLoaded(s);
        RewriteKeepsStopped(s, names[0], Runtime(Find(s, names[0]), Destroy), r);
        RewriteDestroy(s, names[0]);
        DestroyAllKeepsStopped(Rewrite(s, names[0], Runtime(Find(s, names[0]), Destroy)), names[1..], r);
      } else {
        DestroyAllKeepsStopped(s, names[1..], r);
      }
    }
  }

  lemma UpdateKeepsStopped(s: World, json: Config, r: Ref)
    requires Inv(s) && StoppedAt(s, r)
    ensures StoppedAt(Update(s, json).world, r)
  {
    LoadKeepsStopped(s, json.name, r);
    hide Inv, Load;
  }

  lemma StopKeepsStopped(s: World, n: string, r: Ref)
    requires StoppedAt(s, r)
    ensures StoppedAt(StopStation(s, n).world, r)
  {
    LoadKeepsStopped(s, n, r);
    hide Load;
  }

  lemma RecoverKeepsStopped(s: World, n: string, r: Ref)
    requires Inv(s) && StoppedAt(s, r)
    ensures StoppedAt(RemoveStation(s, n).world, r)
    ensures !(r in s.objects && n == s.objects[r].name) ==> StoppedAt(Recover(s, n).world, r)
  {
    LoadKeepsStopped(s, n, r);
    LoadKeepsInv(s, n);
    var s1 := Load(s, n);
    InvLoaded(s1);
    if n in s1.configs { LoadedFacts(s1, n); }
    hide Inv, LoadedOk, Load, Agree;
  }

  lemma RuntimeOpsKeepStopped(s: World, q: Ref, to: State, r: Ref)
    requires StoppedAt(s, r)
    ensures StoppedAt(SetRuntime(s, q, to), r) && StoppedAt(PauseStation(s, q), r) && StoppedAt(Resume(s, q), r) && StoppedAt(Close(s, q), r)
    ensures q in s.objects ==> forall id :: StoppedAt(Join(s, Station(id, q)).world, r) && StoppedAt(Left(s, Station(id, q)).world, r)
  {
  }

  lemma StepKeepsStopped(s: World, op: Op, r: Ref)
    requires Inv(s) && Allowed(s, op) && StoppedAt(s, r) && !Revives(s, op, r)
    ensures StoppedAt(Apply(s, op), r)
  {
    hide Inv, Initialize, Install, Update, Recover, RemoveStation, StopStation, DestroyAll, TypeOf, Load, SetRuntime,
      PauseStation, Resume, Close, Join, Left;
    match op
    case DoBoot(base, keys) =>
      InitializeKeepsStopped(Forgotten(s), base, keys, r);
    case DoClear(base) =>
      InitializeKeepsStopped(Emptied(s), base, [], r);
    case DoInstallJson(json) =>
      if json.Some? { InstallKeepsStopped(s, json.value.(isBase := false), r); }
    case DoInstallTyped(name, typeName, shortName, desc) =>
      if TypeOf(typeName).Some? { InstallKeepsStopped(s, NewConfig(name, TypeOf(typeName).value, shortName, desc, false), r); }
    case DoUpdate(json) => UpdateKeepsStopped(s, json, r);
    case DoRecover(n) => RecoverKeepsStopped(s, n, r);
    case DoRemove(n) => RecoverKeepsStopped(s, n, r);
    case DoStop(n) => StopKeepsStopped(s, n, r);
    case DoLoad(n) => LoadKeepsStopped(s, n, r);
    case DoJoin(st) => RuntimeOpsKeepStopped(s, st.config, Run, r);
    case DoLeft(st) => RuntimeOpsKeepStopped(s, st.config, Run, r);
    case DoEnter(q, to) => RuntimeOpsKeepStopped(s, q, to, r);
    case DoPause(q) => RuntimeOpsKeepStopped(s, q, Run, r);
    case DoResume(q) => RuntimeOpsKeepStopped(s, q, Run, r);
    case DoClose(q) => RuntimeOpsKeepStopped(s, q, Run, r);
    case DoDestroyAll(names) => DestroyAllKeepsStopped(s, names, r);
  }

  /** What the pump asks before every round: the net runs and the configuration is in a running state. */
  predicate CanDo(s: World, r: Ref, netRuning: bool) {
    netRuning && r in s.objects && IsRun(s.objects[r].state)
  }

  predicate NeverRevives(s: World, ops: seq<Op>, r: Ref)
    decreases |ops|
  {
    ops == [] || !Allowed(s, ops[0]) || (!Revives(s, ops[0], r) && NeverRevives(Apply(s, ops[0]), ops[1..], r))
  }

  /**
    Once the configuration an instance runs on is stopped, no start, failed, run, pause, resume, close, join, left,
    restart, closed or destroy step, nor an install, a removal or a clear, lets its pump begin another round.
   */
  lemma {:induction false} NoRoundAfterStop(s: World, ops: seq<Op>, r: Ref, netRuning: bool)
    requires Inv(s) && StoppedAt(s, r) && Execute(s, ops).Some? && NeverRevives(s, ops, r)
    ensures StoppedAt(Execute(s, ops).value, r) && !CanDo(Execute(s, ops).value, r, netRuning)
    decreases |ops|
  {
    hide Inv, Apply, Revives;
    if ops != [] {
      StepKeepsStopped(s, ops[0], r);
      ApplyKeepsInv(s, ops[0]);
      NoRoundAfterStop(Apply(s, ops[0]), ops[1..], r, netRuning);
    }
  }

  predicate Registered(s: World, n: string, st: Station) {
    n in s.examples && s.examples[n] == st
  }

  lemma {:induction false} LoadAllKeepsExamples(s: World, keys: seq<string>)
    ensures LoadAll(s, keys).examples == s.examples
    decreases |keys|
  {
    if keys != [] {
      LoadAllKeepsExamples(if keys[0] in s.store then Insert(s, keys[0]) else s, keys[1..]);
    }
  }

  lemma {:induction false} DestroyAllKeepsExamples(s: World, names: seq<string>)
    ensures DestroyAll(s, names).examples == s.examples
    decreases |names|
  {
    if names != [] {
      DestroyAllKeepsExamples(if Known(s, names[0]) then Rewrite(s, names[0], Runtime(Find(s, names[0]), Destroy)) else s, names[1..]);
    }
  }

  lemma InstallKeepsExamples(s: World, c: Config)
    ensures Install(s, c).world.examples == s.examples
  {
    hide WithPorts, Clashes;
  }

  lemma InitializeKeepsExamples(s: World, base: int, keys: seq<string>)
    ensures Initialize(s, base, keys).examples == s.examples
  {
    hide Install;
    LoadAllKeepsExamples(s, keys);
    var c1, c2, c3, c4 := BaseStation(0), BaseStation(1), BaseStation(2), BaseStation(3);
    var s0 := Raised(s, base);
    InstallKeepsExamples(s0, c1);
    var s1 := Install(s0, c1).world;
    InstallKeepsExamples(s1, c2);
    var s2 := Install(s1, c2).world;
    InstallKeepsExamples(s2, c3);
    InstallKeepsExamples(Install(s2, c3).world, c4);
  }

  lemma StepKeepsRegistered(s: World, op: Op, n: string, st: Station)
    requires Allowed(s, op) && Registered(s, n, st) && !op.DoBoot? && op != DoLeft(st)
    ensures Registered(Apply(s, op), n, st)
  {
    hide Initialize, Install, DestroyAll, TypeOf, Runtime, Stored;
    match op
    case DoClear(base) =>
      InitializeKeepsExamples(Emptied(s), base, []);
    case DoInstallJson(json) =>
      if json.Some? { InstallKeepsExamples(s, json.value.(isBase := false)); }
    case DoInstallTyped(name, typeName, shortName, desc) =>
      if TypeOf(typeName).Some? { InstallKeepsExamples(s, NewConfig(name, TypeOf(typeName).value, shortName, desc, false)); }
    case DoDestroyAll(names) => DestroyAllKeepsExamples(s, names);
    case DoUpdate(_) =>
    case DoRecover(_) =>
    case DoRemove(_) =>
    case DoStop(_) =>
    case DoLoad(_) =>
    case DoJoin(_) =>
    case DoLeft(_) =>
    case DoEnter(_, _) =>
    case DoPause(_) =>
    case DoResume(_) =>
    case DoClose(_) =>
  }

  /** A registered instance is only ever taken out by its own leaving, whoever else joins or leaves under its name. */
  lemma {:induction false} NobodyEvicts(s: World, ops: seq<Op>, n: string, st: Station)
    requires Execute(s, ops).Some? && Registered(s, n, st)
    requires forall op | op in ops :: !op.DoBoot? && op != DoLeft(st)
    ensures Registered(Execute(s, ops).value, n, st)
    decreases |ops|
  {
    hide Apply;
    if ops != [] {
      StepKeepsRegistered(s, ops[0], n, st);
      NobodyEvicts(Apply(s, ops[0]), ops[1..], n, st);
    }
  }

  /** One instance a name: a second join fails and changes nothing; its own left undoes a join. */
  lemma JoinOnce(s: World, st: Station)
    requires Inv(s) && st.config in s.objects
    ensures var n := s.objects[st.config].name; var j := Join(s, st);
      && (j.ok <==> n !in s.examples) && (!j.ok ==> j.world == s)
      && (j.ok ==> Registered(j.world, n, st) && (j.world.objects[st.config].state.Run? || j.world.objects[st.config].state.Stop?)
                   && Left(j.world, st).ok && Left(j.world, st).world.examples == s.examples)
  {
  }

  // ---------- Counter, installs and restarts ----------

  /** The station answers to the key: it is its name, its short name or one of its aliases, in any case. */
  predicate Answers(c: Config, key: string) {
    EqualUpToCase(c.name, key) || EqualUpToCase(c.shortName, key) || exists i :: 0 <= i < |c.alias| && EqualUpToCase(c.alias[i], key)
  }

  lemma OwnsIff(c: Config, key: string)
    ensures Owns(c, key) <==> Answers(c, key)
  {
    FoldIff(c.name, key);
    FoldIff(c.shortName, key);
    forall i | 0 <= i < |c.alias|
      ensures Fold(c.alias[i]) == Fold(key) <==> EqualUpToCase(c.alias[i], key)
    {
      FoldIff(c.alias[i], key);
    }
    hide Fold, EqualUpToCase;
  }

  /** Nobody has the name, and no loaded station answers to the short name. */
  ghost predicate MayInstall(s: World, c: Config) {
    && c.name != "" && c.name !in s.configs && c.name !in s.store
    && forall n | n in s.configs :: Known(s, n) && !Answers(Find(s, n), c.shortName)
  }

  lemma ClashesIff(s: World, shortName: string)
    requires forall n | n in s.configs :: Known(s, n)
    ensures Clashes(s, shortName) <==> exists n :: n in s.configs && Known(s, n) && Answers(Find(s, n), shortName)
  {
    forall n | n in s.configs
      ensures Owns(Find(s, n), shortName) <==> Answers(Find(s, n), shortName)
    {
      OwnsIff(Find(s, n), shortName);
    }
    hide Owns, Answers;
  }

  /** Another installation of what was asked for: all is as given but the ports. */
  predicate AsGiven(c: Config, given: Config) {
    c == given.(requestPort := c.requestPort, outPort := c.outPort, inPort := c.inPort, ticket := c.ticket)
  }

  lemma InstallOkIff(s: World, c: Config)
    requires Inv(s)
    ensures var a := Install(s, c);
      && (a.ok <==> MayInstall(s, c)) && (a.ok ==> a.world == Add(s, c)) && (!a.ok ==> a.world.store == s.store && a.world.counter == s.counter)
  {
    LoadKeepsInv(s, c.name);
    InvLoaded(s);
    forall n | n in s.configs
      ensures Known(s, n)
    {
      LoadedFacts(s, n);
    }
    ClashesIff(s, c.shortName);
    hide Inv, Owns, Answers, LoadedOk, Clashes, Add, Find;
  }

  lemma WithPortsAsGiven(c: Config, p: int)
    ensures var f := WithPorts(c, p);
      && AsGiven(f, c) && f.requestPort == ToInt(p + 1) && f.outPort == ToInt(p + 2)
      && f.inPort == if 3 <= c.kind <= 5 then ToInt(p + 3) else c.inPort
    ensures PortsTaken(c.kind) == if 3 <= c.kind <= 5 then 3 else 2
  {
    hide ToInt;
  }

  /**
    A new station is taken exactly when its name is new and no loaded station answers to its short name. It is then loaded
    as it was given, with the casts of the next two or, for types 3, 4 and 5, three numbers for ports, and saved but for its
    caption; nothing else that is stored changes.
   */
  lemma InstallIff(s: World, c: Config)
    requires Inv(s)
    ensures var a := Install(s, c); var p, taken := if s.counter.Some? then s.counter.value else 0, if 3 <= c.kind <= 5 then 3 else 2;
      && (a.ok <==> MayInstall(s, c))
      && (!a.ok ==> a.world.store == s.store && a.world.counter == s.counter)
      && (a.ok ==> Known(a.world, c.name) && c.name in a.world.store && a.world.store.Keys == s.store.Keys + {c.name}
                   && (forall n | n in s.store :: a.world.store[n] == s.store[n])
                   && var f := Find(a.world, c.name);
                      && AsGiven(f, c) && a.world.store[c.name] == f.(caption := "") && a.world.counter == Some(p + taken)
                      && f.requestPort == ToInt(p + 1) && f.outPort == ToInt(p + 2)
                      && f.inPort == if taken == 3 then ToInt(p + 3) else c.inPort)
  {
    InstallOkIff(s, c);
    WithPortsAsGiven(c, CounterOf(s));
    hide Inv, Install, MayInstall, WithPorts, AsGiven, PortsTaken, ToInt;
  }

  /** A text that parses, with a name and one of the types 2 to 5, is installed as a station that is not a base station. */
  lemma InstallJsonIff(s: World, json: Option<Config>)
    requires Inv(s)
    ensures var a := InstallJson(s, json);
      && (a.ok <==> json.Some? && 2 <= json.value.kind <= 5 && MayInstall(s, json.value))
      && (a.ok ==> Known(a.world, json.value.name) && AsGiven(Find(a.world, json.value.name), json.value.(isBase := false)))
      && (!a.ok ==> a.world.store == s.store && a.world.counter == s.counter)
  {
    if json.Some? {
      var c := json.value.(isBase := false);
      InstallIff(s, c);
      assert MayInstall(s, c) <==> MayInstall(s, json.value);
      hide Inv, MayInstall, Install, AsGiven;
    }
  }

  /** The four names of types that can be installed, in any case, and what is installed for each. */
  lemma InstallTypedIff(s: World, name: string, typeName: string, shortName: string, desc: string)
    requires Inv(s)
    ensures var a := InstallTyped(s, name, typeName, shortName, desc);
      var kind := if EqualUpToCase(typeName, "api") then Some(3) else if EqualUpToCase(typeName, "pub") then Some(2)
                  else if EqualUpToCase(typeName, "vote") then Some(4) else if EqualUpToCase(typeName, "rapi") then Some(5) else None;
      && (a.ok <==> kind.Some? && MayInstall(s, NewConfig(name, 0, shortName, desc, false)))
      && (a.ok ==> Known(a.world, name) && var f := Find(a.world, name);
            && f.name == name && f.shortName == shortName && f.description == desc && f.kind == kind.value
            && f.alias == [] && f.caption == "" && !f.isBase && f.state.Init? && (f.kind == 2 ==> f.inPort == 0))
      && (!a.ok ==> a.world.store == s.store && a.world.counter == s.counter)
  {
    FoldedTypes();
    FoldIff(typeName, "api");
    FoldIff(typeName, "pub");
    FoldIff(typeName, "vote");
    FoldIff(typeName, "rapi");
    if TypeOf(typeName).Some? {
      InstallIff(s, NewConfig(name, TypeOf(typeName).value, shortName, desc, false));
    }
    hide Inv, Fold, EqualUpToCase, Install, Answers;
  }

  lemma FoldedTypes()
    ensures Fold("api") == "api" && Fold("pub") == "pub" && Fold("vote") == "vote" && Fold("rapi") == "rapi"
  {
  }

  lemma InstallCounter(s: World, c: Config)
    ensures s.counter.Some? ==> Install(s, c).world.counter.Some? && s.counter.value <= Install(s, c).world.counter.value
  {
    hide WithPorts, Clashes;
  }

  lemma InitializeCounter(s: World, base: int, keys: seq<string>)
    ensures var t := Initialize(s, base, keys); t.counter.Some? && base <= t.counter.value
    ensures var t := Initialize(s, base, keys); s.counter.Some? ==> s.counter.value <= t.counter.value
  {
    hide Install;
    LoadAllKeepsStored(s, keys);
    var c1, c2, c3, c4 := BaseStation(0), BaseStation(1), BaseStation(2), BaseStation(3);
    var s0 := Raised(s, base);
    InstallCounter(s0, c1);
    var s1 := Install(s0, c1).world;
    InstallCounter(s1, c2);
    var s2 := Install(s1, c2).world;
    InstallCounter(s2, c3);
    InstallCounter(Install(s2, c3).world, c4);
  }

  lemma {:induction false} DestroyAllKeepsCounter(s: World, names: seq<string>)
    ensures DestroyAll(s, names).counter == s.counter
    decreases |names|
  {
    if names != [] {
      DestroyAllKeepsCounter(if Known(s, names[0]) then Rewrite(s, names[0], Runtime(Find(s, names[0]), Destroy)) else s, names[1..]);
    }
  }

  lemma StepRaisesCounter(s: World, op: Op)
    requires Allowed(s, op) && !op.DoClear? && s.counter.Some?
    ensures var t := Apply(s, op); t.counter.Some? && s.counter.value <= t.counter.value
  {
    hide Initialize, Install, DestroyAll, TypeOf, Runtime, Stored;
    match op
    case DoBoot(base, keys) =>
      InitializeCounter(Forgotten(s), base, keys);
    case DoInstallJson(json) =>
      if json.Some? { InstallCounter(s, json.value.(isBase := false)); }
    case DoInstallTyped(name, typeName, shortName, desc) =>
      if TypeOf(typeName).Some? { InstallCounter(s, NewConfig(name, TypeOf(typeName).value, shortName, desc, false)); }
    case DoDestroyAll(names) => DestroyAllKeepsCounter(s, names);
    case DoUpdate(_) =>
    case DoRecover(_) =>
    case DoRemove(_) =>
    case DoStop(_) =>
    case DoLoad(_) =>
    case DoJoin(_) =>
    case DoLeft(_) =>
    case DoEnter(_, _) =>
    case DoPause(_) =>
    case DoResume(_) =>
    case DoClose(_) =>
  }

  /** The port counter never goes down except on a full clear, whatever base ports the restarts bring. */
  lemma {:induction false} CounterNeverDrops(s: World, ops: seq<Op>)
    requires Execute(s, ops).Some? && s.counter.Some? && forall op | op in ops :: !op.DoClear?
    ensures var t := Execute(s, ops).value; t.counter.Some? && s.counter.value <= t.counter.value
    decreases |ops|
  {
    hide Apply;
    if ops != [] {
      StepRaisesCounter(s, ops[0]);
      CounterNeverDrops(Apply(s, ops[0]), ops[1..]);
    }
  }

  lemma {:induction false} LoadAllLoads(s: World, keys: seq<string>, n: string)
    requires n in s.store && (n in keys || (Known(s, n) && Find(s, n) == s.store[n] && s.configs[n] < s.next))
    requires RefsOk(s)
    ensures var t := LoadAll(s, keys); Known(t, n) && Find(t, n) == s.store[n]
    decreases |keys|
  {
    if keys != [] {
      LoadAllLoads(if keys[0] in s.store then Insert(s, keys[0]) else s, keys[1..], n);
    }
  }

  /** A restart at a base port the counter has reached loads every stored station as it was stored. */
  lemma RestartRestores(s: World, base: int, keys: seq<string>, n: string)
    requires Inv(s) && s.counter.Some? && base <= s.counter.value && n in s.store && n in keys
    ensures var t := Boot(s, base, keys);
      t.store == s.store && t.counter == s.counter && Known(t, n) && Find(t, n) == s.store[n]
  {
    var t := Forgotten(s);
    LoadAllKeepsStored(t, keys);
    LoadAllLoads(t, keys, n);
    hide Inv, LoadAll;
  }

  lemma {:induction false} LoadAllKnows(s: World, keys: seq<string>, n: string)
    ensures n in LoadAll(s, keys).configs <==> n in s.configs || (n in keys && n in s.store)
    decreases |keys|
  {
    if keys != [] {
      LoadAllKnows(if keys[0] in s.store then Insert(s, keys[0]) else s, keys[1..], n);
    }
  }

  /** A restart knows what it finds in the store and nothing else: no instance runs, and every configuration is a new one. */
  lemma RestartForgets(s: World, base: int, keys: seq<string>, n: string)
    requires Inv(s) && base >= MIN_INT
    ensures var t := Boot(s, base, keys);
      && t.examples == map[] && (forall r | r in t.objects :: s.next <= r)
      && (s.counter.Some? && base <= s.counter.value ==> (n in t.configs <==> n in keys && n in s.store))
  {
    ForgetKeepsInv(s);
    InitializeKeepsExamples(Forgotten(s), base, keys);
    InitializeGrows(Forgotten(s), base, keys);
    LoadAllKnows(Forgotten(s), keys, n);
    hide Inv, InstallBase, LoadAll;
  }

  /** A restart at a higher base port raises the counter to it, keeps what is stored, and sees to the four base stations. */
  lemma RestartRaises(s: World, base: int, keys: seq<string>, n: string)
    requires Inv(s) && base >= MIN_INT && s.counter.Some? && s.counter.value < base
    ensures var t := Boot(s, base, keys);
      && t.counter.Some? && base <= t.counter.value
      && ((forall i | 0 <= i < 4 :: BaseStation(i).name in s.store) ==> t.counter == Some(base) && t.store == s.store)
    ensures Keeps(s, Boot(s, base, keys), n)
  {
    InitializeCounter(Forgotten(s), base, keys);
    BootKeepsStored(s, base, keys, n);
    ForgetKeepsInv(s);
    RaiseCounter(Forgotten(s), base);
    if forall i | 0 <= i < 4 :: BaseStation(i).name in s.store {
      StoredBaseStays(Raised(Forgotten(s), base));
    }
    hide Inv, InstallBase, BaseStation, Keeps;
  }

  lemma StoredBaseStays(s: World)
    requires Inv(s) && forall i | 0 <= i < 4 :: BaseStation(i).name in s.store
    ensures InstallBase(s).store == s.store && InstallBase(s).counter == s.counter
  {
    hide Inv, Install, BaseStation;
    InstallKnown(s, BaseStation(0));
    var s1 := Install(s, BaseStation(0)).world;
    InstallKnown(s1, BaseStation(1));
    var s2 := Install(s1, BaseStation(1)).world;
    InstallKnown(s2, BaseStation(2));
    InstallKnown(Install(s2, BaseStation(2)).world, BaseStation(3));
  }

  lemma LoadFinds(s: World, n: string)
    requires Inv(s)
    ensures var s1 := Load(s, n);
      && (Known(s1, n) <==> n in s.store)
      && (n in s.store ==> Agree(Find(s1, n), s.store[n]) && s1.store == s.store)
  {
    LoadKeepsInv(s, n);
    InvLoaded(Load(s, n));
    if n in s.store {
      LoadedFacts(Load(s, n), n);
    } else {
      InvLoaded(s);
    }
    hide Inv, Agree;
  }

  /** The station is loaded and saved like this, and nothing else that is loaded or stored changes. */
  ghost predicate OnlySaves(s: World, t: World, n: string, c: Config) {
    && Known(t, n) && Find(t, n) == c && t.store == s.store[n := c.(caption := "")]
    && t.counter == s.counter && forall m | m in s.configs && m != n :: m in t.configs && t.configs[m] == s.configs[m]
  }

  /** What is known of the station: what is loaded, or else what is stored. */
  function Current(s: World, n: string): Config
    requires Known(s, n) || n in s.store
  {
    if Known(s, n) then Find(s, n) else s.store[n]
  }

  lemma LoadGives(s: World, n: string)
    requires Inv(s) && n in s.store
    ensures var t := Load(s, n);
      && Known(t, n) && Find(t, n) == Current(s, n) && t.store == s.store && t.counter == s.counter && t.examples == s.examples
      && forall m | m in s.configs && m != n :: m in t.configs && t.configs[m] == s.configs[m]
  {
    if n in s.configs { LoadedFacts(s, n); }
    hide Inv, Agree;
  }

  /** Exactly the known, running, non-base stations can be stopped, and then they are, in memory and in the store. */
  lemma StopIff(s: World, n: string)
    requires Inv(s)
    ensures var a := StopStation(s, n);
      && (a.ok <==> n in s.store && !s.store[n].state.Stop? && !s.store[n].isBase)
      && (a.ok ==> OnlySaves(s, a.world, n, Current(s, n).(state := Stop)))
      && (!a.ok ==> a.world.store == s.store)
  {
    LoadFinds(s, n);
    LoadKeepsInv(s, n);
    if n in s.store { LoadGives(s, n); }
    hide Inv, Load, Current;
  }

  /** Exactly the known, stopped, non-base stations can be recovered or removed; recovering undoes a stop. */
  lemma RecoverRemoveIff(s: World, n: string)
    requires Inv(s)
    ensures var stopped := n in s.store && s.store[n].state.Stop? && !s.store[n].isBase;
      var a, b := Recover(s, n), RemoveStation(s, n);
      && (a.ok <==> stopped) && (b.ok <==> stopped)
      && (a.ok ==> OnlySaves(s, a.world, n, Current(s, n).(state := Init)))
      && (b.ok ==> n !in b.world.configs && b.world.store == s.store - {n}
                   && forall m | m in s.configs && m != n :: m in b.world.configs && b.world.configs[m] == s.configs[m])
      && (!stopped ==> a.world.store == s.store && b.world.store == s.store)
  {
    LoadFinds(s, n);
    if n in s.store { LoadGives(s, n); }
    hide Inv, Load, Current;
  }

  /** An update reaches every known non-base station; its aliases change only between types 1 and 0xA0. */
  lemma UpdateIff(s: World, json: Config)
    requires Inv(s)
    ensures var a := Update(s, json); var n := json.name;
      && (a.ok <==> n in s.store && !s.store[n].isBase)
      && (!a.ok ==> a.world.store == s.store)
      && (a.ok ==> var was := Current(s, n);
            OnlySaves(s, a.world, n, was.(caption := json.caption, description := json.description,
                                          alias := if 1 < was.kind < 0xA0 then json.alias else was.alias)))
  {
    LoadFinds(s, json.name);
    if json.name in s.store { LoadGives(s, json.name); }
    hide Inv, Load, Current;
  }

  lemma FoldDiffers(a: string, b: string)
    requires |a| != |b| || (a != [] && FoldChar(a[0]) != FoldChar(b[0]))
    ensures Fold(a) != Fold(b)
  {
    if |a| == |b| {
      assert Fold(a)[0] != Fold(b)[0];
    }
  }

  /** Nothing stored is in the way: the new station is added. */
  lemma InstallAdds(s: World, c: Config)
    requires LoadedOk(s) && c.name != "" && c.name !in s.store
    requires forall n | n in s.store :: Known(s, n) && Stored(Find(s, n)) == s.store[n] && !Owns(s.store[n], c.shortName)
    ensures Install(s, c).world == Add(s, c)
  {
    hide Add, Fold, Agree;
    forall n | n in s.configs
      ensures !Owns(Find(s, n), c.shortName)
    {
      LoadedFacts(s, n);
      assert Owns(Find(s, n), c.shortName) == Owns(Stored(Find(s, n)), c.shortName);
    }
    assert c.name !in s.configs;
    hide LoadedOk, Owns, Stored;
  }

  lemma AddKnown(s: World, c: Config)
    requires RefsOk(s) && forall n | n in s.store :: Known(s, n) && Stored(Find(s, n)) == s.store[n]
    ensures var t := Add(s, c); forall n | n in t.store :: Known(t, n) && Stored(Find(t, n)) == t.store[n]
  {
    hide WithPorts, Stored;
  }

  lemma InstallFresh(s: World, c: Config)
    requires Inv(s) && c.name != "" && c.name !in s.store && (c.isBase ==> !c.state.Stop?)
    requires forall n | n in s.store :: !Owns(s.store[n], c.shortName)
    requires forall n | n in s.store :: Known(s, n) && Stored(Find(s, n)) == s.store[n]
    ensures var t := Install(s, c).world;
      Inv(t) && t == Add(s, c) && forall n | n in t.store :: Known(t, n) && Stored(Find(t, n)) == t.store[n]
  {
    assert LoadedOk(s) && RefsOk(s);
    hide *;
    InstallAdds(s, c);
    InstallKeepsInv(s, c);
    AddKnown(s, c);
  }

  /** The first `i` base stations, two ports each. */
  function BaseStore(i: nat, base: int): map<string, Config>
    requires i <= 4
  {
    if i == 0 then map[]
    else BaseStore(i - 1, base)[BaseStation(i - 1).name := WithPorts(BaseStation(i - 1), base + 2 * (i - 1))]
  }

  lemma BaseNamesDiffer(i: nat, j: nat)
    requires i < j < 4
    ensures var a, b := BaseStation(i), BaseStation(j);
      && a.name != b.name && a.alias == []
      && (|a.name| != |b.shortName| || FoldChar(a.name[0]) != FoldChar(b.shortName[0]))
  {
    var a, b := BaseStation(i), BaseStation(j);
    assert |a.name| != |b.name| || a.name[0] != b.name[0];
    hide Fold;
  }

  lemma BaseShortNamesDiffer(i: nat, j: nat)
    requires i < j < 4
    ensures var a, b := BaseStation(i).shortName, BaseStation(j).shortName;
      a != [] && (|a| != |b| || FoldChar(a[0]) != FoldChar(b[0]))
  {
    hide Fold;
  }

  lemma BaseStationsDiffer(i: nat, j: nat)
    requires i < j < 4
    ensures BaseStation(i).name != BaseStation(j).name && !Owns(BaseStation(i), BaseStation(j).shortName)
  {
    BaseNamesDiffer(i, j);
    BaseShortNamesDiffer(i, j);
    BaseStationIs(i);
    hide BaseStation, FoldChar;
    FoldDiffers(BaseStation(i).name, BaseStation(j).shortName);
    FoldDiffers(BaseStation(i).shortName, BaseStation(j).shortName);
    hide Fold;
  }

  lemma BaseStationIs(i: nat)
    requires i < 4
    ensures BaseStation(i).name != "" && BaseStation(i).isBase && BaseStation(i).state.Init? && PortsTaken(BaseStation(i).kind) == 2
  {
  }

  lemma {:induction false} InBaseStore(i: nat, base: int, n: string)
    requires i <= 4 && n in BaseStore(i, base)
    ensures exists j :: 0 <= j < i && n == BaseStation(j).name
                        && BaseStore(i, base)[n] == WithPorts(BaseStation(j), base + 2 * j)
    decreases i
  {
    hide BaseStation, WithPorts;
    if n != BaseStation(i - 1).name {
      InBaseStore(i - 1, base, n);
      var j :| 0 <= j < i - 1 && n == BaseStation(j).name && BaseStore(i - 1, base)[n] == WithPorts(BaseStation(j), base + 2 * j);
      assert BaseStore(i, base)[n] == WithPorts(BaseStation(j), base + 2 * j);
    }
  }

  ghost predicate BaseInstalled(s: World, i: nat, base: int)
    requires i <= 4
  {
    && Inv(s) && s.counter == Some(base + 2 * i) && s.store == BaseStore(i, base)
    && forall n | n in s.store :: Known(s, n) && Stored(Find(s, n)) == s.store[n]
  }

  lemma PortsDoNotOwn(c: Config, p: int, key: string)
    ensures Owns(WithPorts(c, p), key) <==> Owns(c, key)
  {
    hide Fold, ToInt;
  }

  lemma AddEffect(s: World, c: Config)
    ensures Add(s, c).store == s.store[c.name := Stored(WithPorts(c, CounterOf(s)))]
    ensures Add(s, c).counter == Some(CounterOf(s) + PortsTaken(c.kind))
  {
    hide WithPorts, ToInt;
  }

  lemma NotInBaseStore(i: nat, base: int)
    requires i < 4
    ensures BaseStation(i).name !in BaseStore(i, base) && BaseStation(i).name != ""
    ensures BaseStation(i).isBase && BaseStation(i).state.Init? && PortsTaken(BaseStation(i).kind) == 2
    ensures forall n | n in BaseStore(i, base) :: !Owns(BaseStore(i, base)[n], BaseStation(i).shortName)
  {
    BaseStationIs(i);
    var c := BaseStation(i);
    hide BaseStore, WithPorts, Owns, BaseStation;
    forall n | n in BaseStore(i, base)
      ensures n != c.name && !Owns(BaseStore(i, base)[n], c.shortName)
    {
      InBaseStore(i, base, n);
      var j :| 0 <= j < i && n == BaseStation(j).name && BaseStore(i, base)[n] == WithPorts(BaseStation(j), base + 2 * j);
      BaseStationsDiffer(j, i);
      PortsDoNotOwn(BaseStation(j), base + 2 * j, c.shortName);
    }
  }

  lemma BaseStep(s: World, i: nat, base: int)
    requires i < 4 && BaseInstalled(s, i, base)
    ensures BaseInstalled(Install(s, BaseStation(i)).world, i + 1, base)
  {
    hide BaseStation, WithPorts, Inv, Owns, Add, Install, Known, Find, Stored;
    NotInBaseStore(i, base);
    InstallFresh(s, BaseStation(i));
    AddEffect(s, BaseStation(i));
    BaseIsStored(i, base + 2 * i);
  }

  lemma BaseIsStored(i: nat, p: int)
    requires i < 4
    ensures Stored(WithPorts(BaseStation(i), p)) == WithPorts(BaseStation(i), p)
  {
  }

  lemma FreshInstalls(s: World, base: int)
    requires Inv(s) && s.store == map[] && s.counter == Some(base)
    ensures InstallBase(s).counter == Some(base + 8) && InstallBase(s).store == BaseStore(4, base)
    ensures BaseInstalled(InstallBase(s), 4, base)
  {
    hide Inv, Install, Stored;
    BaseStep(s, 0, base);
    var s1 := Install(s, BaseStation(0)).world;
    BaseStep(s1, 1, base);
    var s2 := Install(s1, BaseStation(1)).world;
    BaseStep(s2, 2, base);
    var s3 := Install(s2, BaseStation(2)).world;
    BaseStep(s3, 3, base);
    hide BaseInstalled, BaseStore;
    InstalledFacts(Install(s3, BaseStation(3)).world, base);
  }

  /** The first start of a centre: exactly the four base stations, on eight consecutive ports above the base port. */
  lemma FirstBoot(base: int, keys: seq<string>)
    requires MIN_INT <= base
    ensures Boot(BLANK, base, keys).counter == Some(base + 8) && Boot(BLANK, base, keys).store == BaseStore(4, base)
  {
    BlankInv();
    RaiseCounter(BLANK, base);
    FreshInstalls(Raised(BLANK, base), base);
    hide Inv, InstallBase, BaseStore;
  }

  /** The four stations of a first start or a clear, as they are stored, with consecutive numbers for their ports. */
  lemma FirstStations(base: int)
    ensures var b := BaseStore(4, base);
      && b.Keys == {"SystemManage", "PlanDispatcher", "RemoteLog", "HealthCenter"}
      && IsFirst(b["SystemManage"], "man", 1, base) && IsFirst(b["PlanDispatcher"], "plan", 0xFF, base + 2)
      && IsFirst(b["RemoteLog"], "log", 2, base + 4) && IsFirst(b["HealthCenter"], "hea", 2, base + 6)
  {
    BaseAt(4, 0, base);
    BaseAt(4, 1, base);
    BaseAt(4, 2, base);
    BaseAt(4, 3, base);
    forall n | n in BaseStore(4, base)
      ensures n in {"SystemManage", "PlanDispatcher", "RemoteLog", "HealthCenter"}
    {
      BaseNamesAreAll(base, n);
    }
    hide BaseStore, ToInt;
  }

  predicate IsFirst(c: Config, shortName: string, kind: int, p: int) {
    && c.shortName == shortName && c.kind == kind && c.isBase && c.state.Init? && c.alias == []
    && c.requestPort == ToInt(p + 1) && c.outPort == ToInt(p + 2)
  }

  /** A full clear starts over: whatever was installed, the same four stations on the same ports, and the instances stay. */
  lemma ClearStartsOver(s: World, base: int)
    requires Inv(s) && MIN_INT <= base
    ensures var t := Clear(s, base);
      t.counter == Some(base + 8) && t.store == BaseStore(4, base) && t.examples == s.examples
  {
    var t := Emptied(s);
    assert Records(t) == {};
    RaiseCounter(t, base);
    InitializeKeepsExamples(t, base, []);
    FreshInstalls(Raised(t, base), base);
    hide Inv, InstallBase, BaseStore;
  }

  lemma InstallKnown(s: World, c: Config)
    requires Inv(s) && c.name in s.store
    ensures var t := Install(s, c).world; Inv(t) && t.store == s.store && t.counter == s.counter
  {
    LoadKeepsInv(s, c.name);
    hide Inv, Load;
  }

  lemma {:induction false} BaseAt(i: nat, j: nat, base: int)
    requires j < i <= 4
    ensures BaseStation(j).name in BaseStore(i, base)
    ensures BaseStore(i, base)[BaseStation(j).name] == WithPorts(BaseStation(j), base + 2 * j)
    decreases i
  {
    if j < i - 1 {
      BaseStationsDiffer(j, i - 1);
      hide BaseStation, WithPorts, Owns;
      BaseAt(i - 1, j, base);
    }
  }

  /** Base stations that are stored already are not installed again. */
  lemma BaseKnown(s: World, base: int)
    requires Inv(s) && s.store == BaseStore(4, base)
    ensures var t := InstallBase(s); Inv(t) && t.store == s.store && t.counter == s.counter
  {
    hide Inv, Install, BaseStore, BaseStation;
    BaseAt(4, 0, base);
    BaseAt(4, 1, base);
    BaseAt(4, 2, base);
    BaseAt(4, 3, base);
    InstallKnown(s, BaseStation(0));
    var s1 := Install(s, BaseStation(0)).world;
    InstallKnown(s1, BaseStation(1));
    var s2 := Install(s1, BaseStation(1)).world;
    InstallKnown(s2, BaseStation(2));
    InstallKnown(Install(s2, BaseStation(2)).world, BaseStation(3));
  }

  lemma BaseNamesAreLong(j: nat, key: string)
    requires j < 4 && |key| == 1
    ensures BaseStation(j).name != key && !Owns(BaseStation(j), key)
  {
    FoldDiffers(BaseStation(j).name, key);
    FoldDiffers(BaseStation(j).shortName, key);
    hide Fold;
  }

  lemma OneLetterIsFree(base: int, name: string, key: string)
    requires |name| == 1 && |key| == 1
    ensures name !in BaseStore(4, base) && forall n | n in BaseStore(4, base) :: !Owns(BaseStore(4, base)[n], key)
  {
    hide BaseStore, BaseStation, WithPorts, Owns;
    forall n | n in BaseStore(4, base)
      ensures n != name && !Owns(BaseStore(4, base)[n], key)
    {
      InBaseStore(4, base, n);
      var j :| 0 <= j < 4 && n == BaseStation(j).name && BaseStore(4, base)[n] == WithPorts(BaseStation(j), base + 2 * j);
      BaseNamesAreLong(j, name);
      BaseNamesAreLong(j, key);
      PortsDoNotOwn(BaseStation(j), base + 2 * j, key);
    }
  }

  function Publisher(name: string, shortName: string): Config {
    NewConfig(name, PUBLISH, shortName, "", false)
  }

  /** With all base stations loaded, a publisher with one-letter names takes the next two ports. */
  lemma PublisherInstalled(s: World, base: int, name: string, shortName: string)
    requires Inv(s) && s.store == BaseStore(4, base) && s.counter.Some? && |name| == 1 && |shortName| == 1
    requires forall n | n in s.store :: Known(s, n) && Stored(Find(s, n)) == s.store[n]
    ensures var c, t := Publisher(name, shortName), Install(s, Publisher(name, shortName)).world;
      && Inv(t) && t == Add(s, c) && InstallJson(s, Some(c)).world == t
      && name in t.store && t.store[name] == Stored(WithPorts(c, s.counter.value))
      && s.next in t.objects && t.objects[s.next] == WithPorts(c, s.counter.value)
      && (forall n | n in s.store :: n in t.store && t.store[n] == s.store[n])
  {
    OneLetterIsFree(base, name, shortName);
    hide Inv, BaseStore, Owns, Install;
    InstallFresh(s, Publisher(name, shortName));
    AddEffect(s, Publisher(name, shortName));
    hide WithPorts;
  }

  lemma StoredBase(base: int, n: string)
    requires n in BaseStore(4, base)
    ensures Stored(BaseStore(4, base)[n]) == BaseStore(4, base)[n]
  {
    InBaseStore(4, base, n);
    hide BaseStore, BaseStation, WithPorts;
    var j :| 0 <= j < 4 && n == BaseStation(j).name && BaseStore(4, base)[n] == WithPorts(BaseStation(j), base + 2 * j);
    BaseIsStored(j, base + 2 * j);
  }

  const BASE_NAMES: seq<string> := ["SystemManage", "PlanDispatcher", "RemoteLog", "HealthCenter"]

  lemma BaseNamesAreAll(base: int, n: string)
    requires n in BaseStore(4, base)
    ensures n in BASE_NAMES
  {
    InBaseStore(4, base, n);
    hide BaseStore, WithPorts;
    var j :| 0 <= j < 4 && n == BaseStation(j).name && BaseStore(4, base)[n] == WithPorts(BaseStation(j), base + 2 * j);
    assert BASE_NAMES[j] == n;
  }

  /** The first start at one base port, then two restarts at a higher one: the old base stations, and the counter raised. */
  lemma RaisedRestarts(low: int, high: int, names: seq<string>)
    requires MIN_INT <= low && low + 8 < high <= MAX_INT && forall n | n in BaseStore(4, low) :: n in names
    ensures var s := Boot(Boot(Boot(BLANK, low, []), high, []), high, names);
      && Inv(s) && s.store == BaseStore(4, low) && s.counter == Some(high)
      && forall n | n in s.store :: Known(s, n) && Stored(Find(s, n)) == s.store[n]
  {
    hide Inv, InstallBase, BaseStore, LoadAll;
    BlankInv();
    BootKeepsInv(BLANK, low, []);
    FirstBoot(low, []);
    var s1 := Boot(BLANK, low, []);
    BootKeepsInv(s1, high, []);
    ForgetKeepsInv(s1);
    RaiseCounter(Forgotten(s1), high);
    BaseKnown(Raised(Forgotten(s1), high), low);
    var s2 := Boot(s1, high, []);
    assert s2.store == BaseStore(4, low) && s2.counter == Some(high);
    BootKeepsInv(s2, high, names);
    BaseAt(4, 0, low);
    var s := Boot(s2, high, names);
    hide Boot, Stored, Find, Known;
    forall n | n in BaseStore(4, low)
      ensures s.store == BaseStore(4, low) && s.counter == Some(high) && Known(s, n) && Stored(Find(s, n)) == s.store[n]
    {
      RestartRestores(s2, high, names, n);
      StoredBase(low, n);
    }
    assert BaseStation(0).name in BaseStore(4, low);
  }

  lemma ExecuteOne(s: World, ops: seq<Op>)
    requires ops != [] && Allowed(s, ops[0])
    ensures Execute(s, ops) == Execute(Apply(s, ops[0]), ops[1..])
    ensures forall t :: Execute(t, []) == Some(t)
  {
    hide Allowed, Apply;
  }

  lemma NewcomerShares(s: World)
    requires s.counter == Some(MAX_INT) && s.store == BaseStore(4, MIN_INT)
    ensures "SystemManage" in s.store && "x" != "SystemManage"
    ensures WithPorts(Publisher("x", "y"), MAX_INT).outPort == s.store["SystemManage"].requestPort
  {
    BaseAt(4, 0, MIN_INT);
    hide BaseStore, ToInt;
    ToIntEqualIff(MAX_INT + 2, MIN_INT + 1);
    assert MAX_INT + 2 - (MIN_INT + 1) == SPAN;
  }

  lemma ThreeBoots(low: int, high: int, names: seq<string>, last: Op)
    requires MIN_INT <= low <= high <= MAX_INT
    ensures Execute(BLANK, [DoBoot(low, []), DoBoot(high, []), DoBoot(high, names), last])
         == Execute(Boot(Boot(Boot(BLANK, low, []), high, []), high, names), [last])
  {
    hide *;
    var s1 := Boot(BLANK, low, []);
    var s2 := Boot(s1, high, []);
    ApplyBoot(BLANK, low, []);
    ApplyBoot(s1, high, []);
    ApplyBoot(s2, high, names);
    var ops := [DoBoot(low, []), DoBoot(high, []), DoBoot(high, names), last];
    ExecuteOne(BLANK, ops);
    ExecuteOne(s1, ops[1..]);
    ExecuteOne(s2, ops[1..][1..]);
    assert ops[1..][1..][1..] == [last];
  }

  lemma BaseNamesAll(base: int)
    ensures forall n | n in BaseStore(4, base) :: n in BASE_NAMES
  {
    forall n | n in BaseStore(4, base)
      ensures n in BASE_NAMES
    {
      BaseNamesAreAll(base, n);
    }
  }

  /**
    A run that ends with a shared port: the first start at the lowest base port, restarts at the highest, and one install.
    The new station's second port is the first of the dispatcher, 2^32 numbers further on.
   */
  lemma SharedPortRun()
    ensures var r := Execute(BLANK, [DoBoot(MIN_INT, []), DoBoot(MAX_INT, []), DoBoot(MAX_INT, BASE_NAMES),
                                     DoInstallJson(Some(Publisher("x", "y")))]);
      && r.Some? && "x" in r.value.store && "SystemManage" in r.value.store
      && r.value.store["x"].outPort == r.value.store["SystemManage"].requestPort
  {
    assert MIN_INT + 8 < MAX_INT;
    hide *;
    BaseNamesAll(MIN_INT);
    RaisedRestarts(MIN_INT, MAX_INT, BASE_NAMES);
    var s := Boot(Boot(Boot(BLANK, MIN_INT, []), MAX_INT, []), MAX_INT, BASE_NAMES);
    var op := DoInstallJson(Some(Publisher("x", "y")));
    ThreeBoots(MIN_INT, MAX_INT, BASE_NAMES, op);
    ApplyInstall(s, Publisher("x", "y"));
    ExecuteOne(s, [op]);
    assert [op][1..] == [];
    SharedAtEnd(s);
  }

  lemma SharedAtEnd(s: World)
    requires Inv(s) && s.store == BaseStore(4, MIN_INT) && s.counter == Some(MAX_INT)
    requires forall n | n in s.store :: Known(s, n) && Stored(Find(s, n)) == s.store[n]
    ensures var t := InstallJson(s, Some(Publisher("x", "y"))).world;
      "x" in t.store && "SystemManage" in t.store && t.store["x"].outPort == t.store["SystemManage"].requestPort
  {
    PublisherInstalled(s, MIN_INT, "x", "y");
    NewcomerShares(s);
    hide Inv, BaseStore, WithPorts, Add, Install, InstallJson;
  }

  lemma ApplyBoot(s: World, base: int, keys: seq<string>)
    requires MIN_INT <= base <= MAX_INT
    ensures Allowed(s, DoBoot(base, keys)) && Apply(s, DoBoot(base, keys)) == Boot(s, base, keys)
  {
    hide Boot;
  }

  lemma ApplyInstall(s: World, c: Config)
    ensures Allowed(s, DoInstallJson(Some(c))) && Apply(s, DoInstallJson(Some(c))) == InstallJson(s, Some(c)).world
  {
    hide InstallJson;
  }

  lemma InstallKeepsObject(s: World, c: Config, r: Ref)
    requires Inv(s) && r in s.objects && (c.isBase ==> !c.state.Stop?)
    ensures var t := Install(s, c).world; Inv(t) && r in t.objects && t.objects[r] == s.objects[r]
  {
    InstallKeepsInv(s, c);
    LoadKeepsInv(s, c.name);
    assert RefsOk(s) && RefsOk(Load(s, c.name));
    hide Inv, WithPorts, Clashes;
  }

  lemma InstallBaseKeepsObject(s: World, r: Ref)
    requires Inv(s) && r in s.objects
    ensures r in InstallBase(s).objects && InstallBase(s).objects[r] == s.objects[r]
  {
    hide Inv, Install;
    InstallKeepsObject(s, BaseStation(0), r);
    var s1 := Install(s, BaseStation(0)).world;
    InstallKeepsObject(s1, BaseStation(1), r);
    var s2 := Install(s1, BaseStation(1)).world;
    InstallKeepsObject(s2, BaseStation(2), r);
    InstallKeepsObject(Install(s2, BaseStation(2)).world, BaseStation(3), r);
  }

  /** After a full clear the base stations are installed and loaded again. */
  lemma ClearInstalls(s: World, base: int)
    requires Inv(s) && MIN_INT <= base
    ensures BaseInstalled(Clear(s, base), 4, base) && Clear(s, base).examples == s.examples
  {
    var t := Emptied(s);
    assert Records(t) == {};
    RaiseCounter(t, base);
    InitializeKeepsExamples(t, base, []);
    FreshInstalls(Raised(t, base), base);
    hide Inv, InstallBase, BaseStore, BaseInstalled;
  }

  /** What instances hold is as it was. */
  lemma ClearKeepsObjects(s: World, base: int, r: Ref)
    requires Inv(s) && MIN_INT <= base && r in s.objects
    ensures r in Clear(s, base).objects && Clear(s, base).objects[r] == s.objects[r]
  {
    var t := Emptied(s);
    assert Records(t) == {};
    RaiseCounter(t, base);
    InstallBaseKeepsObject(Raised(t, base), r);
    hide Inv, InstallBase, BaseStore;
  }

  lemma FirstBootInstalls(base: int)
    requires MIN_INT <= base
    ensures BaseInstalled(Boot(BLANK, base, []), 4, base) && Boot(BLANK, base, []).examples == map[]
  {
    BlankInv();
    RaiseCounter(BLANK, base);
    FreshInstalls(Raised(BLANK, base), base);
    InitializeKeepsExamples(Forgotten(BLANK), base, []);
    hide Inv, InstallBase, BaseStore, BaseInstalled;
  }

  // ---------- What a clear does to the instances it leaves running ----------

  /** No configuration is lost or moved to other ports, addresses are not used again, and the counter's start stays. */
  ghost predicate Grows(s: World, t: World) {
    && s.since == t.since && s.next <= t.next && (s.counter.Some? ==> t.counter.Some? && t.first == s.first)
    && (forall r | r in s.objects :: r in t.objects && Same(s.objects[r], t.objects[r]))
    && (forall r | r in t.objects && r !in s.objects :: s.next <= r)
  }

  lemma GrowsSelf(s: World)
    ensures Grows(s, s)
  {
  }

  lemma GrowsTransitive(s: World, t: World, u: World)
    requires Grows(s, t) && Grows(t, u)
    ensures Grows(s, u)
  {
    hide HasIn;
  }

  lemma TouchGrows(s: World, r: Ref, c: Config, store: map<string, Config>, examples: map<string, Station>)
    requires r in s.objects && Same(s.objects[r], c)
    ensures Grows(s, Touch(s, r, c).(store := store, examples := examples))
  {
  }

  lemma InsertGrows(s: World, n: string)
    requires Inv(s) && n in s.store
    ensures Grows(s, Insert(s, n))
  {
    assert RefsOk(s);
    hide Inv, RefsOk, HasIn;
  }

  lemma LoadGrows(s: World, n: string)
    requires Inv(s)
    ensures Grows(s, Load(s, n)) && Inv(Load(s, n))
  {
    hide Inv, Grows, Insert;
    LoadKeepsInv(s, n);
    GrowsSelf(s);
    if n in s.store {
      InsertGrows(s, n);
    }
  }

  lemma AddGrows(s: World, c: Config)
    requires Inv(s)
    ensures Grows(s, Add(s, c))
  {
    assert RefsOk(s);
    hide Inv, RefsOk, HasIn, WithPorts;
  }

  lemma InstallGrows(s: World, c: Config)
    requires Inv(s)
    ensures Grows(s, Install(s, c).world)
  {
    hide Inv, Grows, Load, Add, Clashes;
    LoadGrows(s, c.name);
    GrowsSelf(s);
    var s1 := Load(s, c.name);
    AddGrows(s1, c);
    GrowsTransitive(s, s1, Add(s1, c));
  }

  lemma {:induction false} LoadAllGrows(s: World, keys: seq<string>)
    requires Inv(s)
    ensures Grows(s, LoadAll(s, keys))
    decreases |keys|
  {
    hide Inv, Grows, Insert;
    GrowsSelf(s);
    if keys != [] {
      if keys[0] in s.store {
        InsertKeepsInv(s, keys[0]);
        InsertGrows(s, keys[0]);
        LoadAllGrows(Insert(s, keys[0]), keys[1..]);
        GrowsTransitive(s, Insert(s, keys[0]), LoadAll(Insert(s, keys[0]), keys[1..]));
      } else {
        LoadAllGrows(s, keys[1..]);
      }
    }
  }

  lemma InstallBaseGrows(s: World)
    requires Inv(s)
    ensures Grows(s, InstallBase(s))
  {
    hide Inv, Grows, Install;
    var c1, c2, c3, c4 := BaseStation(0), BaseStation(1), BaseStation(2), BaseStation(3);
    InstallKeepsInv(s, c1);
    InstallGrows(s, c1);
    var s1 := Install(s, c1).world;
    InstallKeepsInv(s1, c2);
    InstallGrows(s1, c2);
    var s2 := Install(s1, c2).world;
    InstallKeepsInv(s2, c3);
    InstallGrows(s2, c3);
    var s3 := Install(s2, c3).world;
    InstallGrows(s3, c4);
    GrowsTransitive(s, s1, s2);
    GrowsTransitive(s, s2, s3);
    GrowsTransitive(s, s3, Install(s3, c4).world);
  }

  lemma InitializeGrows(s: World, base: int, keys: seq<string>)
    requires Inv(s) && base >= MIN_INT
    ensures Grows(s, Initialize(s, base, keys))
    ensures s.counter.None? ==> Initialize(s, base, keys).first == base
  {
    hide Inv, InstallBase, LoadAll;
    if s.counter.Some? && s.counter.value >= base {
      LoadAllGrows(s, keys);
    } else {
      RaiseCounter(s, base);
      InstallBaseGrows(Raised(s, base));
      GrowsTransitive(s, Raised(s, base), InstallBase(Raised(s, base)));
    }
  }

  lemma {:induction false} DestroyAllGrows(s: World, names: seq<string>)
    requires Inv(s)
    ensures Grows(s, DestroyAll(s, names))
    decreases |names|
  {
    hide Inv, Grows, Rewrite, Runtime, Same;
    GrowsSelf(s);
    if names != [] {
      if Known(s, names[0]) {
        RewriteDestroy(s, names[0]);
        RewriteGrows(s, names[0], Destroy);
        var t := Rewrite(s, names[0], Runtime(Find(s, names[0]), Destroy));
        DestroyAllGrows(t, names[1..]);
        GrowsTransitive(s, t, DestroyAll(t, names[1..]));
      } else {
        DestroyAllGrows(s, names[1..]);
      }
    }
  }

  lemma RewriteGrows(s: World, n: string, to: State)
    requires Known(s, n)
    ensures Grows(s, Rewrite(s, n, Runtime(Find(s, n), to)))
  {
    hide Grows;
    var c := Runtime(Find(s, n), to);
    TouchGrows(s, s.configs[n], c, s.store[n := Stored(c)], s.examples);
  }

  lemma RuntimeGrows(s: World, q: Ref, to: State)
    ensures Grows(s, s) && Grows(s, SetRuntime(s, q, to))
  {
    hide Grows;
    GrowsSelf(s);
    if q in s.objects {
      TouchGrows(s, q, Runtime(s.objects[q], to), s.store, s.examples);
    }
  }

  lemma RuntimeOpsGrow(s: World, q: Ref)
    ensures Grows(s, PauseStation(s, q)) && Grows(s, Resume(s, q)) && Grows(s, Close(s, q))
  {
    hide Grows, Touch, Runtime;
    RuntimeGrows(s, q, Pause);
    RuntimeGrows(s, q, Run);
    RuntimeGrows(s, q, Closing);
  }

  lemma JoinLeftGrow(s: World, st: Station)
    requires st.config in s.objects
    ensures Grows(s, Join(s, st).world) && Grows(s, Left(s, st).world)
  {
    hide Grows;
    GrowsSelf(s);
    var c := s.objects[st.config];
    TouchGrows(s, st.config, Runtime(c, Run), s.store, s.examples[c.name := st]);
    TouchGrows(s, st.config, Runtime(c, Closed), s.store, s.examples - {c.name});
  }

  lemma UpdateGrows(s: World, json: Config)
    requires Inv(s)
    ensures Grows(s, Update(s, json).world)
  {
    hide Inv, Load, Grows;
    LoadGrows(s, json.name);
    var s1 := Load(s, json.name);
    if Known(s1, json.name) {
      var c := Find(s1, json.name);
      var alias := if DISPATCHER < c.kind < SPECIAL then json.alias else c.alias;
      var d := c.(caption := json.caption, description := json.description, alias := alias);
      TouchGrows(s1, s1.configs[json.name], d, s1.store[json.name := Stored(d)], s1.examples);
      GrowsTransitive(s, s1, Rewrite(s1, json.name, d));
    }
  }

  lemma RecoverRemoveGrow(s: World, n: string)
    requires Inv(s)
    ensures Grows(s, Recover(s, n).world) && Grows(s, RemoveStation(s, n).world)
  {
    hide Inv, Load, Grows;
    LoadGrows(s, n);
    var s1 := Load(s, n);
    if Known(s1, n) {
      var c := Find(s1, n);
      TouchGrows(s1, s1.configs[n], c.(state := Init), s1.store[n := Stored(c.(state := Init))], s1.examples);
      GrowsTransitive(s, s1, Rewrite(s1, n, c.(state := Init)));
      EraseGrows(s, s1, n);
    }
  }

  lemma EraseGrows(s: World, s1: World, n: string)
    requires Grows(s, s1)
    ensures Grows(s, Erase(s1, n))
  {
    hide Same;
  }

  lemma StopGrows(s: World, n: string)
    requires Inv(s)
    ensures Grows(s, StopStation(s, n).world)
  {
    hide Inv, Load, Grows, Close;
    LoadGrows(s, n);
    var s1 := Load(s, n);
    if Known(s1, n) {
      var c := Find(s1, n).(state := Stop);
      TouchGrows(s1, s1.configs[n], c, s1.store[n := Stored(c)], s1.examples);
      var s2 := Rewrite(s1, n, c);
      GrowsTransitive(s, s1, s2);
      if n in s2.examples {
        RuntimeOpsGrow(s2, s2.examples[n].config);
        GrowsTransitive(s, s2, Close(s2, s2.examples[n].config));
      }
    }
  }

  predicate IsReset(op: Op) {
    op.DoClear? || op.DoBoot?
  }

  lemma StepGrows(s: World, op: Op)
    requires Inv(s) && Allowed(s, op) && !IsReset(op)
    ensures Grows(s, Apply(s, op))
  {
    hide Inv, Install, Update, Recover, RemoveStation, StopStation, DestroyAll, TypeOf, Load, SetRuntime,
      PauseStation, Resume, Close, Join, Left, Grows;
    GrowsSelf(s);
    match op
    case DoInstallJson(json) =>
      if json.Some? { InstallGrows(s, json.value.(isBase := false)); }
    case DoInstallTyped(name, typeName, shortName, desc) =>
      if TypeOf(typeName).Some? { InstallGrows(s, NewConfig(name, TypeOf(typeName).value, shortName, desc, false)); }
    case DoUpdate(json) => UpdateGrows(s, json);
    case DoRecover(n) => RecoverRemoveGrow(s, n);
    case DoRemove(n) => RecoverRemoveGrow(s, n);
    case DoStop(n) => StopGrows(s, n);
    case DoLoad(n) => LoadGrows(s, n);
    case DoJoin(st) => JoinLeftGrow(s, st);
    case DoLeft(st) => JoinLeftGrow(s, st);
    case DoEnter(q, to) => RuntimeGrows(s, q, to);
    case DoPause(q) => RuntimeOpsGrow(s, q);
    case DoResume(q) => RuntimeOpsGrow(s, q);
    case DoClose(q) => RuntimeOpsGrow(s, q);
    case DoDestroyAll(names) => DestroyAllGrows(s, names);
  }

  lemma {:induction false} RunGrows(s: World, ops: seq<Op>)
    requires Inv(s) && Execute(s, ops).Some? && forall op | op in ops :: !IsReset(op)
    ensures Grows(s, Execute(s, ops).value) && Inv(Execute(s, ops).value)
    decreases |ops|
  {
    hide Inv, Apply, Grows;
    GrowsSelf(s);
    if ops != [] {
      StepGrows(s, ops[0]);
      ApplyKeepsInv(s, ops[0]);
      RunGrows(Apply(s, ops[0]), ops[1..]);
      GrowsTransitive(s, Apply(s, ops[0]), Execute(s, ops).value);
    }
  }

  /** The last number that was taken for the station. */
  function Highest(c: Config): int {
    c.ticket + PortsTaken(c.kind)
  }

  /** Every configuration, also one that a clear has left to its instance, has the casts of its numbers for ports. */
  ghost predicate AllCast(s: World) {
    forall r | r in s.objects :: Ported(s.objects[r], s.objects[r].ticket, Highest(s.objects[r]))
  }

  lemma GrowsKeepsCast(s: World, t: World)
    requires Grows(s, t) && Inv(t) && t.since <= s.next && AllCast(s)
    ensures AllCast(t)
  {
    forall r | r in t.objects
      ensures Ported(t.objects[r], t.objects[r].ticket, Highest(t.objects[r]))
    {
      if r !in s.objects {
        assert t.objects[r] in Records(t);
        assert Ported(t.objects[r], t.first, t.counter.value);
      }
    }
  }

  lemma StepKeepsCast(s: World, op: Op)
    requires Inv(s) && Allowed(s, op) && AllCast(s)
    ensures AllCast(Apply(s, op))
  {
    ApplyKeepsInv(s, op);
    assert s.since <= s.next;
    if op.DoBoot? {
      ForgetKeepsInv(s);
      hide Inv, Initialize;
      InitializeGrows(Forgotten(s), op.base, op.keys);
      GrowsKeepsCast(Forgotten(s), Apply(s, op));
    } else if op.DoClear? {
      ClearGrows(s, op.base);
      hide Inv, Initialize;
      GrowsKeepsCast(Emptied(s), Apply(s, op));
    } else {
      hide Inv, Apply, Grows;
      StepGrows(s, op);
      assert Apply(s, op).since == s.since by { assert Grows(s, Apply(s, op)); GrowsSince(s, Apply(s, op)); }
      GrowsKeepsCast(s, Apply(s, op));
    }
  }

  lemma GrowsSince(s: World, t: World)
    requires Grows(s, t)
    ensures t.since == s.since
  {
  }

  lemma ClearGrows(s: World, base: int)
    requires Inv(s) && MIN_INT <= base
    ensures Grows(Emptied(s), Clear(s, base)) && Clear(s, base).first == base && Clear(s, base).since == s.next
  {
    var t := Emptied(s);
    assert Records(t) == {};
    assert Inv(t);
    hide Inv, Initialize;
    InitializeGrows(t, base, []);
  }

  lemma {:induction false} RunKeepsCast(s: World, ops: seq<Op>)
    requires Inv(s) && AllCast(s) && Execute(s, ops).Some?
    ensures AllCast(Execute(s, ops).value) && Inv(Execute(s, ops).value)
    decreases |ops|
  {
    hide Inv, Apply, AllCast;
    if ops != [] {
      ApplyKeepsInv(s, ops[0]);
      StepKeepsCast(s, ops[0]);
      RunKeepsCast(Apply(s, ops[0]), ops[1..]);
    }
  }

  // ---------- A run of installs that reaches any number ----------

  /** Names of their own length, longer than those of the base stations. */
  function LongName(k: nat): string {
    seq(100 + 2 * k, _ => 'n')
  }

  function LongShort(k: nat): string {
    seq(101 + 2 * k, _ => 'n')
  }

  function Filler(k: nat): Config {
    Publisher(LongName(k), LongShort(k))
  }

  predicate ShortNames(c: Config, k: nat) {
    |c.name| < 100 + 2 * k && |c.shortName| < 100 + 2 * k && c.alias == []
  }

  /** The base stations and `k` fillers are stored and loaded, and nothing else. */
  ghost predicate Filled(s: World, base: int, k: nat) {
    && Inv(s) && s.counter == Some(base + 8 + 2 * k)
    && (forall n | n in s.store :: Known(s, n) && Stored(Find(s, n)) == s.store[n])
    && (forall n | n in s.store :: ShortNames(s.store[n], k))
  }

  lemma LongIsFree(c: Config, k: nat)
    requires ShortNames(c, k)
    ensures c.name != LongName(k) && !Owns(c, LongShort(k))
  {
    FoldDiffers(c.name, LongShort(k));
    FoldDiffers(c.shortName, LongShort(k));
    hide Fold;
  }

  lemma FillerFits(s: World, base: int, k: nat)
    requires Filled(s, base, k)
    ensures LongName(k) !in s.store && forall n | n in s.store :: !Owns(s.store[n], LongShort(k))
  {
    assert StoreOk(s);
    hide Inv, Owns, LongName, LongShort, Known, Find, Stored;
    forall n | n in s.store
      ensures n != LongName(k) && !Owns(s.store[n], LongShort(k))
    {
      LongIsFree(s.store[n], k);
    }
  }

  lemma FillerConfig(k: nat)
    ensures var c := Filler(k);
      && c.name == LongName(k) && c.shortName == LongShort(k) && c.name != "" && !c.isBase && c.kind == PUBLISH
      && forall p :: ShortNames(Stored(WithPorts(c, p)), k + 1)
  {
    hide ToInt;
  }

  lemma FillerEffect(s: World, base: int, k: nat)
    requires Filled(s, base, k)
    ensures var t := Add(s, Filler(k));
      && t.counter == Some(base + 8 + 2 * (k + 1)) && (forall n | n in t.store :: ShortNames(t.store[n], k + 1))
      && LongName(k) in t.store && t.store[LongName(k)].ticket == base + 8 + 2 * k && t.store[LongName(k)].kind == PUBLISH
  {
    FillerConfig(k);
    AddEffect(s, Filler(k));
    hide Inv, Known, Find, Add, Filler, LongName, LongShort, ToInt;
    forall n | n in s.store
      ensures ShortNames(s.store[n], k + 1)
    {
      assert ShortNames(s.store[n], k);
    }
  }

  /** One more filler takes the next two numbers. */
  lemma FillerInstalled(s: World, base: int, k: nat)
    requires Filled(s, base, k)
    ensures var t := InstallJson(s, Some(Filler(k))).world;
      Filled(t, base, k + 1) && LongName(k) in t.store && t.store[LongName(k)].ticket == base + 8 + 2 * k
      && t.store[LongName(k)].kind == PUBLISH
  {
    FillerConfig(k);
    assert InstallJson(s, Some(Filler(k))).world == Install(s, Filler(k)).world;
    FillerFits(s, base, k);
    FillerEffect(s, base, k);
    hide Inv, Owns, Known, Find, Add, Filler, LongName, LongShort, ShortNames, InstallJson, Install, Stored;
    InstallFresh(s, Filler(k));
  }

  function Fillers(i: nat, k: nat): (ops: seq<Op>)
    requires i <= k
    ensures forall op | op in ops :: !IsReset(op)
    decreases k - i
  {
    if i == k then [] else [DoInstallJson(Some(Filler(i)))] + Fillers(i + 1, k)
  }

  lemma {:induction false} FillersRun(s: World, base: int, i: nat, k: nat)
    requires Filled(s, base, i) && i <= k
    ensures var r := Execute(s, Fillers(i, k));
      r.Some? && Filled(r.value, base, k)
      && (i < k ==> LongName(k - 1) in r.value.store && r.value.store[LongName(k - 1)].ticket == base + 6 + 2 * k
                    && r.value.store[LongName(k - 1)].kind == PUBLISH)
    decreases k - i
  {
    hide Filled, LongName, Filler, InstallJson, Apply;
    if i < k {
      var c, ops := Filler(i), Fillers(i, k);
      assert ops[0] == DoInstallJson(Some(c)) && ops[1..] == Fillers(i + 1, k);
      FillerInstalled(s, base, i);
      ApplyInstall(s, c);
      ExecuteOne(s, ops);
      FillersRun(InstallJson(s, Some(c)).world, base, i + 1, k);
    }
  }

  lemma BaseFilled(s: World, base: int)
    requires BaseInstalled(s, 4, base)
    ensures Filled(s, base, 0)
  {
    hide Inv, BaseStore, BaseStation, WithPorts, Known, Find, Stored;
    forall n | n in s.store
      ensures ShortNames(s.store[n], 0)
    {
      InBaseStore(4, base, n);
      var j :| 0 <= j < 4 && n == BaseStation(j).name && BaseStore(4, base)[n] == WithPorts(BaseStation(j), base + 2 * j);
      BaseNamesAreShort(j, base + 2 * j);
    }
  }

  lemma BaseNamesAreShort(j: nat, p: int)
    requires j < 4
    ensures ShortNames(WithPorts(BaseStation(j), p), 0)
  {
    hide ToInt;
  }

  /** The counter up to which a run has to go that reaches the number. */
  function Reach(base: int, p: int): nat
    requires base < p
  {
    if p <= base + 8 then 0 else (p - base - 7) / 2
  }

  /** After a clear, some run gives any number above the base port to a station, with the counter no further than needed. */
  lemma NumberReached(s: World, base: int, p: int)
    requires BaseInstalled(s, 4, base) && base < p
    ensures var r := Execute(s, Fillers(0, Reach(base, p)));
      && r.Some? && r.value.counter == Some(base + 8 + 2 * Reach(base, p))
      && exists n :: n in r.value.store && p in Numbers(r.value.store[n])
  {
    hide BaseInstalled, Execute;
    var k := Reach(base, p);
    if k == 0 {
      NoFillers(s);
      InstalledFacts(s, base);
      BaseReaches(s.store, base, p);
    } else {
      BaseFilled(s, base);
      FillersRun(s, base, 0, k);
      hide Inv, LongName;
      var u := Execute(s, Fillers(0, k)).value;
      assert p in Numbers(u.store[LongName(k - 1)]);
    }
  }

  lemma NoFillers(s: World)
    ensures Execute(s, Fillers(0, 0)) == Some(s)
  {
    hide Allowed, Apply;
  }

  lemma BaseReaches(store: map<string, Config>, base: int, p: int)
    requires store == BaseStore(4, base) && base < p <= base + 8
    ensures exists n :: n in store && p in Numbers(store[n])
  {
    var j := (p - base - 1) / 2;
    hide *;
    BaseAt(4, j, base);
    BaseNumbers(j, base + 2 * j);
    assert p in Numbers(store[BaseStation(j).name]);
  }

  lemma BaseNumbers(j: nat, p: int)
    requires j < 4
    ensures Numbers(WithPorts(BaseStation(j), p)) == {p + 1, p + 2}
  {
    hide ToInt;
  }

  // ---------- When a kept instance keeps its ports to itself ----------

  function Lower(a: int, b: int): int {
    if a < b then a else b
  }

  /** Nothing stored shares a port with the instance, as long as the numbers in use are within 2^32. */
  ghost predicate KeptApart(u: World, r: Ref, lowest: int) {
    u.counter.Some? && u.counter.value - lowest <= SPAN ==>
      r in u.objects && forall n | n in u.store :: Ports(u.objects[r]) !! Ports(u.store[n])
  }

  /** Whatever runs after a clear to this base port, restarts and further clears apart, the instance keeps its ports to itself. */
  ghost predicate Separate(s: World, base: int, r: Ref)
    requires r in s.objects
  {
    forall ops | (forall op | op in ops :: !IsReset(op)) && Execute(Clear(s, base), ops).Some? ::
      KeptApart(Execute(Clear(s, base), ops).value, r, Lower(base, s.objects[r].ticket))
  }

  lemma PortedWider(c: Config, first: int, counter: int, first': int, counter': int)
    requires Ported(c, first, counter) && first' <= first && counter <= counter'
    ensures Ported(c, first', counter')
  {
    hide ToInt;
  }

  /** The instance's ports and those of whatever is stored, after a clear and a run. */
  lemma AfterClear(s: World, base: int, r: Ref, ops: seq<Op>)
    requires Inv(s) && AllCast(s) && r in s.objects && MIN_INT <= base <= MAX_INT
    requires Execute(Clear(s, base), ops).Some? && forall op | op in ops :: !IsReset(op)
    ensures var u := Execute(Clear(s, base), ops).value;
      && r in u.objects && Same(s.objects[r], u.objects[r])
      && Ported(u.objects[r], s.objects[r].ticket, Highest(s.objects[r])) && Highest(u.objects[r]) == Highest(s.objects[r])
      && u.counter.Some? && forall n | n in u.store :: Ported(u.store[n], base, u.counter.value)
  {
    var t := Clear(s, base);
    ClearKeepsInv(s, base);
    ClearGrows(s, base);
    GrowsKeepsCast(Emptied(s), t);
    ClearInstalls(s, base);
    hide Inv, Clear, AllCast, Grows, BaseStore;
    RunGrows(t, ops);
    RunKeepsCast(t, ops);
    var u := Execute(t, ops).value;
    hide Execute, BaseInstalled;
    GrownObject(Emptied(s), t, r);
    GrownObject(t, u, r);
    hide Same, Ported;
    StoredPorted(u);
  }

  lemma GrownObject(s: World, t: World, r: Ref)
    requires Grows(s, t) && AllCast(t) && r in s.objects
    ensures r in t.objects && Same(s.objects[r], t.objects[r])
    ensures Ported(t.objects[r], s.objects[r].ticket, Highest(s.objects[r])) && Highest(t.objects[r]) == Highest(s.objects[r])
    ensures s.counter.Some? ==> t.counter.Some? && t.first == s.first
  {
    hide ToInt;
  }

  lemma StoredPorted(s: World)
    requires Inv(s) && s.counter.Some?
    ensures forall n | n in s.store :: Ported(s.store[n], s.first, s.counter.value)
  {
    InvGivesRecords(s);
    hide Inv, Records, Ported, Same, InTurn;
  }

  lemma LaterIsApart(a: Config, b: Config, base: int, counter: int)
    requires Ported(a, a.ticket, Highest(a)) && Ported(b, base, counter) && Highest(a) <= base && counter - a.ticket <= SPAN
    ensures Ports(a) !! Ports(b)
  {
    PortedWider(a, a.ticket, Highest(a), a.ticket, counter);
    PortedWider(b, base, counter, a.ticket, counter);
    NoCollision(a, b, a.ticket, counter);
    hide Ports, Collide, Ported;
    SharedIff(a, b, a.ticket, counter);
  }

  lemma NumberShared(a: Config, b: Config, p: int, base: int, counter: int)
    requires Ported(a, a.ticket, Highest(a)) && Ported(b, base, counter) && p in Numbers(b) && (Highest(a) - p) % SPAN == 0
    ensures !(Ports(a) !! Ports(b))
  {
    var low, high := Lower(base, a.ticket), -Lower(-counter, -Highest(a));
    PortedWider(a, a.ticket, Highest(a), low, high);
    PortedWider(b, base, counter, low, high);
    assert Highest(a) in Numbers(a);
    hide Ported, Ports, Numbers;
    SharedIff(a, b, low, high);
  }

  /** The number closest above the base port whose port is the instance's last one. */
  function Twin(base: int, p: int): int {
    base + 1 + (p - base - 1) % SPAN
  }

  lemma TwinCollides(base: int, p: int)
    ensures base < Twin(base, p) <= base + SPAN && (p - Twin(base, p)) % SPAN == 0
    ensures base < p <= base + SPAN ==> Twin(base, p) == p
  {
  }

  lemma ReachIsNear(base: int, c: Config)
    requires base < Highest(c)
    ensures base < Twin(base, Highest(c))
    ensures base + 8 + 2 * Reach(base, Twin(base, Highest(c))) - Lower(base, c.ticket) <= SPAN
  {
    TwinCollides(base, Highest(c));
    if c.ticket < base {
      assert Twin(base, Highest(c)) == Highest(c) <= base + 2;
    }
  }

  lemma SeparateWhenAbove(s: World, base: int, r: Ref)
    requires Inv(s) && AllCast(s) && r in s.objects && MIN_INT <= base <= MAX_INT && Highest(s.objects[r]) <= base
    ensures Separate(s, base, r)
  {
    hide Inv, AllCast, Clear, Execute, Ported, Ports;
    forall ops | (forall op | op in ops :: !IsReset(op)) && Execute(Clear(s, base), ops).Some?
      ensures KeptApart(Execute(Clear(s, base), ops).value, r, Lower(base, s.objects[r].ticket))
    {
      AfterClear(s, base, r, ops);
      var u := Execute(Clear(s, base), ops).value;
      if u.counter.value - Lower(base, s.objects[r].ticket) <= SPAN {
        forall n | n in u.store
          ensures Ports(u.objects[r]) !! Ports(u.store[n])
        {
          LaterIsApart(u.objects[r], u.store[n], base, u.counter.value);
        }
      }
    }
  }

  /** The run after the clear that gives a station the number with the instance's last port. */
  function TwinRun(base: int, p: int): (ops: seq<Op>)
    ensures forall op | op in ops :: !IsReset(op)
  {
    TwinCollides(base, p);
    Fillers(0, Reach(base, Twin(base, p)))
  }

  lemma ReachedAfterClear(s: World, base: int, p: int)
    requires Inv(s) && MIN_INT <= base < p
    ensures var t := Execute(Clear(s, base), Fillers(0, Reach(base, p)));
      && t.Some? && t.value.counter == Some(base + 8 + 2 * Reach(base, p))
      && exists n :: n in t.value.store && p in Numbers(t.value.store[n])
  {
    hide Inv, Clear, BaseStore;
    ClearInstalls(s, base);
    hide *;
    NumberReached(Clear(s, base), base, p);
  }

  lemma TwinReached(s: World, base: int, p: int) returns (n: string)
    requires Inv(s) && MIN_INT <= base < Twin(base, p)
    ensures var t := Execute(Clear(s, base), TwinRun(base, p));
      && t.Some? && t.value.counter == Some(base + 8 + 2 * Reach(base, Twin(base, p)))
      && n in t.value.store && Twin(base, p) in Numbers(t.value.store[n])
  {
    hide Inv, Clear, Execute, Twin, Reach, Fillers, Numbers;
    ReachedAfterClear(s, base, Twin(base, p));
    var u := Execute(Clear(s, base), TwinRun(base, p)).value;
    n :| n in u.store && Twin(base, p) in Numbers(u.store[n]);
  }

  lemma SharedAfterClear(s: World, base: int, r: Ref, ops: seq<Op>, n: string)
    requires Inv(s) && AllCast(s) && r in s.objects && MIN_INT <= base <= MAX_INT
    requires Execute(Clear(s, base), ops).Some? && forall op | op in ops :: !IsReset(op)
    requires var u := Execute(Clear(s, base), ops).value; n in u.store && Twin(base, Highest(s.objects[r])) in Numbers(u.store[n])
    ensures var u := Execute(Clear(s, base), ops).value; r in u.objects && !(Ports(u.objects[r]) !! Ports(u.store[n]))
  {
    hide Inv, AllCast, Clear, Execute, Ported, Ports, Twin, Numbers, IsReset;
    AfterClear(s, base, r, ops);
    TwinCollides(base, Highest(s.objects[r]));
    var u := Execute(Clear(s, base), ops).value;
    NumberShared(u.objects[r], u.store[n], Twin(base, Highest(s.objects[r])), base, u.counter.value);
  }

  lemma SharedWhenBelow(s: World, base: int, r: Ref)
    requires Inv(s) && AllCast(s) && r in s.objects && MIN_INT <= base <= MAX_INT && base < Highest(s.objects[r])
    ensures !Separate(s, base, r)
  {
    var p := Highest(s.objects[r]);
    var ops := TwinRun(base, p);
    ReachIsNear(base, s.objects[r]);
    hide *;
    var n := TwinReached(s, base, p);
    SharedAfterClear(s, base, r, ops, n);
    NotSeparate(s, base, r, ops, n);
  }

  lemma NotSeparate(s: World, base: int, r: Ref, ops: seq<Op>, n: string)
    requires r in s.objects && Execute(Clear(s, base), ops).Some? && forall op | op in ops :: !IsReset(op)
    requires var u := Execute(Clear(s, base), ops).value;
      && u.counter.Some? && u.counter.value - Lower(base, s.objects[r].ticket) <= SPAN
      && r in u.objects && n in u.store && !(Ports(u.objects[r]) !! Ports(u.store[n]))
    ensures !Separate(s, base, r)
  {
    hide Execute, Clear, IsReset, Ports;
    assert !KeptApart(Execute(Clear(s, base), ops).value, r, Lower(base, s.objects[r].ticket));
  }

  /**
    After any run from a blank store and a clear, an instance that was left running keeps its ports to itself, whatever is
    done next short of a restart or another clear and as long as the numbers in use are within 2^32, exactly when the
    base port is at or above the last number that was taken for it.
   */
  lemma ClearSeparatesIff(before: seq<Op>, base: int, r: Ref)
    requires Execute(BLANK, before).Some? && r in Execute(BLANK, before).value.objects && MIN_INT <= base <= MAX_INT
    ensures var s := Execute(BLANK, before).value; Separate(s, base, r) <==> Highest(s.objects[r]) <= base
  {
    BlankInv();
    hide Inv, Execute, Separate, AllCast;
    assert AllCast(BLANK) by { BlankCast(); }
    RunKeepsCast(BLANK, before);
    var s := Execute(BLANK, before).value;
    if Highest(s.objects[r]) <= base {
      SeparateWhenAbove(s, base, r);
    } else {
      SharedWhenBelow(s, base, r);
    }
  }

  lemma BlankCast()
    ensures AllCast(BLANK)
  {
  }

  /**
    Clearing to the base port the centre started from, or a lower one, never keeps the ports of any of its instances
    apart; clearing to the counter as it stands always does.
   */
  lemma ClearAtStartOrCounter(before: seq<Op>, base: int, r: Ref)
    requires Execute(BLANK, before).Some? && r in Execute(BLANK, before).value.objects && MIN_INT <= base <= MAX_INT
    requires Execute(BLANK, before).value.since <= r
    ensures var s := Execute(BLANK, before).value;
      s.counter.Some? && (base <= s.first ==> !Separate(s, base, r)) && (s.counter.value <= base ==> Separate(s, base, r))
  {
    BlankInv();
    hide Inv, Execute, Separate, Ported;
    RunKeepsInv(BLANK, before);
    ClearSeparatesIff(before, base, r);
    ObjectPorted(Execute(BLANK, before).value, r);
  }

  lemma ObjectPorted(s: World, r: Ref)
    requires Inv(s) && r in s.objects && s.since <= r
    ensures s.counter.Some? && s.first < Highest(s.objects[r]) <= s.counter.value
  {
    assert s.objects[r] in Records(s);
    assert Ported(s.objects[r], s.first, s.counter.value);
  }

  /**
    A full clear under a running instance: the next new station gets the ports the instance still uses, at any base port.
   */
  lemma ClearReusesPorts(base: int)
    requires MIN_INT <= base <= MAX_INT
    ensures var st := Station(0, Boot(BLANK, base, []).next);
      var r := Execute(BLANK, [DoBoot(base, []), DoInstallJson(Some(Publisher("x", "y"))), DoJoin(st), DoClear(base),
                               DoInstallJson(Some(Publisher("z", "w")))]);
      && r.Some? && "x" in r.value.examples && st.config in r.value.objects && r.value.examples["x"] == st
      && IsRun(r.value.objects[st.config].state) && "z" in r.value.store
      && Ports(r.value.objects[st.config]) == Ports(r.value.store["z"])
  {
    hide Inv, Boot, InstallJson, BaseStore, WithPorts, Execute, Add, Publisher, Allowed, Apply, Install, Stored, BaseInstalled, Clear, Join;
    var s1 := Boot(BLANK, base, []);
    var st := Station(0, s1.next);
    FirstBootInstalls(base);
    JoinedPublisher(s1, base, st);
    var s2 := InstallJson(s1, Some(Publisher("x", "y"))).world;
    var s3 := Join(s2, st).world;
    ClearInstalls(s3, base);
    ClearKeepsObjects(s3, base, st.config);
    var s4 := Clear(s3, base);
    LastPublisher(s4, base, st.config);
    ApplyBoot(BLANK, base, []);
    ApplyInstall(s1, Publisher("x", "y"));
    ApplyJoin(s2, st);
    ApplyClear(s3, base);
    ApplyInstall(s4, Publisher("z", "w"));
    var ops := [DoBoot(base, []), DoInstallJson(Some(Publisher("x", "y"))), DoJoin(st), DoClear(base), DoInstallJson(Some(Publisher("z", "w")))];
    ExecuteOne(BLANK, ops);
    ExecuteOne(s1, ops[1..]);
    ExecuteOne(s2, ops[1..][1..]);
    ExecuteOne(s3, ops[1..][1..][1..]);
    ExecuteOne(s4, ops[1..][1..][1..][1..]);
    assert ops[1..][1..][1..][1..][1..] == [];
  }

  lemma JoinedPublisher(s: World, base: int, st: Station)
    requires BaseInstalled(s, 4, base) && s.examples == map[] && st.config == s.next
    ensures var t := InstallJson(s, Some(Publisher("x", "y"))).world;
      && Inv(t) && st.config in t.objects
      && Inv(Join(t, st).world) && Join(t, st).world.examples == map["x" := st]
      && st.config in Join(t, st).world.objects
      && Join(t, st).world.objects[st.config] == WithPorts(Publisher("x", "y"), base + 8).(state := Run)
  {
    PublisherInstalled(s, base, "x", "y");
    var t := InstallJson(s, Some(Publisher("x", "y"))).world;
    assert t.examples == s.examples;
    JoinLeftKeepInv(t, st);
    hide Inv, Install, BaseStore, ToInt;
  }

  lemma LastPublisher(s: World, base: int, r: Ref)
    requires BaseInstalled(s, 4, base) && r in s.objects
    requires s.objects[r] == WithPorts(Publisher("x", "y"), base + 8).(state := Run)
    ensures var t := InstallJson(s, Some(Publisher("z", "w"))).world;
      && r in t.objects && t.objects[r] == s.objects[r] && t.examples == s.examples
      && "z" in t.store && Ports(t.store["z"]) == Ports(s.objects[r]) && IsRun(s.objects[r].state)
  {
    PublisherInstalled(s, base, "z", "w");
    assert RefsOk(s);
    hide Inv, Install, InstallJson, BaseStore, ToInt;
  }

  lemma ApplyJoin(s: World, st: Station)
    requires st.config in s.objects
    ensures Allowed(s, DoJoin(st)) && Apply(s, DoJoin(st)) == Join(s, st).world
  {
    hide Join;
  }

  lemma ApplyClear(s: World, base: int)
    requires MIN_INT <= base <= MAX_INT
    ensures Allowed(s, DoClear(base)) && Apply(s, DoClear(base)) == Clear(s, base)
  {
    hide Clear;
  }

  /** What shutting down saves: every loaded station that is named is destroyed, or still stopped, in memory and in the store. */
  lemma {:induction false} DestroyAllSaves(s: World, names: seq<string>, n: string)
    requires Inv(s) && n in s.configs
    requires n in names || (Known(s, n) && n in s.store && s.store[n] == Stored(Find(s, n)) && IsDown(Find(s, n).state))
    ensures var t := DestroyAll(s, names);
      Known(t, n) && n in t.store && t.store[n] == Stored(Find(t, n)) && IsDown(Find(t, n).state)
    decreases |names|
  {
    if names != [] {
      LoadedFacts(s, n);
      if Known(s, names[0]) {
        RewriteDestroy(s, names[0]);
        RewriteOther(s, names[0], Runtime(Find(s, names[0]), Destroy), n);
        hide Inv, Rewrite;
        DestroyAllSaves(Rewrite(s, names[0], Runtime(Find(s, names[0]), Destroy)), names[1..], n);
      } else {
        hide Inv;
        DestroyAllSaves(s, names[1..], n);
      }
    }
  }

  predicate IsDown(state: State) {
    state.Destroy? || state.Stop?
  }

  lemma RewriteOther(s: World, m: string, c: Config, n: string)
    requires LoadedOk(s) && n in s.configs && m in s.configs
    ensures var t := Rewrite(s, m, c);
      && n in t.configs && Known(t, n) && n in t.store
      && (m == n ==> Find(t, n) == c && t.store[n] == Stored(c))
      && (m != n ==> Find(t, n) == Find(s, n) && t.store[n] == s.store[n])
  {
  }

  /** Pausing and resuming a running station cancel out, and neither does anything from another state. */
  lemma PauseResume(s: World, r: Ref)
    requires r in s.objects
    ensures s.objects[r].state.Run? ==> Resume(PauseStation(s, r), r) == s && PauseStation(s, r).objects[r].state.Pause?
    ensures s.objects[r].state.Pause? ==> PauseStation(Resume(s, r), r) == s && Resume(s, r).objects[r].state.Run?
    ensures !s.objects[r].state.Run? ==> PauseStation(s, r) == s
    ensures !s.objects[r].state.Pause? ==> Resume(s, r) == s
  {
    assert s.objects[r := s.objects[r]] == s.objects;
    if s.objects[r].state.Run? {
      assert Resume(PauseStation(s, r), r).objects == s.objects;
    }
    if s.objects[r].state.Pause? {
      assert PauseStation(Resume(s, r), r).objects == s.objects;
    }
  }

  // ---------- What changes the state of an instance ----------

  /** The configuration at `r` takes this state, unless it is stopped; nothing else changes. */
  ghost predicate Enters(s: World, t: World, r: Ref, to: State)
    requires r in s.objects
  {
    && t == s.(objects := t.objects) && t.objects.Keys == s.objects.Keys
    && (forall q | q in s.objects && q != r :: t.objects[q] == s.objects[q])
    && t.objects[r] == s.objects[r].(state := if s.objects[r].state.Stop? then Stop else to)
  }

  /** Closing works from a running or a paused station, and then its pump begins no further round; from elsewhere it does nothing. */
  lemma CloseEndsRounds(s: World, r: Ref, netRuning: bool)
    requires r in s.objects
    ensures var running := s.objects[r].state.Run? || s.objects[r].state.Pause?;
      && (running ==> Enters(s, Close(s, r), r, Closing) && Close(s, r).objects[r].state.Closing? && !CanDo(Close(s, r), r, netRuning))
      && (!running ==> Close(s, r) == s)
  {
    assert s.objects[r := s.objects[r]] == s.objects;
  }

  /** Every state that is entered is entered on this configuration alone, unless it is stopped; a pause or a resume only from its own. */
  lemma StateEntered(s: World, r: Ref, to: State)
    requires r in s.objects
    ensures Enters(s, SetRuntime(s, r, to), r, to)
    ensures s.objects[r].state.Run? ==> Enters(s, PauseStation(s, r), r, Pause)
    ensures s.objects[r].state.Pause? ==> Enters(s, Resume(s, r), r, Run)
    ensures forall net :: CanDo(SetRuntime(s, r, to), r, net) <==>
                          net && !s.objects[r].state.Stop? && (to.Start? || to.Run? || to.Pause?)
  {
  }

  /** A join registers the instance and sets it running, a left takes it out and sets it closed; both concern one name and one configuration. */
  lemma JoinLeftEffect(s: World, st: Station)
    requires st.config in s.objects
    ensures var n := s.objects[st.config].name;
      && (Join(s, st).ok <==> n !in s.examples) && (Left(s, st).ok <==> n in s.examples && s.examples[n] == st)
      && (Join(s, st).ok ==> Enters(s.(examples := s.examples[n := st]), Join(s, st).world, st.config, Run))
      && (Left(s, st).ok ==> Enters(s.(examples := s.examples - {n}), Left(s, st).world, st.config, Closed))
      && (!Join(s, st).ok ==> Join(s, st).world == s) && (!Left(s, st).ok ==> Left(s, st).world == s)
  {
  }

  /**
    A successful stop ends the rounds of the instance that is registered under the name, unless that instance runs an older
    configuration than the loaded one and has not got beyond starting.
   */
  lemma StopEndsRounds(s: World, n: string)
    requires Inv(s) && StopStation(s, n).ok && n in s.examples
    ensures var t, r := StopStation(s, n).world, s.examples[n].config;
      && r in s.objects && n in t.configs && t.examples == s.examples
      && (CanDo(t, r, true) <==> r != t.configs[n] && s.objects[r].state.Start?)
  {
    LoadKeepsInv(s, n);
    LoadFinds(s, n);
    LoadKeepsObjects(s, n);
    assert ExamplesOk(s);
    hide Inv, Load, Agree;
  }

  lemma LoadKeepsObjects(s: World, n: string)
    requires Inv(s)
    ensures var t := Load(s, n); t.examples == s.examples && forall r | r in s.objects :: r in t.objects && t.objects[r] == s.objects[r]
  {
    assert RefsOk(s);
    hide Inv;
  }

  lemma InstalledFacts(s: World, base: int)
    requires BaseInstalled(s, 4, base)
    ensures s.counter == Some(base + 8) && s.store == BaseStore(4, base)
  {
  }

  // ---------- The code ----------

  class Registry {
    var objects: map<Ref, Config>
    var configs: map<string, Ref>
    var examples: map<string, Station>
    var store: map<string, Config>
    var counter: Option<int>
    var next: Ref
    var since: Ref
    var first: int

    constructor ()
      ensures Value() == BLANK
    {
      objects, configs, examples, store, counter, next, since, first := map[], map[], map[], map[], None, 0, 0, 0;
    }

    function Value(): World
      reads this
    {
      World(objects, configs, examples, store, counter, next, since, first)
    }

    method New(c: Config) returns (r: Ref)
      modifies `objects, `next
      ensures r == old(next) && next == old(next) + 1 && objects == old(objects)[r := c]
    {
      r := next;
      objects := objects[r := c];
      next := next + 1;
    }

    method GetConfig(n: string) returns (found: Option<Ref>)
      modifies this
      ensures Value() == Load(old(Value()), n)
      ensures found == if n in configs then Some(configs[n]) else None
    {
      if n in configs {
        return Some(configs[n]);
      }
      if n in store {
        var r := New(store[n]);
        configs := configs[n := r];
        return Some(r);
      }
      found := None;
    }

    /** `INCR`: a missing counter counts from zero. */
    method Incr() returns (port: int)
      modifies `counter
      ensures port == CounterOf(old(Value())) + 1 && counter == Some(port)
    {
      port := (if counter.Some? then counter.value else 0) + 1;
      counter := Some(port);
    }

    /** The scan of the loaded stations, in any order. */
    method ShortNameTaken(shortName: string) returns (failed: bool)
      requires LoadedOk(Value())
      ensures failed <==> Clashes(Value(), shortName)
    {
      failed := false;
      var todo := configs.Keys;
      while todo != {} && !failed
        invariant todo <= configs.Keys
        invariant failed ==> Clashes(Value(), shortName)
        invariant !failed ==> forall n | n in configs && n !in todo :: !Owns(Find(Value(), n), shortName)
        decreases todo, !failed
      {
        var n :| n in todo;
        if Owns(objects[configs[n]], shortName) {
          assert Known(Value(), n);
          failed := true;
        }
        todo := todo - {n};
      }
    }

    method AllocatePorts(c: Config) returns (r: Config)
      modifies `counter, `first
      ensures r == WithPorts(c, CounterOf(old(Value()))) && counter == Some(CounterOf(old(Value())) + PortsTaken(c.kind))
      ensures first == if old(counter).Some? then old(first) else 0
    {
      r := c.(ticket := CounterOf(Value()));
      if counter.None? {
        first := 0;
      }
      var port := Incr();
      r := r.(requestPort := ToInt(port));
      port := Incr();
      r := r.(outPort := ToInt(port));
      if r.kind == API || r.kind == VOTE || r.kind == ROUTE_API {
        port := Incr();
        r := r.(inPort := ToInt(port));
      }
    }

    method InstallConfig(c: Config) returns (ok: bool)
      requires Inv(Value())
      modifies this
      ensures Answer(Value(), ok) == Install(old(Value()), c)
    {
      if c.name == "" {
        return false;
      }
      LoadKeepsInv(Value(), c.name);
      InvLoaded(Load(Value(), c.name));
      hide Inv, LoadedOk, WithPorts;
      var found := GetConfig(c.name);
      if found.Some? {
        return false;
      }
      var failed := ShortNameTaken(c.shortName);
      if failed {
        return false;
      }
      var c1 := AllocatePorts(c);
      store := store[c1.name := Stored(c1)];
      var r := New(c1);
      configs := configs[c1.name := r];
      ok := true;
    }

    /** Loading what the scan returned, key by key. */
    method LoadStored(keys: seq<string>)
      modifies this
      ensures Value() == LoadAll(old(Value()), keys)
    {
      var i := 0;
      while i < |keys|
        invariant 0 <= i <= |keys|
        invariant LoadAll(Value(), keys[i..]) == LoadAll(old(Value()), keys)
      {
        assert keys[i..][0] == keys[i] && keys[i..][1..] == keys[i + 1..];
        if keys[i] in store {
          var r := New(store[keys[i]]);
          configs := configs[keys[i] := r];
        }
        i := i + 1;
      }
    }

    method InitializeAll(base: int, keys: seq<string>)
      requires Inv(Value()) && base >= MIN_INT
      modifies this
      ensures Value() == Initialize(old(Value()), base, keys)
    {
      if counter.Some? && counter.value >= base {
        LoadStored(keys);
      } else {
        RaiseCounter(Value(), base);
        if counter.None? {
          first := base;
        }
        counter := Some(base);
        InstallBaseStations();
      }
    }

    method InstallBaseStations()
      requires Inv(Value())
      modifies this
      ensures Value() == InstallBase(old(Value()))
    {
      hide Inv, Install;
      InstallKeepsInv(Value(), BaseStation(0));
      var ok := InstallConfig(BaseStation(0));
      InstallKeepsInv(Value(), BaseStation(1));
      ok := InstallConfig(BaseStation(1));
      InstallKeepsInv(Value(), BaseStation(2));
      ok := InstallConfig(BaseStation(2));
      InstallKeepsInv(Value(), BaseStation(3));
      ok := InstallConfig(BaseStation(3));
    }

    method SaveConfig(r: Ref)
      requires r in objects
      modifies `store
      ensures store == old(store)[objects[r].name := Stored(objects[r])]
    {
      store := store[objects[r].name := Stored(objects[r])];
    }

    method CloseInstance(r: Ref)
      requires r in objects
      modifies `objects
      ensures Value() == Close(old(Value()), r)
    {
      var state := objects[r].state;
      if !state.Run? && !state.Pause? && !state.Stop? {
        return;
      }
      if !state.Stop? {
        objects := objects[r := objects[r].(state := Closing)];
      } else {
        assert objects[r := objects[r]] == objects;
      }
    }

    method Stop(n: string) returns (ok: bool)
      requires Inv(Value())
      modifies this
      ensures Answer(Value(), ok) == StopStation(old(Value()), n)
    {
      LoadKeepsInv(Value(), n);
      var found := GetConfig(n);
      if found.None? || objects[found.value].state.Stop? || objects[found.value].isBase {
        return false;
      }
      LoadedFacts(Value(), n);
      var r := found.value;
      objects := objects[r := objects[r].(state := State.Stop)];
      SaveConfig(r);
      if n in examples {
        var q := examples[n].config;
        CloseInstance(q);
      }
      ok := true;
    }

    method RecoverStation(n: string) returns (ok: bool)
      requires Inv(Value())
      modifies this
      ensures Answer(Value(), ok) == Recover(old(Value()), n)
    {
      LoadKeepsInv(Value(), n);
      var found := GetConfig(n);
      if found.None? || !objects[found.value].state.Stop? || objects[found.value].isBase {
        return false;
      }
      LoadedFacts(Value(), n);
      var r := found.value;
      objects := objects[r := objects[r].(state := Init)];
      SaveConfig(r);
      ok := true;
    }

    method Remove(n: string) returns (ok: bool)
      requires Inv(Value())
      modifies this
      ensures Answer(Value(), ok) == RemoveStation(old(Value()), n)
    {
      LoadKeepsInv(Value(), n);
      var found := GetConfig(n);
      if found.None? || !objects[found.value].state.Stop? || objects[found.value].isBase {
        return false;
      }
      store := store - {n};
      configs := configs - {n};
      ok := true;
    }

    method UpdateStation(json: Config) returns (ok: bool)
      requires Inv(Value())
      modifies this
      ensures Answer(Value(), ok) == Update(old(Value()), json)
    {
      LoadKeepsInv(Value(), json.name);
      var found := GetConfig(json.name);
      if found.None? || objects[found.value].isBase {
        return false;
      }
      LoadedFacts(Value(), json.name);
      var r := found.value;
      var c := objects[r].(caption := json.caption, description := json.description);
      if c.kind > DISPATCHER && c.kind < SPECIAL {
        c := c.(alias := json.alias);
      }
      objects := objects[r := c];
      SaveConfig(r);
      ok := true;
    }

    method JoinInstance(st: Station) returns (ok: bool)
      requires st.config in objects
      modifies this
      ensures Answer(Value(), ok) == Join(old(Value()), st)
    {
      var c := objects[st.config];
      if c.name in examples {
        return false;
      }
      objects := objects[st.config := Runtime(c, Run)];
      examples := examples[c.name := st];
      ok := true;
    }

    method LeftInstance(st: Station) returns (ok: bool)
      requires st.config in objects
      modifies this
      ensures Answer(Value(), ok) == Left(old(Value()), st)
    {
      var c := objects[st.config];
      if c.name !in examples || examples[c.name] != st {
        return false;
      }
      objects := objects[st.config := Runtime(c, Closed)];
      examples := examples - {c.name};
      ok := true;
    }
  }
}
