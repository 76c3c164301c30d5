/**
  One thread's redis context: redis.cpp opens it on demand, live scopes nest on it and select databases, transactions
  count on it and cache values. Every set also goes straight to the server.
 */
module Redis {
  import opened Common

  /** `trans_redis`: the transaction count, the database it believes selected and the one the server has, and the cache. */
  datatype Context = Context(trans: int, db: int, serverDb: int, cache: map<string, string>)

  /** The thread's context, and what the server stores, by database. */
  datatype State = State(ctx: Option<Context>, store: map<int, map<string, string>>)

  /** `redis_defdb` of the configuration. */
  const DEFAULT := 0x10

  function Stored(store: map<int, map<string, string>>, db: int): map<string, string> {
    if db in store then store[db] else map[]
  }

  // ---------- The operations ----------

  /** `select`: the server is asked only when the database changes. */
  function Selected(c: Context, db: int): Context {
    if c.db == db then c else c.(db := db, serverDb := db)
  }

  /** `open_context` */
  function Open(s: State, db: int): State {
    match s.ctx
    case None => s.(ctx := Some(Context(0, db, db, map[])))
    case Some(c) => s.(ctx := Some(Selected(c, db)))
  }

  function Begin(s: State): State {
    var c := Open(s, DEFAULT).ctx.value;
    s.(ctx := Some(c.(trans := c.trans + 1)))
  }

  /** `end_trans`: the outermost end deletes the context. */
  function End(s: State): State {
    match s.ctx
    case None => s
    case Some(c) => s.(ctx := if c.trans - 1 > 0 then Some(c.(trans := c.trans - 1)) else None)
  }

  datatype Reading = Reading(state: State, value: Option<string>)

  /** `get`: the cache answers inside a transaction only, but is filled by every read. */
  function Get(s: State, k: string): Reading
    requires s.ctx.Some?
  {
    var c := s.ctx.value;
    if c.trans > 0 && k in c.cache then Reading(s, Some(c.cache[k]))
    else
      var db := Stored(s.store, c.serverDb);
      if k !in db then Reading(s, None)
      else Reading(s.(ctx := Some(c.(cache := c.cache[k := db[k]]))), Some(db[k]))
  }

  /** `set`: cached inside a transaction, written through always. */
  function Set(s: State, k: string, v: string): State
    requires s.ctx.Some?
  {
    var c := s.ctx.value;
    State(Some(if c.trans > 0 then c.(cache := c.cache[k := v]) else c),
          s.store[c.serverDb := Stored(s.store, c.serverDb)[k := v]])
  }

  // ---------- Live scopes ----------

  /**
    What a thread does between entering and leaving; live scopes and transactions by scope nest, and a transaction may also
    be begun or ended by a call. Selects, gets and sets are on the thread's current context.
   */
  datatype Action =
    | Select(db: int)
    | OpenOn(db: int)
    | BeginTrans
    | EndTrans
    | GetKey(k: string)
    | SetKey(k: string, v: string)
    | Live(db: int, body: seq<Action>)
    | Trans(body: seq<Action>)

  /** `None` is a use of a context that is not there. */
  function Exec(s: State, a: Action): Option<State>
    decreases a
  {
    match a
    case Select(db) => if s.ctx.None? then None else Some(s.(ctx := Some(Selected(s.ctx.value, db))))
    case OpenOn(db) => Some(Open(s, db))
    case BeginTrans => Some(Begin(s))
    case EndTrans => Some(End(s))
    case GetKey(k) => if s.ctx.None? then None else Some(Get(s, k).state)
    case SetKey(k, v) => if s.ctx.None? then None else Some(Set(s, k, v))
    case Live(db, body) =>
      var r := ExecAll(Open(s, db), body);
      if r.None? then None
      else if s.ctx.None? then Some(r.value.(ctx := None))
      else if r.value.ctx.None? then None
      else Some(r.value.(ctx := Some(Selected(r.value.ctx.value, s.ctx.value.db))))
    case Trans(body) =>
      var r := ExecAll(Begin(s), body);
      if r.None? then None else Some(End(r.value))
  }

  function ExecAll(s: State, actions: seq<Action>): Option<State>
    decreases actions
  {
    if actions == [] then Some(s)
    else
      var r := Exec(s, actions[0]);
      if r.None? then None else ExecAll(r.value, actions[1..])
  }

  /** When there is a context, the server has the database selected that the context believes. */
  predicate InStep(s: State) {
    s.ctx.Some? ==> s.ctx.value.db == s.ctx.value.serverDb && s.ctx.value.trans >= 0
  }

  // ---------- When a live scope restores ----------

  /** All that matters of a context: whether there is one, and how many transactions are open on it. */
  datatype Depth = Gone | Held(count: nat)

  function Entered(d: Depth): Depth {
    if d.Gone? then Held(0) else d
  }

  function Begun(d: Depth): Depth {
    Held(Entered(d).count + 1)
  }

  /** The outermost end takes the context away. */
  function Ended(d: Depth): Depth {
    if d.Gone? || d.count <= 1 then Gone else Held(d.count - 1)
  }

  /** The depth after an action, read off its syntax; `None` when it needs a context that is gone. */
  function After(d: Depth, a: Action): Option<Depth>
    decreases a
  {
    match a
    case Select(_) => if d.Gone? then None else Some(d)
    case GetKey(_) => if d.Gone? then None else Some(d)
    case SetKey(_, _) => if d.Gone? then None else Some(d)
    case OpenOn(_) => Some(Entered(d))
    case BeginTrans => Some(Begun(d))
    case EndTrans => Some(Ended(d))
    case Live(_, body) =>
      var r := AfterAll(Entered(d), body);
      if r.None? then None else if d.Gone? then Some(Gone) else if r.value.Gone? then None else r
    case Trans(body) =>
      var r := AfterAll(Begun(d), body);
      if r.None? then None else Some(Ended(r.value))
  }

  function AfterAll(d: Depth, actions: seq<Action>): Option<Depth>
    decreases actions
  {
    if actions == [] then Some(d)
    else
      var r := After(d, actions[0]);
      if r.None? then None else AfterAll(r.value, actions[1..])
  }

  /**
    What a caller can tell before entering: inside, no action needs a context that an ended transaction took away, and a
    scope that found a context still has one to leave.
   */
  predicate Restorable(d: Depth, body: seq<Action>) {
    var r := AfterAll(Entered(d), body);
    r.Some? && (d.Held? ==> r.value.Held?)
  }

  function DepthOf(s: State): Depth
    requires InStep(s)
  {
    if s.ctx.None? then Gone else Held(s.ctx.value.trans)
  }

  lemma {:induction false} ExecDepth(s: State, a: Action)
    requires InStep(s)
    ensures Exec(s, a).Some? <==> After(DepthOf(s), a).Some?
    ensures Exec(s, a).Some? ==> InStep(Exec(s, a).value) && DepthOf(Exec(s, a).value) == After(DepthOf(s), a).value
    decreases a
  {
    match a
    case Live(db, body) => ExecAllDepth(Open(s, db), body);
    case Trans(body) => ExecAllDepth(Begin(s), body);
    case Select(_) =>
    case OpenOn(_) =>
    case BeginTrans =>
    case EndTrans =>
    case GetKey(_) =>
    case SetKey(_, _) =>
  }

  lemma {:induction false} ExecAllDepth(s: State, actions: seq<Action>)
    requires InStep(s)
    ensures ExecAll(s, actions).Some? <==> AfterAll(DepthOf(s), actions).Some?
    ensures ExecAll(s, actions).Some? ==>
              InStep(ExecAll(s, actions).value) && DepthOf(ExecAll(s, actions).value) == AfterAll(DepthOf(s), actions).value
    decreases actions
  {
    if actions != [] {
      ExecDepth(s, actions[0]);
      if Exec(s, actions[0]).Some? {
        ExecAllDepth(Exec(s, actions[0]).value, actions[1..]);
      }
    }
  }

  /** What leaving a scope should give back: no context if there was none, and otherwise the same database, also on the server. */
  predicate Restores(s: State, r: Option<State>) {
    && r.Some? && (r.value.ctx.Some? <==> s.ctx.Some?)
    && (s.ctx.Some? ==> r.value.ctx.value.db == s.ctx.value.db && r.value.ctx.value.serverDb == s.ctx.value.serverDb)
  }

  /**
    A live scope restores what it found at entry exactly when its body is restorable, which depends only on whether there
    was a context, on how many transactions were open, and on the nesting of the body.
   */
  lemma ScopeRestoresIff(s: State, db: int, body: seq<Action>)
    requires InStep(s)
    ensures Restores(s, Exec(s, Live(db, body))) <==> Restorable(DepthOf(s), body)
  {
    ExecAllDepth(Open(s, db), body);
  }

  // ---------- Scopes and transactions that nest by scope only ----------

  /** Live scopes, transactions by scope, selects, gets and sets. */
  predicate Scoped(a: Action)
    decreases a
  {
    match a
    case Live(_, body) => AllScoped(body)
    case Trans(body) => AllScoped(body)
    case OpenOn(_) => false
    case BeginTrans => false
    case EndTrans => false
    case _ => true
  }

  predicate AllScoped(actions: seq<Action>)
    decreases actions
  {
    actions == [] || (Scoped(actions[0]) && AllScoped(actions[1..]))
  }

  predicate NoTrans(a: Action)
    decreases a
  {
    match a
    case Trans(_) => false
    case EndTrans => false
    case Live(_, body) => AllNoTrans(body)
    case _ => true
  }

  predicate AllNoTrans(actions: seq<Action>)
    decreases actions
  {
    actions == [] || (NoTrans(actions[0]) && AllNoTrans(actions[1..]))
  }

  /** Inside an open transaction nothing that nests by scope changes the depth. */
  lemma {:induction false} BusyKeeps(n: nat, a: Action)
    requires n > 0 && Scoped(a)
    ensures After(Held(n), a) == Some(Held(n))
    decreases a
  {
    match a
    case Live(_, body) => AllBusyKeeps(n, body);
    case Trans(body) => AllBusyKeeps(n + 1, body);
    case Select(_) =>
    case GetKey(_) =>
    case SetKey(_, _) =>
  }

  lemma {:induction false} AllBusyKeeps(n: nat, actions: seq<Action>)
    requires n > 0 && AllScoped(actions)
    ensures AfterAll(Held(n), actions) == Some(Held(n))
    decreases actions
  {
    if actions != [] {
      BusyKeeps(n, actions[0]);
      AllBusyKeeps(n, actions[1..]);
    }
  }

  /** Once the context is gone, nothing that nests by scope leaves one behind. */
  lemma {:induction false} GoneStays(a: Action)
    requires Scoped(a)
    ensures After(Gone, a).None? || After(Gone, a) == Some(Gone)
  {
    if a.Trans? {
      AllBusyKeeps(1, a.body);
    }
  }

  lemma {:induction false} AllGoneStays(actions: seq<Action>)
    requires AllScoped(actions)
    ensures AfterAll(Gone, actions).None? || AfterAll(Gone, actions) == Some(Gone)
    decreases actions
  {
    if actions != [] {
      GoneStays(actions[0]);
      AllGoneStays(actions[1..]);
    }
  }

  /** Outside of transactions the context survives exactly what contains none. */
  lemma {:induction false} IdleSurvivesIff(a: Action)
    requires Scoped(a)
    ensures After(Held(0), a) == Some(Held(0)) <==> NoTrans(a)
    ensures !NoTrans(a) ==> After(Held(0), a).None? || After(Held(0), a) == Some(Gone)
    decreases a
  {
    match a
    case Live(_, body) => AllIdleSurvivesIff(body);
    case Trans(body) => AllBusyKeeps(1, body);
    case Select(_) =>
    case GetKey(_) =>
    case SetKey(_, _) =>
  }

  lemma {:induction false} AllIdleSurvivesIff(actions: seq<Action>)
    requires AllScoped(actions)
    ensures AfterAll(Held(0), actions) == Some(Held(0)) <==> AllNoTrans(actions)
    ensures !AllNoTrans(actions) ==> AfterAll(Held(0), actions).None? || AfterAll(Held(0), actions) == Some(Gone)
    decreases actions
  {
    if actions != [] {
      IdleSurvivesIff(actions[0]);
      AllIdleSurvivesIff(actions[1..]);
      AllGoneStays(actions[1..]);
    }
  }

  lemma NestedRestorableIff(n: nat, body: seq<Action>)
    requires AllScoped(body)
    ensures Restorable(Held(n), body) <==> n > 0 || AllNoTrans(body)
  {
    hide AfterAll, AllScoped, AllNoTrans;
    if n > 0 {
      AllBusyKeeps(n, body);
    } else {
      AllIdleSurvivesIff(body);
    }
  }

  /**
    With scopes and transactions that nest by scope only, a live scope on an existing context restores it exactly when a
    transaction is open at entry or the body contains none.
   */
  lemma NestedScopeRestoresIff(s: State, db: int, body: seq<Action>)
    requires InStep(s) && s.ctx.Some? && AllScoped(body)
    ensures Restores(s, Exec(s, Live(db, body))) <==> s.ctx.value.trans > 0 || AllNoTrans(body)
  {
    hide Restores, Exec, Restorable, AllScoped, AllNoTrans;
    ScopeRestoresIff(s, db, body);
    NestedRestorableIff(s.ctx.value.trans, body);
  }

  predicate NoEnd(a: Action)
    decreases a
  {
    match a
    case EndTrans => false
    case Trans(body) => AllNoEnd(body)
    case Live(_, body) => AllNoEnd(body)
    case _ => true
  }

  predicate AllNoEnd(actions: seq<Action>)
    decreases actions
  {
    actions == [] || (NoEnd(actions[0]) && AllNoEnd(actions[1..]))
  }

  lemma {:induction false} DepthStays(n: nat, a: Action)
    requires NoTrans(a) || (n > 0 && NoEnd(a))
    ensures After(Held(n), a).Some? && After(Held(n), a).value.Held? && After(Held(n), a).value.count >= n
    decreases a
  {
    match a
    case Live(_, body) => AllDepthStays(n, body);
    case Trans(body) => AllDepthStays(n + 1, body);
    case Select(_) =>
    case OpenOn(_) =>
    case BeginTrans =>
    case GetKey(_) =>
    case SetKey(_, _) =>
  }

  lemma {:induction false} AllDepthStays(n: nat, actions: seq<Action>)
    requires AllNoTrans(actions) || (n > 0 && AllNoEnd(actions))
    ensures AfterAll(Held(n), actions).Some? && AfterAll(Held(n), actions).value.Held? && AfterAll(Held(n), actions).value.count >= n
    decreases actions
  {
    if actions != [] {
      DepthStays(n, actions[0]);
      AllDepthStays(After(Held(n), actions[0]).value.count, actions[1..]);
    }
  }

  /**
    Whatever opens, begins, selects, gets, sets and scopes are inside: a live scope restores when no transaction ends inside,
    or when one is open at entry and none is ended by a call.
   */
  lemma ScopeRestores(s: State, db: int, body: seq<Action>)
    requires InStep(s) && (AllNoTrans(body) || (s.ctx.Some? && s.ctx.value.trans > 0 && AllNoEnd(body)))
    ensures Restores(s, Exec(s, Live(db, body)))
  {
    ScopeRestoresIff(s, db, body);
    AllDepthStays(Entered(DepthOf(s)).count, body);
  }

  /**
    On a context without a transaction, one that begins and ends inside takes the context from under the scope. It does not
    when the scope opened the context itself, or when another transaction was begun inside before.
   */
  lemma TransInsideScope(s: State, db: int)
    requires InStep(s) && (s.ctx.Some? ==> s.ctx.value.trans == 0)
    ensures Exec(s, Live(db, [Trans([])])).None? <==> s.ctx.Some?
    ensures Restores(s, Exec(s, Live(db, [BeginTrans, Trans([])])))
  {
    ExecDepth(s, Live(db, [Trans([])]));
    ScopeRestoresIff(s, db, [BeginTrans, Trans([])]);
    assert [BeginTrans, Trans([])][1..] == [Trans([])];
  }

  lemma {:induction false} ExecAllJoins(s: State, a: seq<Action>, b: seq<Action>)
    ensures ExecAll(s, a + b) == (if ExecAll(s, a).None? then None else ExecAll(ExecAll(s, a).value, b))
    decreases |a|
  {
    if a == [] {
      assert a + b == b;
    } else {
      assert (a + b)[0] == a[0] && (a + b)[1..] == a[1..] + b;
      if Exec(s, a[0]).Some? {
        ExecAllJoins(Exec(s, a[0]).value, a[1..], b);
      }
    }
  }

  lemma ExecAllOne(s: State, a: Action)
    ensures ExecAll(s, [a]) == Exec(s, a)
  {
    assert [a][1..] == [];
  }

  /** On a thread with a context, opens are selects, a live scope is a select on either side of its body, and a transaction by scope a begin and an end. */
  lemma ScopesAreCommands(s: State, db: int, body: seq<Action>)
    requires s.ctx.Some?
    ensures Exec(s, OpenOn(db)) == Exec(s, Select(db))
    ensures Exec(s, Live(db, body)) == ExecAll(s, [Select(db)] + body + [Select(s.ctx.value.db)])
    ensures Exec(s, Trans(body)) == ExecAll(s, [BeginTrans] + body + [EndTrans])
  {
    var before := s.ctx.value.db;
    ExecAllOne(s, Select(db));
    ExecAllOne(s, BeginTrans);
    ExecAllJoins(s, [Select(db)], body);
    ExecAllJoins(s, [BeginTrans], body);
    ExecAllJoins(s, [Select(db)] + body, [Select(before)]);
    ExecAllJoins(s, [BeginTrans] + body, [EndTrans]);
    var r, q := ExecAll(Open(s, db), body), ExecAll(Begin(s), body);
    if r.Some? {
      ExecAllOne(r.value, Select(before));
    }
    if q.Some? {
      ExecAllOne(q.value, EndTrans);
    }
  }

  // ---------- The cache inside transactions ----------

  datatype Command = CGet(k: string) | CSet(k: string, v: string) | CSelect(db: int) | CBegin | CEnd

  function Step(s: State, c: Command): State
    requires s.ctx.Some?
  {
    match c
    case CGet(k) => Get(s, k).state
    case CSet(k, v) => Set(s, k, v)
    case CSelect(db) => s.(ctx := Some(Selected(s.ctx.value, db)))
    case CBegin => Begin(s)
    case CEnd => End(s)
  }

  /** Inside a transaction on the default database. */
  predicate InTransaction(s: State) {
    s.ctx.Some? && s.ctx.value.trans > 0 && s.ctx.value.db == DEFAULT && s.ctx.value.serverDb == DEFAULT
  }

  /** Every cached value is the stored one. */
  predicate CacheOk(s: State)
    requires s.ctx.Some?
  {
    var c := s.ctx.value;
    forall k | k in c.cache :: k in Stored(s.store, c.serverDb) && c.cache[k] == Stored(s.store, c.serverDb)[k]
  }

  /** Nested transactions may begin and end, but the outermost one does not, and no other database is selected. */
  predicate StaysInside(depth: int, commands: seq<Command>)
    decreases |commands|
  {
    commands == [] ||
    match commands[0]
    case CBegin => StaysInside(depth + 1, commands[1..])
    case CEnd => depth > 1 && StaysInside(depth - 1, commands[1..])
    case CSelect(db) => db == DEFAULT && StaysInside(depth, commands[1..])
    case _ => StaysInside(depth, commands[1..])
  }

  predicate StepInside(s: State, c: Command) {
    InTransaction(s) && (c.CEnd? ==> s.ctx.value.trans > 1) && (c.CSelect? ==> c.db == DEFAULT)
  }

  /** What each `get` of a run returns. */
  function Results(s: State, commands: seq<Command>): seq<Option<string>>
    requires s.ctx.Some? && InTransaction(s) && StaysInside(s.ctx.value.trans, commands)
    decreases |commands|
  {
    if commands == [] then []
    else
      StepStays(s, commands[0]);
      (if commands[0].CGet? then [Get(s, commands[0].k).value] else []) + Results(Step(s, commands[0]), commands[1..])
  }

  lemma StepStays(s: State, c: Command)
    requires StepInside(s, c)
    ensures InTransaction(Step(s, c))
    ensures Step(s, c).ctx.value.trans == s.ctx.value.trans + Deeper(c)
  {
  }

  lemma StepKeepsCache(s: State, c: Command)
    requires StepInside(s, c) && CacheOk(s)
    ensures Step(s, c).ctx.Some? && CacheOk(Step(s, c))
  {
  }

  /** What a client without any cache would read: a map that sets write and gets look up. */
  function Expected(db: map<string, string>, commands: seq<Command>): seq<Option<string>>
    decreases |commands|
  {
    if commands == [] then []
    else
      match commands[0]
      case CGet(k) => [Lookup(db, k)] + Expected(db, commands[1..])
      case CSet(k, v) => Expected(db[k := v], commands[1..])
      case _ => Expected(db, commands[1..])
  }

  function Lookup(db: map<string, string>, k: string): Option<string> {
    if k in db then Some(db[k]) else None
  }

  /** Inside a transaction on the default database whose cache is sound, every `get` returns the last `set`, or what was stored before. */
  lemma {:induction false} GetsReturnLastSets(s: State, commands: seq<Command>)
    requires InTransaction(s) && CacheOk(s) && StaysInside(s.ctx.value.trans, commands)
    ensures Results(s, commands) == Expected(Stored(s.store, DEFAULT), commands)
    decreases |commands|
  {
    if commands != [] {
      StepStays(s, commands[0]);
      StepKeepsCache(s, commands[0]);
      GetsReturnLastSets(Step(s, commands[0]), commands[1..]);
    }
  }

  /** The outermost transaction of a thread that had no context starts with a sound cache. */
  lemma TransactionStartsSound(s: State, commands: seq<Command>)
    requires s.ctx.None? && StaysInside(1, commands)
    ensures var t := Begin(s);
      InTransaction(t) && CacheOk(t) && Results(t, commands) == Expected(Stored(s.store, DEFAULT), commands)
  {
    GetsReturnLastSets(Begin(s), commands);
  }

  // ---------- The whole history of one context ----------

  function Deeper(c: Command): int {
    if c.CBegin? then 1 else if c.CEnd? then -1 else 0
  }

  /** The transactions that are open before command `n`. */
  function Transactions(h: seq<Command>, n: nat): int
    requires n <= |h|
    decreases n
  {
    if n == 0 then 0 else Transactions(h, n - 1) + Deeper(h[n - 1])
  }

  /** No command ends the outermost transaction, which would take the context away. */
  predicate KeepsContext(h: seq<Command>) {
    forall i | 0 <= i < |h| && h[i].CEnd? :: Transactions(h, i) > 1
  }

  /** A context without a transaction. */
  predicate Idle(s: State) {
    InStep(s) && s.ctx.Some? && s.ctx.value.trans == 0
  }

  /** The state before command `n`. */
  function RunTo(s: State, h: seq<Command>, n: nat): (r: State)
    requires Idle(s) && KeepsContext(h) && n <= |h|
    ensures InStep(r) && r.ctx.Some? && r.ctx.value.trans == Transactions(h, n)
    decreases n
  {
    if n == 0 then s else Step(RunTo(s, h, n - 1), h[n - 1])
  }

  /** The server as a client without any cache knows it: the database it selected last, and what it wrote. */
  datatype Server = Server(db: int, store: map<int, map<string, string>>)

  function ServerOf(s: State): Server
    requires s.ctx.Some?
  {
    Server(s.ctx.value.db, s.store)
  }

  function Applied(v: Server, h: seq<Command>, n: nat): Server
    requires n <= |h|
    decreases n
  {
    if n == 0 then v
    else
      var before := Applied(v, h, n - 1);
      match h[n - 1]
      case CSet(k, x) => before.(store := before.store[before.db := Stored(before.store, before.db)[k := x]])
      case CSelect(db) => before.(db := db)
      case CBegin => before.(db := DEFAULT)
      case _ => before
  }

  /** What is stored in the selected database before command `n`. */
  function At(v: Server, h: seq<Command>, n: nat): map<string, string>
    requires n <= |h|
  {
    Stored(Applied(v, h, n).store, Applied(v, h, n).db)
  }

  predicate InnerSet(h: seq<Command>, k: string, p: nat) {
    p < |h| && h[p].CSet? && h[p].k == k && Transactions(h, p) > 0
  }

  /** A read that finds the key, outside or inside of the transaction. */
  predicate Found(v: Server, h: seq<Command>, k: string, inside: bool, p: nat) {
    p < |h| && h[p] == CGet(k) && k in At(v, h, p) && (inside <==> Transactions(h, p) > 0)
  }

  function LastInnerSet(h: seq<Command>, k: string, n: nat): (r: Option<nat>)
    requires n <= |h|
    ensures r.Some? ==> r.value < n && InnerSet(h, k, r.value)
    ensures forall p: nat | p < n && InnerSet(h, k, p) :: r.Some? && p <= r.value
    decreases n
  {
    if n == 0 then None else if InnerSet(h, k, n - 1) then Some(n - 1) else LastInnerSet(h, k, n - 1)
  }

  function LastEarlyFound(v: Server, h: seq<Command>, k: string, n: nat): (r: Option<nat>)
    requires n <= |h|
    ensures r.Some? ==> r.value < n && Found(v, h, k, false, r.value)
    ensures forall p: nat | p < n && Found(v, h, k, false, p) :: r.Some? && p <= r.value
    decreases n
  {
    if n == 0 then None else if Found(v, h, k, false, n - 1) then Some(n - 1) else LastEarlyFound(v, h, k, n - 1)
  }

  function FirstInnerFound(v: Server, h: seq<Command>, k: string, n: nat): (r: Option<nat>)
    requires n <= |h|
    ensures r.Some? ==> r.value < n && Found(v, h, k, true, r.value)
    ensures forall p: nat | p < n && Found(v, h, k, true, p) :: r.Some? && r.value <= p
    decreases n
  {
    if n == 0 then None
    else
      var r := FirstInnerFound(v, h, k, n - 1);
      if r.Some? then r else if Found(v, h, k, true, n - 1) then Some(n - 1) else None
  }

  /**
    The command the cached value of the key comes from: the last set inside the transaction, else the last read before it
    that found the key, else the first read inside that did; whatever database was selected at the time.
   */
  function Origin(v: Server, h: seq<Command>, k: string, n: nat): (r: Option<nat>)
    requires n <= |h|
    ensures r.Some? ==> r.value < n && (InnerSet(h, k, r.value) || (h[r.value] == CGet(k) && k in At(v, h, r.value)))
  {
    if LastInnerSet(h, k, n).Some? then LastInnerSet(h, k, n)
    else if LastEarlyFound(v, h, k, n).Some? then LastEarlyFound(v, h, k, n)
    else FirstInnerFound(v, h, k, n)
  }

  /** What that command wrote or found. */
  function ValueAt(v: Server, h: seq<Command>, k: string, p: nat): string
    requires p < |h| && (h[p].CSet? || k in At(v, h, p))
  {
    if h[p].CSet? then h[p].v else At(v, h, p)[k]
  }

  lemma StepIs(s: State, c: Command)
    requires InStep(s) && s.ctx.Some? && (c.CEnd? ==> s.ctx.value.trans > 1)
    ensures var r, db, was := Step(s, c), Stored(s.store, s.ctx.value.db), s.ctx.value;
      && r.ctx.Some? && InStep(r)
      && r.ctx.value.cache == (if c.CGet? && !(was.trans > 0 && c.k in was.cache) && c.k in db then was.cache[c.k := db[c.k]]
                               else if c.CSet? && was.trans > 0 then was.cache[c.k := c.v] else was.cache)
      && r.ctx.value.db == (if c.CSelect? then c.db else if c.CBegin? then DEFAULT else was.db)
      && r.store == (if c.CSet? then s.store[was.db := db[c.k := c.v]] else s.store)
  {
  }

  lemma {:induction false} RunApplies(s: State, h: seq<Command>, n: nat)
    requires Idle(s) && KeepsContext(h) && n <= |h|
    ensures ServerOf(RunTo(s, h, n)) == Applied(ServerOf(s), h, n)
    decreases n
  {
    hide Step;
    if n > 0 {
      RunApplies(s, h, n - 1);
      StepIs(RunTo(s, h, n - 1), h[n - 1]);
    }
  }

  lemma {:induction false} OpenStays(h: seq<Command>, p: nat, n: nat)
    requires KeepsContext(h) && p <= n <= |h|
    ensures Transactions(h, n) >= 0 && (Transactions(h, p) > 0 ==> Transactions(h, n) > 0)
    decreases n
  {
    if n > p {
      OpenStays(h, p, n - 1);
    } else if n > 0 {
      OpenStays(h, n - 1, n - 1);
    }
  }

  /** Outside of the transaction nothing has happened inside yet. */
  lemma NothingInside(v: Server, h: seq<Command>, k: string, n: nat)
    requires KeepsContext(h) && n <= |h| && Transactions(h, n) <= 0
    ensures LastInnerSet(h, k, n).None? && FirstInnerFound(v, h, k, n).None?
  {
    if LastInnerSet(h, k, n).Some? {
      OpenStays(h, LastInnerSet(h, k, n).value, n);
    }
    if FirstInnerFound(v, h, k, n).Some? {
      OpenStays(h, FirstInnerFound(v, h, k, n).value, n);
    }
  }

  /** One command moves the origin as it moves the cache. */
  lemma OriginStep(v: Server, h: seq<Command>, k: string, n: nat)
    requires KeepsContext(h) && n < |h|
    ensures var was, now := Origin(v, h, k, n), Origin(v, h, k, n + 1);
      now == if InnerSet(h, k, n) || Found(v, h, k, false, n) || (Found(v, h, k, true, n) && was.None?) then Some(n) else was
  {
    hide At, Transactions;
    if Transactions(h, n) <= 0 {
      NothingInside(v, h, k, n);
    }
  }

  /** The cache holds what the key's origin wrote or found, or nothing for a key without one. */
  predicate FromOrigin(cache: map<string, string>, v: Server, h: seq<Command>, k: string, n: nat)
    requires n <= |h|
  {
    var o := Origin(v, h, k, n);
    (k in cache <==> o.Some?) && (o.Some? ==> cache[k] == ValueAt(v, h, k, o.value))
  }

  lemma CacheStep(s: State, v: Server, h: seq<Command>, k: string, n: nat)
    requires KeepsContext(h) && n < |h| && InStep(s) && s.ctx.Some? && s.ctx.value.trans == Transactions(h, n)
    requires ServerOf(s) == Applied(v, h, n) && FromOrigin(s.ctx.value.cache, v, h, k, n)
    ensures Step(s, h[n]).ctx.Some? && FromOrigin(Step(s, h[n]).ctx.value.cache, v, h, k, n + 1)
  {
    StepIs(s, h[n]);
    OriginStep(v, h, k, n);
    hide Step, Applied, Origin, Transactions, KeepsContext;
  }

  lemma CacheAtStart(v: Server, h: seq<Command>, k: string)
    ensures FromOrigin(map[], v, h, k, 0)
  {
  }

  lemma {:induction false} CacheIs(s: State, h: seq<Command>, k: string, n: nat)
    requires Idle(s) && s.ctx.value.cache == map[] && KeepsContext(h) && n <= |h|
    ensures FromOrigin(RunTo(s, h, n).ctx.value.cache, ServerOf(s), h, k, n)
    decreases n
  {
    if n == 0 {
      CacheAtStart(ServerOf(s), h, k);
      hide FromOrigin;
    } else {
      var t := RunTo(s, h, n - 1);
      assert RunTo(s, h, n) == Step(t, h[n - 1]);
      hide *;
      CacheIs(s, h, k, n - 1);
      RunApplies(s, h, n - 1);
      CacheStep(t, ServerOf(s), h, k, n - 1);
    }
  }

  /** A read that returns what a client without any cache would read. */
  predicate ReadsRight(s: State, h: seq<Command>, i: nat)
    requires Idle(s) && KeepsContext(h) && i < |h| && h[i].CGet?
  {
    Get(RunTo(s, h, i), h[i].k).value == Lookup(At(ServerOf(s), h, i), h[i].k)
  }

  /**
    Over the whole history of a context, with any gets, sets, selects and nested transactions: a read returns what the
    selected database holds exactly when no transaction is open, or the cached value has no origin, or its origin wrote or
    found what the selected database holds now.
   */
  lemma HistoryReadsIff(s: State, h: seq<Command>, i: nat)
    requires Idle(s) && s.ctx.value.cache == map[] && KeepsContext(h) && i < |h| && h[i].CGet?
    ensures var v, k := ServerOf(s), h[i].k; var o := Origin(v, h, k, i);
      ReadsRight(s, h, i) <==> Transactions(h, i) == 0 || o.None? || Lookup(At(v, h, i), k) == Some(ValueAt(v, h, k, o.value))
  {
    hide Step, Applied, Origin, RunTo;
    CacheIs(s, h, h[i].k, i);
    RunApplies(s, h, i);
    OpenStays(h, 0, i);
  }

  // ---------- Histories that stay on the default database ----------

  /** Inside of transactions no other database is selected. */
  predicate OnDefault(h: seq<Command>) {
    forall i | 0 <= i < |h| && h[i].CSelect? && Transactions(h, i) > 0 :: h[i].db == DEFAULT
  }

  lemma {:induction false} DefaultInside(v: Server, h: seq<Command>, n: nat)
    requires KeepsContext(h) && OnDefault(h) && n <= |h|
    ensures Transactions(h, n) > 0 ==> Applied(v, h, n).db == DEFAULT
    decreases n
  {
    if n > 0 {
      DefaultInside(v, h, n - 1);
      OpenStays(h, n - 1, n - 1);
    }
  }

  lemma ValueStep(v: Server, h: seq<Command>, k: string, n: nat)
    requires n < |h| && (h[n].CSet? ==> h[n].k != k)
    requires h[n].CSelect? || h[n].CBegin? ==> Applied(v, h, n + 1).db == Applied(v, h, n).db
    ensures Lookup(At(v, h, n + 1), k) == Lookup(At(v, h, n), k)
  {
  }

  /** What is stored under a key stays until the next set of it. */
  lemma {:induction false} ValueStays(v: Server, h: seq<Command>, k: string, p: nat, n: nat)
    requires KeepsContext(h) && OnDefault(h) && p <= n <= |h| && Transactions(h, p) > 0
    requires forall q | p <= q < n :: !InnerSet(h, k, q)
    ensures Lookup(At(v, h, n), k) == Lookup(At(v, h, p), k)
    decreases n
  {
    if n > p {
      ValueStays(v, h, k, p, n - 1);
      OpenStays(h, p, n - 1);
      OpenStays(h, p, n);
      DefaultInside(v, h, n - 1);
      DefaultInside(v, h, n);
      assert !InnerSet(h, k, n - 1);
      hide At, Applied, KeepsContext, OnDefault;
      ValueStep(v, h, k, n - 1);
    }
  }

  lemma SetIsStored(v: Server, h: seq<Command>, k: string, p: nat)
    requires InnerSet(h, k, p)
    ensures Lookup(At(v, h, p + 1), k) == Some(h[p].v)
  {
  }

  lemma InnerSetIsCurrent(v: Server, h: seq<Command>, k: string, n: nat)
    requires KeepsContext(h) && OnDefault(h) && n <= |h| && LastInnerSet(h, k, n).Some?
    ensures Lookup(At(v, h, n), k) == Some(ValueAt(v, h, k, LastInnerSet(h, k, n).value))
  {
    var p := LastInnerSet(h, k, n).value;
    OpenStays(h, p, p + 1);
    SetIsStored(v, h, k, p);
    hide At, Transactions, KeepsContext, OnDefault;
    ValueStays(v, h, k, p + 1, n);
  }

  lemma InnerFoundIsCurrent(v: Server, h: seq<Command>, k: string, n: nat)
    requires KeepsContext(h) && OnDefault(h) && n <= |h| && LastInnerSet(h, k, n).None? && FirstInnerFound(v, h, k, n).Some?
    ensures Lookup(At(v, h, n), k) == Some(ValueAt(v, h, k, FirstInnerFound(v, h, k, n).value))
  {
    hide At, Transactions, KeepsContext, OnDefault;
    ValueStays(v, h, k, FirstInnerFound(v, h, k, n).value, n);
  }

  /**
    With no other database selected inside, a read is right exactly when no transaction is open, or the key was set inside
    before, or no read before the transaction found it, or the last that did found what the default database holds now.
   */
  lemma DefaultReadsIff(s: State, h: seq<Command>, i: nat)
    requires Idle(s) && s.ctx.value.cache == map[] && KeepsContext(h) && OnDefault(h) && i < |h| && h[i].CGet?
    ensures var v, k := ServerOf(s), h[i].k; var e := LastEarlyFound(v, h, k, i);
      ReadsRight(s, h, i) <==> Transactions(h, i) == 0 || LastInnerSet(h, k, i).Some? || e.None?
                               || Lookup(At(v, h, i), k) == Some(At(v, h, e.value)[k])
  {
    var v, k := ServerOf(s), h[i].k;
    HistoryReadsIff(s, h, i);
    hide At, ReadsRight, Transactions, Lookup, KeepsContext, OnDefault, Idle, LastInnerSet, LastEarlyFound, FirstInnerFound;
    if LastInnerSet(h, k, i).Some? {
      InnerSetIsCurrent(v, h, k, i);
    } else if LastEarlyFound(v, h, k, i).None? && FirstInnerFound(v, h, k, i).Some? {
      InnerFoundIsCurrent(v, h, k, i);
    }
  }

  // ---------- The failing families, by example ----------

  function Fresh(db: int, store: map<int, map<string, string>>): State {
    State(Some(Context(0, db, db, map[])), store)
  }

  /** A value that is read and then set outside of any transaction stays in the cache, and a later transaction reads the old one. */
  lemma StaleCache(store: map<int, map<string, string>>, k: string, w: string)
    requires k in Stored(store, DEFAULT) && Stored(store, DEFAULT)[k] != w
    ensures var h := [CGet(k), CSet(k, w), CBegin, CGet(k)];
      KeepsContext(h) && !ReadsRight(Fresh(DEFAULT, store), h, 3)
  {
    var h := [CGet(k), CSet(k, w), CBegin, CGet(k)];
    assert Transactions(h, 1) == 0 && Transactions(h, 2) == 0;
    assert RunTo(Fresh(DEFAULT, store), h, 1).ctx.value.cache == map[k := Stored(store, DEFAULT)[k]];
    assert RunTo(Fresh(DEFAULT, store), h, 2).store == Applied(Server(DEFAULT, store), h, 2).store;
  }

  /** A value that was read in another database stays in the cache too, which does not tell databases apart. */
  lemma CacheIgnoresDatabase(store: map<int, map<string, string>>, db: int, k: string)
    requires db != DEFAULT && k in Stored(store, db) && Lookup(Stored(store, DEFAULT), k) != Some(Stored(store, db)[k])
    ensures var h := [CGet(k), CBegin, CGet(k)];
      KeepsContext(h) && !ReadsRight(Fresh(db, store), h, 2)
  {
    var h := [CGet(k), CBegin, CGet(k)];
    assert RunTo(Fresh(db, store), h, 1).ctx.value.cache == map[k := Stored(store, db)[k]];
  }

  /** So does one that was set in another database inside the transaction, whether or not the key was ever read. */
  lemma SetElsewhereIsRead(store: map<int, map<string, string>>, db: int, k: string, w: string)
    requires db != DEFAULT && Lookup(Stored(store, DEFAULT), k) != Some(w)
    ensures var h := [CBegin, CSelect(db), CSet(k, w), CSelect(DEFAULT), CGet(k)];
      KeepsContext(h) && !ReadsRight(Fresh(DEFAULT, store), h, 4)
  {
    var h := [CBegin, CSelect(db), CSet(k, w), CSelect(DEFAULT), CGet(k)];
    assert RunTo(Fresh(DEFAULT, store), h, 2).ctx.value.db == db;
    assert RunTo(Fresh(DEFAULT, store), h, 3).ctx.value.cache == map[k := w];
  }

  // ---------- The code ----------

  class TransRedis {
    var transNum: int
    var curDb: int
    var serverDb: int
    var localValues: map<string, string>

    constructor (db: int)
      ensures Value() == Context(0, db, db, map[])
    {
      transNum, curDb, serverDb, localValues := 0, db, db, map[];
    }

    function Value(): Context
      reads this
    {
      Context(transNum, curDb, serverDb, localValues)
    }

    method SelectDb(db: int)
      modifies this
      ensures Value() == Selected(old(Value()), db)
    {
      if curDb == db {
        return;
      }
      curDb := db;
      serverDb := db;
    }
  }

  /** The thread-local context and the server behind it. */
  class RedisThread {
    var context: TransRedis?
    var store: map<int, map<string, string>>

    constructor (s: map<int, map<string, string>>)
      ensures Value() == State(None, s)
    {
      context, store := null, s;
    }

    function Value(): State
      reads this, context
    {
      State(if context == null then None else Some(context.Value()), store)
    }

    method OpenContext(db: int) returns (isNew: bool)
      modifies this, context
      ensures Value() == Open(old(Value()), db) && isNew == (old(context) == null) && context != null && store == old(store)
      ensures if isNew then fresh(context) else context == old(context)
    {
      if context == null {
        context := new TransRedis(db);
        return true;
      }
      context.SelectDb(db);
      isNew := false;
    }

    method BeginTransaction()
      modifies this, context
      ensures Value() == Begin(old(Value()))
    {
      var isNew := OpenContext(DEFAULT);
      context.transNum := context.transNum + 1;
    }

    method EndTransaction()
      modifies this, context
      ensures Value() == End(old(Value()))
    {
      if context == null {
        return;
      }
      context.transNum := context.transNum - 1;
      if context.transNum > 0 {
        return;
      }
      context := null;
    }

    method GetValue(k: string) returns (v: Option<string>)
      requires context != null
      modifies context
      ensures Reading(Value(), v) == Get(old(Value()), k)
    {
      if context.transNum > 0 && context.localValues != map[] {
        if k in context.localValues {
          return Some(context.localValues[k]);
        }
      }
      var db := Stored(store, context.serverDb);
      if k !in db {
        return None;
      }
      context.localValues := context.localValues[k := db[k]];
      v := Some(db[k]);
    }

    method SetValue(k: string, v: string)
      requires context != null
      modifies this`store, context
      ensures Value() == Set(old(Value()), k, v)
    {
      if context.transNum > 0 {
        context.localValues := context.localValues[k := v];
      }
      store := store[context.serverDb := Stored(store, context.serverDb)[k := v]];
    }
  }

  /** `redis_live_scope` */
  class LiveScope {
    var openByMe: bool
    var oldDb: int

    constructor (t: RedisThread, db: int)
      modifies t, t.context
      ensures t.Value() == Open(old(t.Value()), db)
      ensures openByMe == (old(t.context) == null) && (!openByMe ==> oldDb == old(t.context.curDb))
      ensures t.context != null && (openByMe ==> fresh(t.context)) && (!openByMe ==> t.context == old(t.context))
    {
      openByMe := t.context == null;
      if t.context == null {
        oldDb := db;
      } else {
        oldDb := t.context.curDb;
      }
      new;
      var isNew := t.OpenContext(db);
    }

    /** The destructor. */
    method Leave(t: RedisThread)
      requires !openByMe ==> t.context != null
      modifies t, t.context
      ensures t.Value() == if openByMe then old(t.Value()).(ctx := None)
                           else old(t.Value()).(ctx := Some(Selected(old(t.Value()).ctx.value, oldDb)))
    {
      if openByMe {
        t.context := null;
      } else {
        t.context.SelectDb(oldDb);
      }
    }
  }
}
