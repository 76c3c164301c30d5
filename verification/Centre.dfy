/**
  Start and shutdown of the centre (service.cpp with the `launch` functions): a main thread, a dispatcher with
  its monitor thread, a plan dispatcher with its planner thread, and any number of station threads, interleaved one
  atomic step at a time. Counting semaphores and three counters decide when the ZeroMQ context may be torn down.
 */
module Centre {
  import opened Common
  import opened Counters

  datatype NetState = NetRuning | NetClosing | NetClosed | NetDistory | NetFailed

  /** Where the main thread is: `start_zero_center` up to `Serving`, then `close_net_command`. */
  datatype MainPc =
    | WaitDispatcher | CheckDispatcher | WaitPlan | CheckPlan | WaitAll
    | Serving
    | WaitOthers | MarkClosed | PostClose | WaitLast | MarkDistory | TermContext | Done
    | StartFailed

  /** Where a station thread is in its `launch`; only the plan dispatcher waits for its inner thread before it polls. */
  datatype Pc =
    | Unborn | Launching | Joined | Bad
    | Polling | LeftPoll | MonitorSeen | Unregistered | WaitingClosed | Resumed | Destructed | ClosedDown
    | Restarting
    | Ended

  datatype Thread = Thread(pc: Pc, stopped: bool)

  /** A thread inside a station: the dispatcher's monitor, and the plan dispatcher's planner. */
  datatype Monitor = NotSpawned | Spawned | Looping | Finished

  /** `ts[0]` is the dispatcher, `ts[1]` the plan dispatcher, the others are business stations. */
  datatype State = State(net: NetState, main: MainPc, counts: Counts, closePermits: nat,
                         ts: seq<Thread>, monitor: Monitor, monitorPermits: nat, planner: Monitor, plannerPermits: nat)

  datatype Action =
    | MainMoves | LaunchSucceeds(i: nat) | LaunchFails(i: nat) | PlanStarts | StopCommand(i: nat) | Moves(i: nat)
    | MonitorMoves | PlannerMoves

  /** `start_zero_center` after `reset_command_thread` and `station_dispatcher::run`. */
  function Start(count: nat, threads: nat): State
    requires threads >= 2
  {
    State(NetRuning, WaitDispatcher, Counts(count, 0, 0, 0), 0,
          [Thread(Launching, false)] + seq(threads - 1, _ => Thread(Unborn, false)), NotSpawned, 0, NotSpawned, 0)
  }

  function SetPc(s: State, i: nat, pc: Pc): State
    requires i < |s.ts|
  {
    s.(ts := s.ts[i := s.ts[i].(pc := pc)])
  }

  function Launch(t: Thread): Thread {
    if t.pc == Unborn then t.(pc := Launching) else t
  }

  function LaunchAll(ts: seq<Thread>): (r: seq<Thread>)
    ensures |r| == |ts| && forall i | 0 <= i < |ts| :: r[i] == Launch(ts[i])
  {
    seq(|ts|, i requires 0 <= i < |ts| => Launch(ts[i]))
  }

  function MainStep(s: State): Option<State>
    requires |s.ts| >= 2
  {
    var taken := s.(counts := s.counts.(permits := if s.counts.permits > 0 then s.counts.permits - 1 else 0));
    match s.main
    case WaitDispatcher => if s.counts.permits == 0 then None else Some(taken.(main := CheckDispatcher))
    case CheckDispatcher =>
      if s.counts.bad == 1 then Some(s.(main := StartFailed, net := NetFailed))
      else Some(SetPc(s, 1, Launching).(main := WaitPlan))
    case WaitPlan => if s.counts.permits == 0 then None else Some(taken.(main := CheckPlan))
    case CheckPlan =>
      if s.counts.bad == 1 then Some(s.(main := StartFailed, net := NetFailed))
      else Some(s.(main := WaitAll, ts := LaunchAll(s.ts)))
    case WaitAll => if s.counts.permits == 0 then None else Some(taken.(main := Serving))
    case Serving => Some(s.(main := WaitOthers, net := NetClosing))
    case WaitOthers => if s.counts.permits == 0 then None else Some(taken.(main := MarkClosed))
    case MarkClosed => Some(s.(main := PostClose, net := NetClosed))
    case PostClose => Some(s.(main := WaitLast, closePermits := s.closePermits + 1))
    case WaitLast => if s.counts.permits == 0 then None else Some(taken.(main := MarkDistory))
    case MarkDistory => Some(s.(main := TermContext, net := NetDistory))
    case TermContext => Some(s.(main := Done))
    case Done => None
    case StartFailed => None
  }

  /** `station_dispatcher::launch` from its poll loop on. */
  function DispatcherStep(s: State): Option<State>
    requires |s.ts| >= 2
  {
    match s.ts[0].pc
    case Polling => if s.net == NetRuning then None else Some(SetPc(s, 0, LeftPoll))
    case LeftPoll =>
      if s.monitorPermits == 0 then None
      else Some(SetPc(s, 0, MonitorSeen).(monitorPermits := s.monitorPermits - 1))
    case MonitorSeen => Some(SetPc(s, 0, Unregistered))
    case Unregistered => Some(SetPc(s, 0, if s.net == NetRuning then Restarting else WaitingClosed))
    case WaitingClosed =>
      if s.closePermits == 0 then None
      else Some(SetPc(s, 0, Resumed).(closePermits := s.closePermits - 1))
    case Resumed => Some(SetPc(s, 0, Destructed))
    case Destructed => Some(SetPc(s, 0, ClosedDown))
    case ClosedDown => Some(SetPc(s, 0, Ended).(counts := ReportEnd(s.counts)))
    case _ => None
  }

  /** The `launch` of every other station from its poll loop on; the plan dispatcher then waits for its planner a second time. */
  function StationStep(s: State, i: nat): Option<State>
    requires 0 < i < |s.ts|
  {
    var t := s.ts[i];
    match t.pc
    case Polling => if s.net == NetRuning && !t.stopped then None else Some(SetPc(s, i, LeftPoll))
    case LeftPoll =>
      if i != 1 then Some(SetPc(s, i, Unregistered))
      else if s.plannerPermits == 0 then None
      else Some(SetPc(s, 1, Unregistered).(plannerPermits := s.plannerPermits - 1))
    case Unregistered => Some(SetPc(s, i, Destructed))
    case Destructed => Some(SetPc(s, i, if !t.stopped && s.net == NetRuning then Restarting else ClosedDown))
    case ClosedDown => Some(SetPc(s, i, Ended).(counts := ReportEnd(s.counts)))
    case _ => None
  }

  /** `worker_monitor`: it posts once when it starts and once when it sees the centre closing. */
  function MonitorStep(s: State): Option<State> {
    match s.monitor
    case Spawned => Some(s.(monitor := Looping, monitorPermits := s.monitorPermits + 1))
    case Looping =>
      if s.net == NetRuning then None
      else Some(s.(monitor := Finished, monitorPermits := s.monitorPermits + 1))
    case _ => None
  }

  /** `plan_poll`: the same, and its station is a base station, which is never stopped. */
  function PlannerStep(s: State): Option<State> {
    match s.planner
    case Spawned => Some(s.(planner := Looping, plannerPermits := s.plannerPermits + 1))
    case Looping =>
      if s.net == NetRuning then None
      else Some(s.(planner := Finished, plannerPermits := s.plannerPermits + 1))
    case _ => None
  }

  /** The plan dispatcher polls, and reports, once its planner has started. */
  function PlanStartStep(s: State): Option<State>
    requires |s.ts| >= 2
  {
    if s.ts[1].pc != Joined || s.plannerPermits == 0 then None
    else Some(SetPc(s, 1, Polling).(counts := ReportRun(s.counts), plannerPermits := s.plannerPermits - 1))
  }

  predicate Started(m: MainPc) {
    m.Serving? || Closing(m) || m.Done?
  }

  predicate Closing(m: MainPc) {
    m.WaitOthers? || m.MarkClosed? || m.PostClose? || m.WaitLast? || m.MarkDistory? || m.TermContext?
  }

  function Step(s: State, a: Action): Option<State>
    requires |s.ts| >= 2
  {
    match a
    case MainMoves => MainStep(s)
    case MonitorMoves => MonitorStep(s)
    case PlannerMoves => PlannerStep(s)
    case PlanStarts => PlanStartStep(s)
    case LaunchSucceeds(i) =>
      if i == 1 && s.ts[1].pc == Launching then Some(SetPc(s, 1, Joined).(planner := Spawned))
      else if i < |s.ts| && s.ts[i].pc == Launching then
        var s' := SetPc(s, i, Polling).(counts := ReportRun(s.counts));
        Some(if i == 0 then s'.(monitor := Spawned) else s')
      else None
    case LaunchFails(i) =>
      if i < |s.ts| && s.ts[i].pc == Launching then Some(SetPc(s, i, Bad).(counts := ReportBad(s.counts))) else None
    case StopCommand(i) =>
      // Base stations are never stopped; stops during the start are outside this model.
      if 2 <= i < |s.ts| && Started(s.main) && !s.ts[i].stopped then Some(s.(ts := s.ts[i := s.ts[i].(stopped := true)]))
      else None
    case Moves(i) =>
      if i == 0 then DispatcherStep(s) else if i < |s.ts| then StationStep(s, i) else None
  }

  lemma StepKeepsThreads(s: State, a: Action)
    requires |s.ts| >= 2 && Step(s, a).Some?
    ensures |Step(s, a).value.ts| == |s.ts|
  {
  }

  /** Every interleaving is a sequence of actions; `None` when one of them is not enabled. */
  function Run(s: State, actions: seq<Action>): (r: Option<State>)
    requires |s.ts| >= 2
    ensures r.Some? ==> |r.value.ts| == |s.ts|
    decreases |actions|
  {
    if actions == [] then Some(s)
    else match Step(s, actions[0])
      case None => None
      case Some(s') => StepKeepsThreads(s, actions[0]); Run(s', actions[1..])
  }

  // ---------- Counting threads ----------

  predicate Reported(t: Thread) {
    t.pc != Unborn && t.pc != Launching && t.pc != Joined
  }

  predicate Live(t: Thread) {
    Reported(t) && t.pc != Bad && t.pc != Ended
  }

  predicate IsBad(t: Thread) {
    t.pc == Bad
  }

  function Count(ts: seq<Thread>, p: Thread -> bool): nat {
    if ts == [] then 0 else (if p(ts[0]) then 1 else 0) + Count(ts[1..], p)
  }

  lemma {:induction false} CountUpdate(ts: seq<Thread>, i: nat, t: Thread, p: Thread -> bool)
    requires i < |ts|
    ensures Count(ts[i := t], p) == Count(ts, p) - (if p(ts[i]) then 1 else 0) + (if p(t) then 1 else 0)
  {
    if i == 0 {
      assert ts[i := t][1..] == ts[1..];
    } else {
      assert ts[i := t][1..] == ts[1..][i - 1 := t];
      CountUpdate(ts[1..], i - 1, t, p);
    }
  }

  lemma {:induction false} CountSame(ts: seq<Thread>, us: seq<Thread>, p: Thread -> bool)
    requires |ts| == |us| && forall i | 0 <= i < |ts| :: p(ts[i]) == p(us[i])
    ensures Count(ts, p) == Count(us, p)
  {
    if ts != [] {
      CountSame(ts[1..], us[1..], p);
    }
  }

  lemma {:induction false} CountBounds(ts: seq<Thread>, p: Thread -> bool)
    ensures Count(ts, p) <= |ts|
    ensures Count(ts, p) == |ts| <==> forall i | 0 <= i < |ts| :: p(ts[i])
    ensures Count(ts, p) == 0 <==> forall i | 0 <= i < |ts| :: !p(ts[i])
  {
    if ts != [] {
      CountBounds(ts[1..], p);
      assert forall i | 1 <= i < |ts| :: ts[i] == ts[1..][i - 1];
    }
  }

  lemma CountFront(ts: seq<Thread>, p: Thread -> bool)
    requires |ts| >= 2
    ensures Count(ts, p) == (if p(ts[0]) then 1 else 0) + Count(ts[1..], p)
    ensures Count(ts, p) == (if p(ts[0]) then 1 else 0) + (if p(ts[1]) then 1 else 0) + Count(ts[2..], p)
  {
    assert ts[1..][1..] == ts[2..];
  }

  // ---------- The invariant ----------

  /** How many permits `check_semaphore_start` has posted after `r` reports. */
  function Posts(r: nat, count: int): nat {
    (if r <= 2 then r else 2) + (if 3 <= count <= r then 1 else 0)
  }

  function Taken(m: MainPc): nat {
    match m
    case WaitDispatcher => 0
    case CheckDispatcher => 1
    case WaitPlan => 1
    case CheckPlan => 2
    case WaitAll => 2
    case _ => 3
  }

  predicate StartThread(t: Thread, born: bool) {
    !t.stopped && (t.pc == Unborn || t.pc == Launching || t.pc == Joined || t.pc == Polling || t.pc == Bad) && (t.pc == Unborn <==> !born)
  }

  /** No thread has left its poll loop yet, and only the threads below `born` exist. */
  predicate Starting(s: State, born: nat) {
    && s.net == NetRuning && s.closePermits == 0
    && (forall i | 0 <= i < |s.ts| :: StartThread(s.ts[i], i < born))
    && s.counts.permits + Taken(s.main) == Posts(Count(s.ts, Reported), s.counts.count)
  }

  predicate DispatcherPassedClose(s: State)
    requires |s.ts| >= 2
  {
    var pc := s.ts[0].pc;
    pc == Resumed || pc == Destructed || pc == ClosedDown || pc == Ended
  }

  predicate OthersGone(s: State)
    requires |s.ts| >= 2
  {
    forall i | 1 <= i < |s.ts| :: !Live(s.ts[i])
  }

  /** Places only a station other than the dispatcher can be in; no restart among them. */
  predicate StationPc(pc: Pc) {
    match pc
    case Restarting => false
    case MonitorSeen => false
    case WaitingClosed => false
    case Resumed => false
    case _ => true
  }

  /** Left the poll loop, and has not yet decided between restart and close. */
  predicate Undecided(pc: Pc) {
    pc.LeftPoll? || pc.Unregistered? || pc.Destructed?
  }

  predicate NotLeft(pc: Pc) {
    pc.Unborn? || pc.Launching? || pc.Joined? || pc.Bad? || pc.Polling?
  }

  /** A station leaves its poll loop in a running centre only because it was stopped. */
  predicate InvStation(net: NetState, t: Thread) {
    StationPc(t.pc) && (net.NetRuning? && Undecided(t.pc) ==> t.stopped)
  }

  predicate InvThreads(s: State) {
    && 2 <= |s.ts| <= s.counts.count
    && s.counts.run == Count(s.ts, Live)
    && s.counts.bad == Count(s.ts, IsBad)
    && (s.net.NetRuning? ==> NotLeft(s.ts[0].pc))
    && s.ts[0].pc != Restarting && (forall i | 0 <= i < |s.ts| && i != 1 :: s.ts[i].pc != Joined)
    && (forall i | 1 <= i < |s.ts| :: InvStation(s.net, s.ts[i]))
  }

  predicate PassedMonitor(pc: Pc) {
    pc.MonitorSeen? || pc.Unregistered? || pc.WaitingClosed? || pc.Resumed? || pc.Destructed? || pc.ClosedDown? || pc.Ended?
  }

  predicate InvMonitor(s: State)
    requires |s.ts| >= 2
  {
    var pc := s.ts[0].pc;
    && (s.monitor.NotSpawned? <==> pc.Unborn? || pc.Launching? || pc.Bad?)
    && s.monitorPermits + (if PassedMonitor(pc) then 1 else 0) ==
       (match s.monitor case Looping => 1 case Finished => 2 case _ => 0)
    && (s.monitor.Finished? ==> !s.net.NetRuning?)
  }

  /** Both waits of the plan dispatcher, each for one of the planner's two posts. */
  function PlannerWaits(pc: Pc): nat {
    if NotLeft(pc) && !pc.Polling? then 0 else if pc.Polling? || pc.LeftPoll? then 1 else 2
  }

  predicate InvPlanner(s: State)
    requires |s.ts| >= 2
  {
    var pc := s.ts[1].pc;
    && (s.planner.NotSpawned? <==> pc.Unborn? || pc.Launching? || pc.Bad?)
    && s.plannerPermits + PlannerWaits(pc) == (match s.planner case Looping => 1 case Finished => 2 case _ => 0)
    && (s.planner.Finished? ==> !s.net.NetRuning?)
  }

  predicate InvMain(s: State)
    requires |s.ts| >= 2
  {
    match s.main
    case WaitDispatcher => Starting(s, 1)
    case CheckDispatcher => Starting(s, 1) && Reported(s.ts[0])
    case WaitPlan => Starting(s, 2) && s.ts[0].pc == Polling
    case CheckPlan => Starting(s, 2) && s.ts[0].pc == Polling && Reported(s.ts[1])
    case WaitAll => Starting(s, |s.ts|) && s.ts[0].pc == Polling && s.ts[1].pc == Polling
    case StartFailed =>
      s.net == NetFailed && s.closePermits == 0 && !DispatcherPassedClose(s) && (s.ts[0].pc == Bad || s.ts[1].pc == Bad)
    case _ =>
      && Started(s.main)
      && 3 <= |s.ts| == s.counts.count
      && (forall i | 0 <= i < |s.ts| :: Reported(s.ts[i]))
      && s.ts[0].pc != Bad && s.ts[1].pc != Bad
      && InvServing(s)
  }

  predicate InvServing(s: State)
    requires |s.ts| >= 2
  {
    var othersDone := if OthersGone(s) then 1 else 0;
    match s.main
    case Serving => s.net == NetRuning && s.closePermits == 0 && s.counts.permits == othersDone
    case WaitOthers => s.net == NetClosing && s.closePermits == 0 && !DispatcherPassedClose(s) && s.counts.permits == othersDone
    case MarkClosed => s.net == NetClosing && s.closePermits == 0 && !DispatcherPassedClose(s) && OthersGone(s) && s.counts.permits == 0
    case PostClose => s.net == NetClosed && s.closePermits == 0 && !DispatcherPassedClose(s) && OthersGone(s) && s.counts.permits == 0
    case WaitLast =>
      && s.net == NetClosed && OthersGone(s)
      && s.closePermits == (if DispatcherPassedClose(s) then 0 else 1)
      && s.counts.permits == (if s.ts[0].pc == Ended then 1 else 0)
    case _ =>
      && s.net == (if s.main.MarkDistory? then NetClosed else NetDistory)
      && OthersGone(s) && s.ts[0].pc == Ended
  }

  predicate Inv(s: State) {
    InvThreads(s) && InvMonitor(s) && InvPlanner(s) && InvMain(s)
  }

  lemma InvStart(count: nat, threads: nat)
    requires 2 <= threads <= count
    ensures Inv(Start(count, threads))
  {
    var s := Start(count, threads);
    CountBounds(s.ts, Reported);
    CountBounds(s.ts, Live);
    CountBounds(s.ts, IsBad);
  }

  /** What one thread's change of place does to the three counts. */
  lemma CountsAfter(s: State, i: nat, t: Thread)
    requires i < |s.ts|
    ensures var us := s.ts[i := t];
      && Count(us, Reported) == Count(s.ts, Reported) - (if Reported(s.ts[i]) then 1 else 0) + (if Reported(t) then 1 else 0)
      && Count(us, Live) == Count(s.ts, Live) - (if Live(s.ts[i]) then 1 else 0) + (if Live(t) then 1 else 0)
      && Count(us, IsBad) == Count(s.ts, IsBad) - (if IsBad(s.ts[i]) then 1 else 0) + (if IsBad(t) then 1 else 0)
  {
    CountUpdate(s.ts, i, t, Reported);
    CountUpdate(s.ts, i, t, Live);
    CountUpdate(s.ts, i, t, IsBad);
  }

  /** While threads only start, everything reported is running or bad. */
  lemma {:induction false} ReportedSplits(ts: seq<Thread>)
    requires forall i | 0 <= i < |ts| :: ts[i].pc != Ended
    ensures Count(ts, Reported) == Count(ts, Live) + Count(ts, IsBad)
  {
    if ts != [] {
      ReportedSplits(ts[1..]);
    }
  }

  predicate IsLaunch(a: Action) {
    a.LaunchSucceeds? || a.LaunchFails? || a.PlanStarts?
  }

  function Launched(a: Action): nat
    requires IsLaunch(a)
  {
    if a.PlanStarts? then 1 else a.i
  }

  /** What a launch does to its thread and to the counts. */
  lemma LaunchFrame(s: State, a: Action)
    requires |s.ts| >= 2 && IsLaunch(a) && Step(s, a).Some?
    ensures var s', i := Step(s, a).value, Launched(a);
      && i < |s.ts| && |s'.ts| == |s.ts| && s'.ts == s.ts[i := s'.ts[i]] && s'.net == s.net && s'.main == s.main
      && s'.counts == (if Live(s'.ts[i]) then ReportRun(s.counts) else if IsBad(s'.ts[i]) then ReportBad(s.counts) else s.counts)
      && s'.counts.count == s.counts.count && !Live(s.ts[i]) && !IsBad(s.ts[i]) && !s.ts[i].pc.Unborn?
      && s'.ts[i].stopped == s.ts[i].stopped && s'.closePermits == s.closePermits
      && s'.counts.run == s.counts.run + (if Live(s'.ts[i]) then 1 else 0)
      && s'.counts.bad == s.counts.bad + (if IsBad(s'.ts[i]) then 1 else 0)
      && (s'.ts[i].pc.Polling? || s'.ts[i].pc.Bad? || (i == 1 && s'.ts[i].pc.Joined?))
  {
  }

  lemma LaunchKeepsThreads(s: State, a: Action)
    requires InvThreads(s) && IsLaunch(a) && Step(s, a).Some?
    ensures InvThreads(Step(s, a).value)
  {
    var i, s' := Launched(a), Step(s, a).value;
    LaunchFrame(s, a);
    CountsAfter(s, i, s'.ts[i]);
    hide Step, Live, IsBad, Reported;
  }

  lemma LaunchOnlyAtStart(s: State, a: Action)
    requires |s.ts| >= 2 && InvMain(s) && IsLaunch(a) && Step(s, a).Some?
    ensures s.main.WaitDispatcher? || s.main.WaitPlan? || s.main.WaitAll? || s.main.StartFailed?
  {
    hide InvServing, Count, Posts;
    assert !Reported(s.ts[Launched(a)]);
  }

  lemma PostsGrow(c: Counts, r: nat)
    requires c.run + c.bad == r
    ensures ReportRun(c).permits - c.permits == Posts(r + 1, c.count) - Posts(r, c.count)
    ensures ReportBad(c).permits - c.permits == Posts(r + 1, c.count) - Posts(r, c.count)
    ensures ReportRun(c).count == ReportBad(c).count == c.count
  {
  }

  lemma NobodyEnded(s: State, born: nat)
    requires Starting(s, born)
    ensures forall i | 0 <= i < |s.ts| :: s.ts[i].pc != Ended
  {
    hide Posts, Count;
  }

  lemma LaunchKeepsStarting(s: State, a: Action, born: nat)
    requires InvThreads(s) && Starting(s, born) && IsLaunch(a) && Step(s, a).Some?
    requires s.main.WaitDispatcher? || s.main.CheckDispatcher? || s.main.WaitPlan? || s.main.CheckPlan? || s.main.WaitAll?
    ensures Starting(Step(s, a).value, born)
  {
    var i, s' := Launched(a), Step(s, a).value;
    LaunchFrame(s, a);
    CountsAfter(s, i, s'.ts[i]);
    NobodyEnded(s, born);
    ReportedSplits(s.ts);
    PostsGrow(s.counts, Count(s.ts, Reported));
    hide Posts, ReportRun, ReportBad, InvStation, Count, Step;
  }

  lemma LaunchKeepsMain(s: State, a: Action)
    requires InvThreads(s) && InvMain(s) && IsLaunch(a) && Step(s, a).Some?
    ensures InvMain(Step(s, a).value)
  {
    LaunchOnlyAtStart(s, a);
    hide InvServing, InvStation, Started, Starting, InvThreads, Count;
    match s.main
    case WaitDispatcher => LaunchKeepsStarting(s, a, 1);
    case WaitPlan => LaunchKeepsStarting(s, a, 2);
    case WaitAll => LaunchKeepsStarting(s, a, |s.ts|);
    case _ =>
  }

  lemma LaunchKeepsMonitors(s: State, a: Action)
    requires |s.ts| >= 2 && InvMonitor(s) && InvPlanner(s) && IsLaunch(a) && Step(s, a).Some?
    ensures |Step(s, a).value.ts| >= 2 && InvMonitor(Step(s, a).value) && InvPlanner(Step(s, a).value)
  {
    hide ReportRun, ReportBad;
  }

  lemma LaunchKeepsInv(s: State, a: Action)
    requires Inv(s) && IsLaunch(a) && Step(s, a).Some?
    ensures Inv(Step(s, a).value)
  {
    assert InvThreads(s) && InvMain(s) && InvMonitor(s) && InvPlanner(s) && |s.ts| >= 2;
    hide Inv, InvThreads, InvMain, InvMonitor, InvPlanner, Step;
    LaunchKeepsThreads(s, a);
    LaunchKeepsMain(s, a);
    LaunchKeepsMonitors(s, a);
    InvOf(Step(s, a).value);
  }

  /** An inner thread changes nothing that the other threads see. */
  lemma InnerKeepsRest(s: State, t: State)
    requires InvThreads(s) && InvMain(s) && t.ts == s.ts && t.main == s.main && t.net == s.net && t.counts == s.counts
    requires t.closePermits == s.closePermits
    ensures InvThreads(t) && InvMain(t)
  {
    hide Count, InvStation, Posts;
  }

  lemma MonitorKeepsInv(s: State)
    requires Inv(s) && MonitorStep(s).Some?
    ensures Inv(MonitorStep(s).value)
  {
    InnerKeepsRest(s, MonitorStep(s).value);
    hide InvThreads, InvMain;
  }

  lemma PlannerKeepsInv(s: State)
    requires Inv(s) && PlannerStep(s).Some?
    ensures Inv(PlannerStep(s).value)
  {
    InnerKeepsRest(s, PlannerStep(s).value);
    hide InvThreads, InvMain;
  }

  lemma StopKeepsThreads(s: State, i: nat)
    requires InvThreads(s) && Step(s, StopCommand(i)).Some?
    ensures InvThreads(Step(s, StopCommand(i)).value)
  {
    CountsAfter(s, i, Step(s, StopCommand(i)).value.ts[i]);
  }

  lemma StopKeepsMain(s: State, i: nat)
    requires |s.ts| >= 2 && InvMain(s) && Step(s, StopCommand(i)).Some?
    ensures InvMain(Step(s, StopCommand(i)).value)
  {
    hide Starting, Count;
    var s' := Step(s, StopCommand(i)).value;
    assert forall k | 0 <= k < |s.ts| :: s'.ts[k].pc == s.ts[k].pc;
    assert OthersGone(s) == OthersGone(s');
  }

  lemma StopKeepsInv(s: State, i: nat)
    requires Inv(s) && Step(s, StopCommand(i)).Some?
    ensures Inv(Step(s, StopCommand(i)).value)
  {
    StopKeepsThreads(s, i);
    StopKeepsMain(s, i);
    hide InvThreads, InvMain;
  }

  lemma StationKeepsThreads(s: State, i: nat)
    requires InvThreads(s) && 0 < i < |s.ts| && StationStep(s, i).Some?
    ensures InvThreads(StationStep(s, i).value)
  {
    var s' := StationStep(s, i).value;
    CountsAfter(s, i, s'.ts[i]);
    assert s'.ts == s.ts[i := s'.ts[i]];
  }

  /** Before the centre serves, no station that has reported moves on. */
  lemma StationsIdleAtStart(s: State, i: nat)
    requires |s.ts| >= 2 && InvMain(s) && 0 < i < |s.ts| && StationStep(s, i).Some?
    ensures Started(s.main) || s.main.StartFailed?
  {
    hide InvServing, Count;
  }

  lemma StationLeavesOthers(s: State, i: nat)
    requires |s.ts| >= 2 && InvMain(s) && Started(s.main) && 0 < i < |s.ts| && StationStep(s, i).Some?
    ensures s.main.Serving? || s.main.WaitOthers?
  {
    hide Count;
    assert Live(s.ts[i]);
  }

  /** What a step of a station does to all that the main thread waits for. */
  lemma StationFrame(s: State, i: nat)
    requires |s.ts| >= 2 && 0 < i < |s.ts| && StationStep(s, i).Some?
    ensures var s', t := StationStep(s, i).value, s.ts[i];
      && s'.main == s.main && s'.net == s.net && s'.closePermits == s.closePermits
      && s'.ts == s.ts[i := s'.ts[i]] && s'.ts[0] == s.ts[0] && Live(t)
      && s'.counts == (if t.pc.ClosedDown? then ReportEnd(s.counts) else s.counts)
      && (Live(s'.ts[i]) <==> !t.pc.ClosedDown?)
  {
    hide ReportEnd;
  }

  /** The station that ends posts exactly when it is the last one. */
  lemma StationEnds(s: State, i: nat)
    requires InvThreads(s) && Live(s.ts[0]) && 0 < i < |s.ts| && StationStep(s, i).Some?
    ensures var s' := StationStep(s, i).value;
      && |s'.ts| >= 2 && s'.counts.permits == s.counts.permits + (if OthersGone(s') then 1 else 0)
  {
    StationFrame(s, i);
    var s' := StationStep(s, i).value;
    CountsAfter(s, i, s'.ts[i]);
    OthersCounted(s);
    OthersCounted(s');
    hide StationStep, InvStation, Count, OthersGone, Live;
    if Live(s'.ts[i]) {
      assert !OthersGone(s') by { LiveIsNotGone(s', i); }
    }
  }

  lemma LiveIsNotGone(s: State, i: nat)
    requires 0 < i < |s.ts| && Live(s.ts[i])
    ensures !OthersGone(s)
  {
  }

  lemma StationKeepsServing(s: State, i: nat)
    requires InvThreads(s) && InvMain(s) && Started(s.main) && 0 < i < |s.ts| && StationStep(s, i).Some?
    ensures InvServing(StationStep(s, i).value)
  {
    StationLeavesOthers(s, i);
    StationFrame(s, i);
    DispatcherLives(s);
    StationEnds(s, i);
    LiveIsNotGone(s, i);
    hide InvThreads, StationStep, OthersGone, Starting, Live, Reported;
  }

  lemma DispatcherLives(s: State)
    requires |s.ts| >= 2 && InvMain(s) && (s.main.Serving? || s.main.WaitOthers?) && InvThreads(s)
    ensures Live(s.ts[0])
  {
    hide Count, InvStation;
  }

  lemma StationKeepsMain(s: State, i: nat)
    requires InvThreads(s) && InvMain(s) && 0 < i < |s.ts| && StationStep(s, i).Some?
    ensures InvMain(StationStep(s, i).value)
  {
    StationsIdleAtStart(s, i);
    StationStepFrame(s, i);
    if Started(s.main) {
      StationKeepsServing(s, i);
    }
    hide InvThreads, InvServing, Starting, Count, StationStep, ReportEnd, Reported;
  }

  lemma StationStepFrame(s: State, i: nat)
    requires 0 < i < |s.ts| && StationStep(s, i).Some?
    ensures var s' := StationStep(s, i).value;
      && s'.main == s.main && s'.net == s.net && s'.counts.count == s.counts.count
      && s'.ts == s.ts[i := s'.ts[i]] && Reported(s'.ts[i])
  {
  }

  /** What a station's step leaves of the inner threads. */
  lemma StationLeavesMonitors(s: State, i: nat)
    requires 0 < i < |s.ts| && StationStep(s, i).Some?
    ensures var s' := StationStep(s, i).value;
      && s'.ts[0] == s.ts[0] && s'.monitor == s.monitor && s'.monitorPermits == s.monitorPermits
      && s'.planner == s.planner && s'.net == s.net
      && (i != 1 ==> s'.ts[1] == s.ts[1] && s'.plannerPermits == s.plannerPermits)
      && (i == 1 ==> s'.plannerPermits + PlannerWaits(s'.ts[1].pc) == s.plannerPermits + PlannerWaits(s.ts[1].pc))
      && (i == 1 ==> PlannerWaits(s.ts[1].pc) > 0 && PlannerWaits(s'.ts[1].pc) > 0)
  {
    hide ReportEnd;
  }

  lemma StationKeepsMonitors(s: State, i: nat)
    requires |s.ts| >= 2 && InvMonitor(s) && InvPlanner(s) && 0 < i < |s.ts| && StationStep(s, i).Some?
    ensures |StationStep(s, i).value.ts| >= 2
    ensures InvMonitor(StationStep(s, i).value) && InvPlanner(StationStep(s, i).value)
  {
    StationLeavesMonitors(s, i);
    StationStepFrame(s, i);
    hide StationStep;
  }

  lemma StationKeepsInv(s: State, i: nat)
    requires Inv(s) && 0 < i < |s.ts| && StationStep(s, i).Some?
    ensures Inv(StationStep(s, i).value)
  {
    assert InvThreads(s) && InvMain(s) && InvMonitor(s) && InvPlanner(s);
    hide Inv, InvThreads, InvMain, InvMonitor, InvPlanner, StationStep;
    StationKeepsThreads(s, i);
    StationKeepsMain(s, i);
    StationKeepsMonitors(s, i);
    InvOf(StationStep(s, i).value);
  }

  lemma InvOf(s: State)
    requires InvThreads(s) && InvMonitor(s) && InvPlanner(s) && InvMain(s)
    ensures Inv(s)
  {
  }

  /** `zero_thread_run` counts the dispatcher and the stations that are left. */
  lemma OthersCounted(s: State)
    requires |s.ts| >= 2
    ensures Count(s.ts, Live) == (if Live(s.ts[0]) then 1 else 0) + Count(s.ts[1..], Live)
    ensures OthersGone(s) <==> Count(s.ts[1..], Live) == 0
  {
    CountFront(s.ts, Live);
    CountBounds(s.ts[1..], Live);
    assert forall i | 1 <= i < |s.ts| :: s.ts[i] == s.ts[1..][i - 1];
  }

  lemma DispatcherKeepsThreads(s: State)
    requires InvThreads(s) && DispatcherStep(s).Some?
    ensures InvThreads(DispatcherStep(s).value)
  {
    var s' := DispatcherStep(s).value;
    CountsAfter(s, 0, s'.ts[0]);
    assert s'.ts == s.ts[0 := s'.ts[0]];
  }

  lemma DispatcherIdleAtStart(s: State)
    requires |s.ts| >= 2 && InvThreads(s) && InvMain(s) && DispatcherStep(s).Some?
    ensures Closing(s.main) || s.main.StartFailed?
  {
    hide Count;
  }

  /** What a step of the dispatcher does to all that the main thread waits for. */
  lemma DispatcherFrame(s: State)
    requires |s.ts| >= 2 && DispatcherStep(s).Some?
    ensures var s', pc := DispatcherStep(s).value, s.ts[0].pc;
      && |s'.ts| >= 2 && s'.main == s.main && s'.net == s.net && OthersGone(s') == OthersGone(s) && !pc.Ended?
      && s'.counts == (if pc.ClosedDown? then ReportEnd(s.counts) else s.counts)
      && s'.closePermits == s.closePermits - (if pc.WaitingClosed? then 1 else 0) && (pc.WaitingClosed? ==> s.closePermits > 0)
      && (DispatcherPassedClose(s) <==> pc.Resumed? || pc.Destructed? || pc.ClosedDown?)
      && (DispatcherPassedClose(s') <==> pc.WaitingClosed? || DispatcherPassedClose(s))
      && (s'.ts[0].pc.Ended? <==> pc.ClosedDown?)
  {
    hide ReportEnd, Live;
    var s' := DispatcherStep(s).value;
    assert forall i | 1 <= i < |s.ts| :: s'.ts[i] == s.ts[i];
  }

  lemma EndAlone(s: State)
    requires InvThreads(s) && OthersGone(s) && s.ts[0].pc.ClosedDown?
    ensures ReportEnd(s.counts).permits == s.counts.permits + 1
  {
    hide InvStation;
    OthersCounted(s);
  }

  lemma DispatcherKeepsServing(s: State)
    requires InvThreads(s) && InvServing(s) && Closing(s.main) && DispatcherStep(s).Some?
    ensures |DispatcherStep(s).value.ts| >= 2 && InvServing(DispatcherStep(s).value)
  {
    DispatcherFrame(s);
    if OthersGone(s) && s.ts[0].pc.ClosedDown? {
      EndAlone(s);
    }
    hide InvThreads, DispatcherStep, OthersGone, DispatcherPassedClose, ReportEnd;
  }

  lemma DispatcherKeepsReported(s: State)
    requires |s.ts| >= 2 && DispatcherStep(s).Some?
    ensures var s' := DispatcherStep(s).value;
      && s'.ts == s.ts[0 := s'.ts[0]] && Reported(s'.ts[0]) && !s'.ts[0].pc.Bad? && !s.ts[0].pc.Bad?
      && s'.counts.count == s.counts.count
  {
  }

  lemma DispatcherKeepsMain(s: State)
    requires InvThreads(s) && InvMain(s) && DispatcherStep(s).Some?
    ensures InvMain(DispatcherStep(s).value)
  {
    DispatcherIdleAtStart(s);
    DispatcherFrame(s);
    DispatcherKeepsReported(s);
    if Closing(s.main) {
      DispatcherKeepsServing(s);
    }
    hide InvThreads, InvServing, Starting, DispatcherStep, OthersGone, Reported, Live, ReportEnd;
  }

  lemma DispatcherKeepsInv(s: State)
    requires Inv(s) && DispatcherStep(s).Some?
    ensures Inv(DispatcherStep(s).value)
  {
    DispatcherKeepsThreads(s);
    DispatcherKeepsMain(s);
    hide InvThreads, InvMain;
  }

  lemma MainKeepsThreads(s: State)
    requires InvThreads(s) && InvMain(s) && MainStep(s).Some?
    ensures InvThreads(MainStep(s).value)
  {
    hide InvServing, Posts, Count;
    var s' := MainStep(s).value;
    if s.main.CheckDispatcher? {
      CountsAfter(s, 1, s'.ts[1]);
    } else if s.main.CheckPlan? {
      CountSame(s.ts, s'.ts, Live);
      CountSame(s.ts, s'.ts, IsBad);
    }
  }

  /** The main thread launches, and leaves the inner threads alone. */
  lemma MainLeavesMonitors(s: State)
    requires |s.ts| >= 2 && MainStep(s).Some? && (s.main.CheckDispatcher? ==> s.ts[1].pc.Unborn?)
    ensures var s' := MainStep(s).value;
      && |s'.ts| >= 2 && s'.monitor == s.monitor && s'.monitorPermits == s.monitorPermits
      && s'.planner == s.planner && s'.plannerPermits == s.plannerPermits && (s'.net.NetRuning? ==> s.net.NetRuning?)
      && (s'.ts[0].pc == s.ts[0].pc || (s.ts[0].pc.Unborn? && s'.ts[0].pc.Launching?))
      && (s'.ts[1].pc == s.ts[1].pc || (s.ts[1].pc.Unborn? && s'.ts[1].pc.Launching?))
  {
  }

  lemma MainKeepsMonitors(s: State)
    requires InvThreads(s) && InvMain(s) && InvMonitor(s) && InvPlanner(s) && MainStep(s).Some?
    ensures InvMonitor(MainStep(s).value) && InvPlanner(MainStep(s).value)
  {
    PlanUnborn(s);
    MainLeavesMonitors(s);
    hide InvThreads, InvMain, MainStep;
  }

  lemma PlanUnborn(s: State)
    requires |s.ts| >= 2 && InvMain(s)
    ensures s.main.CheckDispatcher? ==> s.ts[1].pc.Unborn?
  {
    hide InvServing, Count, Posts;
  }

  lemma MainKeepsWaits(s: State)
    requires Inv(s) && MainStep(s).Some? && (s.main.WaitDispatcher? || s.main.WaitPlan?)
    ensures InvMain(MainStep(s).value)
  {
    hide InvMonitor, InvStation, InvServing;
    CountFront(s.ts, Reported);
    if s.main.WaitDispatcher? {
      CountBounds(s.ts[1..], Reported);
    } else {
      CountBounds(s.ts[2..], Reported);
    }
  }

  lemma MainKeepsCheckDispatcher(s: State)
    requires Inv(s) && MainStep(s).Some? && s.main.CheckDispatcher?
    ensures InvMain(MainStep(s).value)
  {
    hide InvMonitor, InvStation, InvServing;
    CountFront(s.ts, IsBad);
    CountBounds(s.ts[1..], IsBad);
    CountsAfter(s, 1, MainStep(s).value.ts[1]);
  }

  lemma MainKeepsCheckPlan(s: State)
    requires Inv(s) && MainStep(s).Some? && s.main.CheckPlan?
    ensures InvMain(MainStep(s).value)
  {
    hide InvMonitor, InvStation, InvServing;
    CountFront(s.ts, IsBad);
    CountBounds(s.ts[2..], IsBad);
    CountSame(s.ts, MainStep(s).value.ts, Reported);
  }

  lemma MainKeepsWaitAll(s: State)
    requires Inv(s) && MainStep(s).Some? && s.main.WaitAll?
    ensures InvMain(MainStep(s).value)
  {
    hide InvMonitor, InvStation;
    CountBounds(s.ts, Reported);
    assert Live(s.ts[1]);
  }

  lemma MainKeepsServing(s: State)
    requires |s.ts| >= 2 && InvMain(s) && MainStep(s).Some? && Started(s.main) && (s.net.NetRuning? ==> NotLeft(s.ts[0].pc))
    ensures |MainStep(s).value.ts| >= 2 && InvMain(MainStep(s).value)
  {
    hide Starting, Count, Posts, LaunchAll, Reported, Live, SetPc;
  }

  lemma MainKeepsMain(s: State)
    requires Inv(s) && MainStep(s).Some?
    ensures InvMain(MainStep(s).value)
  {
    assert !s.main.StartFailed? && (s.net.NetRuning? ==> NotLeft(s.ts[0].pc));
    hide InvMain, InvThreads, InvMonitor, InvPlanner, MainStep;
    if Started(s.main) {
      MainKeepsServing(s);
    } else {
      match s.main {
        case WaitAll => MainKeepsWaitAll(s);
        case CheckDispatcher => MainKeepsCheckDispatcher(s);
        case CheckPlan => MainKeepsCheckPlan(s);
        case _ => MainKeepsWaits(s);
      }
    }
  }

  lemma MainKeepsInv(s: State)
    requires Inv(s) && MainStep(s).Some?
    ensures Inv(MainStep(s).value)
  {
    MainKeepsMain(s);
    assert InvThreads(s) && InvMain(s) && InvMonitor(s) && InvPlanner(s);
    hide Inv, InvThreads, InvMain, InvMonitor, InvPlanner, MainStep;
    MainKeepsThreads(s);
    MainKeepsMonitors(s);
    InvOf(MainStep(s).value);
  }

  lemma StepKeepsInv(s: State, a: Action)
    requires Inv(s) && Step(s, a).Some?
    ensures Inv(Step(s, a).value)
  {
    match a
    case MainMoves => MainKeepsInv(s);
    case MonitorMoves => MonitorKeepsInv(s);
    case PlannerMoves => PlannerKeepsInv(s);
    case StopCommand(i) => StopKeepsInv(s, i);
    case Moves(i) => if i == 0 { DispatcherKeepsInv(s); } else { StationKeepsInv(s, i); }
    case _ => LaunchKeepsInv(s, a);
  }
}
