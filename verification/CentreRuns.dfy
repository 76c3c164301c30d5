/** What holds of every run of the centre's threads: order of shutdown, bounded length, and no deadlock. */
module CentreRuns {
  import opened Common
  import opened Counters
  import opened Centre

  // ---------- Every run keeps the invariant ----------

  lemma {:induction false} RunKeepsInv(s: State, actions: seq<Action>)
    requires Inv(s) && Run(s, actions).Some?
    ensures Inv(Run(s, actions).value)
    decreases |actions|
  {
    if actions != [] {
      StepKeepsInv(s, actions[0]);
      RunKeepsInv(Step(s, actions[0]).value, actions[1..]);
    }
  }

  // ---------- What every run does ----------

  lemma ReachableInv(count: nat, threads: nat, actions: seq<Action>)
    requires 2 <= threads <= count && Run(Start(count, threads), actions).Some?
    ensures Inv(Run(Start(count, threads), actions).value)
    ensures Run(Start(count, threads), actions).value.counts.count == count
  {
    InvStart(count, threads);
    RunKeepsInv(Start(count, threads), actions);
    RunKeepsCount(Start(count, threads), actions);
  }

  lemma {:induction false} RunKeepsCount(s: State, actions: seq<Action>)
    requires |s.ts| >= 2 && Run(s, actions).Some?
    ensures Run(s, actions).value.counts.count == s.counts.count
    decreases |actions|
  {
    if actions != [] {
      RunKeepsCount(Step(s, actions[0]).value, actions[1..]);
    }
  }

  /**
    Once every thread that was launched has reported, the start has posted three permits in total exactly when
    every counted station was launched and there are at least three; a counted station that is never launched
    leaves the third wait blocked.
   */
  lemma PermitsPostedAtStart(count: nat, threads: nat, actions: seq<Action>)
    requires 2 <= threads <= count
    requires Run(Start(count, threads), actions).Some?
    requires var s := Run(Start(count, threads), actions).value;
      s.main.WaitAll? && forall i | 0 <= i < |s.ts| :: Reported(s.ts[i])
    ensures var s := Run(Start(count, threads), actions).value;
      && s.counts.permits + Taken(s.main) == (if threads == count >= 3 then 3 else 2)
      && (MainStep(s).Some? <==> threads == count >= 3)
  {
    ReachableInv(count, threads, actions);
    var s := Run(Start(count, threads), actions).value;
    CountBounds(s.ts, Reported);
  }

  /** The third wait passes only after all reports, on the last permit: the semaphore is empty when the start event is sent. */
  lemma StartEventAfterAllReports(count: nat, threads: nat, actions: seq<Action>)
    requires 2 <= threads <= count
    requires Run(Start(count, threads), actions).Some?
    requires var s := Run(Start(count, threads), actions).value; s.main.WaitAll? && MainStep(s).Some?
    ensures var s := Run(Start(count, threads), actions).value;
      && count == threads >= 3
      && (forall i | 0 <= i < |s.ts| :: Reported(s.ts[i]))
      && MainStep(s).value.main.Serving? && MainStep(s).value.counts.permits == 0
  {
    ReachableInv(count, threads, actions);
    CountBounds(Run(Start(count, threads), actions).value.ts, Reported);
  }

  // ---------- The way of each thread ----------

  /** What a thread that ends has gone through; only the plan dispatcher waits for its inner thread before it polls. */
  function Way(i: nat): seq<Pc> {
    if i == 0 then
      [Launching, Polling, LeftPoll, MonitorSeen, Unregistered, WaitingClosed, Resumed, Destructed, ClosedDown, Ended]
    else if i == 1 then [Unborn, Launching, Joined, Polling, LeftPoll, Unregistered, Destructed, ClosedDown, Ended]
    else [Unborn, Launching, Polling, LeftPoll, Unregistered, Destructed, ClosedDown, Ended]
  }

  /** The places of thread `i` over a run, one for every time it moves on. */
  function Trail(s: State, actions: seq<Action>, i: nat): (r: seq<Pc>)
    requires i < |s.ts| && |s.ts| >= 2 && Run(s, actions).Some?
    ensures r != [] && r[0] == s.ts[i].pc && r[|r| - 1] == Run(s, actions).value.ts[i].pc
    decreases |actions|
  {
    if actions == [] then [s.ts[i].pc]
    else
      StepKeepsThreads(s, actions[0]);
      var t := Step(s, actions[0]).value;
      var rest := Trail(t, actions[1..], i);
      if t.ts[i].pc == s.ts[i].pc then rest else [s.ts[i].pc] + rest
  }

  function Onward(i: nat, pc: Pc): Pc {
    match pc
    case Unborn => Launching
    case Launching => if i == 1 then Joined else Polling
    case Joined => Polling
    case Polling => LeftPoll
    case LeftPoll => if i == 0 then MonitorSeen else Unregistered
    case MonitorSeen => Unregistered
    case Unregistered => if i == 0 then WaitingClosed else Destructed
    case WaitingClosed => Resumed
    case Resumed => Destructed
    case Destructed => ClosedDown
    case _ => Ended
  }

  lemma WayIsOnward(i: nat, p: nat)
    requires p < |Way(i)|
    ensures p + 1 < |Way(i)| ==> Way(i)[p + 1] == Onward(i, Way(i)[p])
    ensures p + 1 == |Way(i)| <==> Way(i)[p].Ended?
  {
  }

  predicate Follows(i: nat, from: Pc, to: Pc) {
    to == from || (!from.Ended? && !from.Bad? && to == Onward(i, from)) || (from.Launching? && to.Bad?)
  }

  lemma MainPlaces(s: State, i: nat)
    requires |s.ts| >= 2 && MainStep(s).Some? && i < |s.ts| && (s.main.CheckDispatcher? ==> s.ts[1].pc.Unborn?)
    ensures |MainStep(s).value.ts| == |s.ts| && Follows(i, s.ts[i].pc, MainStep(s).value.ts[i].pc)
  {
  }

  lemma LaunchPlaces(s: State, a: Action, i: nat)
    requires |s.ts| >= 2 && IsLaunch(a) && Step(s, a).Some? && i < |s.ts|
    ensures |Step(s, a).value.ts| == |s.ts| && Follows(i, s.ts[i].pc, Step(s, a).value.ts[i].pc)
  {
    hide ReportRun, ReportBad;
  }

  lemma DispatcherPlaces(s: State, i: nat)
    requires |s.ts| >= 2 && DispatcherStep(s).Some? && i < |s.ts| && !DispatcherStep(s).value.ts[0].pc.Restarting?
    ensures |DispatcherStep(s).value.ts| == |s.ts| && Follows(i, s.ts[i].pc, DispatcherStep(s).value.ts[i].pc)
  {
    hide ReportEnd;
  }

  lemma StationPlaces(s: State, k: nat, i: nat)
    requires 0 < k < |s.ts| && StationStep(s, k).Some? && i < |s.ts| && !StationStep(s, k).value.ts[k].pc.Restarting?
    ensures |StationStep(s, k).value.ts| == |s.ts| && Follows(i, s.ts[i].pc, StationStep(s, k).value.ts[i].pc)
  {
    hide ReportEnd;
  }

  lemma NobodyRestarts(s: State)
    requires Inv(s)
    ensures |s.ts| >= 2 && forall i | 0 <= i < |s.ts| :: !s.ts[i].pc.Restarting?
  {
    hide Count, InvMain, InvMonitor, InvPlanner;
  }

  lemma StepPlaces(s: State, a: Action, i: nat)
    requires |s.ts| >= 2 && Step(s, a).Some? && i < |s.ts| && (s.main.CheckDispatcher? ==> s.ts[1].pc.Unborn?)
    requires forall k | 0 <= k < |Step(s, a).value.ts| :: !Step(s, a).value.ts[k].pc.Restarting?
    ensures |Step(s, a).value.ts| == |s.ts| && Follows(i, s.ts[i].pc, Step(s, a).value.ts[i].pc)
  {
    StepKeepsThreads(s, a);
    hide Follows, MainStep, DispatcherStep, StationStep, Onward;
    match a
    case MainMoves => MainPlaces(s, i);
    case Moves(k) => if k == 0 { DispatcherPlaces(s, i); } else { StationPlaces(s, k, i); }
    case LaunchSucceeds(_) => LaunchPlaces(s, a, i);
    case LaunchFails(_) => LaunchPlaces(s, a, i);
    case PlanStarts => LaunchPlaces(s, a, i);
    case _ => StaysInPlace(s.ts[i].pc, i);
  }

  lemma NextPlace(s: State, a: Action, i: nat)
    requires Inv(s) && Step(s, a).Some? && i < |s.ts|
    ensures |Step(s, a).value.ts| == |s.ts| && Follows(i, s.ts[i].pc, Step(s, a).value.ts[i].pc)
  {
    PlanUnborn(s);
    StepKeepsInv(s, a);
    hide Inv, Step, Follows;
    NobodyRestarts(Step(s, a).value);
    StepPlaces(s, a, i);
  }

  lemma StaysInPlace(pc: Pc, i: nat)
    ensures Follows(i, pc, pc)
  {
  }

  lemma {:induction false} BadRemains(s: State, actions: seq<Action>, i: nat)
    requires Inv(s) && Run(s, actions).Some? && i < |s.ts| && s.ts[i].pc.Bad?
    ensures Run(s, actions).value.ts[i].pc.Bad?
    decreases |actions|
  {
    NobodyRestarts(s);
    hide Inv, Step;
    if actions != [] {
      NextPlace(s, actions[0], i);
      StepKeepsInv(s, actions[0]);
      BadRemains(Step(s, actions[0]).value, actions[1..], i);
    }
  }

  /** The trail covers the way from place `p` to place `q`. */
  predicate Covers(s: State, actions: seq<Action>, i: nat, p: nat, q: nat)
    requires i < |s.ts| && |s.ts| >= 2 && Run(s, actions).Some?
  {
    p <= q < |Way(i)| && Trail(s, actions, i) == Way(i)[p..q + 1]
  }

  lemma CoversMore(s: State, actions: seq<Action>, i: nat, p: nat, q: nat)
    requires i < |s.ts| && |s.ts| >= 2 && actions != [] && Run(s, actions).Some?
    requires p < |Way(i)| && s.ts[i].pc == Way(i)[p]
    requires var t := Step(s, actions[0]).value;
      |t.ts| == |s.ts| && Covers(t, actions[1..], i, if t.ts[i].pc == s.ts[i].pc then p else p + 1, q)
    ensures Covers(s, actions, i, p, q)
  {
    hide Step, Way, Run;
    if p < q {
      assert Way(i)[p..q + 1] == [Way(i)[p]] + Way(i)[p + 1..q + 1];
    }
  }

  /** From any place on its way a thread leaves out none, up to where it stands, unless its launch fails. */
  lemma {:induction false} TrailOnWay(s: State, actions: seq<Action>, i: nat, p: nat) returns (q: nat)
    requires Inv(s) && Run(s, actions).Some? && i < |s.ts| && p < |Way(i)| && s.ts[i].pc == Way(i)[p]
    requires !Run(s, actions).value.ts[i].pc.Bad?
    ensures |s.ts| >= 2 && Covers(s, actions, i, p, q)
    decreases |actions|
  {
    NobodyRestarts(s);
    hide Inv, Step, Way, Onward;
    q := p;
    if actions == [] {
      assert Trail(s, actions, i) == Way(i)[p..p + 1];
    } else {
      var t := Step(s, actions[0]).value;
      NextPlace(s, actions[0], i);
      StepKeepsInv(s, actions[0]);
      WayIsOnward(i, p);
      hide Covers, Trail;
      if t.ts[i].pc.Bad? {
        BadRemains(t, actions[1..], i);
      } else {
        q := TrailOnWay(t, actions[1..], i, if t.ts[i].pc == s.ts[i].pc then p else p + 1);
        CoversMore(s, actions, i, p, q);
      }
    }
  }

  /** The thread has ended, and between its launch and its end it has been in every place of its way, in this order. */
  ghost predicate EndedInOrder(count: nat, threads: nat, actions: seq<Action>, i: nat)
    requires i < threads && 2 <= threads && Run(Start(count, threads), actions).Some?
  {
    Run(Start(count, threads), actions).value.ts[i].pc.Ended? && Trail(Start(count, threads), actions, i) == Way(i)
  }

  /** No thread ends without having left the registry and then destructed its sockets, the dispatcher also behind its wait for the close. */
  lemma EndsInOrder(count: nat, threads: nat, actions: seq<Action>, i: nat)
    requires i < threads && 2 <= threads <= count && Run(Start(count, threads), actions).Some?
    ensures Run(Start(count, threads), actions).value.ts[i].pc.Ended? ==> EndedInOrder(count, threads, actions, i)
  {
    var s := Start(count, threads);
    InvStart(count, threads);
    if Run(s, actions).value.ts[i].pc.Ended? {
      WayIsOnward(i, 0);
      assert s.ts[i].pc == Way(i)[0];
      hide Inv, Step, Start;
      var q := TrailOnWay(s, actions, i, 0);
      WayIsOnward(i, q);
      hide Way;
      assert Way(i)[0..|Way(i)|] == Way(i);
    }
  }

  /** CLOSED is set only when every other thread that was launched has destructed its sockets and ended, in order. */
  lemma ClosedAfterOthers(count: nat, threads: nat, actions: seq<Action>)
    requires 2 <= threads <= count && Run(Start(count, threads), actions).Some?
    ensures var s := Run(Start(count, threads), actions).value;
      s.net.NetClosed? || s.net.NetDistory? ==> forall i | 1 <= i < threads :: EndedInOrder(count, threads, actions, i) || s.ts[i].pc.Bad?
  {
    ReachableInv(count, threads, actions);
    var s := Run(Start(count, threads), actions).value;
    if s.net.NetClosed? || s.net.NetDistory? {
      OthersEndedOrBad(s);
      hide Inv, EndedInOrder;
      forall i | 1 <= i < threads
        ensures EndedInOrder(count, threads, actions, i) || s.ts[i].pc.Bad?
      {
        EndsInOrder(count, threads, actions, i);
      }
    }
  }

  lemma OthersEndedOrBad(s: State)
    requires Inv(s) && (s.net.NetClosed? || s.net.NetDistory?)
    ensures forall i | 1 <= i < |s.ts| :: s.ts[i].pc.Ended? || s.ts[i].pc.Bad?
  {
    hide InvMonitor, InvStation, Count;
    forall i | 1 <= i < |s.ts|
      ensures s.ts[i].pc.Ended? || s.ts[i].pc.Bad?
    {
      assert Reported(s.ts[i]) && !Live(s.ts[i]);
    }
  }

  /** The dispatcher resumes from its wait, and so destructs its sockets, only under CLOSED, when all others have ended or had failed. */
  lemma DispatcherResumesLast(count: nat, threads: nat, actions: seq<Action>)
    requires 2 <= threads <= count && Run(Start(count, threads), actions).Some?
    ensures var s := Run(Start(count, threads), actions).value;
      DispatcherPassedClose(s) ==>
        (s.net.NetClosed? || s.net.NetDistory?) && forall i | 1 <= i < threads :: EndedInOrder(count, threads, actions, i) || s.ts[i].pc.Bad?
  {
    ReachableInv(count, threads, actions);
    ClosedAfterOthers(count, threads, actions);
    PassedUnderClosed(Run(Start(count, threads), actions).value);
    hide Inv, EndedInOrder;
  }

  lemma PassedUnderClosed(s: State)
    requires Inv(s)
    ensures DispatcherPassedClose(s) ==> s.net.NetClosed? || s.net.NetDistory?
  {
    hide Count, InvMonitor, InvPlanner, InvStation;
  }

  /** DISTORY, and with it `zmq_ctx_term`, comes only after the dispatcher has ended as well. */
  lemma ContextOutlivesThreads(count: nat, threads: nat, actions: seq<Action>)
    requires 2 <= threads <= count && Run(Start(count, threads), actions).Some?
    ensures var s := Run(Start(count, threads), actions).value;
      s.net.NetDistory? ==>
        EndedInOrder(count, threads, actions, 0)
        && forall i | 1 <= i < threads :: EndedInOrder(count, threads, actions, i) || s.ts[i].pc.Bad?
  {
    ReachableInv(count, threads, actions);
    if Run(Start(count, threads), actions).value.net.NetDistory? {
      hide EndedInOrder;
      EndsInOrder(count, threads, actions, 0);
      ClosedAfterOthers(count, threads, actions);
    }
  }

  /** The start fails exactly when the dispatcher or the plan dispatcher cannot be launched: no run gets further then, and none stops otherwise. */
  lemma StartFailsOnBadDispatcher(count: nat, threads: nat, actions: seq<Action>)
    requires 2 <= threads <= count && Run(Start(count, threads), actions).Some?
    ensures var s := Run(Start(count, threads), actions).value;
      && (s.main.StartFailed? ==> s.ts[0].pc.Bad? || s.ts[1].pc.Bad?)
      && (s.ts[0].pc.Bad? ==> s.main.WaitDispatcher? || s.main.CheckDispatcher? || s.main.StartFailed?)
      && (s.ts[1].pc.Bad? ==> s.main.WaitPlan? || s.main.CheckPlan? || s.main.StartFailed?)
  {
    ReachableInv(count, threads, actions);
    hide Count, InvMonitor, InvPlanner, InvStation, InvServing;
  }

  // ---------- Every run ends ----------

  function MainRank(m: MainPc): nat {
    match m
    case WaitDispatcher => 12
    case CheckDispatcher => 11
    case WaitPlan => 10
    case CheckPlan => 9
    case WaitAll => 8
    case Serving => 7
    case WaitOthers => 6
    case MarkClosed => 5
    case PostClose => 4
    case WaitLast => 3
    case MarkDistory => 2
    case TermContext => 1
    case _ => 0
  }

  function Rank(t: Thread): nat {
    var flag := if t.stopped then 0 else 1;
    match t.pc
    case Unborn => 12 + flag
    case Launching => 11 + flag
    case Joined => 10 + flag
    case Polling => 9 + flag
    case LeftPoll => 8 + flag
    case MonitorSeen => 7 + flag
    case Unregistered => 6 + flag
    case WaitingClosed => 5 + flag
    case Resumed => 4 + flag
    case Destructed => 3 + flag
    case ClosedDown => 2 + flag
    case _ => flag
  }

  function RankSum(ts: seq<Thread>): nat {
    if ts == [] then 0 else Rank(ts[0]) + RankSum(ts[1..])
  }

  function MonitorRank(m: Monitor): nat {
    match m case NotSpawned => 3 case Spawned => 2 case Looping => 1 case Finished => 0
  }

  function Measure(s: State): nat {
    MainRank(s.main) + RankSum(s.ts) + MonitorRank(s.monitor) + MonitorRank(s.planner)
  }

  lemma {:induction false} RankSumUpdate(ts: seq<Thread>, i: nat, t: Thread)
    requires i < |ts|
    ensures RankSum(ts[i := t]) == RankSum(ts) - Rank(ts[i]) + Rank(t)
  {
    if i == 0 {
      assert ts[i := t][1..] == ts[1..];
    } else {
      assert ts[i := t][1..] == ts[1..][i - 1 := t];
      RankSumUpdate(ts[1..], i - 1, t);
    }
  }

  lemma {:induction false} RankSumLaunch(ts: seq<Thread>)
    ensures RankSum(LaunchAll(ts)) <= RankSum(ts)
  {
    if ts != [] {
      assert LaunchAll(ts)[1..] == LaunchAll(ts[1..]);
      RankSumLaunch(ts[1..]);
    }
  }

  lemma MainStepShrinks(s: State)
    requires |s.ts| >= 2 && MainStep(s).Some?
    requires s.main.CheckDispatcher? ==> s.ts[1].pc.Unborn?
    ensures Measure(MainStep(s).value) < Measure(s)
  {
    hide Rank;
    if s.main.CheckDispatcher? && s.counts.bad != 1 {
      RankSumUpdate(s.ts, 1, s.ts[1].(pc := Launching));
      LaunchShrinks(s.ts[1]);
    } else if s.main.CheckPlan? {
      RankSumLaunch(s.ts);
    }
  }

  lemma LaunchShrinks(t: Thread)
    ensures t.pc.Unborn? ==> Rank(t.(pc := Launching)) < Rank(t)
  {
  }

  lemma LaunchStepShrinks(s: State, a: Action)
    requires |s.ts| >= 2 && IsLaunch(a) && Step(s, a).Some?
    requires (s.ts[0].pc.Launching? ==> s.monitor.NotSpawned?) && (s.ts[1].pc.Launching? ==> s.planner.NotSpawned?)
    ensures Measure(Step(s, a).value) < Measure(s)
  {
    var i := Launched(a);
    var t := Step(s, a).value.ts[i];
    RankSumUpdate(s.ts, i, t);
    assert Rank(t) < Rank(s.ts[i]);
  }

  lemma StopStepShrinks(s: State, i: nat)
    requires |s.ts| >= 2 && Step(s, StopCommand(i)).Some?
    ensures Measure(Step(s, StopCommand(i)).value) < Measure(s)
  {
    RankSumUpdate(s.ts, i, Step(s, StopCommand(i)).value.ts[i]);
  }

  lemma DispatcherRank(s: State)
    requires |s.ts| >= 2 && DispatcherStep(s).Some?
    ensures var s' := DispatcherStep(s).value;
      && s'.ts == s.ts[0 := s'.ts[0]] && Rank(s'.ts[0]) < Rank(s.ts[0])
      && s'.main == s.main && s'.monitor == s.monitor && s'.planner == s.planner
  {
    hide ReportEnd;
  }

  lemma DispatcherStepShrinks(s: State)
    requires |s.ts| >= 2 && DispatcherStep(s).Some?
    ensures Measure(DispatcherStep(s).value) < Measure(s)
  {
    DispatcherRank(s);
    RankSumUpdate(s.ts, 0, DispatcherStep(s).value.ts[0]);
    hide DispatcherStep, Rank;
  }

  lemma StationRank(s: State, i: nat)
    requires 0 < i < |s.ts| && StationStep(s, i).Some?
    ensures var s' := StationStep(s, i).value;
      && s'.ts == s.ts[i := s'.ts[i]] && Rank(s'.ts[i]) < Rank(s.ts[i])
      && s'.main == s.main && s'.monitor == s.monitor && s'.planner == s.planner
  {
    hide ReportEnd;
  }

  lemma StationStepShrinks(s: State, i: nat)
    requires 0 < i < |s.ts| && StationStep(s, i).Some?
    ensures Measure(StationStep(s, i).value) < Measure(s)
  {
    StationRank(s, i);
    RankSumUpdate(s.ts, i, StationStep(s, i).value.ts[i]);
    hide StationStep, Rank;
  }

  lemma StepShrinks(s: State, a: Action)
    requires Inv(s) && Step(s, a).Some?
    ensures Measure(Step(s, a).value) < Measure(s)
  {
    match a
    case MainMoves =>
      hide InvThreads, InvMonitor, InvServing;
      MainStepShrinks(s);
    case MonitorMoves =>
    case PlannerMoves =>
    case StopCommand(i) => StopStepShrinks(s, i);
    case Moves(i) => if i == 0 { DispatcherStepShrinks(s); } else { StationStepShrinks(s, i); }
    case _ => LaunchStepShrinks(s, a);
  }

  /** No run is longer than the measure of its first state: nothing loops. */
  lemma {:induction false} RunsAreBounded(s: State, actions: seq<Action>)
    requires Inv(s) && Run(s, actions).Some?
    ensures |actions| + Measure(Run(s, actions).value) <= Measure(s)
    decreases |actions|
  {
    if actions != [] {
      var s' := Step(s, actions[0]).value;
      StepKeepsInv(s, actions[0]);
      StepShrinks(s, actions[0]);
      RunsAreBounded(s', actions[1..]);
    }
  }

  /** The action that is enabled in a state that is neither done nor failed at the start. */
  lemma EnabledAction(s: State) returns (a: Action)
    requires Inv(s) && s.counts.count == |s.ts| >= 3
    requires !s.main.Done? && !s.main.StartFailed?
    ensures Step(s, a).Some?
  {
    if MainStep(s).Some? {
      a := MainMoves;
    } else if s.main.WaitOthers? {
      var i :| 1 <= i < |s.ts| && Live(s.ts[i]);
      a := if i == 1 && s.ts[1].pc.LeftPoll? && s.plannerPermits == 0 then PlannerMoves else Moves(i);
    } else if s.main.WaitLast? {
      a := EnabledAtLast(s);
    } else {
      var i := EnabledLaunch(s);
      a := if s.ts[i].pc.Launching? then LaunchSucceeds(i) else if s.plannerPermits > 0 then PlanStarts else PlannerMoves;
    }
  }

  lemma EnabledLaunch(s: State) returns (i: nat)
    requires Inv(s) && s.counts.count == |s.ts| >= 3 && s.counts.permits == 0
    requires s.main.WaitDispatcher? || s.main.WaitPlan? || s.main.WaitAll?
    ensures i < |s.ts| && (s.ts[i].pc.Launching? || (i == 1 && s.ts[1].pc.Joined?))
  {
    CountFront(s.ts, Reported);
    CountBounds(s.ts, Reported);
    CountBounds(s.ts[1..], Reported);
    CountBounds(s.ts[2..], Reported);
    hide InvServing, InvMonitor, InvStation;
    if s.main.WaitDispatcher? {
      i := 0;
    } else if s.main.WaitPlan? {
      i := 1;
    } else {
      i :| 0 <= i < |s.ts| && !Reported(s.ts[i]);
    }
  }

  lemma EnabledAtLast(s: State) returns (a: Action)
    requires Inv(s) && s.main.WaitLast? && s.counts.permits == 0
    ensures Step(s, a).Some?
  {
    hide InvStation, Count;
    assert Reported(s.ts[0]) && !s.ts[0].pc.Ended?;
    a := if s.ts[0].pc.LeftPoll? && s.monitorPermits == 0 then MonitorMoves else Moves(0);
  }

  /**
    With every counted station launched, every run that cannot go on has terminated the context, with every thread ended in
    order or failed and both inner threads finished; or one of the two dispatchers could not be launched and the start has
    failed. So closing always completes.
   */
  lemma MaximalRunsFinish(count: nat, actions: seq<Action>)
    requires count >= 3 && Run(Start(count, count), actions).Some?
    requires forall a :: Step(Run(Start(count, count), actions).value, a).None?
    ensures var s := Run(Start(count, count), actions).value;
      if s.ts[0].pc.Bad? || s.ts[1].pc.Bad? then s.main.StartFailed?
      else s.main.Done? && s.monitor.Finished? && s.planner.Finished?
           && forall i | 0 <= i < count :: EndedInOrder(count, count, actions, i) || s.ts[i].pc.Bad?
  {
    ReachableInv(count, count, actions);
    var s := Run(Start(count, count), actions).value;
    StartFailsOnBadDispatcher(count, count, actions);
    if !s.main.Done? && !s.main.StartFailed? {
      var a := EnabledAction(s);
    }
    if s.main.Done? {
      InnerThreadsDone(s);
      hide EndedInOrder, Inv;
      ContextOutlivesThreads(count, count, actions);
    }
  }

  lemma InnerThreadsDone(s: State)
    requires Inv(s) && s.main.Done? && forall a :: Step(s, a).None?
    ensures s.net.NetDistory? && s.monitor.Finished? && s.planner.Finished? && !s.ts[0].pc.Bad? && !s.ts[1].pc.Bad?
  {
    hide Count, InvStation;
    assert Step(s, MonitorMoves).None? && Step(s, PlannerMoves).None?;
  }

  /**
    The dispatcher's wait for its monitor thread passes as soon as the monitor has started; it does not wait for
    the monitor's end, which only comes when the centre closes or has failed.
   */
  lemma MonitorWaitNeedsOnlyItsStart(count: nat, threads: nat, actions: seq<Action>)
    requires 2 <= threads <= count && Run(Start(count, threads), actions).Some?
    requires Run(Start(count, threads), actions).value.ts[0].pc.LeftPoll?
    ensures var s := Run(Start(count, threads), actions).value;
      && (DispatcherStep(s).Some? <==> s.monitor.Looping? || s.monitor.Finished?)
      && (s.monitor.Finished? ==> !s.net.NetRuning?)
  {
    ReachableInv(count, threads, actions);
  }

  /**
    The plan dispatcher reports only after its planner has started, and leaves the registry only after the planner has
    ended, which it does only when the centre closes or has failed.
   */
  lemma PlanWaitsForPlanner(count: nat, threads: nat, actions: seq<Action>)
    requires 2 <= threads <= count && Run(Start(count, threads), actions).Some?
    ensures var s := Run(Start(count, threads), actions).value;
      && (Live(s.ts[1]) ==> s.planner.Looping? || s.planner.Finished?)
      && ((Live(s.ts[1]) && !s.ts[1].pc.Polling? && !s.ts[1].pc.LeftPoll?) || s.ts[1].pc.Ended?
          ==> s.planner.Finished? && !s.net.NetRuning?)
  {
    ReachableInv(count, threads, actions);
  }
}
