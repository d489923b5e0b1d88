/**
 * Every fair planned run finishes: when no thread that could move for ever is left out for ever, the coordinator
 * comes to the end and returns the engine's report. There are such runs from every worker that has just claimed.
 */
module Liveness {
  import opened Options
  import opened Text
  import opened Domain
  import opened Records
  import opened Database
  import opened DbEffects
  import opened Worker
  import opened WorkerSafety
  import opened Schedules
  import opened Planning
  import opened Completion
  import Engine

  // ---- Infinite runs ---------------------------------------------------------------------------------

  /** The n-th action is planned and in time, and leads from the n-th world to the next. */
  ghost predicate TraceStep(worlds: nat -> World, actions: nat -> Action, plan: Plan, n: nat)
    requires PlanOk(plan)
  {
    && worlds(n).worker.Some? && CanTake(worlds(n), worlds(n).worker.value, actions(n), plan)
    && Do(worlds(n), actions(n)) == worlds(n + 1)
  }

  ghost predicate Trace(worlds: nat -> World, actions: nat -> Action, plan: Plan)
    requires PlanOk(plan)
  {
    forall n: nat :: TraceStep(worlds, actions, plan, n)
  }

  ghost predicate ThreadCan(w: World, t: Thread, plan: Plan)
    requires PlanOk(plan)
  {
    w.worker.Some? && exists a :: CanTake(w, w.worker.value, a, plan) && Belongs(a, t)
  }

  ghost predicate CanFrom(worlds: nat -> World, t: Thread, plan: Plan, n: nat)
    requires PlanOk(plan)
  {
    forall m: nat :: m >= n ==> ThreadCan(worlds(m), t, plan)
  }

  /** A thread that can move from some point on for ever moves again. */
  ghost predicate FairTo(worlds: nat -> World, actions: nat -> Action, plan: Plan, t: Thread)
    requires PlanOk(plan)
  {
    forall n: nat :: CanFrom(worlds, t, plan, n) ==> exists m: nat :: m >= n && Belongs(actions(m), t)
  }

  ghost predicate FairTrace(worlds: nat -> World, actions: nat -> Action, plan: Plan)
    requires PlanOk(plan)
  {
    Trace(worlds, actions, plan) && forall t: Thread :: FairTo(worlds, actions, plan, t)
  }

  // ---- They are on track -------------------------------------------------------------------------------

  ghost predicate TrackAt(worlds: nat -> World, plan: Plan, n: nat)
    requires PlanOk(plan)
  {
    worlds(n).worker.Some? && OnTrack(worlds(n), worlds(n).worker.value, plan)
  }

  predicate DoneAt(worlds: nat -> World, n: nat)
  {
    worlds(n).worker.Some? && worlds(n).worker.value.coord.Finished?
  }

  lemma {:induction false} StaysOnTrack(worlds: nat -> World, actions: nat -> Action, plan: Plan, n: nat)
    requires PlanOk(plan) && Trace(worlds, actions, plan) && TrackAt(worlds, plan, 0)
    ensures TrackAt(worlds, plan, n) && worlds(n).worker.value.sid == worlds(0).worker.value.sid
  {
    hide OnTrack, Do, Enabled, Planned, InTime;
    if n > 0 {
      StaysOnTrack(worlds, actions, plan, n - 1);
      assert TraceStep(worlds, actions, plan, n - 1);
      PlannedKeeps(worlds(n - 1), worlds(n - 1).worker.value, actions(n - 1), plan);
    }
  }

  lemma TrackPcs(worlds: nat -> World, plan: Plan, n: nat)
    requires PlanOk(plan) && TrackAt(worlds, plan, n)
    ensures AllPcs(worlds(n).worker.value.pcs)
  {
    hide OnTrack;
    TrackFacts(worlds(n), worlds(n).worker.value, plan);
  }

  // ---- They get on -------------------------------------------------------------------------------------

  ghost function RankAt(worlds: nat -> World, plan: Plan, n: nat): nat
    requires PlanOk(plan)
  {
    if worlds(n).worker.Some? && AllPcs(worlds(n).worker.value.pcs) then Rank(worlds(n).worker.value, plan) else 0
  }

  ghost function HelpfulAt(worlds: nat -> World, n: nat): Thread
  {
    var x := worlds(n).worker;
    if x.Some? && AllPcs(x.value.pcs) then Helpful(x.value) else OwnerThread
  }

  ghost predicate LessAt(worlds: nat -> World, plan: Plan, n: nat, m: nat)
    requires PlanOk(plan)
  {
    DoneAt(worlds, m) || RankAt(worlds, plan, m) < RankAt(worlds, plan, n)
  }

  /** As much is left to do at m as at n, and the same thread is to move. */
  ghost predicate SameAt(worlds: nat -> World, plan: Plan, n: nat, m: nat)
    requires PlanOk(plan)
  {
    RankAt(worlds, plan, m) == RankAt(worlds, plan, n) && HelpfulAt(worlds, m) == HelpfulAt(worlds, n)
  }

  /** One step of the run. */
  lemma StepAt(worlds: nat -> World, actions: nat -> Action, plan: Plan, n: nat)
    requires PlanOk(plan) && Trace(worlds, actions, plan) && TrackAt(worlds, plan, 0) && !DoneAt(worlds, n)
    ensures LessAt(worlds, plan, n, n + 1)
         || (SameAt(worlds, plan, n, n + 1) && !Belongs(actions(n), HelpfulAt(worlds, n)))
    ensures ThreadCan(worlds(n), HelpfulAt(worlds, n), plan)
  {
    hide OnTrack, Do, CanTake, Helpful, Belongs, Rank;
    StaysOnTrack(worlds, actions, plan, n);
    StaysOnTrack(worlds, actions, plan, n + 1);
    TrackPcs(worlds, plan, n);
    TrackPcs(worlds, plan, n + 1);
    var w, u := worlds(n), worlds(n).worker.value;
    TrackWorker(w, u, plan);
    assert TraceStep(worlds, actions, plan, n);
    StepLowers(w, u, actions(n), plan);
    var a := HelpfulCan(w, u, plan);
  }

  lemma TrackWorker(w: World, u: Worker, plan: Plan)
    requires PlanOk(plan) && OnTrack(w, u, plan)
    ensures w.worker == Some(u)
  {
    hide InReach, Unhindered, Fair, WorldOk, TrimSpace;
  }

  /** As long as nothing has become less, the same thread is to move, and it has not moved. */
  lemma {:induction false} SameTurn(worlds: nat -> World, actions: nat -> Action, plan: Plan, n: nat, m: nat)
    requires PlanOk(plan) && Trace(worlds, actions, plan) && TrackAt(worlds, plan, 0) && n <= m && !DoneAt(worlds, n)
    requires forall k: nat :: n < k ==> !LessAt(worlds, plan, n, k)
    ensures SameAt(worlds, plan, n, m) && !Belongs(actions(m), HelpfulAt(worlds, n))
    ensures ThreadCan(worlds(m), HelpfulAt(worlds, n), plan)
    decreases m - n
  {
    hide TrackAt, Trace, RankAt, HelpfulAt, Belongs, ThreadCan, DoneAt;
    if m > n {
      assert !LessAt(worlds, plan, n, m) && (m - 1 > n ==> !LessAt(worlds, plan, n, m - 1));
      SameTurn(worlds, actions, plan, n, m - 1);
      StepAt(worlds, actions, plan, m - 1);
    }
    StepAt(worlds, actions, plan, m);
    assert !LessAt(worlds, plan, n, m + 1);
  }

  /** Under a fair scheduler something becomes less. */
  lemma GetsOn(worlds: nat -> World, actions: nat -> Action, plan: Plan, n: nat) returns (m: nat)
    requires PlanOk(plan) && FairTrace(worlds, actions, plan) && TrackAt(worlds, plan, 0) && !DoneAt(worlds, n)
    ensures n < m && LessAt(worlds, plan, n, m)
  {
    hide Trace, TrackAt, DoneAt, LessAt, HelpfulAt, Belongs, ThreadCan, SameAt;
    m := n + 1;
    if k: nat :| n < k && LessAt(worlds, plan, n, k) {
      m := k;
    } else {
      CanForEver(worlds, actions, plan, n);
      var k := MovesAgain(worlds, actions, plan, n, HelpfulAt(worlds, n));
      SameTurn(worlds, actions, plan, n, k);
      assert false;
    }
  }

  lemma CanForEver(worlds: nat -> World, actions: nat -> Action, plan: Plan, n: nat)
    requires PlanOk(plan) && Trace(worlds, actions, plan) && TrackAt(worlds, plan, 0) && !DoneAt(worlds, n)
    requires forall k: nat :: n < k ==> !LessAt(worlds, plan, n, k)
    ensures CanFrom(worlds, HelpfulAt(worlds, n), plan, n)
  {
    hide Trace, TrackAt, DoneAt, LessAt, HelpfulAt, Belongs, ThreadCan, SameAt;
    forall k: nat | k >= n ensures ThreadCan(worlds(k), HelpfulAt(worlds, n), plan) {
      SameTurn(worlds, actions, plan, n, k);
    }
  }

  lemma MovesAgain(worlds: nat -> World, actions: nat -> Action, plan: Plan, n: nat, t: Thread) returns (k: nat)
    requires PlanOk(plan) && FairTrace(worlds, actions, plan) && CanFrom(worlds, t, plan, n)
    ensures k >= n && Belongs(actions(k), t)
  {
    hide Trace, CanFrom, Belongs;
    assert FairTo(worlds, actions, plan, t);
    k :| k >= n && Belongs(actions(k), t);
  }

  lemma {:induction false} Ends(worlds: nat -> World, actions: nat -> Action, plan: Plan, n: nat) returns (m: nat)
    requires PlanOk(plan) && FairTrace(worlds, actions, plan) && TrackAt(worlds, plan, 0)
    ensures n <= m && DoneAt(worlds, m)
    decreases RankAt(worlds, plan, n)
  {
    hide FairTrace, TrackAt, RankAt, DoneAt;
    if DoneAt(worlds, n) {
      m := n;
    } else {
      m := GetsOn(worlds, actions, plan, n);
      if !DoneAt(worlds, m) {
        m := Ends(worlds, actions, plan, m);
      }
    }
  }

  /**
   * Every fair planned run that starts from a worker that has just claimed its session finishes, and what the
   * coordinator then returns is the sequential engine's report, except for the last call purposes.
   */
  lemma FairRunsFinish(worlds: nat -> World, actions: nat -> Action, plan: Plan, sid: string) returns (n: nat)
    requires PlanOk(plan) && FairTrace(worlds, actions, plan)
    requires Booted(worlds(0), sid) && PlanFits(worlds(0).db, sid, plan)
    ensures worlds(n).worker.Some? && worlds(n).worker.value.coord.Finished? && sid in worlds(n).db.sessions
    ensures worlds(n).worker.value.coord.result
         == Composed(Engine.EraseLastPurpose(EngineReport(sid, SnapshotOf(worlds(n).db, sid), plan.outcomes)))
  {
    hide Booted, PlanFits, OnTrack, Trace, NewWorker, EngineReport, Engine.EraseLastPurpose, SnapshotOf, FairTo;
    BootedOnTrack(worlds(0), sid, plan);
    NewWorkerFields(sid);
    TrackWorker(worlds(0), NewWorker(sid), plan);
    n := Ends(worlds, actions, plan, 0);
    StaysOnTrack(worlds, actions, plan, n);
    FinishedReport(worlds(n), worlds(n).worker.value, plan);
  }

  // ---- There are such runs --------------------------------------------------------------------------------

  /** The threads in turn, each of them for ever. */
  function TurnAt(n: nat): Thread
  {
    match n % 7
    case 0 => RoleThread(Requirements)
    case 1 => RoleThread(Architecture)
    case 2 => RoleThread(QA)
    case 3 => RoleThread(Security)
    case 4 => OwnerThread
    case 5 => CoordThread
    case _ => TakeThread
  }

  function Place(t: Thread): (k: nat)
    ensures k < 7
  {
    match t
    case RoleThread(r) => RoleOrder(r)
    case OwnerThread => 4
    case CoordThread => 5
    case TakeThread => 6
  }

  lemma TurnOf(n: nat, t: Thread)
    requires n % 7 == Place(t)
    ensures TurnAt(n) == t
  {
  }

  lemma TurnComes(t: Thread, n: nat) returns (m: nat)
    ensures m >= n && TurnAt(m) == t
  {
    hide Place, TurnAt;
    m := 7 * (n / 7 + 1) + Place(t);
    TurnOf(m, t);
  }

  /** A claim with an invalid policy, which changes nothing. */
  const IDLE := ByOthers(ClaimStep(NO_POLICY, 0))

  /** The next action, if it is this thread's turn. */
  ghost function Choice(w: World, t: Thread, plan: Plan): Action
    requires PlanOk(plan)
  {
    if ThreadCan(w, t, plan) then
      var a :| CanTake(w, w.worker.value, a, plan) && Belongs(a, t);
      a
    else IDLE
  }

  ghost function WorldAt(w: World, plan: Plan, n: nat): World
    requires PlanOk(plan)
  {
    if n == 0 then w
    else
      var before := WorldAt(w, plan, n - 1);
      var a := Choice(before, TurnAt(n - 1), plan);
      if Enabled(before, a) then Do(before, a) else before
  }

  lemma IdleTakes(w: World, u: Worker, plan: Plan)
    requires PlanOk(plan) && OnTrack(w, u, plan)
    ensures CanTake(w, u, IDLE, plan)
  {
    hide InReach, Unhindered, WorldOk, TrimSpace, FairRole, AllApart, EngineReport, SnapshotOf, UnitsStored, RolesOf,
      Fit;
    TrackFacts(w, u, plan);
    ClaimIdles(w.db);
  }

  lemma ClaimIdles(db: Db)
    ensures Apply(db, ClaimStep(NO_POLICY, 0)) == db
  {
  }

  lemma ChoiceTakes(w: World, u: Worker, t: Thread, plan: Plan)
    requires PlanOk(plan) && OnTrack(w, u, plan) && w.worker == Some(u)
    ensures CanTake(w, u, Choice(w, t, plan), plan)
    ensures ThreadCan(w, t, plan) ==> Belongs(Choice(w, t, plan), t)
  {
    hide OnTrack, CanTake, Belongs;
    IdleTakes(w, u, plan);
  }

  /** One turn, from a world on track to one on track. */
  lemma {:induction false} TurnTaken(w: World, plan: Plan, n: nat)
    requires PlanOk(plan) && w.worker.Some? && OnTrack(w, w.worker.value, plan)
    ensures var x := WorldAt(w, plan, n);
            && x.worker.Some? && OnTrack(x, x.worker.value, plan)
            && CanTake(x, x.worker.value, Choice(x, TurnAt(n), plan), plan)
            && Do(x, Choice(x, TurnAt(n), plan)) == WorldAt(w, plan, n + 1)
  {
    hide OnTrack, Choice, TurnAt, Do, Enabled, Planned, InTime;
    if n > 0 {
      TurnTaken(w, plan, n - 1);
      var before := WorldAt(w, plan, n - 1);
      PlannedKeeps(before, before.worker.value, Choice(before, TurnAt(n - 1), plan), plan);
    }
    var x := WorldAt(w, plan, n);
    TrackWorker(x, x.worker.value, plan);
    ChoiceTakes(x, x.worker.value, TurnAt(n), plan);
  }

  /** Fair planned runs exist, from every worker that has just claimed its session. */
  lemma FairRunsExist(w: World, sid: string, plan: Plan) returns (worlds: nat -> World, actions: nat -> Action)
    requires PlanOk(plan) && Booted(w, sid) && PlanFits(w.db, sid, plan)
    ensures worlds(0) == w && FairTrace(worlds, actions, plan)
  {
    hide Booted, PlanFits, OnTrack, NewWorker, Choice, CanTake, TurnAt, Do, Belongs, ThreadCan;
    BootedOnTrack(w, sid, plan);
    NewWorkerFields(sid);
    TrackWorker(w, NewWorker(sid), plan);
    worlds := (n: nat) => WorldAt(w, plan, n);
    actions := (n: nat) => Choice(WorldAt(w, plan, n), TurnAt(n), plan);
    forall n: nat ensures TraceStep(worlds, actions, plan, n) {
      TurnTaken(w, plan, n);
    }
    forall t: Thread, n: nat | CanFrom(worlds, t, plan, n) ensures exists m: nat :: m >= n && Belongs(actions(m), t) {
      var m := TurnComes(t, n);
      TurnTaken(w, plan, m);
      var x := WorldAt(w, plan, m);
      TrackWorker(x, x.worker.value, plan);
      assert worlds(m) == x && ThreadCan(worlds(m), t, plan);
      ChoiceTakes(x, x.worker.value, t, plan);
      assert actions(m) == Choice(x, t, plan) && Belongs(actions(m), t);
    }
  }
}
