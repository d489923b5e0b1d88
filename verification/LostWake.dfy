/**
 * internal/worker/supervise.go:470-472: the deferred calls of a role goroutine wake the composition gate before they
 * give up its count. Exactly when the coordinator spends a wake in vain, and a run on which the last one is spent so.
 */
module LostWake {
  import opened Options
  import opened Text
  import opened Domain
  import opened Evidence
  import opened Composer
  import opened Timestamps
  import opened Records
  import opened Database
  import opened DbInvariant
  import opened DbSteps
  import opened Worker
  import opened WorkerSafety
  import opened WorkerRuns
  import opened Schedules
  import opened Planning
  import opened Completion
  import opened Scenarios
  import Timing

  // ---- The steps -----------------------------------------------------------------------------------

  /** The last goroutine is about to run its deferred calls; everything else has finished. */
  predicate LastOneLeaving(w: World, u: Worker, r: Role)
  {
    && w.worker == Some(u) && AllPcs(u.pcs) && u.sid in w.db.sessions && AllRoles(RolesOf(w.db, u.sid))
    && AllTerminal(RolesOf(w.db, u.sid)) && !w.db.sessions[u.sid].cancelRequested && !u.fatal
    && u.pcs[r].Notified? && u.active == 1 && u.gate == 0 && u.coord.Waiting?
  }

  /** A goroutine's action that takes the worker from u to v and leaves the database alone. */
  ghost predicate RoleTakes(w: World, u: Worker, a: RoleAction, v: Worker)
  {
    && AllPcs(u.pcs) && u.sid in w.db.sessions && RoleEnabled(w.(worker := Some(u)), u, a)
    && RoleDo(w.(worker := Some(u)), u, a) == w.(worker := Some(v))
  }

  ghost predicate CoordTakes(w: World, u: Worker, a: CoordAction, v: Worker)
  {
    && AllPcs(u.pcs) && u.sid in w.db.sessions && CoordEnabled(w.(worker := Some(u)), u, a)
    && CoordDo(w.(worker := Some(u)), u, a) == w.(worker := Some(v))
  }

  // ---- When a wake is spent in vain ----------------------------------------------------------------

  predicate SomeLive(u: Worker)
    requires AllPcs(u.pcs)
  {
    exists r: Role :: Live(u, r)
  }

  /**
   * A coordinator that has read four terminal roles goes back to waiting, its wake spent, if and only if some
   * goroutine has not yet given up its count.
   */
  lemma WakeInVain(w: World, u: Worker)
    requires WorldOk(w) && w.worker == Some(u) && u.coord.ReadTerminal?
    ensures AllPcs(u.pcs) && CoordTakes(w, u, CheckActive, u.(coord := if SomeLive(u) then Waiting else Stopping))
  {
    hide WorldOk, Live, Inv, CoordTakes;
    WorkerParts(w, u);
    assert u.active == Lives(u);
    LivesCount(u);
    hide Lives, SomeLive;
    ChecksActive(w, u);
  }

  lemma LivesCount(u: Worker)
    requires AllPcs(u.pcs)
    ensures Lives(u) > 0 <==> SomeLive(u)
  {
    hide Live;
    if r: Role :| Live(u, r) {
      match r
      case Requirements =>
      case Architecture =>
      case QA =>
      case Security =>
    }
  }

  lemma ChecksActive(w: World, u: Worker)
    requires AllPcs(u.pcs) && w.worker == Some(u) && u.coord.ReadTerminal? && u.sid in w.db.sessions
    ensures CoordTakes(w, u, CheckActive, u.(coord := if u.active > 0 then Waiting else Stopping))
  {
  }

  /** The worker after wakeGate, after the coordinator's fruitless check, and after the goroutine is gone. */
  function Woken(u: Worker, r: Role): Worker
  {
    WokenGate(u, r)
  }

  function Disappointed(u: Worker, r: Role): Worker
  {
    Woken(u, r).(coord := Waiting, gate := 0)
  }

  function Stranded(u: Worker, r: Role): Worker
  {
    SetPc(Inactive(Disappointed(u, r), r), r, Exited)
  }

  lemma CoordinatorTooEarly(w: World, u: Worker, r: Role)
    requires LastOneLeaving(w, u, r)
    ensures RoleTakes(w, u, Wake(r), Woken(u, r))
    ensures CoordTakes(w, Woken(u, r), Take, Woken(u, r).(coord := Reading, gate := 0))
    ensures CoordTakes(w, Woken(u, r).(coord := Reading, gate := 0), Read,
                       Woken(u, r).(coord := ReadTerminal, gate := 0))
    ensures CoordTakes(w, Woken(u, r).(coord := ReadTerminal, gate := 0), CheckActive, Disappointed(u, r))
  {
    hide AllTerminal, AllRoles, RolesOf, Readiness, ExecutesTo, CallsOf, PublishDo;
    PcsKept(u, r);
    hide AllPcs;
    Readable(w, u, Woken(u, r).(coord := Reading, gate := 0));
  }

  lemma LeavesTooLate(w: World, u: Worker, r: Role)
    requires LastOneLeaving(w, u, r)
    ensures RoleTakes(w, Disappointed(u, r), Release(r), Inactive(Disappointed(u, r), r))
    ensures RoleTakes(w, Inactive(Disappointed(u, r), r), Exit(r), Stranded(u, r))
  {
    hide AllTerminal, AllRoles, RolesOf, ExecutesTo, CallsOf, PublishDo;
    PcsKept(u, r);
    hide AllPcs;
  }

  /**
   * The deferred calls wake the gate before they give up the goroutine's count. If the coordinator runs in
   * between, it finds the count at one and goes back to waiting; the wake is spent, all roles are terminal,
   * nothing is active, and only the ticker or a timer that has not fired moves it again.
   */
  lemma LostWake(w: World, u: Worker, r: Role)
    requires LastOneLeaving(w, u, r)
    ensures RoleTakes(w, u, Wake(r), Woken(u, r))
    ensures CoordTakes(w, Woken(u, r), Take, Woken(u, r).(coord := Reading, gate := 0))
    ensures CoordTakes(w, Woken(u, r).(coord := Reading, gate := 0), Read,
                       Woken(u, r).(coord := ReadTerminal, gate := 0))
    ensures CoordTakes(w, Woken(u, r).(coord := ReadTerminal, gate := 0), CheckActive, Disappointed(u, r))
    ensures RoleTakes(w, Disappointed(u, r), Release(r), Inactive(Disappointed(u, r), r))
    ensures RoleTakes(w, Inactive(Disappointed(u, r), r), Exit(r), Stranded(u, r))
    ensures var v := Stranded(u, r);
            && v.coord.Waiting? && v.gate == 0 && v.active == 0 && AllTerminal(RolesOf(w.db, v.sid))
            && AllPcs(v.pcs) && !CoordEnabled(w, v, Take)
              && CoordTakes(w, v, Ticker, WakeGate(v.(tick := v.tick || !v.stopped)))
            && WakeGate(v.(tick := v.tick || !v.stopped)).gate == 1
  {
    hide AllTerminal, AllRoles, RolesOf, RoleTakes, ExecutesTo, CallsOf;
    CoordinatorTooEarly(w, u, r);
    LeavesTooLate(w, u, r);
    PcsKept(u, r);
    hide AllPcs;
  }

  lemma PcsKept(u: Worker, r: Role)
    requires AllPcs(u.pcs)
    ensures AllPcs(Woken(u, r).pcs) && AllPcs(Disappointed(u, r).pcs) && AllPcs(Inactive(Disappointed(u, r), r).pcs)
    ensures AllPcs(Stranded(u, r).pcs)
  {
  }

  // ---- One goroutine at a time -----------------------------------------------------------------------

  /** The goroutine has told the dispatcher and is on its way out, or gone. */
  predicate Past(pc: RolePc)
  {
    pc.GateWoken? || pc.Released? || pc.Exited?
  }

  /** At most one goroutine is running. */
  predicate Solo(u: Worker)
    requires AllPcs(u.pcs)
  {
    forall q: Role, r: Role :: !Gone(u.pcs[q]) && !Gone(u.pcs[r]) ==> q == r
  }

  predicate Unfinished(u: Worker)
    requires AllPcs(u.pcs)
  {
    exists r: Role :: !Past(u.pcs[r])
  }

  /** Role r is about to run its deferred calls, and every other goroutine is gone. */
  predicate Leaving(u: Worker, r: Role)
    requires AllPcs(u.pcs)
  {
    u.pcs[r].Notified? && forall q: Role :: q != r ==> u.pcs[q].Exited?
  }

  lemma PastNext(w: World, u: Worker, a: RoleAction)
    requires AllPcs(u.pcs) && u.sid in w.db.sessions && RoleEnabled(w, u, a)
    requires !a.PublishAt? && !a.PublishFails?
    ensures Past(NextPc(u.pcs[a.r], a)) ==> Past(u.pcs[a.r]) || u.pcs[a.r].Notified?
  {
    hide ExecutesTo;
  }

  lemma PublishedNotPast(pc: RolePc, a: RoleAction)
    ensures a.PublishAt? ==> !Past(NextPc(pc, a))
  {
  }

  function WithRunning(u: Worker, q: Role): map<Role, RolePc>
  {
    u.pcs[q := Running(0)]
  }

  lemma SpawnedSolo(u: Worker, v: Worker, q: Role)
    requires AllPcs(u.pcs) && AllPcs(v.pcs) && v.pcs == WithRunning(u, q) && forall r: Role :: Gone(u.pcs[r])
    ensures Solo(v) && Unfinished(v)
  {
    assert !Past(v.pcs[q]);
  }

  /** A worker on track that takes its roles one at a time. */
  ghost predicate OneByOne(w: World, u: Worker, plan: Plan)
    requires PlanOk(plan)
  {
    && OnTrack(w, u, plan) && u.coord.Reading? && AllPcs(u.pcs) && Solo(u) && Unfinished(u)
  }

  lemma RoleOneByOne(w: World, u: Worker, a: RoleAction, plan: Plan)
    requires PlanOk(plan) && OneByOne(w, u, plan) && CanTake(w, u, ByRole(a), plan) && !Leaving(u, a.r)
    requires !Gone(u.pcs[a.r])
    ensures var x := Do(w, ByRole(a));
            && x.worker.Some?
            && var v := x.worker.value; v.coord.Reading? && AllPcs(v.pcs) && Solo(v) && Unfinished(v)
  {
    hide OnTrack, Do, Enabled, RoleDo, RoleEnabled, Past, NextPc, Leaving, Solo, Unfinished, Gone, InTime, Planned;
    DoRole(w, u, a);
    PlannedNotFailing(w, u, a, plan);
    RoleEffect(w, u, a, plan);
    if a.PublishAt? {
      PublishedNotPast(u.pcs[a.r], a);
    } else {
      PastNext(w, u, a);
    }
    var v := Do(w, ByRole(a)).worker.value;
    OneChanged(u, v, a.r, NextPc(u.pcs[a.r], a));
    StillUnfinished(u, v, a.r);
  }

  lemma PlannedNotFailing(w: World, u: Worker, a: RoleAction, plan: Plan)
    requires PlanOk(plan) && Planned(w, u, ByRole(a), plan)
    ensures !a.PublishFails?
  {
  }

  lemma OneChanged(u: Worker, v: Worker, r: Role, pc: RolePc)
    requires AllPcs(u.pcs) && v.pcs == u.pcs[r := pc]
    ensures AllPcs(v.pcs) && v.pcs[r] == pc && forall q: Role :: q != r ==> v.pcs[q] == u.pcs[q]
  {
  }

  lemma OwnerOneByOne(w: World, u: Worker, a: OwnerAction, plan: Plan)
    requires PlanOk(plan) && OneByOne(w, u, plan) && CanTake(w, u, ByOwner(a), plan)
    requires forall q: Role :: Gone(u.pcs[q])
    ensures var x := Do(w, ByOwner(a));
            && x.worker.Some?
            && var v := x.worker.value; v.coord.Reading? && AllPcs(v.pcs) && Solo(v) && Unfinished(v)
  {
    hide OnTrack, Do, Enabled, OwnerDo, OwnerEnabled, Past, InTime, Planned;
    DoOwner(w, u, a);
    OwnerElsewhere(w, u, a);
    if a.Start? {
      StartFields(w, u, plan);
      OneChanged(u, Do(w, ByOwner(a)).worker.value, u.owner.role, Running(0));
      SpawnedSolo(u, Do(w, ByOwner(a)).worker.value, u.owner.role);
    } else {
      OwnerFields(w, u, a);
    }
  }

  lemma GoneOrPast(pc: RolePc)
    requires Gone(pc) && !Past(pc)
    ensures pc.Absent?
  {
  }

  lemma StillUnfinished(u: Worker, v: Worker, r: Role)
    requires AllPcs(u.pcs) && AllPcs(v.pcs) && Solo(u) && Unfinished(u) && !Leaving(u, r) && !Gone(u.pcs[r])
    requires forall q: Role :: q != r ==> v.pcs[q] == u.pcs[q]
    requires Past(v.pcs[r]) ==> Past(u.pcs[r]) || u.pcs[r].Notified?
    ensures Solo(v) && Unfinished(v)
  {
    if u.pcs[r].Notified? {
      var q: Role :| q != r && !u.pcs[q].Exited?;
      assert Gone(u.pcs[q]) && !Past(v.pcs[q]);
    } else {
      var q: Role :| !Past(u.pcs[q]);
      assert !Past(v.pcs[q]);
    }
  }

  /** Short of the last goroutine's deferred calls the helpful thread's step keeps it so. */
  lemma OneByOneStep(w: World, u: Worker, plan: Plan) returns (a: Action, x: World, v: Worker)
    requires PlanOk(plan) && OneByOne(w, u, plan) && forall r: Role :: !Leaving(u, r)
    ensures w.worker == Some(u) && Enabled(w, a) && Planned(w, u, a, plan) && Do(w, a) == x
    ensures x.worker == Some(v) && v.sid == u.sid && OneByOne(x, v, plan) && Rank(v, plan) < Rank(u, plan)
  {
    hide OnTrack, Do, Enabled, Planned, InTime, Past, Leaving, Solo, Unfinished, Rank;
    a := HelpfulCan(w, u, plan);
    StepLowers(w, u, a, plan);
    PlannedKeeps(w, u, a, plan);
    x := Do(w, a);
    v := x.worker.value;
    FirstOutMeaning(u);
    if FirstOut(u).Some? {
      RoleOneByOne(w, u, a.role, plan);
    } else {
      NotAllOut(u);
      OwnerOneByOne(w, u, a.owner, plan);
    }
    TrackParts(x, v, plan);
  }

  lemma NotAllOut(u: Worker)
    requires AllPcs(u.pcs) && Unfinished(u) && FirstOut(u).None?
    ensures SomeAbsent(u)
  {
    hide FirstOut, SomeAbsent;
    FirstOutMeaning(u);
    var r :| !Past(u.pcs[r]);
    GoneOrPast(u.pcs[r]);
  }

  /** So a planned run reaches the last goroutine's deferred calls with the coordinator still where it was. */
  lemma {:induction false} ReachLeaving(w: World, u: Worker, plan: Plan)
    returns (actions: seq<Action>, x: World, v: Worker, r: Role)
    requires PlanOk(plan) && OneByOne(w, u, plan)
    ensures PlannedRun(w, actions, x, plan) && OneByOne(x, v, plan) && v.sid == u.sid && Leaving(v, r)
    decreases Rank(u, plan)
  {
    hide OnTrack, Solo, Unfinished, Leaving, Rank, Do, Enabled, Planned, PlannedRun;
    if q: Role :| Leaving(u, q) {
      NoSteps(w, plan);
      actions, x, v, r := [], w, u, q;
    } else {
      var a, next, z := OneByOneStep(w, u, plan);
      var rest;
      rest, x, v, r := ReachLeaving(next, z, plan);
      actions := [a] + rest;
      OneMorePlanned(w, u, a, rest, x, plan);
    }
  }

  // ---- The coordinator uses up its wakes ---------------------------------------------------------------

  lemma LeavingFacts(w: World, u: Worker, r: Role)
    requires WorldOk(w) && w.worker == Some(u) && AllPcs(u.pcs) && Leaving(u, r) && u.leaked == {}
    ensures u.sid in w.db.sessions && AllRoles(RolesOf(w.db, u.sid)) && AllTerminal(RolesOf(w.db, u.sid))
    ensures u.active == 1
  {
    hide WorldOk, RolesOf, CallsOf, Inv;
    WorkerParts(w, u);
    forall q: Role ensures q in RolesOf(w.db, u.sid) && RolesOf(w.db, u.sid)[q].status.IsTerminal() {
      RoleFacts(w, u, q);
    }
    assert u.active == Lives(u);
    match r
    case Requirements =>
    case Architecture =>
    case QA =>
    case Security =>
  }

  lemma CalmFacts(w: World, u: Worker, outcomes: map<Role, RoleOutcome>)
    requires (forall r: Role :: r in outcomes) && Fair(w, u, outcomes)
    ensures AllPcs(u.pcs) && !u.fatal && u.leaked == {} && u.sid in w.db.sessions
    ensures !w.db.sessions[u.sid].cancelRequested
  {
    hide FairRole, Fit, AllApart, EngineReport, SnapshotOf, UnitsStored;
  }

  lemma CoordIsStep(w: World, u: Worker, a: CoordAction, v: Worker, outcomes: map<Role, RoleOutcome>)
    requires (forall r: Role :: r in outcomes) && w.worker == Some(u) && CoordTakes(w, u, a, v) && !a.Fault?
    ensures Enabled(w, ByCoordinator(a)) && Calm(w, u, ByCoordinator(a), outcomes)
    ensures Do(w, ByCoordinator(a)) == w.(worker := Some(v))
  {
    hide CoordEnabled, CoordDo;
    assert w.(worker := Some(u)) == w;
  }

  lemma RoleIsStep(w: World, u: Worker, a: RoleAction, v: Worker, outcomes: map<Role, RoleOutcome>)
    requires (forall r: Role :: r in outcomes) && w.worker == Some(u) && RoleTakes(w, u, a, v)
    requires !a.Finish? && !a.PublishFails?
    ensures Enabled(w, ByRole(a)) && Calm(w, u, ByRole(a), outcomes)
    ensures Do(w, ByRole(a)) == w.(worker := Some(v))
  {
    hide RoleEnabled, RoleDo;
    assert w.(worker := Some(u)) == w;
  }

  function WakesLeft(u: Worker): nat
  {
    3 * u.gate + if u.coord.Reading? then 2 else if u.coord.ReadTerminal? then 1 else 0
  }

  predicate AtTheGate(pc: CoordPc)
  {
    pc.Reading? || pc.ReadTerminal? || pc.Waiting?
  }

  /** The coordinator's next step while the last goroutine has not left. */
  lemma GateStep(w: World, u: Worker, r: Role, outcomes: map<Role, RoleOutcome>) returns (a: CoordAction, v: Worker)
    requires (forall q: Role :: q in outcomes) && WorldOk(w) && w.worker == Some(u) && Fair(w, u, outcomes)
    requires AllPcs(u.pcs) && Leaving(u, r) && AtTheGate(u.coord) && !(u.coord.Waiting? && u.gate == 0)
    ensures CoordTakes(w, u, a, v) && !a.Fault? && v == u.(coord := v.coord, gate := v.gate)
    ensures AtTheGate(v.coord) && WakesLeft(v) < WakesLeft(u)
  {
    hide WorldOk, Fair, Leaving, AllTerminal, AllRoles, RolesOf, AllPcs, Readiness, ResultSet;
    CalmFacts(w, u, outcomes);
    LeavingFacts(w, u, r);
    Readable(w, u, u);
    match u.coord
    case Waiting => a, v := Take, u.(coord := Reading, gate := u.gate - 1);
    case Reading => a, v := Read, u.(coord := ReadTerminal);
    case ReadTerminal => a, v := CheckActive, u.(coord := Waiting);
  }

  lemma {:induction false} DrainGate(w: World, u: Worker, r: Role, outcomes: map<Role, RoleOutcome>)
    returns (actions: seq<Action>, x: World, v: Worker)
    requires (forall q: Role :: q in outcomes) && WorldOk(w) && w.worker == Some(u) && Fair(w, u, outcomes)
    requires TrimSpace(u.sid) == u.sid && AllPcs(u.pcs) && Leaving(u, r) && AtTheGate(u.coord)
    ensures CalmRun(w, actions, x, outcomes) && WorldOk(x) && x.worker == Some(v) && Fair(x, v, outcomes)
    ensures v.sid == u.sid && v.owner == u.owner && AllPcs(v.pcs) && Leaving(v, r) && v.coord.Waiting? && v.gate == 0
    decreases WakesLeft(u)
  {
    hide WorldOk, Fair, TrimSpace, Leaving, AllPcs, Do, Enabled, Calm, WakesLeft, CoordTakes;
    if u.coord.Waiting? && u.gate == 0 {
      actions, x, v := [], w, u;
    } else {
      var a, next := GateStep(w, u, r, outcomes);
      CoordIsStep(w, u, a, next, outcomes);
      ActionKeeps(w, ByCoordinator(a));
      CalmKeeps(w, u, ByCoordinator(a), outcomes);
      SameLeaving(u, next, r);
      var rest;
      rest, x, v := DrainGate(w.(worker := Some(next)), next, r, outcomes);
      actions := [ByCoordinator(a)] + rest;
      assert actions[0] == ByCoordinator(a) && actions[1..] == rest;
    }
  }

  lemma SameLeaving(u: Worker, v: Worker, r: Role)
    requires AllPcs(u.pcs) && Leaving(u, r) && v.pcs == u.pcs
    ensures AllPcs(v.pcs) && Leaving(v, r)
  {
  }

  // ---- The run ---------------------------------------------------------------------------------------

  /**
   * Everything is finished and the coordinator waits for a wake that nobody will send: no goroutine is left, no wake
   * is in the channel, and only the ticker moves the coordinator again.
   */
  ghost predicate IsStranded(w: World, v: Worker)
  {
    && w.worker == Some(v) && v.sid in w.db.sessions && w.db.sessions[v.sid].status.Reviewing?
    && AllTerminal(RolesOf(w.db, v.sid)) && AllPcs(v.pcs) && (forall q: Role :: v.pcs[q].Exited?)
    && v.coord.Waiting? && v.gate == 0 && v.active == 0 && !v.owner.Broken?
    && forall a :: CoordEnabled(w, v, a) ==> a.Ticker? || a.Alarm? || a.Abort?
  }

  lemma {:induction false} CalmJoin(w: World, xs: seq<Action>, x: World, ys: seq<Action>, y: World,
                                    outcomes: map<Role, RoleOutcome>)
    requires (forall r: Role :: r in outcomes) && CalmRun(w, xs, x, outcomes) && CalmRun(x, ys, y, outcomes)
    ensures CalmRun(w, xs + ys, y, outcomes)
    decreases |xs|
  {
    hide Enabled, Do, Calm;
    if xs == [] {
      assert xs + ys == ys;
    } else {
      CalmJoin(Do(w, xs[0]), xs[1..], x, ys, y, outcomes);
      assert (xs + ys)[1..] == xs[1..] + ys;
    }
  }

  lemma CalmStep(w: World, a: Action, x: World, rest: seq<Action>, y: World, outcomes: map<Role, RoleOutcome>)
    requires (forall r: Role :: r in outcomes) && w.worker.Some? && Enabled(w, a)
    requires Calm(w, w.worker.value, a, outcomes)
    requires Do(w, a) == x && CalmRun(x, rest, y, outcomes)
    ensures CalmRun(w, [a] + rest, y, outcomes)
  {
    hide Enabled, Do, Calm;
    assert ([a] + rest)[0] == a && ([a] + rest)[1..] == rest;
  }

  function Losing(r: Role): seq<Action>
  {
    [ByRole(RoleAction.Wake(r))] + ([ByCoordinator(Take)] + ([ByCoordinator(Read)] + ([ByCoordinator(CheckActive)]
    + ([ByRole(Release(r))] + ([ByRole(Exit(r))] + [])))))
  }

  lemma LosingRun(w: World, u: Worker, r: Role, outcomes: map<Role, RoleOutcome>)
    requires (forall q: Role :: q in outcomes) && LastOneLeaving(w, u, r)
    ensures CalmRun(w, Losing(r), w.(worker := Some(Stranded(u, r))), outcomes)
  {
    hide RoleTakes, CoordTakes, Enabled, Do, Calm, Stranded, Woken, Disappointed, Inactive, AllTerminal, AllRoles;
    LostWake(w, u, r);
    Chain(w, u, r, Woken(u, r), Disappointed(u, r), Inactive(Disappointed(u, r), r), Stranded(u, r), outcomes);
  }

  lemma Chain(w: World, u: Worker, r: Role, a: Worker, d: Worker, e: Worker, f: Worker,
              outcomes: map<Role, RoleOutcome>)
    requires (forall q: Role :: q in outcomes) && w.worker == Some(u)
    requires RoleTakes(w, u, RoleAction.Wake(r), a) && CoordTakes(w, a, Take, a.(coord := Reading, gate := 0))
    requires CoordTakes(w, a.(coord := Reading, gate := 0), Read, a.(coord := ReadTerminal, gate := 0))
    requires CoordTakes(w, a.(coord := ReadTerminal, gate := 0), CheckActive, d)
    requires RoleTakes(w, d, Release(r), e) && RoleTakes(w, e, Exit(r), f)
    ensures CalmRun(w, Losing(r), w.(worker := Some(f)), outcomes)
  {
    hide Enabled, Do, Calm, RoleEnabled, RoleDo, CoordEnabled, CoordDo;
    var b, c := a.(coord := Reading, gate := 0), a.(coord := ReadTerminal, gate := 0);
    var wa, wb, wc := w.(worker := Some(a)), w.(worker := Some(b)), w.(worker := Some(c));
    var wd, we, wf := w.(worker := Some(d)), w.(worker := Some(e)), w.(worker := Some(f));
    RoleIsStep(w, u, RoleAction.Wake(r), a, outcomes);
    CoordIsStep(wa, a, Take, b, outcomes);
    CoordIsStep(wb, b, Read, c, outcomes);
    CoordIsStep(wc, c, CheckActive, d, outcomes);
    RoleIsStep(wd, d, Release(r), e, outcomes);
    RoleIsStep(we, e, Exit(r), f, outcomes);
    CalmStep(we, ByRole(Exit(r)), wf, [], wf, outcomes);
    CalmStep(wd, ByRole(Release(r)), we, [ByRole(Exit(r))] + [], wf, outcomes);
    var rest := [ByRole(Release(r))] + ([ByRole(Exit(r))] + []);
    CalmStep(wc, ByCoordinator(CheckActive), wd, rest, wf, outcomes);
    rest := [ByCoordinator(CheckActive)] + rest;
    CalmStep(wb, ByCoordinator(Read), wc, rest, wf, outcomes);
    rest := [ByCoordinator(Read)] + rest;
    CalmStep(wa, ByCoordinator(Take), wb, rest, wf, outcomes);
    rest := [ByCoordinator(Take)] + rest;
    CalmStep(w, ByRole(RoleAction.Wake(r)), wa, rest, wf, outcomes);
  }

  lemma StrandedIs(w: World, u: Worker, r: Role)
    requires WorldOk(w) && LastOneLeaving(w, u, r) && Leaving(u, r) && !u.owner.Broken?
    ensures IsStranded(w.(worker := Some(Stranded(u, r))), Stranded(u, r))
  {
    hide WorldOk, AllTerminal, AllRoles, RolesOf, CoordEnabled, Stranded;
    WorkerParts(w, u);
    StrandedFields(u, r);
    OnlyTheTicker(w.(worker := Some(Stranded(u, r))), Stranded(u, r));
  }

  lemma StrandedFields(u: Worker, r: Role)
    requires AllPcs(u.pcs) && Leaving(u, r) && u.active == 1
    ensures var v := Stranded(u, r);
            && v.sid == u.sid && v.owner == u.owner && v.coord.Waiting? && v.gate == 0 && v.active == 0
            && v.pcs == u.pcs[r := GateWoken][r := Released][r := Exited]
            && AllPcs(v.pcs) && forall q: Role :: v.pcs[q].Exited?
  {
  }

  lemma OnlyTheTicker(w: World, v: Worker)
    requires AllPcs(v.pcs) && v.coord.Waiting? && v.gate == 0 && !v.owner.Broken?
    ensures forall a :: CoordEnabled(w, v, a) ==> a.Ticker? || a.Alarm? || a.Abort?
  {
    hide ResultSet;
  }

  /** From a worker taking its roles one at a time a calm run leads to the stranded coordinator. */
  lemma StrandsFrom(w: World, u: Worker, plan: Plan) returns (actions: seq<Action>, x: World)
    requires PlanOk(plan) && OneByOne(w, u, plan)
    ensures CalmRun(w, actions, x, plan.outcomes) && x.worker.Some? && IsStranded(x, x.worker.value)
  {
    hide OnTrack, WorldOk, Fair, CalmRun, PlannedRun, TrimSpace, Leaving, Losing, IsStranded, Stranded, AllTerminal,
      AllRoles, Solo, Unfinished, InReach;
    var first, x1, v1, r := ReachLeaving(w, u, plan);
    PlannedIsCalm(w, first, x1, plan);
    TrackParts(x1, v1, plan);
    var second, x2, v2 := DrainGate(x1, v1, r, plan.outcomes);
    CalmFacts(x2, v2, plan.outcomes);
    LeavingFacts(x2, v2, r);
    LeavingNotified(v2, r);
    assert LastOneLeaving(x2, v2, r);
    x := x2.(worker := Some(Stranded(v2, r)));
    LosingRun(x2, v2, r, plan.outcomes);
    StrandedIs(x2, v2, r);
    CalmJoin(x1, second, x2, Losing(r), x, plan.outcomes);
    CalmJoin(w, first, x1, second + Losing(r), x, plan.outcomes);
    actions := first + (second + Losing(r));
  }

  lemma LeavingNotified(u: Worker, r: Role)
    requires AllPcs(u.pcs) && Leaving(u, r)
    ensures u.pcs[r].Notified?
  {
  }

  // ---- From nothing ------------------------------------------------------------------------------------

  /** A run that goes on with calm actions is a run. */
  lemma {:induction false} RunGoesOn(before: seq<Action>, actions: seq<Action>, x: World,
                                     outcomes: map<Role, RoleOutcome>)
    requires (forall r: Role :: r in outcomes) && IsRun(START, before)
    requires CalmRun(After(START, before), actions, x, outcomes)
    ensures IsRun(START, before + actions) && After(START, before + actions) == x
    decreases |actions|
  {
    hide Enabled, Do, Calm, IsRun, After;
    if actions == [] {
      assert before + actions == before;
    } else {
      var a := actions[0];
      OneMore(before, a);
      RunGoesOn(before + [a], actions[1..], x, outcomes);
      assert before + [a] + actions[1..] == before + actions;
    }
  }

  lemma OneMore(before: seq<Action>, a: Action)
    requires IsRun(START, before) && Enabled(After(START, before), a)
    ensures IsRun(START, before + [a]) && After(START, before + [a]) == Do(After(START, before), a)
  {
    hide Enabled, Do;
    assert (before + [a])[..|before|] == before;
  }

  /** Submit a session, start the worker. */
  function Opening(p: SubmitParams, at: Instant, policy: Timing.TimingPolicy, now: Instant): seq<Action>
  {
    [Down(SubmitStep(p, "", at)), Boot(policy, now)]
  }

  lemma OpeningRun(p: SubmitParams, at: Instant, policy: Timing.TimingPolicy, now: Instant)
    requires Opens(p, at, policy, now)
    ensures IsRun(START, Opening(p, at, policy, now))
    ensures After(START, Opening(p, at, policy, now))
         == World(Opened(p, at, policy, now), map[], Some(NewWorker(p.sessionId)))
  {
    hide Opens, Submit, Claim, NewWorker, IsRun, After;
    var down, boot := Down(SubmitStep(p, "", at)), Boot(policy, now);
    NothingYet();
    OneMore([], down);
    assert [] + [down] == [down] && [down] + [boot] == Opening(p, at, policy, now);
    hide Do, Enabled;
    BootsWith(p, at, policy, now);
    OneMore([down], boot);
  }

  lemma NothingYet()
    ensures IsRun(START, []) && After(START, []) == START
  {
  }

  lemma BootsWith(p: SubmitParams, at: Instant, policy: Timing.TimingPolicy, now: Instant)
    requires Opens(p, at, policy, now)
    ensures Do(START, Down(SubmitStep(p, "", at))) == World(Submit(EMPTY, p, "", at).db, map[], None)
    ensures var w, boot := World(Submit(EMPTY, p, "", at).db, map[], None), Boot(policy, now);
            Enabled(w, boot) && Do(w, boot) == World(Opened(p, at, policy, now), map[], Some(NewWorker(p.sessionId)))
  {
    hide Opens, Submit, Claim, NewWorker;
    ClaimsFirst(p, at, policy, now);
  }

  lemma ClaimsFirst(p: SubmitParams, at: Instant, policy: Timing.TimingPolicy, now: Instant)
    requires Opens(p, at, policy, now)
    ensures var o := Claim(Submit(EMPTY, p, "", at).db, policy, now); o.result.Claimed? && o.result.id == p.sessionId
  {
    hide Opens, Submit, Claim, Inv, NewRoles, NewSession, ClaimedSession, RolesOf, UnitsStored;
    FirstClaimed(p, at, policy, now);
  }

  /** Every role gives up before its first call. */
  function TimedOut(r: Role): RoleOutcome
  {
    RoleOutcome(r, RoleFailed, [], TIMEOUT, None, 0, None)
  }

  function TimeoutPlan(now: Instant): Plan
  {
    Plan(now, map[Requirements := TimedOut(Requirements), Architecture := TimedOut(Architecture), QA := TimedOut(QA),
                  Security := TimedOut(Security)],
         map[Requirements := 0, Architecture := 0, QA := 0, Security := 0])
  }

  lemma TimeoutFits(now: Instant, units: seq<Unit>, snap: Snapshot, r: Role)
    ensures r in TimeoutPlan(now).outcomes && r in TimeoutPlan(now).calls && TimeoutPlan(now).calls[r] == 0
    ensures TimeoutPlan(now).outcomes[r].role == r && Fit(units, TimeoutPlan(now).outcomes[r])
    ensures ExecutesTo(snap, 0, TimeoutPlan(now).outcomes[r])
  {
    match r
    case Requirements =>
    case Architecture =>
    case QA =>
    case Security =>
  }

  lemma OpenedWorldOk(p: SubmitParams, at: Instant, policy: Timing.TimingPolicy, now: Instant)
    requires Opens(p, at, policy, now)
    ensures WorldOk(World(Opened(p, at, policy, now), map[], Some(NewWorker(p.sessionId))))
  {
    hide Opens, Opened, NewWorker, WorldOk, IsRun, After, Opening;
    OpeningRun(p, at, policy, now);
    StartOk();
    RunKeeps(START, Opening(p, at, policy, now));
  }

  /** The session is there, not cancelled, its cutoff is ahead and its roles are pending. */
  lemma OpenedSession(p: SubmitParams, at: Instant, policy: Timing.TimingPolicy, now: Instant)
    requires Opens(p, at, policy, now)
    ensures var db, sid := Opened(p, at, policy, now), p.sessionId;
            && db.sessions.Keys == {sid} && !db.sessions[sid].cancelRequested
            && db.sessions[sid].cutoffAt.Some? && now < db.sessions[sid].cutoffAt.value
            && AllRoles(RolesOf(db, sid)) && CountOf(RolesOf(db, sid), Pending) == |ROLES|
  {
    hide Opened, Inv, NewRoles, CountOf, AllRoles, RolesOf, UnitsStored, Blank, SubmitFault, Submit, Claim;
    FirstClaimed(p, at, policy, now);
    NewRolesPending(at);
  }

  lemma OpenedCalm(p: SubmitParams, at: Instant, policy: Timing.TimingPolicy, now: Instant)
    requires Opens(p, at, policy, now) && TrimSpace(p.sessionId) == p.sessionId
    ensures var w := World(Opened(p, at, policy, now), map[], Some(NewWorker(p.sessionId)));
            PlanOk(TimeoutPlan(now)) && Booted(w, p.sessionId) && PlanFits(w.db, p.sessionId, TimeoutPlan(now))
  {
    hide Opens, Opened, TimeoutPlan, ExecutesTo, SnapshotOf, UnitsStored, Fit, WorldOk, TrimSpace, RolesOf, CountOf,
      AllRoles, AllApart, NewWorker;
    var sid := p.sessionId;
    OpenedSession(p, at, policy, now);
    TimeoutPlanFits(Opened(p, at, policy, now), sid, now);
    PlanTime(now);
    AloneApart(Opened(p, at, policy, now), sid);
    OpenedWorldOk(p, at, policy, now);
  }

  lemma OpenedOneByOne(w: World, sid: string, plan: Plan)
    requires PlanOk(plan) && Booted(w, sid) && PlanFits(w.db, sid, plan)
    ensures OneByOne(w, NewWorker(sid), plan)
  {
    hide Booted, PlanFits, OnTrack, NewWorker, Past;
    BootedOnTrack(w, sid, plan);
    AbsentAtFirst(sid);
    NewWorkerFields(sid);
    AbsentNotPast(NewWorker(sid).pcs[QA]);
  }

  lemma PlanTime(now: Instant)
    ensures TimeoutPlan(now).at == now
  {
  }

  lemma AbsentNotPast(pc: RolePc)
    requires pc.Absent?
    ensures !Past(pc)
  {
  }

  lemma AloneApart(db: Db, sid: string)
    requires db.sessions.Keys == {sid}
    ensures AllApart(db, sid)
  {
  }

  lemma TimeoutPlanFits(db: Db, sid: string, now: Instant)
    requires sid in db.sessions
    ensures var plan := TimeoutPlan(now);
            && PlanOk(plan)
            && (forall r: Role ::
                  plan.outcomes[r].role == r && Fit(UnitsStored(db, db.sessions[sid].snapshotId), plan.outcomes[r]))
            && (forall r: Role :: ExecutesTo(SnapshotOf(db, sid), plan.calls[r], plan.outcomes[r]))
  {
    hide TimeoutPlan, ExecutesTo, SnapshotOf, UnitsStored, Fit;
    var plan := TimeoutPlan(now);
    forall r: Role
      ensures r in plan.outcomes && r in plan.calls && plan.calls[r] == 0 && plan.outcomes[r].role == r
      ensures Fit(UnitsStored(db, db.sessions[sid].snapshotId), plan.outcomes[r])
      ensures ExecutesTo(SnapshotOf(db, sid), 0, plan.outcomes[r])
    {
      TimeoutFits(now, UnitsStored(db, db.sessions[sid].snapshotId), SnapshotOf(db, sid), r);
    }
  }

  /** There is a run from an empty database on which the coordinator's last wake is lost. */
  lemma LostWakeHappens(p: SubmitParams, at: Instant, policy: Timing.TimingPolicy, now: Instant)
    returns (actions: seq<Action>)
    requires Opens(p, at, policy, now) && TrimSpace(p.sessionId) == p.sessionId
    ensures IsRun(START, actions)
    ensures var x := After(START, actions); x.worker.Some? && IsStranded(x, x.worker.value)
  {
    hide Opens, TimeoutPlan, OneByOne, TrimSpace, IsStranded, CalmRun, After, IsRun, Opened, Opening, Booted, PlanFits;
    OpenedCalm(p, at, policy, now);
    OpeningRun(p, at, policy, now);
    var plan := TimeoutPlan(now);
    var w := World(Opened(p, at, policy, now), map[], Some(NewWorker(p.sessionId)));
    OpenedOneByOne(w, p.sessionId, plan);
    var rest, x := StrandsFrom(w, NewWorker(p.sessionId), plan);
    RunGoesOn(Opening(p, at, policy, now), rest, x, plan.outcomes);
    actions := Opening(p, at, policy, now) + rest;
  }

  /** And one on which it is not, and the session is composed. */
  lemma FirstSessionFinishes(p: SubmitParams, at: Instant, policy: Timing.TimingPolicy, now: Instant)
    returns (actions: seq<Action>)
    requires Opens(p, at, policy, now) && TrimSpace(p.sessionId) == p.sessionId
    ensures IsRun(START, actions)
    ensures var x := After(START, actions);
            x.worker.Some? && x.worker.value.coord.Finished? && x.worker.value.coord.result.Composed?
  {
    hide Opens, TimeoutPlan, OneByOne, TrimSpace, CalmRun, After, IsRun, Opened, Opening, Booted, PlanFits, PlannedRun;
    OpenedCalm(p, at, policy, now);
    OpeningRun(p, at, policy, now);
    var plan := TimeoutPlan(now);
    var w := World(Opened(p, at, policy, now), map[], Some(NewWorker(p.sessionId)));
    NoSteps(w, plan);
    var rest, x := NeverStuck(w, p.sessionId, [], w, plan);
    PlannedIsCalm(w, rest, x, plan);
    RunGoesOn(Opening(p, at, policy, now), rest, x, plan.outcomes);
    actions := Opening(p, at, policy, now) + rest;
  }
}
