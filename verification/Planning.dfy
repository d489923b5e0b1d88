/**
 * Planned runs: calm runs on which no goroutine calls its provider more often than its outcome takes and nobody
 * aborts. Every state of such a run can still be brought to its end.
 */
module Planning {
  import opened Options
  import opened Text
  import opened Domain
  import opened Composer
  import opened Timestamps
  import opened Records
  import opened Database
  import opened DbInvariant
  import opened DbSteps
  import opened DbEffects
  import opened Worker
  import opened WorkerSafety
  import opened WorkerRuns
  import opened Schedules
  import Dispatch

  /** A clock reading before the cutoff, and for each role its outcome and the provider calls that lead to it. */
  datatype Plan = Plan(at: Instant, outcomes: map<Role, RoleOutcome>, calls: map<Role, nat>)

  ghost predicate PlanOk(plan: Plan)
  {
    forall r: Role :: r in plan.outcomes && r in plan.calls && plan.calls[r] <= 2
  }

  /** An action of a planned run. */
  ghost predicate Planned(w: World, u: Worker, a: Action, plan: Plan)
    requires PlanOk(plan)
  {
    && Calm(w, u, a, plan.outcomes) && a != ByCoordinator(Abort)
    && (a.ByRole? && a.role.Provide? ==>
          a.role.r in u.pcs && u.pcs[a.role.r].Running? && u.pcs[a.role.r].calls < plan.calls[a.role.r])
  }

  // ---- What planned actions keep -------------------------------------------------------------------

  /** No role has made more calls than its outcome takes, and nobody has stopped the dispatcher early. */
  ghost predicate Unhindered(u: Worker, plan: Plan)
    requires PlanOk(plan)
  {
    && AllPcs(u.pcs) && !u.coord.Aborted? && (u.stopped ==> u.coord.Joining? || u.coord.Composing?)
    && (u.owner.Halted? ==> u.stopped) && !u.owner.Broken?
    && forall r: Role :: u.pcs[r].Running? ==> u.pcs[r].calls <= plan.calls[r]
  }

  /** The cutoff is ahead of the plan's clock reading, and the planned calls lead to the planned outcomes. */
  ghost predicate InReach(db: Db, sid: string, plan: Plan)
    requires PlanOk(plan)
  {
    && sid in db.sessions && db.sessions[sid].cutoffAt.Some? && plan.at < db.sessions[sid].cutoffAt.value
    && forall r: Role :: ExecutesTo(SnapshotOf(db, sid), plan.calls[r], plan.outcomes[r])
  }

  /** What holds of every state of a planned run. */
  ghost predicate OnTrack(w: World, u: Worker, plan: Plan)
    requires PlanOk(plan)
  {
    && w.worker == Some(u) && TrimSpace(u.sid) == u.sid && InReach(w.db, u.sid, plan)
    && (u.coord.Finished? || Unhindered(u, plan)) && Fair(w, u, plan.outcomes) && WorldOk(w)
  }

  lemma TrackParts(w: World, u: Worker, plan: Plan)
    requires PlanOk(plan) && OnTrack(w, u, plan)
    ensures w.worker == Some(u) && TrimSpace(u.sid) == u.sid && InReach(w.db, u.sid, plan)
    ensures (u.coord.Finished? || Unhindered(u, plan)) && Fair(w, u, plan.outcomes) && WorldOk(w)
  {
    hide InReach, Unhindered, Fair, WorldOk, TrimSpace;
  }

  /** What is most often asked of a state on track. */
  lemma TrackFacts(w: World, u: Worker, plan: Plan)
    requires PlanOk(plan) && OnTrack(w, u, plan)
    ensures AllPcs(u.pcs) && u.sid in w.db.sessions && !u.fatal && u.leaked == {}
    ensures !w.db.sessions[u.sid].cancelRequested
    ensures !u.coord.Sweeping? && !u.coord.Rereading?
    ensures forall r: Role :: plan.outcomes[r].role == r
  {
    hide InReach, Unhindered, WorldOk, TrimSpace, FairRole, Fit, AllApart, EngineReport, SnapshotOf, UnitsStored;
  }

  lemma DoOwner(w: World, u: Worker, a: OwnerAction)
    requires w.worker == Some(u) && Enabled(w, ByOwner(a))
    ensures AllPcs(u.pcs) && u.sid in w.db.sessions && OwnerEnabled(u, a) && Do(w, ByOwner(a)) == OwnerDo(w, u, a)
  {
    hide OwnerEnabled, OwnerDo;
  }

  lemma DoRole(w: World, u: Worker, a: RoleAction)
    requires w.worker == Some(u) && Enabled(w, ByRole(a))
    ensures AllPcs(u.pcs) && u.sid in w.db.sessions && RoleEnabled(w, u, a) && Do(w, ByRole(a)) == RoleDo(w, u, a)
  {
    hide RoleEnabled, RoleDo;
  }

  lemma DoCoord(w: World, u: Worker, a: CoordAction)
    requires w.worker == Some(u) && Enabled(w, ByCoordinator(a))
    ensures AllPcs(u.pcs) && u.sid in w.db.sessions && CoordEnabled(w, u, a)
    ensures Do(w, ByCoordinator(a)) == CoordDo(w, u, a)
  {
    hide CoordEnabled, CoordDo;
  }

  lemma DoOthers(w: World, u: Worker, a: Action)
    requires w.worker == Some(u) && Enabled(w, a) && a.ByOthers?
    ensures Do(w, a).worker == w.worker
  {
    hide Apply, IsForeign;
  }

  /** The store finds the session a worker is reviewing. */
  lemma ReserveFinds(w: World, u: Worker, at: Instant)
    requires WorldOk(w) && w.worker == Some(u) && u.sid in w.db.sessions && w.db.sessions[u.sid].cutoffAt.Some?
    ensures !AfterReserve(Reserve(w.db, "", u.sid, at).result).Broken?
    ensures !AfterReserve(Reserve(w.db, "", u.sid, at).result).Halted?
  {
    hide WorldOk, CountOf, FirstOf, Blank;
    WorkerParts(w, u);
  }

  lemma DecisionHalts(db: Db, u: Worker, readable: bool, at: Instant)
    requires u.sid in db.sessions
    ensures var pc := FastDecision(db, u, readable, at); !pc.Broken? && (pc.Halted? ==> u.stopped)
  {
    hide Dispatch.FastPath, Dispatch.StatusOf;
  }

  lemma OwnerUnhindered(w: World, u: Worker, a: OwnerAction, plan: Plan)
    requires PlanOk(plan) && Unhindered(u, plan) && u.sid in w.db.sessions && OwnerEnabled(u, a) && !a.AskFails?
    requires a.Ask? ==> var pc := AfterReserve(Reserve(w.db, "", u.sid, a.at).result); !pc.Broken? && !pc.Halted?
    requires !u.fatal
    ensures var x := OwnerDo(w, u, a);
            x.worker.Some? && Unhindered(x.worker.value, plan) && x.worker.value.coord == u.coord
  {
    hide Reserve, FastDecision, AfterReserve;
    if a.Check? {
      DecisionHalts(w.db, u, a.readable, a.at);
    }
  }

  lemma RoleUnhindered(w: World, u: Worker, a: RoleAction, plan: Plan)
    requires PlanOk(plan) && AllPcs(u.pcs) && u.sid in w.db.sessions && RoleEnabled(w, u, a)
    requires Planned(w, u, ByRole(a), plan) && !u.coord.Finished? && OnTrack(w, u, plan)
    ensures var x := RoleDo(w, u, a); x.worker.Some? && Unhindered(x.worker.value, plan)
  {
    hide OnTrack, ExecutesTo, RoleDo, RoleEnabled, PublishDo, NextPc, Fair, WorldOk, InReach;
    TrackParts(w, u, plan);
    TrackFacts(w, u, plan);
    if a.PublishAt? {
      PublishedNext(w, u, a, plan);
      PcUnhindered(u, SetPc(u, a.r, RolePc.Published), a.r, RolePc.Published, plan);
    } else {
      RoleFields(w, u, a);
      OnlyDecided(w, u, a);
      NextCalls(u.pcs[a.r], a);
      PcUnhindered(u, RoleDo(w, u, a).worker.value, a.r, NextPc(u.pcs[a.r], a), plan);
    }
  }

  lemma OnlyDecided(w: World, u: Worker, a: RoleAction)
    requires AllPcs(u.pcs) && u.sid in w.db.sessions && RoleEnabled(w, u, a)
    ensures a.Clear? ==> u.pcs[a.r].Decided?
  {
    hide ExecutesTo;
  }

  lemma NextCalls(pc: RolePc, a: RoleAction)
    requires a.Clear? ==> pc.Decided?
    ensures NextPc(pc, a).Running? ==> a.Provide? && (pc.Running? ==> NextPc(pc, a).calls == pc.calls + 1)
  {
  }

  lemma PublishedNext(w: World, u: Worker, a: RoleAction, plan: Plan)
    requires PlanOk(plan) && AllPcs(u.pcs) && u.sid in w.db.sessions && RoleEnabled(w, u, a) && a.PublishAt?
    requires OnTrack(w, u, plan)
    ensures RoleDo(w, u, a).worker == Some(SetPc(u, a.r, RolePc.Published))
  {
    hide OnTrack, ExecutesTo, PublishDo, SetPc, Fair, WorldOk, InReach, Unhindered, TrimSpace;
    TrackParts(w, u, plan);
    PublishGoesThrough(w, u, a.r, a.message, a.at, plan.outcomes);
  }

  lemma PcUnhindered(u: Worker, v: Worker, r: Role, pc: RolePc, plan: Plan)
    requires PlanOk(plan) && Unhindered(u, plan) && v.pcs == u.pcs[r := pc] && v.owner == u.owner && v.coord == u.coord
    requires v.stopped == u.stopped && (pc.Running? ==> pc.calls <= plan.calls[r])
    ensures Unhindered(v, plan)
  {
  }

  /** Where a coordinator on a planned run goes next. */
  predicate GoesOn(from: CoordPc, to: CoordPc)
  {
    match from
    case Waiting => to.Waiting? || to.Reading?
    case Reading => to.Waiting? || to.ReadTerminal?
    case ReadTerminal => to.Waiting? || to.Stopping?
    case Stopping => to.Joining?
    case Joining => to.Composing?
    case _ => false
  }

  lemma CoordFields(w: World, u: Worker, a: CoordAction)
    requires AllPcs(u.pcs) && u.sid in w.db.sessions && CoordEnabled(w, u, a)
    requires !a.Compose? && !a.Fault? && !a.Abort? && !u.coord.Sweeping? && !u.coord.Rereading?
    requires !u.fatal && !w.db.sessions[u.sid].cancelRequested
    ensures var x := CoordDo(w, u, a);
            && x.worker.Some? && x == w.(worker := x.worker)
            && var v := x.worker.value;
               && v == u.(coord := v.coord, gate := v.gate, wake := v.wake, tick := v.tick, alarms := v.alarms,
                          stopped := v.stopped)
               && GoesOn(u.coord, v.coord) && v.stopped == (u.stopped || a.StopDispatch?)
  {
    hide Readiness, ResultSet, AllPcs;
    ReadinessAnswers(w.db, u);
  }

  lemma CoordUnhindered(w: World, u: Worker, a: CoordAction, plan: Plan)
    requires PlanOk(plan) && Unhindered(u, plan) && u.sid in w.db.sessions && CoordEnabled(w, u, a)
    requires !a.Compose? && !a.Fault? && !a.Abort? && !u.coord.Sweeping? && !u.coord.Rereading?
    requires !u.fatal && !w.db.sessions[u.sid].cancelRequested
    ensures var x := CoordDo(w, u, a); x.worker.Some? && Unhindered(x.worker.value, plan)
  {
    hide CoordDo, CoordEnabled;
    CoordFields(w, u, a);
    OnlyStops(w, u, a);
    MovedUnhindered(u, CoordDo(w, u, a).worker.value, plan);
  }

  lemma OnlyStops(w: World, u: Worker, a: CoordAction)
    requires AllPcs(u.pcs) && CoordEnabled(w, u, a)
    ensures a.StopDispatch? ==> u.coord.Stopping?
  {
    hide ResultSet;
  }

  lemma MovedUnhindered(u: Worker, v: Worker, plan: Plan)
    requires PlanOk(plan) && Unhindered(u, plan) && v.pcs == u.pcs && v.owner == u.owner && GoesOn(u.coord, v.coord)
    requires (v.stopped ==> u.stopped || u.coord.Stopping?) && (u.stopped ==> v.stopped)
    ensures Unhindered(v, plan)
  {
  }

  lemma ReadinessAnswers(db: Db, u: Worker)
    requires u.sid in db.sessions
    ensures Readiness(db, u).ReadTerminal? || Readiness(db, u).Waiting?
  {
    hide AllTerminal, AllRoles, RolesOf;
  }

  /** Every composition on a planned run succeeds. */
  lemma ComposeFinishes(w: World, u: Worker, a: CoordAction, plan: Plan)
    requires PlanOk(plan) && AllPcs(u.pcs) && u.sid in w.db.sessions && CoordEnabled(w, u, a) && a.Compose?
    requires OnTrack(w, u, plan)
    ensures var x := CoordDo(w, u, a);
            x.worker.Some? && x.worker.value.coord.Finished? && x.worker.value == u.(coord := x.worker.value.coord)
  {
    hide OnTrack, ComposeSession, TrimSpace, ResultSet, Fair, WorldOk, InReach, Unhindered, AllPcs;
    TrackParts(w, u, plan);
    GateHolds(w, u, a.at, a.rows);
  }

  /** What the plan needs of the database no action takes away. */
  lemma ReachKept(w: World, u: Worker, a: Action, plan: Plan)
    requires PlanOk(plan) && w.worker == Some(u) && InReach(w.db, u.sid, plan) && Enabled(w, a) && WorldOk(w)
    ensures InReach(Do(w, a).db, u.sid, plan)
  {
    hide Do, Enabled, ExecutesTo, SnapshotOf, StepOk, Inv;
    ActionStep(w, a);
    SnapshotKept(w.db, Do(w, a).db, u.sid);
    CutoffKept(w.db, Do(w, a).db, u.sid);
  }

  lemma CutoffKept(db: Db, next: Db, sid: string)
    requires Inv(db) && StepOk(db, next) && sid in db.sessions && db.sessions[sid].cutoffAt.Some?
    ensures sid in next.sessions && next.sessions[sid].cutoffAt == db.sessions[sid].cutoffAt
  {
    hide Inv, StepOk, SessionOk, RunFollows, RoleRunRowOk;
    StepSession(db, next, sid);
    AtSession(db, sid);
    RowsOk(db.sessions[sid], db.roles[sid]);
  }

  /** Every planned action of every thread keeps the run on track; a finished coordinator stays so. */
  lemma PlannedKeeps(w: World, u: Worker, a: Action, plan: Plan)
    requires PlanOk(plan) && OnTrack(w, u, plan) && Enabled(w, a) && Planned(w, u, a, plan)
    ensures var x := Do(w, a);
            x.worker.Some? && x.worker.value.sid == u.sid && OnTrack(x, x.worker.value, plan)
            && (u.coord.Finished? ==> x.worker.value.coord.Finished?)
  {
    hide OnTrack, Do, Enabled, Calm, Fair, WorldOk, InReach, Unhindered, TrimSpace;
    TrackParts(w, u, plan);
    CalmKeeps(w, u, a, plan.outcomes);
    ActionKeeps(w, a);
    ReachKept(w, u, a, plan);
    StaysUnhindered(w, u, a, plan);
    Tracked(Do(w, a), Do(w, a).worker.value, plan);
  }

  lemma Tracked(w: World, u: Worker, plan: Plan)
    requires PlanOk(plan) && w.worker == Some(u) && TrimSpace(u.sid) == u.sid && InReach(w.db, u.sid, plan)
    requires (u.coord.Finished? || Unhindered(u, plan)) && Fair(w, u, plan.outcomes) && WorldOk(w)
    ensures OnTrack(w, u, plan)
  {
    hide InReach, Unhindered, Fair, WorldOk, TrimSpace;
  }

  lemma StaysUnhindered(w: World, u: Worker, a: Action, plan: Plan)
    requires PlanOk(plan) && OnTrack(w, u, plan) && Enabled(w, a) && Planned(w, u, a, plan)
    ensures var x := Do(w, a);
            x.worker.Some? && (x.worker.value.coord.Finished? || Unhindered(x.worker.value, plan))
            && (u.coord.Finished? ==> x.worker.value.coord.Finished?)
  {
    hide OnTrack, Unhindered, Do, Enabled, Fair, WorldOk, InReach, TrimSpace;
    TrackParts(w, u, plan);
    match a
    case ByOwner(o) => DoOwner(w, u, o); OwnerStays(w, u, o, plan);
    case ByRole(o) => DoRole(w, u, o); RoleStays(w, u, o, plan);
    case ByCoordinator(o) => DoCoord(w, u, o); CoordStays(w, u, o, plan);
    case ByOthers(step) => DoOthers(w, u, a);
    case _ => NotTheirs(w, u, a);
  }

  lemma NotTheirs(w: World, u: Worker, a: Action)
    requires w.worker == Some(u) && Enabled(w, a)
    ensures a.ByOwner? || a.ByRole? || a.ByCoordinator? || a.ByOthers? || a.Crash?
  {
    hide OwnerEnabled, RoleEnabled, CoordEnabled, IsForeign, AllPcs;
  }

  lemma OwnerStays(w: World, u: Worker, a: OwnerAction, plan: Plan)
    requires PlanOk(plan) && OnTrack(w, u, plan) && u.sid in w.db.sessions && OwnerEnabled(u, a) && !a.AskFails?
    ensures var x := OwnerDo(w, u, a);
            x.worker.Some? && x.worker.value.coord == u.coord
            && (u.coord.Finished? || Unhindered(x.worker.value, plan))
  {
    hide OnTrack, Unhindered, OwnerDo, OwnerEnabled, Reserve, ExecutesTo, Fair, WorldOk;
    TrackParts(w, u, plan);
    TrackFacts(w, u, plan);
    OwnerElsewhere(w, u, a);
    if !u.coord.Finished? {
      if a.Ask? {
        ReserveFinds(w, u, a.at);
      }
      OwnerUnhindered(w, u, a, plan);
    }
  }

  lemma RoleStays(w: World, u: Worker, a: RoleAction, plan: Plan)
    requires PlanOk(plan) && AllPcs(u.pcs) && u.sid in w.db.sessions && RoleEnabled(w, u, a)
    requires Planned(w, u, ByRole(a), plan) && OnTrack(w, u, plan)
    ensures var x := RoleDo(w, u, a);
            x.worker.Some? && x.worker.value.coord == u.coord
            && (u.coord.Finished? || Unhindered(x.worker.value, plan))
  {
    hide OnTrack, Unhindered, RoleDo, RoleEnabled, Planned;
    RoleElsewhere(w, u, a);
    if !u.coord.Finished? {
      RoleUnhindered(w, u, a, plan);
    }
  }

  lemma CoordStays(w: World, u: Worker, a: CoordAction, plan: Plan)
    requires PlanOk(plan) && AllPcs(u.pcs) && u.sid in w.db.sessions && CoordEnabled(w, u, a)
    requires Planned(w, u, ByCoordinator(a), plan) && OnTrack(w, u, plan)
    ensures var x := CoordDo(w, u, a);
            x.worker.Some? && (x.worker.value.coord.Finished? || Unhindered(x.worker.value, plan))
    ensures !u.coord.Finished?
  {
    hide OnTrack, Unhindered, CoordDo, CoordEnabled, Fair, WorldOk, InReach;
    TrackParts(w, u, plan);
    TrackFacts(w, u, plan);
    NothingAfter(w, u, a);
    if a.Compose? {
      ComposeFinishes(w, u, a, plan);
    } else {
      CoordUnhindered(w, u, a, plan);
    }
  }

  lemma NothingAfter(w: World, u: Worker, a: CoordAction)
    requires AllPcs(u.pcs) && CoordEnabled(w, u, a)
    ensures !u.coord.Finished?
  {
    hide ResultSet;
  }

  // ---- Planned runs ----------------------------------------------------------------------------------

  /** Planned actions, one after the other, lead from w to x. */
  ghost predicate PlannedRun(w: World, actions: seq<Action>, x: World, plan: Plan)
    requires PlanOk(plan)
    decreases |actions|
  {
    if actions == [] then w == x
    else w.worker.Some? && Enabled(w, actions[0]) && Planned(w, w.worker.value, actions[0], plan)
         && PlannedRun(Do(w, actions[0]), actions[1..], x, plan)
  }

  lemma {:induction false} PlannedIsCalm(w: World, actions: seq<Action>, x: World, plan: Plan)
    requires PlanOk(plan) && PlannedRun(w, actions, x, plan)
    ensures CalmRun(w, actions, x, plan.outcomes)
    decreases |actions|
  {
    hide Enabled, Do, Calm;
    if actions != [] {
      PlannedIsCalm(Do(w, actions[0]), actions[1..], x, plan);
    }
  }

  lemma OneMorePlanned(w: World, u: Worker, a: Action, rest: seq<Action>, x: World, plan: Plan)
    requires PlanOk(plan) && w.worker == Some(u) && Enabled(w, a) && Planned(w, u, a, plan)
    requires PlannedRun(Do(w, a), rest, x, plan)
    ensures PlannedRun(w, [a] + rest, x, plan)
  {
    hide Enabled, Do, Planned;
    assert ([a] + rest)[0] == a && ([a] + rest)[1..] == rest;
  }

  /** Every state a planned run reaches is on track. */
  lemma {:induction false} PlannedRunKeeps(w: World, u: Worker, actions: seq<Action>, x: World, plan: Plan)
    requires PlanOk(plan) && OnTrack(w, u, plan) && PlannedRun(w, actions, x, plan)
    ensures x.worker.Some? && x.worker.value.sid == u.sid && OnTrack(x, x.worker.value, plan)
    decreases |actions|
  {
    hide Enabled, Do, Planned, OnTrack;
    TrackParts(w, u, plan);
    if actions != [] {
      PlannedKeeps(w, u, actions[0], plan);
      PlannedRunKeeps(Do(w, actions[0]), Do(w, actions[0]).worker.value, actions[1..], x, plan);
    }
  }

  // ---- Where planned runs start ------------------------------------------------------------------------

  /** The plan fits a session: its outcomes can be published, its calls lead to them, and its clock is in time. */
  ghost predicate PlanFits(db: Db, sid: string, plan: Plan)
    requires PlanOk(plan)
  {
    && InReach(db, sid, plan)
    && forall r: Role ::
         plan.outcomes[r].role == r && Fit(UnitsStored(db, db.sessions[sid].snapshotId), plan.outcomes[r])
  }

  /** A worker that has just claimed its session is on track. */
  lemma BootedOnTrack(w: World, sid: string, plan: Plan)
    requires PlanOk(plan) && Booted(w, sid) && PlanFits(w.db, sid, plan)
    ensures OnTrack(w, NewWorker(sid), plan)
  {
    hide WorldOk, TrimSpace, EngineReport, Fit, AllApart, UnitsStored, RolesOf, CountOf, ExecutesTo, Fair, AllRoles,
      NewWorker;
    BootFair(w, sid, plan.outcomes);
    NewWorkerFields(sid);
    NewUnhindered(sid, plan);
  }

  lemma NewUnhindered(sid: string, plan: Plan)
    requires PlanOk(plan)
    ensures Unhindered(NewWorker(sid), plan)
  {
    AbsentAtFirst(sid);
  }

  lemma AbsentAtFirst(sid: string)
    ensures AllPcs(NewWorker(sid).pcs) && forall r: Role :: NewWorker(sid).pcs[r].Absent?
  {
    forall r: Role ensures r in ALL_ABSENT && ALL_ABSENT[r].Absent? {
      match r
      case Requirements =>
      case Architecture =>
      case QA =>
      case Security =>
    }
  }
}
