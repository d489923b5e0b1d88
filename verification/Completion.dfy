/**
 * No planned run gets stuck. In every state on track some thread can take a step that leaves less to do, and every
 * planned step of the others leaves no more; so the run can go on to its end, and what it then composes is the
 * engine's report.
 */
module Completion {
  import opened Options
  import opened Text
  import opened Domain
  import opened Timestamps
  import opened Records
  import opened Database
  import opened DbEffects
  import opened Worker
  import opened WorkerSafety
  import opened WorkerRuns
  import opened Schedules
  import opened Planning
  import Engine

  // ---- Whose turn it is ------------------------------------------------------------------------------

  /** TakeThread is the coordinator's receive from the gate, which its other signals can hold up for ever. */
  datatype Thread = RoleThread(r: Role) | OwnerThread | CoordThread | TakeThread

  predicate Belongs(a: Action, t: Thread)
  {
    match t
    case RoleThread(r) => a.ByRole? && a.role.r == r
    case OwnerThread => a.ByOwner?
    case CoordThread => a.ByCoordinator?
    case TakeThread => a == ByCoordinator(Take)
  }

  /** The first role whose goroutine is there, and the first that has not started. */
  function FirstOut(u: Worker): Option<Role>
    requires AllPcs(u.pcs)
  {
    if !Gone(u.pcs[Requirements]) then Some(Requirements)
    else if !Gone(u.pcs[Architecture]) then Some(Architecture)
    else if !Gone(u.pcs[QA]) then Some(QA)
    else if !Gone(u.pcs[Security]) then Some(Security)
    else None
  }

  predicate SomeAbsent(u: Worker)
    requires AllPcs(u.pcs)
  {
    u.pcs[Requirements].Absent? || u.pcs[Architecture].Absent? || u.pcs[QA].Absent? || u.pcs[Security].Absent?
  }

  lemma FirstOutMeaning(u: Worker)
    requires AllPcs(u.pcs)
    ensures FirstOut(u).Some? ==> !Gone(u.pcs[FirstOut(u).value])
    ensures FirstOut(u).None? ==> forall r: Role :: Gone(u.pcs[r])
    ensures FirstOut(u).None? && !SomeAbsent(u) ==> forall r: Role :: u.pcs[r].Exited?
    ensures (exists r: Role :: u.pcs[r].Absent?) <==> SomeAbsent(u)
  {
    forall r: Role ensures FirstOut(u).None? ==> Gone(u.pcs[r])
                   ensures u.pcs[r].Absent? ==> SomeAbsent(u)
    {
      match r
      case Requirements =>
      case Architecture =>
      case QA =>
      case Security =>
    }
  }

  /** The thread whose next step leaves less to do. */
  function Helpful(u: Worker): Thread
    requires AllPcs(u.pcs)
  {
    if FirstOut(u).Some? then RoleThread(FirstOut(u).value)
    else if SomeAbsent(u) then OwnerThread
    else if u.coord.Waiting? && u.gate > 0 then TakeThread
    else CoordThread
  }

  // ---- What is left to do ------------------------------------------------------------------------------

  function PcRank(pc: RolePc, calls: nat): nat
  {
    match pc
    case Absent => 22
    case Running(k) => 9 + if k < calls then calls - k else 0
    case Decided(_) => 8
    case Cleared(_) => 7
    case Published => 6
    case Decremented => 5
    case Notified => 4
    case GateWoken => 3
    case Released => 2
    case Exited => 0
  }

  function PcsRank(u: Worker, plan: Plan): nat
    requires AllPcs(u.pcs) && forall r: Role :: r in plan.calls
  {
    PcRank(u.pcs[Requirements], plan.calls[Requirements]) + PcRank(u.pcs[Architecture], plan.calls[Architecture])
    + PcRank(u.pcs[QA], plan.calls[QA]) + PcRank(u.pcs[Security], plan.calls[Security])
  }

  function OwnerRank(pc: OwnerPc): (n: nat)
    ensures n <= 6
  {
    match pc
    case Idle => 6
    case Deciding => 5
    case Checked => 4
    case Reserving => 3
    case Gap(_) => 2
    case Counted(_) => 1
    case _ => 0
  }

  function CoordRank(pc: CoordPc, gate: nat): (n: nat)
    ensures n <= 9
  {
    match pc
    case Waiting => if gate == 0 then 9 else 8
    case Reading => 7
    case ReadTerminal => 5
    case Stopping => 4
    case Joining => 3
    case Composing => 2
    case _ => 0
  }

  /** Only the thread whose turn it is counts besides the goroutines. */
  function TurnRank(u: Worker): (n: nat)
    requires AllPcs(u.pcs)
    ensures n <= 9
  {
    if FirstOut(u).Some? then 0 else if SomeAbsent(u) then OwnerRank(u.owner) else CoordRank(u.coord, u.gate)
  }

  function Rank(u: Worker, plan: Plan): nat
    requires AllPcs(u.pcs) && forall r: Role :: r in plan.calls
  {
    10 * PcsRank(u, plan) + TurnRank(u)
  }

  /** One role's program counter goes down in rank. */
  lemma RoleLess(u: Worker, v: Worker, r: Role, pc: RolePc, plan: Plan)
    requires AllPcs(u.pcs) && (forall q: Role :: q in plan.calls) && v.pcs == u.pcs[r := pc]
    requires PcRank(pc, plan.calls[r]) < PcRank(u.pcs[r], plan.calls[r])
    ensures AllPcs(v.pcs) && PcsRank(v, plan) < PcsRank(u, plan)
  {
    hide PcRank;
    match r
    case Requirements =>
    case Architecture =>
    case QA =>
    case Security =>
  }

  // ---- The helpful thread can move -----------------------------------------------------------------------

  /** Until every role has started, the dispatcher's clock reads before the cutoff. */
  ghost predicate InTime(w: World, u: Worker, a: Action)
    requires u.sid in w.db.sessions
  {
    match a
    case ByOwner(Check(_, at)) => Early(w.db, u, at)
    case ByOwner(Ask(at)) => Early(w.db, u, at)
    case _ => true
  }

  ghost predicate Early(db: Db, u: Worker, at: Instant)
    requires u.sid in db.sessions
  {
    (exists r: Role :: r in u.pcs && u.pcs[r].Absent?) ==>
      db.sessions[u.sid].cutoffAt.Some? && at < db.sessions[u.sid].cutoffAt.value
  }

  ghost predicate CanTake(w: World, u: Worker, a: Action, plan: Plan)
    requires PlanOk(plan)
  {
    w.worker == Some(u) && u.sid in w.db.sessions && Enabled(w, a) && Planned(w, u, a, plan) && InTime(w, u, a)
  }

  lemma RoleCanTake(w: World, u: Worker, a: RoleAction, plan: Plan)
    requires PlanOk(plan) && AllPcs(u.pcs) && u.sid in w.db.sessions && RoleEnabled(w, u, a) && !a.PublishFails?
    requires (a.Finish? ==> a.out == plan.outcomes[a.r]) && (a.Provide? ==> u.pcs[a.r].calls < plan.calls[a.r])
    requires w.worker == Some(u)
    ensures CanTake(w, u, ByRole(a), plan)
  {
    hide ExecutesTo, SnapshotOf;
  }

  /** The next step of a goroutine that has its outcome. */
  function RoleNext(pc: RolePc, r: Role, at: Instant): RoleAction
  {
    match pc
    case Decided(_) => Clear(r)
    case Cleared(_) => PublishAt(r, "", at)
    case Published => Free(r)
    case Decremented => Send(r)
    case Notified => RoleAction.Wake(r)
    case GateWoken => Release(r)
    case _ => Exit(r)
  }

  lemma RoleNextEnabled(w: World, u: Worker, r: Role, at: Instant)
    requires AllPcs(u.pcs) && u.sid in w.db.sessions && !Gone(u.pcs[r]) && !u.pcs[r].Running?
    ensures var a := RoleNext(u.pcs[r], r, at);
            RoleEnabled(w, u, a) && a.r == r && !a.PublishFails? && !a.Finish? && !a.Provide?
  {
    hide ExecutesTo;
  }

  lemma RoleMoves(w: World, u: Worker, r: Role, plan: Plan) returns (a: RoleAction)
    requires PlanOk(plan) && OnTrack(w, u, plan) && !u.coord.Finished? && AllPcs(u.pcs) && !Gone(u.pcs[r])
    ensures CanTake(w, u, ByRole(a), plan) && a.r == r
  {
    hide OnTrack, Fair, WorldOk, InReach, Unhindered, CanTake, ExecutesTo, TrimSpace, RoleEnabled, RoleNext, Gone;
    TrackParts(w, u, plan);
    TrackFacts(w, u, plan);
    if u.pcs[r].Running? {
      a := CallsOrFinishes(w, u, r, plan);
    } else {
      a := RoleNext(u.pcs[r], r, plan.at);
      RoleNextEnabled(w, u, r, plan.at);
      RoleCanTake(w, u, a, plan);
    }
  }

  lemma CallsOrFinishes(w: World, u: Worker, r: Role, plan: Plan) returns (a: RoleAction)
    requires PlanOk(plan) && OnTrack(w, u, plan) && !u.coord.Finished? && AllPcs(u.pcs) && u.pcs[r].Running?
    ensures CanTake(w, u, ByRole(a), plan) && a.r == r
  {
    hide OnTrack, Fair, WorldOk, CanTake, ExecutesTo, TrimSpace, SnapshotOf;
    TrackParts(w, u, plan);
    TrackFacts(w, u, plan);
    a := if u.pcs[r].calls < plan.calls[r] then Provide(r) else Finish(r, plan.outcomes[r]);
    RoleCanTake(w, u, a, plan);
  }

  /** All goroutines are out, and role r has not had its turn. */
  ghost predicate Turn(w: World, u: Worker, r: Role, plan: Plan)
    requires PlanOk(plan)
  {
    && OnTrack(w, u, plan) && !u.coord.Finished? && AllPcs(u.pcs) && u.pcs[r].Absent?
    && forall q: Role :: Gone(u.pcs[q])
  }

  lemma RoleFair(w: World, u: Worker, r: Role, plan: Plan)
    requires PlanOk(plan) && OnTrack(w, u, plan)
    ensures AllPcs(u.pcs) && FairRole(w.db, u, r, plan.outcomes[r])
  {
    hide InReach, Unhindered, WorldOk, TrimSpace, FairRole, Fit, AllApart, EngineReport, SnapshotOf, UnitsStored;
  }

  lemma NotStopped(w: World, u: Worker, r: Role, plan: Plan)
    requires PlanOk(plan) && Turn(w, u, r, plan)
    ensures !u.stopped && !u.owner.Halted? && !u.owner.Broken?
  {
    hide WorldOk, RolesOf, CountersOk, CallsOf, Fair, InReach, TrimSpace, RolesOk, Blank, Stored, OnTrack;
    TrackParts(w, u, plan);
    WorkerParts(w, u);
    RoleFacts(w, u, r);
    RoleFair(w, u, r, plan);
  }

  lemma TurnStatus(w: World, u: Worker, r: Role, q: Role, plan: Plan)
    requires PlanOk(plan) && Turn(w, u, r, plan) && !u.owner.Gap? && !u.owner.Counted?
    ensures q in RolesOf(w.db, u.sid) && !Slot(u, q)
    ensures var status := RolesOf(w.db, u.sid)[q].status; if u.pcs[q].Absent? then status.Pending? else Done(status)
  {
    hide WorldOk, RolesOf, CountersOk, CallsOf, Fair, InReach, Unhindered, TrimSpace, Stored, OnTrack;
    TrackParts(w, u, plan);
    TrackFacts(w, u, plan);
    RoleFacts(w, u, q);
    RoleFair(w, u, q, plan);
  }

  lemma TurnCounts(w: World, u: Worker, r: Role, plan: Plan)
    requires PlanOk(plan) && Turn(w, u, r, plan) && !u.owner.Gap? && !u.owner.Counted?
    ensures u.local == 0 && CountOf(RolesOf(w.db, u.sid), InFlight) == 0
    ensures FirstOf(RolesOf(w.db, u.sid), Pending).Some?
  {
    hide WorldOk, RolesOf, Slot, Fair, InReach, Unhindered, TrimSpace, OnTrack, FirstOf;
    TrackParts(w, u, plan);
    forall q: Role ensures !Slot(u, q) && q in RolesOf(w.db, u.sid) && !RolesOf(w.db, u.sid)[q].status.InFlight? {
      TurnStatus(w, u, r, q, plan);
    }
    TurnStatus(w, u, r, r, plan);
    RoleFacts(w, u, r);
    FirstOfMeaning(RolesOf(w.db, u.sid), Pending, r);
    assert u.local == Slots(u);
  }

  /** The owner's next step when it is its turn. */
  function OwnerNext(pc: OwnerPc, at: Instant): OwnerAction
  {
    match pc
    case Deciding => Check(true, at)
    case Checked => Capacity
    case Reserving => Ask(at)
    case Gap(_) => Count
    case Counted(_) => Start
    case _ => Receive(Timer)
  }

  lemma OwnerMovesOn(w: World, u: Worker, r: Role, plan: Plan)
    requires PlanOk(plan) && Turn(w, u, r, plan)
    ensures CanTake(w, u, ByOwner(OwnerNext(u.owner, plan.at)), plan)
  {
    hide OnTrack, Fair, WorldOk, Unhindered, TrimSpace, ExecutesTo;
    NotStopped(w, u, r, plan);
    TrackParts(w, u, plan);
  }

  /** Every goroutine has run and left. */
  ghost predicate AllOut(w: World, u: Worker, plan: Plan)
    requires PlanOk(plan)
  {
    OnTrack(w, u, plan) && !u.coord.Finished? && AllPcs(u.pcs) && forall q: Role :: u.pcs[q].Exited?
  }

  lemma AllOutFacts(w: World, u: Worker, plan: Plan)
    requires PlanOk(plan) && AllOut(w, u, plan)
    ensures u.active == 0 && AllRoles(RolesOf(w.db, u.sid)) && AllTerminal(RolesOf(w.db, u.sid))
  {
    hide WorldOk, RolesOf, CallsOf, Fair, InReach, Unhindered, TrimSpace, OnTrack, Slots, Tolds;
    TrackParts(w, u, plan);
    TrackFacts(w, u, plan);
    forall q: Role ensures q in RolesOf(w.db, u.sid) && RolesOf(w.db, u.sid)[q].status.IsTerminal() && !Live(u, q) {
      RoleFacts(w, u, q);
    }
    RoleFacts(w, u, QA);
    assert Lives(u) == 0;
  }

  /** The query that Compose makes has a result. */
  lemma {:induction false} SomeResultSet(db: Db, sid: string, keys: set<string>) returns (rows: seq<string>)
    requires keys <= db.findings.Keys
    ensures forall k :: k in rows <==> k in keys && RowCounts(db, sid, k)
    ensures forall i, j :: 0 <= i < j < |rows| ==> rows[i] != rows[j]
    decreases keys
  {
    rows := [];
    if keys != {} {
      var k :| k in keys;
      rows := SomeResultSet(db, sid, keys - {k});
      if RowCounts(db, sid, k) {
        rows := rows + [k];
      }
    }
  }

  function CoordNext(u: Worker, at: Instant, rows: seq<string>): CoordAction
  {
    match u.coord
    case Waiting => if u.gate > 0 then Take else Ticker
    case Reading => Read
    case ReadTerminal => CheckActive
    case Stopping => StopDispatch
    case Joining => Join
    case _ => CoordAction.Compose(at, rows)
  }

  lemma CoordMovesOn(w: World, u: Worker, plan: Plan) returns (a: CoordAction)
    requires PlanOk(plan) && AllOut(w, u, plan)
    ensures CanTake(w, u, ByCoordinator(a), plan) && (u.coord.Waiting? && u.gate > 0 ==> a == Take)
  {
    hide OnTrack, Fair, WorldOk, InReach, TrimSpace, RowCounts;
    TrackParts(w, u, plan);
    TrackFacts(w, u, plan);
    var rows := SomeResultSet(w.db, u.sid, w.db.findings.Keys);
    RowsAreResult(w.db, u.sid, rows);
    a := CoordNext(u, plan.at, rows);
  }

  lemma RowsAreResult(db: Db, sid: string, rows: seq<string>)
    requires (forall k :: k in rows <==> k in db.findings.Keys && RowCounts(db, sid, k))
    requires forall i, j :: 0 <= i < j < |rows| ==> rows[i] != rows[j]
    ensures TrimSpace(sid) == sid ==> ResultSet(db, TrimSpace(sid), rows)
    ensures forall k :: k in rows ==> k in db.findings
  {
  }

  /** In every state on track the helpful thread can take a planned step, in time. */
  lemma HelpfulCan(w: World, u: Worker, plan: Plan) returns (a: Action)
    requires PlanOk(plan) && OnTrack(w, u, plan) && !u.coord.Finished? && AllPcs(u.pcs)
    ensures CanTake(w, u, a, plan) && Belongs(a, Helpful(u))
  {
    hide OnTrack, CanTake, FirstOut, SomeAbsent;
    FirstOutMeaning(u);
    if FirstOut(u).Some? {
      var b := RoleMoves(w, u, FirstOut(u).value, plan);
      a := ByRole(b);
    } else if SomeAbsent(u) {
      var r: Role :| u.pcs[r].Absent?;
      OwnerMovesOn(w, u, r, plan);
      a := ByOwner(OwnerNext(u.owner, plan.at));
    } else {
      var b := CoordMovesOn(w, u, plan);
      a := ByCoordinator(b);
    }
  }

  // ---- No planned step makes more to do ------------------------------------------------------------------

  /** Less is left to do, or as much is left, the same thread is to move, and it has not moved. */
  ghost predicate Progress(u: Worker, v: Worker, a: Action, plan: Plan)
    requires PlanOk(plan) && AllPcs(u.pcs)
  {
    && AllPcs(v.pcs)
    && (Rank(v, plan) < Rank(u, plan)
        || (Rank(v, plan) == Rank(u, plan) && Helpful(v) == Helpful(u) && !Belongs(a, Helpful(u))))
  }

  lemma PcDrops(pc: RolePc, a: RoleAction, calls: nat)
    requires match a
             case Provide(_) => pc.Running? && pc.calls < calls
             case Finish(_, _) => pc.Running?
             case Clear(_) => pc.Decided?
             case PublishAt(_, _, _) => pc.Cleared?
             case PublishFails(_) => false
             case Free(_) => pc.Published?
             case Send(_) => pc.Decremented?
             case Wake(_) => pc.Notified?
             case Release(_) => pc.GateWoken?
             case Exit(_) => pc.Released?
    ensures PcRank(NextPc(pc, a), calls) < PcRank(pc, calls)
  {
  }

  lemma EnabledDrops(w: World, u: Worker, a: RoleAction, plan: Plan)
    requires PlanOk(plan) && AllPcs(u.pcs) && u.sid in w.db.sessions && RoleEnabled(w, u, a)
    requires Planned(w, u, ByRole(a), plan)
    ensures PcRank(NextPc(u.pcs[a.r], a), plan.calls[a.r]) < PcRank(u.pcs[a.r], plan.calls[a.r])
  {
    hide ExecutesTo, PcRank, NextPc;
    PcDrops(u.pcs[a.r], a, plan.calls[a.r]);
  }

  /** What a planned step of a goroutine does to the goroutines. */
  lemma RoleEffect(w: World, u: Worker, a: RoleAction, plan: Plan)
    requires PlanOk(plan) && AllPcs(u.pcs) && u.sid in w.db.sessions && RoleEnabled(w, u, a)
    requires Planned(w, u, ByRole(a), plan) && OnTrack(w, u, plan)
    ensures var x := RoleDo(w, u, a);
            x.worker.Some? && x.worker.value.coord == u.coord
            && x.worker.value.pcs == u.pcs[a.r := NextPc(u.pcs[a.r], a)]
  {
    hide OnTrack, RoleDo, RoleEnabled, NextPc;
    TrackFacts(w, u, plan);
    if a.PublishAt? {
      PublishedNext(w, u, a, plan);
      PublishedIs(u.pcs[a.r], a);
    } else {
      RoleFields(w, u, a);
    }
  }

  lemma RoleProgress(w: World, u: Worker, a: RoleAction, plan: Plan)
    requires PlanOk(plan) && AllPcs(u.pcs) && u.sid in w.db.sessions && RoleEnabled(w, u, a)
    requires Planned(w, u, ByRole(a), plan) && OnTrack(w, u, plan)
    ensures var x := RoleDo(w, u, a); x.worker.Some? && Progress(u, x.worker.value, ByRole(a), plan)
  {
    hide OnTrack, RoleDo, RoleEnabled, PcsRank, PcRank, NextPc, TurnRank, Planned;
    EnabledDrops(w, u, a, plan);
    RoleEffect(w, u, a, plan);
    RoleLess(u, RoleDo(w, u, a).worker.value, a.r, NextPc(u.pcs[a.r], a), plan);
  }

  lemma PublishedIs(pc: RolePc, a: RoleAction)
    requires a.PublishAt?
    ensures NextPc(pc, a) == RolePc.Published
  {
  }

  lemma Decides(db: Db, u: Worker, readable: bool, at: Instant)
    requires u.sid in db.sessions && !u.stopped && !db.sessions[u.sid].cancelRequested
    requires db.sessions[u.sid].cutoffAt.Some? && at < db.sessions[u.sid].cutoffAt.value
    requires FirstOf(RolesOf(db, u.sid), Pending).Some?
    ensures FastDecision(db, u, readable, at).Checked?
  {
    hide FirstOf, RolesOf;
  }

  /** When it is the owner's turn, each of its steps brings the next start nearer. */
  lemma OwnerDown(w: World, u: Worker, r: Role, a: OwnerAction, plan: Plan)
    requires PlanOk(plan) && Turn(w, u, r, plan) && u.sid in w.db.sessions && OwnerEnabled(u, a) && !a.Start?
    requires InTime(w, u, ByOwner(a)) && !a.AskFails?
    ensures var x := OwnerDo(w, u, a); x.worker.Some? && OwnerRank(x.worker.value.owner) < OwnerRank(u.owner)
  {
    hide OnTrack, Fair, WorldOk, InReach, Unhindered, TrimSpace, FastDecision, Reserve, RolesOf, CountOf, FirstOf,
      Blank, RolesOk, CountersOk, AllTerminal, Slot;
    NotStopped(w, u, r, plan);
    TrackParts(w, u, plan);
    TrackFacts(w, u, plan);
    WorkerParts(w, u);
    if !u.owner.Gap? && !u.owner.Counted? {
      TurnCounts(w, u, r, plan);
    }
    match a
    case Check(readable, at) => Decides(w.db, u, readable, at);
    case Ask(at) => Reserves(w.db, u.sid, at);
    case _ =>
  }

  /** Steps of the owner that start nobody leave the goroutines and the coordinator alone. */
  lemma OwnerFields(w: World, u: Worker, a: OwnerAction)
    requires u.sid in w.db.sessions && OwnerEnabled(u, a) && !a.Start?
    ensures var x := OwnerDo(w, u, a);
            && x.worker.Some? && x.worker.value.pcs == u.pcs && x.worker.value.coord == u.coord
            && x.worker.value.gate == u.gate
  {
    hide Reserve, FastDecision;
  }

  lemma StartFields(w: World, u: Worker, plan: Plan)
    requires PlanOk(plan) && u.sid in w.db.sessions && OwnerEnabled(u, Start) && AllPcs(u.pcs) && OnTrack(w, u, plan)
    ensures u.owner.Counted? && u.pcs[u.owner.role].Absent?
    ensures var x := OwnerDo(w, u, Start);
            x.worker.Some? && x.worker.value.pcs == u.pcs[u.owner.role := Running(0)]
  {
    hide OnTrack, Fair, WorldOk, InReach, Unhindered, TrimSpace, RolesOk, CountersOk, RolesOf, AllTerminal, Blank;
    TrackParts(w, u, plan);
    TrackFacts(w, u, plan);
    WorkerParts(w, u);
    HeldRole(w, u, u.owner.role);
  }

  lemma StartRank(calls: nat)
    requires calls <= 2
    ensures PcRank(Running(0), calls) < PcRank(Absent, calls)
  {
  }

  lemma OwnerProgress(w: World, u: Worker, a: OwnerAction, plan: Plan)
    requires PlanOk(plan) && AllPcs(u.pcs) && u.sid in w.db.sessions && OwnerEnabled(u, a) && !a.AskFails?
    requires InTime(w, u, ByOwner(a)) && !u.coord.Finished? && OnTrack(w, u, plan)
    ensures var x := OwnerDo(w, u, a); x.worker.Some? && Progress(u, x.worker.value, ByOwner(a), plan)
  {
    hide OnTrack, OwnerDo, OwnerEnabled, PcsRank, PcRank, FirstOut, SomeAbsent, OwnerRank, CoordRank, InTime;
    FirstOutMeaning(u);
    if a.Start? {
      StartFields(w, u, plan);
      StartRank(plan.calls[u.owner.role]);
      RoleLess(u, OwnerDo(w, u, a).worker.value, u.owner.role, Running(0), plan);
    } else {
      OwnerFields(w, u, a);
      SamePcsSameTurn(u, OwnerDo(w, u, a).worker.value, plan);
      if FirstOut(u).None? && SomeAbsent(u) {
        var r: Role :| u.pcs[r].Absent?;
        OwnerDown(w, u, r, a, plan);
      }
    }
  }

  lemma SamePcsSameTurn(u: Worker, v: Worker, plan: Plan)
    requires AllPcs(u.pcs) && v.pcs == u.pcs && forall r: Role :: r in plan.calls
    ensures AllPcs(v.pcs) && FirstOut(v) == FirstOut(u) && SomeAbsent(v) == SomeAbsent(u)
    ensures PcsRank(v, plan) == PcsRank(u, plan)
  {
    hide PcRank, Gone;
  }

  /** When every goroutine is out, each step of the coordinator brings the composition nearer, but for idle signals. */
  lemma CoordDown(w: World, u: Worker, a: CoordAction, plan: Plan)
    requires PlanOk(plan) && AllOut(w, u, plan) && u.sid in w.db.sessions && CoordEnabled(w, u, a)
    requires !a.Compose? && !a.Fault? && !a.Abort?
    ensures var x := CoordDo(w, u, a);
            && x.worker.Some?
            && var v := x.worker.value;
               if u.coord.Waiting? && u.gate > 0 && a != Take then v.coord.Waiting? && v.gate > 0
               else CoordRank(v.coord, v.gate) < CoordRank(u.coord, u.gate)
  {
    hide OnTrack, Fair, WorldOk, InReach, Unhindered, TrimSpace, RolesOf, AllTerminal, AllRoles, ResultSet, Readiness,
      AllPcs;
    TrackFacts(w, u, plan);
    AllOutFacts(w, u, plan);
    Readable(w, u, u);
  }

  lemma CoordProgress(w: World, u: Worker, a: CoordAction, plan: Plan)
    requires PlanOk(plan) && AllPcs(u.pcs) && u.sid in w.db.sessions && CoordEnabled(w, u, a)
    requires !a.Compose? && !a.Fault? && !a.Abort? && !u.coord.Finished? && OnTrack(w, u, plan)
    ensures var x := CoordDo(w, u, a); x.worker.Some? && Progress(u, x.worker.value, ByCoordinator(a), plan)
  {
    hide OnTrack, CoordDo, CoordEnabled, PcsRank, FirstOut, SomeAbsent, OwnerRank, CoordRank;
    TrackFacts(w, u, plan);
    FirstOutMeaning(u);
    CoordFields(w, u, a);
    SamePcsSameTurn(u, CoordDo(w, u, a).worker.value, plan);
    if FirstOut(u).None? && !SomeAbsent(u) {
      CoordDown(w, u, a, plan);
      WaitingRank(u, CoordDo(w, u, a).worker.value);
    }
  }

  lemma WaitingRank(u: Worker, v: Worker)
    ensures u.coord.Waiting? && u.gate > 0 && v.coord.Waiting? && v.gate > 0 ==>
              CoordRank(v.coord, v.gate) == CoordRank(u.coord, u.gate)
  {
  }

  /** No planned step that is in time makes more to do, and the helpful thread's steps make less. */
  lemma StepLowers(w: World, u: Worker, a: Action, plan: Plan)
    requires PlanOk(plan) && OnTrack(w, u, plan) && !u.coord.Finished? && AllPcs(u.pcs) && CanTake(w, u, a, plan)
    ensures var x := Do(w, a);
            x.worker.Some? && (x.worker.value.coord.Finished? || Progress(u, x.worker.value, a, plan))
  {
    hide OnTrack, Do, Enabled, Progress, OwnerDo, RoleDo, CoordDo, InTime;
    match a
    case ByOwner(o) => DoOwner(w, u, o); OwnerProgress(w, u, o, plan);
    case ByRole(o) => DoRole(w, u, o); RoleProgress(w, u, o, plan);
    case ByCoordinator(o) =>
      DoCoord(w, u, o);
      if o.Compose? {
        ComposeFinishes(w, u, o, plan);
      } else {
        CoordProgress(w, u, o, plan);
      }
    case ByOthers(step) => DoOthers(w, u, a); OthersProgress(u, a, plan);
    case _ => NotTheirs(w, u, a);
  }

  lemma OthersProgress(u: Worker, a: Action, plan: Plan)
    requires PlanOk(plan) && AllPcs(u.pcs) && a.ByOthers?
    ensures Progress(u, u, a, plan)
  {
    hide Rank, FirstOut;
  }

  // ---- The end of the run ----------------------------------------------------------------------------------

  /** A step of the helpful thread, the run being on track before and after. */
  lemma HelpfulStep(w: World, u: Worker, plan: Plan) returns (a: Action, x: World, v: Worker)
    requires PlanOk(plan) && OnTrack(w, u, plan) && !u.coord.Finished? && AllPcs(u.pcs)
    ensures w.worker == Some(u) && Enabled(w, a) && Planned(w, u, a, plan) && Do(w, a) == x
    ensures x.worker == Some(v) && v.sid == u.sid && OnTrack(x, v, plan)
    ensures v.coord.Finished? || (AllPcs(v.pcs) && Rank(v, plan) < Rank(u, plan))
  {
    hide OnTrack, Rank, Do, Enabled, Planned, InTime, Helpful, Belongs;
    a := HelpfulCan(w, u, plan);
    StepLowers(w, u, a, plan);
    PlannedKeeps(w, u, a, plan);
    x := Do(w, a);
    v := x.worker.value;
  }

  lemma NoSteps(w: World, plan: Plan)
    requires PlanOk(plan)
    ensures PlannedRun(w, [], w, plan)
  {
  }

  /** From every state on track a planned continuation reaches the end. */
  lemma {:induction false} CanFinish(w: World, u: Worker, plan: Plan) returns (actions: seq<Action>, x: World)
    requires PlanOk(plan) && OnTrack(w, u, plan)
    ensures PlannedRun(w, actions, x, plan) && x.worker.Some? && OnTrack(x, x.worker.value, plan)
    ensures x.worker.value.sid == u.sid && x.worker.value.coord.Finished?
    decreases if AllPcs(u.pcs) then Rank(u, plan) else 0
  {
    hide OnTrack, Rank, Do, Enabled, Planned, PlannedRun, AllPcs;
    TrackParts(w, u, plan);
    TrackFacts(w, u, plan);
    if u.coord.Finished? {
      NoSteps(w, plan);
      actions, x := [], w;
    } else {
      var a, next, v := HelpfulStep(w, u, plan);
      TrackFacts(next, v, plan);
      var rest;
      if v.coord.Finished? {
        NoSteps(next, plan);
        rest, x := [], next;
      } else {
        rest, x := CanFinish(next, v, plan);
      }
      actions := [a] + rest;
      OneMorePlanned(w, u, a, rest, x, plan);
    }
  }

  /** What a finished coordinator on track returns. */
  lemma FinishedReport(w: World, u: Worker, plan: Plan)
    requires PlanOk(plan) && OnTrack(w, u, plan) && u.coord.Finished?
    ensures u.sid in w.db.sessions
    ensures u.coord.result
         == Composed(Engine.EraseLastPurpose(EngineReport(u.sid, SnapshotOf(w.db, u.sid), plan.outcomes)))
  {
    hide InReach, Unhindered, WorldOk, TrimSpace, FairRole, Fit, AllApart, EngineReport, SnapshotOf, UnitsStored,
      Engine.EraseLastPurpose;
  }

  /**
   * No planned run gets stuck. However a planned run goes from a worker that has just claimed its session, it can go
   * on to the end, and the report it then composes is the sequential engine's, except for the last call purposes.
   */
  lemma NeverStuck(w: World, sid: string, before: seq<Action>, y: World, plan: Plan)
    returns (rest: seq<Action>, x: World)
    requires PlanOk(plan) && Booted(w, sid) && PlanFits(w.db, sid, plan) && PlannedRun(w, before, y, plan)
    ensures PlannedRun(y, rest, x, plan) && x.worker.Some? && x.worker.value.coord.Finished? && sid in x.db.sessions
    ensures x.worker.value.coord.result
         == Composed(Engine.EraseLastPurpose(EngineReport(sid, SnapshotOf(x.db, sid), plan.outcomes)))
  {
    hide Booted, PlanFits, OnTrack, PlannedRun, NewWorker, EngineReport, Engine.EraseLastPurpose, SnapshotOf;
    BootedOnTrack(w, sid, plan);
    NewWorkerFields(sid);
    TrackParts(w, NewWorker(sid), plan);
    PlannedRunKeeps(w, NewWorker(sid), before, y, plan);
    rest, x := CanFinish(y, y.worker.value, plan);
    FinishedReport(x, x.worker.value, plan);
  }
}
