/** Every interleaving keeps the worker's books, its gate and the bound on provider calls. */
module WorkerSafety {
  import opened Options
  import opened Text
  import opened Domain
  import opened Composer
  import opened Timestamps
  import opened Records
  import opened Database
  import opened DbInvariant
  import opened DbSteps
  import opened DbProgress
  import opened DbRuns
  import opened DbEffects
  import opened Worker
  import Dispatch
  import Timing

  lemma Parts(w: World, u: Worker)
    requires WorldOk(w) && w.worker == Some(u)
    ensures Inv(w.db) && CallsOk(w) && WorkerOk(w, u)
  {
    hide Inv, CallsOk, WorkerOk;
  }

  lemma WorkerParts(w: World, u: Worker)
    requires WorldOk(w) && w.worker == Some(u)
    ensures u.sid in w.db.sessions && AllPcs(u.pcs) && RolesOk(w, u) && CountersOk(u) && !Blank(u.sid)
    ensures !u.coord.Finished? ==> w.db.sessions[u.sid].status.Reviewing?
    ensures GateOpen(u) ==> AllTerminal(RolesOf(w.db, u.sid))
  {
    hide Inv, CallsOk, RolesOk, CountersOk, AllTerminal, Blank, AllPcs;
  }

  // ---- Steps that leave the database alone -----------------------------------------------------

  /** What a worker needs of the world it is in. */
  lemma LocalKeeps(w: World, u: Worker, v: Worker)
    requires WorldOk(w) && w.worker == Some(u) && v.sid == u.sid && AllPcs(v.pcs) && RolesOk(w, v) && CountersOk(v)
    requires GateOpen(v) ==> GateOpen(u) || AllTerminal(RolesOf(w.db, u.sid))
    requires v.coord.Finished? ==> u.coord.Finished?
    requires u.coord.Finished? ==> v.coord.Finished?
    ensures WorldOk(w.(worker := Some(v)))
  {
    hide Inv, RolesOk, CountersOk, AllTerminal, Blank, CallsOk, AllPcs;
    var x := w.(worker := Some(v));
    SameCallsOk(w, x);
    SameRolesOk(w, x, v);
  }

  lemma SameCallsOk(w: World, x: World)
    requires CallsOk(w) && x.db == w.db && x.calls == w.calls
    ensures CallsOk(x)
  {
    hide RankAt;
    assert forall sid, r :: CallsOf(x, sid, r) == CallsOf(w, sid, r);
  }

  lemma SameRolesOk(w: World, x: World, v: Worker)
    requires AllPcs(v.pcs) && RolesOk(w, v) && x.db == w.db && x.calls == w.calls
    ensures RolesOk(x, v)
  {
    hide RoleOk;
    assert forall r :: CallsOf(x, v.sid, r) == CallsOf(w, v.sid, r);
  }

  /** A change of the owner or the coordinator that holds no new role. */
  lemma OwnerRolesOk(w: World, u: Worker, v: Worker)
    requires AllPcs(u.pcs) && RolesOk(w, u) && v.sid == u.sid && v.pcs == u.pcs && v.leaked == u.leaked
    requires u.fatal ==> v.fatal
    requires forall r :: Holding(v, r) == Holding(u, r)
    ensures RolesOk(w, v)
  {
    forall r: Role ensures RoleOk(v, r, RolesOf(w.db, v.sid)[r].status, CallsOf(w, v.sid, r)) {
      assert RoleOk(u, r, RolesOf(w.db, u.sid)[r].status, CallsOf(w, u.sid, r));
      assert Holding(v, r) == Holding(u, r);
    }
  }

  lemma SameCounters(u: Worker, v: Worker)
    requires AllPcs(u.pcs) && CountersOk(u) && v.pcs == u.pcs && v.leaked == u.leaked
    requires forall r :: (v.owner == Counted(r)) == (u.owner == Counted(r))
    requires v.local == u.local && v.active == u.active && v.comps <= u.comps && v.gate <= GATE_CAPACITY
    ensures CountersOk(v)
  {
    assert forall r :: Slot(v, r) == Slot(u, r);
  }

  lemma OwnerMoves(w: World, u: Worker, v: Worker)
    requires WorldOk(w) && w.worker == Some(u) && v.sid == u.sid && v.pcs == u.pcs && v.leaked == u.leaked
    requires (u.fatal ==> v.fatal)
    requires v.owner == u.owner || !(u.owner.Gap? || u.owner.Counted? || v.owner.Gap? || v.owner.Counted?)
    requires v.local == u.local && v.active == u.active && v.comps <= u.comps && v.gate <= GATE_CAPACITY
    requires GateOpen(v) ==> GateOpen(u) || AllTerminal(RolesOf(w.db, u.sid))
    requires v.coord.Finished? <==> u.coord.Finished?
    ensures WorldOk(w.(worker := Some(v)))
  {
    hide WorldOk, RolesOk, CountersOk, AllTerminal, GateOpen;
    WorkerParts(w, u);
    OwnerRolesOk(w, u, v);
    SameCounters(u, v);
    LocalKeeps(w, u, v);
  }

  // ---- The owner loop ------------------------------------------------------------------------------

  lemma DecideMoves(db: Db, u: Worker, readable: bool, at: Instant)
    requires u.sid in db.sessions
    ensures var pc := FastDecision(db, u, readable, at); pc.Halted? || pc.Checked? || pc.Idle?
  {
    hide Dispatch.FastPath, Dispatch.StatusOf;
  }

  /** An owner that neither reserves nor holds a reservation moves to another such state. */
  lemma OwnerPcMoves(w: World, u: Worker, pc: OwnerPc)
    requires WorldOk(w) && w.worker == Some(u) && !u.owner.Gap? && !u.owner.Counted? && !pc.Gap? && !pc.Counted?
    ensures WorldOk(w.(worker := Some(u.(owner := pc))))
  {
    hide WorldOk, CountersOk, RolesOk, AllTerminal, AllPcs, Blank, RolesOf, GateOpen;
    WorkerParts(w, u);
    GateBound(u);
    SameGate(u, u.(owner := pc));
    OwnerMoves(w, u, u.(owner := pc));
  }

  lemma SameGate(u: Worker, v: Worker)
    requires u.coord == v.coord
    ensures GateOpen(u) == GateOpen(v)
  {
  }

  lemma ReceivedMoves(w: World, u: Worker, channel: Channel)
    requires WorldOk(w) && w.worker == Some(u) && u.owner.Idle?
    ensures WorldOk(w.(worker := Some(Received(u, channel))))
  {
    hide WorldOk, CountersOk, RolesOk, AllTerminal, AllPcs, Blank, RolesOf, GateOpen;
    WorkerParts(w, u);
    GateBound(u);
    SameGate(u, Received(u, channel));
    OwnerMoves(w, u, Received(u, channel));
  }

  lemma OwnerMoveKeeps(w: World, u: Worker, a: OwnerAction)
    requires WorldOk(w) && w.worker == Some(u) && u.sid in w.db.sessions && OwnerEnabled(u, a)
    requires a.Check? || a.Capacity? || a.AskFails? || a.Receive? || a.Leave?
    ensures WorldOk(OwnerDo(w, u, a))
  {
    hide WorldOk, FastDecision, Received;
    match a
    case Check(readable, at) =>
      DecideMoves(w.db, u, readable, at);
      OwnerPcMoves(w, u, FastDecision(w.db, u, readable, at));
    case Capacity => OwnerPcMoves(w, u, if u.local >= MAX_IN_FLIGHT then Idle else Reserving);
    case AskFails => OwnerPcMoves(w, u, Broken);
    case Receive(channel) => ReceivedMoves(w, u, channel);
    case Leave => OwnerPcMoves(w, u, Halted);
  }

  lemma GateBound(u: Worker)
    requires AllPcs(u.pcs) && CountersOk(u)
    ensures u.gate <= GATE_CAPACITY
  {
  }

  lemma HeldRole(w: World, u: Worker, r: Role)
    requires AllPcs(u.pcs) && RolesOk(w, u) && Holding(u, r)
    ensures u.pcs[r].Absent? && r !in u.leaked && CallsOf(w, u.sid, r) == 0
  {
    assert RoleOk(u, r, RolesOf(w.db, u.sid)[r].status, CallsOf(w, u.sid, r));
  }

  lemma CountRoles(w: World, u: Worker, r: Role)
    requires AllPcs(u.pcs) && RolesOk(w, u) && u.owner == Gap(r)
    ensures RolesOk(w, u.(owner := Counted(r), local := u.local + 1))
  {
    var v := u.(owner := Counted(r), local := u.local + 1);
    forall q: Role ensures RoleOk(v, q, RolesOf(w.db, v.sid)[q].status, CallsOf(w, v.sid, q)) {
      assert RoleOk(u, q, RolesOf(w.db, u.sid)[q].status, CallsOf(w, u.sid, q));
    }
  }

  lemma OnlySlot(u: Worker, v: Worker, r: Role)
    requires AllPcs(u.pcs) && AllPcs(v.pcs) && forall q: Role :: q != r ==> Slot(v, q) == Slot(u, q)
    ensures Slots(v) + One(Slot(u, r)) == Slots(u) + One(Slot(v, r))
  {
    hide Slot, AllPcs;
    match r
    case Requirements =>
    case Architecture =>
    case QA =>
    case Security =>
  }

  lemma OnlyLive(u: Worker, v: Worker, r: Role)
    requires AllPcs(u.pcs) && AllPcs(v.pcs) && forall q: Role :: q != r ==> Live(v, q) == Live(u, q)
    ensures Lives(v) + One(Live(u, r)) == Lives(u) + One(Live(v, r))
  {
    hide Live, AllPcs;
    match r
    case Requirements =>
    case Architecture =>
    case QA =>
    case Security =>
  }

  lemma OnlyTold(u: Worker, v: Worker, r: Role)
    requires AllPcs(u.pcs) && AllPcs(v.pcs) && forall q: Role :: q != r ==> Told(v, q) == Told(u, q)
    ensures Tolds(v) + One(Told(u, r)) == Tolds(u) + One(Told(v, r))
  {
    hide Told, AllPcs;
    match r
    case Requirements =>
    case Architecture =>
    case QA =>
    case Security =>
  }

  /** Only one role's goroutine or owner state differs: the sums differ by its share. */
  lemma OnlyRole(u: Worker, v: Worker, r: Role)
    requires AllPcs(u.pcs) && AllPcs(v.pcs)
    requires forall q: Role :: q != r ==>
               Slot(v, q) == Slot(u, q) && Live(v, q) == Live(u, q) && Told(v, q) == Told(u, q)
    ensures Slots(v) + One(Slot(u, r)) == Slots(u) + One(Slot(v, r))
    ensures Lives(v) + One(Live(u, r)) == Lives(u) + One(Live(v, r))
    ensures Tolds(v) + One(Told(u, r)) == Tolds(u) + One(Told(v, r))
  {
    hide Slot, Live, Told, Slots, Lives, Tolds, AllPcs;
    OnlySlot(u, v, r);
    OnlyLive(u, v, r);
    OnlyTold(u, v, r);
  }

  lemma CountSlots(u: Worker, r: Role)
    requires AllPcs(u.pcs) && CountersOk(u) && u.owner == Gap(r) && u.pcs[r].Absent? && r !in u.leaked
    ensures CountersOk(u.(owner := Counted(r), local := u.local + 1))
  {
    hide Slots, Lives, Tolds;
    OnlyRole(u, u.(owner := Counted(r), local := u.local + 1), r);
  }

  /** The owner turns a committed reservation into a counted one: one slot more. */
  lemma CountKeeps(w: World, u: Worker)
    requires WorldOk(w) && w.worker == Some(u) && u.sid in w.db.sessions && OwnerEnabled(u, Count)
    ensures WorldOk(OwnerDo(w, u, Count))
  {
    hide WorldOk, RolesOk, CountersOk, AllTerminal, RolesOf, Blank;
    WorkerParts(w, u);
    var r := u.owner.role;
    HeldRole(w, u, r);
    CountRoles(w, u, r);
    CountSlots(u, r);
    LocalKeeps(w, u, u.(owner := Counted(r), local := u.local + 1));
  }

  lemma SpawnRoles(w: World, u: Worker, r: Role)
    requires AllPcs(u.pcs) && RolesOk(w, u) && u.owner == Counted(r)
    ensures RolesOk(w, Spawn(u, r))
  {
    var v := Spawn(u, r);
    HeldRole(w, u, r);
    forall q: Role ensures RoleOk(v, q, RolesOf(w.db, v.sid)[q].status, CallsOf(w, v.sid, q)) {
      assert RoleOk(u, q, RolesOf(w.db, u.sid)[q].status, CallsOf(w, u.sid, q));
    }
  }

  lemma SpawnSlots(u: Worker, r: Role)
    requires AllPcs(u.pcs) && CountersOk(u) && u.owner == Counted(r) && u.pcs[r].Absent? && r !in u.leaked
    ensures CountersOk(Spawn(u, r))
  {
    hide Slots, Lives, Tolds;
    OnlyRole(u, Spawn(u, r), r);
  }

  /** The callback: a goroutine takes over the slot, or after a fatal error nobody does. */
  lemma SpawnKeeps(w: World, u: Worker)
    requires WorldOk(w) && w.worker == Some(u) && u.sid in w.db.sessions && OwnerEnabled(u, Start)
    ensures WorldOk(OwnerDo(w, u, Start))
  {
    hide WorldOk, RolesOk, CountersOk, AllTerminal, RolesOf, Blank;
    WorkerParts(w, u);
    var r := u.owner.role;
    HeldRole(w, u, r);
    SpawnRoles(w, u, r);
    SpawnSlots(u, r);
    LocalKeeps(w, u, Spawn(u, r));
  }

  /** A reservation takes a pending role in flight; until the owner counts it, it is the gap. */
  lemma ReserveOk(w: World, u: Worker, at: Instant)
    requires WorldOk(w) && w.worker == Some(u) && u.sid in w.db.sessions && OwnerEnabled(u, Ask(at))
    ensures WorldOk(OwnerDo(w, u, Ask(at)))
  {
    hide WorldOk, WorkerOk, CallsOk, Inv, StepOk, AllTerminal, ExecutesTo, Reserve, CountersOk, RolesOk, Started, Blank,
      AllPcs;
    var o := Reserve(w.db, "", u.sid, at);
    ReserveEffect(w.db, u.sid, at);
    if o.result.Reserved? {
      ReservedOk(w, u, at);
    } else {
      WorkerParts(w, u);
      OwnerPcMoves(w, u, AfterReserve(o.result));
    }
  }

  lemma ReservedOk(w: World, u: Worker, at: Instant)
    requires WorldOk(w) && w.worker == Some(u) && u.owner.Reserving? && Reserve(w.db, "", u.sid, at).result.Reserved?
    ensures var o := Reserve(w.db, "", u.sid, at);
            WorldOk(w.(db := o.db, worker := Some(u.(owner := Gap(o.result.role)))))
  {
    hide WorldOk, WorkerOk, CallsOk, Inv, StepOk, AllTerminal, Reserve, CountersOk, RolesOk, Started, Blank, AllPcs,
      RolesOf;
    WorkerParts(w, u);
    Parts(w, u);
    GateBound(u);
    var o := Reserve(w.db, "", u.sid, at);
    ReserveEffect(w.db, u.sid, at);
    ReserveKeeps(w.db, "", u.sid, at);
    var v := u.(owner := Gap(o.result.role));
    var x := w.(db := o.db, worker := Some(v));
    StepCallsOk(w, x);
    ReservedRolesOk(w, x, u, o.result.role, at);
    SameCounters(u, v);
    PendingMeansClosed(w, u, o.result.role);
    SameGate(u, v);
    WorldFrom(x, v);
  }

  lemma PendingMeansClosed(w: World, u: Worker, r: Role)
    requires Is(RolesOf(w.db, u.sid), r, Pending) && (GateOpen(u) ==> AllTerminal(RolesOf(w.db, u.sid)))
    ensures !GateOpen(u)
  {
    var rs := RolesOf(w.db, u.sid);
    assert AllTerminal(rs) ==> rs[r].status.IsTerminal();
  }

  lemma WorldFrom(x: World, v: Worker)
    requires Inv(x.db) && CallsOk(x) && x.worker == Some(v) && v.sid in x.db.sessions && AllPcs(v.pcs) && !Blank(v.sid)
    requires (!v.coord.Finished? ==> x.db.sessions[v.sid].status.Reviewing?) && RolesOk(x, v) && CountersOk(v)
    requires GateOpen(v) ==> AllTerminal(RolesOf(x.db, v.sid))
    ensures WorldOk(x)
  {
    hide Inv, CallsOk, RolesOk, CountersOk, AllTerminal, Blank, AllPcs;
  }

  /** Any database step keeps the call bound: no role returns to pending. */
  lemma StepCallsOk(w: World, x: World)
    requires CallsOk(w) && x.calls == w.calls && Inv(w.db) && Inv(x.db) && StepOk(w.db, x.db)
    ensures CallsOk(x)
  {
    hide Inv, StepOk, RankAt;
    forall sid, r ensures CallsOf(x, sid, r) <= MAX_PROVIDER_CALLS_PER_ROLE
                       && (RankAt(RolesOf(x.db, sid), r) == 2 ==> CallsOf(x, sid, r) == 0)
    {
      assert CallsOf(x, sid, r) == CallsOf(w, sid, r);
      RankStep(w.db, x.db, sid, r);
    }
  }

  lemma ReservedRolesOk(w: World, x: World, u: Worker, r: Role, at: Instant)
    requires AllPcs(u.pcs) && RolesOk(w, u) && CallsOk(w) && x.calls == w.calls && u.owner.Reserving?
    requires Is(RolesOf(w.db, u.sid), r, Pending)
    requires RolesOf(x.db, u.sid) == RolesOf(w.db, u.sid)[r := Started(RolesOf(w.db, u.sid)[r], at)]
    ensures RolesOk(x, u.(owner := Gap(r)))
  {
    var v := u.(owner := Gap(r));
    var rs := RolesOf(w.db, u.sid);
    assert RankAt(rs, r) == 2;
    forall q: Role
      ensures q in RolesOf(x.db, v.sid) && RoleOk(v, q, RolesOf(x.db, v.sid)[q].status, CallsOf(x, v.sid, q))
    {
      assert RoleOk(u, q, rs[q].status, CallsOf(w, u.sid, q));
      assert CallsOf(x, u.sid, q) == CallsOf(w, u.sid, q);
    }
  }

  // ---- The role goroutines ---------------------------------------------------------------------------

  predicate OnlyPc(u: Worker, v: Worker, r: Role)
  {
    && v.sid == u.sid && v.owner == u.owner && v.coord == u.coord && v.fatal == u.fatal && v.leaked == u.leaked
    && AllPcs(u.pcs) && AllPcs(v.pcs) && forall q: Role :: q != r ==> v.pcs[q] == u.pcs[q]
  }

  lemma OthersOk(u: Worker, v: Worker, r: Role, q: Role, status: RoleStatus, calls: nat)
    requires OnlyPc(u, v, r) && q != r && RoleOk(u, q, status, calls)
    ensures RoleOk(v, q, status, calls)
  {
  }

  lemma PcRoles(w: World, u: Worker, v: Worker, r: Role)
    requires AllPcs(u.pcs) && RolesOk(w, u) && OnlyPc(u, v, r)
    requires r in RolesOf(w.db, u.sid) && RoleOk(v, r, RolesOf(w.db, u.sid)[r].status, CallsOf(w, u.sid, r))
    ensures RolesOk(w, v)
  {
    SameSid(u, v, r);
    hide RoleOk, RolesOf, CallsOf, OnlyPc;
    forall q: Role
      ensures q in RolesOf(w.db, v.sid) && RoleOk(v, q, RolesOf(w.db, v.sid)[q].status, CallsOf(w, v.sid, q))
    {
      if q != r {
        OthersOk(u, v, r, q, RolesOf(w.db, u.sid)[q].status, CallsOf(w, u.sid, q));
      }
    }
  }

  lemma SameSid(u: Worker, v: Worker, r: Role)
    requires OnlyPc(u, v, r)
    ensures v.sid == u.sid && AllPcs(v.pcs)
  {
  }

  lemma PcCounters(u: Worker, v: Worker, r: Role)
    requires OnlyPc(u, v, r)
    ensures Slots(v) + One(Slot(u, r)) == Slots(u) + One(Slot(v, r))
    ensures Lives(v) + One(Live(u, r)) == Lives(u) + One(Live(v, r))
    ensures Tolds(v) + One(Told(u, r)) == Tolds(u) + One(Told(v, r))
  {
    hide Slots, Lives, Tolds;
    OnlyRole(u, v, r);
  }

  lemma PcKeeps(w: World, u: Worker, v: Worker, r: Role)
    requires WorldOk(w) && w.worker == Some(u) && OnlyPc(u, v, r) && CountersOk(v)
    requires r in RolesOf(w.db, u.sid) && RoleOk(v, r, RolesOf(w.db, u.sid)[r].status, CallsOf(w, u.sid, r))
    ensures WorldOk(w.(worker := Some(v)))
  {
    hide WorldOk, RoleOk, RolesOk, CountersOk, AllTerminal, RolesOf, CallsOf, Blank;
    WorkerParts(w, u);
    PcRoles(w, u, v, r);
    LocalKeeps(w, u, v);
  }

  lemma RoleFacts(w: World, u: Worker, r: Role)
    requires WorldOk(w) && w.worker == Some(u)
    ensures AllPcs(u.pcs) && CountersOk(u) && r in RolesOf(w.db, u.sid)
    ensures RoleOk(u, r, RolesOf(w.db, u.sid)[r].status, CallsOf(w, u.sid, r))
  {
    hide WorldOk, CountersOk, RoleOk, RolesOf, CallsOf, AllTerminal, Blank;
    WorkerParts(w, u);
  }

  /** The decrement never finds the counter at zero, so its floor hides nothing. */
  lemma FloorNeverHit(w: World, u: Worker, r: Role)
    requires WorldOk(w) && w.worker == Some(u) && AllPcs(u.pcs) && u.pcs[r].Published?
    ensures u.local >= 1
  {
    hide WorldOk, RoleOk, RolesOf, CallsOf;
    RoleFacts(w, u, r);
    assert Slot(u, r);
    hide Slot;
    match r
    case Requirements =>
    case Architecture =>
    case QA =>
    case Security =>
  }

  lemma FreeCounters(u: Worker, r: Role)
    requires AllPcs(u.pcs) && CountersOk(u) && u.pcs[r].Published? && r !in u.leaked && u.owner != Counted(r)
    ensures CountersOk(Freed(u, r))
  {
    hide Slots, Lives, Tolds;
    PcCounters(u, Freed(u, r), r);
  }

  lemma SendCounters(u: Worker, r: Role)
    requires AllPcs(u.pcs) && CountersOk(u) && u.pcs[r].Decremented? && r !in u.leaked && u.owner != Counted(r)
    ensures CountersOk(Sent(u, r))
  {
    hide Slots, Lives, Tolds;
    PcCounters(u, Sent(u, r), r);
  }

  lemma WakeCounters(u: Worker, r: Role)
    requires AllPcs(u.pcs) && CountersOk(u) && u.pcs[r].Notified?
    ensures CountersOk(WokenGate(u, r))
  {
    hide Slots, Lives, Tolds;
    PcCounters(u, WokenGate(u, r), r);
  }

  lemma ReleaseCounters(u: Worker, r: Role)
    requires AllPcs(u.pcs) && CountersOk(u) && u.pcs[r].GateWoken?
    ensures CountersOk(Inactive(u, r))
  {
    hide Slots, Lives, Tolds;
    PcCounters(u, Inactive(u, r), r);
  }

  lemma ExitCounters(u: Worker, r: Role)
    requires AllPcs(u.pcs) && CountersOk(u) && u.pcs[r].Released?
    ensures CountersOk(SetPc(u, r, Exited))
  {
    hide Slots, Lives, Tolds;
    PcCounters(u, SetPc(u, r, Exited), r);
  }

  lemma FinishCounters(u: Worker, r: Role, pc: RolePc)
    requires AllPcs(u.pcs) && CountersOk(u) && (u.pcs[r].Running? || u.pcs[r].Decided?)
    requires pc.Running? || pc.Decided? || pc.Cleared?
    ensures CountersOk(SetPc(u, r, pc))
  {
    hide Slots, Lives, Tolds;
    PcCounters(u, SetPc(u, r, pc), r);
  }

  lemma RoleMoveKeeps(w: World, u: Worker, a: RoleAction)
    requires WorldOk(w) && w.worker == Some(u) && AllPcs(u.pcs) && u.sid in w.db.sessions && RoleEnabled(w, u, a)
    requires !a.Provide? && !a.Clear? && !a.PublishAt? && !a.PublishFails?
    ensures WorldOk(RoleDo(w, u, a))
  {
    hide WorldOk, CountersOk, RolesOf, CallsOf, ExecutesTo, SnapshotOf;
    if a.Finish? || a.Free? || a.Send? {
      DoneKeeps(w, u, a);
    } else {
      LeaveKeeps(w, u, a);
    }
  }

  lemma DoneKeeps(w: World, u: Worker, a: RoleAction)
    requires WorldOk(w) && w.worker == Some(u) && AllPcs(u.pcs) && u.sid in w.db.sessions && RoleEnabled(w, u, a)
    requires a.Finish? || a.Free? || a.Send?
    ensures WorldOk(RoleDo(w, u, a))
  {
    hide WorldOk, CountersOk, RolesOf, CallsOf, ExecutesTo, SnapshotOf;
    RoleFacts(w, u, a.r);
    match a
    case Finish(r, out) => FinishCounters(u, r, Decided(out)); PcKeeps(w, u, SetPc(u, r, Decided(out)), r);
    case Free(r) => FreeCounters(u, r); PcKeeps(w, u, Freed(u, r), r);
    case Send(r) => SendCounters(u, r); PcKeeps(w, u, Sent(u, r), r);
  }

  lemma LeaveKeeps(w: World, u: Worker, a: RoleAction)
    requires WorldOk(w) && w.worker == Some(u) && AllPcs(u.pcs) && u.sid in w.db.sessions && RoleEnabled(w, u, a)
    requires a.Wake? || a.Release? || a.Exit?
    ensures WorldOk(RoleDo(w, u, a))
  {
    hide WorldOk, CountersOk, RolesOf, CallsOf, ExecutesTo, SnapshotOf;
    RoleFacts(w, u, a.r);
    match a
    case Wake(r) => WakeCounters(u, r); PcKeeps(w, u, WokenGate(u, r), r);
    case Release(r) => ReleaseCounters(u, r); PcKeeps(w, u, Inactive(u, r), r);
    case Exit(r) => ExitCounters(u, r); PcKeeps(w, u, SetPc(u, r, Exited), r);
  }

  /** A provider call: the goroutine's own count is the world's count, so the third call cannot happen. */
  lemma ProvideKeeps(w: World, u: Worker, r: Role)
    requires WorldOk(w) && w.worker == Some(u) && AllPcs(u.pcs) && u.sid in w.db.sessions
    requires RoleEnabled(w, u, Provide(r))
    ensures WorldOk(RoleDo(w, u, Provide(r)))
  {
    hide WorldOk, CountersOk, RolesOf, AllTerminal, Inv, Blank, ExecutesTo;
    RoleFacts(w, u, r);
    WorkerParts(w, u);
    Parts(w, u);
    var v, x := SetPc(u, r, Running(u.pcs[r].calls + 1)), RoleDo(w, u, Provide(r));
    FinishCounters(u, r, Running(u.pcs[r].calls + 1));
    CalledRolesOk(w, x, u, r);
    CalledCallsOk(w, x, u.sid, r);
    WorldFrom(x, v);
  }

  lemma CalledRolesOk(w: World, x: World, u: Worker, r: Role)
    requires AllPcs(u.pcs) && RolesOk(w, u) && u.pcs[r].Running? && u.pcs[r].calls < MAX_PROVIDER_CALLS_PER_ROLE
    requires x.db == w.db && x.calls == w.calls[(u.sid, r) := CallsOf(w, u.sid, r) + 1]
    ensures RolesOk(x, SetPc(u, r, Running(u.pcs[r].calls + 1)))
  {
    hide RolesOf;
    var v := SetPc(u, r, Running(u.pcs[r].calls + 1));
    assert RoleOk(u, r, RolesOf(w.db, u.sid)[r].status, CallsOf(w, u.sid, r));
    forall q: Role
      ensures q in RolesOf(x.db, v.sid) && RoleOk(v, q, RolesOf(x.db, v.sid)[q].status, CallsOf(x, v.sid, q))
    {
      assert RoleOk(u, q, RolesOf(w.db, u.sid)[q].status, CallsOf(w, u.sid, q));
    }
  }

  lemma CalledCallsOk(w: World, x: World, sid: string, r: Role)
    requires CallsOk(w) && x.db == w.db && x.calls == w.calls[(sid, r) := CallsOf(w, sid, r) + 1]
    requires CallsOf(w, sid, r) < MAX_PROVIDER_CALLS_PER_ROLE && RankAt(RolesOf(w.db, sid), r) != 2
    ensures CallsOk(x)
  {
    hide RankAt, RolesOf;
    forall id, q ensures CallsOf(x, id, q) <= MAX_PROVIDER_CALLS_PER_ROLE
                      && (RankAt(RolesOf(x.db, id), q) == 2 ==> CallsOf(x, id, q) == 0)
    {
      assert CallsOf(w, id, q) <= MAX_PROVIDER_CALLS_PER_ROLE;
    }
  }

  // ---- Publication ----------------------------------------------------------------------------------

  lemma PublicationNames(db: Db, sid: string, r: Role, out: RoleOutcome, message: string)
    requires sid in db.sessions
    ensures var pub := PublicationFor(db, sid, r, out, message);
            && (pub.Success? ==> pub.success.sessionId == sid && pub.success.roleRunId == RoleRunId(sid, r))
            && (pub.Failure? ==> pub.failure.sessionId == sid && pub.failure.roleRunId == RoleRunId(sid, r))
  {
    hide RoleRunId;
  }

  lemma LeakRoles(w: World, u: Worker, r: Role, v: Worker)
    requires AllPcs(u.pcs) && RolesOk(w, u) && (u.pcs[r].Decided? || u.pcs[r].Cleared?)
    requires v == Leak(u, r).(fatal := true, stopped := v.stopped)
    ensures RolesOk(w, v)
  {
    hide RolesOf, CallsOf;
    assert RoleOk(u, r, RolesOf(w.db, u.sid)[r].status, CallsOf(w, u.sid, r));
    forall q: Role
      ensures q in RolesOf(w.db, v.sid) && RoleOk(v, q, RolesOf(w.db, v.sid)[q].status, CallsOf(w, v.sid, q))
    {
      assert RoleOk(u, q, RolesOf(w.db, u.sid)[q].status, CallsOf(w, u.sid, q));
    }
  }

  lemma LeakCounters(u: Worker, r: Role, v: Worker)
    requires AllPcs(u.pcs) && (u.pcs[r].Decided? || u.pcs[r].Cleared?)
    requires v == Leak(u, r).(fatal := v.fatal, stopped := v.stopped)
    requires CountersOk(u)
    ensures CountersOk(v)
  {
    hide Slots, Lives, Tolds;
    OnlyRole(u, v, r);
  }

  lemma LeakKeeps(w: World, u: Worker, r: Role, v: Worker)
    requires WorldOk(w) && w.worker == Some(u) && AllPcs(u.pcs) && (u.pcs[r].Decided? || u.pcs[r].Cleared?)
    requires v == Leak(u, r).(fatal := true, stopped := v.stopped)
    ensures WorldOk(w.(worker := Some(v)))
  {
    hide WorldOk, RolesOk, CountersOk, AllTerminal, RolesOf, Blank;
    WorkerParts(w, u);
    LeakRoles(w, u, r, v);
    LeakCounters(u, r, v);
    LocalKeeps(w, u, v);
  }

  lemma PublishedRoles(w: World, x: World, u: Worker, r: Role)
    requires AllPcs(u.pcs) && RolesOk(w, u) && u.pcs[r].Cleared? && x.calls == w.calls
    requires r in RolesOf(x.db, u.sid) && RolesOf(x.db, u.sid) == RolesOf(w.db, u.sid)[r := RolesOf(x.db, u.sid)[r]]
    requires Done(RolesOf(x.db, u.sid)[r].status) && RolesOf(w.db, u.sid)[r].status.InFlight?
    ensures RolesOk(x, SetPc(u, r, RolePc.Published))
  {
    hide RolesOf;
    var v := SetPc(u, r, RolePc.Published);
    assert RoleOk(u, r, RolesOf(w.db, u.sid)[r].status, CallsOf(w, u.sid, r));
    forall q: Role
      ensures q in RolesOf(x.db, v.sid) && RoleOk(v, q, RolesOf(x.db, v.sid)[q].status, CallsOf(x, v.sid, q))
    {
      assert RoleOk(u, q, RolesOf(w.db, u.sid)[q].status, CallsOf(w, u.sid, q));
      assert CallsOf(x, u.sid, q) == CallsOf(w, u.sid, q);
    }
  }

  lemma PublishedCounters(u: Worker, r: Role)
    requires AllPcs(u.pcs) && CountersOk(u) && u.pcs[r].Cleared?
    ensures CountersOk(SetPc(u, r, RolePc.Published))
  {
    hide Slots, Lives, Tolds;
    PcCounters(u, SetPc(u, r, RolePc.Published), r);
  }

  lemma InFlightMeansClosed(rs: RoleMap, r: Role, open: bool)
    requires r in rs && rs[r].status.InFlight? && (open ==> AllTerminal(rs))
    ensures !open
  {
    assert AllTerminal(rs) ==> rs[r].status.IsTerminal();
  }

  lemma PublishOk(w: World, u: Worker, r: Role, out: RoleOutcome, message: string, at: Instant)
    requires WorldOk(w) && w.worker == Some(u) && AllPcs(u.pcs) && u.sid in w.db.sessions && u.pcs[r] == Cleared(out)
    ensures WorldOk(PublishDo(w, u, r, out, message, at))
  {
    hide WorldOk, RolesOk, CountersOk, AllTerminal, RolesOf, Blank, Inv, CallsOk, StepOk, Publish, PublicationFor,
      RoleRunId, AllPcs, CallsOf, RoleOk;
    WorkerParts(w, u);
    Parts(w, u);
    RoleFacts(w, u, r);
    var pub, when := PublicationFor(w.db, u.sid, r, out, message), Later(at, StartOf(w.db, u.sid, r));
    PublicationNames(w.db, u.sid, r, out, message);
    PublishTouches(w.db, u.sid, r, pub, when);
    PublishKeeps(w.db, pub, when);
    var o := Publish(w.db, pub, when);
    if o.result.Published? {
      var v := SetPc(u, r, RolePc.Published);
      var x := w.(db := o.db, worker := Some(v));
      StepCallsOk(w, x);
      PublishedRoles(w, x, u, r);
      PublishedCounters(u, r);
      InFlightMeansClosed(RolesOf(w.db, u.sid), r, GateOpen(u));
      SamePcs(u, r);
      WorldFrom(x, v);
    } else {
      LeakKeeps(w, u, r, Fatal(u, r));
    }
  }

  /** The test for a fatal error lets the goroutine publish or ends it without a notification. */
  lemma ClearKeeps(w: World, u: Worker, r: Role)
    requires WorldOk(w) && w.worker == Some(u) && AllPcs(u.pcs) && u.sid in w.db.sessions && RoleEnabled(w, u, Clear(r))
    ensures WorldOk(RoleDo(w, u, Clear(r)))
  {
    hide WorldOk, CountersOk, RolesOf, CallsOf, SnapshotOf;
    RoleFacts(w, u, r);
    if u.fatal {
      LeakKeeps(w, u, r, Leak(u, r));
    } else {
      FinishCounters(u, r, Cleared(u.pcs[r].out));
      PcKeeps(w, u, SetPc(u, r, Cleared(u.pcs[r].out)), r);
    }
  }

  lemma SamePcs(u: Worker, r: Role)
    requires AllPcs(u.pcs)
    ensures AllPcs(SetPc(u, r, RolePc.Published).pcs)
  {
  }

  // ---- The coordinator -------------------------------------------------------------------------------

  lemma ReadinessMeans(w: World, u: Worker)
    requires u.sid in w.db.sessions && !w.db.sessions[u.sid].status.IsTerminal()
    ensures Readiness(w.db, u).Waiting? || (Readiness(w.db, u).ReadTerminal? && AllTerminal(RolesOf(w.db, u.sid)))
  {
    hide AllTerminal, AllRoles, RolesOf;
  }

  /** A move of the coordinator, with what it may do to the signals and flags. */
  predicate CoordMove(u: Worker, v: Worker)
  {
    && v == u.(coord := v.coord, gate := v.gate, wake := v.wake, tick := v.tick, alarms := v.alarms,
               stopped := v.stopped, fatal := v.fatal)
    && (u.fatal ==> v.fatal) && (u.gate <= GATE_CAPACITY ==> v.gate <= GATE_CAPACITY)
  }

  lemma CoordMoves(w: World, u: Worker, v: Worker)
    requires WorldOk(w) && w.worker == Some(u) && CoordMove(u, v)
    requires GateOpen(v) ==> GateOpen(u) || AllTerminal(RolesOf(w.db, u.sid))
    requires v.coord.Finished? <==> u.coord.Finished?
    ensures WorldOk(w.(worker := Some(v)))
  {
    hide WorldOk, CountersOk, RolesOk, RolesOf, AllTerminal, Blank, AllPcs, GateOpen;
    WorkerParts(w, u);
    GateBound(u);
    OwnerMoves(w, u, v);
  }

  lemma ReadKeeps(w: World, u: Worker)
    requires WorldOk(w) && w.worker == Some(u) && AllPcs(u.pcs) && u.sid in w.db.sessions && CoordEnabled(w, u, Read)
    ensures WorldOk(CoordDo(w, u, Read))
  {
    hide WorldOk, RolesOf, AllTerminal, Blank, Readiness, AllPcs, RolesOk, CountersOk;
    WorkerParts(w, u);
    ReadinessMeans(w, u);
    if u.fatal {
      CoordMoves(w, u, u.(coord := Aborted, stopped := true));
    } else if w.db.sessions[u.sid].cancelRequested {
      CoordMoves(w, u, u.(coord := Sweeping(Readiness(w.db, u).ReadTerminal?)));
    } else {
      CoordMoves(w, u, u.(coord := Readiness(w.db, u)));
    }
  }

  lemma RereadKeeps(w: World, u: Worker)
    requires WorldOk(w) && w.worker == Some(u) && AllPcs(u.pcs) && u.sid in w.db.sessions
    requires CoordEnabled(w, u, Reread)
    ensures WorldOk(CoordDo(w, u, Reread))
  {
    hide WorldOk, RolesOf, AllTerminal, Blank, Readiness, AllPcs, RolesOk, CountersOk;
    WorkerParts(w, u);
    ReadinessMeans(w, u);
    CoordMoves(w, u, u.(coord := Readiness(w.db, u)));
  }

  /** The signals: a wake taken, a tick, a timer that fires. */
  lemma SignalKeeps(w: World, u: Worker, a: CoordAction)
    requires WorldOk(w) && w.worker == Some(u) && AllPcs(u.pcs) && u.sid in w.db.sessions && CoordEnabled(w, u, a)
    requires a.Take? || a.Ticker? || a.Alarm?
    ensures WorldOk(CoordDo(w, u, a))
  {
    hide WorldOk, RolesOf, AllTerminal, AllPcs;
    match a
    case Take => CoordMoves(w, u, u.(coord := Reading, gate := u.gate - 1));
    case Ticker => CoordMoves(w, u, WakeGate(u.(tick := u.tick || !u.stopped)));
    case Alarm => CoordMoves(w, u, WakeGate(u.(wake := u.wake || !u.stopped, alarms := u.alarms - 1)));
  }

  lemma CoordMoveKeeps(w: World, u: Worker, a: CoordAction)
    requires WorldOk(w) && w.worker == Some(u) && AllPcs(u.pcs) && u.sid in w.db.sessions && CoordEnabled(w, u, a)
    requires !a.Sweep? && !a.Compose? && !a.Read? && !a.Reread? && !a.Take? && !a.Ticker? && !a.Alarm?
    ensures WorldOk(CoordDo(w, u, a))
  {
    hide WorldOk, RolesOf, AllTerminal, AllPcs;
    match a
    case SweepFails => CoordMoves(w, u, u.(coord := Rereading(u.coord.ready)));
    case KeepReading => CoordMoves(w, u, u.(coord := FirstReading(u.coord.ready)));
    case CheckActive => CoordMoves(w, u, u.(coord := if u.active == 0 then Stopping else Waiting));
    case StopDispatch => CoordMoves(w, u, u.(coord := Joining, stopped := true));
    case Join => CoordMoves(w, u, u.(coord := Composing));
    case Fault => CoordMoves(w, u, u.(coord := Aborted, stopped := true, fatal := true));
    case Abort => CoordMoves(w, u, u.(coord := Aborted, stopped := true));
  }

  /** Interrupting pending roles disturbs no goroutine, and leaves terminal roles as they are. */
  lemma InterruptRoles(w: World, x: World, u: Worker)
    requires AllPcs(u.pcs) && RolesOk(w, u) && x.calls == w.calls
    requires OnlyInterrupts(RolesOf(w.db, u.sid), RolesOf(x.db, u.sid))
    ensures RolesOk(x, u)
    ensures AllTerminal(RolesOf(w.db, u.sid)) ==> AllTerminal(RolesOf(x.db, u.sid))
  {
    hide RolesOf;
    var rs, next := RolesOf(w.db, u.sid), RolesOf(x.db, u.sid);
    forall q: Role ensures q in next && RoleOk(u, q, next[q].status, CallsOf(x, u.sid, q)) {
      assert RoleOk(u, q, rs[q].status, CallsOf(w, u.sid, q));
      assert CallsOf(x, u.sid, q) == CallsOf(w, u.sid, q);
      assert q in next && (next[q] == rs[q] || (rs[q].status.Pending? && next[q].status.Interrupted?));
    }
  }

  lemma DbStepKeeps(w: World, x: World, u: Worker, v: Worker)
    requires WorldOk(w) && w.worker == Some(u) && x.worker == Some(v) && x.calls == w.calls
    requires Inv(x.db) && StepOk(w.db, x.db) && OnlyInterrupts(RolesOf(w.db, u.sid), RolesOf(x.db, u.sid))
    requires v == u.(coord := v.coord) && (GateOpen(v) ==> GateOpen(u))
    requires u.sid in x.db.sessions && (!v.coord.Finished? ==> x.db.sessions[u.sid].status.Reviewing?)
    ensures WorldOk(x)
  {
    hide WorldOk, CountersOk, RolesOk, RolesOf, AllTerminal, Blank, AllPcs, Inv, StepOk, OnlyInterrupts, CallsOk;
    WorkerParts(w, u);
    Parts(w, u);
    GateBound(u);
    StepCallsOk(w, x);
    InterruptRoles(w, x, u);
    OwnerRolesOk(x, u, v);
    SameCounters(u, v);
    WorldFrom(x, v);
  }

  lemma SweepOk(w: World, u: Worker, at: Instant)
    requires WorldOk(w) && w.worker == Some(u) && AllPcs(u.pcs) && u.sid in w.db.sessions
    requires CoordEnabled(w, u, Sweep(at))
    ensures WorldOk(CoordDo(w, u, Sweep(at)))
  {
    hide WorldOk, CountersOk, RolesOk, RolesOf, AllTerminal, Blank, AllPcs, Inv, StepOk, SweepCancellation,
      OnlyInterrupts;
    Parts(w, u);
    WorkerParts(w, u);
    SweepCancellationKeeps(w.db, "", u.sid, at);
    SweepEffect(w.db, "", u.sid, at, u.sid);
    SweepSessions(w.db, "", u.sid, at);
    DbStepKeeps(w, CoordDo(w, u, Sweep(at)), u, u.(coord := Rereading(u.coord.ready)));
  }

  lemma ComposeEffect(db: Db, sid: string, rows: seq<string>, at: Instant)
    requires sid in db.sessions && forall k :: k in rows ==> k in db.findings
    ensures var o := ComposeSession(db, "", sid, rows, at);
            && (!o.result.Composed? ==> o.db == db) && o.db.roles == db.roles && sid in o.db.sessions
  {
    hide TrimSpace, Composer.Decide, Composable, CountOf, ReportWith, ReadReport, RowsOf;
  }

  lemma ComposeOk(w: World, u: Worker, at: Instant, rows: seq<string>)
    requires WorldOk(w) && w.worker == Some(u) && AllPcs(u.pcs) && u.sid in w.db.sessions
    requires CoordEnabled(w, u, CoordAction.Compose(at, rows))
    ensures WorldOk(CoordDo(w, u, CoordAction.Compose(at, rows)))
  {
    hide WorldOk, CountersOk, RolesOk, AllTerminal, Blank, AllPcs, Inv, StepOk, ComposeSession, OnlyInterrupts,
      ResultSet;
    Parts(w, u);
    WorkerParts(w, u);
    ComposeKeepsAll(w.db, "", u.sid, rows, at);
    ComposeEffect(w.db, u.sid, rows, at);
    var o := ComposeSession(w.db, "", u.sid, rows, at);
    SameInterrupts(RolesOf(w.db, u.sid));
    DbStepKeeps(w, CoordDo(w, u, CoordAction.Compose(at, rows)), u, u.(coord := AfterCompose(o.result)));
  }

  // ---- Everyone else ------------------------------------------------------------------------------------

  lemma OthersKeep(w: World, u: Worker, step: Step)
    requires WorldOk(w) && w.worker == Some(u) && u.sid in w.db.sessions && IsForeign(step, u.sid)
    ensures WorldOk(w.(db := Apply(w.db, step)))
  {
    hide WorldOk, CountersOk, RolesOk, AllTerminal, Blank, AllPcs, Inv, StepOk, Apply, OnlyInterrupts, TrimSpace,
      RolesOf;
    Parts(w, u);
    WorkerParts(w, u);
    ApplyKeeps(w.db, step);
    ForeignEffect(w.db, step, u.sid);
    StepSession(w.db, Apply(w.db, step), u.sid);
    if w.db.sessions[u.sid].status.Reviewing? {
      ReviewingStep(w.db, step, u.sid);
    }
    DbStepKeeps(w, w.(db := Apply(w.db, step)), u, u);
  }

  lemma DownKeeps(w: World, x: World)
    requires WorldOk(w) && x.calls == w.calls && x.worker == None && Inv(x.db) && StepOk(w.db, x.db)
    ensures WorldOk(x)
  {
    hide Inv, StepOk, CallsOk, WorkerOk;
    StepCallsOk(w, x);
  }

  lemma ClaimedFresh(db: Db, policy: Timing.TimingPolicy, at: Instant)
    requires Inv(db) && Claim(db, policy, at).result.Claimed?
    ensures var o := Claim(db, policy, at);
            var sid := o.result.id;
            && sid in o.db.sessions && o.db.sessions[sid].status.Reviewing? && !Blank(sid)
            && AllRoles(RolesOf(o.db, sid)) && CountOf(RolesOf(o.db, sid), Pending) == |ROLES|
  {
    hide Inv, Blank, CountOf, AllRoles, IsHead, AnyReviewing;
  }

  lemma FreshWorkerOk(w: World, sid: string)
    requires w.worker == Some(NewWorker(sid)) && AllRoles(RolesOf(w.db, sid))
    requires CountOf(RolesOf(w.db, sid), Pending) == |ROLES|
    ensures AllPcs(NewWorker(sid).pcs) && RolesOk(w, NewWorker(sid)) && CountersOk(NewWorker(sid))
  {
    var u, rs := NewWorker(sid), RolesOf(w.db, sid);
    forall r: Role ensures r in u.pcs {
      RolesAreAll(r);
    }
    forall r: Role ensures r in rs && rs[r].status.Pending? && u.pcs[r].Absent? {
      match r
      case Requirements =>
      case Architecture =>
      case QA =>
      case Security =>
    }
  }

  lemma BootKeeps(w: World, policy: Timing.TimingPolicy, at: Instant)
    requires WorldOk(w) && w.worker == None && Claim(w.db, policy, at).result.Claimed?
    ensures WorldOk(Do(w, Boot(policy, at)))
  {
    hide WorkerOk, CountersOk, RolesOk, AllTerminal, Blank, AllPcs, Inv, StepOk, Claim, CallsOk, NewWorker;
    var x := Do(w, Boot(policy, at));
    var sid := Claim(w.db, policy, at).result.id;
    ClaimKeepsAll(w.db, policy, at);
    StepCallsOk(w, x);
    ClaimedFresh(w.db, policy, at);
    FreshWorkerOk(x, sid);
    NewWorkerFields(sid);
    WorldFrom(x, NewWorker(sid));
  }

  lemma NewWorkerFields(sid: string)
    ensures NewWorker(sid).sid == sid && NewWorker(sid).coord.Reading?
  {
  }

  /** Every action of every process, of the environment, and every crash keeps the world in order. */
  lemma ActionKeeps(w: World, a: Action)
    requires WorldOk(w) && Enabled(w, a)
    ensures WorldOk(Do(w, a))
  {
    hide WorldOk, OwnerDo, RoleDo, CoordDo, Apply, Claim, Inv, AllPcs, IsForeign, RoleEnabled, OwnerEnabled,
      CoordEnabled;
    match w.worker
    case None =>
      if a.Down? {
        DownParts(w);
        ApplyKeeps(w.db, a.step);
        DownKeeps(w, Do(w, a));
      } else {
        BootKeeps(w, a.policy, a.at);
      }
    case Some(u) =>
      match a
      case ByOwner(o) => OwnerKeeps(w, u, o);
      case ByRole(o) => RoleKeeps(w, u, o);
      case ByCoordinator(o) => CoordKeeps(w, u, o);
      case ByOthers(step) => OthersKeep(w, u, step);
      case Crash => CrashKeeps(w);
  }

  lemma DownParts(w: World)
    requires WorldOk(w)
    ensures Inv(w.db)
  {
    hide Inv, CallsOk, WorkerOk;
  }

  lemma CrashKeeps(w: World)
    requires WorldOk(w)
    ensures WorldOk(w.(worker := None))
  {
    hide Inv, WorkerOk, RankAt, RolesOf;
    assert forall sid, r :: CallsOf(w.(worker := None), sid, r) == CallsOf(w, sid, r);
  }

  lemma OwnerKeeps(w: World, u: Worker, a: OwnerAction)
    requires WorldOk(w) && w.worker == Some(u) && u.sid in w.db.sessions && OwnerEnabled(u, a)
    ensures WorldOk(OwnerDo(w, u, a))
  {
    hide WorldOk, OwnerDo, OwnerEnabled;
    match a
    case Ask(at) => ReserveOk(w, u, at);
    case Count => CountKeeps(w, u);
    case Start => SpawnKeeps(w, u);
    case _ => OwnerMoveKeeps(w, u, a);
  }

  lemma RoleKeeps(w: World, u: Worker, a: RoleAction)
    requires WorldOk(w) && w.worker == Some(u) && AllPcs(u.pcs) && u.sid in w.db.sessions && RoleEnabled(w, u, a)
    ensures WorldOk(RoleDo(w, u, a))
  {
    hide WorldOk, ExecutesTo, PublishDo;
    match a
    case Provide(r) => ProvideKeeps(w, u, r);
    case Clear(r) => ClearKeeps(w, u, r);
    case PublishAt(r, message, at) => PublishOk(w, u, r, u.pcs[r].out, message, at);
    case PublishFails(r) => LeakKeeps(w, u, r, Fatal(u, r));
    case _ => RoleMoveKeeps(w, u, a);
  }

  lemma CoordKeeps(w: World, u: Worker, a: CoordAction)
    requires WorldOk(w) && w.worker == Some(u) && AllPcs(u.pcs) && u.sid in w.db.sessions && CoordEnabled(w, u, a)
    ensures WorldOk(CoordDo(w, u, a))
  {
    hide WorldOk, CoordDo;
    match a
    case Sweep(at) => SweepOk(w, u, at);
    case Compose(at, rows) => ComposeOk(w, u, at, rows);
    case Read => ReadKeeps(w, u);
    case Reread => RereadKeeps(w, u);
    case Take => SignalKeeps(w, u, a);
    case Ticker => SignalKeeps(w, u, a);
    case Alarm => SignalKeeps(w, u, a);
    case _ => CoordMoveKeeps(w, u, a);
  }
}
