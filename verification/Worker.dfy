/**
 * internal/worker/supervise.go: the dispatcher's owner loop, one goroutine per reserved role and the
 * coordinator, as program counters over the database, in every interleaving and across crashes.
 */
module Worker {
  import opened Options
  import opened Text
  import opened Domain
  import opened Evidence
  import opened Composer
  import opened Timestamps
  import opened Records
  import opened Database
  import opened DbInvariant
  import opened DbRuns
  import opened DbEffects
  import opened RoleRunner
  import Dispatch
  import Timing

  // ---- States -------------------------------------------------------------------------------

  /**
   * A role goroutine, from the reservation callback to its deferred calls in the order they run. Once cleared it
   * has found no fatal error and publishes, whatever happens in the meantime.
   */
  datatype RolePc = Absent | Running(calls: nat) | Decided(out: RoleOutcome) | Cleared(out: RoleOutcome) | Published
                  | Decremented | Notified | GateWoken | Released | Exited

  /** The owner loop: deciding, inside Step on either side of the reservation, at its select, or returned. */
  datatype OwnerPc = Deciding | Checked | Reserving | Gap(role: Role) | Counted(role: Role) | Idle | Halted | Broken

  /** The coordinator: at its select, inside checkAndCompose, or returned. ready is what the first read said. */
  datatype CoordPc = Waiting | Reading | Sweeping(ready: bool) | Rereading(ready: bool) | ReadTerminal | Stopping
                   | Joining | Composing | Finished(result: ComposeResult) | Aborted

  /**
   * leaked holds the roles whose reservation is never followed by a notification, after a fatal error; alarms counts
   * the cutoff and hard deadline timers that have not fired.
   */
  datatype Worker = Worker(sid: string, owner: OwnerPc, local: nat, wake: bool, tick: bool, comps: nat, stopped: bool,
                           fatal: bool, pcs: map<Role, RolePc>, leaked: set<Role>, active: nat, gate: nat,
                           alarms: nat, coord: CoordPc)

  /** calls counts the provider calls made for each role of each session since the world began. */
  datatype World = World(db: Db, calls: map<(string, Role), nat>, worker: Option<Worker>)

  const GATE_CAPACITY := 16

  const ALL_ABSENT: map<Role, RolePc> := map[Requirements := Absent, Architecture := Absent, QA := Absent,
                                             Security := Absent]

  predicate AllPcs(pcs: map<Role, RolePc>)
  {
    forall r: Role :: r in pcs
  }

  function CallsOf(w: World, sid: string, r: Role): nat
  {
    if (sid, r) in w.calls then w.calls[(sid, r)] else 0
  }

  function NewWorker(sid: string): Worker
  {
    Worker(sid, Deciding, 0, false, false, 0, false, false, ALL_ABSENT, {}, 0, 0, 2, Reading)
  }

  // ---- Actions -------------------------------------------------------------------------------

  datatype Channel = Completion | WakeSignal | TickSignal | Timer

  /** AskFails is a reservation that ends in a store error, its retries used up. */
  datatype OwnerAction = Check(readable: bool, at: Instant) | Capacity | Ask(at: Instant) | AskFails | Count | Start
                       | Receive(channel: Channel) | Leave

  /** Clear is the test for a fatal error; PublishFails is a publication that ends in a store error. */
  datatype RoleAction = Provide(r: Role) | Finish(r: Role, out: RoleOutcome) | Clear(r: Role)
                      | PublishAt(r: Role, message: string, at: Instant) | PublishFails(r: Role)
                      | Free(r: Role) | Send(r: Role) | Wake(r: Role) | Release(r: Role) | Exit(r: Role)

  /**
   * KeepReading goes on from the first read, for want of a sweeper or of a second read. Alarm is what the cutoff and
   * hard deadline timers do besides their sweeps. Fault is the dispatcher's error reaching the coordinator; Abort is
   * a cancelled context or a read or a composition that fails.
   */
  datatype CoordAction = Take | Read | Sweep(at: Instant) | SweepFails | Reread | KeepReading | CheckActive
                       | StopDispatch | Join | Compose(at: Instant, rows: seq<string>) | Ticker | Alarm
                       | Fault | Abort

  datatype Action = ByOwner(owner: OwnerAction) | ByRole(role: RoleAction) | ByCoordinator(coord: CoordAction)
                  | ByOthers(step: Step) | Crash | Down(step: Step) | Boot(policy: Timing.TimingPolicy, at: Instant)

  /** The outcome Execute can return for a role after that many calls. */
  ghost predicate ExecutesTo(snap: Snapshot, calls: nat, out: RoleOutcome)
  {
    || (calls == 0 && out == RoleOutcome(out.role, RoleFailed, [], TIMEOUT, None, 0, None))
    || exists env, t, prompt, maxTokens, made ::
         |made| == calls && Accounts(env, t, snap, prompt, maxTokens, out, made)
  }

  function SnapshotOf(db: Db, sid: string): Snapshot
    requires sid in db.sessions
  {
    Frozen(db.sessions[sid].snapshotId, UnitsStored(db, db.sessions[sid].snapshotId))
  }

  predicate Gone(pc: RolePc)
  {
    pc.Absent? || pc.Exited?
  }

  predicate OwnerEnabled(u: Worker, a: OwnerAction)
  {
    match a
    case Check(_, _) => u.owner.Deciding?
    case Capacity => u.owner.Checked?
    case Ask(_) => u.owner.Reserving?
    case AskFails => u.owner.Reserving?
    case Count => u.owner.Gap?
    case Start => u.owner.Counted?
    case Receive(channel) =>
      u.owner.Idle? && (match channel
                        case Completion => u.comps > 0
                        case WakeSignal => u.wake
                        case TickSignal => u.tick
                        case Timer => true)
    case Leave => u.owner.Idle? && u.stopped
  }

  ghost predicate RoleEnabled(w: World, u: Worker, a: RoleAction)
    requires AllPcs(u.pcs) && u.sid in w.db.sessions
  {
    match a
    case Provide(r) => u.pcs[r].Running? && u.pcs[r].calls < MAX_PROVIDER_CALLS_PER_ROLE
    case Finish(r, out) => u.pcs[r].Running? && out.role == r
      && ExecutesTo(SnapshotOf(w.db, u.sid), u.pcs[r].calls, out)
    case Clear(r) => u.pcs[r].Decided?
    case PublishAt(r, _, _) => u.pcs[r].Cleared?
    case PublishFails(r) => u.pcs[r].Cleared?
    case Free(r) => u.pcs[r].Published?
    case Send(r) => u.pcs[r].Decremented?
    case Wake(r) => u.pcs[r].Notified?
    case Release(r) => u.pcs[r].GateWoken?
    case Exit(r) => u.pcs[r].Released?
  }

  /** The rows of a composition are the findings query's, in whatever order they come. */
  ghost predicate CoordEnabled(w: World, u: Worker, a: CoordAction)
    requires AllPcs(u.pcs)
  {
    match a
    case Take => u.coord.Waiting? && u.gate > 0
    case Read => u.coord.Reading?
    case Sweep(_) => u.coord.Sweeping?
    case SweepFails => u.coord.Sweeping?
    case Reread => u.coord.Rereading?
    case KeepReading => u.coord.Sweeping? || u.coord.Rereading?
    case CheckActive => u.coord.ReadTerminal?
    case StopDispatch => u.coord.Stopping?
    case Join => u.coord.Joining? && forall r: Role :: Gone(u.pcs[r])
    case Compose(_, rows) =>
      u.coord.Composing? && ResultSet(w.db, TrimSpace(u.sid), rows) && forall k :: k in rows ==> k in w.db.findings
    case Ticker => u.coord.Waiting?
    case Alarm => u.coord.Waiting? && u.alarms > 0
    case Fault => u.coord.Waiting? && u.owner.Broken?
    case Abort => u.coord.Waiting? || u.coord.Reading? || u.coord.Composing?
  }

  ghost predicate Enabled(w: World, a: Action)
  {
    match w.worker
    case None =>
      a.Down? || (a.Boot? && Claim(w.db, a.policy, a.at).result.Claimed?)
    case Some(u) =>
      && AllPcs(u.pcs) && u.sid in w.db.sessions
      && (match a
          case ByOwner(o) => OwnerEnabled(u, o)
          case ByRole(o) => RoleEnabled(w, u, o)
          case ByCoordinator(o) => CoordEnabled(w, u, o)
          case ByOthers(step) => IsForeign(step, u.sid)
          case Crash => true
          case _ => false)
  }

  // ---- Effects ---------------------------------------------------------------------------------

  /** dispatch.go:278-332: the fast path after a successful status read. */
  function FastDecision(db: Db, u: Worker, readable: bool, at: Instant): OwnerPc
    requires u.sid in db.sessions
  {
    if u.stopped then Halted
    else if !readable then Checked
    else
      var fast := Dispatch.FastPath(Some(Dispatch.StatusOf(db, u.sid)), 0, at);
      if fast.Some? then Idle else Checked
  }

  function AfterReserve(result: ReserveResult): OwnerPc
  {
    match result
    case Reserved(r, _) => Gap(r)
    case ReserveNotFound => Broken
    case ReserveMalformed => Broken
    case _ => Idle
  }

  function Spawn(u: Worker, r: Role): Worker
  {
    if u.fatal then u.(owner := Deciding, leaked := u.leaked + {r})
    else u.(owner := Deciding, pcs := u.pcs[r := Running(0)], active := u.active + 1)
  }

  function Received(u: Worker, channel: Channel): Worker
  {
    match channel
    case Completion => u.(owner := Deciding, comps := if u.comps > 0 then u.comps - 1 else 0)
    case WakeSignal => u.(owner := Deciding, wake := false)
    case TickSignal => u.(owner := Deciding, tick := false)
    case Timer => u.(owner := Deciding)
  }

  function SetPc(u: Worker, r: Role, pc: RolePc): Worker
  {
    u.(pcs := u.pcs[r := pc])
  }

  /** A fatal error ends the role without a notification; so does one seen before publishing. */
  function Leak(u: Worker, r: Role): Worker
  {
    u.(pcs := u.pcs[r := Notified], leaked := u.leaked + {r})
  }

  /** A publication that fails, for whatever reason. */
  function Fatal(u: Worker, r: Role): Worker
  {
    Leak(u, r).(fatal := true, stopped := true)
  }

  function StartOf(db: Db, sid: string, r: Role): Option<Instant>
  {
    if r in RolesOf(db, sid) then RolesOf(db, sid)[r].startedAt else None
  }

  function PublicationFor(db: Db, sid: string, r: Role, out: RoleOutcome, message: string): Publication
    requires sid in db.sessions
  {
    PublicationOf(out, message, db.sessions[sid].projectId, sid, RoleRunId(sid, r))
  }

  function PublishDo(w: World, u: Worker, r: Role, out: RoleOutcome, message: string, at: Instant): World
    requires u.sid in w.db.sessions
  {
    var o := Publish(w.db, PublicationFor(w.db, u.sid, r, out, message), Later(at, StartOf(w.db, u.sid, r)));
    if o.result.Published? then w.(db := o.db, worker := Some(SetPc(u, r, RolePc.Published)))
    else w.(worker := Some(Fatal(u, r)))
  }

  function Readiness(db: Db, u: Worker): CoordPc
    requires u.sid in db.sessions
  {
    var rs := RolesOf(db, u.sid);
    if db.sessions[u.sid].status.IsTerminal() || (AllRoles(rs) && AllTerminal(rs)) then ReadTerminal else Waiting
  }

  function FirstReading(ready: bool): CoordPc
  {
    if ready then ReadTerminal else Waiting
  }

  function WakeGate(u: Worker): Worker
  {
    u.(gate := if u.gate < GATE_CAPACITY then u.gate + 1 else u.gate)
  }

  function OwnerDo(w: World, u: Worker, a: OwnerAction): World
    requires u.sid in w.db.sessions && OwnerEnabled(u, a)
  {
    match a
    case Check(readable, at) => w.(worker := Some(u.(owner := FastDecision(w.db, u, readable, at))))
    case Capacity => w.(worker := Some(u.(owner := if u.local >= MAX_IN_FLIGHT then Idle else Reserving)))
    case Ask(at) =>
      var o := Reserve(w.db, "", u.sid, at);
      w.(db := o.db, worker := Some(u.(owner := AfterReserve(o.result))))
    case AskFails => w.(worker := Some(u.(owner := Broken)))
    case Count => w.(worker := Some(u.(owner := Counted(u.owner.role), local := u.local + 1)))
    case Start => w.(worker := Some(Spawn(u, u.owner.role)))
    case Receive(channel) => w.(worker := Some(Received(u, channel)))
    case Leave => w.(worker := Some(u.(owner := Halted)))
  }

  function Freed(u: Worker, r: Role): Worker
  {
    SetPc(u, r, Decremented).(local := if u.local > 0 then u.local - 1 else 0)
  }

  function Sent(u: Worker, r: Role): Worker
  {
    SetPc(u, r, Notified).(
      comps := if !u.stopped && u.comps < Dispatch.COMPLETION_CAPACITY then u.comps + 1 else u.comps)
  }

  function WokenGate(u: Worker, r: Role): Worker
  {
    WakeGate(SetPc(u, r, GateWoken))
  }

  function Inactive(u: Worker, r: Role): Worker
  {
    SetPc(u, r, Released).(active := if u.active > 0 then u.active - 1 else 0)
  }

  ghost function RoleDo(w: World, u: Worker, a: RoleAction): World
    requires AllPcs(u.pcs) && u.sid in w.db.sessions && RoleEnabled(w, u, a)
  {
    match a
    case Provide(r) =>
      w.(calls := w.calls[(u.sid, r) := CallsOf(w, u.sid, r) + 1],
         worker := Some(SetPc(u, r, Running(u.pcs[r].calls + 1))))
    case Finish(r, out) => w.(worker := Some(SetPc(u, r, Decided(out))))
    case Clear(r) => w.(worker := Some(if u.fatal then Leak(u, r) else SetPc(u, r, Cleared(u.pcs[r].out))))
    case PublishFails(r) => w.(worker := Some(Fatal(u, r)))
    case PublishAt(r, message, at) => PublishDo(w, u, r, u.pcs[r].out, message, at)
    case Free(r) => w.(worker := Some(Freed(u, r)))
    case Send(r) => w.(worker := Some(Sent(u, r)))
    case Wake(r) => w.(worker := Some(WokenGate(u, r)))
    case Release(r) => w.(worker := Some(Inactive(u, r)))
    case Exit(r) => w.(worker := Some(SetPc(u, r, Exited)))
  }

  function AfterCompose(result: ComposeResult): CoordPc
  {
    if result.NotReady? || result.ComposeNotReviewing? then Waiting
    else if result.Composed? then Finished(result)
    else Aborted
  }

  ghost function CoordDo(w: World, u: Worker, a: CoordAction): World
    requires AllPcs(u.pcs) && u.sid in w.db.sessions && CoordEnabled(w, u, a)
  {
    match a
    case Take => w.(worker := Some(u.(coord := Reading, gate := u.gate - 1)))
    case Read =>
      w.(worker := Some(if u.fatal then u.(coord := Aborted, stopped := true)
                        else if w.db.sessions[u.sid].cancelRequested
                          then u.(coord := Sweeping(Readiness(w.db, u).ReadTerminal?))
                        else u.(coord := Readiness(w.db, u))))
    case Sweep(at) => w.(db := SweepCancellation(w.db, "", u.sid, at).db,
                         worker := Some(u.(coord := Rereading(u.coord.ready))))
    case SweepFails => w.(worker := Some(u.(coord := Rereading(u.coord.ready))))
    case KeepReading => w.(worker := Some(u.(coord := FirstReading(u.coord.ready))))
    case Reread => w.(worker := Some(u.(coord := Readiness(w.db, u))))
    case CheckActive => w.(worker := Some(u.(coord := if u.active == 0 then Stopping else Waiting)))
    case StopDispatch => w.(worker := Some(u.(coord := Joining, stopped := true)))
    case Join => w.(worker := Some(u.(coord := Composing)))
    case Compose(at, rows) =>
      var o := ComposeSession(w.db, "", u.sid, rows, at);
      w.(db := o.db, worker := Some(u.(coord := AfterCompose(o.result))))
    case Ticker => w.(worker := Some(WakeGate(u.(tick := u.tick || !u.stopped))))
    case Alarm => w.(worker := Some(WakeGate(u.(wake := u.wake || !u.stopped, alarms := u.alarms - 1))))
    case Fault => w.(worker := Some(u.(coord := Aborted, stopped := true, fatal := true)))
    case Abort => w.(worker := Some(u.(coord := Aborted, stopped := true)))
  }

  ghost function Do(w: World, a: Action): World
    requires Enabled(w, a)
  {
    match w.worker
    case None =>
      (match a
       case Down(step) => w.(db := Apply(w.db, step))
       case Boot(policy, at) => w.(db := Claim(w.db, policy, at).db,
                                   worker := Some(NewWorker(Claim(w.db, policy, at).result.id)))
       case _ => w)
    case Some(u) =>
      (match a
       case ByOwner(o) => OwnerDo(w, u, o)
       case ByRole(o) => RoleDo(w, u, o)
       case ByCoordinator(o) => CoordDo(w, u, o)
       case ByOthers(step) => w.(db := Apply(w.db, step))
       case Crash => w.(worker := None)
       case _ => w)
  }

  // ---- The invariant ---------------------------------------------------------------------------

  /** Provider calls: never more than two for a role, and none before it first goes in flight. */
  ghost predicate CallsOk(w: World)
  {
    forall sid, r :: CallsOf(w, sid, r) <= MAX_PROVIDER_CALLS_PER_ROLE
                     && (RankAt(RolesOf(w.db, sid), r) == 2 ==> CallsOf(w, sid, r) == 0)
  }

  predicate Holding(u: Worker, r: Role)
  {
    u.owner == Gap(r) || u.owner == Counted(r)
  }

  predicate Done(status: RoleStatus)
  {
    status.RoleComplete? || status.RoleFailed?
  }

  /** What the database holds for a role, given where its goroutine and the owner are. */
  predicate RoleOk(u: Worker, r: Role, status: RoleStatus, calls: nat)
    requires AllPcs(u.pcs)
  {
    && (Holding(u, r) ==> u.pcs[r].Absent? && r !in u.leaked && calls == 0)
    && (r in u.leaked ==> u.fatal && status.InFlight? && !u.pcs[r].Running? && !u.pcs[r].Decided? && !u.pcs[r].Cleared?
                          && !u.pcs[r].Published? && !u.pcs[r].Decremented?)
    && match u.pcs[r]
       case Absent =>
         if Holding(u, r) || r in u.leaked then status.InFlight? else status.Pending? || status.Interrupted?
       case Running(k) => status.InFlight? && calls == k <= MAX_PROVIDER_CALLS_PER_ROLE
       case Decided(_) => status.InFlight?
       case Cleared(_) => status.InFlight?
       case _ => r in u.leaked || Done(status)
  }

  /** Reservations counted and not yet given back. */
  predicate Slot(u: Worker, r: Role)
    requires AllPcs(u.pcs)
  {
    u.owner == Counted(r) || u.pcs[r].Running? || u.pcs[r].Decided? || u.pcs[r].Cleared? || u.pcs[r].Published?
      || r in u.leaked
  }

  predicate Live(u: Worker, r: Role)
    requires AllPcs(u.pcs)
  {
    !Gone(u.pcs[r]) && !u.pcs[r].Released?
  }

  /** The goroutine has sent its completion. */
  predicate Told(u: Worker, r: Role)
    requires AllPcs(u.pcs)
  {
    (u.pcs[r].Notified? || u.pcs[r].GateWoken? || u.pcs[r].Released? || u.pcs[r].Exited?) && r !in u.leaked
  }

  function Slots(u: Worker): nat
    requires AllPcs(u.pcs)
  {
    One(Slot(u, Requirements)) + One(Slot(u, Architecture)) + One(Slot(u, QA)) + One(Slot(u, Security))
  }

  function Lives(u: Worker): nat
    requires AllPcs(u.pcs)
  {
    One(Live(u, Requirements)) + One(Live(u, Architecture)) + One(Live(u, QA)) + One(Live(u, Security))
  }

  function Tolds(u: Worker): nat
    requires AllPcs(u.pcs)
  {
    One(Told(u, Requirements)) + One(Told(u, Architecture)) + One(Told(u, QA)) + One(Told(u, Security))
  }

  /** The counters mean what they are read as. */
  predicate CountersOk(u: Worker)
    requires AllPcs(u.pcs)
  {
    u.local == Slots(u) && u.active == Lives(u) && u.comps <= Tolds(u) && u.gate <= GATE_CAPACITY
  }

  /** The coordinator has read four terminal roles and acts on it. */
  predicate GateOpen(u: Worker)
  {
    u.coord.ReadTerminal? || u.coord.Stopping? || u.coord.Joining? || u.coord.Composing?
    || ((u.coord.Sweeping? || u.coord.Rereading?) && u.coord.ready)
  }

  ghost predicate RolesOk(w: World, u: Worker)
    requires AllPcs(u.pcs)
  {
    forall r: Role :: r in RolesOf(w.db, u.sid) && RoleOk(u, r, RolesOf(w.db, u.sid)[r].status, CallsOf(w, u.sid, r))
  }

  ghost predicate WorkerOk(w: World, u: Worker)
  {
    && u.sid in w.db.sessions && AllPcs(u.pcs) && !Blank(u.sid)
    && (!u.coord.Finished? ==> w.db.sessions[u.sid].status.Reviewing?)
    && RolesOk(w, u) && CountersOk(u)
    && (GateOpen(u) ==> AllTerminal(RolesOf(w.db, u.sid)))
  }

  ghost predicate WorldOk(w: World)
  {
    Inv(w.db) && CallsOk(w) && (w.worker.Some? ==> WorkerOk(w, w.worker.value))
  }
}
