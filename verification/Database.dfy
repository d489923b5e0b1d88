/** Each transaction of internal/storage/sqlite as one step from database to database. */
module Database {
  import opened Options
  import opened Text
  import opened Domain
  import opened Evidence
  import opened Composer
  import opened RequestHash
  import opened Timestamps
  import opened Records
  import Timing
  import Validation

  datatype Outcome<+R> = Outcome(db: Db, result: R)

  /** A project ID given as "" matches every project. */
  predicate Scoped(db: Db, project: string, sid: string)
  {
    sid in db.sessions && (project == "" || db.sessions[sid].projectId == project)
  }

  function RolesOf(db: Db, sid: string): RoleMap
  {
    if sid in db.roles then db.roles[sid] else map[]
  }

  // ---- Submit -------------------------------------------------------------------------

  datatype SubmitParams = SubmitParams(sessionId: string, projectId: string, key: string, title: string,
                                       content: string, snapshot: Snapshot)

  datatype SubmitResult = Created(id: string) | Replayed(id: string, status: SessionStatus) | KeyConflict
                        | EmptyField | NilSnapshot | InvalidSnapshot | HashMismatch | SnapshotMismatch | DuplicateRow

  /** What Submit checks before it opens a transaction. */
  function SubmitFault(p: SubmitParams): Option<SubmitResult>
  {
    if p.projectId == "" || p.key == "" || p.title == "" || p.content == "" then Some(EmptyField)
    else if p.snapshot.id == "" || p.snapshot.hash == [] || p.snapshot.units == [] then Some(NilSnapshot)
    else if !Freezable(p.snapshot.id, p.snapshot.units) then Some(InvalidSnapshot)
    else if CanonicalHash(p.snapshot.units) != p.snapshot.hash then Some(HashMismatch)
    else None
  }

  function UnitKeys(snap: Snapshot): set<string>
  {
    set u | u in snap.units :: UnitKey(snap.id, u.id)
  }

  function NewSession(p: SubmitParams, createdAt: Instant): Session
  {
    Session(p.projectId, p.key, Buffer(p.projectId, p.title, p.content), p.snapshot.id, Queued, false, createdAt,
            None, None, None, None, None, 0, |ROLES|)
  }

  function NewRun(createdAt: Instant): RoleRun
  {
    RoleRun(Pending, None, None, None, 0, None, None, createdAt)
  }

  function NewRoles(createdAt: Instant): RoleMap
  {
    map[Requirements := NewRun(createdAt), Architecture := NewRun(createdAt), QA := NewRun(createdAt),
        Security := NewRun(createdAt)]
  }

  function SessionIdFor(p: SubmitParams, generated: string): string
  {
    if p.sessionId == "" then generated else p.sessionId
  }

  function Inserted(db: Db, p: SubmitParams, sid: string, createdAt: Instant): Db
  {
    db.(snapshots := db.snapshots[p.snapshot.id := StoredSnapshot(p.snapshot.hash, p.snapshot.units)],
        unitKeys := db.unitKeys + UnitKeys(p.snapshot),
        sessions := db.sessions[sid := NewSession(p, createdAt)],
        keys := db.keys[(p.projectId, p.key) := sid],
        roles := db.roles[sid := NewRoles(createdAt)])
  }

  /** generated is the random ID a submission without one would get. */
  function Submit(db: Db, p: SubmitParams, generated: string, createdAt: Instant): Outcome<SubmitResult>
  {
    var fault := SubmitFault(p);
    var digest := Buffer(p.projectId, p.title, p.content);
    var sid := SessionIdFor(p, generated);
    var at := (p.projectId, p.key);
    var stored := p.snapshot.id in db.snapshots;
    if fault.Some? then Outcome(db, fault.value)
    else if at in db.keys then
      if db.keys[at] in db.sessions && db.sessions[db.keys[at]].requestHash == digest
      then Outcome(db, Replayed(db.keys[at], db.sessions[db.keys[at]].status))
      else Outcome(db, KeyConflict)
    else if stored && db.snapshots[p.snapshot.id].hash != p.snapshot.hash then Outcome(db, SnapshotMismatch)
    else if !stored && UnitKeys(p.snapshot) * db.unitKeys != {} then Outcome(db, DuplicateRow)
    else if sid == "" || sid in db.sessions then Outcome(db, DuplicateRow)
    else Outcome(if stored then Inserted(db, p, sid, createdAt).(snapshots := db.snapshots, unitKeys := db.unitKeys)
                 else Inserted(db, p, sid, createdAt), Created(sid))
  }

  // ---- Claim ----------------------------------------------------------------------------

  datatype ClaimResult = Claimed(id: string, cutoffAt: Instant, deadlineAt: Instant) | ActiveReviewing | NoQueuedSession
                       | InvalidPolicy | MalformedHead(id: string) | OutOfRange

  predicate AnyReviewing(db: Db)
  {
    exists sid :: sid in db.sessions && db.sessions[sid].status.Reviewing?
  }

  /** ORDER BY created_at ASC, id ASC. */
  predicate Earlier(db: Db, a: string, b: string)
    requires a in db.sessions && b in db.sessions
  {
    db.sessions[a].createdAt < db.sessions[b].createdAt
    || (db.sessions[a].createdAt == db.sessions[b].createdAt && Less(a, b))
  }

  predicate IsQueued(db: Db, sid: string)
  {
    sid in db.sessions && db.sessions[sid].status.Queued?
  }

  ghost predicate IsHead(db: Db, sid: string)
  {
    IsQueued(db, sid) && forall other :: IsQueued(db, other) && other != sid ==> Earlier(db, sid, other)
  }

  ghost function Head(db: Db): Option<string>
  {
    if exists sid :: IsHead(db, sid) then
      var sid :| IsHead(db, sid);
      Some(sid)
    else None
  }

  /** What Claim insists on of the session at the head of the queue. */
  predicate Claimable(db: Db, sid: string, now: Instant)
    requires sid in db.sessions
  {
    var s := db.sessions[sid];
    && !Blank(sid) && s.completed == 0 && s.incomplete == |ROLES|
    && s.claimedAt.None? && s.cutoffAt.None? && s.deadlineAt.None? && s.terminalAt.None? && s.reason.None?
    && s.createdAt <= now && AllRoles(RolesOf(db, sid)) && CountOf(RolesOf(db, sid), Pending) == |ROLES|
  }

  function ClaimedSession(s: Session, policy: Timing.TimingPolicy, now: Instant): Session
    requires Timing.ValidPolicy(policy) && now + policy.sessionHardDeadline < END_OF_TIME
  {
    s.(status := Reviewing, claimedAt := Some(now), cutoffAt := Some(now + policy.dispatchCutoff),
       deadlineAt := Some(now + policy.sessionHardDeadline))
  }

  ghost function Claim(db: Db, policy: Timing.TimingPolicy, now: Instant): Outcome<ClaimResult>
  {
    if !Timing.ValidPolicy(policy) then Outcome(db, InvalidPolicy)
    else if AnyReviewing(db) then Outcome(db, ActiveReviewing)
    else
      match Head(db)
      case None => Outcome(db, NoQueuedSession)
      case Some(sid) =>
        if !IsQueued(db, sid) || !Claimable(db, sid, now) then Outcome(db, MalformedHead(sid))
        else if now + policy.sessionHardDeadline >= END_OF_TIME then Outcome(db, OutOfRange)
        else Outcome(db.(sessions := db.sessions[sid := ClaimedSession(db.sessions[sid], policy, now)]),
                     Claimed(sid, now + policy.dispatchCutoff, now + policy.sessionHardDeadline))
  }

  // ---- Reserve ------------------------------------------------------------------------------

  datatype ReserveResult = Reserved(role: Role, inFlight: nat) | NotReviewing | Cancelled | Cutoff
                         | CapacityFull(inFlight: nat) | NoPendingRole(inFlight: nat) | GuardConflict
                         | ReserveNotFound | ReserveMalformed

  function Started(run: RoleRun, now: Instant): RoleRun
  {
    run.(status := InFlight, startedAt := Some(now), callCount := 0)
  }

  function SetRun(db: Db, sid: string, r: Role, run: RoleRun): Db
    requires sid in db.roles
  {
    db.(roles := db.roles[sid := db.roles[sid][r := run]])
  }

  function Reserve(db: Db, project: string, sid: string, now: Instant): Outcome<ReserveResult>
  {
    if Blank(sid) || !Scoped(db, project, sid) then Outcome(db, ReserveNotFound)
    else
      var s, rs := db.sessions[sid], RolesOf(db, sid);
      var n, next := CountOf(rs, InFlight), FirstOf(rs, Pending);
      if !s.status.Reviewing? then Outcome(db, NotReviewing)
      else if s.cancelRequested then Outcome(db, Cancelled)
      else if s.cutoffAt.None? then Outcome(db, ReserveMalformed)
      else if now >= s.cutoffAt.value then Outcome(db, Cutoff)
      else if n >= MAX_IN_FLIGHT then Outcome(db, CapacityFull(n))
      else if next.None? then Outcome(db, NoPendingRole(n))
      else Outcome(SetRun(db, sid, next.value, Started(rs[next.value], now)), Reserved(next.value, n + 1))
  }

  // ---- Publish ----------------------------------------------------------------------------------

  datatype PublishResult = Published(role: Role) | InvalidParams | PublishNotFound | NotInSession | RoleMismatch
                         | NotInFlight(status: RoleStatus) | CompletedTooEarly | UnknownRef | DuplicateFinding

  /** The role of the session whose run has this ID. */
  function RoleWithId(db: Db, sid: string, rid: string): Option<Role>
  {
    var rs := RolesOf(db, sid);
    if Requirements in rs && rid == RoleRunId(sid, Requirements) then Some(Requirements)
    else if Architecture in rs && rid == RoleRunId(sid, Architecture) then Some(Architecture)
    else if QA in rs && rid == RoleRunId(sid, QA) then Some(QA)
    else if Security in rs && rid == RoleRunId(sid, Security) then Some(Security)
    else None
  }

  /** The checks both publications share, up to the compare-and-set. */
  function PublishFault(db: Db, project: string, sid: string, rid: string, role: Option<Role>, now: Instant):
    Option<PublishResult>
  {
    var found := RoleWithId(db, sid, rid);
    if sid !in db.sessions then Some(PublishNotFound)
    else if !Scoped(db, project, sid) then Some(PublishNotFound)
    else if found.None? then Some(NotInSession)
    else
      var run := RolesOf(db, sid)[found.value];
      if role.Some? && role.value != found.value then Some(RoleMismatch)
      else if !run.status.InFlight? then Some(NotInFlight(run.status))
      else if run.startedAt.Some? && now < run.startedAt.value then Some(CompletedTooEarly)
      else None
  }

  function UnitsStored(db: Db, snapshotId: string): seq<Unit>
  {
    if snapshotId in db.snapshots then db.snapshots[snapshotId].units else []
  }

  predicate RefsKnown(units: seq<Unit>, f: Finding)
  {
    && (forall ref :: ref in f.basisRefs ==> ref in Ids(units))
    && (f.anchorRef == "" || f.anchorRef in Ids(units))
  }

  function FindingKeys(sid: string, role: Role, fs: seq<Finding>): set<string>
  {
    set f | f in fs :: FindingKey(sid, role, f.id)
  }

  function FindingRows(sid: string, role: Role, fs: seq<Finding>): map<string, FindingRow>
  {
    if fs == [] then map[]
    else
      var last := fs[|fs| - 1];
      FindingRows(sid, role, fs[..|fs| - 1])[FindingKey(sid, role, last.id) := FindingRow(sid, role, last)]
  }

  function CompletedRun(run: RoleRun, callCount: nat, now: Instant): RoleRun
  {
    run.(status := RoleComplete, callCount := callCount, completedAt := Some(now))
  }

  function PublishSuccess(db: Db, p: Validation.SuccessParams, now: Instant): Outcome<PublishResult>
  {
    var fault := PublishFault(db, p.projectId, p.sessionId, p.roleRunId, p.role, now);
    if !Validation.SuccessOk(p) then Outcome(db, InvalidParams)
    else if fault.Some? then Outcome(db, fault.value)
    else
      var sid, role := p.sessionId, RoleWithId(db, p.sessionId, p.roleRunId).value;
      var units := UnitsStored(db, db.sessions[sid].snapshotId);
      if exists f :: f in p.findings && !RefsKnown(units, f) then Outcome(db, UnknownRef)
      else if FindingKeys(sid, role, p.findings) * db.findings.Keys != {} then Outcome(db, DuplicateFinding)
      else
        var run := CompletedRun(RolesOf(db, sid)[role], p.callCount, now);
        Outcome(SetRun(db, sid, role, run).(findings := db.findings + FindingRows(sid, role, p.findings)),
                Published(role))
  }

  function FailedRun(run: RoleRun, p: Validation.FailureParams, now: Instant): RoleRun
    requires p.callCount >= 0
  {
    run.(status := RoleFailed, errorCategory := Some(p.errorCategory),
         errorMessage := if p.errorMessage == "" then None else Some(p.errorMessage),
         callCount := p.callCount, completedAt := Some(now))
  }

  function PublishFailure(db: Db, p: Validation.FailureParams, now: Instant): Outcome<PublishResult>
  {
    var fault := PublishFault(db, p.projectId, p.sessionId, p.roleRunId, p.role, now);
    if !Validation.FailureOk(p) then Outcome(db, InvalidParams)
    else if fault.Some? then Outcome(db, fault.value)
    else
      var sid, role := p.sessionId, RoleWithId(db, p.sessionId, p.roleRunId).value;
      Outcome(SetRun(db, sid, role, FailedRun(RolesOf(db, sid)[role], p, now)), Published(role))
  }

  // ---- Sweeps ---------------------------------------------------------------------------------

  /** due tells whether the sweep's condition held; the role run IDs follow from the roles. */
  datatype SweepResult = Swept(interrupted: seq<Role>, inFlight: seq<Role>, due: bool, noOp: bool) | SweepNotFound
                       | SweepMalformed

  function NotDue(inFlight: seq<Role>): SweepResult
  {
    Swept([], inFlight, false, true)
  }

  function InterruptedRun(run: RoleRun, cause: InterruptCause, at: Option<Instant>): RoleRun
  {
    run.(status := Interrupted, cause := Some(cause), completedAt := at)
  }

  function SweptRun(run: RoleRun, cause: InterruptCause, now: Instant): RoleRun
  {
    if run.status.Pending? then InterruptedRun(run, cause, Some(now)) else run
  }

  function SweepPending(rs: RoleMap, cause: InterruptCause, now: Instant): (swept: RoleMap)
    ensures swept.Keys == rs.Keys
  {
    map r | r in rs :: SweptRun(rs[r], cause, now)
  }

  function WithRoles(db: Db, sid: string, rs: RoleMap): Db
  {
    db.(roles := db.roles[sid := rs])
  }

  /** The shared tail of a sweep whose condition holds. */
  function Sweep(db: Db, sid: string, cause: InterruptCause, now: Instant): Outcome<SweepResult>
  {
    var rs := RolesOf(db, sid);
    var result := Swept(RolesWith(rs, Pending), RolesWith(rs, InFlight), true, CountOf(rs, Pending) == 0);
    if CountOf(rs, Pending) == 0 then Outcome(db, result)
    else Outcome(WithRoles(db, sid, SweepPending(rs, cause, now)), result)
  }

  function SweepCancellation(db: Db, project: string, sid: string, now: Instant): Outcome<SweepResult>
  {
    if Blank(sid) || !Scoped(db, project, sid) then Outcome(db, SweepNotFound)
    else if !db.sessions[sid].status.Reviewing? then Outcome(db, NotDue([]))
    else if !db.sessions[sid].cancelRequested then Outcome(db, NotDue(RolesWith(RolesOf(db, sid), InFlight)))
    else Sweep(db, sid, UserCancelled, now)
  }

  function SweepCutoff(db: Db, project: string, sid: string, now: Instant): Outcome<SweepResult>
  {
    if Blank(sid) || !Scoped(db, project, sid) then Outcome(db, SweepNotFound)
    else
      var s := db.sessions[sid];
      if !s.status.Reviewing? then Outcome(db, NotDue([]))
      else if s.cutoffAt.None? then Outcome(db, SweepMalformed)
      else if now < s.cutoffAt.value then Outcome(db, NotDue([]))
      else Sweep(db, sid, DeadlineCutoff, now)
  }

  function SweepHardDeadline(db: Db, project: string, sid: string, now: Instant): Outcome<SweepResult>
  {
    if Blank(sid) || !Scoped(db, project, sid) then Outcome(db, SweepNotFound)
    else
      var s := db.sessions[sid];
      if !s.status.Reviewing? then Outcome(db, NotDue([]))
      else if s.deadlineAt.None? || now < s.deadlineAt.value
        then Outcome(db, NotDue(RolesWith(RolesOf(db, sid), InFlight)))
      else
        var o := Sweep(db, sid, DeadlineCutoff, now);
        Outcome(o.db, o.result.(noOp := o.result.noOp && o.result.inFlight == []))
  }

  // ---- Restart recovery --------------------------------------------------------------------------

  datatype Recovery = Recovery(inFlight: nat, pending: nat, cancelRequested: bool)

  datatype RecoverResult = Recovered(sessions: map<string, Recovery>) | RecoverNotFound | NoCutoff

  predicate Stale(s: Session, project: string, cutoff: Instant)
  {
    s.status.Reviewing? && s.claimedAt.Some? && s.claimedAt.value <= cutoff && (project == "" || s.projectId == project)
  }

  predicate Recoverable(db: Db, project: string, only: string, cutoff: Instant, sid: string)
  {
    sid in db.sessions && Stale(db.sessions[sid], project, cutoff) && (only == "" || sid == only)
  }

  function PendingCause(s: Session): InterruptCause
  {
    if s.cancelRequested then UserCancelled else ProcessRestart
  }

  /** completed_at never precedes started_at. */
  function RecoveredRun(run: RoleRun, s: Session, now: Instant): RoleRun
  {
    if run.status.InFlight? then
      InterruptedRun(run, ProcessRestart,
                     if run.startedAt.Some? && now >= run.startedAt.value then Some(now) else run.startedAt)
    else SweptRun(run, PendingCause(s), now)
  }

  function RecoveredRoles(rs: RoleMap, s: Session, now: Instant): (recovered: RoleMap)
    ensures recovered.Keys == rs.Keys
  {
    map r | r in rs :: RecoveredRun(rs[r], s, now)
  }

  function RecoverAll(db: Db, project: string, only: string, cutoff: Instant, now: Instant): Db
  {
    db.(roles := map sid | sid in db.roles ::
                   if Recoverable(db, project, only, cutoff, sid)
                     then RecoveredRoles(db.roles[sid], db.sessions[sid], now)
                   else db.roles[sid])
  }

  function RecoveryOf(db: Db, sid: string): Recovery
    requires sid in db.sessions
  {
    Recovery(CountOf(RolesOf(db, sid), InFlight), CountOf(RolesOf(db, sid), Pending), db.sessions[sid].cancelRequested)
  }

  /** project and only narrow the sweep when they are not "". */
  function Recover(db: Db, project: string, only: string, cutoff: Option<Instant>, now: Instant): Outcome<RecoverResult>
  {
    if cutoff.None? then Outcome(db, NoCutoff)
    else if only != "" && !Scoped(db, project, only) then Outcome(db, RecoverNotFound)
    else
      Outcome(RecoverAll(db, project, only, cutoff.value, now),
              Recovered(map sid | sid in db.sessions && Recoverable(db, project, only, cutoff.value, sid) ::
                          RecoveryOf(db, sid)))
  }

  // ---- Cancel --------------------------------------------------------------------------------------

  datatype CancelResult = Effective | AlreadyRequested | AlreadyTerminal | CancelNotFound

  function RequestCancellation(db: Db, project: string, sid: string): Outcome<CancelResult>
  {
    if Blank(sid) || !Scoped(db, project, sid) then Outcome(db, CancelNotFound)
    else
      var s := db.sessions[sid];
      if s.status.IsTerminal() then Outcome(db, AlreadyTerminal)
      else if s.cancelRequested then Outcome(db, AlreadyRequested)
      else Outcome(db.(sessions := db.sessions[sid := s.(cancelRequested := true)]), Effective)
  }

  // ---- Reports and composition -----------------------------------------------------------------------

  predicate RowCounts(db: Db, sid: string, k: string)
  {
    k in db.findings && db.findings[k].sessionId == sid && Is(RolesOf(db, sid), db.findings[k].role, RoleComplete)
  }

  /** A result set of the findings query: its rows once each, in whatever order SQLite returns them. */
  ghost predicate ResultSet(db: Db, sid: string, keys: seq<string>)
  {
    && (forall k :: k in keys <==> RowCounts(db, sid, k))
    && forall i, j :: 0 <= i < j < |keys| ==> keys[i] != keys[j]
  }

  /** The findings of one role among the rows, in the order of the rows. */
  function FindingsIn(db: Db, keys: seq<string>, role: Role): seq<Finding>
    requires forall k :: k in keys ==> k in db.findings
  {
    if keys == [] then []
    else
      var front, row := FindingsIn(db, keys[..|keys| - 1], role), db.findings[keys[|keys| - 1]];
      if row.role == role then front + [row.finding] else front
  }

  function OutcomeOf(db: Db, rs: RoleMap, keys: seq<string>, r: Role): RoleOutcome
    requires r in rs && forall k :: k in keys ==> k in db.findings
  {
    RoleOutcome(r, rs[r].status, FindingsIn(db, keys, r),
                if rs[r].errorCategory.Some? then rs[r].errorCategory.value else "", rs[r].cause, rs[r].callCount, None)
  }

  function OutcomesOf(db: Db, rs: RoleMap, keys: seq<string>): (os: seq<RoleOutcome>)
    requires AllRoles(rs) && forall k :: k in keys ==> k in db.findings
    ensures |os| == |ROLES|
  {
    [OutcomeOf(db, rs, keys, Requirements), OutcomeOf(db, rs, keys, Architecture), OutcomeOf(db, rs, keys, QA),
     OutcomeOf(db, rs, keys, Security)]
  }

  function ReportWith(db: Db, sid: string, keys: seq<string>, v: Verdict): Report
    requires sid in db.sessions && AllRoles(RolesOf(db, sid)) && forall k :: k in keys ==> k in db.findings
  {
    var s := db.sessions[sid];
    var hash := if s.snapshotId in db.snapshots then db.snapshots[s.snapshotId].hash else [];
    Built(sid, s.snapshotId, hash, OutcomesOf(db, RolesOf(db, sid), keys), v, s.cancelRequested)
  }

  datatype ReportResult = ReportOk(report: Report) | ReportNotFound | NotTerminalYet(status: SessionStatus)
                        | ReportMalformed

  function ReadReport(db: Db, project: string, sid: string, keys: seq<string>): ReportResult
    requires forall k :: k in keys ==> k in db.findings
  {
    if Blank(sid) || !Scoped(db, project, sid) then ReportNotFound
    else
      var s := db.sessions[sid];
      if !s.status.IsTerminal() then NotTerminalYet(s.status)
      else if s.reason.None? || !AllRoles(RolesOf(db, sid)) then ReportMalformed
      else ReportOk(ReportWith(db, sid, keys, Verdict(s.status, s.reason.value, s.completed, s.incomplete)))
  }

  datatype ComposeResult = Composed(report: Report) | AlreadyComposed(stored: ReportResult)
                         | NotReady(pending: nat, inFlight: nat) | ComposeNotReviewing | ComposeNotFound
                         | ComposeMalformed

  function Later(now: Instant, floor: Option<Instant>): Instant
  {
    if floor.Some? && now < floor.value then floor.value else now
  }

  function ComposedSession(s: Session, v: Verdict, now: Instant): Session
  {
    s.(status := v.status, reason := Some(v.reason), completed := v.completed, incomplete := v.incomplete,
       terminalAt := Some(Later(now, s.claimedAt)))
  }

  function ComposeSession(db: Db, project: string, rawId: string, keys: seq<string>,
                          now: Instant): Outcome<ComposeResult>
    requires forall k :: k in keys ==> k in db.findings
  {
    var sid := TrimSpace(rawId);
    if sid == "" || !Scoped(db, project, sid) then Outcome(db, ComposeNotFound)
    else
      var s, rs := db.sessions[sid], RolesOf(db, sid);
      if s.status.IsTerminal() then Outcome(db, AlreadyComposed(ReadReport(db, s.projectId, sid, keys)))
      else if !s.status.Reviewing? then Outcome(db, ComposeNotReviewing)
      else if !AllRoles(rs) then Outcome(db, ComposeMalformed)
      else if CountOf(rs, Pending) + CountOf(rs, InFlight) > 0 then
        Outcome(db, NotReady(CountOf(rs, Pending), CountOf(rs, InFlight)))
      else if !Composable(RowsOf(rs)) then Outcome(db, ComposeMalformed)
      else
        var v := Decide(RowsOf(rs));
        Outcome(db.(sessions := db.sessions[sid := ComposedSession(s, v, now)]), Composed(ReportWith(db, sid, keys, v)))
  }

  // ---- Runs ---------------------------------------------------------------------------------------------

  datatype Step = SubmitStep(submit: SubmitParams, generated: string, at: Instant)
                | ClaimStep(policy: Timing.TimingPolicy, at: Instant)
                | ReserveStep(project: string, sid: string, at: Instant)
                | SuccessStep(success: Validation.SuccessParams, at: Instant)
                | FailureStep(failure: Validation.FailureParams, at: Instant)
                | CancellationSweepStep(project: string, sid: string, at: Instant)
                | CutoffSweepStep(project: string, sid: string, at: Instant)
                | DeadlineSweepStep(project: string, sid: string, at: Instant)
                | RecoverStep(project: string, sid: string, cutoff: Option<Instant>, at: Instant)
                | CancelStep(project: string, sid: string)
                | ComposeStep(project: string, sid: string, at: Instant)

  ghost function Apply(db: Db, step: Step): Db
  {
    match step
    case SubmitStep(p, generated, at) => Submit(db, p, generated, at).db
    case ClaimStep(policy, at) => Claim(db, policy, at).db
    case ReserveStep(project, sid, at) => Reserve(db, project, sid, at).db
    case SuccessStep(p, at) => PublishSuccess(db, p, at).db
    case FailureStep(p, at) => PublishFailure(db, p, at).db
    case CancellationSweepStep(project, sid, at) => SweepCancellation(db, project, sid, at).db
    case CutoffSweepStep(project, sid, at) => SweepCutoff(db, project, sid, at).db
    case DeadlineSweepStep(project, sid, at) => SweepHardDeadline(db, project, sid, at).db
    case RecoverStep(project, only, cutoff, at) => Recover(db, project, only, cutoff, at).db
    case CancelStep(project, sid) => RequestCancellation(db, project, sid).db
    case ComposeStep(project, sid, at) => ComposeSession(db, project, sid, [], at).db
  }

  ghost function Exec(db: Db, steps: seq<Step>): Db
  {
    if steps == [] then db else Apply(Exec(db, steps[..|steps| - 1]), steps[|steps| - 1])
  }
}
