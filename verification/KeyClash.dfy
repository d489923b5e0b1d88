/** Finding keys that meet: exactly which two sessions can get in each other's way, with the runs that show it. */
module KeyClash {
  import opened Options
  import opened Text
  import opened Domain
  import opened Evidence
  import opened Composer
  import opened Timestamps
  import opened Records
  import opened Database
  import opened DbInvariant
  import opened DbSteps
  import opened DbEffects
  import opened DbProgress
  import opened FrozenReports
  import opened RoleRunner
  import opened Scenarios
  import Timing
  import Validation

  // ---- Sessions that never get far --------------------------------------------------------------------------

  /** A blank session is not claimed, and one whose ID trimming changes is not composed. */
  predicate Held(db: Db, sid: string)
  {
    sid in db.sessions ==>
      (Blank(sid) ==> db.sessions[sid].status.Queued?)
      && (TrimSpace(sid) != sid ==> !db.sessions[sid].status.IsTerminal())
  }

  lemma SameHeld(db: Db, next: Db, sid: string)
    requires Held(db, sid)
    requires sid in next.sessions ==> sid in db.sessions && next.sessions[sid].status == db.sessions[sid].status
    ensures Held(next, sid)
  {
    hide Blank, TrimSpace;
  }

  lemma SubmitHeld(db: Db, p: SubmitParams, generated: string, at: Instant, sid: string)
    requires Held(db, sid)
    ensures Held(Submit(db, p, generated, at).db, sid)
  {
    hide Submit, SubmitFault, NewSession, NewRoles, SnapshotStored, Blank, TrimSpace;
    if SubmitFault(p).None? && Submit(db, p, generated, at).result.Created? {
      Insertion(db, p, generated, at);
      NewSessionFields(p, at);
    } else {
      SubmitUnchanged(db, p, generated, at);
    }
  }

  lemma ClaimHeld(db: Db, policy: Timing.TimingPolicy, at: Instant, sid: string)
    requires Held(db, sid)
    ensures Held(Claim(db, policy, at).db, sid)
  {
    hide Blank, TrimSpace, Timing.ValidPolicy, AnyReviewing, CountOf, AllRoles, IsHead;
  }

  lemma CancelHeld(db: Db, project: string, id: string, sid: string)
    requires Held(db, sid)
    ensures Held(RequestCancellation(db, project, id).db, sid)
  {
    hide Blank, TrimSpace;
  }

  lemma ComposeHeld(db: Db, project: string, id: string, at: Instant, sid: string)
    requires Inv(db) && Held(db, sid)
    ensures Held(ComposeSession(db, project, id, [], at).db, sid)
  {
    hide Inv, ComposeSession;
    ComposeKeys(db, project, id, at);
    if TrimSpace(id) == sid {
      TrimIdempotent(id);
      if sid in db.sessions {
        SessionNamed(db, sid);
      }
    } else if sid in db.sessions {
      ComposeSessions(db, project, id, at, sid);
    }
  }

  lemma ComposeKeys(db: Db, project: string, id: string, at: Instant)
    ensures ComposeSession(db, project, id, [], at).db.sessions.Keys == db.sessions.Keys
  {
    hide TrimSpace, CountOf, Composable, ReportWith, ReadReport, Decide;
  }

  lemma HeldStep(db: Db, step: Step, sid: string)
    requires Inv(db) && Held(db, sid)
    ensures Held(Apply(db, step), sid)
  {
    hide Inv, Held, Submit, Claim, Reserve, PublishSuccess, PublishFailure, SweepCancellation, SweepCutoff,
      SweepHardDeadline, Recover, RequestCancellation, ComposeSession;
    match step
    case SubmitStep(p, generated, at) => SubmitHeld(db, p, generated, at, sid);
    case ClaimStep(policy, at) => ClaimHeld(db, policy, at, sid);
    case ReserveStep(project, id, at) =>
      ReserveSessions(db, project, id, at);
      SameHeld(db, Apply(db, step), sid);
    case SuccessStep(p, at) =>
      SuccessSessions(db, p, at);
      SameHeld(db, Apply(db, step), sid);
    case FailureStep(p, at) =>
      FailureSessions(db, p, at);
      SameHeld(db, Apply(db, step), sid);
    case CancellationSweepStep(project, id, at) =>
      SweepSessions(db, project, id, at);
      SameHeld(db, Apply(db, step), sid);
    case CutoffSweepStep(project, id, at) =>
      SweepSessions(db, project, id, at);
      SameHeld(db, Apply(db, step), sid);
    case DeadlineSweepStep(project, id, at) =>
      SweepSessions(db, project, id, at);
      SameHeld(db, Apply(db, step), sid);
    case RecoverStep(project, only, cutoff, at) =>
      RecoverSessions(db, project, only, cutoff, at);
      SameHeld(db, Apply(db, step), sid);
    case CancelStep(project, id) => CancelHeld(db, project, id, sid);
    case ComposeStep(project, id, at) => ComposeHeld(db, project, id, at, sid);
  }

  /** In every run. */
  lemma {:induction false} AlwaysHeld(steps: seq<Step>, sid: string)
    ensures Held(Exec(EMPTY, steps), sid)
    decreases |steps|
  {
    hide Inv, Held, Apply;
    if steps == [] {
      NothingHeld(sid);
    } else {
      AlwaysHeld(steps[..|steps| - 1], sid);
      EmptyOk();
      ExecKeeps(EMPTY, steps[..|steps| - 1]);
      HeldStep(Exec(EMPTY, steps[..|steps| - 1]), steps[|steps| - 1], sid);
    }
  }

  lemma NothingHeld(sid: string)
    ensures Held(EMPTY, sid)
  {
  }

  // ---- Where a refusal comes from ------------------------------------------------------------------------------

  predicate Refused(db: Db, p: Validation.SuccessParams, at: Instant)
  {
    PublishSuccess(db, p, at).result == DuplicateFinding
  }

  /** A refused publication is that of a role in flight, one of whose findings has the key of a stored one. */
  lemma RefusedKey(db: Db, p: Validation.SuccessParams, at: Instant) returns (r: Role, f: Finding)
    requires Refused(db, p, at)
    ensures p.sessionId in db.sessions && !Blank(p.sessionId) && Is(RolesOf(db, p.sessionId), r, InFlight)
    ensures FindingKey(p.sessionId, r, f.id) in db.findings
  {
    hide Blank, RefsKnown, FindingKey, RoleRunId, FindingRows, Validation.StructureOk;
    r := RoleWithId(db, p.sessionId, p.roleRunId).value;
    var k :| k in FindingKeys(p.sessionId, r, p.findings) * db.findings.Keys;
    f :| f in p.findings && k == FindingKey(p.sessionId, r, f.id);
  }

  /** The finding in the way belongs to a complete role of another session, the IDs of the two not being apart. */
  lemma RefusedBy(db: Db, p: Validation.SuccessParams, at: Instant) returns (other: string, q: Role)
    requires Inv(db) && Refused(db, p, at)
    ensures p.sessionId in db.sessions && !Blank(p.sessionId) && db.sessions[p.sessionId].status.Reviewing?
    ensures other in db.sessions && Is(RolesOf(db, other), q, RoleComplete)
    ensures other != p.sessionId && !Apart(p.sessionId, other)
  {
    hide Inv, Refused, FindingKey, Apart, Blank, SessionOk;
    var r, f := RefusedKey(db, p, at);
    var k := FindingKey(p.sessionId, r, f.id);
    StoredFinding(db, k);
    var row := db.findings[k];
    other, q := row.sessionId, row.role;
    if other == p.sessionId || Apart(p.sessionId, other) {
      FindingKeyInjective(p.sessionId, r, f.id, other, q, row.finding.id);
    }
    AtSession(db, p.sessionId);
    InFlightMeansReviewing(db.sessions[p.sessionId], db.roles[p.sessionId], r);
  }

  lemma StoredFinding(db: Db, k: string)
    requires Inv(db) && k in db.findings
    ensures var row := db.findings[k];
            && k == FindingKey(row.sessionId, row.role, row.finding.id)
            && Is(RolesOf(db, row.sessionId), row.role, RoleComplete) && row.sessionId in db.sessions
  {
    hide SessionsOk, KeysAgree, SnapshotsOk, OneReviewing, FindingKey, Validation.FindingOk, Validation.TableRowOk,
      RefsKnown;
    assert FindingOk(db, k);
  }

  /** What it takes for two sessions to get in each other's way; one of them has to be composed first. */
  predicate CanClash(s: string, t: string)
  {
    !Apart(s, t) && !Blank(s) && !Blank(t) && (TrimSpace(s) == s || TrimSpace(t) == t)
  }

  /** In every run, only a session with which the refused one can clash is ever in its way. */
  lemma RefusedMeansClash(steps: seq<Step>, p: Validation.SuccessParams, at: Instant) returns (other: string)
    requires Refused(Exec(EMPTY, steps), p, at)
    ensures other in Exec(EMPTY, steps).sessions && other != p.sessionId && p.sessionId in Exec(EMPTY, steps).sessions
    ensures CanClash(p.sessionId, other)
  {
    hide Inv, Refused, Blank, TrimSpace, Apart, Exec;
    var db := Exec(EMPTY, steps);
    EmptyOk();
    ExecKeeps(EMPTY, steps);
    var q;
    other, q := RefusedBy(db, p, at);
    AlwaysHeld(steps, other);
    CompletedIsTerminal(db, other, q, p.sessionId);
  }

  lemma CompletedIsTerminal(db: Db, sid: string, r: Role, other: string)
    requires Inv(db) && sid in db.sessions && Is(RolesOf(db, sid), r, RoleComplete)
    requires other in db.sessions && db.sessions[other].status.Reviewing? && other != sid
    ensures db.sessions[sid].status.IsTerminal()
  {
    hide KeysAgree, SnapshotsOk, FindingsOk;
    AtSession(db, sid);
    RowsOk(db.sessions[sid], db.roles[sid]);
  }

  // ---- One role after the other --------------------------------------------------------------------------------

  const SNAPSHOTS := map["snap" := StoredSnapshot([UNIT], [UNIT])]

  function Params(sid: string, key: string): SubmitParams
  {
    SubmitParams(sid, "p", key, "t", "c", Frozen("snap", [UNIT]))
  }

  predicate Open(s: Session)
  {
    && s.status.Reviewing? && !s.cancelRequested && s.claimedAt == Some(0) && s.cutoffAt == Some(1)
    && s.projectId == "p" && s.snapshotId == "snap"
  }

  function InTurn(q: Role, r: Role): RoleStatus
  {
    if RoleOrder(q) < RoleOrder(r) then RoleFailed else Pending
  }

  predicate TurnOf(rs: RoleMap, r: Role)
  {
    forall q: Role :: q in rs && rs[q].status == InTurn(q, r)
  }

  /** The roles before r have failed, and the rest are pending. */
  ghost predicate Turn(db: Db, sid: string, r: Role)
  {
    Inv(db) && !Blank(sid) && sid in db.sessions && db.snapshots == SNAPSHOTS && Open(db.sessions[sid])
    && TurnOf(RolesOf(db, sid), r)
  }

  /** Role r runs since time 0. */
  ghost predicate Running(db: Db, sid: string, r: Role)
  {
    Inv(db) && !Blank(sid) && sid in db.sessions && db.snapshots == SNAPSHOTS && Open(db.sessions[sid])
    && Is(RolesOf(db, sid), r, InFlight) && RolesOf(db, sid)[r].startedAt == Some(0)
    && forall q: Role :: q in RolesOf(db, sid) && (q != r ==> RolesOf(db, sid)[q].status == InTurn(q, r))
  }

  lemma FirstInTurn(rs: RoleMap, r: Role)
    requires TurnOf(rs, r)
    ensures CountOf(rs, InFlight) == 0 && FirstOf(rs, Pending) == Some(r)
  {
    match r
    case Requirements =>
    case Architecture =>
    case QA =>
    case Security =>
  }

  lemma ReserveSnapshots(db: Db, sid: string, at: Instant)
    ensures Reserve(db, "", sid, at).db.snapshots == db.snapshots
  {
    hide Blank, CountOf;
  }

  lemma StartTurn(db: Db, sid: string, r: Role)
    requires Turn(db, sid, r)
    ensures var next := Reserve(db, "", sid, 0).db;
            Running(next, sid, r) && next.sessions == db.sessions && next.findings == db.findings
  {
    hide Inv, StepOk, Blank, Reserve, FirstOf, CountOf;
    FirstInTurn(RolesOf(db, sid), r);
    Reserves(db, sid, 0);
    ReserveEffect(db, sid, 0);
    ReserveSnapshots(db, sid, 0);
    ReserveKeeps(db, "", sid, 0);
  }

  function FailedOutcome(r: Role): RoleOutcome
  {
    RoleOutcome(r, RoleFailed, [], TIMEOUT, None, 1, None)
  }

  function FoundOutcome(r: Role, id: string): RoleOutcome
  {
    RoleOutcome(r, RoleComplete, [Found(id)], "", None, 1, None)
  }

  function FailureOf(sid: string, r: Role): Validation.FailureParams
  {
    Validation.FailureParams("p", sid, RoleRunId(sid, r), Some(r), TIMEOUT, "", 1)
  }

  function SuccessOf(sid: string, r: Role, id: string): Validation.SuccessParams
  {
    Validation.SuccessParams("p", sid, RoleRunId(sid, r), Some(r), [Found(id)], 1)
  }

  lemma Publications(sid: string, r: Role, id: string)
    ensures PublicationOf(FailedOutcome(r), "", "p", sid, RoleRunId(sid, r)) == Failure(FailureOf(sid, r))
    ensures PublicationOf(FoundOutcome(r, id), "", "p", sid, RoleRunId(sid, r)) == Success(SuccessOf(sid, r, id))
  {
  }

  lemma FailureSnapshots(db: Db, p: Validation.FailureParams, at: Instant)
    ensures PublishFailure(db, p, at).db.snapshots == db.snapshots
  {
    hide Validation.FailureOk, PublishFault, RoleWithId;
  }

  lemma FailTurn(db: Db, sid: string, r: Role, next: Role)
    requires Running(db, sid, r) && RoleOrder(next) == RoleOrder(r) + 1
    ensures var after := PublishFailure(db, FailureOf(sid, r), 0).db;
            Turn(after, sid, next) && after.sessions == db.sessions && after.findings == db.findings
  {
    hide Inv, StepOk, Blank, Publish, RoleRunId, KeysFree;
    Publications(sid, r, "");
    PublishEffect(db, sid, r, FailedOutcome(r), "", 0);
    PublishKeeps(db, Failure(FailureOf(sid, r)), 0);
    FailureSnapshots(db, FailureOf(sid, r), 0);
    PublishesFailure(db, FailureOf(sid, r));
  }

  lemma PublishesFailure(db: Db, p: Validation.FailureParams)
    ensures Publish(db, Failure(p), 0) == PublishFailure(db, p, 0)
  {
    hide PublishFailure;
  }

  lemma ReserveIs(db: Db, sid: string)
    ensures Apply(db, ReserveStep("", sid, 0)) == Reserve(db, "", sid, 0).db
  {
    hide Reserve;
  }

  lemma FailureIs(db: Db, p: Validation.FailureParams)
    ensures Apply(db, FailureStep(p, 0)) == PublishFailure(db, p, 0).db
  {
    hide PublishFailure;
  }

  lemma SuccessIs(db: Db, p: Validation.SuccessParams)
    ensures Apply(db, SuccessStep(p, 0)) == PublishSuccess(db, p, 0).db
  {
    hide PublishSuccess;
  }

  lemma ClaimIs(db: Db)
    ensures Apply(db, ClaimStep(POLICY, 0)) == Claim(db, POLICY, 0).db
  {
    hide Claim;
  }

  lemma SubmitIs(db: Db, p: SubmitParams)
    ensures Apply(db, SubmitStep(p, "", 0)) == Submit(db, p, "", 0).db
  {
    hide Submit;
  }

  lemma RecoverIs(db: Db)
    ensures Apply(db, RecoverStep("", "", Some(0), 0)) == Recover(db, "", "", Some(0), 0).db
  {
    hide Recover;
  }

  lemma ComposeIs(db: Db, sid: string)
    ensures Apply(db, ComposeStep("", sid, 0)) == ComposeSession(db, "", sid, [], 0).db
  {
    hide ComposeSession;
  }

  lemma ThenOne(db: Db, steps: seq<Step>, step: Step)
    ensures Exec(db, steps + [step]) == Apply(Exec(db, steps), step)
  {
    hide Apply, Exec;
    ExecAppend(db, steps, [step]);
    ExecOne(Exec(db, steps), step);
  }

  const POLICY := Timing.TimingPolicy(1, 1, 2)

  /** When the first role's turn has come, any role can be reached. */
  lemma {:induction false} Reach(db: Db, sid: string, r: Role) returns (steps: seq<Step>)
    requires Turn(db, sid, Requirements)
    ensures var next := Exec(db, steps);
            Turn(next, sid, r) && next.sessions == db.sessions && next.findings == db.findings
    decreases RoleOrder(r)
  {
    hide Turn, Running, Exec, Apply, Reserve, PublishFailure;
    if r == Requirements {
      steps := [];
      ExecNone(db);
    } else {
      var before := match r case Security => QA case QA => Architecture case _ => Requirements;
      var front := Reach(db, sid, before);
      var reserve, fail := ReserveStep("", sid, 0), FailureStep(FailureOf(sid, before), 0);
      ThenOne(db, front, reserve);
      ReserveIs(Exec(db, front), sid);
      StartTurn(Exec(db, front), sid, before);
      ThenOne(db, front + [reserve], fail);
      FailureIs(Exec(db, front + [reserve]), FailureOf(sid, before));
      FailTurn(Exec(db, front + [reserve]), sid, before, r);
      steps := front + [reserve] + [fail];
    }
  }

  lemma ExecNone(db: Db)
    ensures Exec(db, []) == db
  {
  }

  lemma Start(db: Db, sid: string, r: Role) returns (steps: seq<Step>)
    requires Turn(db, sid, Requirements)
    ensures var next := Exec(db, steps);
            Running(next, sid, r) && next.sessions == db.sessions && next.findings == db.findings
  {
    hide Turn, Running, Exec, Apply, Reserve;
    var front := Reach(db, sid, r);
    steps := front + [ReserveStep("", sid, 0)];
    ThenOne(db, front, ReserveStep("", sid, 0));
    ReserveIs(Exec(db, front), sid);
    StartTurn(Exec(db, front), sid, r);
  }

  // ---- The first session, up to its report ---------------------------------------------------------------------

  /** Everything is over but for the rows: the only session is terminal, and the key is taken. */
  ghost predicate After(db: Db, sid: string, k: string)
  {
    && Inv(db) && db.sessions.Keys == {sid} && db.sessions[sid].status.IsTerminal() && db.sessions[sid].projectId == "p"
    && db.sessions[sid].key == "k1" && db.snapshots == SNAPSHOTS && k in db.findings
  }

  lemma FirstTurn(sid: string) returns (steps: seq<Step>)
    requires !Blank(sid)
    ensures var db := Exec(EMPTY, steps);
            && Turn(db, sid, Requirements) && db.sessions.Keys == {sid} && db.sessions[sid].key == "k1"
            && db.findings == map[]
  {
    hide Inv, Exec, Apply, Blank, Submit, Claim, SubmitFault, NewSession, NewRoles;
    var p := Params(sid, "k1");
    steps := [SubmitStep(p, "", 0)] + [ClaimStep(POLICY, 0)];
    ExecOne(EMPTY, SubmitStep(p, "", 0));
    SubmitIs(EMPTY, p);
    ThenOne(EMPTY, [SubmitStep(p, "", 0)], ClaimStep(POLICY, 0));
    ClaimIs(Submit(EMPTY, p, "", 0).db);
    ParamsOk(sid, "k1");
    FirstClaimed(p, 0, POLICY, 0);
    TrimEdges(sid);
    FirstTables(p, 0);
    ClaimTables(Submit(EMPTY, p, "", 0).db);
    NewTurn();
    NewFields(sid, "k1");
  }

  lemma ClaimTables(db: Db)
    ensures var next := Claim(db, POLICY, 0).db; next.snapshots == db.snapshots && next.findings == db.findings
  {
    hide IsHead, Claimable, AnyReviewing;
  }

  lemma NewTurn()
    ensures TurnOf(NewRoles(0), Requirements)
  {
    NewRolesPending(0);
    hide NewRoles;
  }

  lemma NewFields(sid: string, key: string)
    ensures Open(ClaimedSession(NewSession(Params(sid, key), 0), POLICY, 0))
    ensures ClaimedSession(NewSession(Params(sid, key), 0), POLICY, 0).key == key
  {
    NewSessionFields(Params(sid, key), 0);
  }

  lemma ParamsOk(sid: string, key: string)
    requires key != ""
    ensures SubmitFault(Params(sid, key)).None? && Params(sid, key).snapshot.units == [UNIT]
    ensures Params(sid, key).snapshot.hash == [UNIT] && Params(sid, key).snapshot.id == "snap"
    ensures Timing.ValidPolicy(POLICY)
  {
    hide CanonicalHash, Freezable;
    SnapshotFits();
  }

  lemma PublishFound(db: Db, sid: string, r: Role, id: string)
    requires Running(db, sid, r) && db.findings == map[] && !Blank(id)
    ensures var next := PublishSuccess(db, SuccessOf(sid, r, id), 0).db;
            && Inv(next) && next.sessions == db.sessions && next.snapshots == db.snapshots
            && FindingKey(sid, r, id) in next.findings
  {
    hide Inv, StepOk, Blank, Publish, RoleRunId, FindingKey, Validation.StructureOk, RefsKnown, Validation.FindingOk,
      Found;
    var p := SuccessOf(sid, r, id);
    Publications(sid, r, id);
    FoundFits(id);
    assert UnitsStored(db, "snap") == [UNIT];
    PublishEffect(db, sid, r, FoundOutcome(r, id), "", 0);
    PublishKeeps(db, Success(p), 0);
    PublishesSuccess(db, p);
    FoundRow(sid, r, id);
  }

  lemma FoundRow(sid: string, r: Role, id: string)
    ensures FindingKey(sid, r, id) in FindingRows(sid, r, [Found(id)])
  {
    hide FindingKey;
    FoundHasId(id);
  }

  lemma PublishesSuccess(db: Db, p: Validation.SuccessParams)
    ensures Publish(db, Success(p), 0) == PublishSuccess(db, p, 0)
    ensures PublishSuccess(db, p, 0).db.snapshots == db.snapshots
  {
    hide PublishFault, RoleWithId, RefsKnown, FindingRows, FindingKeys, Validation.SuccessOk;
  }

  lemma Finish(db: Db, sid: string, k: string)
    requires Inv(db) && db.sessions.Keys == {sid} && TrimSpace(sid) == sid && db.sessions[sid].key == "k1"
    requires Open(db.sessions[sid]) && db.snapshots == SNAPSHOTS && k in db.findings
    ensures var mid := Recover(db, "", "", Some(0), 0).db; After(ComposeSession(mid, "", sid, [], 0).db, sid, k)
  {
    hide Inv, StepOk, TrimSpace, Recover, ComposeSession, AllTerminal, ReportWith, Decide;
    var mid := Recover(db, "", "", Some(0), 0).db;
    RecoveryEnablesCompose(db, sid, 0, 0, [], 0);
    RecoverSessions(db, "", "", Some(0), 0);
    RecoverSnapshots(db);
    RecoverKeeps(db, "", "", Some(0), 0);
    ComposeWrites(mid, "", sid, [], 0);
    ComposeKeys(mid, "", sid, 0);
    ComposeKeepsAll(mid, "", sid, [], 0);
  }

  lemma RecoverSnapshots(db: Db)
    ensures Recover(db, "", "", Some(0), 0).db.snapshots == db.snapshots
  {
    hide RecoveryOf, RecoveredRoles, Recoverable;
  }

  lemma FirstDone(sid: string, r: Role, id: string) returns (steps: seq<Step>)
    requires !Blank(sid) && TrimSpace(sid) == sid && !Blank(id)
    ensures After(Exec(EMPTY, steps), sid, FindingKey(sid, r, id))
  {
    hide Exec, Apply, Blank, Inv, TrimSpace, FindingKey, PublishSuccess, Recover, ComposeSession, Turn, Open, After,
      SuccessOf;
    var opening := FirstTurn(sid);
    var first := Exec(EMPTY, opening);
    var reach := Start(first, sid, r);
    ExecAppend(EMPTY, opening, reach);
    var running := Exec(first, reach);
    var p := SuccessOf(sid, r, id);
    steps := opening + reach;
    ThenOne(EMPTY, steps, SuccessStep(p, 0));
    SuccessIs(running, p);
    PublishFound(running, sid, r, id);
    steps := steps + [SuccessStep(p, 0)];
    ThenOne(EMPTY, steps, RecoverStep("", "", Some(0), 0));
    RecoverIs(Exec(EMPTY, steps));
    Finish(Exec(EMPTY, steps), sid, FindingKey(sid, r, id));
    steps := steps + [RecoverStep("", "", Some(0), 0)];
    ThenOne(EMPTY, steps, ComposeStep("", sid, 0));
    ComposeIs(Exec(EMPTY, steps), sid);
    steps := steps + [ComposeStep("", sid, 0)];
  }

  // ---- The second session, up to its refusal --------------------------------------------------------------------

  lemma SubmitSecond(db: Db, sid: string, t: string, k: string)
    requires After(db, sid, k) && t != sid && !Blank(t)
    ensures var next := Submit(db, Params(t, "k2"), "", 0).db;
            && Inv(next) && next.sessions == db.sessions[t := NewSession(Params(t, "k2"), 0)]
            && RolesOf(next, t) == NewRoles(0) && next.snapshots == SNAPSHOTS && k in next.findings
  {
    hide Inv, StepOk, Submit, SubmitFault, NewSession, NewRoles, UnitKeys;
    var p := Params(t, "k2");
    TrimEdges(t);
    ParamsOk(t, "k2");
    KeyIsFree(db, sid);
    SubmitTakesAnyId(db, p, "", 0);
    Insertion(db, p, "", 0);
    SubmitKeeps(db, p, "", 0);
  }

  lemma KeyIsFree(db: Db, sid: string)
    requires Inv(db) && db.sessions.Keys == {sid} && db.sessions[sid].key == "k1"
    ensures ("p", "k2") !in db.keys
  {
    hide SessionsOk, SnapshotsOk, FindingsOk, OneReviewing;
    assert "k1"[1] != "k2"[1];
  }

  lemma ClaimSecond(db: Db, sid: string, t: string)
    requires Inv(db) && t != sid && !Blank(t) && db.sessions.Keys == {sid, t} && db.sessions[sid].status.IsTerminal()
    requires db.sessions[t] == NewSession(Params(t, "k2"), 0) && RolesOf(db, t) == NewRoles(0)
    requires db.snapshots == SNAPSHOTS
    ensures var next := Claim(db, POLICY, 0).db;
            Turn(next, t, Requirements) && next.sessions.Keys == {sid, t} && next.findings == db.findings
  {
    hide Inv, StepOk, Claim, NewSession, NewRoles, Blank, IsHead, HeadReady, AnyReviewing, Open;
    NewSessionFields(Params(t, "k2"), 0);
    SecondQueued(db, sid, t);
    ClaimExact(db, POLICY, 0, t);
    ClaimKeepsAll(db, POLICY, 0);
    ClaimTables(db);
    NewTurn();
    NewFields(t, "k2");
  }

  lemma SecondQueued(db: Db, sid: string, t: string)
    requires db.sessions.Keys == {sid, t} && db.sessions[sid].status.IsTerminal() && !Blank(t)
    requires db.sessions[t] == NewSession(Params(t, "k2"), 0)
    ensures IsHead(db, t) && HeadReady(db, t, 0) && !AnyReviewing(db)
  {
    hide Blank, IsHead, HeadReady, AnyReviewing, NewSession;
    NewSessionFields(Params(t, "k2"), 0);
    OnlyOneQueued(db, t, 0);
  }

  // ---- The two together -----------------------------------------------------------------------------------------

  lemma SecondTurn(db: Db, sid: string, t: string, k: string) returns (steps: seq<Step>)
    requires After(db, sid, k) && t != sid && !Blank(t)
    ensures var next := Exec(db, steps);
            Turn(next, t, Requirements) && next.sessions.Keys == {sid, t} && k in next.findings
  {
    hide Inv, Exec, Apply, Blank, Submit, Claim, NewSession, NewRoles, Turn;
    var p := Params(t, "k2");
    SubmitSecond(db, sid, t, k);
    ExecOne(db, SubmitStep(p, "", 0));
    SubmitIs(db, p);
    ThenOne(db, [SubmitStep(p, "", 0)], ClaimStep(POLICY, 0));
    ClaimIs(Submit(db, p, "", 0).db);
    ClaimSecond(Submit(db, p, "", 0).db, sid, t);
    steps := [SubmitStep(p, "", 0)] + [ClaimStep(POLICY, 0)];
  }

  lemma RefusedRunning(db: Db, t: string, r: Role, id: string)
    requires Running(db, t, r) && FindingKey(t, r, id) in db.findings && !Blank(id)
    ensures Validation.SuccessOk(SuccessOf(t, r, id))
    ensures PublishSuccess(db, SuccessOf(t, r, id), 0) == Outcome(db, DuplicateFinding)
  {
    hide Inv, Blank, RoleRunId, FindingKey, Validation.StructureOk, RefsKnown, Validation.FindingOk, Found,
      PublishFault, RoleWithId;
    FoundFits(id);
    FoundHasId(id);
    NoPublishFault(db, t, r, 0);
    RunIdFound(db, t, r);
    RunIdNotBlank(t, r);
    assert UnitsStored(db, "snap") == [UNIT];
    assert Found(id) in SuccessOf(t, r, id).findings;
    assert FindingKey(t, r, id) in FindingKeys(t, r, SuccessOf(t, r, id).findings) * db.findings.Keys;
  }

  /**
   * The first session, composed with one finding, keeps the second from ever publishing its own, although nothing is
   * wrong with it: the two have the same key. The run that leads there starts from an empty database.
   */
  lemma ClashReached(s: string, a: Role, f: string, t: string, b: Role, g: string) returns (steps: seq<Step>)
    requires SameKey(s, a, f, t, b, g) && s != t
    requires !Blank(s) && TrimSpace(s) == s && !Blank(t) && !Blank(f) && !Blank(g)
    ensures var db, p := Exec(EMPTY, steps), SuccessOf(t, b, g);
            && db.sessions.Keys == {s, t} && Running(db, t, b) && Validation.SuccessOk(p)
            && PublishSuccess(db, p, 0) == Outcome(db, DuplicateFinding)
  {
    hide Exec, Blank, Inv, TrimSpace, FindingKey, PublishSuccess, Turn, Open, After, SuccessOf, Running,
      Validation.SuccessOk;
    var first := FirstDone(s, a, f);
    var after := Exec(EMPTY, first);
    var k := FindingKey(s, a, f);
    var second := SecondTurn(after, s, t, k);
    ExecAppend(EMPTY, first, second);
    var turn := Exec(after, second);
    var third := Start(turn, t, b);
    ExecAppend(EMPTY, first + second, third);
    steps := first + second + third;
    RefusedRunning(Exec(turn, third), t, b, g);
  }

  // ---- Exactly which sessions clash -----------------------------------------------------------------------------

  /** A run with these two sessions and no other, after which a publication of one of them is refused. */
  ghost predicate Clash(steps: seq<Step>, p: Validation.SuccessParams, at: Instant, s: string, t: string)
  {
    Exec(EMPTY, steps).sessions.Keys == {s, t} && Refused(Exec(EMPTY, steps), p, at)
  }

  lemma LastNotSpace(x: string)
    requires x != "" && x[|x| - 1] == 'y'
    ensures !Blank(x)
  {
    TrimEdges(x);
  }

  /** Of two sessions that meet, each has a finding with a key of the other's. */
  lemma MeetingFindings(s: string, t: string) returns (a: Role, f: string, b: Role, g: string)
    requires Extends(t, s)
    ensures SameKey(s, a, f, t, b, g) && !Blank(f) && !Blank(g)
  {
    hide Extends, Blank;
    b, g := QA, "y";
    a, f := ExtendedKey(s, t, b, g);
    var k := FindingKey(s, a, f);
    assert k == FindingKey(t, b, g) && k[|k| - 1] == 'y';
    assert k == (RoleRunId(s, a) + ":") + f;
    if f == "" {
      assert false;
    }
    assert k[|k| - 1] == f[|f| - 1];
    LastNotSpace(f);
    LastNotSpace(g);
  }

  lemma AnyMeeting(s: string, t: string) returns (a: Role, f: string, b: Role, g: string)
    requires !Apart(s, t)
    ensures SameKey(s, a, f, t, b, g) && !Blank(f) && !Blank(g)
  {
    hide Extends, Blank, SameKey;
    if Extends(t, s) {
      a, f, b, g := MeetingFindings(s, t);
    } else {
      b, g, a, f := MeetingFindings(t, s);
      SameKeyBack(t, b, g, s, a, f);
    }
  }

  lemma ClashHappens(s: string, t: string) returns (steps: seq<Step>, p: Validation.SuccessParams)
    requires s != t && CanClash(s, t)
    ensures Clash(steps, p, 0, s, t)
  {
    hide Apart, Blank, TrimSpace, SameKey, Exec, PublishSuccess, Running, SuccessOf, Validation.SuccessOk;
    var a, f, b, g := AnyMeeting(s, t);
    if TrimSpace(s) == s {
      steps := ClashReached(s, a, f, t, b, g);
      p := SuccessOf(t, b, g);
    } else {
      SameKeyBack(s, a, f, t, b, g);
      steps := ClashReached(t, b, g, s, a, f);
      p := SuccessOf(s, a, f);
    }
  }

  /**
   * Two sessions can get in each other's way, in some run from an empty database, if and only if the ID of one extends
   * a run ID of the other, neither is blank, and trimming leaves one of them as it is.
   */
  lemma ClashExactly(s: string, t: string)
    requires s != t
    ensures (exists steps, p, at :: Clash(steps, p, at, s, t)) <==> CanClash(s, t)
  {
    hide CanClash, Exec, Refused;
    if CanClash(s, t) {
      var steps, p := ClashHappens(s, t);
    }
    if steps, p, at :| Clash(steps, p, at, s, t) {
      var other := RefusedMeansClash(steps, p, at);
      ClashBack(p.sessionId, other);
      assert other in {s, t} && p.sessionId in {s, t};
    }
  }

  lemma ClashBack(s: string, t: string)
    ensures CanClash(s, t) ==> CanClash(t, s)
  {
    hide Extends, Blank, TrimSpace;
  }

  /** For example "s" and "s:qa:x". */
  lemma SomeClash()
    ensures CanClash("s", "s:qa:x")
  {
    hide Extends;
    FindingKeysCollide();
    SomethingOpens();
    TrimEdges("s");
    TrimEdges("s:qa:x");
    assert "s"[0] == 's' && "s:qa:x"[0] == 's';
  }
}
