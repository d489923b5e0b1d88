/** Every transaction keeps the invariant and follows the transition tables. */
module DbSteps {
  import opened Options
  import opened Text
  import opened Domain
  import opened Evidence
  import opened Composer
  import opened RequestHash
  import opened Timestamps
  import opened Records
  import opened Database
  import opened DbInvariant
  import Timing
  import Validation

  lemma AtSession(db: Db, sid: string)
    requires Inv(db) && sid in db.sessions
    ensures sid in db.roles && RolesOf(db, sid) == db.roles[sid] && SessionOk(db.sessions[sid], db.roles[sid])
  {
    hide SessionOk, SnapshotsOk, FindingsOk, OneReviewing;
  }

  /** A step that touches the role rows of one session only. */
  lemma OnlyRoles(db: Db, sid: string, rs: RoleMap)
    requires Inv(db) && sid in db.sessions && sid in db.roles
    requires SessionOk(db.sessions[sid], rs) && RolesStep(db.sessions[sid], db.roles[sid], rs)
    ensures Inv(WithRoles(db, sid, rs)) && StepOk(db, WithRoles(db, sid, rs))
  {
    hide Inv, StepOk, SessionOk, RolesStep;
    SameSession(db.sessions[sid]);
    OneSession(db, sid, db.sessions[sid], rs);
    assert db.sessions[sid := db.sessions[sid]] == db.sessions;
  }

  lemma ReserveKeeps(db: Db, project: string, sid: string, now: Instant)
    requires Inv(db)
    ensures var next := Reserve(db, project, sid, now).db; Inv(next) && StepOk(db, next)
  {
    hide Inv, StepOk, SessionOk, RolesStep, Blank, CountOf, Started;
    NoChange(db);
    var o := Reserve(db, project, sid, now);
    if o.result.Reserved? {
      AtSession(db, sid);
      var rs, r := db.roles[sid], o.result.role;
      FirstOfMeaning(rs, Pending, r);
      StartKeeps(db.sessions[sid], rs, r, now);
      OnlyRoles(db, sid, rs[r := Started(rs[r], now)]);
    }
  }

  lemma SweepKeepsAll(db: Db, sid: string, cause: InterruptCause, now: Instant)
    requires Inv(db) && sid in db.sessions && db.sessions[sid].status.Reviewing?
    requires cause == UserCancelled ==> db.sessions[sid].cancelRequested
    requires cause == DeadlineCutoff ==> db.sessions[sid].cutoffAt.Some? && now >= db.sessions[sid].cutoffAt.value
    ensures var next := Sweep(db, sid, cause, now).db; Inv(next) && StepOk(db, next)
  {
    hide Inv, StepOk, SessionOk, RolesStep, CountOf, SweptRun, RunStep, RoleRunRowOk, RunFollows;
    NoChange(db);
    AtSession(db, sid);
    var s, rs := db.sessions[sid], db.roles[sid];
    var next := SweepPending(rs, cause, now);
    RowsOk(s, rs);
    forall r | r in rs
      ensures RoleRunRowOk(next[r]) && RunFollows(next[r], s) && RunStep(s, rs[r], next[r])
      ensures next[r].status.InFlight? ==> rs[r].status.InFlight?
    {
      SweptRunKeeps(rs[r], s, cause, now);
    }
    SweepKeeps(s, rs, next);
    OnlyRoles(db, sid, next);
  }

  lemma RowsOk(s: Session, rs: RoleMap)
    requires SessionOk(s, rs)
    ensures forall r :: r in rs ==> RoleRunRowOk(rs[r]) && RunFollows(rs[r], s)
    ensures SessionRowOk(s)
  {
    hide RoleRunRowOk, RunFollows, Coupled;
  }

  lemma SweepCancellationKeeps(db: Db, project: string, sid: string, now: Instant)
    requires Inv(db)
    ensures var next := SweepCancellation(db, project, sid, now).db; Inv(next) && StepOk(db, next)
  {
    hide Inv, StepOk, Blank, Sweep, CountOf;
    NoChange(db);
    if Scoped(db, project, sid) && db.sessions[sid].status.Reviewing? && db.sessions[sid].cancelRequested {
      SweepKeepsAll(db, sid, UserCancelled, now);
    }
  }

  lemma SweepCutoffKeeps(db: Db, project: string, sid: string, now: Instant)
    requires Inv(db)
    ensures var next := SweepCutoff(db, project, sid, now).db; Inv(next) && StepOk(db, next)
  {
    hide Inv, StepOk, Blank, Sweep, CountOf;
    NoChange(db);
    if Scoped(db, project, sid) {
      var s := db.sessions[sid];
      if s.status.Reviewing? && s.cutoffAt.Some? && now >= s.cutoffAt.value {
        SweepKeepsAll(db, sid, DeadlineCutoff, now);
      }
    }
  }

  lemma SweepHardDeadlineKeeps(db: Db, project: string, sid: string, now: Instant)
    requires Inv(db)
    ensures var next := SweepHardDeadline(db, project, sid, now).db; Inv(next) && StepOk(db, next)
  {
    hide Inv, StepOk, Blank, Sweep, CountOf, SessionOk;
    NoChange(db);
    if Scoped(db, project, sid) {
      var s := db.sessions[sid];
      if s.status.Reviewing? && s.deadlineAt.Some? && now >= s.deadlineAt.value {
        AtSession(db, sid);
        RowsOk(s, db.roles[sid]);
        SweepKeepsAll(db, sid, DeadlineCutoff, now);
      }
    }
  }

  lemma CancellationKeeps(db: Db, project: string, sid: string)
    requires Inv(db)
    ensures var next := RequestCancellation(db, project, sid).db; Inv(next) && StepOk(db, next)
  {
    hide Inv, StepOk, Blank, SessionOk, RolesStep, SessionStep;
    NoChange(db);
    if Scoped(db, project, sid) && !db.sessions[sid].status.IsTerminal() {
      AtSession(db, sid);
      var s, rs := db.sessions[sid], db.roles[sid];
      CancelKeeps(s, rs);
      SameRoles(s, rs);
      OneSession(db, sid, s.(cancelRequested := true), rs);
      assert db.roles[sid := db.roles[sid]] == db.roles;
    }
  }

  lemma SameRoles(s: Session, rs: RoleMap)
    ensures RolesStep(s, rs, rs)
  {
  }

  lemma ComposeKeepsAll(db: Db, project: string, rawId: string, keys: seq<string>, now: Instant)
    requires Inv(db) && forall k :: k in keys ==> k in db.findings
    ensures var next := ComposeSession(db, project, rawId, keys, now).db; Inv(next) && StepOk(db, next)
  {
    hide Inv, StepOk, TrimSpace, SessionOk, RolesStep, SessionStep, CountOf, Decide, ComposedSession, Composable,
      ReadReport;
    NoChange(db);
    var sid := TrimSpace(rawId);
    if Scoped(db, project, sid) && db.sessions[sid].status.Reviewing? {
      AtSession(db, sid);
      var s, rs := db.sessions[sid], db.roles[sid];
      if AllRoles(rs) && CountOf(rs, Pending) + CountOf(rs, InFlight) == 0 {
        ComposeKeeps(s, rs, now);
        SameRoles(s, rs);
        Composes(s, rs, now);
        OneSession(db, sid, ComposedSession(s, Decide(RowsOf(rs)), now), rs);
        assert db.roles[sid := db.roles[sid]] == db.roles;
      }
    }
  }

  lemma Composes(s: Session, rs: RoleMap, now: Instant)
    requires AllRoles(rs)
    ensures !ComposedSession(s, Decide(RowsOf(rs)), now).status.Reviewing?
  {
    VerdictTerminal(RowsOf(rs));
  }

  lemma ClaimKeepsAll(db: Db, policy: Timing.TimingPolicy, now: Instant)
    requires Inv(db)
    ensures var next := Claim(db, policy, now).db; Inv(next) && StepOk(db, next)
  {
    hide Inv, StepOk, Blank, SessionOk, RolesStep, SessionStep, CountOf, IsHead, AnyReviewing;
    NoChange(db);
    var o := Claim(db, policy, now);
    if o.result.Claimed? {
      var sid := o.result.id;
      AtSession(db, sid);
      var s, rs := db.sessions[sid], db.roles[sid];
      ClaimKeeps(s, rs, policy, now);
      SameRoles(s, rs);
      OneSession(db, sid, ClaimedSession(s, policy, now), rs);
      assert db.roles[sid := db.roles[sid]] == db.roles;
    }
  }

  // ---- Publication ------------------------------------------------------------------------

  /** Publish never looks at the session's status: only a reviewing session has a role in flight. */
  lemma InFlightMeansReviewing(s: Session, rs: RoleMap, r: Role)
    requires SessionOk(s, rs) && Is(rs, r, InFlight)
    ensures s.status.Reviewing?
  {
    hide RoleRunRowOk, RunFollows, SessionRowOk;
    match r
    case Requirements =>
    case Architecture =>
    case QA =>
    case Security =>
  }

  lemma FinishedRunOk(run: RoleRun, s: Session, next: RoleRun, now: Instant)
    requires RoleRunRowOk(run) && RunFollows(run, s) && run.status.InFlight?
    requires run.startedAt.Some? ==> now >= run.startedAt.value
    requires (next == CompletedRun(run, next.callCount, now) && 1 <= next.callCount <= 2)
             || exists p: Validation.FailureParams :: Validation.FailureOk(p) && next == FailedRun(run, p, now)
    ensures RoleRunRowOk(next) && RunFollows(next, s) && RunStep(s, run, next) && !next.status.InFlight?
  {
    hide Blank;
  }

  lemma FaultFree(db: Db, project: string, sid: string, rid: string, role: Option<Role>, now: Instant)
    requires Inv(db) && PublishFault(db, project, sid, rid, role, now).None?
    ensures sid in db.sessions && sid in db.roles && RoleWithId(db, sid, rid).Some?
    ensures var s, rs, r := db.sessions[sid], db.roles[sid], RoleWithId(db, sid, rid).value;
            && SessionOk(s, rs) && s.status.Reviewing? && Is(rs, r, InFlight) && RolesOf(db, sid) == rs
            && RoleRunRowOk(rs[r]) && RunFollows(rs[r], s)
            && (rs[r].startedAt.Some? ==> now >= rs[r].startedAt.value)
            && rid == RoleRunId(sid, r)
  {
    hide Inv, RoleRunRowOk, RunFollows, RoleRunId, SessionOk;
    AtSession(db, sid);
    var r := RoleWithId(db, sid, rid).value;
    RowsOk(db.sessions[sid], db.roles[sid]);
    InFlightMeansReviewing(db.sessions[sid], db.roles[sid], r);
  }

  lemma FinishKeepsAll(db: Db, sid: string, r: Role, run: RoleRun)
    requires Inv(db) && sid in db.sessions && sid in db.roles && Is(db.roles[sid], r, InFlight)
    requires RoleRunRowOk(run) && RunFollows(run, db.sessions[sid]) && RunStep(db.sessions[sid], db.roles[sid][r], run)
    requires !run.status.InFlight?
    ensures Inv(SetRun(db, sid, r, run)) && StepOk(db, SetRun(db, sid, r, run))
  {
    hide Inv, StepOk, SessionOk, RolesStep, RunStep, RoleRunRowOk, RunFollows;
    AtSession(db, sid);
    InFlightMeansReviewing(db.sessions[sid], db.roles[sid], r);
    FinishKeeps(db.sessions[sid], db.roles[sid], r, run);
    OnlyRoles(db, sid, db.roles[sid][r := run]);
  }

  lemma PublishFailureKeeps(db: Db, p: Validation.FailureParams, now: Instant)
    requires Inv(db)
    ensures var next := PublishFailure(db, p, now).db; Inv(next) && StepOk(db, next)
  {
    hide Inv, StepOk, SessionOk, RunStep, RoleRunRowOk, RunFollows, PublishFault, RoleWithId, FailedRun, RoleRunId,
      Blank;
    NoChange(db);
    if Validation.FailureOk(p) && PublishFault(db, p.projectId, p.sessionId, p.roleRunId, p.role, now).None? {
      FaultFree(db, p.projectId, p.sessionId, p.roleRunId, p.role, now);
      var sid, r := p.sessionId, RoleWithId(db, p.sessionId, p.roleRunId).value;
      var run := db.roles[sid][r];
      FinishedRunOk(run, db.sessions[sid], FailedRun(run, p, now), now);
      FinishKeepsAll(db, sid, r, FailedRun(run, p, now));
    }
  }

  lemma {:induction false} FindingRowsMeaning(sid: string, role: Role, fs: seq<Finding>)
    ensures FindingRows(sid, role, fs).Keys == FindingKeys(sid, role, fs)
    ensures forall k :: k in FindingRows(sid, role, fs) ==>
              var row := FindingRows(sid, role, fs)[k];
              row.sessionId == sid && row.role == role && row.finding in fs
                && k == FindingKey(sid, role, row.finding.id)
  {
    hide FindingKey;
    if fs != [] {
      var front, last := fs[..|fs| - 1], fs[|fs| - 1];
      FindingRowsMeaning(sid, role, front);
      assert forall f :: f in fs <==> f in front || f == last;
      assert FindingKeys(sid, role, fs) == FindingKeys(sid, role, front) + {FindingKey(sid, role, last.id)};
    }
  }

  /** Every finding that passes the checks of a publication fits its table: no trigger or check aborts it. */
  lemma PublishedFindingFits(id: string, units: seq<Unit>, fs: seq<Finding>, f: Finding)
    requires Freezable(id, units) && Validation.StructureOk(fs) && f in fs
    requires forall g :: g in fs ==> RefsKnown(units, g)
    ensures Validation.FindingOk(f) && Validation.TableRowOk(f)
  {
    hide Freezable, Validation.TableRowOk, Validation.FindingOk;
    assert Validation.CitesAll(fs, Frozen(id, units)) by {
      forall g | g in fs ensures Validation.Cites(g, Frozen(id, units)) {
        assert RefsKnown(units, g);
      }
    }
    Validation.AcceptedTableRowOk(fs, id, units, f);
  }

  lemma AddFindings(db: Db, mid: Db, sid: string, role: Role, fs: seq<Finding>)
    requires Inv(mid) && sid in mid.sessions && Is(RolesOf(mid, sid), role, RoleComplete)
    requires StepOk(db, mid) && mid.findings == db.findings && Is(RolesOf(db, sid), role, InFlight)
    requires FindingKeys(sid, role, fs) * mid.findings.Keys == {}
    requires Validation.StructureOk(fs)
    requires forall f :: f in fs ==> RefsKnown(UnitsStored(mid, mid.sessions[sid].snapshotId), f)
    ensures var next := mid.(findings := mid.findings + FindingRows(sid, role, fs)); Inv(next) && StepOk(db, next)
  {
    hide KeysAgree, SessionsOk, OneReviewing, SnapshotsOk, FindingsOk, StepOk, Is, Validation.StructureOk, RefsKnown,
      FindingKeys, FindingRows;
    SameTables(mid, mid.(findings := mid.findings + FindingRows(sid, role, fs)));
    AddedFindingsOk(mid, sid, role, fs);
    AddedFindingsStep(db, mid, sid, role, fs);
  }

  lemma SameTables(a: Db, b: Db)
    requires b == a.(findings := b.findings)
    ensures KeysAgree(a) ==> KeysAgree(b)
    ensures SessionsOk(a) ==> SessionsOk(b)
    ensures OneReviewing(a) ==> OneReviewing(b)
    ensures SnapshotsOk(a) ==> SnapshotsOk(b)
  {
    hide SessionOk, Freezable, CanonicalHash;
  }

  lemma AddedFindingsOk(mid: Db, sid: string, role: Role, fs: seq<Finding>)
    requires FindingsOk(mid) && SnapshotsOk(mid) && sid in mid.sessions && Is(RolesOf(mid, sid), role, RoleComplete)
    requires Validation.StructureOk(fs)
    requires forall f :: f in fs ==> RefsKnown(UnitsStored(mid, mid.sessions[sid].snapshotId), f)
    ensures FindingsOk(mid.(findings := mid.findings + FindingRows(sid, role, fs)))
  {
    hide Freezable, CanonicalHash, Validation.FindingOk, Validation.TableRowOk, RefsKnown, FindingKey,
      Validation.StructureOk, FindingRows, Is;
    var next := mid.(findings := mid.findings + FindingRows(sid, role, fs));
    FindingRowsMeaning(sid, role, fs);
    var snapshotId := mid.sessions[sid].snapshotId;
    assert Freezable(snapshotId, UnitsStored(mid, snapshotId));
    forall k | k in next.findings ensures FindingOk(next, k) {
      if k in FindingRows(sid, role, fs) {
        PublishedFindingFits(snapshotId, UnitsStored(mid, snapshotId), fs, next.findings[k].finding);
      } else {
        assert FindingOk(mid, k);
      }
    }
  }

  lemma Disjoint(a: set<string>, b: set<string>)
    requires a * b == {}
    ensures forall k :: k in b ==> k !in a
  {
    assert forall k :: k in b && k in a ==> k in a * b;
  }

  lemma AddedFindingsStep(db: Db, mid: Db, sid: string, role: Role, fs: seq<Finding>)
    requires StepOk(db, mid) && mid.findings == db.findings && Is(RolesOf(db, sid), role, InFlight)
    requires FindingKeys(sid, role, fs) * mid.findings.Keys == {}
    ensures StepOk(db, mid.(findings := mid.findings + FindingRows(sid, role, fs)))
  {
    hide SessionStep, RunStep, FindingRows, FindingKeys, FindingKey, Is;
    FindingRowsMeaning(sid, role, fs);
    var rows := FindingRows(sid, role, fs);
    Disjoint(rows.Keys, mid.findings.Keys);
  }

  lemma PublishSuccessKeeps(db: Db, p: Validation.SuccessParams, now: Instant)
    requires Inv(db)
    ensures var next := PublishSuccess(db, p, now).db; Inv(next) && StepOk(db, next)
  {
    hide Inv, StepOk, SessionOk, RunStep, RoleRunRowOk, RunFollows, PublishFault, RoleWithId, RoleRunId, Blank,
      FindingKeys, FindingRows, RefsKnown, Validation.StructureOk;
    NoChange(db);
    var o := PublishSuccess(db, p, now);
    if o.result.Published? && o.db != db {
      FaultFree(db, p.projectId, p.sessionId, p.roleRunId, p.role, now);
      var sid, r := p.sessionId, RoleWithId(db, p.sessionId, p.roleRunId).value;
      var run := db.roles[sid][r];
      FinishedRunOk(run, db.sessions[sid], CompletedRun(run, p.callCount, now), now);
      FinishKeepsAll(db, sid, r, CompletedRun(run, p.callCount, now));
      var mid := SetRun(db, sid, r, CompletedRun(run, p.callCount, now));
      AddFindings(db, mid, sid, r, p.findings);
    }
  }

  // ---- Restart recovery ------------------------------------------------------------------------

  lemma RecoveredSessionKeeps(s: Session, rs: RoleMap, now: Instant)
    requires SessionOk(s, rs) && s.status.Reviewing?
    ensures SessionOk(s, RecoveredRoles(rs, s, now)) && RolesStep(s, rs, RecoveredRoles(rs, s, now))
    ensures AllTerminal(RecoveredRoles(rs, s, now))
  {
    hide SessionOk, RolesStep, RecoveredRun, RoleRunRowOk, RunFollows, RunStep;
    var next := RecoveredRoles(rs, s, now);
    RowsOk(s, rs);
    forall r | r in rs
      ensures RoleRunRowOk(next[r]) && RunFollows(next[r], s) && RunStep(s, rs[r], next[r])
      ensures next[r].status.IsTerminal()
    {
      RecoveredRunKeeps(rs[r], s, now);
    }
    SweepKeeps(s, rs, next);
  }

  lemma RecoverRows(db: Db, project: string, only: string, cutoff: Instant, now: Instant)
    requires Inv(db)
    ensures db.roles.Keys == db.sessions.Keys
    ensures var next := RecoverAll(db, project, only, cutoff, now);
            && next.roles.Keys == db.roles.Keys
            && forall sid :: sid in db.roles ==>
                 SessionOk(db.sessions[sid], next.roles[sid])
                 && RolesStep(db.sessions[sid], db.roles[sid], next.roles[sid])
  {
    hide Inv, SessionOk, RolesStep, RecoveredRoles;
    var next := RecoverAll(db, project, only, cutoff, now);
    assert db.roles.Keys == db.sessions.Keys by { InvKeys(db); }
    forall sid | sid in db.roles
      ensures SessionOk(db.sessions[sid], next.roles[sid])
      ensures RolesStep(db.sessions[sid], db.roles[sid], next.roles[sid])
    {
      AtSession(db, sid);
      if Recoverable(db, project, only, cutoff, sid) {
        RecoveredSessionKeeps(db.sessions[sid], db.roles[sid], now);
      } else {
        SameRoles(db.sessions[sid], db.roles[sid]);
      }
    }
  }

  lemma InvKeys(db: Db)
    requires Inv(db)
    ensures db.roles.Keys == db.sessions.Keys
  {
  }

  lemma OtherRolesKeep(db: Db, next: Db)
    requires Inv(db) && next == db.(roles := next.roles) && next.roles.Keys == db.roles.Keys == db.sessions.Keys
    requires forall sid :: sid in db.roles ==>
             SessionOk(db.sessions[sid], next.roles[sid]) && RolesStep(db.sessions[sid], db.roles[sid], next.roles[sid])
    ensures Inv(next) && StepOk(db, next)
  {
    hide KeysAgree, SessionsOk, OneReviewing, SnapshotsOk, FindingsOk, StepOk, SessionOk, RolesStep;
    OtherKeys(db, next);
    OtherTables(db, next);
    OtherFindings(db, next);
    OtherStep(db, next);
  }

  lemma OtherKeys(db: Db, next: Db)
    requires next == db.(roles := next.roles) && next.roles.Keys == db.roles.Keys
    ensures KeysAgree(db) ==> KeysAgree(next)
    ensures OneReviewing(db) ==> OneReviewing(next)
  {
  }

  lemma OtherTables(db: Db, next: Db)
    requires SnapshotsOk(db) && SessionsOk(db) && next == db.(roles := next.roles)
    requires next.roles.Keys == db.roles.Keys == db.sessions.Keys
    requires forall sid :: sid in db.roles ==> SessionOk(db.sessions[sid], next.roles[sid])
    ensures SnapshotsOk(next) && SessionsOk(next)
  {
    hide SessionOk, Freezable, CanonicalHash;
  }

  lemma OtherFindings(db: Db, next: Db)
    requires FindingsOk(db) && next == db.(roles := next.roles) && next.roles.Keys == db.roles.Keys == db.sessions.Keys
    requires forall sid :: sid in db.roles ==> RolesStep(db.sessions[sid], db.roles[sid], next.roles[sid])
    ensures FindingsOk(next)
  {
    hide Validation.FindingOk, Validation.TableRowOk, RefsKnown, FindingKey;
    forall k | k in next.findings ensures FindingOk(next, k) {
      var row := db.findings[k];
      assert FindingOk(db, k);
      assert RolesStep(db.sessions[row.sessionId], db.roles[row.sessionId], next.roles[row.sessionId]);
      assert RunStep(db.sessions[row.sessionId], db.roles[row.sessionId][row.role],
                     next.roles[row.sessionId][row.role]);
    }
  }

  lemma OtherStep(db: Db, next: Db)
    requires next == db.(roles := next.roles) && next.roles.Keys == db.roles.Keys == db.sessions.Keys
    requires forall sid :: sid in db.roles ==> RolesStep(db.sessions[sid], db.roles[sid], next.roles[sid])
    ensures StepOk(db, next)
  {
    hide SessionStep, RunStep;
    forall sid | sid in db.sessions ensures SessionStep(db.sessions[sid], next.sessions[sid]) {
      SameSession(db.sessions[sid]);
    }
    forall sid, r | sid in db.sessions && sid in db.roles && r in db.roles[sid]
      ensures r in next.roles[sid] && RunStep(db.sessions[sid], db.roles[sid][r], next.roles[sid][r])
    {
      assert RolesStep(db.sessions[sid], db.roles[sid], next.roles[sid]);
    }
  }

  lemma RecoverKeeps(db: Db, project: string, only: string, cutoff: Option<Instant>, now: Instant)
    requires Inv(db)
    ensures var next := Recover(db, project, only, cutoff, now).db; Inv(next) && StepOk(db, next)
  {
    hide Inv, StepOk, SessionOk, RolesStep, RecoveryOf, Recoverable, RecoveredRoles;
    NoChange(db);
    if cutoff.Some? {
      InvKeys(db);
      RecoverRows(db, project, only, cutoff.value, now);
      OtherRolesKeep(db, RecoverAll(db, project, only, cutoff.value, now));
    }
  }

  // ---- Submission -----------------------------------------------------------------------------

  lemma NewSessionFields(p: SubmitParams, createdAt: Instant)
    ensures var s := NewSession(p, createdAt);
            && s.projectId == p.projectId && s.key == p.key && s.snapshotId == p.snapshot.id && s.status.Queued?
            && s.createdAt == createdAt
    ensures SessionRowOk(NewSession(p, createdAt))
  {
    hide Buffer;
  }

  lemma NewRolesPending(createdAt: Instant)
    ensures AllRoles(NewRoles(createdAt)) && forall r: Role :: NewRoles(createdAt)[r] == NewRun(createdAt)
    ensures CountOf(NewRoles(createdAt), Pending) == |ROLES|
  {
    forall r: Role ensures r in NewRoles(createdAt) && NewRoles(createdAt)[r] == NewRun(createdAt) {
      match r
      case Requirements =>
      case Architecture =>
      case QA =>
      case Security =>
    }
  }

  lemma NewSessionOk(p: SubmitParams, createdAt: Instant)
    ensures SessionOk(NewSession(p, createdAt), NewRoles(createdAt))
  {
    NewSessionFields(p, createdAt);
    NewRolesPending(createdAt);
    hide NewSession, NewRoles, CountOf, SessionRowOk;
  }

  /** The snapshot columns after a submission. */
  predicate SnapshotStored(db: Db, next: Db, p: SubmitParams)
  {
    if p.snapshot.id in db.snapshots then next.snapshots == db.snapshots && next.unitKeys == db.unitKeys
    else next.snapshots == db.snapshots[p.snapshot.id := StoredSnapshot(p.snapshot.hash, p.snapshot.units)]
         && next.unitKeys == db.unitKeys + UnitKeys(p.snapshot)
  }

  predicate IsInserted(db: Db, next: Db, p: SubmitParams, sid: string, createdAt: Instant)
  {
    && SnapshotStored(db, next, p)
    && next.sessions == db.sessions[sid := NewSession(p, createdAt)]
      && next.keys == db.keys[(p.projectId, p.key) := sid]
    && next.roles == db.roles[sid := NewRoles(createdAt)] && next.findings == db.findings
  }

  lemma InsertedKeys(db: Db, next: Db, p: SubmitParams, sid: string, createdAt: Instant)
    requires KeysAgree(db) && IsInserted(db, next, p, sid, createdAt) && sid !in db.sessions
    requires (p.projectId, p.key) !in db.keys
    ensures KeysAgree(next)
  {
    NewSessionFields(p, createdAt);
    hide NewSession, NewRoles, SnapshotStored;
  }

  lemma InsertedSessions(db: Db, next: Db, p: SubmitParams, sid: string, createdAt: Instant)
    requires SessionsOk(db) && IsInserted(db, next, p, sid, createdAt) && sid !in db.sessions && sid != ""
    ensures SessionsOk(next)
    ensures OneReviewing(db) ==> OneReviewing(next)
  {
    NewSessionFields(p, createdAt);
    hide NewSession, NewRoles, SnapshotStored, SessionOk;
    NewSessionOk(p, createdAt);
  }

  lemma InsertedSnapshots(db: Db, next: Db, p: SubmitParams, sid: string, createdAt: Instant)
    requires SnapshotsOk(db) && IsInserted(db, next, p, sid, createdAt) && SubmitFault(p).None?
    ensures SnapshotsOk(next)
  {
    NewSessionFields(p, createdAt);
    hide NewSession, NewRoles, Freezable, CanonicalHash, UnitKey;
  }

  lemma InsertedFindings(db: Db, next: Db, p: SubmitParams, sid: string, createdAt: Instant)
    requires FindingsOk(db) && SnapshotsOk(db) && IsInserted(db, next, p, sid, createdAt) && sid !in db.sessions
    ensures FindingsOk(next)
  {
    NewSessionFields(p, createdAt);
    hide NewSession, NewRoles, Freezable, CanonicalHash, UnitKey, Validation.FindingOk, Validation.TableRowOk,
      RefsKnown, FindingKey;
    forall k | k in next.findings ensures FindingOk(next, k) {
      assert FindingOk(db, k);
    }
  }

  lemma InsertedStep(db: Db, next: Db, p: SubmitParams, sid: string, createdAt: Instant)
    requires IsInserted(db, next, p, sid, createdAt) && sid !in db.sessions && sid !in db.roles
    requires (p.projectId, p.key) !in db.keys
    ensures StepOk(db, next)
  {
    hide NewSession, NewRoles, SessionStep, RunStep, UnitKeys;
    InsertedRows(db, next, p, sid, createdAt);
  }

  lemma InsertedRows(db: Db, next: Db, p: SubmitParams, sid: string, createdAt: Instant)
    requires IsInserted(db, next, p, sid, createdAt) && sid !in db.sessions && sid !in db.roles
    ensures forall id :: id in db.sessions ==> id in next.sessions && SessionStep(db.sessions[id], next.sessions[id])
    ensures forall id, r :: id in db.sessions && id in db.roles && r in db.roles[id] ==>
              id in next.roles && r in next.roles[id] && RunStep(db.sessions[id], db.roles[id][r], next.roles[id][r])
  {
    hide NewSession, NewRoles, SessionStep, RunStep, SnapshotStored;
    forall id | id in db.sessions ensures SessionStep(db.sessions[id], next.sessions[id]) {
      SameSession(db.sessions[id]);
    }
    forall id, r | id in db.sessions && id in db.roles && r in db.roles[id]
      ensures RunStep(db.sessions[id], db.roles[id][r], next.roles[id][r])
    {
      SameRun(db.sessions[id], db.roles[id][r]);
    }
  }

  lemma SubmitKeeps(db: Db, p: SubmitParams, generated: string, createdAt: Instant)
    requires Inv(db)
    ensures var next := Submit(db, p, generated, createdAt).db; Inv(next) && StepOk(db, next)
  {
    var o := Submit(db, p, generated, createdAt);
    if o.result.Created? && SubmitFault(p).None? {
      var sid := o.result.id;
      Insertion(db, p, generated, createdAt);
      InvKeys(db);
      hide KeysAgree, SessionsOk, OneReviewing, SnapshotsOk, FindingsOk, StepOk, IsInserted, Submit, SubmitFault;
      InsertedKeys(db, o.db, p, sid, createdAt);
      InsertedSessions(db, o.db, p, sid, createdAt);
      InsertedSnapshots(db, o.db, p, sid, createdAt);
      InsertedFindings(db, o.db, p, sid, createdAt);
      InsertedStep(db, o.db, p, sid, createdAt);
    } else {
      SubmitUnchanged(db, p, generated, createdAt);
      NoChange(db);
    }
  }

  lemma Insertion(db: Db, p: SubmitParams, generated: string, createdAt: Instant)
    requires SubmitFault(p).None? && Submit(db, p, generated, createdAt).result.Created?
    ensures var o := Submit(db, p, generated, createdAt);
            && IsInserted(db, o.db, p, o.result.id, createdAt) && o.result.id !in db.sessions && o.result.id != ""
            && (p.projectId, p.key) !in db.keys
  {
    hide SubmitFault, NewSession, NewRoles, UnitKeys, Buffer;
  }

  lemma SubmitUnchanged(db: Db, p: SubmitParams, generated: string, createdAt: Instant)
    requires SubmitFault(p).Some? || !Submit(db, p, generated, createdAt).result.Created?
    ensures Submit(db, p, generated, createdAt).db == db
  {
    hide SubmitFault, NewSession, NewRoles, UnitKeys, Buffer;
  }

  // ---- Every step, and every run ------------------------------------------------------------------

  lemma ApplyKeeps(db: Db, step: Step)
    requires Inv(db)
    ensures Inv(Apply(db, step)) && StepOk(db, Apply(db, step))
  {
    hide Inv, StepOk, Submit, Claim, Reserve, PublishSuccess, PublishFailure, SweepCancellation, SweepCutoff,
      SweepHardDeadline, Recover, RequestCancellation, ComposeSession;
    match step
    case SubmitStep(p, generated, at) => SubmitKeeps(db, p, generated, at);
    case ClaimStep(policy, at) => ClaimKeepsAll(db, policy, at);
    case ReserveStep(project, sid, at) => ReserveKeeps(db, project, sid, at);
    case SuccessStep(p, at) => PublishSuccessKeeps(db, p, at);
    case FailureStep(p, at) => PublishFailureKeeps(db, p, at);
    case CancellationSweepStep(project, sid, at) => SweepCancellationKeeps(db, project, sid, at);
    case CutoffSweepStep(project, sid, at) => SweepCutoffKeeps(db, project, sid, at);
    case DeadlineSweepStep(project, sid, at) => SweepHardDeadlineKeeps(db, project, sid, at);
    case RecoverStep(project, only, cutoff, at) => RecoverKeeps(db, project, only, cutoff, at);
    case CancelStep(project, sid) => CancellationKeeps(db, project, sid);
    case ComposeStep(project, sid, at) => ComposeKeepsAll(db, project, sid, [], at);
  }

  /** Every reachable database satisfies the invariant, whatever the interleaving and the clocks. */
  lemma {:induction false} ExecKeeps(db: Db, steps: seq<Step>)
    requires Inv(db)
    ensures Inv(Exec(db, steps))
  {
    hide Inv, Apply;
    if steps != [] {
      ExecKeeps(db, steps[..|steps| - 1]);
      ApplyKeeps(Exec(db, steps[..|steps| - 1]), steps[|steps| - 1]);
    }
  }

  lemma {:induction false} ExecAppend(db: Db, xs: seq<Step>, ys: seq<Step>)
    ensures Exec(db, xs + ys) == Exec(Exec(db, xs), ys)
  {
    hide Apply;
    if ys == [] {
      assert xs + ys == xs;
    } else {
      assert (xs + ys)[..|xs + ys| - 1] == xs + ys[..|ys| - 1];
      ExecAppend(db, xs, ys[..|ys| - 1]);
    }
  }

  lemma ExecOne(db: Db, step: Step)
    ensures Exec(db, [step]) == Apply(db, step)
  {
    hide Apply;
    assert [step][..0] == [];
  }
}
