/** What every transaction keeps, and the transition tables every transaction follows. */
module DbInvariant {
  import opened Domain
  import opened Evidence
  import opened Composer
  import opened Timestamps
  import opened Records
  import opened Database
  import Timing
  import Validation

  // ---- The invariant --------------------------------------------------------------------

  /** The same sessions in every table, and the unique index agrees with the sessions. */
  ghost predicate KeysAgree(db: Db)
  {
    && db.roles.Keys == db.sessions.Keys
    && (forall at :: at in db.keys ==>
          db.keys[at] in db.sessions && at == (db.sessions[db.keys[at]].projectId, db.sessions[db.keys[at]].key))
    && (forall sid :: sid in db.sessions ==>
          (db.sessions[sid].projectId, db.sessions[sid].key) in db.keys
          && db.keys[(db.sessions[sid].projectId, db.sessions[sid].key)] == sid)
  }

  ghost predicate SessionsOk(db: Db)
  {
    forall sid :: sid in db.sessions ==> sid != "" && sid in db.roles && SessionOk(db.sessions[sid], db.roles[sid])
  }

  ghost predicate OneReviewing(db: Db)
  {
    forall a, b ::
      a in db.sessions && b in db.sessions && db.sessions[a].status.Reviewing? && db.sessions[b].status.Reviewing? ==>
        a == b
  }

  ghost predicate SnapshotsOk(db: Db)
  {
    && (forall id :: id in db.snapshots ==>
          Freezable(id, db.snapshots[id].units) && db.snapshots[id].hash == CanonicalHash(db.snapshots[id].units))
    && (forall id, u :: id in db.snapshots && u in db.snapshots[id].units ==> UnitKey(id, u.id) in db.unitKeys)
    && (forall sid :: sid in db.sessions ==> db.sessions[sid].snapshotId in db.snapshots)
  }

  /** A stored finding belongs to a complete role, fits its table and cites its session's snapshot only. */
  predicate FindingOk(db: Db, k: string)
    requires k in db.findings
  {
    var row := db.findings[k];
    && k == FindingKey(row.sessionId, row.role, row.finding.id)
    && Is(RolesOf(db, row.sessionId), row.role, RoleComplete)
    && Validation.FindingOk(row.finding) && Validation.TableRowOk(row.finding)
    && row.sessionId in db.sessions && RefsKnown(UnitsStored(db, db.sessions[row.sessionId].snapshotId), row.finding)
  }

  ghost predicate FindingsOk(db: Db)
  {
    forall k :: k in db.findings ==> FindingOk(db, k)
  }

  ghost predicate Inv(db: Db)
  {
    KeysAgree(db) && SessionsOk(db) && OneReviewing(db) && SnapshotsOk(db) && FindingsOk(db)
  }

  lemma EmptyOk()
    ensures Inv(EMPTY)
  {
  }

  // ---- One step's effect -----------------------------------------------------------------

  /** A role only goes in flight under a reviewing session whose cancellation was not requested. */
  predicate RunStep(s: Session, a: RoleRun, b: RoleRun)
  {
    a == b || (CanTransition(a.status, b.status) && a.createdAt == b.createdAt
               && (b.startedAt == a.startedAt || b.status.InFlight?)
               && (b.status.InFlight? ==> s.status.Reviewing? && !s.cancelRequested))
  }

  predicate SessionStep(a: Session, b: Session)
  {
    && a.projectId == b.projectId && a.key == b.key && a.requestHash == b.requestHash && a.snapshotId == b.snapshotId
    && a.createdAt == b.createdAt
    && (a.cancelRequested ==> b.cancelRequested)
    && (a.status == b.status || LegalSessionTransition(a.status, b.status))
    && (a.claimedAt.Some? ==> b.claimedAt == a.claimedAt && b.cutoffAt == a.cutoffAt && b.deadlineAt == a.deadlineAt)
    && (a.status.IsTerminal() ==> a == b)
  }

  ghost predicate FindingsStep(a: Db, b: Db)
  {
    && (forall k :: k in a.findings ==> k in b.findings && b.findings[k] == a.findings[k])
    && (forall k :: k in b.findings && k !in a.findings ==>
          Is(RolesOf(a, b.findings[k].sessionId), b.findings[k].role, InFlight))
  }

  /**
   * What the triggers of the schema guard: transitions follow the two tables, terminal rows and
   * identifying fields never change, cancellation is not withdrawn, nothing is deleted, and findings
   * are only added for a role that was in flight.
   */
  ghost predicate StepOk(a: Db, b: Db)
  {
    && (forall sid :: sid in a.sessions ==> sid in b.sessions && SessionStep(a.sessions[sid], b.sessions[sid]))
    && (forall sid, r :: sid in a.sessions && sid in a.roles && r in a.roles[sid] ==>
          sid in b.roles && r in b.roles[sid] && RunStep(a.sessions[sid], a.roles[sid][r], b.roles[sid][r]))
    && (forall id :: id in a.snapshots ==> id in b.snapshots && b.snapshots[id] == a.snapshots[id])
    && (forall at :: at in a.keys ==> at in b.keys && b.keys[at] == a.keys[at])
    && FindingsStep(a, b)
  }

  lemma StepSession(a: Db, b: Db, sid: string)
    requires StepOk(a, b) && sid in a.sessions
    ensures sid in b.sessions && SessionStep(a.sessions[sid], b.sessions[sid])
  {
    hide SessionStep, RunStep, FindingsStep;
  }

  lemma StepRun(a: Db, b: Db, sid: string, r: Role)
    requires StepOk(a, b) && sid in a.sessions && sid in a.roles && r in a.roles[sid]
    ensures sid in b.roles && r in b.roles[sid] && RunStep(a.sessions[sid], a.roles[sid][r], b.roles[sid][r])
  {
    hide SessionStep, RunStep, FindingsStep;
  }

  lemma StepTables(a: Db, b: Db)
    requires StepOk(a, b)
    ensures forall id :: id in a.snapshots ==> id in b.snapshots && b.snapshots[id] == a.snapshots[id]
    ensures forall at :: at in a.keys ==> at in b.keys && b.keys[at] == a.keys[at]
    ensures FindingsStep(a, b)
  {
    hide SessionStep, RunStep, FindingsStep;
  }

  lemma NoChange(db: Db)
    ensures StepOk(db, db)
  {
  }

  predicate RolesStep(s: Session, rs: RoleMap, next: RoleMap)
  {
    forall r :: r in rs ==> r in next && RunStep(s, rs[r], next[r])
  }

  function Replaced(db: Db, sid: string, s: Session, rs: RoleMap): Db
  {
    db.(sessions := db.sessions[sid := s], roles := db.roles[sid := rs])
  }

  lemma ReplacedKeys(db: Db, sid: string, s: Session, rs: RoleMap)
    requires KeysAgree(db) && sid in db.sessions
    requires s.projectId == db.sessions[sid].projectId && s.key == db.sessions[sid].key
    ensures KeysAgree(Replaced(db, sid, s, rs))
  {
  }

  lemma ReplacedOk(db: Db, sid: string, s: Session, rs: RoleMap)
    requires SessionsOk(db) && sid in db.sessions && SessionOk(s, rs)
    ensures SessionsOk(Replaced(db, sid, s, rs))
  {
    hide SessionOk;
  }

  lemma ReplacedReviewing(db: Db, sid: string, s: Session, rs: RoleMap)
    requires OneReviewing(db) && sid in db.sessions
    requires s.status.Reviewing? ==> db.sessions[sid].status.Reviewing? || !AnyReviewing(db)
    ensures OneReviewing(Replaced(db, sid, s, rs))
  {
  }

  lemma ReplacedSnapshots(db: Db, sid: string, s: Session, rs: RoleMap)
    requires SnapshotsOk(db) && sid in db.sessions && s.snapshotId == db.sessions[sid].snapshotId
    ensures SnapshotsOk(Replaced(db, sid, s, rs))
  {
    hide Freezable, CanonicalHash;
  }

  lemma ReplacedFindings(db: Db, sid: string, s: Session, rs: RoleMap)
    requires FindingsOk(db) && sid in db.sessions && sid in db.roles && s.snapshotId == db.sessions[sid].snapshotId
    requires RolesStep(db.sessions[sid], db.roles[sid], rs)
    ensures FindingsOk(Replaced(db, sid, s, rs))
  {
    hide Validation.FindingOk, Validation.TableRowOk, RefsKnown, FindingKey;
    var next := Replaced(db, sid, s, rs);
    forall k | k in next.findings ensures FindingOk(next, k) {
      var row := db.findings[k];
      assert FindingOk(db, k);
      if row.sessionId == sid {
        assert RunStep(db.sessions[sid], db.roles[sid][row.role], rs[row.role]);
      }
    }
  }

  lemma ReplacedStep(db: Db, sid: string, s: Session, rs: RoleMap)
    requires sid in db.sessions && sid in db.roles && SessionStep(db.sessions[sid], s)
    requires RolesStep(db.sessions[sid], db.roles[sid], rs)
    ensures StepOk(db, Replaced(db, sid, s, rs))
  {
    hide SessionStep, RunStep;
    var next := Replaced(db, sid, s, rs);
    forall id | id in db.sessions ensures SessionStep(db.sessions[id], next.sessions[id]) {
      SameSession(db.sessions[id]);
    }
    forall id, r | id in db.sessions && id in db.roles && r in db.roles[id]
      ensures r in next.roles[id] && RunStep(db.sessions[id], db.roles[id][r], next.roles[id][r])
    {
      SameRun(db.sessions[id], db.roles[id][r]);
    }
  }

  lemma SameSession(s: Session)
    ensures SessionStep(s, s)
  {
  }

  lemma SameRun(s: Session, run: RoleRun)
    ensures RunStep(s, run, run)
  {
  }

  /** A step that touches the rows of one session. */
  lemma OneSession(db: Db, sid: string, s: Session, rs: RoleMap)
    requires Inv(db) && sid in db.sessions && SessionOk(s, rs)
    requires SessionStep(db.sessions[sid], s) && RolesStep(db.sessions[sid], db.roles[sid], rs)
    requires s.status.Reviewing? ==> db.sessions[sid].status.Reviewing? || !AnyReviewing(db)
    ensures Inv(Replaced(db, sid, s, rs)) && StepOk(db, Replaced(db, sid, s, rs))
  {
    hide SessionsOk, OneReviewing, SnapshotsOk, FindingsOk, StepOk, SessionOk, RolesStep;
    assert s.snapshotId == db.sessions[sid].snapshotId;
    assert s.projectId == db.sessions[sid].projectId && s.key == db.sessions[sid].key;
    assert db.roles.Keys == db.sessions.Keys;
    hide SessionStep, KeysAgree;
    ReplacedKeys(db, sid, s, rs);
    ReplacedOk(db, sid, s, rs);
    ReplacedReviewing(db, sid, s, rs);
    ReplacedSnapshots(db, sid, s, rs);
    ReplacedFindings(db, sid, s, rs);
    ReplacedStep(db, sid, s, rs);
  }

  // ---- The rows of one session, operation by operation ---------------------------------------

  lemma StartedRunKeeps(run: RoleRun, s: Session, now: Instant)
    requires RoleRunRowOk(run) && RunFollows(run, s) && run.status.Pending?
    requires s.claimedAt.Some? && s.cutoffAt.Some? && now < s.cutoffAt.value && s.status.Reviewing?
    requires !s.cancelRequested
    ensures var next := Started(run, now); RoleRunRowOk(next) && RunFollows(next, s) && RunStep(s, run, next)
  {
  }

  lemma StartKeeps(s: Session, rs: RoleMap, r: Role, now: Instant)
    requires SessionOk(s, rs) && s.status.Reviewing? && !s.cancelRequested && s.cutoffAt.Some? && now < s.cutoffAt.value
    requires CountOf(rs, InFlight) < MAX_IN_FLIGHT && Is(rs, r, Pending)
    ensures SessionOk(s, rs[r := Started(rs[r], now)]) && RolesStep(s, rs, rs[r := Started(rs[r], now)])
    ensures CountOf(rs[r := Started(rs[r], now)], InFlight) == CountOf(rs, InFlight) + 1
  {
    assert s.claimedAt.Some?;
    hide SessionRowOk;
    StartedRunKeeps(rs[r], s, now);
    hide RoleRunRowOk, RunFollows;
    forall q | q in rs ensures RunStep(s, rs[q], rs[r := Started(rs[r], now)][q]) {
      SameRun(s, rs[q]);
    }
    match r
    case Requirements =>
    case Architecture =>
    case QA =>
    case Security =>
  }

  lemma FinishKeeps(s: Session, rs: RoleMap, r: Role, run: RoleRun)
    requires SessionOk(s, rs) && s.status.Reviewing? && Is(rs, r, InFlight)
    requires RoleRunRowOk(run) && RunFollows(run, s) && RunStep(s, rs[r], run) && !run.status.InFlight?
    ensures SessionOk(s, rs[r := run]) && RolesStep(s, rs, rs[r := run])
  {
    hide SessionRowOk, RoleRunRowOk, RunFollows;
    SameRun(s, rs[r]);
    match r
    case Requirements =>
    case Architecture =>
    case QA =>
    case Security =>
  }

  /** Every run replaced by one that is at least as far on, and no new one in flight. */
  lemma SweepKeeps(s: Session, rs: RoleMap, next: RoleMap)
    requires SessionOk(s, rs) && s.status.Reviewing? && next.Keys == rs.Keys
    requires forall r :: r in rs ==> RoleRunRowOk(next[r]) && RunFollows(next[r], s) && RunStep(s, rs[r], next[r])
    requires forall r :: r in rs && next[r].status.InFlight? ==> rs[r].status.InFlight?
    ensures SessionOk(s, next) && RolesStep(s, rs, next)
  {
    hide SessionRowOk, RoleRunRowOk, RunFollows, RunStep;
  }

  lemma SweptRunKeeps(run: RoleRun, s: Session, cause: InterruptCause, now: Instant)
    requires RoleRunRowOk(run) && RunFollows(run, s)
    requires cause == UserCancelled ==> s.cancelRequested
    requires cause == DeadlineCutoff ==> s.cutoffAt.Some? && now >= s.cutoffAt.value
    ensures var next := SweptRun(run, cause, now);
            && RoleRunRowOk(next) && RunFollows(next, s) && RunStep(s, run, next)
            && (next.status.InFlight? ==> run.status.InFlight?)
  {
  }

  lemma RecoveredRunKeeps(run: RoleRun, s: Session, now: Instant)
    requires RoleRunRowOk(run) && RunFollows(run, s)
    ensures var next := RecoveredRun(run, s, now);
            RoleRunRowOk(next) && RunFollows(next, s) && RunStep(s, run, next) && next.status.IsTerminal()
  {
    if !run.status.InFlight? {
      SweptRunKeeps(run, s, PendingCause(s), now);
    }
  }

  lemma ClaimKeeps(s: Session, rs: RoleMap, policy: Timing.TimingPolicy, now: Instant)
    requires SessionOk(s, rs) && s.status.Queued? && s.createdAt <= now
    requires Timing.ValidPolicy(policy) && now + policy.sessionHardDeadline < END_OF_TIME
    ensures SessionOk(ClaimedSession(s, policy, now), rs) && SessionStep(s, ClaimedSession(s, policy, now))
  {
    forall r | r in rs ensures RunFollows(rs[r], ClaimedSession(s, policy, now)) {
      match r
      case Requirements =>
      case Architecture =>
      case QA =>
      case Security =>
    }
  }

  lemma CancelKeeps(s: Session, rs: RoleMap)
    requires SessionOk(s, rs) && !s.status.IsTerminal()
    ensures SessionOk(s.(cancelRequested := true), rs) && SessionStep(s, s.(cancelRequested := true))
  {
    hide RoleRunRowOk, CountOf;
  }

  lemma ComposeKeeps(s: Session, rs: RoleMap, now: Instant)
    requires SessionOk(s, rs) && s.status.Reviewing? && CountOf(rs, Pending) + CountOf(rs, InFlight) == 0
    ensures Composable(RowsOf(rs)) && AllTerminal(rs)
    ensures SessionOk(ComposedSession(s, Decide(RowsOf(rs)), now), rs)
    ensures SessionStep(s, ComposedSession(s, Decide(RowsOf(rs)), now))
  {
    hide Decide, RunFollows, TerminalFields;
    NoneLeft(rs);
    ComposableRows(rs);
    VerdictFitsSchema(RowsOf(rs));
    VerdictTerminal(RowsOf(rs));
    var v, next := Decide(RowsOf(rs)), ComposedSession(s, Decide(RowsOf(rs)), now);
    forall r | r in rs ensures RunFollows(rs[r], next) {
      SameFollows(rs[r], s, next);
    }
  }

  lemma SameFollows(run: RoleRun, s: Session, t: Session)
    requires RunFollows(run, s)
    requires s.claimedAt == t.claimedAt && s.cutoffAt == t.cutoffAt && s.cancelRequested == t.cancelRequested
    ensures RunFollows(run, t)
  {
  }

  lemma VerdictTerminal(rows: seq<RoleRow>)
    requires |rows| == |ROLES|
    ensures Decide(rows).status.IsTerminal()
  {
  }

  lemma NoneLeft(rs: RoleMap)
    requires AllRoles(rs) && CountOf(rs, Pending) + CountOf(rs, InFlight) == 0
    ensures AllTerminal(rs)
  {
    forall r | r in rs ensures rs[r].status.IsTerminal() {
      match r
      case Requirements =>
      case Architecture =>
      case QA =>
      case Security =>
    }
  }

  lemma ComposableRows(rs: RoleMap)
    requires AllRoles(rs) && AllTerminal(rs) && forall r :: r in rs ==> RoleRunRowOk(rs[r])
    ensures Composable(RowsOf(rs))
  {
    var rows := RowsOf(rs);
    forall row | row in rows ensures RowOk(row) {
      assert row.role in rs && row == RowOf(rs, row.role);
      assert RoleRunRowOk(rs[row.role]);
    }
  }
}
