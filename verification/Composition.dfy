/**
 * What a composition stores and reports, told from the rows of the roles and the stored findings, and in what order the
 * report puts them.
 */
module Composition {
  import opened Options
  import opened Text
  import opened Domain
  import opened Evidence
  import opened Sorting
  import opened Composer
  import opened ReportOrder
  import opened Timestamps
  import opened Records
  import opened Database
  import opened DbInvariant
  import opened DbSteps
  import opened DbProgress
  import opened FrozenReports
  import opened Sweeps
  import opened RowEffects
  import SqliteStore
  import Validation

  // ---- The order of a report ---------------------------------------------------------------------------------

  predicate IsSeverity(s: string)
  {
    s == "critical" || s == "high" || s == "medium" || s == "low"
  }

  predicate MoreSevere(s: string, t: string)
  {
    || (s == "critical" && (t == "high" || t == "medium" || t == "low"))
    || (s == "high" && (t == "medium" || t == "low"))
    || (s == "medium" && t == "low")
  }

  predicate EarlierRole(a: Role, b: Role)
  {
    exists i, j :: 0 <= i < j < |ROLES| && ROLES[i] == a && ROLES[j] == b
  }

  /** The least unit a finding is based on, in text order, or its anchor when it is based on none. */
  predicate LeastCitation(f: Finding, c: string)
  {
    if f.basisRefs == [] then c == f.anchorRef
    else c in f.basisRefs && forall ref :: ref in f.basisRefs ==> c == ref || Less(c, ref)
  }

  /** The more severe first, then the earlier role, then the lesser citation, category and ID. */
  predicate ReportedFirst(a: ReportFinding, b: ReportFinding, c: string, d: string)
  {
    var f, g := a.finding, b.finding;
    MoreSevere(f.severity, g.severity)
    || (f.severity == g.severity
        && (EarlierRole(a.role, b.role)
            || (a.role == b.role
                && (Less(c, d)
                    || (c == d
                        && (Less(f.category, g.category) || (f.category == g.category && Less(f.id, g.id))))))))
  }

  lemma RolesByOrder(a: Role, b: Role)
    ensures RoleOrder(a) < RoleOrder(b) <==> EarlierRole(a, b)
    ensures RoleOrder(a) == RoleOrder(b) ==> a == b
  {
    RolesAreAll(a);
    RolesAreAll(b);
  }

  lemma SeverityOrder(s: string, t: string)
    requires IsSeverity(s) && IsSeverity(t)
    ensures SeverityRank(s) < SeverityRank(t) <==> MoreSevere(s, t)
    ensures SeverityRank(s) == SeverityRank(t) ==> s == t
  {
  }

  lemma CitationIs(f: Finding, c: string)
    requires LeastCitation(f, c)
    ensures c == Primary(f)
  {
    if f.basisRefs != [] {
      LowestIsLeast(f.basisRefs);
    }
  }

  lemma LessIsFirst(a: ReportFinding, b: ReportFinding, c: string, d: string)
    requires FindingLess(a, b) && IsSeverity(a.finding.severity) && IsSeverity(b.finding.severity)
    requires LeastCitation(a.finding, c) && LeastCitation(b.finding, d)
    ensures ReportedFirst(a, b, c, d)
  {
    hide SeverityRank, RoleOrder, MoreSevere, EarlierRole, IsSeverity, Primary, Less, LeastCitation;
    SeverityOrder(a.finding.severity, b.finding.severity);
    RolesByOrder(a.role, b.role);
    CitationIs(a.finding, c);
    CitationIs(b.finding, d);
  }

  /** Of two findings in a report the first comes first by severity, role, citation, category and ID, in that order. */
  lemma FindingsInOrder(sid: string, snapshot: string, hash: Hash, os: seq<RoleOutcome>, v: Verdict, cancelled: bool,
                        i: nat, j: nat, c: string, d: string)
    requires OutcomesOk(os) && i < j < |Built(sid, snapshot, hash, os, v, cancelled).findings|
    ensures var fs := Built(sid, snapshot, hash, os, v, cancelled).findings;
            IsSeverity(fs[i].finding.severity) && IsSeverity(fs[j].finding.severity)
            && LeastCitation(fs[i].finding, c) && LeastCitation(fs[j].finding, d) ==>
              ReportedFirst(fs[i], fs[j], c, d)
  {
    hide OutcomesOk, FindingLess, ReportedFirst, LeastCitation, IsSeverity, Summary, Contributions, Sort;
    ReportComplete(sid, snapshot, hash, os, v, cancelled);
    var fs := Built(sid, snapshot, hash, os, v, cancelled).findings;
    assert FindingLess(fs[i], fs[j]);
    if IsSeverity(fs[i].finding.severity) && IsSeverity(fs[j].finding.severity)
       && LeastCitation(fs[i].finding, c) && LeastCitation(fs[j].finding, d) {
      LessIsFirst(fs[i], fs[j], c, d);
    }
  }

  // ---- The roles of a report ------------------------------------------------------------------------------------

  /** The role's stored findings. */
  function KeysOf(db: Db, sid: string, r: Role): set<string>
  {
    set k | k in db.findings && db.findings[k].sessionId == sid && db.findings[k].role == r
  }

  function OfRole(db: Db, keys: seq<string>, r: Role): set<string>
    requires forall k :: k in keys ==> k in db.findings
  {
    set k | k in keys && db.findings[k].role == r
  }

  lemma {:induction false} FindingsInSize(db: Db, keys: seq<string>, r: Role)
    requires forall k :: k in keys ==> k in db.findings
    requires forall i, j :: 0 <= i < j < |keys| ==> keys[i] != keys[j]
    ensures |FindingsIn(db, keys, r)| == |OfRole(db, keys, r)|
  {
    hide OfRole;
    if keys == [] {
      NoneOfRole(db, r);
    } else {
      FindingsInSize(db, keys[..|keys| - 1], r);
      OneMoreOfRole(db, keys, r);
    }
  }

  lemma NoneOfRole(db: Db, r: Role)
    ensures OfRole(db, [], r) == {}
  {
  }

  lemma OneMoreOfRole(db: Db, keys: seq<string>, r: Role)
    requires keys != [] && forall k :: k in keys ==> k in db.findings
    requires forall i, j :: 0 <= i < j < |keys| ==> keys[i] != keys[j]
    ensures var front, last := keys[..|keys| - 1], keys[|keys| - 1];
            |OfRole(db, keys, r)| == |OfRole(db, front, r)| + if db.findings[last].role == r then 1 else 0
  {
    hide OfRole;
    var front, last := keys[..|keys| - 1], keys[|keys| - 1];
    SplitOfRole(db, front, last, r);
    assert keys == front + [last];
    assert forall i :: 0 <= i < |front| ==> front[i] == keys[i] && front[i] != last;
  }

  lemma SplitOfRole(db: Db, front: seq<string>, last: string, r: Role)
    requires (forall k :: k in front ==> k in db.findings) && last in db.findings
    ensures forall k :: k in front + [last] ==> k in db.findings
    ensures OfRole(db, front + [last], r) == OfRole(db, front, r) + if db.findings[last].role == r then {last} else {}
    ensures last !in front ==> last !in OfRole(db, front, r)
  {
    assert forall k :: k in front + [last] <==> k in front || k == last;
  }

  /** A stored finding belongs to a complete role, so a result set has all of a session's and no other. */
  lemma RowsAreStored(db: Db, sid: string, keys: seq<string>)
    requires Inv(db) && ResultSet(db, sid, keys)
    ensures forall k :: k in keys <==> k in db.findings && db.findings[k].sessionId == sid
  {
    hide KeysAgree, SessionsOk, SnapshotsOk, OneReviewing, Validation.FindingOk, Validation.TableRowOk, RefsKnown,
      FindingKey;
    forall k | k in db.findings && db.findings[k].sessionId == sid ensures RowCounts(db, sid, k) {
      assert FindingOk(db, k);
    }
  }

  lemma FindingCount(db: Db, sid: string, keys: seq<string>, r: Role)
    requires Inv(db) && ResultSet(db, sid, keys) && forall k :: k in keys ==> k in db.findings
    ensures |FindingsIn(db, keys, r)| == |KeysOf(db, sid, r)|
  {
    hide Inv, FindingsIn, RowCounts;
    FindingsInSize(db, keys, r);
    RowsAreStored(db, sid, keys);
    assert OfRole(db, keys, r) == KeysOf(db, sid, r);
  }

  /** What a report says of a role. */
  ghost predicate Tells(db: Db, sid: string, r: Role, summary: RoleSummary)
    requires sid in db.roles && r in db.roles[sid]
  {
    var run := db.roles[sid][r];
    && summary.role == r && summary.status == run.status && summary.cause == run.cause
    && summary.errorCategory == (if run.errorCategory.Some? then run.errorCategory.value else "")
    && summary.findingCount == |KeysOf(db, sid, r)| && summary.callCount == run.callCount && summary.lastPurpose == None
  }

  /** The roles in dispatch order, each as its row and its findings are. */
  ghost predicate TellsRoles(db: Db, sid: string, summaries: seq<RoleSummary>)
    requires sid in db.roles && AllRoles(db.roles[sid])
  {
    |summaries| == |ROLES| && forall i :: 0 <= i < |ROLES| ==> Tells(db, sid, ROLES[i], summaries[i])
  }

  lemma OutcomeTells(db: Db, sid: string, keys: seq<string>, r: Role)
    requires Inv(db) && ResultSet(db, sid, keys) && (forall k :: k in keys ==> k in db.findings)
    requires sid in db.roles && r in db.roles[sid]
    ensures Tells(db, sid, r, Summary(OutcomeOf(db, db.roles[sid], keys, r)))
  {
    hide Inv, ResultSet, FindingsIn, KeysOf;
    FindingCount(db, sid, keys, r);
  }

  lemma SummariesTell(db: Db, sid: string, keys: seq<string>)
    requires Inv(db) && ResultSet(db, sid, keys) && (forall k :: k in keys ==> k in db.findings)
    requires sid in db.roles && AllRoles(db.roles[sid])
    ensures TellsRoles(db, sid, Summaries(OutcomesOf(db, db.roles[sid], keys)))
  {
    hide Inv, ResultSet, OutcomeOf, Tells, Summary;
    var os := OutcomesOf(db, db.roles[sid], keys);
    forall i | 0 <= i < |ROLES| ensures Tells(db, sid, ROLES[i], Summaries(os)[i]) {
      OutcomeTells(db, sid, keys, ROLES[i]);
      assert os[i] == OutcomeOf(db, db.roles[sid], keys, ROLES[i]);
    }
  }

  // ---- The findings of a report -----------------------------------------------------------------------------------

  predicate IsStored(db: Db, sid: string, x: ReportFinding)
  {
    exists k :: k in db.findings && db.findings[k] == FindingRow(sid, x.role, x.finding)
  }

  /** Exactly the session's stored findings, each once, in the order above. */
  ghost predicate TellsFindings(db: Db, sid: string, fs: seq<ReportFinding>)
  {
    && (forall x :: x in fs <==> IsStored(db, sid, x))
    && (forall i, j :: 0 <= i < j < |fs| ==> fs[i] != fs[j])
    && forall i, j, c, d :: 0 <= i < j < |fs| && LeastCitation(fs[i].finding, c) && LeastCitation(fs[j].finding, d) ==>
         ReportedFirst(fs[i], fs[j], c, d)
  }

  lemma StoredSeverity(db: Db, sid: string, x: ReportFinding)
    requires Inv(db) && IsStored(db, sid, x)
    ensures IsSeverity(x.finding.severity) && Is(RolesOf(db, sid), x.role, RoleComplete)
  {
    hide KeysAgree, SessionsOk, SnapshotsOk, OneReviewing, RefsKnown, FindingKey, Blank, ByteLen;
    var k :| k in db.findings && db.findings[k] == FindingRow(sid, x.role, x.finding);
    assert FindingOk(db, k);
  }

  lemma InOutcomes(db: Db, sid: string, keys: seq<string>, r: Role, f: Finding)
    requires Inv(db) && ResultSet(db, sid, keys) && (forall k :: k in keys ==> k in db.findings)
    requires sid in db.roles && AllRoles(db.roles[sid])
    ensures (exists o :: o in OutcomesOf(db, db.roles[sid], keys) && o.role == r && o.status.RoleComplete?
                         && f in o.findings) <==> IsStored(db, sid, ReportFinding(r, f))
  {
    hide Inv, ResultSet, FindingsIn, RowKeys, IsStored;
    var os := OutcomesOf(db, db.roles[sid], keys);
    RolesAreAll(r);
    assert os[RoleOrder(r)] == OutcomeOf(db, db.roles[sid], keys, r);
    InFindings(db, sid, keys, r, f);
    if IsStored(db, sid, ReportFinding(r, f)) {
      StoredSeverity(db, sid, ReportFinding(r, f));
    }
  }

  lemma InFindings(db: Db, sid: string, keys: seq<string>, r: Role, f: Finding)
    requires Inv(db) && ResultSet(db, sid, keys) && (forall k :: k in keys ==> k in db.findings)
    ensures f in FindingsIn(db, keys, r) <==> IsStored(db, sid, ReportFinding(r, f))
  {
    hide Inv, ResultSet, FindingsIn, RowKeys;
    ResultSetRows(db, sid, keys);
    InvFindings(db);
    FindingsInMembers(db, sid, keys, r, f);
    RowsAreStored(db, sid, keys);
    assert f in FindingsIn(db, keys, r) <==> f in multiset(FindingsIn(db, keys, r));
  }

  lemma FindingsTell(db: Db, sid: string, keys: seq<string>, hash: Hash, v: Verdict)
    requires Inv(db) && ResultSet(db, sid, keys) && (forall k :: k in keys ==> k in db.findings)
    requires sid in db.sessions && sid in db.roles && AllRoles(db.roles[sid])
    ensures var s := db.sessions[sid];
            TellsFindings(db, sid, Built(sid, s.snapshotId, hash, OutcomesOf(db, db.roles[sid], keys), v,
                                         s.cancelRequested).findings)
  {
    hide Inv, ResultSet, OutcomesOf, Built, ReportedFirst, LeastCitation, IsStored, IsSeverity, FindingLess, OutcomesOk,
      Summary, SummaryLess;
    var s, os := db.sessions[sid], OutcomesOf(db, db.roles[sid], keys);
    InvFindings(db);
    OutcomesReordered(db, sid, db.roles[sid], keys, keys);
    ReportComplete(sid, s.snapshotId, hash, os, v, s.cancelRequested);
    var fs := Built(sid, s.snapshotId, hash, os, v, s.cancelRequested).findings;
    forall x ensures x in fs <==> IsStored(db, sid, x) {
      InOutcomes(db, sid, keys, x.role, x.finding);
    }
    FindingLessIsStrict();
    forall i, j, c, d | 0 <= i < j < |fs| && LeastCitation(fs[i].finding, c) && LeastCitation(fs[j].finding, d)
      ensures ReportedFirst(fs[i], fs[j], c, d)
    {
      StoredSeverity(db, sid, fs[i]);
      StoredSeverity(db, sid, fs[j]);
      FindingsInOrder(sid, s.snapshotId, hash, os, v, s.cancelRequested, i, j, c, d);
    }
    forall i, j | 0 <= i < j < |fs| ensures fs[i] != fs[j] {
      assert FindingLess(fs[i], fs[j]);
    }
  }

  // ---- The verdict, from the rows ---------------------------------------------------------------------------------

  /** All roles complete, or else why not: cancelled over restarted over cut off over failed. */
  predicate ReasonTells(rs: RoleMap, reason: TerminalReason)
  {
    match reason
    case AllRolesComplete => forall r :: r in rs ==> rs[r].status == RoleComplete
    case ReasonUserCancelled => HasCause(rs, UserCancelled)
    case ReasonProcessRestart => HasCause(rs, ProcessRestart) && !HasCause(rs, UserCancelled)
    case ReasonDeadlineCutoff =>
      HasCause(rs, DeadlineCutoff) && !HasCause(rs, ProcessRestart) && !HasCause(rs, UserCancelled)
    case RoleFailures =>
      (exists r :: r in rs && rs[r].status == RoleFailed) && forall r :: r in rs ==> rs[r].status != Interrupted
  }

  /** Complete when all roles are, failed when none is and nobody cancelled, and partial otherwise. */
  predicate StatusTells(rs: RoleMap, status: SessionStatus)
  {
    match status
    case SessionComplete => forall r :: r in rs ==> rs[r].status == RoleComplete
    case SessionFailed => (forall r :: r in rs ==> rs[r].status != RoleComplete) && !HasCause(rs, UserCancelled)
    case Partial =>
      (exists r :: r in rs && rs[r].status != RoleComplete)
      && (HasCause(rs, UserCancelled) || exists r :: r in rs && rs[r].status == RoleComplete)
    case _ => false
  }

  predicate VerdictTells(rs: RoleMap, v: Verdict)
  {
    ReasonTells(rs, v.reason) && StatusTells(rs, v.status)
    && v.completed == (|set r | r in rs && rs[r].status == RoleComplete|) && v.incomplete == 4 - v.completed
  }

  lemma RowsTell(rs: RoleMap)
    requires AllRoles(rs)
    ensures forall row :: row in RowsOf(rs) <==> row.role in rs && row == RowOf(rs, row.role)
    ensures Completed(RowsOf(rs)) == |set r | r in rs && rs[r].status == RoleComplete|
  {
    hide Completed;
    var rows := RowsOf(rs);
    forall r: Role ensures RowOf(rs, r) in rows {
      RowAt(rs, r);
      assert rows[RoleOrder(r)] in rows;
    }
    CountIsSize(rs, RoleComplete);
    FourCompleted(rows[0], rows[1], rows[2], rows[3]);
    assert rows == [rows[0], rows[1], rows[2], rows[3]];
  }

  lemma FourCompleted(a: RoleRow, b: RoleRow, c: RoleRow, d: RoleRow)
    ensures Completed([a, b, c, d])
         == One(a.status.RoleComplete?) + One(b.status.RoleComplete?) + One(c.status.RoleComplete?)
            + One(d.status.RoleComplete?)
  {
    assert [a, b, c, d][..3] == [a, b, c] && [a, b, c][..2] == [a, b] && [a, b][..1] == [a] && [a][..0] == [];
    assert Completed([a]) == One(a.status.RoleComplete?);
    assert Completed([a, b]) == Completed([a]) + One(b.status.RoleComplete?);
    assert Completed([a, b, c]) == Completed([a, b]) + One(c.status.RoleComplete?);
  }

  lemma DecidedTells(rs: RoleMap)
    requires AllRoles(rs) && Composable(RowsOf(rs))
    ensures VerdictTells(rs, Decide(RowsOf(rs)))
  {
    hide Completed, Any, HasCause, Composable, RowsOf, RowOk;
    var rows, v := RowsOf(rs), Decide(RowsOf(rs));
    VerdictMeaning(rows);
    RowsTell(rs);
    AnyCause(rs, UserCancelled);
    AnyCause(rs, ProcessRestart);
    AnyCause(rs, DeadlineCutoff);
    forall r: Role ensures RowOf(rs, r) in rows && RowOf(rs, r).status == rs[r].status {
    }
    DecideParts(rows);
  }

  lemma DecideParts(rows: seq<RoleRow>)
    requires |rows| == |ROLES|
    ensures var v := Decide(rows);
            && v.completed == Completed(rows) && v.incomplete == 4 - v.completed && v.status.IsTerminal()
  {
    hide Completed, Any;
  }

  // ---- What a composition stores and returns ---------------------------------------------------

  /** The session ends with the report's verdict, no earlier than it was claimed, and nothing else changes. */
  ghost predicate EndsWith(db: Db, next: Db, sid: string, report: Report, now: Instant)
  {
    && OnlySession(db, next, sid) && db.sessions[sid].claimedAt.Some?
    && var s := db.sessions[sid];
       next.sessions[sid] == Session(s.projectId, s.key, s.requestHash, s.snapshotId, report.status, s.cancelRequested,
                                     s.createdAt, s.claimedAt, s.cutoffAt, s.deadlineAt,
                                     Some(if now < s.claimedAt.value then s.claimedAt.value else now),
                                     Some(report.reason), report.completed, report.incomplete)
  }

  /** The report is of the session and its snapshot, with the verdict of the rows, every role and every finding. */
  ghost predicate Reports(db: Db, sid: string, report: Report)
  {
    && sid in db.sessions && sid in db.roles && AllRoles(db.roles[sid])
    && VerdictTells(db.roles[sid], Verdict(report.status, report.reason, report.completed, report.incomplete))
    && TellsRoles(db, sid, report.roles) && TellsFindings(db, sid, report.findings)
    && var s := db.sessions[sid];
       && report.sessionId == sid && report.snapshotId == s.snapshotId && report.cancelRequested == s.cancelRequested
       && s.snapshotId in db.snapshots && report.snapshotHash == db.snapshots[s.snapshotId].hash
  }

  /** What a composition that succeeds stores and returns. */
  lemma ComposedTells(db: Db, project: string, rawId: string, keys: seq<string>, now: Instant)
    requires Inv(db) && (forall k :: k in keys ==> k in db.findings) && ResultSet(db, TrimSpace(rawId), keys)
    requires ComposeSession(db, project, rawId, keys, now).result.Composed?
    ensures var o := ComposeSession(db, project, rawId, keys, now);
            EndsWith(db, o.db, TrimSpace(rawId), o.result.report, now) && Reports(db, TrimSpace(rawId), o.result.report)
  {
    hide Inv, ResultSet, SessionOk, TrimSpace, VerdictTells, TellsRoles, TellsFindings, Decide, RowsOf, Composable,
      OutcomesOf, Summaries, Contributions, Sort, Blank;
    var sid := TrimSpace(rawId);
    ComposeWrites(db, project, rawId, keys, now);
    ComposeKeepsAll(db, project, rawId, keys, now);
    ComposeExact(db, project, rawId, keys, now);
    AtSession(db, sid);
    HasInstants(db, sid);
    RowsOk(db.sessions[sid], db.roles[sid]);
    ComposableRows(db.roles[sid]);
    DecidedTells(db.roles[sid]);
    SessionSnapshot(db, sid);
    var v := Decide(RowsOf(db.roles[sid]));
    SummariesTell(db, sid, keys);
    FindingsTell(db, sid, keys, db.snapshots[db.sessions[sid].snapshotId].hash, v);
    SqliteStore.ReadIsBuilt(db, sid, db.roles[sid], keys, db.sessions[sid].snapshotId,
                            db.snapshots[db.sessions[sid].snapshotId].hash, v, db.sessions[sid].cancelRequested);
    ComposeOthers(db, project, rawId, keys, now);
  }

  lemma ComposeOthers(db: Db, project: string, rawId: string, keys: seq<string>, now: Instant)
    requires forall k :: k in keys ==> k in db.findings
    requires ComposeSession(db, project, rawId, keys, now).result.Composed?
    ensures OnlySession(db, ComposeSession(db, project, rawId, keys, now).db, TrimSpace(rawId))
  {
    hide TrimSpace, CountOf, Composable, ReportWith, ReadReport, Decide, ComposedSession;
  }

  /** A composition that does not succeed changes nothing; a review that is not over says what it still waits for. */
  lemma NotComposed(db: Db, project: string, rawId: string, keys: seq<string>, now: Instant)
    requires Inv(db) && forall k :: k in keys ==> k in db.findings
    ensures var o, sid := ComposeSession(db, project, rawId, keys, now), TrimSpace(rawId);
            && (!o.result.Composed? ==> o.db == db)
            && (o.result == ComposeNotFound <==> sid == "" || !Scoped(db, project, sid))
            && (sid != "" && Scoped(db, project, sid) ==>
                  && sid in db.roles
                  && var pending, flying := |RolesIn(db, sid, Pending)|, |RolesIn(db, sid, InFlight)|;
                     && (o.result == NotReady(pending, flying) <==>
                           db.sessions[sid].status == Reviewing && pending + flying > 0)
                     && (o.result == ComposeNotReviewing <==> db.sessions[sid].status == Queued)
                     && (o.result.AlreadyComposed? <==> db.sessions[sid].status.IsTerminal()))
  {
    hide Inv, SessionOk, TrimSpace, CountOf, Composable, ReportWith, ReadReport, Decide, RowsOf;
    var sid := TrimSpace(rawId);
    if Scoped(db, project, sid) {
      AtSession(db, sid);
      RolesThere(db.sessions[sid], db.roles[sid]);
      CountIsSize(db.roles[sid], Pending);
      CountIsSize(db.roles[sid], InFlight);
    }
  }
}
