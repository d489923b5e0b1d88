/** A composed report never changes again, in whatever order its rows are read. */
module FrozenReports {
  import opened Options
  import opened Text
  import opened Domain
  import opened Composer
  import opened ReportOrder
  import opened Timestamps
  import opened Records
  import opened Database
  import opened DbInvariant
  import opened DbSteps

  // ---- The rows of one role, counted --------------------------------------------------------

  /** Distinct keys of stored findings of one session. */
  ghost predicate RowKeys(db: Db, sid: string, keys: seq<string>)
  {
    && (forall k :: k in keys ==> k in db.findings && db.findings[k].sessionId == sid)
    && forall i, j :: 0 <= i < j < |keys| ==> keys[i] != keys[j]
  }

  /** A stored finding is found under the one key its session, role and ID make. */
  lemma KeyOf(db: Db, sid: string, keys: seq<string>, r: Role, id: string)
    requires FindingsOk(db) && RowKeys(db, sid, keys)
    ensures forall k :: k in keys && db.findings[k].role == r && db.findings[k].finding.id == id ==>
            k == FindingKey(sid, r, id)
  {
    forall k | k in keys && db.findings[k].role == r && db.findings[k].finding.id == id
      ensures k == FindingKey(sid, r, id)
    {
      assert FindingOk(db, k);
    }
  }

  lemma {:induction false} FindingsInMembers(db: Db, sid: string, keys: seq<string>, r: Role, f: Finding)
    requires FindingsOk(db) && RowKeys(db, sid, keys)
    ensures multiset(FindingsIn(db, keys, r))[f] ==
              if exists k :: k in keys && db.findings[k].role == r && db.findings[k].finding == f then 1 else 0
  {
    hide FindingOk, FindingKey, FindingsOk;
    if keys != [] {
      var front, last := keys[..|keys| - 1], keys[|keys| - 1];
      FindingsInMembers(db, sid, front, r, f);
      KeyOf(db, sid, keys, r, f.id);
      assert forall k :: k in keys <==> k in front || k == last;
      assert forall i :: 0 <= i < |front| ==> keys[i] == front[i] && keys[i] != last;
    }
  }

  lemma {:induction false} FindingsInUnique(db: Db, sid: string, keys: seq<string>, r: Role)
    requires FindingsOk(db) && RowKeys(db, sid, keys)
    ensures UniqueIdsOf(FindingsIn(db, keys, r))
    ensures forall f :: f in FindingsIn(db, keys, r) ==>
              exists k :: k in keys && db.findings[k].role == r && db.findings[k].finding == f
  {
    hide FindingOk, FindingKey, FindingsOk;
    if keys != [] {
      var front, last := keys[..|keys| - 1], keys[|keys| - 1];
      FindingsInUnique(db, sid, front, r);
      assert forall k :: k in keys <==> k in front || k == last;
      assert forall i :: 0 <= i < |front| ==> keys[i] == front[i] && keys[i] != last;
      var fs, row := FindingsIn(db, front, r), db.findings[last];
      KeyOf(db, sid, keys, r, row.finding.id);
      if row.role == r {
        forall f | f in fs ensures f.id != row.finding.id {
          var k :| k in front && db.findings[k].role == r && db.findings[k].finding == f;
        }
        assert FindingsIn(db, keys, r) == fs + [row.finding];
      }
    }
  }

  /** Two result sets of the same query give each role the same findings, up to order. */
  lemma SameFindings(db: Db, sid: string, xs: seq<string>, ys: seq<string>, r: Role)
    requires FindingsOk(db) && ResultSet(db, sid, xs) && ResultSet(db, sid, ys)
    ensures multiset(FindingsIn(db, xs, r)) == multiset(FindingsIn(db, ys, r))
  {
    hide FindingsIn, FindingsOk, RowCounts;
    ResultSetRows(db, sid, xs);
    ResultSetRows(db, sid, ys);
    forall f: Finding ensures multiset(FindingsIn(db, xs, r))[f] == multiset(FindingsIn(db, ys, r))[f] {
      FindingsInMembers(db, sid, xs, r, f);
      FindingsInMembers(db, sid, ys, r, f);
      assert forall k :: k in xs <==> k in ys;
    }
  }

  lemma ResultSetRows(db: Db, sid: string, keys: seq<string>)
    requires ResultSet(db, sid, keys)
    ensures RowKeys(db, sid, keys) && forall k :: k in keys ==> k in db.findings
  {
  }

  lemma OutcomesReordered(db: Db, sid: string, rs: RoleMap, xs: seq<string>, ys: seq<string>)
    requires FindingsOk(db) && AllRoles(rs) && ResultSet(db, sid, xs) && ResultSet(db, sid, ys)
    requires (forall k :: k in xs ==> k in db.findings) && (forall k :: k in ys ==> k in db.findings)
    ensures OutcomesOk(OutcomesOf(db, rs, xs)) && Reordered(OutcomesOf(db, rs, xs), OutcomesOf(db, rs, ys))
  {
    hide FindingsIn, FindingsOk, ResultSet, RowKeys;
    var os, ps := OutcomesOf(db, rs, xs), OutcomesOf(db, rs, ys);
    ResultSetRows(db, sid, xs);
    forall r: Role ensures UniqueIdsOf(FindingsIn(db, xs, r))
                        && multiset(FindingsIn(db, xs, r)) == multiset(FindingsIn(db, ys, r))
    {
      FindingsInUnique(db, sid, xs, r);
      SameFindings(db, sid, xs, ys, r);
    }
    forall i | 0 <= i < |ROLES| ensures Same(os[i], ps[i]) && Same(ps[i], os[i]) && UniqueIdsOf(os[i].findings) {
      assert os[i] == OutcomeOf(db, rs, xs, ROLES[i]) && ps[i] == OutcomeOf(db, rs, ys, ROLES[i]);
    }
    AlongsideWithin(os, ps);
    AlongsideWithin(ps, os);
    RolesApart(db, rs, xs);
    RolesApart(db, rs, ys);
    forall o | o in os ensures UniqueIdsOf(o.findings) {
      var i :| 0 <= i < |ROLES| && os[i] == o;
    }
  }

  lemma RolesApart(db: Db, rs: RoleMap, keys: seq<string>)
    requires AllRoles(rs) && forall k :: k in keys ==> k in db.findings
    ensures RolesDiffer(OutcomesOf(db, rs, keys))
  {
    hide FindingsIn;
  }

  lemma AlongsideWithin(os: seq<RoleOutcome>, ps: seq<RoleOutcome>)
    requires |os| == |ps| && forall i :: 0 <= i < |os| ==> Same(os[i], ps[i])
    ensures Within(os, ps)
  {
    hide Same;
    forall a | a in os ensures exists b :: b in ps && Same(a, b) {
      var i :| 0 <= i < |os| && os[i] == a;
      assert ps[i] in ps;
    }
  }

  /** The order in which SQLite returns the rows does not show in the report. */
  lemma RowOrderDoesNotMatter(db: Db, sid: string, xs: seq<string>, ys: seq<string>, v: Verdict)
    requires FindingsOk(db) && sid in db.sessions && AllRoles(RolesOf(db, sid))
    requires ResultSet(db, sid, xs) && ResultSet(db, sid, ys)
    requires (forall k :: k in xs ==> k in db.findings) && (forall k :: k in ys ==> k in db.findings)
    ensures ReportWith(db, sid, xs, v) == ReportWith(db, sid, ys, v)
  {
    hide FindingsOk, ResultSet, OutcomesOf, OutcomesOk, Reordered, Built;
    var rs, s := RolesOf(db, sid), db.sessions[sid];
    OutcomesReordered(db, sid, rs, xs, ys);
    var hash := if s.snapshotId in db.snapshots then db.snapshots[s.snapshotId].hash else [];
    ReportPermutes(sid, s.snapshotId, hash, OutcomesOf(db, rs, xs), OutcomesOf(db, rs, ys), v, s.cancelRequested);
  }

  // ---- Nothing a report is made of changes once its session is terminal ------------------------

  /** The session's rows, its roles' rows, its snapshot and its findings are the same in both databases. */
  ghost predicate SameRecord(a: Db, b: Db, sid: string)
  {
    && sid in a.sessions && sid in b.sessions && b.sessions[sid] == a.sessions[sid]
    && sid in a.roles && sid in b.roles && b.roles[sid] == a.roles[sid]
    && a.sessions[sid].snapshotId in a.snapshots && a.sessions[sid].snapshotId in b.snapshots
    && b.snapshots[a.sessions[sid].snapshotId] == a.snapshots[a.sessions[sid].snapshotId]
    && (forall k :: k in a.findings && a.findings[k].sessionId == sid ==>
      k in b.findings && b.findings[k] == a.findings[k])
    && (forall k :: k in b.findings && b.findings[k].sessionId == sid ==>
      k in a.findings && a.findings[k] == b.findings[k])
  }

  lemma TerminalRoles(s: Session, rs: RoleMap)
    requires SessionOk(s, rs) && s.status.IsTerminal()
    ensures AllRoles(rs) && AllTerminal(rs) && s.reason.Some?
    ensures Verdict(s.status, s.reason.value, s.completed, s.incomplete) == Decide(RowsOf(rs))
  {
    hide Decide, RoleRunRowOk, RunFollows, SessionRowOk;
  }

  lemma TerminalRunStays(s: Session, a: RoleRun, b: RoleRun)
    requires RunStep(s, a, b) && a.status.IsTerminal()
    ensures a == b
  {
  }

  lemma TerminalSessionStays(a: Session, b: Session)
    requires SessionStep(a, b) && a.status.IsTerminal()
    ensures a == b
  {
  }

  lemma TerminalRolesStay(db: Db, next: Db, sid: string)
    requires Inv(db) && Inv(next) && StepOk(db, next) && sid in db.sessions && db.sessions[sid].status.IsTerminal()
    ensures sid in next.sessions && next.sessions[sid] == db.sessions[sid]
    ensures sid in db.roles && sid in next.roles && next.roles[sid] == db.roles[sid] && AllTerminal(db.roles[sid])
    ensures RolesOf(db, sid) == db.roles[sid]
  {
    hide Inv, StepOk, SessionOk, RunStep, SessionStep;
    AtSession(db, sid);
    StepSession(db, next, sid);
    AtSession(next, sid);
    TerminalSessionStays(db.sessions[sid], next.sessions[sid]);
    TerminalRoles(db.sessions[sid], db.roles[sid]);
    TerminalRoles(next.sessions[sid], next.roles[sid]);
    forall r: Role ensures next.roles[sid][r] == db.roles[sid][r] {
      assert r in db.roles[sid];
      StepRun(db, next, sid, r);
      TerminalRunStays(db.sessions[sid], db.roles[sid][r], next.roles[sid][r]);
    }
    assert next.roles[sid].Keys == db.roles[sid].Keys;
  }

  lemma SessionSnapshot(db: Db, sid: string)
    requires Inv(db) && sid in db.sessions
    ensures db.sessions[sid].snapshotId in db.snapshots
  {
    hide SessionOk;
  }

  lemma TerminalStepStays(db: Db, next: Db, sid: string)
    requires Inv(db) && Inv(next) && StepOk(db, next) && sid in db.sessions && db.sessions[sid].status.IsTerminal()
    ensures SameRecord(db, next, sid)
  {
    hide Inv, StepOk;
    TerminalRolesStay(db, next, sid);
    SessionSnapshot(db, sid);
    StepTables(db, next);
    forall k | k in next.findings && next.findings[k].sessionId == sid ensures k in db.findings {
      NotInFlight(db.roles[sid], next.findings[k].role);
    }
  }

  lemma NotInFlight(rs: RoleMap, r: Role)
    requires AllTerminal(rs)
    ensures !Is(rs, r, InFlight)
  {
  }

  lemma SameRecordTrans(a: Db, b: Db, c: Db, sid: string)
    requires SameRecord(a, b, sid) && SameRecord(b, c, sid)
    ensures SameRecord(a, c, sid)
  {
  }

  lemma {:induction false} TerminalStays(db: Db, steps: seq<Step>, sid: string)
    requires Inv(db) && sid in db.sessions && db.sessions[sid].status.IsTerminal()
    ensures SameRecord(db, Exec(db, steps), sid)
    decreases |steps|
  {
    hide Inv, StepOk, Apply, SameRecord;
    if steps == [] {
      NoChange(db);
      TerminalStepStays(db, db, sid);
    } else {
      var before := Exec(db, steps[..|steps| - 1]);
      TerminalStays(db, steps[..|steps| - 1], sid);
      ExecKeeps(db, steps[..|steps| - 1]);
      ApplyKeeps(before, steps[|steps| - 1]);
      SameRecordSession(db, before, sid);
      TerminalStepStays(before, Apply(before, steps[|steps| - 1]), sid);
      SameRecordTrans(db, before, Exec(db, steps), sid);
    }
  }

  lemma SameRecordSession(a: Db, b: Db, sid: string)
    requires SameRecord(a, b, sid)
    ensures sid in b.sessions && b.sessions[sid] == a.sessions[sid] && RolesOf(b, sid) == RolesOf(a, sid)
  {
  }

  lemma SameResultSet(a: Db, b: Db, sid: string, keys: seq<string>)
    requires SameRecord(a, b, sid)
    ensures ResultSet(a, sid, keys) <==> ResultSet(b, sid, keys)
  {
    forall k ensures RowCounts(a, sid, k) <==> RowCounts(b, sid, k) {
    }
  }

  lemma {:induction false} SameFindingsIn(a: Db, b: Db, sid: string, keys: seq<string>, r: Role)
    requires SameRecord(a, b, sid) && RowKeys(a, sid, keys) && RowKeys(b, sid, keys)
    ensures FindingsIn(a, keys, r) == FindingsIn(b, keys, r)
  {
    if keys != [] {
      SameFindingsIn(a, b, sid, keys[..|keys| - 1], r);
      assert keys[|keys| - 1] in keys;
    }
  }

  lemma SameReport(a: Db, b: Db, sid: string, keys: seq<string>, v: Verdict)
    requires SameRecord(a, b, sid) && RowKeys(a, sid, keys) && RowKeys(b, sid, keys) && AllRoles(RolesOf(a, sid))
    ensures ReportWith(a, sid, keys, v) == ReportWith(b, sid, keys, v)
  {
    hide FindingsIn, Built;
    forall r: Role ensures FindingsIn(a, keys, r) == FindingsIn(b, keys, r) {
      SameFindingsIn(a, b, sid, keys, r);
    }
  }

  /** Composition writes the session row only, and the report it returns is the one read from what it wrote. */
  lemma ComposeWrites(db: Db, project: string, rawId: string, keys: seq<string>, now: Instant)
    requires forall k :: k in keys ==> k in db.findings
    requires ComposeSession(db, project, rawId, keys, now).result.Composed?
    ensures !Blank(TrimSpace(rawId))
    ensures var o, sid := ComposeSession(db, project, rawId, keys, now), TrimSpace(rawId);
            && sid != "" && sid in db.sessions && sid in o.db.sessions && o.db == db.(sessions := o.db.sessions)
            && AllRoles(RolesOf(db, sid)) && RolesOf(o.db, sid) == RolesOf(db, sid)
            && var v, s := Decide(RowsOf(RolesOf(db, sid))), o.db.sessions[sid];
               && s == ComposedSession(db.sessions[sid], v, now)
                 && v == Verdict(s.status, v.reason, s.completed, s.incomplete)
               && s.reason == Some(v.reason) && s.status.IsTerminal()
               && o.result.report == ReportWith(db, sid, keys, v) == ReportWith(o.db, sid, keys, v)
  {
    hide TrimSpace, Decide, RowsOf, OutcomesOf, Built, Composable, Blank;
    TrimmedNotBlank(rawId);
    var sid := TrimSpace(rawId);
    var rs := RolesOf(db, sid);
    VerdictTerminal(RowsOf(rs));
    var o := ComposeSession(db, project, rawId, keys, now);
    assert OutcomesOf(o.db, rs, keys) == OutcomesOf(db, rs, keys) by {
      SameFindingsTable(db, o.db, rs, keys);
    }
  }

  lemma {:induction false} SameFindingsTableIn(a: Db, b: Db, keys: seq<string>, r: Role)
    requires a.findings == b.findings && forall k :: k in keys ==> k in a.findings
    ensures FindingsIn(a, keys, r) == FindingsIn(b, keys, r)
  {
    if keys != [] {
      SameFindingsTableIn(a, b, keys[..|keys| - 1], r);
    }
  }

  lemma SameFindingsTable(a: Db, b: Db, rs: RoleMap, keys: seq<string>)
    requires a.findings == b.findings && AllRoles(rs) && forall k :: k in keys ==> k in a.findings
    ensures OutcomesOf(a, rs, keys) == OutcomesOf(b, rs, keys)
  {
    hide FindingsIn;
    forall r: Role ensures FindingsIn(a, keys, r) == FindingsIn(b, keys, r) {
      SameFindingsTableIn(a, b, keys, r);
    }
  }

  lemma TrimmedNotBlank(rawId: string)
    ensures TrimSpace(rawId) != "" ==> !Blank(TrimSpace(rawId))
    ensures TrimSpace(TrimSpace(rawId)) == TrimSpace(rawId)
  {
    TrimIdempotent(rawId);
  }

  lemma ReportLater(mid: Db, final: Db, sid: string, keys: seq<string>, later: seq<string>, v: Verdict)
    requires SameRecord(mid, final, sid) && FindingsOk(final) && AllRoles(RolesOf(mid, sid))
    requires ResultSet(mid, sid, keys) && ResultSet(final, sid, later)
    requires (forall k :: k in keys ==> k in mid.findings) && (forall k :: k in later ==> k in final.findings)
    ensures ReportWith(final, sid, later, v) == ReportWith(mid, sid, keys, v)
  {
    hide FindingsOk, SameRecord, ResultSet, OutcomesOf, Built;
    SameResultSet(mid, final, sid, keys);
    ResultSetRows(final, sid, keys);
    ResultSetRows(mid, sid, keys);
    SameRecordSession(mid, final, sid);
    RowOrderDoesNotMatter(final, sid, keys, later, v);
    SameReport(mid, final, sid, keys, v);
  }

  lemma InvFindings(db: Db)
    requires Inv(db)
    ensures FindingsOk(db)
  {
  }

  /**
   * The report of the composition that succeeds is the report read ever after, whatever further steps run
   * (cancellations, stale publications, recoveries, other sessions) and in whatever order rows come back;
   * composing again returns it too and writes nothing. Under another project's scope the session is not found.
   */
  lemma ReportFrozen(db: Db, project: string, rawId: string, keys: seq<string>, now: Instant,
                     steps: seq<Step>, later: seq<string>, again: Instant, scope: string)
    requires Inv(db) && forall k :: k in keys ==> k in db.findings
    requires ComposeSession(db, project, rawId, keys, now).result.Composed? && ResultSet(db, TrimSpace(rawId), keys)
    requires var final := Exec(ComposeSession(db, project, rawId, keys, now).db, steps);
             (forall k :: k in later ==> k in final.findings) && ResultSet(final, TrimSpace(rawId), later)
    ensures var o, sid := ComposeSession(db, project, rawId, keys, now), TrimSpace(rawId);
            && sid in db.sessions
            && var final := Exec(o.db, steps);
            var ours := scope == "" || scope == db.sessions[sid].projectId;
            && ReadReport(final, scope, sid, later) == (if ours then ReportOk(o.result.report) else ReportNotFound)
            && ComposeSession(final, scope, rawId, later, again)
              == Outcome(final, if ours then AlreadyComposed(ReportOk(o.result.report)) else ComposeNotFound)
  {
    hide Inv, StepOk, SameRecord, ResultSet, TrimSpace, Decide, ComposedSession, ReportWith, Exec, RowsOf, Composable,
      ReadReport, ComposeSession;
    var o, sid := ComposeSession(db, project, rawId, keys, now), TrimSpace(rawId);
    ComposeWrites(db, project, rawId, keys, now);
    ComposeScope(db, project, rawId, keys, now);
    ResultSetSameTables(db, o.db, sid, keys);
    ComposeKeepsAll(db, project, rawId, keys, now);
    ExecKeeps(o.db, steps);
    TerminalStays(o.db, steps, sid);
    InvFindings(Exec(o.db, steps));
    var v := Decide(RowsOf(RolesOf(db, sid)));
    SameProject(db.sessions[sid], v, now);
    SameRecordSession(o.db, Exec(o.db, steps), sid);
    ReadLater(o.db, Exec(o.db, steps), o.db.sessions[sid].projectId, sid, keys, later, v);
    if scope == "" || scope == db.sessions[sid].projectId {
      ReadLater(o.db, Exec(o.db, steps), scope, sid, keys, later, v);
      ComposeAgain(Exec(o.db, steps), scope, rawId, later, again);
    } else {
      OutOfScope(Exec(o.db, steps), scope, rawId, later, again);
    }
  }

  lemma ComposeScope(db: Db, project: string, rawId: string, keys: seq<string>, now: Instant)
    requires forall k :: k in keys ==> k in db.findings
    requires ComposeSession(db, project, rawId, keys, now).result.Composed?
    ensures Scoped(db, project, TrimSpace(rawId))
  {
    hide TrimSpace, Decide, RowsOf, Composable, ReportWith;
  }

  lemma ReadLater(mid: Db, final: Db, project: string, sid: string, keys: seq<string>, later: seq<string>, v: Verdict)
    requires SameRecord(mid, final, sid) && FindingsOk(final) && AllRoles(RolesOf(mid, sid)) && !Blank(sid)
    requires ResultSet(mid, sid, keys) && ResultSet(final, sid, later)
    requires (forall k :: k in keys ==> k in mid.findings) && (forall k :: k in later ==> k in final.findings)
    requires Scoped(mid, project, sid) && mid.sessions[sid].status.IsTerminal() && mid.sessions[sid].reason.Some?
    requires var s := mid.sessions[sid]; v == Verdict(s.status, s.reason.value, s.completed, s.incomplete)
    ensures ReadReport(final, project, sid, later) == ReportOk(ReportWith(mid, sid, keys, v))
  {
    hide FindingsOk, SameRecord, ResultSet, ReportWith, Blank;
    SameRecordSession(mid, final, sid);
    ReportLater(mid, final, sid, keys, later, v);
  }

  lemma ComposeAgain(db: Db, project: string, rawId: string, keys: seq<string>, now: Instant)
    requires forall k :: k in keys ==> k in db.findings
    requires TrimSpace(rawId) != "" && Scoped(db, project, TrimSpace(rawId))
    requires db.sessions[TrimSpace(rawId)].status.IsTerminal()
    ensures ComposeSession(db, project, rawId, keys, now)
         == Outcome(db, AlreadyComposed(ReadReport(db, db.sessions[TrimSpace(rawId)].projectId, TrimSpace(rawId),
                                                   keys)))
  {
    hide TrimSpace, Decide, RowsOf, Composable, ReportWith, ReadReport;
  }

  lemma OutOfScope(db: Db, scope: string, rawId: string, keys: seq<string>, now: Instant)
    requires (forall k :: k in keys ==> k in db.findings) && !Scoped(db, scope, TrimSpace(rawId))
    ensures ReadReport(db, scope, TrimSpace(rawId), keys) == ReportNotFound
    ensures ComposeSession(db, scope, rawId, keys, now) == Outcome(db, ComposeNotFound)
  {
    hide TrimSpace, Decide, RowsOf, Composable, ReportWith;
  }

  lemma SameProject(s: Session, v: Verdict, now: Instant)
    ensures ComposedSession(s, v, now).projectId == s.projectId
  {
  }

  lemma ResultSetSameTables(a: Db, b: Db, sid: string, keys: seq<string>)
    requires ResultSet(a, sid, keys) && b == a.(sessions := b.sessions)
    ensures ResultSet(b, sid, keys)
  {
    forall k ensures RowCounts(a, sid, k) <==> RowCounts(b, sid, k) {
    }
  }

  /** Before its session is terminal a report is not read, and one that is not there or not in scope is not found. */
  lemma ReadRefuses(db: Db, project: string, sid: string, keys: seq<string>)
    requires Inv(db) && forall k :: k in keys ==> k in db.findings
    ensures var r, found := ReadReport(db, project, sid, keys), !Blank(sid) && Scoped(db, project, sid);
            && (r == ReportNotFound <==> !found)
            && (found ==>
                  && (r == NotTerminalYet(db.sessions[sid].status) <==> !db.sessions[sid].status.IsTerminal())
                  && (r.ReportOk? <==> db.sessions[sid].status.IsTerminal()))
  {
    hide Inv, Blank, SessionOk, ReportWith, Decide;
    if Scoped(db, project, sid) {
      AtSession(db, sid);
      if db.sessions[sid].status.IsTerminal() {
        TerminalRoles(db.sessions[sid], db.roles[sid]);
      }
    }
  }
}
