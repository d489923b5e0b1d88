/**
 * Schedule independence: when no cancellation, cutoff or deadline fires, every interleaving of dispatcher,
 * goroutines and coordinator composes the report of the sequential engine, up to the last call purposes.
 */
module Schedules {
  import opened Options
  import opened Text
  import opened Domain
  import opened Evidence
  import opened Composer
  import opened ReportOrder
  import opened Timestamps
  import opened Records
  import opened Database
  import opened DbInvariant
  import opened DbSteps
  import opened DbProgress
  import opened DbEffects
  import opened FrozenReports
  import opened RoleRunner
  import opened Worker
  import opened WorkerSafety
  import Engine
  import Sorting
  import Validation

  // ---- Outcomes that publish ------------------------------------------------------------------

  /** An outcome Execute can produce against these units, with a canonical category if it failed. */
  predicate Fit(units: seq<Unit>, out: RoleOutcome)
  {
    && out.cause == None && out.callCount <= MAX_PROVIDER_CALLS_PER_ROLE
    && (out.status.RoleComplete? || out.status.RoleFailed?)
    && (out.status.RoleComplete? ==>
          1 <= out.callCount && Validation.StructureOk(out.findings) && out.errorCategory == ""
          && forall f :: f in out.findings ==> RefsKnown(units, f))
    && (out.status.RoleFailed? ==> out.findings == [] && IsValidErrorCategory(out.errorCategory))
  }

  /** What RunRole accounts for fits, unless the provider's last error had a category of its own making. */
  lemma AccountedFits(env: Env, t: CallTiming, id: string, units: seq<Unit>, prompt: Prompt, maxTokens: int,
                      out: RoleOutcome, calls: seq<Call>)
    requires Freezable(id, units) && Accounts(env, t, Frozen(id, units), prompt, maxTokens, out, calls)
    ensures Fit(units, out) <==> out.status.RoleComplete? || !OddCategory(env, calls)
  {
    hide Freezable, Frozen, Accounts, OddCategory, Validation.StructureOk, RefsKnown, Blank;
    Named();
    HandoffPasses(env, t, id, units, prompt, maxTokens, out, calls, "", "", "s", "s:qa");
    CallBound(env, t, Frozen(id, units), prompt, maxTokens, out, calls);
    AccountedShape(env, t, id, units, prompt, maxTokens, out, calls);
    if out.status.RoleComplete? {
      forall f | f in out.findings ensures RefsKnown(units, f) {
        CitesMeansKnown(id, units, f);
      }
    }
  }

  lemma Named()
    ensures !Blank("s") && !Blank("s:qa")
  {
    TrimEdges("s");
    TrimEdges("s:qa");
    assert "s"[0] == 's' && "s:qa"[0] == 's';
  }

  lemma AccountedShape(env: Env, t: CallTiming, id: string, units: seq<Unit>, prompt: Prompt, maxTokens: int,
                       out: RoleOutcome, calls: seq<Call>)
    requires Accounts(env, t, Frozen(id, units), prompt, maxTokens, out, calls)
    ensures out.cause == None && (out.status.RoleComplete? || out.status.RoleFailed?)
    ensures out.status.RoleFailed? ==> out.findings == []
    ensures out.status.RoleComplete? ==> out.errorCategory == "" && calls != []
  {
    hide Frozen, Validation.Accepted, BackoffEnds, DeadlineKept;
  }

  lemma CitesMeansKnown(id: string, units: seq<Unit>, f: Finding)
    ensures Validation.Cites(f, Frozen(id, units)) <==> RefsKnown(units, f)
  {
  }

  // ---- What is stored of an outcome ---------------------------------------------------------------

  predicate HasFinding(db: Db, sid: string, r: Role, f: Finding)
  {
    exists k :: k in db.findings && db.findings[k] == FindingRow(sid, r, f)
  }

  predicate RunMatches(run: RoleRun, out: RoleOutcome)
  {
    && run.status == out.status && run.cause == out.cause && run.callCount == out.callCount
    && out.errorCategory == (if run.errorCategory.Some? then run.errorCategory.value else "")
  }

  ghost predicate Stored(db: Db, sid: string, r: Role, out: RoleOutcome)
  {
    && r in RolesOf(db, sid) && RunMatches(RolesOf(db, sid)[r], out)
    && forall f :: HasFinding(db, sid, r, f) <==> out.status.RoleComplete? && f in out.findings
  }

  /** A published outcome is stored, whole. */
  lemma PublishStores(db: Db, sid: string, r: Role, out: RoleOutcome, message: string, at: Instant)
    requires Inv(db) && sid in db.sessions && Is(RolesOf(db, sid), r, InFlight) && out.role == r && !Blank(sid)
    requires RolesOf(db, sid)[r].startedAt.Some? ==> at >= RolesOf(db, sid)[r].startedAt.value
    requires Fit(UnitsStored(db, db.sessions[sid].snapshotId), out) && KeysFree(db, sid, r, out)
    ensures var o := Publish(db, PublicationFor(db, sid, r, out, message), at);
            && o.result.Published? && o.db.sessions == db.sessions && o.db.snapshots == db.snapshots
            && Stored(o.db, sid, r, out)
            && (forall q, other :: q != r && Stored(db, sid, q, other) ==> Stored(o.db, sid, q, other))
            && (forall q :: q in RolesOf(db, sid) && q != r ==>
              q in RolesOf(o.db, sid) && RolesOf(o.db, sid)[q] == RolesOf(db, sid)[q])
  {
    hide Inv, Blank, RefsKnown, Validation.StructureOk, Publish, KeysFree, Is, PublishedRun;
    PublishEffect(db, sid, r, out, message, at);
    var pub := PublicationFor(db, sid, r, out, message);
    var o := Publish(db, pub, at);
    PublishSnapshots(db, pub, at);
    InFlightRun(db, sid, r);
    PublishedRunMatches(RolesOf(db, sid)[r], db, sid, r, out, message, at);
    assert RolesOf(o.db, sid)[r] == PublishedRun(RolesOf(db, sid)[r], pub, at);
    FitDistinct(UnitsStored(db, db.sessions[sid].snapshotId), out);
    FindingsAfter(db, o.db, sid, r, out);
    forall q, other | q != r && Stored(db, sid, q, other) ensures Stored(o.db, sid, q, other) {
    }
  }

  lemma FitDistinct(units: seq<Unit>, out: RoleOutcome)
    requires Fit(units, out)
    ensures Validation.DistinctIds(out.findings)
  {
    hide RefsKnown, Validation.FindingOk;
  }

  lemma PublishSnapshots(db: Db, pub: Publication, at: Instant)
    ensures Publish(db, pub, at).db.snapshots == db.snapshots
  {
    hide PublishFault, RoleWithId, RefsKnown, FindingRows, FindingKeys, Validation.SuccessOk, Validation.FailureOk;
  }

  lemma InFlightRun(db: Db, sid: string, r: Role)
    requires Inv(db) && sid in db.sessions && Is(RolesOf(db, sid), r, InFlight)
    ensures r in RolesOf(db, sid) && RolesOf(db, sid)[r].cause.None? && RolesOf(db, sid)[r].errorCategory.None?
    ensures forall f :: !HasFinding(db, sid, r, f)
  {
    hide SessionOk, RunFollows;
    AtSession(db, sid);
    RowsOk(db.sessions[sid], db.roles[sid]);
    assert RoleRunRowOk(db.roles[sid][r]);
    NoFindingsYet(db, sid, r);
  }

  lemma NoFindingsYet(db: Db, sid: string, r: Role)
    requires FindingsOk(db) && !Is(RolesOf(db, sid), r, RoleComplete)
    ensures forall f :: !HasFinding(db, sid, r, f)
  {
    hide Validation.FindingOk, Validation.TableRowOk, RefsKnown, FindingKey;
    forall k | k in db.findings ensures !(db.findings[k].sessionId == sid && db.findings[k].role == r) {
      assert FindingOk(db, k);
    }
  }

  lemma PublishedRunMatches(run: RoleRun, db: Db, sid: string, r: Role, out: RoleOutcome, message: string, at: Instant)
    requires sid in db.sessions && run.cause.None? && run.errorCategory.None? && out.cause == None
    requires out.callCount <= 2 && (out.status.RoleComplete? || out.status.RoleFailed?)
    requires out.status.RoleComplete? ==> 1 <= out.callCount && out.errorCategory == ""
    ensures var pub := PublicationFor(db, sid, r, out, message);
            && (pub.Success? ==> pub.success.callCount >= 0) && (pub.Failure? ==> pub.failure.callCount >= 0)
            && RunMatches(PublishedRun(run, pub, at), out)
  {
    hide RoleRunId;
  }

  lemma FindingsAfter(db: Db, next: Db, sid: string, r: Role, out: RoleOutcome)
    requires next.findings == if out.status.RoleComplete? then db.findings + FindingRows(sid, r, out.findings)
             else db.findings
    requires KeysFree(db, sid, r, out) && forall f :: !HasFinding(db, sid, r, f)
    requires out.status.RoleComplete? || out.findings == []
    requires Validation.DistinctIds(out.findings)
    ensures forall f :: HasFinding(next, sid, r, f) <==> out.status.RoleComplete? && f in out.findings
    ensures forall q, f :: q != r ==> (HasFinding(next, sid, q, f) <==> HasFinding(db, sid, q, f))
  {
    hide FindingRows, HasFinding, KeysFree;
    if out.status.RoleComplete? {
      forall q, f ensures HasFinding(next, sid, q, f) <==> HasFinding(db, sid, q, f) || (q == r && f in out.findings) {
        FindingAdded(db, next, sid, r, out, q, f);
      }
    } else {
      forall q, f ensures HasFinding(next, sid, q, f) <==> HasFinding(db, sid, q, f) {
        SameTable(db, next, sid, q, f);
      }
    }
  }

  lemma SameTable(db: Db, next: Db, sid: string, q: Role, f: Finding)
    requires next.findings == db.findings
    ensures HasFinding(next, sid, q, f) <==> HasFinding(db, sid, q, f)
  {
  }

  lemma FindingAdded(db: Db, next: Db, sid: string, r: Role, out: RoleOutcome, q: Role, f: Finding)
    requires next.findings == db.findings + FindingRows(sid, r, out.findings) && KeysFree(db, sid, r, out)
    requires Validation.DistinctIds(out.findings)
    ensures HasFinding(next, sid, q, f) <==> HasFinding(db, sid, q, f) || (q == r && f in out.findings)
  {
    hide FindingRows, FindingKey, HasFinding, KeysFree;
    if HasFinding(db, sid, q, f) {
      OldFinding(db, next, sid, r, out, q, f);
    }
    if q == r && f in out.findings {
      NewFinding(next, db.findings, sid, r, out, f);
    }
    if HasFinding(next, sid, q, f) {
      OneOfThese(db, next, sid, r, out, q, f);
    }
  }

  lemma OldFinding(db: Db, next: Db, sid: string, r: Role, out: RoleOutcome, q: Role, f: Finding)
    requires next.findings == db.findings + FindingRows(sid, r, out.findings) && KeysFree(db, sid, r, out)
    requires HasFinding(db, sid, q, f)
    ensures HasFinding(next, sid, q, f)
  {
    hide FindingRows, FindingKeys;
    FindingRowsMeaning(sid, r, out.findings);
    Disjoint(FindingKeys(sid, r, out.findings), db.findings.Keys);
    var k :| k in db.findings && db.findings[k] == FindingRow(sid, q, f);
    assert k in next.findings && next.findings[k] == FindingRow(sid, q, f);
  }

  lemma NewFinding(next: Db, before: map<string, FindingRow>, sid: string, r: Role, out: RoleOutcome, f: Finding)
    requires next.findings == before + FindingRows(sid, r, out.findings)
    requires Validation.DistinctIds(out.findings) && f in out.findings
    ensures HasFinding(next, sid, r, f)
  {
    hide FindingRows;
    var rows := FindingRows(sid, r, out.findings);
    RowFor(sid, r, out.findings, f);
    var k :| k in rows && rows[k] == FindingRow(sid, r, f);
    assert k in next.findings && next.findings[k] == FindingRow(sid, r, f);
  }

  lemma OneOfThese(db: Db, next: Db, sid: string, r: Role, out: RoleOutcome, q: Role, f: Finding)
    requires next.findings == db.findings + FindingRows(sid, r, out.findings) && HasFinding(next, sid, q, f)
    ensures HasFinding(db, sid, q, f) || (q == r && f in out.findings)
  {
    hide FindingRows, FindingKeys;
    FindingRowsMeaning(sid, r, out.findings);
    var k :| k in next.findings && next.findings[k] == FindingRow(sid, q, f);
    assert k in db.findings || k in FindingRows(sid, r, out.findings);
  }

  lemma {:induction false} RowFor(sid: string, r: Role, fs: seq<Finding>, f: Finding)
    requires f in fs && Validation.DistinctIds(fs)
    ensures exists k :: k in FindingRows(sid, r, fs) && FindingRows(sid, r, fs)[k] == FindingRow(sid, r, f)
  {
    hide FindingKey;
    var front, last := fs[..|fs| - 1], fs[|fs| - 1];
    if f == last {
      assert FindingRows(sid, r, fs)[FindingKey(sid, r, f.id)] == FindingRow(sid, r, f);
    } else {
      assert f in front;
      RowFor(sid, r, front, f);
      var k :| k in FindingRows(sid, r, front) && FindingRows(sid, r, front)[k] == FindingRow(sid, r, f);
      FindingRowsMeaning(sid, r, front);
      if k == FindingKey(sid, r, last.id) {
        KeyIds(sid, r, f.id, last.id);
        assert false;
      }
      assert FindingRows(sid, r, fs)[k] == FindingRow(sid, r, f);
    }
  }

  lemma KeyIds(sid: string, r: Role, a: string, b: string)
    requires FindingKey(sid, r, a) == FindingKey(sid, r, b)
    ensures a == b
  {
    var n := |RoleRunId(sid, r)| + 1;
    assert a == FindingKey(sid, r, a)[n..] && b == FindingKey(sid, r, b)[n..];
  }

  // ---- Calm runs -----------------------------------------------------------------------------------

  /** No other session has a finding key in common with this one. */
  ghost predicate AllApart(db: Db, sid: string)
  {
    forall other :: other in db.sessions && other != sid ==> Apart(sid, other)
  }

  lemma KeyOwner(db: Db, sid: string, r: Role, id: string)
    requires FindingsOk(db) && AllApart(db, sid) && sid in db.sessions && FindingKey(sid, r, id) in db.findings
    ensures exists f :: HasFinding(db, sid, r, f)
  {
    hide FindingKey, Validation.FindingOk, Validation.TableRowOk, RefsKnown, Apart;
    var k := FindingKey(sid, r, id);
    assert FindingOk(db, k);
    var row := db.findings[k];
    FindingKeyInjective(sid, r, id, row.sessionId, row.role, row.finding.id);
    assert HasFinding(db, sid, r, row.finding);
  }

  /** No finding key of another session can be in the way when their IDs are apart. */
  lemma ApartKeysFree(db: Db, sid: string, r: Role, out: RoleOutcome)
    requires Inv(db) && AllApart(db, sid) && sid in db.sessions && Is(RolesOf(db, sid), r, InFlight)
    ensures KeysFree(db, sid, r, out)
  {
    hide Inv, FindingsOk, AllApart, FindingKey, HasFinding;
    InFlightRun(db, sid, r);
    InvHasFindings(db);
    forall f | f in out.findings ensures FindingKey(sid, r, f.id) !in db.findings {
      if FindingKey(sid, r, f.id) in db.findings {
        KeyOwner(db, sid, r, f.id);
      }
    }
  }

  lemma InvHasFindings(db: Db)
    requires Inv(db)
    ensures FindingsOk(db)
  {
  }

  /** The session's own rows are as they were: no cancellation, cutoff or deadline reached them. */
  ghost predicate Quiet(db: Db, next: Db, sid: string)
  {
    && sid in next.sessions && sid in db.sessions && next.sessions[sid] == db.sessions[sid]
    && RolesOf(next, sid) == RolesOf(db, sid)
  }

  /** No crash and no failure of the store, each role's outcome is the given one, and what others do is quiet. */
  ghost predicate Calm(w: World, u: Worker, a: Action, outcomes: map<Role, RoleOutcome>)
    requires forall r: Role :: r in outcomes
  {
    match a
    case ByRole(Finish(r, out)) => out == outcomes[r]
    case ByRole(PublishFails(_)) => false
    case ByOwner(AskFails) => false
    case ByCoordinator(Fault) => false
    case ByOthers(step) => Quiet(w.db, Apply(w.db, step), u.sid) && AllApart(Apply(w.db, step), u.sid)
    case Crash => false
    case _ => true
  }

  /** The goroutine has its outcome and has not published it. */
  predicate Carries(pc: RolePc)
  {
    pc.Decided? || pc.Cleared?
  }

  predicate Reported(pc: RolePc)
  {
    !pc.Absent? && !pc.Running? && !pc.Decided? && !pc.Cleared?
  }

  /** What a role's goroutine and rows look like on a calm run. */
  ghost predicate FairRole(db: Db, u: Worker, r: Role, out: RoleOutcome)
    requires AllPcs(u.pcs)
  {
    && r in RolesOf(db, u.sid) && !RolesOf(db, u.sid)[r].status.Interrupted?
    && (Carries(u.pcs[r]) ==> u.pcs[r].out == out)
    && (Reported(u.pcs[r]) ==> Stored(db, u.sid, r, out))
  }

  function EngineOutcomes(outcomes: map<Role, RoleOutcome>): (os: seq<RoleOutcome>)
    requires forall r: Role :: r in outcomes
    ensures |os| == |ROLES|
  {
    [outcomes[Requirements], outcomes[Architecture], outcomes[QA], outcomes[Security]]
  }

  /** The engine's report of these outcomes, with no cancellation observed. */
  function EngineReport(sid: string, snap: Snapshot, outcomes: map<Role, RoleOutcome>): Report
    requires forall r: Role :: r in outcomes
  {
    Built(sid, snap.id, snap.hash, EngineOutcomes(outcomes), Composer.Decide(RowsFrom(EngineOutcomes(outcomes))), false)
  }

  /** The invariant of calm runs. */
  ghost predicate Fair(w: World, u: Worker, outcomes: map<Role, RoleOutcome>)
    requires forall r: Role :: r in outcomes
  {
    && u.sid in w.db.sessions && AllPcs(u.pcs) && !u.fatal && u.leaked == {} && AllApart(w.db, u.sid)
    && !w.db.sessions[u.sid].cancelRequested && !u.coord.Sweeping? && !u.coord.Rereading?
    && (forall r: Role :: FairRole(w.db, u, r, outcomes[r]) && outcomes[r].role == r
                          && Fit(UnitsStored(w.db, w.db.sessions[u.sid].snapshotId), outcomes[r]))
    && (u.coord.Finished? ==>
          u.coord.result.Composed?
          && u.coord.result.report == Engine.EraseLastPurpose(EngineReport(u.sid, SnapshotOf(w.db, u.sid), outcomes)))
  }

  // ---- The report of stored outcomes ------------------------------------------------------------------

  lemma {:induction false} MultiplicityOne(fs: seq<Finding>, f: Finding)
    requires Validation.DistinctIds(fs)
    ensures multiset(fs)[f] == if f in fs then 1 else 0
  {
    if fs != [] {
      var front, last := fs[..|fs| - 1], fs[|fs| - 1];
      MultiplicityOne(front, f);
      assert fs == front + [last];
    }
  }

  lemma StoredFindings(db: Db, sid: string, rows: seq<string>, r: Role, out: RoleOutcome)
    requires FindingsOk(db) && ResultSet(db, sid, rows) && Stored(db, sid, r, out)
    requires Validation.DistinctIds(out.findings)
    requires out.status.RoleComplete? || out.findings == []
    requires forall k :: k in rows ==> k in db.findings
    ensures multiset(FindingsIn(db, rows, r)) == multiset(out.findings)
  {
    hide FindingsIn, FindingsOk, RunMatches;
    ResultSetRows(db, sid, rows);
    forall f: Finding ensures multiset(FindingsIn(db, rows, r))[f] == multiset(out.findings)[f] {
      FindingsInMembers(db, sid, rows, r, f);
      MultiplicityOne(out.findings, f);
      RowFound(db, sid, rows, r, out, f);
    }
  }

  lemma RowFound(db: Db, sid: string, rows: seq<string>, r: Role, out: RoleOutcome, f: Finding)
    requires ResultSet(db, sid, rows) && Stored(db, sid, r, out) && forall k :: k in rows ==> k in db.findings
    requires out.status.RoleComplete? || out.findings == []
    ensures (exists k :: k in rows && db.findings[k].role == r && db.findings[k].finding == f) <==> f in out.findings
  {
    if k :| k in rows && db.findings[k].role == r && db.findings[k].finding == f {
      assert RowCounts(db, sid, k);
      assert db.findings[k] == FindingRow(sid, r, f);
      assert HasFinding(db, sid, r, f);
    }
    if f in out.findings {
      assert HasFinding(db, sid, r, f);
      var k :| k in db.findings && db.findings[k] == FindingRow(sid, r, f);
      assert RowCounts(db, sid, k);
    }
  }

  lemma StoredSame(db: Db, sid: string, rows: seq<string>, r: Role, out: RoleOutcome)
    requires FindingsOk(db) && ResultSet(db, sid, rows) && Stored(db, sid, r, out)
    requires Validation.DistinctIds(out.findings)
    requires out.status.RoleComplete? || out.findings == []
    requires out.role == r && forall k :: k in rows ==> k in db.findings
    ensures r in RolesOf(db, sid)
    ensures Same(OutcomeOf(db, RolesOf(db, sid), rows, r), Engine.ErasedOutcome(out))
    ensures UniqueIdsOf(OutcomeOf(db, RolesOf(db, sid), rows, r).findings)
    ensures RoleRow(r, RolesOf(db, sid)[r].status, RolesOf(db, sid)[r].cause)
            == RoleRow(out.role, out.status, out.cause)
  {
    hide FindingsIn, FindingsOk, ResultSet;
    StoredFindings(db, sid, rows, r, out);
    ResultSetRows(db, sid, rows);
    FindingsInUnique(db, sid, rows, r);
  }

  ghost predicate AllStored(db: Db, sid: string, outcomes: map<Role, RoleOutcome>)
    requires forall r: Role :: r in outcomes
  {
    forall r: Role :: Stored(db, sid, r, outcomes[r]) && outcomes[r].role == r
      && Validation.DistinctIds(outcomes[r].findings)
                      && (outcomes[r].status.RoleComplete? || outcomes[r].findings == [])
  }

  lemma StoredRows(db: Db, sid: string, rows: seq<string>, outcomes: map<Role, RoleOutcome>)
    requires forall r: Role :: r in outcomes
    requires FindingsOk(db) && ResultSet(db, sid, rows) && AllStored(db, sid, outcomes)
    requires forall k :: k in rows ==> k in db.findings
    ensures AllRoles(RolesOf(db, sid))
    ensures RowsOf(RolesOf(db, sid)) == RowsFrom(EngineOutcomes(outcomes))
    ensures var os := OutcomesOf(db, RolesOf(db, sid), rows);
            OutcomesOk(os) && Reordered(os, Sorting.Map(Engine.ErasedOutcome, EngineOutcomes(outcomes)))
  {
    hide OutcomeOf, FindingsOk, ResultSet, AllStored, Same, UniqueIdsOf, OutcomesOk, Reordered, RolesDiffer;
    var rs := RolesOf(db, sid);
    forall r: Role ensures StoredAs(db, sid, rows, r, outcomes[r]) {
      OneStored(db, sid, rows, r, outcomes);
    }
    StoredSeq(db, sid, rows, outcomes);
    RolesApart(db, rs, rows);
    Alongside(OutcomesOf(db, rs, rows), Sorting.Map(Engine.ErasedOutcome, EngineOutcomes(outcomes)));
  }

  /** The stored row and findings of a role are those of its outcome. */
  predicate StoredAs(db: Db, sid: string, rows: seq<string>, r: Role, out: RoleOutcome)
  {
    && r in RolesOf(db, sid) && (forall k :: k in rows ==> k in db.findings)
    && Same(OutcomeOf(db, RolesOf(db, sid), rows, r), Engine.ErasedOutcome(out))
    && UniqueIdsOf(OutcomeOf(db, RolesOf(db, sid), rows, r).findings)
    && RowOf(RolesOf(db, sid), r) == RoleRow(out.role, out.status, out.cause)
  }

  lemma OneStored(db: Db, sid: string, rows: seq<string>, r: Role, outcomes: map<Role, RoleOutcome>)
    requires forall q: Role :: q in outcomes
    requires FindingsOk(db) && ResultSet(db, sid, rows) && AllStored(db, sid, outcomes)
    requires forall k :: k in rows ==> k in db.findings
    ensures StoredAs(db, sid, rows, r, outcomes[r])
  {
    hide OutcomeOf, FindingsOk, ResultSet, Stored, Same, UniqueIdsOf;
    StoredSame(db, sid, rows, r, outcomes[r]);
  }

  lemma StoredSeq(db: Db, sid: string, rows: seq<string>, outcomes: map<Role, RoleOutcome>)
    requires forall r: Role :: r in outcomes
    requires forall r: Role :: StoredAs(db, sid, rows, r, outcomes[r])
    ensures AllRoles(RolesOf(db, sid)) && forall k :: k in rows ==> k in db.findings
    ensures RowsOf(RolesOf(db, sid)) == RowsFrom(EngineOutcomes(outcomes))
    ensures var os := OutcomesOf(db, RolesOf(db, sid), rows);
            var ps := Sorting.Map(Engine.ErasedOutcome, EngineOutcomes(outcomes));
            |os| == |ps| && forall i :: 0 <= i < |os| ==> Same(os[i], ps[i]) && UniqueIdsOf(os[i].findings)
  {
    hide OutcomeOf, Same, UniqueIdsOf, Engine.ErasedOutcome, RowOf, RolesOf;
    var rs := RolesOf(db, sid);
    assert StoredAs(db, sid, rows, QA, outcomes[QA]);
    forall r: Role ensures r in rs {
      assert StoredAs(db, sid, rows, r, outcomes[r]);
    }
    var os, ps := OutcomesOf(db, rs, rows), Sorting.Map(Engine.ErasedOutcome, EngineOutcomes(outcomes));
    forall i | 0 <= i < |ROLES| ensures Same(os[i], ps[i]) && UniqueIdsOf(os[i].findings) {
      assert StoredAs(db, sid, rows, ROLES[i], outcomes[ROLES[i]]);
      assert os[i] == OutcomeOf(db, rs, rows, ROLES[i]) && ps[i] == Engine.ErasedOutcome(outcomes[ROLES[i]]);
    }
  }

  lemma Alongside(os: seq<RoleOutcome>, ps: seq<RoleOutcome>)
    requires |os| == |ps| && RolesDiffer(os) && forall i :: 0 <= i < |os| ==>
             Same(os[i], ps[i]) && UniqueIdsOf(os[i].findings)
    ensures OutcomesOk(os) && Reordered(os, ps)
  {
    hide Same, UniqueIdsOf;
    forall i | 0 <= i < |os| ensures Same(ps[i], os[i]) && ps[i].role == os[i].role {
      SameBack(os[i], ps[i]);
    }
    AlongsideWithin(os, ps);
    AlongsideWithin(ps, os);
    assert RolesDiffer(ps);
    forall o | o in os ensures UniqueIdsOf(o.findings) {
      var i :| 0 <= i < |os| && os[i] == o;
    }
  }

  lemma SameBack(a: RoleOutcome, b: RoleOutcome)
    requires Same(a, b)
    ensures Same(b, a)
  {
  }

  /** Stored outcomes compose to the engine's report of them. */
  lemma StoredReport(db: Db, sid: string, rows: seq<string>, outcomes: map<Role, RoleOutcome>)
    requires forall r: Role :: r in outcomes
    requires FindingsOk(db) && ResultSet(db, sid, rows) && AllStored(db, sid, outcomes) && forall k :: k in rows ==>
             k in db.findings
    requires sid in db.sessions && !db.sessions[sid].cancelRequested && AllRoles(RolesOf(db, sid))
    requires db.sessions[sid].snapshotId in db.snapshots
    requires var snap := db.snapshots[db.sessions[sid].snapshotId]; snap.hash == CanonicalHash(snap.units)
    ensures ReportWith(db, sid, rows, Composer.Decide(RowsOf(RolesOf(db, sid))))
         == Engine.EraseLastPurpose(EngineReport(sid, SnapshotOf(db, sid), outcomes))
  {
    hide FindingsOk, ResultSet, AllStored, OutcomesOf, OutcomesOk, Reordered, RowsOf, RowsFrom, Composer.Decide, Built,
      CanonicalHash, EngineOutcomes, Engine.EraseLastPurpose;
    StoredRows(db, sid, rows, outcomes);
    var rs, s := RolesOf(db, sid), db.sessions[sid];
    var hash, v := db.snapshots[s.snapshotId].hash, Composer.Decide(RowsOf(rs));
    var os := EngineOutcomes(outcomes);
    ReportPermutes(sid, s.snapshotId, hash, OutcomesOf(db, rs, rows), Sorting.Map(Engine.ErasedOutcome, os), v, false);
    Engine.ErasedReport(sid, s.snapshotId, hash, os, v, false);
    SnapshotFields(db, sid);
  }

  lemma SnapshotFields(db: Db, sid: string)
    requires sid in db.sessions && db.sessions[sid].snapshotId in db.snapshots
    ensures SnapshotOf(db, sid).id == db.sessions[sid].snapshotId
    ensures SnapshotOf(db, sid).hash == CanonicalHash(db.snapshots[db.sessions[sid].snapshotId].units)
  {
    hide CanonicalHash;
  }

  // ---- Calm steps ---------------------------------------------------------------------------------------

  /** Roles look the same when their rows, their findings and their goroutines do. */
  lemma FairRoleKept(db: Db, u: Worker, next: Db, v: Worker, r: Role, out: RoleOutcome)
    requires AllPcs(u.pcs) && AllPcs(v.pcs) && v.sid == u.sid && FairRole(db, u, r, out)
    requires r in RolesOf(next, u.sid) && RolesOf(next, u.sid)[r] == RolesOf(db, u.sid)[r]
    requires Reported(u.pcs[r]) ==> forall f :: HasFinding(next, u.sid, r, f) <==> HasFinding(db, u.sid, r, f)
    requires Reported(v.pcs[r]) ==> Reported(u.pcs[r])
    requires Carries(v.pcs[r]) ==> v.pcs[r].out == out || (Carries(u.pcs[r]) && v.pcs[r].out == u.pcs[r].out)
    ensures FairRole(next, v, r, out)
  {
    hide HasFinding, RunMatches;
  }

  /** A step of the worker that leaves the database alone. */
  lemma LocalFair(w: World, u: Worker, v: Worker, outcomes: map<Role, RoleOutcome>)
    requires (forall r: Role :: r in outcomes) && Fair(w, u, outcomes)
    requires v.sid == u.sid && AllPcs(v.pcs) && !v.fatal && v.leaked == {}
    requires forall r: Role :: Reported(v.pcs[r]) ==> Reported(u.pcs[r])
    requires forall r: Role ::
               Carries(v.pcs[r]) ==> v.pcs[r].out == outcomes[r] || (Carries(u.pcs[r]) && v.pcs[r].out == u.pcs[r].out)
    requires v.coord == u.coord || !(v.coord.Sweeping? || v.coord.Rereading? || v.coord.Finished?)
    ensures Fair(w.(worker := Some(v)), v, outcomes)
  {
    hide FairRole, Fit, AllApart, EngineReport, SnapshotOf, Engine.EraseLastPurpose, UnitsStored;
    forall r: Role ensures FairRole(w.db, v, r, outcomes[r]) {
      assert FairRole(w.db, u, r, outcomes[r]);
      FairRowThere(w.db, u, r, outcomes[r]);
      FairRoleKept(w.db, u, w.db, v, r, outcomes[r]);
    }
  }

  lemma FairRowThere(db: Db, u: Worker, r: Role, out: RoleOutcome)
    requires AllPcs(u.pcs) && FairRole(db, u, r, out)
    ensures r in RolesOf(db, u.sid)
  {
  }

  lemma OwnerFair(w: World, u: Worker, a: OwnerAction, outcomes: map<Role, RoleOutcome>)
    requires (forall r: Role :: r in outcomes) && Fair(w, u, outcomes) && u.sid in w.db.sessions && OwnerEnabled(u, a)
    requires !a.Ask?
    ensures var x := OwnerDo(w, u, a);
            x.worker.Some? && x.worker.value.sid == u.sid && Fair(x, x.worker.value, outcomes)
  {
    hide FastDecision, FairRole, Fit, AllApart, EngineReport, SnapshotOf, UnitsStored;
    var v := OwnerDo(w, u, a).worker.value;
    OwnerPcs(w, u, a);
    LocalFair(w, u, v, outcomes);
  }

  lemma OwnerPcs(w: World, u: Worker, a: OwnerAction)
    requires u.sid in w.db.sessions && AllPcs(u.pcs) && OwnerEnabled(u, a) && !a.Ask? && !u.fatal
    ensures var x := OwnerDo(w, u, a);
            && x.worker.Some? && x == w.(worker := x.worker)
            && var v := x.worker.value;
               && v.sid == u.sid && AllPcs(v.pcs) && !v.fatal && v.leaked == u.leaked && v.coord == u.coord
               && forall r: Role :: v.pcs[r] == u.pcs[r] || v.pcs[r].Running?
  {
    hide FastDecision;
  }

  lemma CoordFair(w: World, u: Worker, a: CoordAction, outcomes: map<Role, RoleOutcome>)
    requires (forall r: Role :: r in outcomes) && Fair(w, u, outcomes) && CoordEnabled(w, u, a) && !a.Compose?
    requires !a.Fault?
    ensures var x := CoordDo(w, u, a);
            x.worker.Some? && x.worker.value.sid == u.sid && Fair(x, x.worker.value, outcomes)
  {
    hide FairRole, Fit, AllApart, EngineReport, SnapshotOf, UnitsStored, SweepCancellation, ComposeSession, ResultSet;
    CoordPcs(w, u, a);
    LocalFair(w, u, CoordDo(w, u, a).worker.value, outcomes);
  }

  lemma CoordPcs(w: World, u: Worker, a: CoordAction)
    requires AllPcs(u.pcs) && u.sid in w.db.sessions && CoordEnabled(w, u, a) && !a.Compose? && !a.Fault?
    requires !u.coord.Sweeping? && !u.coord.Rereading? && !u.fatal && !w.db.sessions[u.sid].cancelRequested
    ensures var x := CoordDo(w, u, a);
            && x.worker.Some? && x == w.(worker := x.worker)
            && var v := x.worker.value;
               && v.sid == u.sid && v.pcs == u.pcs && !v.fatal && v.leaked == u.leaked
               && (v.coord == u.coord || !(v.coord.Sweeping? || v.coord.Rereading? || v.coord.Finished?))
  {
    hide AllPcs, AllTerminal, AllRoles, RolesOf, ResultSet;
  }

  lemma RoleFair(w: World, u: Worker, a: RoleAction, outcomes: map<Role, RoleOutcome>)
    requires (forall r: Role :: r in outcomes) && Fair(w, u, outcomes) && RoleEnabled(w, u, a)
    requires !a.PublishAt? && !a.PublishFails?
    requires a.Finish? ==> a.out == outcomes[a.r]
    ensures var x := RoleDo(w, u, a); x.worker.Some? && x.worker.value.sid == u.sid && Fair(x, x.worker.value, outcomes)
  {
    hide FairRole, Fit, AllApart, EngineReport, SnapshotOf, UnitsStored, ExecutesTo, CallsOf;
    RolePcs(w, u, a);
    LocalFair(w, u, RoleDo(w, u, a).worker.value, outcomes);
    FairIgnoresCalls(w.(worker := RoleDo(w, u, a).worker), RoleDo(w, u, a), RoleDo(w, u, a).worker.value, outcomes);
  }

  lemma FairIgnoresCalls(w: World, x: World, v: Worker, outcomes: map<Role, RoleOutcome>)
    requires (forall r: Role :: r in outcomes) && Fair(w, v, outcomes) && x.db == w.db
    ensures Fair(x, v, outcomes)
  {
    hide FairRole, Fit, AllApart, EngineReport, SnapshotOf, UnitsStored;
  }

  /** Where a goroutine's step takes it, when it publishes or is not stopped by a fatal error. */
  function NextPc(pc: RolePc, a: RoleAction): RolePc
  {
    match a
    case Provide(_) => if pc.Running? then Running(pc.calls + 1) else pc
    case Finish(_, out) => Decided(out)
    case Clear(_) => if pc.Decided? then Cleared(pc.out) else pc
    case PublishAt(_, _, _) => RolePc.Published
    case PublishFails(_) => Notified
    case Free(_) => Decremented
    case Send(_) => Notified
    case Wake(_) => GateWoken
    case Release(_) => Released
    case Exit(_) => Exited
  }

  /** A goroutine's step changes its own program counter and some counts. */
  lemma RoleFields(w: World, u: Worker, a: RoleAction)
    requires AllPcs(u.pcs) && u.sid in w.db.sessions && RoleEnabled(w, u, a)
    requires !a.PublishAt? && !a.PublishFails? && !u.fatal
    ensures var x := RoleDo(w, u, a);
            && x.worker.Some? && x.db == w.db
            && var v := x.worker.value;
               v == u.(pcs := u.pcs[a.r := NextPc(u.pcs[a.r], a)], local := v.local, comps := v.comps, gate := v.gate,
                       active := v.active)
               && u.gate <= v.gate
  {
    hide ExecutesTo, CallsOf, SnapshotOf, PublishDo;
  }

  lemma NextCarries(pc: RolePc, a: RoleAction)
    requires !a.PublishAt? && !a.PublishFails? && (a.Free? ==> pc.Published?) && (a.Send? ==> pc.Decremented?)
    requires (a.Wake? ==> pc.Notified?) && (a.Release? ==> pc.GateWoken?) && (a.Exit? ==> pc.Released?)
    ensures Reported(NextPc(pc, a)) ==> Reported(pc)
    ensures Carries(NextPc(pc, a)) ==>
              (a.Finish? && NextPc(pc, a).out == a.out) || (Carries(pc) && NextPc(pc, a).out == pc.out)
  {
  }

  lemma RolePcs(w: World, u: Worker, a: RoleAction)
    requires AllPcs(u.pcs) && u.sid in w.db.sessions && RoleEnabled(w, u, a)
    requires !a.PublishAt? && !a.PublishFails? && !u.fatal
    ensures var x := RoleDo(w, u, a);
            && x.worker.Some? && x.db == w.db
            && var v := x.worker.value;
               && v.sid == u.sid && AllPcs(v.pcs) && v.fatal == u.fatal && v.leaked == u.leaked && v.coord == u.coord
               && (forall r: Role :: Reported(v.pcs[r]) ==> Reported(u.pcs[r]))
               && (forall r: Role :: Carries(v.pcs[r]) ==>
                     (a.Finish? && a.r == r && v.pcs[r].out == a.out)
                       || (Carries(u.pcs[r]) && v.pcs[r].out == u.pcs[r].out))
  {
    hide ExecutesTo, CallsOf, SnapshotOf, RoleDo, NextPc, Reported, Carries;
    RoleFields(w, u, a);
    NextCarries(u.pcs[a.r], a);
  }

  /** A change of the database that leaves the session's snapshot and cancellation flag, and keeps every role fair. */
  lemma DbFair(w: World, u: Worker, x: World, v: Worker, outcomes: map<Role, RoleOutcome>)
    requires (forall r: Role :: r in outcomes) && Fair(w, u, outcomes)
    requires v.sid == u.sid && AllPcs(v.pcs) && !v.fatal && v.leaked == {} && v.coord == u.coord
    requires u.sid in x.db.sessions && x.db.sessions[u.sid] == w.db.sessions[u.sid] && AllApart(x.db, u.sid)
    requires UnitsStored(x.db, w.db.sessions[u.sid].snapshotId) == UnitsStored(w.db, w.db.sessions[u.sid].snapshotId)
    requires forall r: Role :: FairRole(x.db, v, r, outcomes[r])
    ensures Fair(x, v, outcomes)
  {
    hide FairRole, Fit, AllApart, EngineReport, UnitsStored, Frozen;
  }

  lemma UnitsKept(db: Db, next: Db, sid: string)
    requires Inv(db) && StepOk(db, next) && sid in db.sessions
    ensures UnitsStored(next, db.sessions[sid].snapshotId) == UnitsStored(db, db.sessions[sid].snapshotId)
  {
    hide Inv, StepOk;
    SessionSnapshot(db, sid);
    StepTables(db, next);
  }

  lemma AskFair(w: World, u: Worker, at: Instant, outcomes: map<Role, RoleOutcome>)
    requires (forall r: Role :: r in outcomes) && WorldOk(w) && w.worker == Some(u) && Fair(w, u, outcomes)
    requires OwnerEnabled(u, Ask(at))
    ensures var x := OwnerDo(w, u, Ask(at));
            x.worker.Some? && x.worker.value.sid == u.sid && Fair(x, x.worker.value, outcomes)
  {
    hide WorldOk, Inv, StepOk, FairRole, Fit, AllApart, EngineReport, SnapshotOf, Reserve, RolesOf, RoleOk, CallsOf,
      UnitsStored, Started;
    Parts(w, u);
    ReserveEffect(w.db, u.sid, at);
    ReserveKeeps(w.db, "", u.sid, at);
    UnitsKept(w.db, Reserve(w.db, "", u.sid, at).db, u.sid);
    var o := Reserve(w.db, "", u.sid, at);
    var x, v := OwnerDo(w, u, Ask(at)), u.(owner := AfterReserve(o.result));
    SameSessions(w.db, o.db, u.sid);
    forall r: Role ensures FairRole(x.db, v, r, outcomes[r]) {
      assert FairRole(w.db, u, r, outcomes[r]);
      FairRowThere(w.db, u, r, outcomes[r]);
      SameFindingsTable(w.db, o.db, u.sid, r);
      if o.result.Reserved? && o.result.role == r {
        RoleFacts(w, u, r);
        StartedFair(w.db, u, o.db, v, r, outcomes[r], at, CallsOf(w, u.sid, r));
      } else {
        FairRoleKept(w.db, u, o.db, v, r, outcomes[r]);
      }
    }
    DbFair(w, u, x, v, outcomes);
  }

  lemma SameSessions(db: Db, next: Db, sid: string)
    requires next.sessions == db.sessions && AllApart(db, sid)
    ensures AllApart(next, sid)
  {
  }

  lemma SameFindingsTable(db: Db, next: Db, sid: string, r: Role)
    requires next.findings == db.findings
    ensures forall f :: HasFinding(next, sid, r, f) <==> HasFinding(db, sid, r, f)
  {
  }

  lemma StartedFair(db: Db, u: Worker, next: Db, v: Worker, r: Role, out: RoleOutcome, at: Instant, calls: nat)
    requires AllPcs(u.pcs) && v.pcs == u.pcs && v.sid == u.sid && Is(RolesOf(db, u.sid), r, Pending)
    requires u.leaked == {} && RoleOk(u, r, RolesOf(db, u.sid)[r].status, calls)
    requires RolesOf(next, u.sid) == RolesOf(db, u.sid)[r := Started(RolesOf(db, u.sid)[r], at)]
    ensures FairRole(next, v, r, out)
  {
    hide RolesOf;
  }

  /** On a calm run a decided outcome is published, whatever the clock says. */
  lemma PublishGoesThrough(w: World, u: Worker, r: Role, message: string, at: Instant, outcomes: map<Role, RoleOutcome>)
    requires (forall r: Role :: r in outcomes) && WorldOk(w) && w.worker == Some(u) && Fair(w, u, outcomes)
    requires u.pcs[r].Cleared?
    ensures var x, sid, out := PublishDo(w, u, r, u.pcs[r].out, message, at), u.sid, outcomes[r];
            && x == w.(db := x.db, worker := Some(SetPc(u, r, RolePc.Published)))
            && x.db.sessions == w.db.sessions && x.db.snapshots == w.db.snapshots && Stored(x.db, sid, r, out)
            && (forall q, other :: q != r && Stored(w.db, sid, q, other) ==> Stored(x.db, sid, q, other))
            && (forall q :: q in RolesOf(w.db, sid) && q != r ==>
                  q in RolesOf(x.db, sid) && RolesOf(x.db, sid)[q] == RolesOf(w.db, sid)[q])
  {
    hide WorldOk, Inv, StepOk, FairRole, Fit, AllApart, EngineReport, SnapshotOf, RolesOf, RoleOk, CallsOf, UnitsStored,
      Stored, PublicationFor, Publish, KeysFree, Blank, Is, CountersOk;
    Parts(w, u);
    WorkerParts(w, u);
    RoleFacts(w, u, r);
    assert FairRole(w.db, u, r, outcomes[r]);
    ClearedFair(w.db, u, r, outcomes[r], CallsOf(w, u.sid, r));
    LaterThanStart(w.db, u.sid, r, at);
    ApartKeysFree(w.db, u.sid, r, outcomes[r]);
    PublishStores(w.db, u.sid, r, outcomes[r], message, Later(at, StartOf(w.db, u.sid, r)));
  }

  lemma PublishFair(w: World, u: Worker, r: Role, message: string, at: Instant, outcomes: map<Role, RoleOutcome>)
    requires (forall r: Role :: r in outcomes) && WorldOk(w) && w.worker == Some(u) && Fair(w, u, outcomes)
    requires u.pcs[r].Cleared?
    ensures var x := PublishDo(w, u, r, u.pcs[r].out, message, at);
            x.worker.Some? && x.worker.value.sid == u.sid && Fair(x, x.worker.value, outcomes)
  {
    hide WorldOk, Inv, StepOk, FairRole, Fit, AllApart, EngineReport, SnapshotOf, RolesOf, RoleOk, CallsOf, UnitsStored,
      Stored, PublishDo, KeysFree, Blank, Is, CountersOk;
    PublishGoesThrough(w, u, r, message, at, outcomes);
    var x, v := PublishDo(w, u, r, u.pcs[r].out, message, at), SetPc(u, r, RolePc.Published);
    SameSessions(w.db, x.db, u.sid);
    SameUnits(w.db, x.db, w.db.sessions[u.sid].snapshotId);
    SamePcs(u, r);
    FitStatus(UnitsStored(w.db, w.db.sessions[u.sid].snapshotId), outcomes[r]);
    forall q: Role ensures FairRole(x.db, v, q, outcomes[q]) {
      assert FairRole(w.db, u, q, outcomes[q]);
      FairRowThere(w.db, u, q, outcomes[q]);
      PublishedFair(w.db, u, x.db, v, r, q, outcomes[q]);
    }
    DbFair(w, u, x, v, outcomes);
  }

  lemma FitStatus(units: seq<Unit>, out: RoleOutcome)
    requires Fit(units, out)
    ensures !out.status.Interrupted? && (out.status.RoleComplete? || out.findings == [])
  {
    hide RefsKnown, Validation.StructureOk;
  }

  lemma SameUnits(db: Db, next: Db, id: string)
    requires next.snapshots == db.snapshots
    ensures UnitsStored(next, id) == UnitsStored(db, id)
  {
  }

  lemma LaterThanStart(db: Db, sid: string, r: Role, at: Instant)
    requires r in RolesOf(db, sid)
    ensures RolesOf(db, sid)[r].startedAt.Some? ==>
            Later(at, StartOf(db, sid, r)) >= RolesOf(db, sid)[r].startedAt.value
  {
    hide RolesOf;
  }

  lemma ClearedFair(db: Db, u: Worker, r: Role, out: RoleOutcome, calls: nat)
    requires AllPcs(u.pcs) && FairRole(db, u, r, out) && u.pcs[r].Cleared?
    requires RoleOk(u, r, RolesOf(db, u.sid)[r].status, calls)
    ensures u.pcs[r].out == out && Is(RolesOf(db, u.sid), r, InFlight)
  {
    hide RolesOf, Stored;
  }

  lemma PublishedFair(db: Db, u: Worker, next: Db, v: Worker, r: Role, q: Role, out: RoleOutcome)
    requires AllPcs(u.pcs) && v == SetPc(u, r, RolePc.Published) && FairRole(db, u, q, out)
    requires q == r ==> Stored(next, u.sid, r, out) && !out.status.Interrupted?
    requires q != r && Stored(db, u.sid, q, out) ==> Stored(next, u.sid, q, out)
    requires q != r ==>
               q in RolesOf(db, u.sid) && q in RolesOf(next, u.sid) && RolesOf(next, u.sid)[q] == RolesOf(db, u.sid)[q]
    ensures AllPcs(v.pcs) && FairRole(next, v, q, out)
  {
    hide RolesOf, HasFinding;
  }

  lemma ComposeFair(w: World, u: Worker, at: Instant, rows: seq<string>, outcomes: map<Role, RoleOutcome>)
    requires (forall r: Role :: r in outcomes) && WorldOk(w) && w.worker == Some(u) && Fair(w, u, outcomes)
    requires CoordEnabled(w, u, CoordAction.Compose(at, rows)) && TrimSpace(u.sid) == u.sid
    ensures var x := CoordDo(w, u, CoordAction.Compose(at, rows));
            x.worker.Some? && x.worker.value.sid == u.sid && Fair(x, x.worker.value, outcomes)
  {
    hide WorldOk, Inv, FairRole, Fit, AllApart, EngineReport, SnapshotOf, CallsOf, UnitsStored, Stored, TrimSpace,
      Blank, CountersOk, ResultSet, ReportWith, Composer.Decide, RowsOf, ComposedSession, Engine.EraseLastPurpose,
      RolesOk, AllPcs, ComposeSession;
    Parts(w, u);
    WorkerParts(w, u);
    SessionNamed(w.db, u.sid);
    ComposeExact(w.db, "", u.sid, rows, at);
    ComposeWrites(w.db, "", u.sid, rows, at);
    JoinedStored(w, u, outcomes);
    SnapshotStoredOk(w.db, u.sid);
    InvHasFindings(w.db);
    StoredReport(w.db, u.sid, rows, outcomes);
    var o := ComposeSession(w.db, "", u.sid, rows, at);
    var v := u.(coord := AfterCompose(o.result));
    ComposedKeys(w.db, u.sid, rows, at);
    ComposedFair(w, u, o.db, v, outcomes, Composer.Decide(RowsOf(RolesOf(w.db, u.sid))), at);
  }

  lemma ComposedKeys(db: Db, sid: string, rows: seq<string>, at: Instant)
    requires TrimSpace(sid) == sid && sid in db.sessions && forall k :: k in rows ==> k in db.findings
    ensures ComposeSession(db, "", sid, rows, at).db.sessions.Keys == db.sessions.Keys
  {
    hide TrimSpace, Composer.Decide, Composable, CountOf, ReportWith, ReadReport, RowsOf, ComposedSession;
  }

  lemma SnapshotStoredOk(db: Db, sid: string)
    requires Inv(db) && sid in db.sessions
    ensures db.sessions[sid].snapshotId in db.snapshots
    ensures var snap := db.snapshots[db.sessions[sid].snapshotId]; snap.hash == CanonicalHash(snap.units)
  {
    hide SessionOk, Freezable, CanonicalHash, FindingsOk, KeysAgree;
  }

  /** When the coordinator composes on a calm run, every role's outcome has been stored. */
  lemma JoinedStored(w: World, u: Worker, outcomes: map<Role, RoleOutcome>)
    requires (forall r: Role :: r in outcomes) && WorldOk(w) && w.worker == Some(u) && Fair(w, u, outcomes)
    requires u.coord.Composing?
    ensures AllStored(w.db, u.sid, outcomes) && AllRoles(RolesOf(w.db, u.sid))
  {
    hide WorldOk, FairRole, Fit, AllApart, EngineReport, SnapshotOf, CallsOf, UnitsStored, Stored, CountersOk, RoleOk,
      RolesOf, AllTerminal;
    WorkerParts(w, u);
    forall r: Role
      ensures r in RolesOf(w.db, u.sid) && Stored(w.db, u.sid, r, outcomes[r])
      ensures Validation.DistinctIds(outcomes[r].findings)
      ensures outcomes[r].status.RoleComplete? || outcomes[r].findings == []
    {
      RoleFacts(w, u, r);
      assert FairRole(w.db, u, r, outcomes[r]);
      FitDistinct(UnitsStored(w.db, w.db.sessions[u.sid].snapshotId), outcomes[r]);
      FitStatus(UnitsStored(w.db, w.db.sessions[u.sid].snapshotId), outcomes[r]);
      TerminalReported(w.db, u, r, outcomes[r], CallsOf(w, u.sid, r));
    }
  }

  lemma TerminalReported(db: Db, u: Worker, r: Role, out: RoleOutcome, calls: nat)
    requires AllPcs(u.pcs) && AllTerminal(RolesOf(db, u.sid)) && FairRole(db, u, r, out) && u.leaked == {}
    requires RoleOk(u, r, RolesOf(db, u.sid)[r].status, calls)
    ensures Stored(db, u.sid, r, out)
  {
    hide RolesOf, Stored;
    assert RolesOf(db, u.sid)[r].status.IsTerminal();
  }

  lemma ComposedFair(w: World, u: Worker, next: Db, v: Worker, outcomes: map<Role, RoleOutcome>, verdict: Verdict,
                     at: Instant)
    requires (forall r: Role :: r in outcomes) && Fair(w, u, outcomes)
    requires next == w.db.(sessions := next.sessions) && u.sid in next.sessions
    requires next.sessions[u.sid] == ComposedSession(w.db.sessions[u.sid], verdict, at)
    requires next.sessions.Keys == w.db.sessions.Keys
    requires v == u.(coord := v.coord) && v.coord.Finished? && v.coord.result.Composed?
    requires v.coord.result.report == Engine.EraseLastPurpose(EngineReport(u.sid, SnapshotOf(w.db, u.sid), outcomes))
    ensures Fair(w.(db := next, worker := Some(v)), v, outcomes)
  {
    hide FairRole, Fit, EngineReport, Engine.EraseLastPurpose, Frozen, Later;
    forall r: Role ensures FairRole(next, v, r, outcomes[r]) {
      assert FairRole(w.db, u, r, outcomes[r]);
      FairRowThere(w.db, u, r, outcomes[r]);
      SameFindingsTable(w.db, next, u.sid, r);
      FairRoleKept(w.db, u, next, v, r, outcomes[r]);
    }
  }

  lemma OthersFair(w: World, u: Worker, step: Step, outcomes: map<Role, RoleOutcome>)
    requires (forall r: Role :: r in outcomes) && WorldOk(w) && w.worker == Some(u) && Fair(w, u, outcomes)
    requires Quiet(w.db, Apply(w.db, step), u.sid) && AllApart(Apply(w.db, step), u.sid)
    ensures Fair(w.(db := Apply(w.db, step)), u, outcomes)
  {
    hide WorldOk, Inv, StepOk, FairRole, Fit, AllApart, EngineReport, SnapshotOf, CallsOf, UnitsStored, CountersOk,
      RolesOk, Apply, RoleOk, RolesOf;
    Parts(w, u);
    WorkerParts(w, u);
    ApplyKeeps(w.db, step);
    var next := Apply(w.db, step);
    UnitsKept(w.db, next, u.sid);
    forall r: Role ensures FairRole(next, u, r, outcomes[r]) {
      RoleFacts(w, u, r);
      assert FairRole(w.db, u, r, outcomes[r]);
      if Reported(u.pcs[r]) {
        ReportedDone(u, r, RolesOf(w.db, u.sid)[r].status, CallsOf(w, u.sid, r));
        DoneKeepsFindings(w.db, next, u.sid, r);
      }
      FairRoleKept(w.db, u, next, u, r, outcomes[r]);
    }
    DbFair(w, u, w.(db := next), u, outcomes);
  }

  lemma ReportedDone(u: Worker, r: Role, status: RoleStatus, calls: nat)
    requires AllPcs(u.pcs) && RoleOk(u, r, status, calls) && Reported(u.pcs[r]) && u.leaked == {}
    ensures !status.InFlight?
  {
  }

  /** Findings are only added for a role in flight. */
  lemma DoneKeepsFindings(db: Db, next: Db, sid: string, r: Role)
    requires StepOk(db, next) && r in RolesOf(db, sid) && !RolesOf(db, sid)[r].status.InFlight?
    ensures forall f :: HasFinding(next, sid, r, f) <==> HasFinding(db, sid, r, f)
  {
    hide StepOk, RolesOf;
    StepTables(db, next);
    assert !Is(RolesOf(db, sid), r, InFlight);
    forall f | HasFinding(next, sid, r, f) ensures HasFinding(db, sid, r, f) {
      var k :| k in next.findings && next.findings[k] == FindingRow(sid, r, f);
      assert k in db.findings;
    }
    forall f | HasFinding(db, sid, r, f) ensures HasFinding(next, sid, r, f) {
      var k :| k in db.findings && db.findings[k] == FindingRow(sid, r, f);
      assert k in next.findings && next.findings[k] == FindingRow(sid, r, f);
    }
  }

  // ---- The theorem -------------------------------------------------------------------------------------

  /** Every calm action keeps a calm world calm. */
  lemma CalmKeeps(w: World, u: Worker, a: Action, outcomes: map<Role, RoleOutcome>)
    requires (forall r: Role :: r in outcomes) && WorldOk(w) && w.worker == Some(u) && Fair(w, u, outcomes)
    requires Enabled(w, a) && Calm(w, u, a, outcomes) && TrimSpace(u.sid) == u.sid
    ensures var x := Do(w, a); x.worker.Some? && x.worker.value.sid == u.sid && Fair(x, x.worker.value, outcomes)
  {
    hide WorldOk, Fair, OwnerDo, RoleDo, CoordDo, Apply, TrimSpace, IsForeign, Quiet, AllApart, AllPcs, OwnerEnabled;
    FairPcs(w, u, outcomes);
    match a
    case ByOwner(o) => if o.Ask? { AskFair(w, u, o.at, outcomes); } else { OwnerFair(w, u, o, outcomes); }
    case ByRole(o) => CalmRole(w, u, o, outcomes);
    case ByCoordinator(o) => CalmCoord(w, u, o, outcomes);
    case ByOthers(step) => OthersFair(w, u, step, outcomes);
  }

  lemma FairPcs(w: World, u: Worker, outcomes: map<Role, RoleOutcome>)
    requires (forall r: Role :: r in outcomes) && Fair(w, u, outcomes)
    ensures AllPcs(u.pcs) && u.sid in w.db.sessions
  {
    hide FairRole, Fit, AllApart, EngineReport, SnapshotOf, UnitsStored;
  }

  lemma CalmRole(w: World, u: Worker, a: RoleAction, outcomes: map<Role, RoleOutcome>)
    requires (forall r: Role :: r in outcomes) && WorldOk(w) && w.worker == Some(u) && Fair(w, u, outcomes)
    requires AllPcs(u.pcs) && u.sid in w.db.sessions && RoleEnabled(w, u, a)
    requires !a.PublishFails? && (a.Finish? ==> a.out == outcomes[a.r])
    ensures var x := RoleDo(w, u, a); x.worker.Some? && x.worker.value.sid == u.sid && Fair(x, x.worker.value, outcomes)
  {
    hide WorldOk, Fair, PublishDo, AllPcs, ExecutesTo, CallsOf;
    if a.PublishAt? {
      PublishFair(w, u, a.r, a.message, a.at, outcomes);
    } else {
      RoleFair(w, u, a, outcomes);
    }
  }

  lemma CalmCoord(w: World, u: Worker, a: CoordAction, outcomes: map<Role, RoleOutcome>)
    requires (forall r: Role :: r in outcomes) && WorldOk(w) && w.worker == Some(u) && Fair(w, u, outcomes)
    requires AllPcs(u.pcs) && u.sid in w.db.sessions && CoordEnabled(w, u, a)
    requires !a.Fault? && TrimSpace(u.sid) == u.sid
    ensures var x := CoordDo(w, u, a);
            x.worker.Some? && x.worker.value.sid == u.sid && Fair(x, x.worker.value, outcomes)
  {
    hide WorldOk, Fair, CoordDo, AllPcs, TrimSpace, ResultSet;
    if a.Compose? {
      ComposeFair(w, u, a.at, a.rows, outcomes);
    } else {
      CoordFair(w, u, a, outcomes);
    }
  }

  /** Calm actions, one after the other, lead from w to x. */
  ghost predicate CalmRun(w: World, actions: seq<Action>, x: World, outcomes: map<Role, RoleOutcome>)
    requires forall r: Role :: r in outcomes
    decreases |actions|
  {
    if actions == [] then w == x
    else w.worker.Some? && Enabled(w, actions[0]) && Calm(w, w.worker.value, actions[0], outcomes)
         && CalmRun(Do(w, actions[0]), actions[1..], x, outcomes)
  }

  lemma {:induction false} CalmRunKeeps(w: World, actions: seq<Action>, x: World, outcomes: map<Role, RoleOutcome>)
    requires (forall r: Role :: r in outcomes) && WorldOk(w) && w.worker.Some? && Fair(w, w.worker.value, outcomes)
    requires TrimSpace(w.worker.value.sid) == w.worker.value.sid && CalmRun(w, actions, x, outcomes)
    ensures WorldOk(x) && x.worker.Some? && x.worker.value.sid == w.worker.value.sid
    ensures Fair(x, x.worker.value, outcomes)
    decreases |actions|
  {
    hide WorldOk, Fair, Do, Enabled, Calm, TrimSpace;
    if actions != [] {
      ActionKeeps(w, actions[0]);
      CalmKeeps(w, w.worker.value, actions[0], outcomes);
      CalmRunKeeps(Do(w, actions[0]), actions[1..], x, outcomes);
    }
  }

  /**
   * A worker has just claimed a session that nobody cancelled, whose ID trimming leaves alone and whose finding keys
   * are its own.
   */
  ghost predicate Booted(w: World, sid: string)
  {
    && sid in w.db.sessions && !w.db.sessions[sid].cancelRequested && AllApart(w.db, sid) && TrimSpace(sid) == sid
    && AllRoles(RolesOf(w.db, sid)) && CountOf(RolesOf(w.db, sid), Pending) == |ROLES|
    && w.worker == Some(NewWorker(sid)) && WorldOk(w)
  }

  /** Such a worker is where a calm run starts. */
  lemma BootFair(w: World, sid: string, outcomes: map<Role, RoleOutcome>)
    requires (forall r: Role :: r in outcomes) && sid in w.db.sessions && !w.db.sessions[sid].cancelRequested
    requires AllApart(w.db, sid)
    requires AllRoles(RolesOf(w.db, sid)) && CountOf(RolesOf(w.db, sid), Pending) == |ROLES|
    requires forall r: Role ::
               outcomes[r].role == r && Fit(UnitsStored(w.db, w.db.sessions[sid].snapshotId), outcomes[r])
    ensures Fair(w, NewWorker(sid), outcomes)
  {
    hide Fit, AllApart, EngineReport, SnapshotOf, UnitsStored, RolesOf;
    var u, rs := NewWorker(sid), RolesOf(w.db, sid);
    forall r: Role ensures r in u.pcs {
      RolesAreAll(r);
    }
    forall r: Role ensures u.pcs[r].Absent? && rs[r].status.Pending? {
      match r
      case Requirements =>
      case Architecture =>
      case QA =>
      case Security =>
    }
  }

  /**
   * Schedule independence. The worker has claimed a session nobody cancelled; each role's outcome is fixed. Then
   * whatever the interleaving and the clocks, if the coordinator finishes it returns the report the sequential
   * engine builds from the same outcomes, except for the last call purposes, which the database does not keep.
   */
  lemma ScheduleIndependence(w: World, sid: string, actions: seq<Action>, x: World, outcomes: map<Role, RoleOutcome>)
    requires (forall r: Role :: r in outcomes) && Booted(w, sid)
    requires forall r: Role ::
               outcomes[r].role == r && Fit(UnitsStored(w.db, w.db.sessions[sid].snapshotId), outcomes[r])
    requires CalmRun(w, actions, x, outcomes) && x.worker.Some? && x.worker.value.coord.Finished?
    ensures sid in x.db.sessions
    ensures x.worker.value.coord.result
         == Composed(Engine.EraseLastPurpose(EngineReport(sid, SnapshotOf(x.db, sid), outcomes)))
  {
    hide WorldOk, NewWorker, CalmRun, TrimSpace, Fit, AllApart, EngineReport, SnapshotOf, UnitsStored, FairRole,
      RolesOf, AllRoles, CountOf, Engine.EraseLastPurpose;
    NewWorkerFields(sid);
    BootFair(w, sid, outcomes);
    CalmRunKeeps(w, actions, x, outcomes);
  }

  /** The engine's contract leaves it one report: that of the outcomes its environments account for. */
  lemma {:induction false} EngineReportIs(s: Engine.Session, envs: map<Role, Env>, cancelled: seq<bool>,
                                          done: seq<RoleOutcome>, outcomes: map<Role, RoleOutcome>)
    requires Engine.AllRoles(s.prompts) && Engine.AllRoles(envs) && s.prompts.Keys == envs.Keys
    requires Engine.Ran(s, envs, cancelled, done)
    requires (forall i :: 0 <= i < |ROLES| ==> !cancelled[i])
    requires (forall r: Role :: r in outcomes && outcomes[r].role == r)
    requires forall r: Role :: Engine.RanTo(s, envs[r], outcomes[r])
    ensures done == EngineOutcomes(outcomes) && Engine.RunsBefore(cancelled) == |ROLES|
    ensures Built(s.id, s.snap.id, s.snap.hash, done, Composer.Decide(RowsFrom(done)),
                  Engine.RunsBefore(cancelled) < |ROLES|)
         == EngineReport(s.id, s.snap, outcomes)
  {
    hide Accounts, Built, Composer.Decide, RowsFrom;
    assert Engine.RunsBefore(cancelled) == |ROLES|;
    forall i | 0 <= i < |ROLES| ensures done[i] == outcomes[ROLES[i]] {
      var r := ROLES[i];
      assert Engine.OutcomeAt(s, envs, cancelled, i, done[i]);
      SameRun(s, envs[r], done[i], outcomes[r]);
    }
  }

  lemma SameRun(s: Engine.Session, env: Env, a: RoleOutcome, b: RoleOutcome)
    requires a.role == b.role && a.role in s.prompts && Engine.RanTo(s, env, a) && Engine.RanTo(s, env, b)
    ensures a == b
  {
    hide Accounts;
    var xs :| Accounts(env, s.timing, s.snap, s.prompts[a.role], s.maxTokens, a, xs);
    var ys :| Accounts(env, s.timing, s.snap, s.prompts[b.role], s.maxTokens, b, ys);
    RunsAgree(env, s.timing, s.snap, s.prompts[a.role], s.maxTokens, a, xs, b, ys);
  }

  // ---- The worker against the engine -------------------------------------------------------------------

  /** Whatever an action does to the database is a step of it. */
  lemma ActionStep(w: World, a: Action)
    requires w.worker.Some? && Enabled(w, a) && WorldOk(w)
    ensures Inv(w.db) && StepOk(w.db, Do(w, a).db)
  {
    hide WorldOk, Inv, StepOk, Apply, IsForeign, OwnerDo, RoleDo, CoordDo, OwnerEnabled, RoleEnabled, CoordEnabled;
    var u := w.worker.value;
    Parts(w, u);
    NoChange(w.db);
    match a
    case ByOwner(o) => OwnerStep(w, u, o);
    case ByRole(o) => RoleStep(w, u, o);
    case ByCoordinator(o) => CoordStep(w, u, o);
    case ByOthers(step) => ApplyKeeps(w.db, step);
    case _ =>
  }

  lemma OwnerStep(w: World, u: Worker, a: OwnerAction)
    requires Inv(w.db) && u.sid in w.db.sessions && OwnerEnabled(u, a)
    ensures StepOk(w.db, OwnerDo(w, u, a).db)
  {
    hide Inv, StepOk, Reserve, FastDecision;
    NoChange(w.db);
    if a.Ask? {
      ReserveKeeps(w.db, "", u.sid, a.at);
    }
  }

  lemma RoleStep(w: World, u: Worker, a: RoleAction)
    requires Inv(w.db) && AllPcs(u.pcs) && u.sid in w.db.sessions && RoleEnabled(w, u, a)
    ensures StepOk(w.db, RoleDo(w, u, a).db)
  {
    hide Inv, StepOk, Publish, PublicationFor, ExecutesTo, CallsOf, StartOf;
    NoChange(w.db);
    if a.PublishAt? {
      var pub := PublicationFor(w.db, u.sid, a.r, u.pcs[a.r].out, a.message);
      PublishKeeps(w.db, pub, Later(a.at, StartOf(w.db, u.sid, a.r)));
    }
  }

  lemma CoordStep(w: World, u: Worker, a: CoordAction)
    requires Inv(w.db) && AllPcs(u.pcs) && u.sid in w.db.sessions && CoordEnabled(w, u, a)
    ensures StepOk(w.db, CoordDo(w, u, a).db)
  {
    hide Inv, StepOk, SweepCancellation, ComposeSession, ResultSet, Readiness;
    NoChange(w.db);
    match a
    case Sweep(at) => SweepCancellationKeeps(w.db, "", u.sid, at);
    case Compose(at, rows) => ComposeKeepsAll(w.db, "", u.sid, rows, at);
    case _ =>
  }

  lemma SnapshotKept(db: Db, next: Db, sid: string)
    requires Inv(db) && StepOk(db, next) && sid in db.sessions
    ensures sid in next.sessions && SnapshotOf(next, sid) == SnapshotOf(db, sid)
  {
    hide Inv, StepOk, UnitsStored, Frozen;
    StepSession(db, next, sid);
    UnitsKept(db, next, sid);
  }

  /** A session's snapshot is the same at the end of a run. */
  lemma {:induction false} CalmRunSnapshot(w: World, actions: seq<Action>, x: World, outcomes: map<Role, RoleOutcome>,
                                           sid: string)
    requires (forall r: Role :: r in outcomes) && WorldOk(w) && CalmRun(w, actions, x, outcomes) && sid in w.db.sessions
    ensures sid in x.db.sessions && SnapshotOf(x.db, sid) == SnapshotOf(w.db, sid)
    decreases |actions|
  {
    hide WorldOk, Do, Enabled, Calm, SnapshotOf, Inv, StepOk;
    if actions != [] {
      ActionKeeps(w, actions[0]);
      ActionStep(w, actions[0]);
      SnapshotKept(w.db, Do(w, actions[0]).db, sid);
      CalmRunSnapshot(Do(w, actions[0]), actions[1..], x, outcomes, sid);
    }
  }

  /** An outcome RunRole can have fits if it is complete or failed with a canonical category. */
  lemma RanFits(s: Engine.Session, env: Env, out: RoleOutcome, units: seq<Unit>)
    requires out.role in s.prompts && Engine.RanTo(s, env, out) && Freezable(s.snap.id, units)
    requires s.snap == Frozen(s.snap.id, units)
    requires out.status.RoleComplete? || IsValidErrorCategory(out.errorCategory)
    ensures Fit(units, out)
  {
    hide Accounts, Freezable, Frozen, Validation.StructureOk, RefsKnown, OddCategory;
    var calls :| Accounts(env, s.timing, s.snap, s.prompts[out.role], s.maxTokens, out, calls);
    AccountedShape(env, s.timing, s.snap.id, units, s.prompts[out.role], s.maxTokens, out, calls);
    CallBound(env, s.timing, s.snap, s.prompts[out.role], s.maxTokens, out, calls);
    AccountedFits(env, s.timing, s.snap.id, units, s.prompts[out.role], s.maxTokens, out, calls);
  }

  /** What the engine is run on when it is given a session from the database, and nobody cancels. */
  ghost predicate SameReview(db: Db, sid: string, s: Engine.Session, envs: map<Role, Env>,
                             outcomes: map<Role, RoleOutcome>)
    requires (forall r: Role :: r in outcomes) && sid in db.sessions
  {
    && s.id == sid && s.snap == SnapshotOf(db, sid) && Engine.AllRoles(s.prompts) && Engine.AllRoles(envs)
    && s.prompts.Keys == envs.Keys
    && forall r: Role ::
         && outcomes[r].role == r && Engine.RanTo(s, envs[r], outcomes[r])
         && (outcomes[r].status.RoleComplete? || IsValidErrorCategory(outcomes[r].errorCategory))
  }

  lemma ReviewFits(db: Db, sid: string, s: Engine.Session, envs: map<Role, Env>, outcomes: map<Role, RoleOutcome>,
                   r: Role)
    requires (forall r: Role :: r in outcomes) && Inv(db) && sid in db.sessions
    requires SameReview(db, sid, s, envs, outcomes)
    ensures outcomes[r].role == r && Fit(UnitsStored(db, db.sessions[sid].snapshotId), outcomes[r])
  {
    hide Inv, Fit, Frozen, Freezable, Engine.RanTo;
    StoredFreezable(db, sid);
    FrozenId(db.sessions[sid].snapshotId, UnitsStored(db, db.sessions[sid].snapshotId));
    RanFits(s, envs[r], outcomes[r], UnitsStored(db, db.sessions[sid].snapshotId));
  }

  lemma FrozenId(id: string, units: seq<Unit>)
    ensures Frozen(id, units).id == id
  {
    hide CanonicalHash;
  }

  lemma StoredFreezable(db: Db, sid: string)
    requires Inv(db) && sid in db.sessions
    ensures Freezable(db.sessions[sid].snapshotId, UnitsStored(db, db.sessions[sid].snapshotId))
  {
    hide SessionOk, Freezable, CanonicalHash, FindingsOk, KeysAgree;
  }

  const NOT_CANCELLED: seq<bool> := [false, false, false, false]

  /**
   * The worker agrees with the engine. A worker that has just claimed a session nobody cancelled, on any calm
   * interleaving that finishes, composes what Engine.Run returns for the same snapshot and environments, up to the
   * last call purposes.
   */
  lemma WorkerAgreesWithEngine(w: World, sid: string, actions: seq<Action>, x: World, outcomes: map<Role, RoleOutcome>,
                               s: Engine.Session, envs: map<Role, Env>, r: Result<Report, ComposeError>)
    requires (forall r: Role :: r in outcomes) && Booted(w, sid)
    requires SameReview(w.db, sid, s, envs, outcomes) && Engine.Returns(s, envs, NOT_CANCELLED, r)
    requires CalmRun(w, actions, x, outcomes) && x.worker.Some? && x.worker.value.coord.Finished?
    ensures r.Ok? && x.worker.value.coord.result == Composed(Engine.EraseLastPurpose(r.value))
  {
    hide WorldOk, Inv, NewWorker, CalmRun, TrimSpace, Fit, AllApart, EngineReport, SnapshotOf, UnitsStored, RolesOf,
      AllRoles, CountOf, Engine.EraseLastPurpose, Engine.RanTo, Built, Composer.Decide, RowsFrom, Engine.Ran;
    var u := w.worker.value;
    Parts(w, u);
    forall q: Role ensures outcomes[q].role == q && Fit(UnitsStored(w.db, w.db.sessions[sid].snapshotId), outcomes[q]) {
      ReviewFits(w.db, sid, s, envs, outcomes, q);
    }
    ScheduleIndependence(w, sid, actions, x, outcomes);
    CalmRunSnapshot(w, actions, x, outcomes, sid);
    EngineReturns(s, envs, outcomes, r);
  }

  /** When nobody cancels, what the engine returns is the report of these outcomes. */
  lemma EngineReturns(s: Engine.Session, envs: map<Role, Env>, outcomes: map<Role, RoleOutcome>,
                      r: Result<Report, ComposeError>)
    requires Engine.AllRoles(s.prompts) && Engine.AllRoles(envs) && s.prompts.Keys == envs.Keys
    requires (forall r: Role :: r in outcomes && outcomes[r].role == r && Engine.RanTo(s, envs[r], outcomes[r]))
    requires Engine.Returns(s, envs, NOT_CANCELLED, r)
    ensures r == Ok(EngineReport(s.id, s.snap, outcomes))
  {
    hide Engine.RanTo, Engine.OutcomeAt, Built, Composer.Decide, RowsFrom;
    var done :| Engine.Ran(s, envs, NOT_CANCELLED, done)
                && r == Ok(Built(s.id, s.snap.id, s.snap.hash, done, Composer.Decide(RowsFrom(done)),
                                 Engine.RunsBefore(NOT_CANCELLED) < |ROLES|));
    EngineReportIs(s, envs, NOT_CANCELLED, done, outcomes);
  }
}
