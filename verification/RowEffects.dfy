/**
 * What a submission, a claim, a reservation, a publication and a cancellation request leave in the tables, column by
 * column, exactly when they do, and what follows for every later run.
 */
module RowEffects {
  import opened Options
  import opened Text
  import opened Domain
  import opened Evidence
  import opened RequestHash
  import opened Composer
  import opened Timestamps
  import opened Records
  import opened Database
  import opened DbInvariant
  import opened DbSteps
  import opened DbEffects
  import opened DbRuns
  import opened RoleRunner
  import opened Sweeps
  import Timing
  import Validation

  // ---- Claim -------------------------------------------------------------------

  /** Whatever changed is in the row of this session. */
  ghost predicate OnlySession(db: Db, next: Db, sid: string)
  {
    && next == db.(sessions := next.sessions) && next.sessions.Keys == db.sessions.Keys && sid in db.sessions
    && forall other :: other in db.sessions && other != sid ==> next.sessions[other] == db.sessions[other]
  }

  /**
   * The oldest queued session, ties by ID, is claimed. It is due at the policy's cutoff and hard deadline, counted from
   * the claim, as the result says, and nothing else changes.
   */
  ghost predicate ClaimsAt(db: Db, next: Db, result: ClaimResult, policy: Timing.TimingPolicy, now: Instant)
  {
    && result.Claimed? && OnlySession(db, next, result.id) && !Blank(result.id)
    && db.sessions[result.id].status == Queued
    && InFront(db, result.id)
    && result.cutoffAt == now + policy.dispatchCutoff && result.deadlineAt == now + policy.sessionHardDeadline
    && var s := db.sessions[result.id];
       next.sessions[result.id]
         == Session(s.projectId, s.key, s.requestHash, s.snapshotId, Reviewing, s.cancelRequested, s.createdAt,
                    Some(now), Some(now + policy.dispatchCutoff), Some(now + policy.sessionHardDeadline),
                    None, None, 0, 4)
  }

  lemma ClaimStores(db: Db, policy: Timing.TimingPolicy, now: Instant)
    requires Inv(db)
    ensures var o := Claim(db, policy, now);
            if o.result.Claimed? then ClaimsAt(db, o.db, o.result, policy, now) else o.db == db
  {
    hide Inv, Timing.ValidPolicy, AnyReviewing, CountOf, AllRoles, Blank, IsHead, Earlier, InFront;
    if sid :| IsHead(db, sid) && Head(db) == Some(sid) {
      HeadInFront(db, sid);
    }
  }

  /** Created before every other queued session, or at the same time and with the lesser ID. */
  ghost predicate InFront(db: Db, sid: string)
    requires sid in db.sessions
  {
    forall other :: other in db.sessions && other != sid && db.sessions[other].status == Queued ==>
      db.sessions[sid].createdAt < db.sessions[other].createdAt
      || (db.sessions[sid].createdAt == db.sessions[other].createdAt && Less(sid, other))
  }

  lemma HeadInFront(db: Db, sid: string)
    requires IsHead(db, sid)
    ensures sid in db.sessions && InFront(db, sid)
  {
    hide Less;
    forall other | other in db.sessions && other != sid && db.sessions[other].status == Queued
      ensures Earlier(db, sid, other)
    {
      assert IsQueued(db, other);
    }
  }

  // ---- The timing of a claim -----------------------------------------------------------------------------------

  /** A session keeps the instants of its claim in every run. */
  lemma {:induction false} InstantsStay(db: Db, steps: seq<Step>, sid: string)
    requires Inv(db) && sid in db.sessions && db.sessions[sid].claimedAt.Some?
    ensures var s, later := db.sessions[sid], Exec(db, steps);
            && sid in later.sessions && later.sessions[sid].claimedAt == s.claimedAt
            && later.sessions[sid].cutoffAt == s.cutoffAt && later.sessions[sid].deadlineAt == s.deadlineAt
    decreases |steps|
  {
    hide Inv, StepOk, Apply;
    if steps != [] {
      var before := Exec(db, steps[..|steps| - 1]);
      InstantsStay(db, steps[..|steps| - 1], sid);
      ExecKeeps(db, steps[..|steps| - 1]);
      ApplyKeeps(before, steps[|steps| - 1]);
      StepSession(before, Apply(before, steps[|steps| - 1]), sid);
    }
  }

  /**
   * The promise of the timing policy, over the stored row: in every run that follows a claim, a provider call made no
   * later than the stored cutoff, under the stored hard deadline, has the policy's full timeout.
   */
  lemma ClaimGivesFullTimeout(db: Db, policy: Timing.TimingPolicy, now: Instant, steps: seq<Step>, env: Env,
                              t: CallTiming, snap: Snapshot, prompt: Prompt, maxTokens: int, out: RoleOutcome,
                              calls: seq<Call>, c: Call)
    requires Inv(db) && Claim(db, policy, now).result.Claimed? && Timing.ValidPolicy(policy)
    ensures var sid, later := Claim(db, policy, now).result.id, Exec(Claim(db, policy, now).db, steps);
            && sid in later.sessions && later.sessions[sid].cutoffAt.Some? && later.sessions[sid].deadlineAt.Some?
            && (Accounts(env, t, snap, prompt, maxTokens, out, calls) && c in calls
                && t.callTimeout == policy.callTimeout && t.hardDeadline == later.sessions[sid].deadlineAt
                && c.madeAt <= later.sessions[sid].cutoffAt.value ==>
                  c.deadline == Some(c.madeAt + policy.callTimeout))
  {
    hide Inv, StepOk, Claim, Exec, Accounts;
    ClaimStores(db, policy, now);
    ClaimKeepsAll(db, policy, now);
    InstantsStay(Claim(db, policy, now).db, steps, Claim(db, policy, now).result.id);
    if Accounts(env, t, snap, prompt, maxTokens, out, calls) && c in calls {
      KeepsDeadline(env, t, snap, prompt, maxTokens, out, calls, c);
      var s := Exec(Claim(db, policy, now).db, steps).sessions[Claim(db, policy, now).result.id];
      if t.callTimeout == policy.callTimeout && t.hardDeadline == s.deadlineAt && c.madeAt <= s.cutoffAt.value {
        Timing.AttemptHasFullTimeout(policy, now, t, c);
      }
    }
  }

  lemma KeepsDeadline(env: Env, t: CallTiming, snap: Snapshot, prompt: Prompt, maxTokens: int, out: RoleOutcome,
                      calls: seq<Call>, c: Call)
    requires Accounts(env, t, snap, prompt, maxTokens, out, calls) && c in calls
    ensures DeadlineKept(t, c)
  {
    hide Protocol, Asks, Refused, Good, FailureCategory, DeadlineKept, SecondDue;
  }

  // ---- Cancellation requests ----------------------------------------------------------------------------------

  /** The request sets the flag of a session that is not terminal and nothing else, and says whether it did. */
  lemma CancellationExact(db: Db, project: string, sid: string)
    requires Inv(db)
    ensures var o, found := RequestCancellation(db, project, sid), !Blank(sid) && Scoped(db, project, sid);
            && (o.result == CancelNotFound <==> !found)
            && (o.result == AlreadyTerminal <==> found && db.sessions[sid].status.IsTerminal())
            && (o.result == Effective <==>
                  found && !db.sessions[sid].status.IsTerminal() && !db.sessions[sid].cancelRequested)
            && (o.result != Effective ==> o.db == db)
            && (found && !db.sessions[sid].status.IsTerminal() ==>
                  && OnlySession(db, o.db, sid) && o.db.sessions[sid].cancelRequested
                  && o.db.sessions[sid].(cancelRequested := db.sessions[sid].cancelRequested) == db.sessions[sid])
  {
    hide Inv, Blank;
  }

  /**
   * After a cancellation request no role that was pending is ever started, in any run: it stays pending or is
   * interrupted without a start.
   */
  lemma CancelledRolesNeverStart(db: Db, project: string, sid: string, r: Role, steps: seq<Step>)
    requires Inv(db) && !Blank(sid) && Scoped(db, project, sid) && Is(RolesOf(db, sid), r, Pending)
    ensures var later := Exec(RequestCancellation(db, project, sid).db, steps);
            && sid in later.sessions && later.sessions[sid].cancelRequested && r in RolesOf(later, sid)
            && (RolesOf(later, sid)[r].status == Pending || RolesOf(later, sid)[r].status == Interrupted)
            && RolesOf(later, sid)[r].startedAt == None
  {
    hide Inv, StepOk, SessionOk, Blank, RequestCancellation, Exec;
    CancellationExact(db, project, sid);
    CancellationKeeps(db, project, sid);
    AtSession(db, sid);
    PendingNotTerminal(db.sessions[sid], db.roles[sid], r);
    var next := RequestCancellation(db, project, sid).db;
    CancelledNeverStarts(next, steps, sid, r);
    ExecKeeps(next, steps);
    AtSession(Exec(next, steps), sid);
    RowsOk(Exec(next, steps).sessions[sid], Exec(next, steps).roles[sid]);
  }

  lemma PendingNotTerminal(s: Session, rs: RoleMap, r: Role)
    requires SessionOk(s, rs) && Is(rs, r, Pending)
    ensures !s.status.IsTerminal()
  {
    hide SessionRowOk, RoleRunRowOk, RunFollows, Decide;
  }

  // ---- Reservations -------------------------------------------------------------------

  /** The session's roles of that status. */
  function RolesIn(db: Db, sid: string, status: RoleStatus): set<Role>
    requires sid in db.roles
  {
    set r | r in db.roles[sid] && db.roles[sid][r].status == status
  }

  /**
   * A reservation starts the first pending role, in dispatch order, of a reviewing session that is not cancelled and
   * before its cutoff, with fewer than two roles in flight; and it says how many are in flight with it. Otherwise it
   * changes nothing and names the first thing that stood in its way.
   */
  lemma ReserveExact(db: Db, project: string, sid: string, now: Instant)
    requires Inv(db)
    ensures var o, found := Reserve(db, project, sid, now), !Blank(sid) && Scoped(db, project, sid);
            && (o.result == ReserveNotFound <==> !found)
            && (found ==>
                  && sid in db.roles
                  && var s, flying, waiting := db.sessions[sid], RolesIn(db, sid, InFlight), RolesIn(db, sid, Pending);
                     && (o.result == NotReviewing <==> s.status != Reviewing)
                     && (s.status == Reviewing ==>
                           && s.cutoffAt.Some?
                           && (o.result == Cancelled <==> s.cancelRequested)
                           && (o.result == Cutoff <==> !s.cancelRequested && now >= s.cutoffAt.value)
                           && (!s.cancelRequested && now < s.cutoffAt.value ==>
                                 && (o.result == CapacityFull(|flying|) <==> |flying| >= 2)
                                 && (o.result == NoPendingRole(|flying|) <==> |flying| < 2 && waiting == {})
                                 && (o.result.Reserved? <==> |flying| < 2 && waiting != {}))))
            && (!o.result.Reserved? ==> o.db == db)
            && (o.result.Reserved? ==> StartsFirst(db, o.db, sid, o.result.role, now, o.result.inFlight))
  {
    hide Inv, Blank, SessionOk, FirstOf, CountOf;
    if Scoped(db, project, sid) {
      AtSession(db, sid);
      RowsOk(db.sessions[sid], db.roles[sid]);
      CountIsSize(db.roles[sid], InFlight);
      if db.sessions[sid].status.Reviewing? {
        HasInstants(db, sid);
      }
      FirstIs(db, sid);
      if Reserve(db, project, sid, now).result.Reserved? {
        FirstStarts(db, sid, now);
      }
    }
  }

  /** Role r was the first pending one and is in flight from now on; nothing else changed. */
  ghost predicate StartsFirst(db: Db, next: Db, sid: string, r: Role, now: Instant, inFlight: nat)
  {
    && OnlyRowsOf(db, next, sid) && r in db.roles[sid] && db.roles[sid][r].status == Pending
    && (forall q :: q in db.roles[sid] && db.roles[sid][q].status == Pending ==> RoleOrder(r) <= RoleOrder(q))
    && (forall q :: q in db.roles[sid] && q != r ==> next.roles[sid][q] == db.roles[sid][q])
    && next.roles[sid][r] == RoleRun(InFlight, None, None, None, 0, Some(now), None, db.roles[sid][r].createdAt)
    && inFlight == |RolesIn(next, sid, InFlight)|
  }

  lemma FirstIs(db: Db, sid: string)
    requires sid in db.roles
    ensures FirstOf(db.roles[sid], Pending).None? <==> RolesIn(db, sid, Pending) == {}
  {
    hide FirstOf;
    forall q | q in RolesIn(db, sid, Pending) ensures FirstOf(db.roles[sid], Pending).Some? {
      FirstOfMeaning(db.roles[sid], Pending, q);
    }
    if FirstOf(db.roles[sid], Pending).Some? {
      var r := FirstOf(db.roles[sid], Pending).value;
      FirstOfMeaning(db.roles[sid], Pending, r);
      assert r in RolesIn(db, sid, Pending);
    }
  }

  lemma FirstStarts(db: Db, sid: string, now: Instant)
    requires sid in db.roles && FirstOf(db.roles[sid], Pending).Some?
    requires forall r :: r in db.roles[sid] ==> RoleRunRowOk(db.roles[sid][r])
    ensures var rs, r := db.roles[sid], FirstOf(db.roles[sid], Pending).value;
            r in rs && StartsFirst(db, SetRun(db, sid, r, Started(rs[r], now)), sid, r, now, CountOf(rs, InFlight) + 1)
  {
    hide FirstOf, CountOf, RoleOrder;
    var rs, r := db.roles[sid], FirstOf(db.roles[sid], Pending).value;
    FirstOfMeaning(rs, Pending, r);
    forall q | Is(rs, q, Pending) ensures RoleOrder(r) <= RoleOrder(q)
    {
      FirstOfMeaning(rs, Pending, q);
    }
    var next := SetRun(db, sid, r, Started(rs[r], now));
    CountIsSize(rs, InFlight);
    assert RolesIn(next, sid, InFlight) == RolesIn(db, sid, InFlight) + {r};
  }

  // ---- Publications -------------------------------------------------------------------

  /** The run ID is that of a role of the session which the caller may publish under this project and role. */
  predicate Names(db: Db, project: string, sid: string, rid: string, role: Option<Role>, r: Role)
  {
    && sid in db.sessions && (project == "" || db.sessions[sid].projectId == project)
    && r in RolesOf(db, sid) && rid == sid + ":" + RoleName(r) && (role == None || role == Some(r))
  }

  /** The role named is in flight, and has started by now. */
  predicate Flying(db: Db, project: string, sid: string, rid: string, role: Option<Role>, r: Role, now: Instant)
  {
    && Names(db, project, sid, rid, role, r) && RolesOf(db, sid)[r].status == InFlight
    && RolesOf(db, sid)[r].startedAt.Some? && RolesOf(db, sid)[r].startedAt.value <= now
  }

  lemma FaultExact(db: Db, project: string, sid: string, rid: string, role: Option<Role>, now: Instant)
    requires Inv(db)
    ensures var fault := PublishFault(db, project, sid, rid, role, now);
            && (fault.None? <==> exists r :: Flying(db, project, sid, rid, role, r, now))
            && (fault.Some? ==> !fault.value.Published?)
            && forall r :: Flying(db, project, sid, rid, role, r, now) ==> RoleWithId(db, sid, rid) == Some(r)
  {
    hide Inv, RoleWithId, SessionOk;
    if sid in db.sessions {
      AtSession(db, sid);
      RowsOk(db.sessions[sid], db.roles[sid]);
      if RoleWithId(db, sid, rid).Some? {
        IdFound(db, sid, rid);
      }
    }
    forall r | Flying(db, project, sid, rid, role, r, now)
      ensures PublishFault(db, project, sid, rid, role, now).None? && RoleWithId(db, sid, rid) == Some(r)
    {
      RunIdFound(db, sid, r);
    }
    if PublishFault(db, project, sid, rid, role, now).None? {
      assert Flying(db, project, sid, rid, role, RoleWithId(db, sid, rid).value, now);
    }
  }

  lemma IdFound(db: Db, sid: string, rid: string)
    requires RoleWithId(db, sid, rid).Some?
    ensures var r := RoleWithId(db, sid, rid).value; r in RolesOf(db, sid) && rid == sid + ":" + RoleName(r)
  {
    hide RoleName;
  }

  /** Role r's row becomes this one, and no other row does. */
  ghost predicate SetsRow(db: Db, next: Db, sid: string, r: Role, run: RoleRun)
  {
    && sid in db.roles && r in db.roles[sid] && next.roles.Keys == db.roles.Keys
    && (forall other :: other in db.roles && other != sid ==> next.roles[other] == db.roles[other])
    && next.roles[sid].Keys == db.roles[sid].Keys
    && (forall q :: q in db.roles[sid] ==> next.roles[sid][q] == if q == r then run else db.roles[sid][q])
  }

  /** The findings of one role are stored, each under its own key, and no other finding is touched. */
  ghost predicate AddsFindings(db: Db, next: Db, sid: string, r: Role, fs: seq<Finding>)
  {
    && (forall k :: k in db.findings ==> k in next.findings && next.findings[k] == db.findings[k])
    && (forall f :: f in fs ==> var k := sid + ":" + RoleName(r) + ":" + f.id;
          k !in db.findings && k in next.findings && next.findings[k] == FindingRow(sid, r, f))
    && forall k :: k in next.findings && k !in db.findings ==>
         exists f :: f in fs && k == sid + ":" + RoleName(r) + ":" + f.id
  }

  /** Everything but the rows of roles and findings is as it was. */
  predicate OnlyRolesAndFindings(db: Db, next: Db)
  {
    next == db.(roles := next.roles, findings := next.findings)
  }

  /** A success is published exactly for a role in flight whose findings cite stored units and whose keys are free. */
  lemma SuccessExact(db: Db, p: Validation.SuccessParams, now: Instant)
    requires Inv(db)
    ensures var o := PublishSuccess(db, p, now);
            && (o.result.Published? ==>
                  var r := o.result.role;
                  && Flying(db, p.projectId, p.sessionId, p.roleRunId, p.role, r, now) && p.callCount >= 0
                  && OnlyRolesAndFindings(db, o.db) && AddsFindings(db, o.db, p.sessionId, r, p.findings)
                  && var was := RolesOf(db, p.sessionId)[r];
                     SetsRow(db, o.db, p.sessionId, r,
                             RoleRun(RoleComplete, None, None, None, p.callCount, was.startedAt, Some(now),
                                     was.createdAt)))
            && (!o.result.Published? ==> o.db == db)
  {
    hide Inv, SessionOk, PublishFault, RoleWithId, RefsKnown, Validation.StructureOk, Blank, FindingRows, FindingKeys,
      AddsFindings;
    var o := PublishSuccess(db, p, now);
    FaultExact(db, p.projectId, p.sessionId, p.roleRunId, p.role, now);
    if o.result.Published? {
      var r :| Flying(db, p.projectId, p.sessionId, p.roleRunId, p.role, r, now);
      AtSession(db, p.sessionId);
      RowsOk(db.sessions[p.sessionId], db.roles[p.sessionId]);
      StructureDistinct(p.findings);
      FindingsAdded(db, o.db, p.sessionId, r, p.findings);
    }
  }

  lemma StructureDistinct(fs: seq<Finding>)
    requires Validation.StructureOk(fs)
    ensures Validation.DistinctIds(fs)
  {
    hide Validation.FindingOk;
  }

  lemma FindingsAdded(db: Db, next: Db, sid: string, r: Role, fs: seq<Finding>)
    requires next.findings == db.findings + FindingRows(sid, r, fs) && Validation.DistinctIds(fs)
    requires FindingKeys(sid, r, fs) * db.findings.Keys == {}
    ensures AddsFindings(db, next, sid, r, fs)
  {
    hide FindingRows, FindingKey;
    FindingRowsMeaning(sid, r, fs);
    Disjoint(FindingKeys(sid, r, fs), db.findings.Keys);
    forall f | f in fs
      ensures FindingRows(sid, r, fs).Keys >= {FindingKey(sid, r, f.id)}
      ensures FindingRows(sid, r, fs)[FindingKey(sid, r, f.id)] == FindingRow(sid, r, f)
    {
      RowUnderKey(sid, r, fs, f);
    }
    forall f: Finding ensures FindingKey(sid, r, f.id) == sid + ":" + RoleName(r) + ":" + f.id {
      KeyText(sid, r, f.id);
    }
  }

  lemma KeyText(sid: string, r: Role, id: string)
    ensures FindingKey(sid, r, id) == sid + ":" + RoleName(r) + ":" + id
  {
  }

  lemma {:induction false} RowUnderKey(sid: string, r: Role, fs: seq<Finding>, f: Finding)
    requires f in fs && Validation.DistinctIds(fs)
    ensures FindingKey(sid, r, f.id) in FindingRows(sid, r, fs)
    ensures FindingRows(sid, r, fs)[FindingKey(sid, r, f.id)] == FindingRow(sid, r, f)
  {
    hide FindingKey;
    var front, last := fs[..|fs| - 1], fs[|fs| - 1];
    if f != last {
      assert f in front;
      RowUnderKey(sid, r, front, f);
      if FindingKey(sid, r, f.id) == FindingKey(sid, r, last.id) {
        FindingKeyInjective(sid, r, f.id, sid, r, last.id);
        assert false;
      }
    }
  }

  /** Exactly when a success goes through, and that only a finding's key can stop one that cites stored units. */
  lemma SuccessWhen(db: Db, p: Validation.SuccessParams, now: Instant, r: Role)
    requires Inv(db) && Flying(db, p.projectId, p.sessionId, p.roleRunId, p.role, r, now)
    ensures var cited := forall f :: f in p.findings ==>
                    RefsKnown(UnitsStored(db, db.sessions[p.sessionId].snapshotId), f);
            var free := forall f :: f in p.findings ==> FindingKey(p.sessionId, r, f.id) !in db.findings;
            var result := PublishSuccess(db, p, now).result;
            && (result == Published(r) <==> Validation.SuccessOk(p) && cited && free)
            && (result == UnknownRef <==> Validation.SuccessOk(p) && !cited)
            && (result == DuplicateFinding <==> Validation.SuccessOk(p) && cited && !free)
  {
    hide Inv, PublishFault, RoleWithId, RefsKnown, Validation.SuccessOk, FindingKey;
    FaultExact(db, p.projectId, p.sessionId, p.roleRunId, p.role, now);
    var keys := FindingKeys(p.sessionId, r, p.findings);
    if k :| k in keys * db.findings.Keys {
      var f :| f in p.findings && k == FindingKey(p.sessionId, r, f.id);
    }
    if f :| f in p.findings && FindingKey(p.sessionId, r, f.id) in db.findings {
      assert FindingKey(p.sessionId, r, f.id) in keys * db.findings.Keys;
    }
  }

  /** A failure is published exactly for a role in flight, with its category, its message and its call count. */
  lemma FailureExact(db: Db, p: Validation.FailureParams, now: Instant)
    requires Inv(db)
    ensures var o := PublishFailure(db, p, now);
            && (o.result.Published? <==>
                  Validation.FailureOk(p)
                  && exists r :: Flying(db, p.projectId, p.sessionId, p.roleRunId, p.role, r, now))
            && (o.result.Published? ==>
                  var r := o.result.role;
                  && Flying(db, p.projectId, p.sessionId, p.roleRunId, p.role, r, now) && p.callCount >= 0
                  && OnlyRolesAndFindings(db, o.db) && o.db.findings == db.findings
                  && var was := RolesOf(db, p.sessionId)[r];
                     SetsRow(db, o.db, p.sessionId, r,
                             RoleRun(RoleFailed, None, Some(p.errorCategory),
                                     if p.errorMessage == "" then None else Some(p.errorMessage),
                                     p.callCount, was.startedAt, Some(now), was.createdAt)))
            && (!o.result.Published? ==> o.db == db)
  {
    hide Inv, SessionOk, PublishFault, RoleWithId, Blank;
    var o := PublishFailure(db, p, now);
    FaultExact(db, p.projectId, p.sessionId, p.roleRunId, p.role, now);
    if o.result.Published? {
      var r :| Flying(db, p.projectId, p.sessionId, p.roleRunId, p.role, r, now);
      AtSession(db, p.sessionId);
      RowsOk(db.sessions[p.sessionId], db.roles[p.sessionId]);
    }
  }

  // ---- Submissions -----------------------------------------------------------------------------

  /** A queued session with its own request, snapshot and creation time, under its own key. */
  ghost predicate SessionAdded(db: Db, next: Db, p: SubmitParams, sid: string, at: Instant)
  {
    && sid !in db.sessions && next.sessions.Keys == db.sessions.Keys + {sid}
    && (forall other :: other in db.sessions ==> next.sessions[other] == db.sessions[other])
    && next.sessions[sid] == Session(p.projectId, p.key, Buffer(p.projectId, p.title, p.content), p.snapshot.id, Queued,
                                     false, at, None, None, None, None, None, 0, 4)
    && (p.projectId, p.key) !in db.keys && next.keys == db.keys[(p.projectId, p.key) := sid]
  }

  /** Its four roles are pending. */
  ghost predicate RolesAdded(db: Db, next: Db, sid: string, at: Instant)
  {
    && next.roles.Keys == db.roles.Keys + {sid}
    && (forall other :: other in db.roles && other != sid ==> next.roles[other] == db.roles[other])
    && (forall r: Role :: r in next.roles[sid]
                          && next.roles[sid][r] == RoleRun(Pending, None, None, None, 0, None, None, at))
  }

  /** Its snapshot is stored, and one that was stored before is as it was. */
  ghost predicate SnapshotAdded(db: Db, next: Db, snap: Snapshot)
  {
    && next.snapshots.Keys == db.snapshots.Keys + {snap.id} && next.snapshots[snap.id].hash == snap.hash
    && (forall id :: id in db.snapshots ==> next.snapshots[id] == db.snapshots[id])
    && (snap.id !in db.snapshots ==> next.snapshots[snap.id].units == snap.units)
    && next.unitKeys
       == db.unitKeys + if snap.id in db.snapshots then {} else set u | u in snap.units :: snap.id + ":" + u.id
  }

  /** A submission adds these rows or none, and takes the ID it was given or else the generated one. */
  lemma SubmitStores(db: Db, p: SubmitParams, generated: string, at: Instant)
    requires Inv(db)
    ensures var o := Submit(db, p, generated, at);
            if o.result.Created? then
              && o.result.id == (if p.sessionId == "" then generated else p.sessionId)
              && SessionAdded(db, o.db, p, o.result.id, at) && RolesAdded(db, o.db, o.result.id, at)
              && SnapshotAdded(db, o.db, p.snapshot) && o.db.findings == db.findings
            else o.db == db
  {
    hide Inv, SubmitFault, Submit, SessionAdded, RolesAdded, SnapshotAdded, IsInserted;
    if Submit(db, p, generated, at).result.Created? && SubmitFault(p).None? {
      Insertion(db, p, generated, at);
      CreatedId(db, p, generated, at);
      InvKeys(db);
      var o := Submit(db, p, generated, at);
      InsertedSession(db, o.db, p, o.result.id, at);
      InsertedRoles(db, o.db, p, o.result.id, at);
      InsertedSnapshot(db, o.db, p, o.result.id, at);
    } else {
      SubmitUnchanged(db, p, generated, at);
      if SubmitFault(p).Some? {
        FaultNotCreated(db, p, generated, at);
      }
    }
  }

  lemma CreatedId(db: Db, p: SubmitParams, generated: string, at: Instant)
    requires SubmitFault(p).None? && Submit(db, p, generated, at).result.Created?
    ensures Submit(db, p, generated, at).result.id == if p.sessionId == "" then generated else p.sessionId
    ensures p.snapshot.id in db.snapshots ==> db.snapshots[p.snapshot.id].hash == p.snapshot.hash
  {
    hide SubmitFault, NewSession, NewRoles, UnitKeys;
  }

  lemma FaultNotCreated(db: Db, p: SubmitParams, generated: string, at: Instant)
    requires SubmitFault(p).Some?
    ensures !Submit(db, p, generated, at).result.Created?
  {
    hide Freezable, CanonicalHash, NewSession, NewRoles, UnitKeys, Buffer;
  }

  lemma InsertedSession(db: Db, next: Db, p: SubmitParams, sid: string, at: Instant)
    requires IsInserted(db, next, p, sid, at) && sid !in db.sessions && (p.projectId, p.key) !in db.keys
    ensures SessionAdded(db, next, p, sid, at) && next.findings == db.findings
  {
    hide NewRoles, SnapshotStored, Buffer;
  }

  lemma InsertedRoles(db: Db, next: Db, p: SubmitParams, sid: string, at: Instant)
    requires IsInserted(db, next, p, sid, at)
    ensures RolesAdded(db, next, sid, at)
  {
    hide NewSession, NewRoles, SnapshotStored;
    NewRolesPending(at);
  }

  lemma InsertedSnapshot(db: Db, next: Db, p: SubmitParams, sid: string, at: Instant)
    requires IsInserted(db, next, p, sid, at)
    requires p.snapshot.id in db.snapshots ==> db.snapshots[p.snapshot.id].hash == p.snapshot.hash
    ensures SnapshotAdded(db, next, p.snapshot)
  {
    hide NewSession, NewRoles;
  }
}
