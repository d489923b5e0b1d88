/** The store itself: the tables as mutable fields, each transaction as a method that follows the source's steps. */
module SqliteStore {
  import opened Options
  import opened Text
  import opened Domain
  import opened Evidence
  import opened Composer
  import opened RequestHash
  import opened Timestamps
  import opened Records
  import opened Database
  import opened DbInvariant
  import opened DbSteps
  import opened DbProgress
  import Sorting
  import Timing
  import Validation

  // ---- Queries over the rows of one session ---------------------------------------------------

  /** SELECT COUNT(*) ... WHERE status = ? */
  method CountStatus(rs: RoleMap, status: RoleStatus) returns (n: nat)
    ensures n == CountOf(rs, status)
  {
    n := 0;
    for i := 0 to |ROLES|
      invariant n == CountUpTo(rs, status, i)
    {
      if ROLES[i] in rs && rs[ROLES[i]].status == status {
        n := n + 1;
      }
    }
  }

  ghost function CountUpTo(rs: RoleMap, status: RoleStatus, i: nat): nat
    requires i <= |ROLES|
    ensures i == |ROLES| ==> CountUpTo(rs, status, i) == CountOf(rs, status)
  {
    (if i > 0 then One(Is(rs, Requirements, status)) else 0) + (if i > 1 then One(Is(rs, Architecture, status)) else 0)
    + (if i > 2 then One(Is(rs, QA, status)) else 0) + (if i > 3 then One(Is(rs, Security, status)) else 0)
  }

  /** SELECT role ... WHERE status = ? ORDER BY the canonical order LIMIT 1 */
  method SelectFirst(rs: RoleMap, status: RoleStatus) returns (r: Option<Role>)
    ensures r == FirstOf(rs, status)
  {
    for i := 0 to |ROLES|
      invariant forall j :: 0 <= j < i ==> !Is(rs, ROLES[j], status)
    {
      if Is(rs, ROLES[i], status) {
        FirstAt(rs, status, i);
        return Some(ROLES[i]);
      }
    }
    FirstAt(rs, status, |ROLES|);
    return None;
  }

  lemma FirstAt(rs: RoleMap, status: RoleStatus, i: nat)
    requires i <= |ROLES| && forall j :: 0 <= j < i ==> !Is(rs, ROLES[j], status)
    ensures i < |ROLES| && Is(rs, ROLES[i], status) ==> FirstOf(rs, status) == Some(ROLES[i])
    ensures i == |ROLES| ==> FirstOf(rs, status) == None
  {
    assert i > 0 ==> !Is(rs, ROLES[0], status);
    assert i > 1 ==> !Is(rs, ROLES[1], status);
    assert i > 2 ==> !Is(rs, ROLES[2], status);
    assert i > 3 ==> !Is(rs, ROLES[3], status);
  }

  /** SELECT role ... WHERE status = ? ORDER BY the canonical order */
  method SelectRoles(rs: RoleMap, status: RoleStatus) returns (roles: seq<Role>)
    ensures roles == RolesWith(rs, status)
  {
    hide Is;
    roles := [];
    for i := 0 to |ROLES|
      invariant roles == RolesUpTo(rs, status, i)
    {
      if Is(rs, ROLES[i], status) {
        roles := roles + [ROLES[i]];
      }
    }
    AllFourRoles(rs, status);
  }

  function AtMost(roles: seq<Role>, n: nat): seq<Role>
  {
    if n < |roles| then roles[..n] else roles
  }

  ghost function RolesUpTo(rs: RoleMap, status: RoleStatus, i: nat): seq<Role>
    requires i <= |ROLES|
  {
    if i == 0 then [] else RolesUpTo(rs, status, i - 1) + if Is(rs, ROLES[i - 1], status) then [ROLES[i - 1]] else []
  }

  lemma AllFourRoles(rs: RoleMap, status: RoleStatus)
    ensures RolesUpTo(rs, status, |ROLES|) == RolesWith(rs, status)
  {
    hide Is;
    assert RolesUpTo(rs, status, 1) == if Is(rs, Requirements, status) then [Requirements] else [];
    assert RolesUpTo(rs, status, 2) == RolesUpTo(rs, status, 1) + if Is(rs, Architecture, status) then [Architecture]
      else [];
    assert RolesUpTo(rs, status, 3) == RolesUpTo(rs, status, 2) + if Is(rs, QA, status) then [QA] else [];
  }

  /** A timestamp column read back as the store reads it: formatted text, parsed again. */
  method ReadTimestamp(column: Option<Instant>) returns (t: Option<Instant>)
    ensures t == column
  {
    if column.None? {
      return None;
    }
    var parsed := Parse(Format(column.value));
    ParseFormat(column.value);
    return Some(parsed.value);
  }

  /** SQL compares timestamp columns as text. */
  method TextBefore(a: Instant, b: Instant) returns (before: bool)
    ensures before <==> a < b
  {
    FormatOrder(a, b);
    before := Less(Format(a), Format(b));
  }

  /** UPDATE role_runs SET status = 'interrupted', ... WHERE status = 'pending'; the count is RowsAffected. */
  method InterruptPending(rs: RoleMap, cause: InterruptCause, now: Instant) returns (next: RoleMap, affected: nat)
    ensures next == SweepPending(rs, cause, now) && affected == CountOf(rs, Pending)
  {
    next := rs;
    affected := 0;
    for i := 0 to |ROLES|
      invariant affected == CountUpTo(rs, Pending, i) && next.Keys == rs.Keys
      invariant forall j :: 0 <= j < i && ROLES[j] in rs ==> next[ROLES[j]] == SweptRun(rs[ROLES[j]], cause, now)
      invariant forall j :: i <= j < |ROLES| && ROLES[j] in rs ==> next[ROLES[j]] == rs[ROLES[j]]
    {
      var r := ROLES[i];
      if r in next && next[r].status.Pending? {
        next := next[r := InterruptedRun(next[r], cause, Some(now))];
        affected := affected + 1;
      }
    }
    forall r | r in rs ensures next[r] == SweptRun(rs[r], cause, now) {
      RolesAreAll(r);
    }
  }

  class Store {
    var snapshots: map<string, StoredSnapshot>
    var unitKeys: set<string>
    var sessions: map<string, Session>
    var keys: map<(string, string), string>
    var roles: map<string, RoleMap>
    var findings: map<string, FindingRow>

    /** Every transaction committed so far. */
    ghost var history: seq<Step>

    function State(): Db
      reads this
    {
      Db(snapshots, unitKeys, sessions, keys, roles, findings)
    }

    /** The tables are what the committed transactions make of an empty database. */
    ghost predicate Valid()
      reads this
    {
      State() == Exec(EMPTY, history)
    }

    constructor ()
      ensures Valid() && history == [] && State() == EMPTY
    {
      snapshots, unitKeys, sessions, keys, roles, findings := map[], {}, map[], map[], map[], map[];
      history := [];
    }

    /** Whatever the history, the invariant of the protocol holds. */
    lemma ValidInv()
      requires Valid()
      ensures Inv(State())
    {
      hide Inv, Exec;
      EmptyOk();
      ExecKeeps(EMPTY, history);
    }

    lemma Committed(before: seq<Step>, step: Step)
      ensures Exec(EMPTY, before + [step]) == Apply(Exec(EMPTY, before), step)
    {
      assert (before + [step])[..|before|] == before;
    }

    // ---- dispatch.go ------------------------------------------------------------------------

    method ReservePendingRole(project: string, sid: string, now: Instant) returns (r: ReserveResult)
      requires Valid()
      modifies this`roles, this`history
      ensures Valid() && history == old(history) + [ReserveStep(project, sid, now)]
      ensures Outcome(State(), r) == Reserve(old(State()), project, sid, now)
      ensures r != GuardConflict
    {
      hide Exec, Reserve;
      r := ReserveTx(project, sid, now);
      Committed(history, ReserveStep(project, sid, now));
      history := history + [ReserveStep(project, sid, now)];
    }

    method ReserveTx(project: string, sid: string, now: Instant) returns (r: ReserveResult)
      modifies this`roles
      ensures Outcome(State(), r) == Reserve(old(State()), project, sid, now)
      ensures r != GuardConflict
    {
      hide Blank, CountOf, Started, FirstOf;
      if Blank(sid) || sid !in sessions {
        return ReserveNotFound;
      }
      var s := sessions[sid];
      if project != "" && s.projectId != project {
        return ReserveNotFound;
      }
      if !s.status.Reviewing? {
        return NotReviewing;
      }
      if s.cancelRequested {
        return Cancelled;
      }
      var cutoff := ReadTimestamp(s.cutoffAt);
      if cutoff.None? {
        return ReserveMalformed;
      }
      if !(now < cutoff.value) {
        return Cutoff;
      }
      var rs := RolesOf(State(), sid);
      var inFlight := CountStatus(rs, InFlight);
      if inFlight >= MAX_IN_FLIGHT {
        return CapacityFull(inFlight);
      }
      var target := SelectFirst(rs, Pending);
      if target.None? {
        return NoPendingRole(inFlight);
      }
      FirstOfMeaning(rs, Pending, target.value);
      // The UPDATE checks everything again, the cutoff as text.
      var beforeCutoff := TextBefore(now, cutoff.value);
      var running := CountStatus(rs, InFlight);
      if !(rs[target.value].status.Pending? && s.status.Reviewing? && !s.cancelRequested && beforeCutoff
        && running < MAX_IN_FLIGHT) {
        return GuardConflict;
      }
      roles := roles[sid := rs[target.value := Started(rs[target.value], now)]];
      return Reserved(target.value, inFlight + 1);
    }

    // ---- sweep.go -------------------------------------------------------------------------------

    method SweepCancellation(project: string, sid: string, now: Instant) returns (r: SweepResult)
      requires Valid()
      modifies this`roles, this`history
      ensures Valid() && history == old(history) + [CancellationSweepStep(project, sid, now)]
      ensures Outcome(State(), r) == Database.SweepCancellation(old(State()), project, sid, now)
    {
      hide Exec, Database.SweepCancellation;
      r := SweepCancellationTx(project, sid, now);
      Committed(history, CancellationSweepStep(project, sid, now));
      history := history + [CancellationSweepStep(project, sid, now)];
    }

    method SweepCancellationTx(project: string, sid: string, now: Instant) returns (r: SweepResult)
      modifies this`roles
      ensures Outcome(State(), r) == Database.SweepCancellation(old(State()), project, sid, now)
    {
      hide Blank, CountOf, SweepPending;
      if Blank(sid) || sid !in sessions {
        return SweepNotFound;
      }
      var s := sessions[sid];
      if project != "" && s.projectId != project {
        return SweepNotFound;
      }
      if !s.status.Reviewing? {
        return NotDue([]);
      }
      var rs := RolesOf(State(), sid);
      var inFlight := SelectRoles(rs, InFlight);
      if !s.cancelRequested {
        return NotDue(inFlight);
      }
      var pending := SelectRoles(rs, Pending);
      if |pending| == 0 {
        return Swept([], inFlight, true, true);
      }
      // The UPDATE requires status = 'reviewing' and cancel_requested = 1 again.
      var next, affected := InterruptPending(rs, UserCancelled, now);
      roles := roles[sid := next];
      return Swept(AtMost(pending, affected), inFlight, true, affected == 0);
    }

    method SweepCutoff(project: string, sid: string, now: Instant) returns (r: SweepResult)
      requires Valid()
      modifies this`roles, this`history
      ensures Valid() && history == old(history) + [CutoffSweepStep(project, sid, now)]
      ensures Outcome(State(), r) == Database.SweepCutoff(old(State()), project, sid, now)
    {
      hide Exec, Database.SweepCutoff;
      r := SweepCutoffTx(project, sid, now);
      Committed(history, CutoffSweepStep(project, sid, now));
      history := history + [CutoffSweepStep(project, sid, now)];
    }

    method SweepCutoffTx(project: string, sid: string, now: Instant) returns (r: SweepResult)
      modifies this`roles
      ensures Outcome(State(), r) == Database.SweepCutoff(old(State()), project, sid, now)
    {
      hide Blank, CountOf, SweepPending;
      if Blank(sid) || sid !in sessions {
        return SweepNotFound;
      }
      var s := sessions[sid];
      if project != "" && s.projectId != project {
        return SweepNotFound;
      }
      if !s.status.Reviewing? {
        return NotDue([]);
      }
      var cutoff := ReadTimestamp(s.cutoffAt);
      if cutoff.None? {
        return SweepMalformed;
      }
      if now < cutoff.value {
        return NotDue([]);
      }
      var rs := RolesOf(State(), sid);
      var inFlight := SelectRoles(rs, InFlight);
      var pending := SelectRoles(rs, Pending);
      if |pending| == 0 {
        return Swept([], inFlight, true, true);
      }
      // The UPDATE compares now with the cutoff again, as text.
      var before := TextBefore(now, cutoff.value);
      var affected := 0;
      if !before {
        var next;
        next, affected := InterruptPending(rs, DeadlineCutoff, now);
        roles := roles[sid := next];
      }
      return Swept(AtMost(pending, affected), inFlight, true, affected == 0);
    }

    method SweepHardDeadline(project: string, sid: string, now: Instant) returns (r: SweepResult)
      requires Valid()
      modifies this`roles, this`history
      ensures Valid() && history == old(history) + [DeadlineSweepStep(project, sid, now)]
      ensures Outcome(State(), r) == Database.SweepHardDeadline(old(State()), project, sid, now)
    {
      hide Exec, Database.SweepHardDeadline;
      r := SweepHardDeadlineTx(project, sid, now);
      Committed(history, DeadlineSweepStep(project, sid, now));
      history := history + [DeadlineSweepStep(project, sid, now)];
    }

    method SweepHardDeadlineTx(project: string, sid: string, now: Instant) returns (r: SweepResult)
      modifies this`roles
      ensures Outcome(State(), r) == Database.SweepHardDeadline(old(State()), project, sid, now)
    {
      hide Blank, CountOf, SweepPending;
      if Blank(sid) || sid !in sessions {
        return SweepNotFound;
      }
      var s := sessions[sid];
      if project != "" && s.projectId != project {
        return SweepNotFound;
      }
      if !s.status.Reviewing? {
        return NotDue([]);
      }
      var rs := RolesOf(State(), sid);
      var inFlight := SelectRoles(rs, InFlight);
      var deadline := ReadTimestamp(s.deadlineAt);
      var reached := deadline.Some? && !(now < deadline.value);
      if !reached {
        return NotDue(inFlight);
      }
      var pending := SelectRoles(rs, Pending);
      var affected := 0;
      if |pending| > 0 {
        // The UPDATE compares now with the deadline again, as text.
        var before := TextBefore(now, deadline.value);
        if !before {
          var next;
          next, affected := InterruptPending(rs, DeadlineCutoff, now);
          roles := roles[sid := next];
        }
      }
      return Swept(AtMost(pending, affected), inFlight, true, affected == 0 && |inFlight| == 0);
    }

    method SweepRestartRecovery(project: string, only: string, cutoff: Option<Instant>, now: Instant)
      returns (r: RecoverResult)
      requires Valid()
      modifies this`roles, this`history
      ensures Valid() && history == old(history) + [RecoverStep(project, only, cutoff, now)]
      ensures Outcome(State(), r) == Recover(old(State()), project, only, cutoff, now)
    {
      hide Exec, Recover;
      ghost var before := State();
      ValidInv();
      InvKeys(State());
      r := RecoverTx(project, only, cutoff, now);
      Committed(history, RecoverStep(project, only, cutoff, now));
      history := history + [RecoverStep(project, only, cutoff, now)];
    }

    method RecoverTx(project: string, only: string, cutoff: Option<Instant>, now: Instant) returns (r: RecoverResult)
      requires roles.Keys == sessions.Keys
      modifies this`roles
      ensures Outcome(State(), r) == Recover(old(State()), project, only, cutoff, now)
    {
      hide Recover, PartlyRecovered, Stale, RecoveredRoles, CountOf;
      if cutoff.None? {
        RecoverRefused(State(), project, only, cutoff, now);
        return NoCutoff;
      }
      if only != "" && (only !in sessions || (project != "" && sessions[only].projectId != project)) {
        RecoverRefused(State(), project, only, cutoff, now);
        return RecoverNotFound;
      }
      ghost var before := State();
      var infos: map<string, Recovery> := map[];
      var left := sessions.Keys;
      NoneRecovered(before, project, only, cutoff.value, now);
      while left != {}
        invariant left <= sessions.Keys && State() == before.(roles := roles)
        invariant PartlyRecovered(before, project, only, cutoff.value, now, left, roles, infos)
        decreases left
      {
        var sid :| sid in left;
        var stale := IsStale(sessions[sid], project, cutoff.value);
        PartKeys(before, project, only, cutoff.value, now, left, roles, infos, sid);
        if stale && (only == "" || sid == only) {
          var next, info := RecoverSession(sessions[sid], roles[sid], now);
          OneRecovered(before, project, only, cutoff.value, now, left, roles, infos, sid, next, info);
          infos := infos[sid := info];
          roles := roles[sid := next];
        } else {
          OneSkipped(before, project, only, cutoff.value, now, left, roles, infos, sid);
        }
        left := left - {sid};
      }
      AllRecovered(before, project, only, cutoff.value, now, roles, infos);
      return Recovered(infos);
    }

    // ---- cancel.go --------------------------------------------------------------------------------

    method RequestCancellation(project: string, sid: string) returns (r: CancelResult)
      requires Valid()
      modifies this`sessions, this`history
      ensures Valid() && history == old(history) + [CancelStep(project, sid)]
      ensures Outcome(State(), r) == Database.RequestCancellation(old(State()), project, sid)
    {
      hide Exec, Database.RequestCancellation;
      r := CancelTx(project, sid);
      Committed(history, CancelStep(project, sid));
      history := history + [CancelStep(project, sid)];
    }

    method CancelTx(project: string, sid: string) returns (r: CancelResult)
      modifies this`sessions
      ensures Outcome(State(), r) == Database.RequestCancellation(old(State()), project, sid)
    {
      hide Blank;
      if Blank(sid) || sid !in sessions {
        return CancelNotFound;
      }
      var s := sessions[sid];
      if project != "" && s.projectId != project {
        return CancelNotFound;
      }
      if s.status.IsTerminal() {
        return AlreadyTerminal;
      }
      if s.cancelRequested {
        return AlreadyRequested;
      }
      // UPDATE ... WHERE cancel_requested = 0 AND status IN ('queued', 'reviewing')
      sessions := sessions[sid := s.(cancelRequested := true)];
      return Effective;
    }

    // ---- claim.go ------------------------------------------------------------------------------------

    method ClaimSession(policy: Timing.TimingPolicy, now: Instant) returns (r: ClaimResult)
      requires Valid()
      modifies this`sessions, this`history
      ensures Valid() && history == old(history) + [ClaimStep(policy, now)]
      ensures Outcome(State(), r) == Claim(old(State()), policy, now)
    {
      hide Exec, Claim;
      r := ClaimTx(policy, now);
      Committed(history, ClaimStep(policy, now));
      history := history + [ClaimStep(policy, now)];
    }

    method ClaimTx(policy: Timing.TimingPolicy, now: Instant) returns (r: ClaimResult)
      modifies this`sessions
      ensures Outcome(State(), r) == Claim(old(State()), policy, now)
    {
      hide Blank, CountOf, IsHead, AnyReviewing, Timing.ValidPolicy, AllRoles;
      var fault := Timing.Validate(policy);
      if fault.Some? {
        return InvalidPolicy;
      }
      var reviewing := CountReviewing(State());
      if reviewing > 0 {
        return ActiveReviewing;
      }
      var head := SelectOldest(State());
      HeadIs(State(), head);
      if head.None? {
        return NoQueuedSession;
      }
      var sid := head.value;
      var s := sessions[sid];
      if Blank(sid) || s.completed != 0 || s.incomplete != |ROLES| {
        return MalformedHead(sid);
      }
      if s.claimedAt.Some? || s.cutoffAt.Some? || s.deadlineAt.Some? || s.terminalAt.Some? || s.reason.Some? {
        return MalformedHead(sid);
      }
      var createdAt := ReadTimestamp(Some(s.createdAt));
      if createdAt.value > now {
        return MalformedHead(sid);
      }
      var pending := AllPending(RolesOf(State(), sid));
      if !pending {
        return MalformedHead(sid);
      }
      PolicyBounds(policy);
      if now + policy.sessionHardDeadline >= END_OF_TIME {
        return OutOfRange;
      }
      var cutoffAt, deadlineAt := now + policy.dispatchCutoff, now + policy.sessionHardDeadline;
      sessions := sessions[sid := s.(status := Reviewing, claimedAt := Some(now), cutoffAt := Some(cutoffAt),
                                     deadlineAt := Some(deadlineAt))];
      return Claimed(sid, cutoffAt, deadlineAt);
    }

    // ---- submit.go -------------------------------------------------------------------------------------

    method Submit(p: SubmitParams, generated: string, createdAt: Instant) returns (r: SubmitResult)
      requires Valid()
      modifies this
      ensures Valid() && history == old(history) + [SubmitStep(p, generated, createdAt)]
      ensures Outcome(State(), r) == Database.Submit(old(State()), p, generated, createdAt)
    {
      hide Exec, Database.Submit;
      Committed(history, SubmitStep(p, generated, createdAt));
      ghost var before := history;
      r := SubmitTx(p, generated, createdAt);
      history := before + [SubmitStep(p, generated, createdAt)];
    }

    method SubmitTx(p: SubmitParams, generated: string, createdAt: Instant) returns (r: SubmitResult)
      modifies this`snapshots, this`unitKeys, this`sessions, this`keys, this`roles
      ensures Outcome(State(), r) == Database.Submit(old(State()), p, generated, createdAt)
    {
      hide UnitKeys, Buffer, NewRoles, NewSession, SubmitFault;
      var fault, digest := CheckSubmission(p);
      if fault.Some? {
        return fault.value;
      }
      var at := (p.projectId, p.key);
      if at in keys {
        var existing := keys[at];
        if existing in sessions && sessions[existing].requestHash == digest {
          return Replayed(existing, sessions[existing].status);
        }
        return KeyConflict;
      }
      var sid := if p.sessionId == "" then generated else p.sessionId;
      var allSnapshots, allKeys := snapshots, unitKeys;
      if p.snapshot.id !in snapshots {
        SubmittedUnits(p);
        var free;
        free, allKeys := InsertUnits(p.snapshot, unitKeys);
        if !free {
          return DuplicateRow;
        }
        allSnapshots := snapshots[p.snapshot.id := StoredSnapshot(p.snapshot.hash, p.snapshot.units)];
      } else if snapshots[p.snapshot.id].hash != p.snapshot.hash {
        return SnapshotMismatch;
      }
      if sid == "" || sid in sessions {
        return DuplicateRow;
      }
      var newRoles := InsertRoles(createdAt);
      NewSessionIs(p, createdAt);
      snapshots, unitKeys := allSnapshots, allKeys;
      sessions := sessions[sid := Session(p.projectId, p.key, digest, p.snapshot.id, Queued, false, createdAt,
                                          None, None, None, None, None, 0, |ROLES|)];
      keys := keys[at := sid];
      roles := roles[sid := newRoles];
      return Created(sid);
    }

    // ---- publish.go ------------------------------------------------------------------------------------

    method PublishRoleSuccess(p: Validation.SuccessParams, now: Instant) returns (r: PublishResult)
      requires Valid()
      modifies this`roles, this`findings, this`history
      ensures Valid() && history == old(history) + [SuccessStep(p, now)]
      ensures Outcome(State(), r) == PublishSuccess(old(State()), p, now)
    {
      hide Exec, PublishSuccess, Inv;
      Committed(history, SuccessStep(p, now));
      ValidInv();
      InvFindings(State());
      r := PublishSuccessTx(p, now);
      history := history + [SuccessStep(p, now)];
    }

    method PublishSuccessTx(p: Validation.SuccessParams, now: Instant) returns (r: PublishResult)
      requires roles.Keys == sessions.Keys
      modifies this`roles, this`findings
      ensures Outcome(State(), r) == PublishSuccess(old(State()), p, now)
    {
      hide PublishFault, RoleWithId, Validation.SuccessOk, FindingKeys, FindingRows, RefsKnown, CompletedRun;
      var bad := Validation.ValidateSuccess(p);
      if bad.Some? {
        return InvalidParams;
      }
      CallCountFits(p);
      var role, fault := CheckRun(p.projectId, p.sessionId, p.roleRunId, p.role, now);
      if fault.Some? {
        return fault.value;
      }
      var sid := p.sessionId;
      if |p.findings| > 0 {
        var known := CheckCitations(UnitsStored(State(), sessions[sid].snapshotId), p.findings);
        if !known {
          return UnknownRef;
        }
      }
      FindingsDistinct(p);
      var free, rows := InsertFindings(sid, role, p.findings, findings);
      if !free {
        return DuplicateFinding;
      }
      findings := rows;
      roles := roles[sid := roles[sid][role := CompletedRun(roles[sid][role], p.callCount, now)]];
      return Published(role);
    }

    method PublishRoleFailure(p: Validation.FailureParams, now: Instant) returns (r: PublishResult)
      requires Valid()
      modifies this`roles, this`history
      ensures Valid() && history == old(history) + [FailureStep(p, now)]
      ensures Outcome(State(), r) == PublishFailure(old(State()), p, now)
    {
      hide Exec, PublishFailure, Inv;
      Committed(history, FailureStep(p, now));
      ValidInv();
      InvFindings(State());
      r := PublishFailureTx(p, now);
      history := history + [FailureStep(p, now)];
    }

    method PublishFailureTx(p: Validation.FailureParams, now: Instant) returns (r: PublishResult)
      requires roles.Keys == sessions.Keys
      modifies this`roles
      ensures Outcome(State(), r) == PublishFailure(old(State()), p, now)
    {
      hide PublishFault, RoleWithId, Blank;
      var bad := Validation.ValidateFailure(p);
      if bad.Some? {
        return InvalidParams;
      }
      var role, fault := CheckRun(p.projectId, p.sessionId, p.roleRunId, p.role, now);
      if fault.Some? {
        return fault.value;
      }
      var sid := p.sessionId;
      // UPDATE ... WHERE status = 'in_flight'
      roles := roles[sid := roles[sid][role := FailedRun(roles[sid][role], p, now)]];
      return Published(role);
    }

    /** The reads both publications start with; role is the run's role when there is no fault. */
    method CheckRun(project: string, sid: string, rid: string, role: Option<Role>, now: Instant)
      returns (found: Role, fault: Option<PublishResult>)
      requires roles.Keys == sessions.Keys
      ensures fault == PublishFault(State(), project, sid, rid, role, now)
      ensures fault.None? ==>
                sid in sessions && sid in roles && found in roles[sid] && RolesOf(State(), sid) == roles[sid]
      ensures fault.None? ==> RoleWithId(State(), sid, rid) == Some(found)
    {
      hide RoleWithId;
      found := Requirements;
      if sid !in sessions || (project != "" && sessions[sid].projectId != project) {
        return found, Some(PublishNotFound);
      }
      var run := SelectRun(State(), sid, rid);
      RunFound(State(), sid, rid);
      if run.None? {
        return found, Some(NotInSession);
      }
      found := run.value;
      if role.Some? && role.value != found {
        return found, Some(RoleMismatch);
      }
      var row := roles[sid][found];
      if !row.status.InFlight? {
        return found, Some(NotInFlight(row.status));
      }
      var startedAt := ReadTimestamp(row.startedAt);
      if startedAt.Some? && now < startedAt.value {
        return found, Some(CompletedTooEarly);
      }
      return found, None;
    }

    // ---- compose.go and read.go ----------------------------------------------------------------------

    /** rows is the result set of the findings query, in the order SQLite happens to return it. */
    method ComposeSession(project: string, rawId: string, rows: seq<string>, now: Instant) returns (r: ComposeResult)
      requires Valid() && ResultSet(State(), TrimSpace(rawId), rows) && forall k :: k in rows ==> k in findings
      modifies this`sessions, this`history
      ensures Valid() && history == old(history) + [ComposeStep(project, rawId, now)]
      ensures Outcome(State(), r) == Database.ComposeSession(old(State()), project, rawId, rows, now)
    {
      hide Exec, Database.ComposeSession, Inv, ResultSet;
      Committed(history, ComposeStep(project, rawId, now));
      ComposeDb(State(), project, rawId, rows, now);
      r := ComposeTx(project, rawId, rows, now);
      history := history + [ComposeStep(project, rawId, now)];
    }

    method ComposeTx(project: string, rawId: string, rows: seq<string>, now: Instant) returns (r: ComposeResult)
      requires ResultSet(State(), TrimSpace(rawId), rows) && forall k :: k in rows ==> k in findings
      modifies this`sessions
      ensures Outcome(State(), r) == Database.ComposeSession(old(State()), project, rawId, rows, now)
    {
      hide TrimSpace, ResultSet, CountOf, Decide, Composable, Built, RowsOf, OutcomesOf, Database.ReadReport, AllRoles;
      var sid := TrimSpace(rawId);
      if sid == "" || sid !in sessions || (project != "" && sessions[sid].projectId != project) {
        return ComposeNotFound;
      }
      var s := sessions[sid];
      if s.status.IsTerminal() {
        var stored := ReadReport(s.projectId, sid, rows);
        return AlreadyComposed(stored);
      }
      if !s.status.Reviewing? {
        return ComposeNotReviewing;
      }
      var claimedAt := ReadTimestamp(s.claimedAt);
      var rs := RolesOf(State(), sid);
      var complete := HasAllRoles(rs);
      if !complete {
        return ComposeMalformed;
      }
      var pending := CountStatus(rs, Pending);
      var inFlight := CountStatus(rs, InFlight);
      if pending > 0 || inFlight > 0 {
        return NotReady(pending, inFlight);
      }
      var byRole := GroupFindings(State(), rows);
      var roleRows, outcomes := CollectOutcomes(State(), rs, rows, byRole);
      var decided := Compose(roleRows);
      match decided {
        case Err(_) =>
          return ComposeMalformed;
        case Ok(verdict) =>
          var at := now;
          if claimedAt.Some? && now < claimedAt.value {
            at := claimedAt.value;
          }
          var hash := if s.snapshotId in snapshots then snapshots[s.snapshotId].hash else [];
          var report := BuildReport(sid, s.snapshotId, hash, outcomes, verdict, s.cancelRequested);
          // UPDATE sessions ... WHERE status = 'reviewing'
          sessions := sessions[sid := s.(status := verdict.status, reason := Some(verdict.reason),
                                         completed := verdict.completed, incomplete := verdict.incomplete,
                                         terminalAt := Some(at))];
          return Composed(report);
      }
    }

    /** The read path assembles its report by itself; it is the report composition builds. */
    method ReadReport(project: string, sid: string, rows: seq<string>) returns (r: ReportResult)
      requires ResultSet(State(), sid, rows) && forall k :: k in rows ==> k in findings
      ensures r == Database.ReadReport(State(), project, sid, rows)
    {
      hide Blank, ResultSet, Built, OutcomesOf, AllRoles, FindingsIn;
      if Blank(sid) || sid !in sessions || (project != "" && sessions[sid].projectId != project) {
        return ReportNotFound;
      }
      var s := sessions[sid];
      if !s.status.IsTerminal() {
        return NotTerminalYet(s.status);
      }
      if s.reason.None? {
        return ReportMalformed;
      }
      var rs := RolesOf(State(), sid);
      var complete := HasAllRoles(rs);
      if !complete {
        return ReportMalformed;
      }
      var byRole := GroupFindings(State(), rows);
      var summaries, found := Summarize(State(), rs, rows, byRole, sid);
      var hash := if s.snapshotId in snapshots then snapshots[s.snapshotId].hash else [];
      ReadIsBuilt(State(), sid, rs, rows, s.snapshotId, hash,
                  Verdict(s.status, s.reason.value, s.completed, s.incomplete),
                  s.cancelRequested);
      return ReportOk(Report(sid, s.snapshotId, hash, s.status, s.reason.value, s.cancelRequested, s.completed,
                             s.incomplete,
                             summaries, Sorting.Sort(found, FindingLess)));
    }

    /** A stored snapshot always reads back: its units freeze again, to the stored hash. */
    method ReadSnapshot(id: string) returns (r: Result<Snapshot, SnapshotError>)
      requires Valid()
      ensures r.Ok? <==> id in snapshots
      ensures r.Ok? ==> r.value == Frozen(id, snapshots[id].units)
    {
      hide Exec, Freezable, CanonicalHash, Blank;
      ValidInv();
      StoredFreezes(State());
      if Blank(id) || id !in snapshots {
        if Blank(id) {
          BlankIsNotStored(State(), id);
        }
        return Err(NoSuchSnapshot);
      }
      var frozen := Freeze(id, snapshots[id].units);
      match frozen {
        case Err(_) =>
          return Err(MalformedSnapshot);
        case Ok(snapshot) =>
          if snapshot.hash != snapshots[id].hash {
            return Err(CorruptedSnapshot);
          }
          return Ok(snapshot);
      }
    }
  }

  datatype SnapshotError = NoSuchSnapshot | MalformedSnapshot | CorruptedSnapshot

  lemma StoredFreezes(db: Db)
    requires Inv(db)
    ensures forall id :: id in db.snapshots ==>
              Freezable(id, db.snapshots[id].units) && db.snapshots[id].hash == CanonicalHash(db.snapshots[id].units)
  {
    hide Freezable, CanonicalHash;
  }

  lemma BlankIsNotStored(db: Db, id: string)
    requires Inv(db) && Blank(id)
    ensures id !in db.snapshots
  {
    hide Inv, CanonicalHash, Blank, UnitsOk;
    StoredFreezes(db);
    assert forall k :: k in db.snapshots ==> Freezable(k, db.snapshots[k].units);
  }

  // ---- Helpers of the transactions ---------------------------------------------------------------

  /** SELECT COUNT(*) FROM sessions WHERE status = 'reviewing' */
  method CountReviewing(db: Db) returns (n: nat)
    ensures n > 0 <==> AnyReviewing(db)
  {
    n := 0;
    var left := db.sessions.Keys;
    while left != {}
      invariant left <= db.sessions.Keys
      invariant n > 0 <==> exists sid :: sid in db.sessions && sid !in left && db.sessions[sid].status.Reviewing?
      decreases left
    {
      var sid :| sid in left;
      if db.sessions[sid].status.Reviewing? {
        n := n + 1;
      }
      left := left - {sid};
    }
  }

  /** SELECT ... WHERE status = 'queued' ORDER BY created_at ASC, id ASC LIMIT 1, the times as text. */
  method SelectOldest(db: Db) returns (oldest: Option<string>)
    ensures oldest.None? ==> forall sid :: !IsQueued(db, sid)
    ensures oldest.Some? ==> IsHead(db, oldest.value)
  {
    hide Less;
    oldest := None;
    var left := db.sessions.Keys;
    while left != {}
      invariant left <= db.sessions.Keys
      invariant oldest.None? ==> forall sid :: IsQueued(db, sid) ==> sid in left
      invariant oldest.Some? ==> IsQueued(db, oldest.value)
      invariant oldest.Some? ==> forall sid :: IsQueued(db, sid) && sid !in left && sid != oldest.value ==>
                Earlier(db, oldest.value, sid)
      decreases left
    {
      var sid :| sid in left;
      if db.sessions[sid].status.Queued? {
        if oldest.None? {
          oldest := Some(sid);
        } else {
          var ahead := TextEarlier(db, sid, oldest.value);
          EarlierThan(db, sid, oldest.value);
          if ahead {
            forall other | IsQueued(db, other) && other !in left && other != oldest.value
              ensures Earlier(db, sid, other)
            {
              EarlierTransitive(db, sid, oldest.value, other);
            }
            oldest := Some(sid);
          }
        }
      }
      left := left - {sid};
    }
  }

  lemma EarlierThan(db: Db, a: string, b: string)
    requires a in db.sessions && b in db.sessions
    ensures a != b ==> Earlier(db, a, b) || Earlier(db, b, a)
  {
    LessTotal(a, b);
  }

  method TextEarlier(db: Db, a: string, b: string) returns (ahead: bool)
    requires a in db.sessions && b in db.sessions
    ensures ahead == Earlier(db, a, b)
  {
    hide Less;
    var before := TextBefore(db.sessions[a].createdAt, db.sessions[b].createdAt);
    var after := TextBefore(db.sessions[b].createdAt, db.sessions[a].createdAt);
    return before || (!after && Less(a, b));
  }

  lemma HeadIs(db: Db, head: Option<string>)
    requires head.None? ==> forall sid :: !IsQueued(db, sid)
    requires head.Some? ==> IsHead(db, head.value)
    ensures Head(db) == head && (head.Some? ==> IsQueued(db, head.value))
  {
    hide Earlier;
    if head.Some? {
      var h :| IsHead(db, h) && Head(db) == Some(h);
      HeadUnique(db, h, head.value);
    }
  }

  lemma PolicyBounds(policy: Timing.TimingPolicy)
    requires Timing.ValidPolicy(policy)
    ensures 0 < policy.dispatchCutoff <= policy.sessionHardDeadline
  {
  }

  /** Four role rows, none of them in a status other than pending. */
  method AllPending(rs: RoleMap) returns (ok: bool)
    ensures ok <==> AllRoles(rs) && CountOf(rs, Pending) == |ROLES|
  {
    var rows, nonPending := 0, 0;
    for i := 0 to |ROLES|
      invariant rows <= i && nonPending <= i
      invariant rows == i <==> forall j :: 0 <= j < i ==> ROLES[j] in rs
      invariant nonPending == 0 <==> forall j :: 0 <= j < i ==> ROLES[j] in rs ==> rs[ROLES[j]].status.Pending?
    {
      if ROLES[i] in rs {
        rows := rows + 1;
        if !rs[ROLES[i]].status.Pending? {
          nonPending := nonPending + 1;
        }
      }
    }
    PendingRows(rs);
    return rows == |ROLES| && nonPending == 0;
  }

  lemma PendingRows(rs: RoleMap)
    ensures AllRoles(rs) && CountOf(rs, Pending) == |ROLES| <==>
              forall j :: 0 <= j < |ROLES| ==> ROLES[j] in rs && rs[ROLES[j]].status.Pending?
  {
    if forall j :: 0 <= j < |ROLES| ==> ROLES[j] in rs && rs[ROLES[j]].status.Pending? {
      forall r: Role ensures r in rs && rs[r].status.Pending? {
        RolesAreAll(r);
      }
    }
    if AllRoles(rs) && CountOf(rs, Pending) == |ROLES| {
      assert Is(rs, ROLES[0], Pending) && Is(rs, ROLES[1], Pending) && Is(rs, ROLES[2], Pending)
        && Is(rs, ROLES[3], Pending);
    }
  }

  /** What Submit checks and computes before its transaction. */
  method CheckSubmission(p: SubmitParams) returns (fault: Option<SubmitResult>, digest: Digest)
    ensures fault == SubmitFault(p) && (fault.None? ==> digest == Buffer(p.projectId, p.title, p.content))
  {
    hide Freezable, CanonicalHash, Buffer;
    digest := [];
    if |p.projectId| == 0 || |p.key| == 0 || |p.title| == 0 || |p.content| == 0 {
      return Some(EmptyField), [];
    }
    if |p.snapshot.id| == 0 || |p.snapshot.hash| == 0 || |p.snapshot.units| == 0 {
      return Some(NilSnapshot), [];
    }
    var frozen := Freeze(p.snapshot.id, p.snapshot.units);
    match frozen {
      case Err(_) =>
        return Some(InvalidSnapshot), [];
      case Ok(snapshot) =>
        if snapshot.hash != p.snapshot.hash {
          return Some(HashMismatch), [];
        }
    }
    var hash := RequestHashV1(p.projectId, p.title, p.content);
    return None, hash.value;
  }

  lemma SubmittedUnits(p: SubmitParams)
    requires SubmitFault(p).None?
    ensures UniqueIds(p.snapshot.units)
  {
    hide CanonicalHash;
  }

  /** Inserts the unit rows one by one; the key is unique across snapshots. */
  method InsertUnits(snap: Snapshot, taken: set<string>) returns (free: bool, all: set<string>)
    requires UniqueIds(snap.units)
    ensures free <==> UnitKeys(snap) * taken == {}
    ensures free ==> all == taken + UnitKeys(snap)
  {
    all := taken;
    for i := 0 to |snap.units|
      invariant all == taken + (set j | 0 <= j < i :: UnitKey(snap.id, snap.units[j].id))
      invariant forall j :: 0 <= j < i ==> UnitKey(snap.id, snap.units[j].id) !in taken
    {
      var key := UnitKey(snap.id, snap.units[i].id);
      if key in all {
        UnitKeyTaken(snap, taken, i);
        return false, all;
      }
      all := all + {key};
    }
    UnitsInserted(snap, taken);
    return true, all;
  }

  lemma UnitKeyTaken(snap: Snapshot, taken: set<string>, i: nat)
    requires UniqueIds(snap.units) && i < |snap.units|
    requires UnitKey(snap.id, snap.units[i].id) in taken + (set j | 0 <= j < i :: UnitKey(snap.id, snap.units[j].id))
    ensures UnitKeys(snap) * taken != {}
  {
    var key := UnitKey(snap.id, snap.units[i].id);
    forall j | 0 <= j < i ensures UnitKey(snap.id, snap.units[j].id) != key {
      if UnitKey(snap.id, snap.units[j].id) == key {
        SameUnitKey(snap.id, snap.units[j].id, snap.units[i].id);
      }
    }
    assert snap.units[i] in snap.units;
    assert key in UnitKeys(snap) * taken;
  }

  lemma SameUnitKey(id: string, a: string, b: string)
    requires UnitKey(id, a) == UnitKey(id, b)
    ensures a == b
  {
    assert a == UnitKey(id, a)[|id| + 1..] && b == UnitKey(id, b)[|id| + 1..];
  }

  lemma UnitsInserted(snap: Snapshot, taken: set<string>)
    requires forall j :: 0 <= j < |snap.units| ==> UnitKey(snap.id, snap.units[j].id) !in taken
    ensures UnitKeys(snap) * taken == {}
    ensures (set j | 0 <= j < |snap.units| :: UnitKey(snap.id, snap.units[j].id)) == UnitKeys(snap)
  {
    hide UnitKey;
    forall key | key in UnitKeys(snap)
      ensures exists j :: 0 <= j < |snap.units| && UnitKey(snap.id, snap.units[j].id) == key
    {
      var u :| u in snap.units && UnitKey(snap.id, u.id) == key;
      var j :| 0 <= j < |snap.units| && snap.units[j] == u;
    }
  }

  /** The four canonical role rows, in canonical order. */
  method InsertRoles(createdAt: Instant) returns (rs: RoleMap)
    ensures rs == NewRoles(createdAt)
  {
    rs := map[];
    for i := 0 to |ROLES|
      invariant forall j :: 0 <= j < i ==> ROLES[j] in rs && rs[ROLES[j]] == NewRun(createdAt)
    {
      rs := rs[ROLES[i] := RoleRun(Pending, None, None, None, 0, None, None, createdAt)];
    }
    forall r: Role ensures r in rs && rs[r] == NewRun(createdAt) {
      RolesAreAll(r);
    }
    NewRolesPending(createdAt);
  }

  lemma NewSessionIs(p: SubmitParams, createdAt: Instant)
    ensures NewSession(p, createdAt)
         == Session(p.projectId, p.key, Buffer(p.projectId, p.title, p.content), p.snapshot.id, Queued, false,
                    createdAt,
                    None, None, None, None, None, 0, |ROLES|)
  {
  }

  lemma InvFindings(db: Db)
    requires Inv(db)
    ensures FindingsOk(db) && db.roles.Keys == db.sessions.Keys
  {
  }

  lemma CallCountFits(p: Validation.SuccessParams)
    requires Validation.SuccessOk(p)
    ensures p.callCount >= 0
  {
  }

  lemma FindingsDistinct(p: Validation.SuccessParams)
    requires Validation.SuccessOk(p)
    ensures Validation.DistinctIds(p.findings)
  {
  }

  /** SELECT ... FROM role_runs WHERE id = ? AND session_id = ? */
  method SelectRun(db: Db, sid: string, rid: string) returns (r: Option<Role>)
    ensures r == RoleWithId(db, sid, rid)
  {
    hide RoleRunId;
    var rs := RolesOf(db, sid);
    for i := 0 to |ROLES|
      invariant forall j :: 0 <= j < i ==> !(ROLES[j] in rs && rid == RoleRunId(sid, ROLES[j]))
    {
      if ROLES[i] in rs && rid == RoleRunId(sid, ROLES[i]) {
        assert i > 0 ==> !(ROLES[0] in rs && rid == RoleRunId(sid, ROLES[0]));
        assert i > 1 ==> !(ROLES[1] in rs && rid == RoleRunId(sid, ROLES[1]));
        assert i > 2 ==> !(ROLES[2] in rs && rid == RoleRunId(sid, ROLES[2]));
        return Some(ROLES[i]);
      }
    }
    assert !(ROLES[0] in rs && rid == RoleRunId(sid, ROLES[0])) && !(ROLES[1] in rs && rid == RoleRunId(sid, ROLES[1]));
    assert !(ROLES[2] in rs && rid == RoleRunId(sid, ROLES[2])) && !(ROLES[3] in rs && rid == RoleRunId(sid, ROLES[3]));
    return None;
  }

  lemma RunFound(db: Db, sid: string, rid: string)
    ensures var r := RoleWithId(db, sid, rid); r.Some? ==> r.value in RolesOf(db, sid)
  {
    hide RoleRunId;
  }

  /** Every citation names a unit of the session's snapshot. */
  method CheckCitations(units: seq<Unit>, fs: seq<Finding>) returns (known: bool)
    ensures known <==> forall f :: f in fs ==> RefsKnown(units, f)
  {
    var ids: set<string> := {};
    for i := 0 to |units|
      invariant ids == Ids(units[..i])
    {
      assert units[..i + 1] == units[..i] + [units[i]];
      ids := ids + {units[i].id};
    }
    assert units[..|units|] == units;
    for i := 0 to |fs|
      invariant forall j :: 0 <= j < i ==> RefsKnown(units, fs[j])
    {
      var refs := fs[i].basisRefs;
      assert fs[i] in fs;
      for j := 0 to |refs|
        invariant forall k :: 0 <= k < j ==> refs[k] in ids
      {
        if refs[j] !in ids {
          return false;
        }
      }
      if fs[i].anchorRef != "" && fs[i].anchorRef !in ids {
        return false;
      }
    }
    return true;
  }

  /** Inserts the finding rows one by one. */
  method InsertFindings(sid: string, role: Role, fs: seq<Finding>, table: map<string, FindingRow>)
    returns (free: bool, rows: map<string, FindingRow>)
    requires Validation.DistinctIds(fs)
    ensures free <==> FindingKeys(sid, role, fs) * table.Keys == {}
    ensures free ==> rows == table + FindingRows(sid, role, fs)
  {
    hide FindingKey, FindingRows, FindingKeys;
    rows := table;
    assert fs[..0] == [];
    NoRows(sid, role, table);
    for i := 0 to |fs|
      invariant rows == table + FindingRows(sid, role, fs[..i])
      invariant forall j :: 0 <= j < i ==> FindingKey(sid, role, fs[j].id) !in table
    {
      var key := FindingKey(sid, role, fs[i].id);
      if key in rows {
        FindingKeyTaken(sid, role, fs, table, i);
        return false, rows;
      }
      RowsSnoc(sid, role, fs, table, i);
      rows := rows[key := FindingRow(sid, role, fs[i])];
    }
    assert fs[..|fs|] == fs;
    KeysFree(sid, role, fs, table);
    return true, rows;
  }

  lemma NoRows(sid: string, role: Role, table: map<string, FindingRow>)
    ensures table + FindingRows(sid, role, []) == table
  {
  }

  lemma RowsSnoc(sid: string, role: Role, fs: seq<Finding>, table: map<string, FindingRow>, i: nat)
    requires i < |fs|
    ensures table + FindingRows(sid, role, fs[..i + 1])
         == (table + FindingRows(sid, role, fs[..i]))[FindingKey(sid, role, fs[i].id) := FindingRow(sid, role, fs[i])]
  {
    hide FindingKey;
    assert fs[..i + 1][..i] == fs[..i];
  }

  lemma SameFindingKey(sid: string, role: Role, a: string, b: string)
    requires FindingKey(sid, role, a) == FindingKey(sid, role, b)
    ensures a == b
  {
    var n := |RoleRunId(sid, role)| + 1;
    assert a == FindingKey(sid, role, a)[n..] && b == FindingKey(sid, role, b)[n..];
  }

  lemma FindingKeyTaken(sid: string, role: Role, fs: seq<Finding>, table: map<string, FindingRow>, i: nat)
    requires Validation.DistinctIds(fs) && i < |fs|
    requires FindingKey(sid, role, fs[i].id) in table
             || FindingKey(sid, role, fs[i].id) in FindingRows(sid, role, fs[..i])
    ensures FindingKeys(sid, role, fs) * table.Keys != {}
  {
    hide FindingKey;
    var key := FindingKey(sid, role, fs[i].id);
    FindingRowsMeaning(sid, role, fs[..i]);
    forall f | f in fs[..i] ensures FindingKey(sid, role, f.id) != key {
      var j :| 0 <= j < i && fs[j] == f;
      if FindingKey(sid, role, f.id) == key {
        SameFindingKey(sid, role, f.id, fs[i].id);
      }
    }
    assert key in table;
    assert fs[i] in fs;
    assert key in FindingKeys(sid, role, fs) * table.Keys;
  }

  lemma KeysFree(sid: string, role: Role, fs: seq<Finding>, table: map<string, FindingRow>)
    requires forall j :: 0 <= j < |fs| ==> FindingKey(sid, role, fs[j].id) !in table
    ensures FindingKeys(sid, role, fs) * table.Keys == {}
  {
    hide FindingKey;
  }

  lemma ComposeDb(db: Db, project: string, rawId: string, keys: seq<string>, now: Instant)
    requires forall k :: k in keys ==> k in db.findings
    ensures Apply(db, ComposeStep(project, rawId, now)) == Database.ComposeSession(db, project, rawId, keys, now).db
  {
    hide TrimSpace, Decide, Composable, CountOf, ReportWith, Database.ReadReport, RowsOf;
  }

  method HasAllRoles(rs: RoleMap) returns (ok: bool)
    ensures ok == AllRoles(rs)
  {
    for i := 0 to |ROLES|
      invariant forall j :: 0 <= j < i ==> ROLES[j] in rs
    {
      if ROLES[i] !in rs {
        return false;
      }
    }
    forall r: Role ensures r in rs {
      RolesAreAll(r);
    }
    return true;
  }

  function Listed(byRole: map<Role, seq<Finding>>, r: Role): seq<Finding>
  {
    if r in byRole then byRole[r] else []
  }

  /** findingsByRole[rf.role] = append(findingsByRole[rf.role], finding), row by row. */
  method GroupFindings(db: Db, rows: seq<string>) returns (byRole: map<Role, seq<Finding>>)
    requires forall k :: k in rows ==> k in db.findings
    ensures forall r: Role :: Listed(byRole, r) == FindingsIn(db, rows, r)
  {
    byRole := map[];
    for i := 0 to |rows|
      invariant forall r: Role :: Listed(byRole, r) == FindingsIn(db, rows[..i], r)
    {
      var row := db.findings[rows[i]];
      assert rows[..i + 1][..i] == rows[..i];
      byRole := byRole[row.role := Listed(byRole, row.role) + [row.finding]];
    }
    assert rows[..|rows|] == rows;
  }

  function CategoryText(run: RoleRun): string
  {
    if run.errorCategory.Some? then run.errorCategory.value else ""
  }

  /** The rows and outcomes composition works on, in canonical order. */
  method CollectOutcomes(db: Db, rs: RoleMap, rows: seq<string>, byRole: map<Role, seq<Finding>>)
    returns (roleRows: seq<RoleRow>, outcomes: seq<RoleOutcome>)
    requires AllRoles(rs) && forall k :: k in rows ==> k in db.findings
    requires forall r: Role :: Listed(byRole, r) == FindingsIn(db, rows, r)
    ensures roleRows == RowsOf(rs) && outcomes == OutcomesOf(db, rs, rows)
  {
    hide FindingsIn, Listed;
    roleRows, outcomes := [], [];
    for i := 0 to |ROLES|
      invariant |roleRows| == i == |outcomes|
      invariant forall j :: 0 <= j < i ==> roleRows[j] == RowOf(rs, ROLES[j])
      invariant forall j :: 0 <= j < i ==> outcomes[j] == OutcomeOf(db, rs, rows, ROLES[j])
    {
      var r := ROLES[i];
      var run := rs[r];
      roleRows := roleRows + [RoleRow(r, run.status, run.cause)];
      outcomes := outcomes + [RoleOutcome(r, run.status, Listed(byRole, r), CategoryText(run), run.cause,
                                          run.callCount, None)];
    }
  }

  /** The summaries and the findings of complete roles, as the read path lists them. */
  method Summarize(db: Db, rs: RoleMap, rows: seq<string>, byRole: map<Role, seq<Finding>>, ghost sid: string)
    returns (summaries: seq<RoleSummary>, found: seq<ReportFinding>)
    requires AllRoles(rs) && rs == RolesOf(db, sid) && ResultSet(db, sid, rows) && forall k :: k in rows ==>
             k in db.findings
    requires forall r: Role :: Listed(byRole, r) == FindingsIn(db, rows, r)
    ensures summaries == Summaries(OutcomesOf(db, rs, rows)) && found == Contributions(OutcomesOf(db, rs, rows))
  {
    hide OutcomesOf, FindingsIn, Listed, ResultSet, Contributions;
    ghost var os := OutcomesOf(db, rs, rows);
    summaries, found := [], [];
    assert os[..0] == [];
    NoContributions();
    for i := 0 to |ROLES|
      invariant summaries == Summaries(os[..i]) && found == Contributions(os[..i])
    {
      var r := ROLES[i];
      var run := rs[r];
      var list := Listed(byRole, r);
      var count := if run.status.RoleComplete? then |list| else 0;
      OnlyCompleteRows(db, sid, rows, r);
      OutcomeAt(db, rs, rows, i);
      ContributionsSnoc(os, i);
      summaries := summaries + [RoleSummary(r, run.status, CategoryText(run), run.cause, count, run.callCount, None)];
      assert summaries == Summaries(os[..i + 1]);
      if run.status.RoleComplete? {
        found := found + Tagged(r, list);
      }
    }
    assert os[..|ROLES|] == os;
  }

  lemma NoContributions()
    ensures Contributions([]) == []
  {
  }

  lemma OutcomeAt(db: Db, rs: RoleMap, rows: seq<string>, i: nat)
    requires AllRoles(rs) && i < |ROLES| && forall k :: k in rows ==> k in db.findings
    ensures OutcomesOf(db, rs, rows)[i] == OutcomeOf(db, rs, rows, ROLES[i])
  {
    hide OutcomeOf;
  }

  lemma ContributionsSnoc(os: seq<RoleOutcome>, i: nat)
    requires i < |os|
    ensures Contributions(os[..i + 1]) == Contributions(os[..i]) + Contribution(os[i])
  {
    assert os[..i + 1][..i] == os[..i];
  }

  /** The query joins on status = 'complete': no row belongs to a role that is not. */
  lemma {:induction false} OnlyCompleteRowsIn(db: Db, rows: seq<string>, r: Role)
    requires forall k :: k in rows ==> k in db.findings && db.findings[k].role != r
    ensures FindingsIn(db, rows, r) == []
  {
    if rows != [] {
      OnlyCompleteRowsIn(db, rows[..|rows| - 1], r);
      assert rows[|rows| - 1] in rows;
    }
  }

  lemma OnlyCompleteRows(db: Db, sid: string, rows: seq<string>, r: Role)
    requires ResultSet(db, sid, rows) && (forall k :: k in rows ==> k in db.findings)
    ensures !Is(RolesOf(db, sid), r, RoleComplete) ==> FindingsIn(db, rows, r) == []
  {
    hide FindingsIn;
    if !Is(RolesOf(db, sid), r, RoleComplete) {
      forall k | k in rows ensures db.findings[k].role != r {
        assert RowCounts(db, sid, k);
      }
      OnlyCompleteRowsIn(db, rows, r);
    }
  }

  /** Canonical order is the order the report sorts the summaries into. */
  lemma ReadIsBuilt(db: Db, sid: string, rs: RoleMap, rows: seq<string>, snapshot: string, hash: Hash, v: Verdict,
                    cancelled: bool)
    requires AllRoles(rs) && forall k :: k in rows ==> k in db.findings
    ensures Built(sid, snapshot, hash, OutcomesOf(db, rs, rows), v, cancelled)
         == Report(sid, snapshot, hash, v.status, v.reason, cancelled, v.completed, v.incomplete,
                   Summaries(OutcomesOf(db, rs, rows)),
                   Sorting.Sort(Contributions(OutcomesOf(db, rs, rows)), FindingLess))
  {
    hide FindingsIn, Sorting.Sort, Contributions, FindingLess;
    var os := OutcomesOf(db, rs, rows);
    InOrder(os);
    Sorting.SortIncreasing(Summaries(os), SummaryLess);
    Sorting.SortPermutes(Summaries(os), SummaryLess);
    Sorting.IncreasingUnique(Sorting.Sort(Summaries(os), SummaryLess), Summaries(os), SummaryLess);
  }

  lemma InOrder(os: seq<RoleOutcome>)
    requires |os| == |ROLES| && forall i :: 0 <= i < |ROLES| ==> os[i].role == ROLES[i]
    ensures Sorting.StrictOrder(SummaryLess) && Sorting.Increasing(Summaries(os), SummaryLess)
    ensures Sorting.Comparable(Summaries(os), SummaryLess)
  {
  }

  // ---- The recovery loop ------------------------------------------------------------------------

  /** Every session outside left has been dealt with. */
  ghost predicate PartlyRecovered(db: Db, project: string, only: string, cutoff: Instant, now: Instant,
                                  left: set<string>,
                                  rows: map<string, RoleMap>, infos: map<string, Recovery>)
  {
    && db.roles.Keys == db.sessions.Keys == rows.Keys
    && (forall sid :: sid in rows ==>
          rows[sid] == if sid !in left && Recoverable(db, project, only, cutoff, sid)
                       then RecoveredRoles(db.roles[sid], db.sessions[sid], now) else db.roles[sid])
    && (forall sid ::
          sid in infos <==> sid in db.sessions && sid !in left && Recoverable(db, project, only, cutoff, sid))
    && (forall sid :: sid in infos ==> infos[sid] == RecoveryOf(db, sid))
  }

  lemma NoneRecovered(db: Db, project: string, only: string, cutoff: Instant, now: Instant)
    requires db.roles.Keys == db.sessions.Keys
    ensures PartlyRecovered(db, project, only, cutoff, now, db.sessions.Keys, db.roles, map[])
  {
    hide Recoverable, RecoveredRoles, RecoveryOf;
  }

  lemma PartKeys(db: Db, project: string, only: string, cutoff: Instant, now: Instant, left: set<string>,
                 rows: map<string, RoleMap>, infos: map<string, Recovery>, sid: string)
    requires PartlyRecovered(db, project, only, cutoff, now, left, rows, infos) && sid in left && sid in db.sessions
    ensures sid in rows && sid in db.roles && rows[sid] == db.roles[sid]
    ensures Recoverable(db, project, only, cutoff, sid) <==>
            Stale(db.sessions[sid], project, cutoff) && (only == "" || sid == only)
  {
    hide Stale, RecoveredRoles, RecoveryOf;
  }

  lemma OneRecovered(db: Db, project: string, only: string, cutoff: Instant, now: Instant, left: set<string>,
                     rows: map<string, RoleMap>, infos: map<string, Recovery>, sid: string, next: RoleMap,
                     info: Recovery)
    requires PartlyRecovered(db, project, only, cutoff, now, left, rows, infos) && sid in left && sid in db.sessions
    requires Recoverable(db, project, only, cutoff, sid) && sid in db.roles
    requires next == RecoveredRoles(db.roles[sid], db.sessions[sid], now)
    requires info == Recovery(CountOf(db.roles[sid], InFlight), CountOf(db.roles[sid], Pending),
                              db.sessions[sid].cancelRequested)
    ensures PartlyRecovered(db, project, only, cutoff, now, left - {sid}, rows[sid := next], infos[sid := info])
  {
    hide Recoverable, RecoveredRoles, CountOf;
  }

  lemma OneSkipped(db: Db, project: string, only: string, cutoff: Instant, now: Instant, left: set<string>,
                   rows: map<string, RoleMap>, infos: map<string, Recovery>, sid: string)
    requires PartlyRecovered(db, project, only, cutoff, now, left, rows, infos)
    requires !Recoverable(db, project, only, cutoff, sid)
    ensures PartlyRecovered(db, project, only, cutoff, now, left - {sid}, rows, infos)
  {
    hide Recoverable, RecoveredRoles, RecoveryOf;
  }

  lemma AllRecovered(db: Db, project: string, only: string, cutoff: Instant, now: Instant,
                     rows: map<string, RoleMap>, infos: map<string, Recovery>)
    requires PartlyRecovered(db, project, only, cutoff, now, {}, rows, infos)
    requires only == "" || Scoped(db, project, only)
    ensures Outcome(db.(roles := rows), Recovered(infos)) == Recover(db, project, only, Some(cutoff), now)
  {
    hide Recoverable, RecoveredRoles, RecoveryOf;
    assert rows == RecoverAll(db, project, only, cutoff, now).roles;
    assert infos == map sid | sid in db.sessions && Recoverable(db, project, only, cutoff, sid) :: RecoveryOf(db, sid);
  }

  lemma RecoverRefused(db: Db, project: string, only: string, cutoff: Option<Instant>, now: Instant)
    requires cutoff.None? || (only != "" && !Scoped(db, project, only))
    ensures Recover(db, project, only, cutoff, now) == Outcome(db, if cutoff.None? then NoCutoff else RecoverNotFound)
  {
    hide RecoveryOf;
  }

  /** WHERE status = 'reviewing' AND claimed_at IS NOT NULL AND claimed_at <= ?, the times as text. */
  method IsStale(s: Session, project: string, cutoff: Instant) returns (stale: bool)
    ensures stale == Stale(s, project, cutoff)
  {
    if !s.status.Reviewing? || s.claimedAt.None? {
      return false;
    }
    var late := TextBefore(cutoff, s.claimedAt.value);
    return !late && (project == "" || s.projectId == project);
  }

  /** The two UPDATEs of one stale session: its roles in flight, then its pending roles. */
  method RecoverSession(s: Session, rs: RoleMap, now: Instant) returns (next: RoleMap, info: Recovery)
    ensures next == RecoveredRoles(rs, s, now)
    ensures info == Recovery(CountOf(rs, InFlight), CountOf(rs, Pending), s.cancelRequested)
  {
    var running, inFlight := InterruptInFlight(rs, now);
    var swept, pending := InterruptPending(running, PendingCause(s), now);
    InFlightLeavesPending(rs, running, now);
    next := swept;
    info := Recovery(inFlight, pending, s.cancelRequested);
    forall r | r in rs ensures next[r] == RecoveredRun(rs[r], s, now) {
    }
  }

  function InterruptedInFlight(run: RoleRun, now: Instant): RoleRun
  {
    if run.status.InFlight? then
      InterruptedRun(run, ProcessRestart,
                     if run.startedAt.Some? && now >= run.startedAt.value then Some(now) else run.startedAt)
    else run
  }

  method InterruptInFlight(rs: RoleMap, now: Instant) returns (next: RoleMap, affected: nat)
    ensures next.Keys == rs.Keys && forall r :: r in rs ==> next[r] == InterruptedInFlight(rs[r], now)
    ensures affected == CountOf(rs, InFlight)
  {
    next := rs;
    affected := 0;
    for i := 0 to |ROLES|
      invariant affected == CountUpTo(rs, InFlight, i) && next.Keys == rs.Keys
      invariant forall j :: 0 <= j < i && ROLES[j] in rs ==> next[ROLES[j]] == InterruptedInFlight(rs[ROLES[j]], now)
      invariant forall j :: i <= j < |ROLES| && ROLES[j] in rs ==> next[ROLES[j]] == rs[ROLES[j]]
    {
      var r := ROLES[i];
      if r in next && next[r].status.InFlight? {
        // CASE WHEN now >= started_at THEN now ELSE started_at END
        var completedAt := next[r].startedAt;
        if completedAt.Some? {
          var early := TextBefore(now, completedAt.value);
          if !early {
            completedAt := Some(now);
          }
        }
        next := next[r := InterruptedRun(next[r], ProcessRestart, completedAt)];
        affected := affected + 1;
      }
    }
    forall r | r in rs ensures next[r] == InterruptedInFlight(rs[r], now) {
      RolesAreAll(r);
    }
  }

  lemma InFlightLeavesPending(rs: RoleMap, next: RoleMap, now: Instant)
    requires next.Keys == rs.Keys && forall r :: r in rs ==> next[r] == InterruptedInFlight(rs[r], now)
    ensures CountOf(next, Pending) == CountOf(rs, Pending)
  {
    forall r: Role ensures Is(next, r, Pending) == Is(rs, r, Pending) {
    }
  }
}
