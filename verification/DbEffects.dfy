/** What one transaction does to the roles of one session, as its worker sees it. */
module DbEffects {
  import opened Options
  import opened Text
  import opened Domain
  import opened Composer
  import opened Timestamps
  import opened Records
  import opened Database
  import opened DbInvariant
  import opened DbSteps
  import opened RoleRunner
  import Timing
  import Validation

  // ---- Steps that are not the worker's own ---------------------------------------------------

  /**
   * Under the process lock there is one worker: nobody else reserves, publishes or composes for its session,
   * and recovery only runs before a claim. Submissions, cancellations, sweeps, and anything on other
   * sessions may happen at any time.
   */
  predicate IsForeign(step: Step, sid: string)
  {
    match step
    case ReserveStep(_, id, _) => id != sid
    case SuccessStep(p, _) => p.sessionId != sid
    case FailureStep(p, _) => p.sessionId != sid
    case RecoverStep(_, _, _, _) => false
    case ComposeStep(_, id, _) => TrimSpace(id) != sid
    case _ => true
  }

  /** A foreign step leaves a role alone or interrupts it while it is pending. */
  predicate OnlyInterrupts(rs: RoleMap, next: RoleMap)
  {
    next.Keys == rs.Keys
    && forall r :: r in rs ==> next[r] == rs[r] || (rs[r].status.Pending? && next[r].status.Interrupted?)
  }

  lemma SameInterrupts(rs: RoleMap)
    ensures OnlyInterrupts(rs, rs)
  {
  }

  lemma SweepOnlyInterrupts(rs: RoleMap, cause: InterruptCause, now: Instant)
    ensures OnlyInterrupts(rs, SweepPending(rs, cause, now))
  {
  }

  lemma SweepTail(db: Db, id: string, cause: InterruptCause, at: Instant, sid: string)
    ensures OnlyInterrupts(RolesOf(db, sid), RolesOf(Sweep(db, id, cause, at).db, sid))
  {
    hide CountOf, SweepPending, OnlyInterrupts;
    SameInterrupts(RolesOf(db, sid));
    SweepOnlyInterrupts(RolesOf(db, id), cause, at);
  }

  lemma SweepEffect(db: Db, project: string, id: string, at: Instant, sid: string)
    ensures OnlyInterrupts(RolesOf(db, sid), RolesOf(SweepCancellation(db, project, id, at).db, sid))
    ensures OnlyInterrupts(RolesOf(db, sid), RolesOf(SweepCutoff(db, project, id, at).db, sid))
    ensures OnlyInterrupts(RolesOf(db, sid), RolesOf(SweepHardDeadline(db, project, id, at).db, sid))
  {
    hide Blank, CountOf, Sweep, OnlyInterrupts, RolesOf;
    SameInterrupts(RolesOf(db, sid));
    SweepTail(db, id, UserCancelled, at, sid);
    SweepTail(db, id, DeadlineCutoff, at, sid);
  }

  lemma ForeignReserve(db: Db, project: string, id: string, at: Instant, sid: string)
    requires id != sid
    ensures RolesOf(Reserve(db, project, id, at).db, sid) == RolesOf(db, sid)
  {
    hide Blank, CountOf;
  }

  lemma ForeignPublish(db: Db, p: Validation.SuccessParams, q: Validation.FailureParams, at: Instant, sid: string)
    ensures p.sessionId != sid ==> RolesOf(PublishSuccess(db, p, at).db, sid) == RolesOf(db, sid)
    ensures q.sessionId != sid ==> RolesOf(PublishFailure(db, q, at).db, sid) == RolesOf(db, sid)
  {
    hide CompletedRun, FailedRun, UnitsStored, RefsKnown, FindingRows, FindingKeys, Validation.SuccessOk,
      Validation.FailureOk, RoleRunId, PublishFault, RoleWithId;
  }

  lemma OtherTablesKeepRoles(db: Db, policy: Timing.TimingPolicy, at: Instant, project: string, id: string)
    ensures Claim(db, policy, at).db.roles == db.roles
    ensures RequestCancellation(db, project, id).db.roles == db.roles
    ensures ComposeSession(db, project, id, [], at).db.roles == db.roles
  {
    hide IsHead, Claimable, AnyReviewing, ClaimedSession, Blank, TrimSpace, ReportWith, ReadReport, RowsOf, CountOf,
      ComposedSession;
  }

  lemma SubmitEffect(db: Db, p: SubmitParams, generated: string, at: Instant, sid: string)
    requires sid in db.sessions
    ensures RolesOf(Submit(db, p, generated, at).db, sid) == RolesOf(db, sid)
  {
    hide Submit, SubmitFault, NewSession, NewRoles, SnapshotStored;
    if SubmitFault(p).None? && Submit(db, p, generated, at).result.Created? {
      Insertion(db, p, generated, at);
    } else {
      SubmitUnchanged(db, p, generated, at);
    }
  }

  lemma ForeignEffect(db: Db, step: Step, sid: string)
    requires IsForeign(step, sid) && sid in db.sessions
    ensures OnlyInterrupts(RolesOf(db, sid), RolesOf(Apply(db, step), sid))
  {
    hide TrimSpace, Submit, Claim, Reserve, PublishSuccess, PublishFailure, SweepCancellation, SweepCutoff,
      SweepHardDeadline, Recover, RequestCancellation, ComposeSession, OnlyInterrupts;
    SameInterrupts(RolesOf(db, sid));
    match step
    case SubmitStep(p, generated, at) => SubmitEffect(db, p, generated, at, sid);
    case ClaimStep(policy, at) => OtherTablesKeepRoles(db, policy, at, "", "");
    case ReserveStep(project, id, at) => ForeignReserve(db, project, id, at, sid);
    case SuccessStep(p, at) => ForeignPublish(db, p, NO_FAILURE, at, sid);
    case FailureStep(p, at) => ForeignPublish(db, NO_SUCCESS, p, at, sid);
    case CancellationSweepStep(project, id, at) => SweepEffect(db, project, id, at, sid);
    case CutoffSweepStep(project, id, at) => SweepEffect(db, project, id, at, sid);
    case DeadlineSweepStep(project, id, at) => SweepEffect(db, project, id, at, sid);
    case CancelStep(project, id) => OtherTablesKeepRoles(db, NO_POLICY, 0, project, id);
    case ComposeStep(project, id, at) => OtherTablesKeepRoles(db, NO_POLICY, at, project, id);
  }

  const NO_SUCCESS := Validation.SuccessParams("", "", "", None, [], 0)
  const NO_FAILURE := Validation.FailureParams("", "", "", None, "", "", 0)
  const NO_POLICY := Timing.TimingPolicy(0, 0, 0)

  // ---- The worker's own steps -------------------------------------------------------------------

  lemma ReserveEffect(db: Db, sid: string, at: Instant)
    ensures var o, rs := Reserve(db, "", sid, at), RolesOf(db, sid);
            && o.db.sessions == db.sessions && o.db.findings == db.findings
            && (!o.result.Reserved? ==> o.db == db)
            && (o.result.Reserved? ==>
                  var r := o.result.role;
                  && Is(rs, r, Pending) && sid in o.db.roles
                  && RolesOf(o.db, sid) == rs[r := Started(rs[r], at)])
  {
    hide Blank, CountOf, Started;
    var o := Reserve(db, "", sid, at);
    if o.result.Reserved? {
      FirstOfMeaning(RolesOf(db, sid), Pending, o.result.role);
    }
  }

  /** The store grants a reservation to a session with nothing in flight, in time. */
  lemma Reserves(db: Db, sid: string, at: Instant)
    requires !Blank(sid) && sid in db.sessions && db.sessions[sid].status.Reviewing?
    requires !db.sessions[sid].cancelRequested
    requires db.sessions[sid].cutoffAt.Some? && at < db.sessions[sid].cutoffAt.value
    requires CountOf(RolesOf(db, sid), InFlight) == 0 && FirstOf(RolesOf(db, sid), Pending).Some?
    ensures Reserve(db, "", sid, at).result == Reserved(FirstOf(RolesOf(db, sid), Pending).value, 1)
  {
    hide FirstOf, CountOf, Blank, RolesOf;
  }

  /** One publication, success or failure. */
  function Publish(db: Db, pub: Publication, at: Instant): Outcome<PublishResult>
  {
    match pub
    case Success(p) => PublishSuccess(db, p, at)
    case Failure(p) => PublishFailure(db, p, at)
  }

  function PublishedRun(run: RoleRun, pub: Publication, at: Instant): RoleRun
    requires pub.Success? ==> pub.success.callCount >= 0
    requires pub.Failure? ==> pub.failure.callCount >= 0
  {
    match pub
    case Success(p) => CompletedRun(run, p.callCount, at)
    case Failure(p) => FailedRun(run, p, at)
  }

  lemma RunIdFound(db: Db, sid: string, r: Role)
    requires r in RolesOf(db, sid)
    ensures RoleWithId(db, sid, RoleRunId(sid, r)) == Some(r)
  {
    hide RoleRunId;
    forall a: Role, b: Role | RoleRunId(sid, a) == RoleRunId(sid, b) ensures a == b {
      RoleRunIdInjective(sid, a, sid, b);
    }
    match r
    case Requirements =>
    case Architecture =>
    case QA =>
    case Security =>
  }

  /** The publication of a role in flight, at or after its start, has no fault the reads can find. */
  lemma NoPublishFault(db: Db, sid: string, r: Role, at: Instant)
    requires sid in db.sessions && Is(RolesOf(db, sid), r, InFlight)
    requires RolesOf(db, sid)[r].startedAt.Some? ==> at >= RolesOf(db, sid)[r].startedAt.value
    ensures PublishFault(db, db.sessions[sid].projectId, sid, RoleRunId(sid, r), Some(r), at).None?
    ensures PublishFault(db, "", sid, RoleRunId(sid, r), Some(r), at).None?
  {
    hide RoleWithId, RoleRunId;
    RunIdFound(db, sid, r);
  }

  /** The keys the findings of an outcome would get are free. */
  predicate KeysFree(db: Db, sid: string, r: Role, out: RoleOutcome)
  {
    FindingKeys(sid, r, out.findings) * db.findings.Keys == {}
  }

  /**
   * What comes of publishing the outcome of a role in flight. With one worker it is never refused as a
   * conflict: it fails only for an error category the provider made up, or for a finding key already taken
   * by another session, the ID of one extending a run ID of the other.
   */
  lemma PublishEffect(db: Db, sid: string, r: Role, out: RoleOutcome, message: string, at: Instant)
    requires Inv(db) && sid in db.sessions && Is(RolesOf(db, sid), r, InFlight) && out.role == r && !Blank(sid)
    requires RolesOf(db, sid)[r].startedAt.Some? ==> at >= RolesOf(db, sid)[r].startedAt.value
    requires out.callCount <= 2 && (out.status.RoleComplete? || out.status.RoleFailed?)
    requires out.status.RoleComplete? ==>
               1 <= out.callCount && Validation.StructureOk(out.findings)
               && forall f :: f in out.findings ==> RefsKnown(UnitsStored(db, db.sessions[sid].snapshotId), f)
    ensures var pub := PublicationOf(out, message, db.sessions[sid].projectId, sid, RoleRunId(sid, r));
            var o, rs := Publish(db, pub, at), RolesOf(db, sid);
            && o.db.sessions == db.sessions
            && (o.result.Published? <==> if out.status.RoleComplete? then KeysFree(db, sid, r, out)
                                         else IsValidErrorCategory(out.errorCategory))
            && (!o.result.Published? ==> o.db == db)
            && (o.result.Published? ==>
                  && (pub.Success? ==> pub.success.callCount >= 0) && (pub.Failure? ==> pub.failure.callCount >= 0)
                  && RolesOf(o.db, sid) == rs[r := PublishedRun(rs[r], pub, at)]
                  && o.db.findings == if out.status.RoleComplete? then db.findings + FindingRows(sid, r, out.findings)
                                      else db.findings)
  {
    hide Inv, Blank, RoleRunId, RoleWithId, PublishFault, FindingRows, FindingKeys, Validation.StructureOk, RefsKnown;
    RunIdNotBlank(sid, r);
    RunIdFound(db, sid, r);
    NoPublishFault(db, sid, r, at);
  }

  lemma RunIdNotBlank(sid: string, r: Role)
    requires !Blank(sid)
    ensures !Blank(RoleRunId(sid, r))
  {
    TrimEdges(sid);
    var i :| 0 <= i < |sid| && !IsSpace(sid[i]);
    TrimEdges(RoleRunId(sid, r));
    assert RoleRunId(sid, r)[i] == sid[i];
  }

  /** A publication under the run ID of a role either finishes that role or changes nothing. */
  lemma PublishTouches(db: Db, sid: string, r: Role, pub: Publication, at: Instant)
    requires r in RolesOf(db, sid) && sid in db.sessions
    requires pub.Success? ==> pub.success.sessionId == sid && pub.success.roleRunId == RoleRunId(sid, r)
    requires pub.Failure? ==> pub.failure.sessionId == sid && pub.failure.roleRunId == RoleRunId(sid, r)
    ensures var o, rs := Publish(db, pub, at), RolesOf(db, sid);
            && o.db.sessions == db.sessions && o.db.roles.Keys >= db.roles.Keys
            && (!o.result.Published? ==> o.db == db)
            && (o.result.Published? ==>
                  && r in RolesOf(o.db, sid) && RolesOf(o.db, sid) == rs[r := RolesOf(o.db, sid)[r]]
                  && (RolesOf(o.db, sid)[r].status.RoleComplete? || RolesOf(o.db, sid)[r].status.RoleFailed?)
                  && rs[r].status.InFlight?)
  {
    hide RoleRunId, RoleWithId, FindingRows, FindingKeys, RefsKnown, Validation.SuccessOk, Validation.FailureOk;
    RunIdFound(db, sid, r);
  }

  lemma PublishKeeps(db: Db, pub: Publication, at: Instant)
    requires Inv(db)
    ensures Inv(Publish(db, pub, at).db) && StepOk(db, Publish(db, pub, at).db)
  {
    hide Inv, StepOk, PublishSuccess, PublishFailure;
    match pub
    case Success(p) => PublishSuccessKeeps(db, p, at);
    case Failure(p) => PublishFailureKeeps(db, p, at);
  }
}
