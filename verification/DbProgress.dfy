/** The queue, recovery and composition over runs: what always progresses, and what blocks it. */
module DbProgress {
  import opened Options
  import opened Text
  import opened Domain
  import opened Composer
  import opened Timestamps
  import opened Records
  import opened Database
  import opened DbInvariant
  import opened DbSteps
  import Timing
  import Validation

  // ---- First come, first served --------------------------------------------------------------

  lemma EarlierTransitive(db: Db, a: string, b: string, c: string)
    requires a in db.sessions && b in db.sessions && c in db.sessions && Earlier(db, a, b) && Earlier(db, b, c)
    ensures Earlier(db, a, c)
  {
    if Less(a, b) && Less(b, c) {
      LessTransitive(a, b, c);
    }
  }

  lemma {:induction false} LeastExists(db: Db, s: set<string>) returns (least: string)
    requires s != {} && forall id :: id in s ==> IsQueued(db, id)
    ensures least in s && IsQueued(db, least)
    ensures forall other :: other in s && other != least ==> IsQueued(db, other) && Earlier(db, least, other)
    decreases |s|
  {
    hide Less;
    var some :| some in s;
    var rest := s - {some};
    if rest == {} {
      least := some;
      assert forall other :: other in s ==> other == some || other in rest;
    } else {
      var low := LeastExists(db, rest);
      LessTotal(some, low);
      least := if Earlier(db, some, low) then some else low;
      forall other | other in s && other != least ensures Earlier(db, least, other) {
        if least == some && other != low {
          EarlierTransitive(db, some, low, other);
        }
      }
    }
  }

  lemma HeadExists(db: Db)
    requires exists sid :: IsQueued(db, sid)
    ensures exists sid :: IsHead(db, sid)
  {
    var queued := set sid | sid in db.sessions && IsQueued(db, sid);
    var some :| IsQueued(db, some);
    assert some in queued;
    var least := LeastExists(db, queued);
    assert IsHead(db, least);
  }

  lemma HeadUnique(db: Db, a: string, b: string)
    requires IsHead(db, a) && IsHead(db, b)
    ensures a == b
  {
    if a != b {
      assert Earlier(db, a, b) && Earlier(db, b, a);
      EarlierTransitive(db, a, b, a);
      LessIrreflexive(a);
    }
  }

  /** What a queued session in a reachable database still has to satisfy to be claimed. */
  predicate HeadReady(db: Db, sid: string, now: Instant)
    requires sid in db.sessions
  {
    !Blank(sid) && db.sessions[sid].createdAt <= now
  }

  lemma ReadyIsClaimable(db: Db, sid: string, now: Instant)
    requires Inv(db) && IsQueued(db, sid)
    ensures Claimable(db, sid, now) <==> HeadReady(db, sid, now)
  {
    hide Inv, SessionOk, Blank;
    AtSession(db, sid);
    QueuedRows(db.sessions[sid], db.roles[sid]);
  }

  lemma QueuedRows(s: Session, rs: RoleMap)
    requires SessionOk(s, rs) && s.status.Queued?
    ensures SessionRowOk(s) && AllRoles(rs) && CountOf(rs, Pending) == |ROLES|
  {
    hide RoleRunRowOk, RunFollows;
  }

  /**
   * Claim takes exactly the head of the queue, oldest first and ties by ID, and takes it exactly when nothing
   * is being reviewed and the head is not blank and not created in the future. Otherwise nothing changes: one
   * head that is not ready holds up every session behind it.
   */
  lemma ClaimExact(db: Db, policy: Timing.TimingPolicy, now: Instant, sid: string)
    requires Inv(db) && IsHead(db, sid) && Timing.ValidPolicy(policy) && now + policy.sessionHardDeadline < END_OF_TIME
    ensures var o := Claim(db, policy, now);
            && (o.result.Claimed? <==> !AnyReviewing(db) && HeadReady(db, sid, now))
            && (o.result.Claimed? ==>
                  o.result.id == sid
                  && o.db == db.(sessions := db.sessions[sid := ClaimedSession(db.sessions[sid], policy, now)]))
            && (!o.result.Claimed? ==> o.db == db)
            && (o.result == MalformedHead(sid) <==> !AnyReviewing(db) && !HeadReady(db, sid, now))
  {
    hide Inv, AnyReviewing, Claimable, HeadReady, IsHead, ClaimedSession, Timing.ValidPolicy;
    var h :| IsHead(db, h) && Head(db) == Some(h);
    HeadUnique(db, sid, h);
    HeadIsQueued(db, sid);
    ReadyIsClaimable(db, sid, now);
  }

  lemma HeadIsQueued(db: Db, sid: string)
    requires IsHead(db, sid)
    ensures IsQueued(db, sid)
  {
  }

  // ---- A reviewing session stays so until it is composed ----------------------------------------

  predicate Composes(step: Step, sid: string)
  {
    step.ComposeStep? && TrimSpace(step.sid) == sid
  }

  lemma ReviewingStep(db: Db, step: Step, sid: string)
    requires Inv(db) && sid in db.sessions && db.sessions[sid].status.Reviewing? && !Composes(step, sid)
    ensures sid in Apply(db, step).sessions && Apply(db, step).sessions[sid].status.Reviewing?
  {
    hide Inv, TrimSpace, Submit, Claim, Reserve, PublishSuccess, PublishFailure, SweepCancellation, SweepCutoff,
      SweepHardDeadline, Recover, RequestCancellation, ComposeSession;
    match step
    case SubmitStep(p, generated, at) => SubmitSessions(db, p, generated, at, sid);
    case ClaimStep(policy, at) => ClaimBlocked(db, policy, at, sid);
    case ReserveStep(project, id, at) => ReserveSessions(db, project, id, at);
    case SuccessStep(p, at) => SuccessSessions(db, p, at);
    case FailureStep(p, at) => FailureSessions(db, p, at);
    case CancellationSweepStep(project, id, at) => SweepSessions(db, project, id, at);
    case CutoffSweepStep(project, id, at) => SweepSessions(db, project, id, at);
    case DeadlineSweepStep(project, id, at) => SweepSessions(db, project, id, at);
    case RecoverStep(project, only, cutoff, at) => RecoverSessions(db, project, only, cutoff, at);
    case CancelStep(project, id) => CancelSessions(db, project, id, sid);
    case ComposeStep(project, id, at) => ComposeSessions(db, project, id, at, sid);
  }

  lemma SubmitSessions(db: Db, p: SubmitParams, generated: string, at: Instant, sid: string)
    requires sid in db.sessions
    ensures var next := Submit(db, p, generated, at).db; sid in next.sessions && next.sessions[sid] == db.sessions[sid]
  {
    hide Submit, SubmitFault, NewSession, NewRoles, SnapshotStored;
    if SubmitFault(p).None? && Submit(db, p, generated, at).result.Created? {
      Insertion(db, p, generated, at);
    } else {
      SubmitUnchanged(db, p, generated, at);
    }
  }

  lemma ClaimBlocked(db: Db, policy: Timing.TimingPolicy, at: Instant, sid: string)
    requires sid in db.sessions && db.sessions[sid].status.Reviewing?
    ensures Claim(db, policy, at).db == db
    ensures Timing.ValidPolicy(policy) ==> Claim(db, policy, at).result == ActiveReviewing
  {
    hide Claimable, IsHead, ClaimedSession, Timing.ValidPolicy;
  }

  lemma ReserveSessions(db: Db, project: string, id: string, at: Instant)
    ensures Reserve(db, project, id, at).db.sessions == db.sessions
  {
    hide Blank, CountOf;
  }

  lemma SuccessSessions(db: Db, p: Validation.SuccessParams, at: Instant)
    ensures PublishSuccess(db, p, at).db.sessions == db.sessions
  {
    hide RefsKnown, FindingRows, FindingKeys, Validation.SuccessOk, RoleRunId, PublishFault;
  }

  lemma FailureSessions(db: Db, p: Validation.FailureParams, at: Instant)
    ensures PublishFailure(db, p, at).db.sessions == db.sessions
  {
    hide Validation.FailureOk, RoleRunId;
  }

  lemma SweepSessions(db: Db, project: string, id: string, at: Instant)
    ensures SweepCancellation(db, project, id, at).db.sessions == db.sessions
    ensures SweepCutoff(db, project, id, at).db.sessions == db.sessions
    ensures SweepHardDeadline(db, project, id, at).db.sessions == db.sessions
  {
    hide Blank, CountOf, SweepPending;
  }

  lemma RecoverSessions(db: Db, project: string, only: string, cutoff: Option<Instant>, at: Instant)
    ensures Recover(db, project, only, cutoff, at).db.sessions == db.sessions
  {
    hide RecoveryOf, RecoveredRoles, Recoverable;
  }

  lemma CancelSessions(db: Db, project: string, id: string, sid: string)
    requires sid in db.sessions
    ensures var next := RequestCancellation(db, project, id).db;
            sid in next.sessions && next.sessions[sid].status == db.sessions[sid].status
  {
    hide Blank;
  }

  lemma ComposeSessions(db: Db, project: string, id: string, at: Instant, sid: string)
    requires sid in db.sessions && TrimSpace(id) != sid
    ensures var next := ComposeSession(db, project, id, [], at).db;
            sid in next.sessions && next.sessions[sid] == db.sessions[sid]
  {
    hide TrimSpace, Decide, Composable, CountOf, ReportWith, ReadReport, RowsOf;
  }

  lemma {:induction false} StaysReviewing(db: Db, steps: seq<Step>, sid: string)
    requires Inv(db) && sid in db.sessions && db.sessions[sid].status.Reviewing?
    requires forall step :: step in steps ==> !Composes(step, sid)
    ensures sid in Exec(db, steps).sessions && Exec(db, steps).sessions[sid].status.Reviewing?
    decreases |steps|
  {
    hide Inv, Apply, Composes;
    if steps != [] {
      var front := steps[..|steps| - 1];
      assert forall step :: step in front ==> step in steps;
      StaysReviewing(db, front, sid);
      ExecKeeps(db, front);
      ReviewingStep(Exec(db, front), steps[|steps| - 1], sid);
    }
  }

  /**
   * Restart recovery interrupts the roles and leaves the session reviewing; until someone composes it, no
   * other session is ever claimed.
   */
  lemma RecoveredBlocksClaims(db: Db, project: string, only: string, cutoff: Option<Instant>, now: Instant,
                              steps: seq<Step>, sid: string, policy: Timing.TimingPolicy, at: Instant)
    requires Inv(db) && sid in db.sessions && db.sessions[sid].status.Reviewing? && Timing.ValidPolicy(policy)
    requires forall step :: step in steps ==> !Composes(step, sid)
    ensures var later := Exec(Recover(db, project, only, cutoff, now).db, steps);
            Claim(later, policy, at) == Outcome(later, ActiveReviewing)
  {
    hide Inv, Recover, Composes, Timing.ValidPolicy, Claim, Exec;
    RecoverKeeps(db, project, only, cutoff, now);
    RecoverSessions(db, project, only, cutoff, now);
    StaysReviewing(Recover(db, project, only, cutoff, now).db, steps, sid);
    ClaimBlocked(Exec(Recover(db, project, only, cutoff, now).db, steps), policy, at, sid);
  }

  // ---- Composition is enabled exactly when it can be ------------------------------------------------

  lemma SomeLeft(rs: RoleMap)
    requires AllRoles(rs)
    ensures AllTerminal(rs) <==> CountOf(rs, Pending) + CountOf(rs, InFlight) == 0
  {
    if CountOf(rs, Pending) + CountOf(rs, InFlight) == 0 {
      NoneLeft(rs);
    }
  }

  /** A reviewing session composes exactly when all its roles are terminal and the trimmed request names it. */
  lemma ComposeExact(db: Db, project: string, rawId: string, keys: seq<string>, now: Instant)
    requires Inv(db) && forall k :: k in keys ==> k in db.findings
    ensures ComposeSession(db, project, rawId, keys, now).result.Composed? <==>
              var sid := TrimSpace(rawId);
              sid != "" && Scoped(db, project, sid) && db.sessions[sid].status.Reviewing?
                && AllTerminal(RolesOf(db, sid))
  {
    hide Inv, TrimSpace, Decide, Composable, CountOf, ReportWith, ReadReport, RowsOf, SessionOk, AllTerminal;
    var sid := TrimSpace(rawId);
    if sid in db.sessions && db.sessions[sid].status.Reviewing? {
      AtSession(db, sid);
      RolesThere(db.sessions[sid], db.roles[sid]);
      SomeLeft(db.roles[sid]);
      if CountOf(db.roles[sid], Pending) + CountOf(db.roles[sid], InFlight) == 0 {
        ComposeKeeps(db.sessions[sid], db.roles[sid], now);
      }
    }
  }

  lemma RolesThere(s: Session, rs: RoleMap)
    requires SessionOk(s, rs)
    ensures AllRoles(rs)
  {
  }

  /** No deadlock: from any reachable reviewing state, recovery with a cutoff at or after the claim enables Compose. */
  lemma RecoveryEnablesCompose(db: Db, sid: string, cutoff: Instant, now: Instant, keys: seq<string>, at: Instant)
    requires Inv(db) && sid in db.sessions && db.sessions[sid].status.Reviewing? && TrimSpace(sid) == sid
    requires db.sessions[sid].claimedAt.Some? && db.sessions[sid].claimedAt.value <= cutoff
    requires forall k :: k in keys ==> k in db.findings
    ensures var next := Recover(db, "", "", Some(cutoff), now).db;
            && AllTerminal(RolesOf(next, sid)) && next.findings == db.findings
            && ComposeSession(next, "", sid, keys, at).result.Composed?
  {
    hide Inv, TrimSpace, AllTerminal, SessionOk, RecoveredRoles;
    var next := Recover(db, "", "", Some(cutoff), now).db;
    AtSession(db, sid);
    RecoveredSessionKeeps(db.sessions[sid], db.roles[sid], now);
    RecoverKeeps(db, "", "", Some(cutoff), now);
    RecoverSessions(db, "", "", Some(cutoff), now);
    assert Recoverable(db, "", "", cutoff, sid);
    assert RolesOf(next, sid) == RecoveredRoles(db.roles[sid], db.sessions[sid], now);
    assert next.findings == db.findings;
    hide Recover;
    SessionNamed(db, sid);
    ComposeExact(next, "", sid, keys, at);
  }

  /** A recovery finds one stale session at most, so the order of its list and its totals are that session's. */
  lemma RecoversAtMostOne(db: Db, project: string, only: string, cutoff: Instant, now: Instant)
    requires Inv(db)
    ensures var r := Recover(db, project, only, Some(cutoff), now).result;
            && (r.Recovered? ==> |r.sessions| <= 1)
            && (r.Recovered? ==> forall sid :: sid in r.sessions ==>
                  r.sessions[sid] == RecoveryOf(db, sid) && db.sessions[sid].status.Reviewing?)
  {
    hide KeysAgree, SessionsOk, SnapshotsOk, FindingsOk;
    var r := Recover(db, project, only, Some(cutoff), now).result;
    if r.Recovered? && r.sessions != map[] {
      var a :| a in r.sessions;
      assert forall b :: b in r.sessions ==> b == a;
      AtMostOneKey(r.sessions, a);
    }
  }

  lemma AtMostOneKey(m: map<string, Recovery>, a: string)
    requires a in m && forall b :: b in m ==> b == a
    ensures |m| == 1
  {
    assert m == map[a := m[a]];
  }

  lemma SessionNamed(db: Db, sid: string)
    requires Inv(db) && sid in db.sessions
    ensures sid != ""
  {
    hide SessionOk;
  }

  /**
   * Compose trims the ID it is given, Claim does not: a claimed session whose ID has white space at an edge
   * is never composed, whatever steps follow, and blocks the queue for good.
   */
  lemma PaddedIdNeverComposes(db: Db, steps: seq<Step>, sid: string, policy: Timing.TimingPolicy, at: Instant)
    requires Inv(db) && sid in db.sessions && db.sessions[sid].status.Reviewing? && TrimSpace(sid) != sid
    requires Timing.ValidPolicy(policy)
    ensures var later := Exec(db, steps);
            && sid in later.sessions && later.sessions[sid].status.Reviewing?
            && Claim(later, policy, at) == Outcome(later, ActiveReviewing)
  {
    hide Inv, TrimSpace, Timing.ValidPolicy, Claim, Exec;
    forall step | step in steps ensures !Composes(step, sid) {
      if step.ComposeStep? {
        TrimIdempotent(step.sid);
      }
    }
    StaysReviewing(db, steps, sid);
    ClaimBlocked(Exec(db, steps), policy, at, sid);
  }

  // ---- What a cancellation shows in the verdict --------------------------------------------------------

  /** Some role of the session was interrupted for this cause. */
  predicate HasCause(rs: RoleMap, cause: InterruptCause)
  {
    exists r :: r in rs && rs[r].cause == Some(cause)
  }

  lemma AnyCause(rs: RoleMap, cause: InterruptCause)
    requires AllRoles(rs)
    ensures Any(RowsOf(rs), cause) <==> HasCause(rs, cause)
  {
    if HasCause(rs, cause) {
      var r :| r in rs && rs[r].cause == Some(cause);
      RowAt(rs, r);
      assert RowsOf(rs)[RoleOrder(r)] in RowsOf(rs);
    }
    if Any(RowsOf(rs), cause) {
      var row :| row in RowsOf(rs) && row.cause == Some(cause);
      assert row == RowOf(rs, row.role);
    }
  }

  lemma RowAt(rs: RoleMap, r: Role)
    requires AllRoles(rs)
    ensures RowsOf(rs)[RoleOrder(r)] == RowOf(rs, r)
  {
    match r
    case Requirements =>
    case Architecture =>
    case QA =>
    case Security =>
  }

  /** A terminal session is user_cancelled exactly when a role was, which takes a requested cancellation. */
  lemma CancelledReason(db: Db, sid: string)
    requires Inv(db) && sid in db.sessions && db.sessions[sid].status.IsTerminal()
    ensures db.sessions[sid].reason == Some(ReasonUserCancelled) <==> HasCause(RolesOf(db, sid), UserCancelled)
    ensures HasCause(RolesOf(db, sid), UserCancelled) ==> db.sessions[sid].cancelRequested
  {
    hide Inv, SessionOk, Decide, RoleRunRowOk;
    AtSession(db, sid);
    var s, rs := db.sessions[sid], db.roles[sid];
    RowsOk(s, rs);
    TerminalRows(s, rs);
    VerdictMeaning(RowsOf(rs));
    AnyCause(rs, UserCancelled);
    forall r | r in rs && rs[r].cause == Some(UserCancelled) ensures s.cancelRequested {
      assert RunFollows(rs[r], s);
    }
  }

  lemma TerminalRows(s: Session, rs: RoleMap)
    requires SessionOk(s, rs) && s.status.IsTerminal()
    ensures AllRoles(rs) && Composable(RowsOf(rs)) && s.reason.Some?
    ensures Verdict(s.status, s.reason.value, s.completed, s.incomplete) == Decide(RowsOf(rs))
  {
    RowsOk(s, rs);
    hide Decide, RoleRunRowOk, RunFollows;
    ComposableRows(rs);
  }

  /** Reviewing, cancelled, past the cutoff, with roles to sweep and none cancelled yet; others may be in flight. */
  predicate CancelledPastCutoff(s: Session, rs: RoleMap, now: Instant)
  {
    && s.status.Reviewing? && s.cancelRequested && s.cutoffAt.Some? && now >= s.cutoffAt.value
    && CountOf(rs, Pending) > 0 && !HasCause(rs, UserCancelled)
  }

  /** A cutoff sweep leaves no role for a cancellation; a cancellation sweep has cancelled one already. */
  predicate SweptFor(rs: RoleMap, cause: InterruptCause)
  {
    && HasCause(rs, cause)
    && (cause == DeadlineCutoff ==> !HasCause(rs, UserCancelled) && forall r :: r in rs ==> !rs[r].status.Pending?)
  }

  lemma SweepsFor(rs: RoleMap, cause: InterruptCause, now: Instant)
    requires CountOf(rs, Pending) > 0 && !HasCause(rs, UserCancelled)
    ensures SweptFor(SweepPending(rs, cause, now), cause)
  {
    var next := SweepPending(rs, cause, now);
    var r := FirstOf(rs, Pending).value;
    FirstOfMeaning(rs, Pending, r);
    assert next[r].cause == Some(cause);
  }

  /** What a role was interrupted for is settled, and one that has started is never cancelled or cut off. */
  lemma CauseSettled(s: Session, a: RoleRun, b: RoleRun, t: Session)
    requires RunStep(s, a, b) && RoleRunRowOk(a) && RoleRunRowOk(b) && RunFollows(b, t)
    ensures a.cause.Some? ==> b == a
    ensures !a.status.Pending? && b.cause == Some(UserCancelled) ==> a.cause == Some(UserCancelled)
    ensures b.status.Pending? ==> a.status.Pending?
  {
  }

  lemma SweptForStep(db: Db, next: Db, sid: string, cause: InterruptCause)
    requires Inv(db) && Inv(next) && StepOk(db, next) && sid in db.sessions && SweptFor(RolesOf(db, sid), cause)
    ensures sid in next.sessions && SweptFor(RolesOf(next, sid), cause)
  {
    hide Inv, StepOk, SessionOk, RunStep, RoleRunRowOk, RunFollows;
    AtSession(db, sid);
    StepSession(db, next, sid);
    AtSession(next, sid);
    RowsOk(db.sessions[sid], db.roles[sid]);
    RowsOk(next.sessions[sid], next.roles[sid]);
    RolesThere(db.sessions[sid], db.roles[sid]);
    var rs, later := db.roles[sid], next.roles[sid];
    forall r | r in later
      ensures r in rs && (rs[r].cause.Some? ==> later[r] == rs[r])
      ensures (later[r].status.Pending? ==> rs[r].status.Pending?)
      ensures !rs[r].status.Pending? && later[r].cause == Some(UserCancelled) ==> rs[r].cause == Some(UserCancelled)
    {
      StepRun(db, next, sid, r);
      CauseSettled(db.sessions[sid], rs[r], later[r], next.sessions[sid]);
    }
    var r :| r in rs && rs[r].cause == Some(cause);
    StepRun(db, next, sid, r);
    assert later[r].cause == Some(cause);
  }

  lemma {:induction false} StaysSwept(db: Db, steps: seq<Step>, sid: string, cause: InterruptCause)
    requires Inv(db) && sid in db.sessions && SweptFor(RolesOf(db, sid), cause)
    ensures sid in Exec(db, steps).sessions && SweptFor(RolesOf(Exec(db, steps), sid), cause)
    decreases |steps|
  {
    hide Inv, StepOk, Apply, SweptFor;
    if steps != [] {
      var before := Exec(db, steps[..|steps| - 1]);
      StaysSwept(db, steps[..|steps| - 1], sid, cause);
      ExecKeeps(db, steps[..|steps| - 1]);
      ApplyKeeps(before, steps[|steps| - 1]);
      SweptForStep(before, Apply(before, steps[|steps| - 1]), sid, cause);
    }
  }

  /** The terminal reason of a session that was first swept for this cause. */
  function SweptReason(rs: RoleMap, cause: InterruptCause): TerminalReason
  {
    if cause == UserCancelled then ReasonUserCancelled
    else if HasCause(rs, ProcessRestart) then ReasonProcessRestart
    else ReasonDeadlineCutoff
  }

  lemma ReasonIsSwept(db: Db, sid: string, cause: InterruptCause)
    requires Inv(db) && sid in db.sessions && db.sessions[sid].status.IsTerminal()
    requires SweptFor(RolesOf(db, sid), cause) && cause != ProcessRestart
    ensures db.sessions[sid].reason == Some(SweptReason(RolesOf(db, sid), cause))
  {
    hide Inv, SessionOk, Decide, RoleRunRowOk, HasCause, Composable, RowsOf, Any;
    AtSession(db, sid);
    var s, rs := db.sessions[sid], db.roles[sid];
    RowsOk(s, rs);
    TerminalRows(s, rs);
    VerdictMeaning(RowsOf(rs));
    AnyCause(rs, UserCancelled);
    AnyCause(rs, DeadlineCutoff);
    AnyCause(rs, ProcessRestart);
  }

  /**
   * The reason of a cancelled session past its cutoff is fixed once a sweep commits, because the cutoff sweep does
   * not look at cancel_requested. Whatever runs afterwards, publications of the roles in flight included: after a
   * cancellation sweep it is user_cancelled, and after a cutoff sweep it is deadline_cutoff, or process_restart if a
   * restart interrupts a role in flight.
   */
  lemma FirstSweepDecides(db: Db, sid: string, now: Instant, steps: seq<Step>)
    requires Inv(db) && sid in db.sessions && CancelledPastCutoff(db.sessions[sid], RolesOf(db, sid), now)
    requires !Blank(sid)
    ensures var cut := Exec(SweepCutoff(db, "", sid, now).db, steps);
            && sid in cut.sessions
            && (cut.sessions[sid].status.IsTerminal() ==>
                  cut.sessions[sid].reason == Some(SweptReason(RolesOf(cut, sid), DeadlineCutoff)))
    ensures var cancelled := Exec(SweepCancellation(db, "", sid, now).db, steps);
            && sid in cancelled.sessions
            && (cancelled.sessions[sid].status.IsTerminal() ==>
              cancelled.sessions[sid].reason == Some(ReasonUserCancelled))
  {
    hide Inv, StepOk, CountOf, HasCause, SweptFor, SweepPending, SweptReason, Blank;
    var rs := RolesOf(db, sid);
    SweepsFor(rs, DeadlineCutoff, now);
    SweepsFor(rs, UserCancelled, now);
    SweepCutoffKeeps(db, "", sid, now);
    SweepCancellationKeeps(db, "", sid, now);
    SweptThen(SweepCutoff(db, "", sid, now).db, sid, DeadlineCutoff, steps);
    SweptThen(SweepCancellation(db, "", sid, now).db, sid, UserCancelled, steps);
    assert SweptReason(RolesOf(Exec(SweepCancellation(db, "", sid, now).db, steps), sid), UserCancelled)
      == ReasonUserCancelled by {
      CancelledIs(RolesOf(Exec(SweepCancellation(db, "", sid, now).db, steps), sid));
    }
  }

  lemma CancelledIs(rs: RoleMap)
    ensures SweptReason(rs, UserCancelled) == ReasonUserCancelled
  {
  }

  lemma SweptThen(db: Db, sid: string, cause: InterruptCause, steps: seq<Step>)
    requires Inv(db) && sid in db.sessions && SweptFor(RolesOf(db, sid), cause) && cause != ProcessRestart
    ensures var later := Exec(db, steps);
            && sid in later.sessions
            && (later.sessions[sid].status.IsTerminal() ==>
                  later.sessions[sid].reason == Some(SweptReason(RolesOf(later, sid), cause)))
  {
    hide Inv, SweptFor, SweptReason, Exec;
    StaysSwept(db, steps, sid, cause);
    ExecKeeps(db, steps);
    if Exec(db, steps).sessions[sid].status.IsTerminal() {
      ReasonIsSwept(Exec(db, steps), sid, cause);
    }
  }

  // ---- A restart cause takes a restart ------------------------------------------------------------------

  /** Rows that come without a new restart cause. */
  predicate NoNewRestart(rs: RoleMap, next: RoleMap)
  {
    HasCause(next, ProcessRestart) ==> HasCause(rs, ProcessRestart)
  }

  lemma SetRunCauses(rs: RoleMap, r: Role, run: RoleRun)
    requires r in rs && run.cause == rs[r].cause
    ensures NoNewRestart(rs, rs[r := run])
  {
    var next := rs[r := run];
    if q :| q in next && next[q].cause == Some(ProcessRestart) {
      assert q in rs && rs[q].cause == Some(ProcessRestart);
    }
  }

  lemma SweepCauses(rs: RoleMap, cause: InterruptCause, now: Instant)
    requires cause != ProcessRestart
    ensures NoNewRestart(rs, SweepPending(rs, cause, now))
  {
    var next := SweepPending(rs, cause, now);
    if q :| q in next && next[q].cause == Some(ProcessRestart) {
      assert q in rs && rs[q].cause == Some(ProcessRestart);
    }
  }

  lemma SameCauses(rs: RoleMap)
    ensures NoNewRestart(rs, rs)
  {
  }

  lemma ReserveCauses(db: Db, project: string, id: string, at: Instant, sid: string)
    ensures NoNewRestart(RolesOf(db, sid), RolesOf(Reserve(db, project, id, at).db, sid))
  {
    hide NoNewRestart, CountOf, Blank, FirstOf;
    SameCauses(RolesOf(db, sid));
    var o, rs := Reserve(db, project, id, at), RolesOf(db, id);
    if o.result.Reserved? {
      FirstOfMeaning(rs, Pending, o.result.role);
      SetRunCauses(rs, o.result.role, Started(rs[o.result.role], at));
    }
  }

  lemma SuccessCauses(db: Db, p: Validation.SuccessParams, at: Instant, sid: string)
    requires KeysMatch(db)
    ensures NoNewRestart(RolesOf(db, sid), RolesOf(PublishSuccess(db, p, at).db, sid))
  {
    hide NoNewRestart, RoleRunId, RefsKnown, FindingKeys, FindingRows, Validation.SuccessOk;
    SameCauses(RolesOf(db, sid));
    var o, rs := PublishSuccess(db, p, at), RolesOf(db, p.sessionId);
    if o.result.Published? {
      SetRunCauses(rs, o.result.role, CompletedRun(rs[o.result.role], p.callCount, at));
    }
  }

  lemma FailureCauses(db: Db, p: Validation.FailureParams, at: Instant, sid: string)
    requires KeysMatch(db)
    ensures NoNewRestart(RolesOf(db, sid), RolesOf(PublishFailure(db, p, at).db, sid))
  {
    hide NoNewRestart, RoleRunId, Validation.FailureOk;
    SameCauses(RolesOf(db, sid));
    var o, rs := PublishFailure(db, p, at), RolesOf(db, p.sessionId);
    if o.result.Published? {
      SetRunCauses(rs, o.result.role, FailedRun(rs[o.result.role], p, at));
    }
  }

  predicate KeysMatch(db: Db)
  {
    db.roles.Keys == db.sessions.Keys
  }

  lemma SweepsCauses(db: Db, project: string, id: string, at: Instant, sid: string)
    ensures NoNewRestart(RolesOf(db, sid), RolesOf(SweepCancellation(db, project, id, at).db, sid))
    ensures NoNewRestart(RolesOf(db, sid), RolesOf(SweepCutoff(db, project, id, at).db, sid))
    ensures NoNewRestart(RolesOf(db, sid), RolesOf(SweepHardDeadline(db, project, id, at).db, sid))
  {
    hide NoNewRestart, Sweep, RolesOf, Blank;
    SameCauses(RolesOf(db, sid));
    SweepTailCauses(db, id, UserCancelled, at, sid);
    SweepTailCauses(db, id, DeadlineCutoff, at, sid);
  }

  lemma SweepTailCauses(db: Db, id: string, cause: InterruptCause, at: Instant, sid: string)
    requires cause != ProcessRestart
    ensures NoNewRestart(RolesOf(db, sid), RolesOf(Sweep(db, id, cause, at).db, sid))
  {
    hide NoNewRestart, SweepPending, CountOf;
    SameCauses(RolesOf(db, sid));
    SweepCauses(RolesOf(db, id), cause, at);
  }

  lemma ClaimCauses(db: Db, policy: Timing.TimingPolicy, at: Instant, sid: string)
    ensures NoNewRestart(RolesOf(db, sid), RolesOf(Claim(db, policy, at).db, sid))
  {
    hide NoNewRestart, Timing.ValidPolicy, AnyReviewing, Claimable, IsHead;
    SameCauses(RolesOf(db, sid));
  }

  lemma CancelCauses(db: Db, project: string, id: string, sid: string)
    ensures NoNewRestart(RolesOf(db, sid), RolesOf(RequestCancellation(db, project, id).db, sid))
  {
    hide NoNewRestart, Blank;
    SameCauses(RolesOf(db, sid));
  }

  lemma ComposeCauses(db: Db, project: string, id: string, at: Instant, sid: string)
    ensures NoNewRestart(RolesOf(db, sid), RolesOf(ComposeSession(db, project, id, [], at).db, sid))
  {
    hide NoNewRestart, TrimSpace, Composable, Decide, CountOf, ReportWith;
    SameCauses(RolesOf(db, sid));
  }

  lemma SubmitCauses(db: Db, p: SubmitParams, generated: string, at: Instant, sid: string)
    requires sid in db.sessions
    ensures NoNewRestart(RolesOf(db, sid), RolesOf(Submit(db, p, generated, at).db, sid))
  {
    hide NoNewRestart, Submit, SubmitFault, NewSession, NewRoles, SnapshotStored;
    SameCauses(RolesOf(db, sid));
    if SubmitFault(p).None? && Submit(db, p, generated, at).result.Created? {
      Insertion(db, p, generated, at);
    } else {
      SubmitUnchanged(db, p, generated, at);
    }
  }

  lemma StepCauses(db: Db, step: Step, sid: string)
    requires KeysMatch(db) && sid in db.sessions && !step.RecoverStep?
    ensures NoNewRestart(RolesOf(db, sid), RolesOf(Apply(db, step), sid))
  {
    hide NoNewRestart, KeysMatch, RolesOf, Submit, Claim, Reserve, PublishSuccess, PublishFailure, SweepCancellation,
      SweepCutoff, SweepHardDeadline, RequestCancellation, ComposeSession;
    match step
    case SubmitStep(p, generated, at) => SubmitCauses(db, p, generated, at, sid);
    case ClaimStep(policy, at) => ClaimCauses(db, policy, at, sid);
    case ReserveStep(project, id, at) => ReserveCauses(db, project, id, at, sid);
    case SuccessStep(p, at) => SuccessCauses(db, p, at, sid);
    case FailureStep(p, at) => FailureCauses(db, p, at, sid);
    case CancellationSweepStep(project, id, at) => SweepsCauses(db, project, id, at, sid);
    case CutoffSweepStep(project, id, at) => SweepsCauses(db, project, id, at, sid);
    case DeadlineSweepStep(project, id, at) => SweepsCauses(db, project, id, at, sid);
    case CancelStep(project, id) => CancelCauses(db, project, id, sid);
    case ComposeStep(project, id, at) => ComposeCauses(db, project, id, at, sid);
  }

  /** In a run without a recovery no role is interrupted for a restart. */
  lemma {:induction false} RestartTakesRecovery(db: Db, steps: seq<Step>, sid: string)
    requires Inv(db) && sid in db.sessions && forall step :: step in steps ==> !step.RecoverStep?
    ensures sid in Exec(db, steps).sessions && NoNewRestart(RolesOf(db, sid), RolesOf(Exec(db, steps), sid))
    decreases |steps|
  {
    hide Inv, StepOk, Apply, HasCause, RolesOf;
    if steps != [] {
      var before, last := Exec(db, steps[..|steps| - 1]), steps[|steps| - 1];
      assert forall step :: step in steps[..|steps| - 1] ==> step in steps;
      RestartTakesRecovery(db, steps[..|steps| - 1], sid);
      ExecKeeps(db, steps[..|steps| - 1]);
      InvKeys(before);
      StepCauses(before, last, sid);
      ApplyKeeps(before, last);
      StepSession(before, Apply(before, last), sid);
    }
  }

  /** Without a recovery a session cut off first ends as deadline_cutoff. */
  lemma CutoffStands(db: Db, sid: string, now: Instant, steps: seq<Step>)
    requires Inv(db) && sid in db.sessions && CancelledPastCutoff(db.sessions[sid], RolesOf(db, sid), now)
    requires !Blank(sid)
    requires !HasCause(RolesOf(db, sid), ProcessRestart) && forall step :: step in steps ==> !step.RecoverStep?
    ensures var cut := Exec(SweepCutoff(db, "", sid, now).db, steps);
            && sid in cut.sessions
            && (cut.sessions[sid].status.IsTerminal() ==> cut.sessions[sid].reason == Some(ReasonDeadlineCutoff))
  {
    hide Inv, StepOk, CountOf, HasCause, SweptFor, Blank, SweepCutoff, CancelledPastCutoff, Exec, RolesOf;
    FirstSweepDecides(db, sid, now, steps);
    SweepCutoffKeeps(db, "", sid, now);
    SweepsCauses(db, "", sid, now, sid);
    SweepSessions(db, "", sid, now);
    RestartTakesRecovery(SweepCutoff(db, "", sid, now).db, steps, sid);
  }
}
