/**
 * What the sweeps and restart recovery leave in the tables, column by column, which roles they say they interrupted,
 * and what becomes of those rows and of the session's reason in every run that follows.
 */
module Sweeps {
  import opened Options
  import opened Text
  import opened Domain
  import opened Composer
  import opened Timestamps
  import opened Records
  import opened Database
  import opened DbInvariant
  import opened DbSteps
  import opened DbProgress
  import opened FrozenReports

  // ---- One session's rows -------------------------------------------------------------------------------

  /** Whatever changed is among the role rows of this session. */
  ghost predicate OnlyRowsOf(db: Db, next: Db, sid: string)
  {
    && next == db.(roles := next.roles) && next.roles.Keys == db.roles.Keys && sid in db.roles
    && (forall other :: other in db.roles && other != sid ==> next.roles[other] == db.roles[other])
    && next.roles[sid].Keys == db.roles[sid].Keys
  }

  /** Interrupted before it ever started. */
  function NeverRun(cause: InterruptCause, at: Instant, createdAt: Instant): RoleRun
  {
    RoleRun(Interrupted, Some(cause), None, None, 0, None, Some(at), createdAt)
  }

  /** The session's pending roles, and no other row of the database, are interrupted for this cause at this time. */
  ghost predicate Interrupts(db: Db, next: Db, sid: string, cause: InterruptCause, at: Instant)
  {
    && OnlyRowsOf(db, next, sid)
    && forall r :: r in db.roles[sid] ==>
         var was := db.roles[sid][r];
         next.roles[sid][r] == if was.status == Pending then NeverRun(cause, at, was.createdAt) else was
  }

  /** The list has the session's roles of that status, each once and in dispatch order. */
  ghost predicate Lists(roles: seq<Role>, db: Db, sid: string, status: RoleStatus)
    requires sid in db.roles
  {
    && (forall r :: r in roles <==> r in db.roles[sid] && db.roles[sid][r].status == status)
    && forall i, j :: 0 <= i < j < |roles| ==> RoleOrder(roles[i]) < RoleOrder(roles[j])
  }

  lemma PendingRow(run: RoleRun, cause: InterruptCause, at: Instant)
    requires RoleRunRowOk(run) && run.status.Pending?
    ensures SweptRun(run, cause, at) == NeverRun(cause, at, run.createdAt)
  {
  }

  lemma ListsThem(db: Db, sid: string, status: RoleStatus)
    requires sid in db.roles
    ensures Lists(RolesWith(db.roles[sid], status), db, sid, status)
    ensures RolesWith(db.roles[sid], status) == [] <==> CountOf(db.roles[sid], status) == 0
  {
    hide RoleOrder;
    RolesWithMeaning(db.roles[sid], status);
  }

  /** The tail the three sweeps share. */
  lemma SweepInterrupts(db: Db, sid: string, cause: InterruptCause, at: Instant)
    requires Inv(db) && sid in db.sessions
    ensures sid in db.roles
    ensures var o := Sweep(db, sid, cause, at);
            && Interrupts(db, o.db, sid, cause, at) && o.result.Swept? && o.result.due
            && Lists(o.result.interrupted, db, sid, Pending) && Lists(o.result.inFlight, db, sid, InFlight)
            && (o.result.noOp <==> o.result.interrupted == [])
  {
    hide Inv, SessionOk, Lists, CountOf, RolesWith, SweepPending, Interrupts;
    AtSession(db, sid);
    RowsOk(db.sessions[sid], db.roles[sid]);
    ListsThem(db, sid, Pending);
    ListsThem(db, sid, InFlight);
    if CountOf(db.roles[sid], Pending) == 0 {
      NothingPending(db, sid, cause, at);
    } else {
      PendingSwept(db, sid, cause, at);
    }
  }

  lemma NothingPending(db: Db, sid: string, cause: InterruptCause, at: Instant)
    requires sid in db.roles && CountOf(db.roles[sid], Pending) == 0
    ensures Interrupts(db, db, sid, cause, at)
  {
    hide CountOf;
    forall r | r in db.roles[sid] ensures !db.roles[sid][r].status.Pending? {
      NoneCounted(db.roles[sid], r);
    }
  }

  lemma PendingSwept(db: Db, sid: string, cause: InterruptCause, at: Instant)
    requires sid in db.roles && forall r :: r in db.roles[sid] ==> RoleRunRowOk(db.roles[sid][r])
    ensures Interrupts(db, WithRoles(db, sid, SweepPending(db.roles[sid], cause, at)), sid, cause, at)
  {
    hide RoleRunRowOk;
    var rs := db.roles[sid];
    forall r | r in rs && rs[r].status.Pending?
      ensures SweptRun(rs[r], cause, at) == NeverRun(cause, at, rs[r].createdAt)
    {
      PendingRow(rs[r], cause, at);
    }
  }

  lemma NoneCounted(rs: RoleMap, r: Role)
    requires CountOf(rs, Pending) == 0
    ensures !Is(rs, r, Pending)
  {
    match r
    case Requirements =>
    case Architecture =>
    case QA =>
    case Security =>
  }

  // ---- The three sweeps ------------------------------------------------------------------------------------

  /** What a sweep answers that is due or not: it is no operation exactly when it lists nobody it is due to list. */
  ghost predicate Answers(db: Db, o: Outcome<SweepResult>, sid: string, due: bool, cause: InterruptCause, now: Instant)
    requires sid in db.roles
  {
    && o.result.Swept? && o.result.due == due
    && (if due then Interrupts(db, o.db, sid, cause, now) && Lists(o.result.interrupted, db, sid, Pending)
                    && Lists(o.result.inFlight, db, sid, InFlight)
        else o.db == db && o.result.interrupted == [] && o.result.noOp)
  }

  /** A session that is not there, not in scope or has a blank ID is not found, and nothing changes. */
  lemma CancellationSweepExact(db: Db, project: string, sid: string, now: Instant)
    requires Inv(db)
    ensures var o, found := SweepCancellation(db, project, sid, now), !Blank(sid) && Scoped(db, project, sid);
            && (!found ==> o == Outcome(db, SweepNotFound))
            && (found ==>
                  && sid in db.roles
                  && var s := db.sessions[sid];
                     && Answers(db, o, sid, s.status == Reviewing && s.cancelRequested, UserCancelled, now)
                     && (o.result.due ==> (o.result.noOp <==> o.result.interrupted == []))
                     && (s.status == Reviewing ==> Lists(o.result.inFlight, db, sid, InFlight)))
  {
    hide Inv, Blank, Sweep, Lists, Interrupts;
    if Scoped(db, project, sid) {
      SweepInterrupts(db, sid, UserCancelled, now);
      ListsRoles(db, sid);
    }
  }

  lemma ListsRoles(db: Db, sid: string)
    requires Inv(db) && sid in db.sessions
    ensures sid in db.roles && RolesOf(db, sid) == db.roles[sid]
    ensures Lists(RolesWith(RolesOf(db, sid), InFlight), db, sid, InFlight)
  {
    hide Inv, SessionOk, Lists;
    AtSession(db, sid);
    ListsThem(db, sid, InFlight);
  }

  lemma CutoffSweepExact(db: Db, project: string, sid: string, now: Instant)
    requires Inv(db)
    ensures var o, found := SweepCutoff(db, project, sid, now), !Blank(sid) && Scoped(db, project, sid);
            && (!found ==> o == Outcome(db, SweepNotFound))
            && (found ==>
                  && sid in db.roles
                  && var s := db.sessions[sid];
                     && (s.status == Reviewing ==> s.cutoffAt.Some?)
                     && Answers(db, o, sid, s.status == Reviewing && now >= s.cutoffAt.value, DeadlineCutoff, now)
                     && (o.result.due ==> (o.result.noOp <==> o.result.interrupted == [])))
  {
    hide Inv, Blank, Sweep, Lists, Interrupts, SessionOk;
    if Scoped(db, project, sid) {
      SweepInterrupts(db, sid, DeadlineCutoff, now);
      ListsRoles(db, sid);
      if db.sessions[sid].status.Reviewing? {
        HasInstants(db, sid);
      }
    }
  }

  /** A reviewing session has its three instants. */
  lemma HasInstants(db: Db, sid: string)
    requires Inv(db) && sid in db.sessions && db.sessions[sid].status.Reviewing?
    ensures var s := db.sessions[sid]; s.claimedAt.Some? && s.cutoffAt.Some? && s.deadlineAt.Some?
  {
    hide Inv, Coupled, RoleRunRowOk, RunFollows;
    AtSession(db, sid);
  }

  /** The hard deadline sweep is no operation only when no role is left in flight either. */
  lemma DeadlineSweepExact(db: Db, project: string, sid: string, now: Instant)
    requires Inv(db)
    ensures var o, found := SweepHardDeadline(db, project, sid, now), !Blank(sid) && Scoped(db, project, sid);
            && (!found ==> o == Outcome(db, SweepNotFound))
            && (found ==>
                  && sid in db.roles
                  && var s := db.sessions[sid];
                     && (s.status == Reviewing ==> s.deadlineAt.Some?)
                     && Answers(db, o, sid, s.status == Reviewing && now >= s.deadlineAt.value, DeadlineCutoff, now)
                     && (o.result.due ==> (o.result.noOp <==> o.result.interrupted == [] && o.result.inFlight == []))
                     && (s.status == Reviewing ==> Lists(o.result.inFlight, db, sid, InFlight)))
  {
    hide Inv, Blank, Sweep, Lists, Interrupts, SessionOk;
    if Scoped(db, project, sid) {
      SweepInterrupts(db, sid, DeadlineCutoff, now);
      ListsRoles(db, sid);
      if db.sessions[sid].status.Reviewing? {
        HasInstants(db, sid);
      }
    }
  }

  // ---- What a sweep settles for good -------------------------------------------------------------------------

  /** A row of a terminal role is the same in every continuation. */
  lemma {:induction false} TerminalRowStays(db: Db, steps: seq<Step>, sid: string, r: Role)
    requires Inv(db) && sid in db.sessions && r in RolesOf(db, sid) && RolesOf(db, sid)[r].status.IsTerminal()
    ensures var later := Exec(db, steps);
            sid in later.sessions && r in RolesOf(later, sid) && RolesOf(later, sid)[r] == RolesOf(db, sid)[r]
    decreases |steps|
  {
    hide Inv, StepOk, Apply, RunStep, SessionStep;
    if steps != [] {
      var before := Exec(db, steps[..|steps| - 1]);
      TerminalRowStays(db, steps[..|steps| - 1], sid, r);
      ExecKeeps(db, steps[..|steps| - 1]);
      ApplyKeeps(before, steps[|steps| - 1]);
      NextRow(before, Apply(before, steps[|steps| - 1]), sid, r);
    }
  }

  lemma NextRow(db: Db, next: Db, sid: string, r: Role)
    requires Inv(db) && StepOk(db, next) && sid in db.sessions && r in RolesOf(db, sid)
    requires RolesOf(db, sid)[r].status.IsTerminal()
    ensures sid in next.sessions && r in RolesOf(next, sid) && RolesOf(next, sid)[r] == RolesOf(db, sid)[r]
  {
    hide Inv, StepOk, SessionOk, RunStep, SessionStep;
    AtSession(db, sid);
    StepSession(db, next, sid);
    StepRun(db, next, sid, r);
    TerminalRunStays(db.sessions[sid], db.roles[sid][r], next.roles[sid][r]);
  }

  /**
   * A role that was pending at the hard deadline sweep is cut off in every run that follows; no role of the session is
   * started any more, and once those in flight are published or recovered the session can be composed.
   */
  lemma DeadlineSettles(db: Db, sid: string, now: Instant, steps: seq<Step>, r: Role)
    requires Inv(db) && !Blank(sid) && sid in db.sessions && db.sessions[sid].status.Reviewing?
    requires db.sessions[sid].deadlineAt.Some? && now >= db.sessions[sid].deadlineAt.value
    requires r in RolesOf(db, sid)
    ensures var was, later := RolesOf(db, sid)[r], Exec(SweepHardDeadline(db, "", sid, now).db, steps);
            && sid in later.sessions && r in RolesOf(later, sid)
            && (was.status.Pending? ==> RolesOf(later, sid)[r] == NeverRun(DeadlineCutoff, now, was.createdAt))
            && (was.status.InFlight? ==> RolesOf(later, sid)[r].startedAt == was.startedAt)
            && !RolesOf(later, sid)[r].status.Pending?
  {
    hide Inv, StepOk, Blank, SweepHardDeadline, Exec, Lists;
    DeadlineSweepExact(db, "", sid, now);
    SweepHardDeadlineKeeps(db, "", sid, now);
    var next := SweepHardDeadline(db, "", sid, now).db;
    if RolesOf(next, sid)[r].status.InFlight? {
      OnceInFlight(next, steps, sid, r);
    } else {
      TerminalRowStays(next, steps, sid, r);
    }
  }

  lemma {:induction false} OnceInFlight(db: Db, steps: seq<Step>, sid: string, r: Role)
    requires Inv(db) && sid in db.sessions && r in RolesOf(db, sid) && !RolesOf(db, sid)[r].status.Pending?
    ensures var later := Exec(db, steps);
            && sid in later.sessions && r in RolesOf(later, sid) && !RolesOf(later, sid)[r].status.Pending?
            && RolesOf(later, sid)[r].startedAt == RolesOf(db, sid)[r].startedAt
    decreases |steps|
  {
    hide Inv, StepOk, Apply, SessionOk, SessionStep;
    if steps != [] {
      var before, after := Exec(db, steps[..|steps| - 1]), Exec(db, steps);
      OnceInFlight(db, steps[..|steps| - 1], sid, r);
      ExecKeeps(db, steps[..|steps| - 1]);
      ApplyKeeps(before, steps[|steps| - 1]);
      AtSession(before, sid);
      StepSession(before, after, sid);
      StepRun(before, after, sid, r);
    }
  }

  // ---- Restart recovery ----------------------------------------------------------------------------------------

  /** The recovery reaches the session. */
  predicate Reached(s: Session, project: string, only: string, cutoff: Instant, sid: string)
  {
    && s.status == Reviewing && s.claimedAt.Some? && s.claimedAt.value <= cutoff
    && (project == "" || s.projectId == project) && (only == "" || only == sid)
  }

  /** What a recovery makes of a row: a role in flight was interrupted by the restart, when it had started or later. */
  predicate RecoveredTo(was: RoleRun, cancelled: bool, now: Instant, next: RoleRun)
  {
    match was.status
    case Pending => next == NeverRun(if cancelled then UserCancelled else ProcessRestart, now, was.createdAt)
    case InFlight =>
      was.startedAt.Some?
      && next == RoleRun(Interrupted, Some(ProcessRestart), None, None, was.callCount, was.startedAt,
                       Some(if now < was.startedAt.value then was.startedAt.value else now), was.createdAt)
    case _ => next == was
  }

  lemma RecoveredRow(run: RoleRun, s: Session, now: Instant)
    requires RoleRunRowOk(run)
    ensures RecoveredTo(run, s.cancelRequested, now, RecoveredRun(run, s, now))
  {
  }

  /** The rows of every session a recovery reaches, and that it changes nothing else. */
  lemma RecoverExact(db: Db, project: string, only: string, cutoff: Instant, now: Instant)
    requires Inv(db) && (only == "" || Scoped(db, project, only))
    ensures var next := Recover(db, project, only, Some(cutoff), now).db;
            && next == db.(roles := next.roles) && next.roles.Keys == db.roles.Keys == db.sessions.Keys
            && forall sid :: sid in db.sessions ==>
                 && next.roles[sid].Keys == db.roles[sid].Keys
                 && forall r :: r in db.roles[sid] ==>
                      if Reached(db.sessions[sid], project, only, cutoff, sid)
                      then RecoveredTo(db.roles[sid][r], db.sessions[sid].cancelRequested, now, next.roles[sid][r])
                      else next.roles[sid][r] == db.roles[sid][r]
  {
    hide Inv, SessionOk, RecoveredTo, RecoveredRun;
    InvKeys(db);
    forall sid, r | sid in db.sessions && r in db.roles[sid]
      ensures RecoveredTo(db.roles[sid][r], db.sessions[sid].cancelRequested, now,
                          RecoveredRun(db.roles[sid][r], db.sessions[sid], now))
    {
      AtSession(db, sid);
      RowsOk(db.sessions[sid], db.roles[sid]);
      RecoveredRow(db.roles[sid][r], db.sessions[sid], now);
    }
  }

  lemma CountIsSize(rs: RoleMap, status: RoleStatus)
    ensures CountOf(rs, status) == |set r | r in rs && rs[r].status == status|
  {
    var roles := RolesWith(rs, status);
    RolesWithMeaning(rs, status);
    DistinctSize(roles);
    assert (set r | r in roles) == (set r | r in rs && rs[r].status == status);
  }

  lemma {:induction false} DistinctSize(roles: seq<Role>)
    requires InRoleOrder(roles)
    ensures |set r | r in roles| == |roles|
  {
    if roles != [] {
      var front, last := roles[..|roles| - 1], roles[|roles| - 1];
      DistinctSize(front);
      assert (set r | r in roles) == (set r | r in front) + {last};
      assert last !in front;
    }
  }

  /** It answers for the sessions it reaches, with how many of their roles were in flight and how many pending. */
  lemma RecoverCounts(db: Db, project: string, only: string, cutoff: Instant, now: Instant)
    requires Inv(db) && (only == "" || Scoped(db, project, only))
    ensures var o := Recover(db, project, only, Some(cutoff), now).result;
            && o.Recovered?
            && (forall sid :: sid in o.sessions <==>
                  sid in db.sessions && Reached(db.sessions[sid], project, only, cutoff, sid))
            && forall sid :: sid in o.sessions ==>
                 && sid in db.roles && o.sessions[sid].cancelRequested == db.sessions[sid].cancelRequested
                 && o.sessions[sid].inFlight == |set r | r in db.roles[sid] && db.roles[sid][r].status == InFlight|
                 && o.sessions[sid].pending == |set r | r in db.roles[sid] && db.roles[sid][r].status == Pending|
  {
    hide Inv, CountOf;
    InvKeys(db);
    forall sid | sid in db.sessions
      ensures CountOf(db.roles[sid], InFlight) == |set r | r in db.roles[sid] && db.roles[sid][r].status == InFlight|
      ensures CountOf(db.roles[sid], Pending) == |set r | r in db.roles[sid] && db.roles[sid][r].status == Pending|
    {
      CountIsSize(db.roles[sid], InFlight);
      CountIsSize(db.roles[sid], Pending);
    }
  }

  // ---- The reason after a recovery --------------------------------------------------------------------------------

  /** A terminal session's reason, told from what its roles were interrupted for. */
  lemma ReasonByCauses(db: Db, sid: string)
    requires Inv(db) && sid in db.sessions && db.sessions[sid].status.IsTerminal()
    ensures var s, rs := db.sessions[sid], RolesOf(db, sid);
            && (s.reason == Some(ReasonUserCancelled) <==> HasCause(rs, UserCancelled))
            && (s.reason == Some(ReasonProcessRestart) <==>
                  HasCause(rs, ProcessRestart) && !HasCause(rs, UserCancelled))
            && (s.reason == Some(ReasonDeadlineCutoff) <==>
                  HasCause(rs, DeadlineCutoff) && !HasCause(rs, ProcessRestart) && !HasCause(rs, UserCancelled))
            && (s.reason == Some(ReasonUserCancelled) ==> s.status == Partial)
  {
    hide Inv, SessionOk, Decide, RoleRunRowOk, HasCause, Composable, RowsOf, Any;
    AtSession(db, sid);
    var s, rs := db.sessions[sid], db.roles[sid];
    TerminalRows(s, rs);
    VerdictMeaning(RowsOf(rs));
    AnyCause(rs, UserCancelled);
    AnyCause(rs, DeadlineCutoff);
    AnyCause(rs, ProcessRestart);
    CancelledIsPartial(RowsOf(rs));
  }

  lemma CancelledIsPartial(rows: seq<RoleRow>)
    requires |rows| == |ROLES|
    ensures Decide(rows).reason == ReasonUserCancelled ==> Decide(rows).status == Partial
  {
    hide Completed, Any;
  }

  predicate Has(rs: RoleMap, status: RoleStatus)
  {
    exists r :: r in rs && rs[r].status == status
  }

  /**
   * However the run goes on after a recovery, a session it reached that had no cancelled role ends as user_cancelled if
   * and only if a cancellation was requested by then and some role was pending. Otherwise it ends as process_restart if
   * and only if some role was pending or in flight, or interrupted by an earlier restart.
   */
  lemma RecoveredReason(db: Db, project: string, only: string, cutoff: Instant, now: Instant, sid: string,
                        steps: seq<Step>)
    requires Inv(db) && (only == "" || Scoped(db, project, only)) && sid in db.sessions
    requires Reached(db.sessions[sid], project, only, cutoff, sid) && !HasCause(RolesOf(db, sid), UserCancelled)
    ensures var rs, later := RolesOf(db, sid), Exec(Recover(db, project, only, Some(cutoff), now).db, steps);
            && sid in later.sessions
            && (later.sessions[sid].status.IsTerminal() ==>
                  && (later.sessions[sid].reason == Some(ReasonUserCancelled) <==>
                        db.sessions[sid].cancelRequested && Has(rs, Pending))
                  && (later.sessions[sid].reason == Some(ReasonProcessRestart) <==>
                        !(db.sessions[sid].cancelRequested && Has(rs, Pending))
                        && (Has(rs, Pending) || Has(rs, InFlight) || HasCause(rs, ProcessRestart))))
  {
    hide Inv, StepOk, SessionOk, Recover, Exec, Scoped, HasCause, Has, RecoveredTo, Reached;
    RecoverExact(db, project, only, cutoff, now);
    RecoverKeeps(db, project, only, Some(cutoff), now);
    var next := Recover(db, project, only, Some(cutoff), now).db;
    AtSession(db, sid);
    RowsOk(db.sessions[sid], db.roles[sid]);
    RolesThere(db.sessions[sid], db.roles[sid]);
    forall r: Role
      ensures RecoveredTo(db.roles[sid][r], db.sessions[sid].cancelRequested, now, next.roles[sid][r])
      ensures RoleRunRowOk(db.roles[sid][r])
    {
    }
    RecoveredCauses(db.roles[sid], next.roles[sid], db.sessions[sid].cancelRequested, now);
    RecoveredRowsStay(next, steps, sid);
    ExecKeeps(next, steps);
    if Exec(next, steps).sessions[sid].status.IsTerminal() {
      ReasonByCauses(Exec(next, steps), sid);
    }
  }

  lemma RecoveredCauses(rs: RoleMap, next: RoleMap, cancelled: bool, now: Instant)
    requires AllRoles(rs) && AllRoles(next) && !HasCause(rs, UserCancelled)
    requires forall r: Role :: RoleRunRowOk(rs[r]) && RecoveredTo(rs[r], cancelled, now, next[r])
    ensures AllTerminal(next)
    ensures HasCause(next, UserCancelled) <==> cancelled && Has(rs, Pending)
    ensures HasCause(next, ProcessRestart) <==>
              (!cancelled && Has(rs, Pending)) || Has(rs, InFlight) || HasCause(rs, ProcessRestart)
  {
    forall r: Role
      ensures next[r].status.IsTerminal()
      ensures next[r].cause == Some(UserCancelled) <==> cancelled && rs[r].status == Pending
      ensures next[r].cause == Some(ProcessRestart) <==>
                (!cancelled && rs[r].status == Pending) || rs[r].status == InFlight
                || rs[r].cause == Some(ProcessRestart)
    {
      assert RoleRunRowOk(rs[r]) && RecoveredTo(rs[r], cancelled, now, next[r]);
      assert rs[r].cause != Some(UserCancelled);
    }
    forall r: Role | rs[r].status == Pending
      ensures next[r].cause == Some(if cancelled then UserCancelled else ProcessRestart)
    {
      assert RecoveredTo(rs[r], cancelled, now, next[r]);
    }
    hide RecoveredTo, RoleRunRowOk;
    if r :| r in next && next[r].cause == Some(ProcessRestart) {
      assert r in rs;
    }
    if r :| r in rs && rs[r].status == Pending {
      assert r in next;
    }
    if r :| r in rs && rs[r].status == InFlight {
      assert r in next && next[r].cause == Some(ProcessRestart);
    }
    if r :| r in rs && rs[r].cause == Some(ProcessRestart) {
      assert r in next && next[r].cause == Some(ProcessRestart);
    }
  }

  lemma RecoveredRowsStay(db: Db, steps: seq<Step>, sid: string)
    requires Inv(db) && sid in db.sessions && sid in db.roles && AllTerminal(db.roles[sid]) && AllRoles(db.roles[sid])
    ensures sid in Exec(db, steps).sessions && RolesOf(Exec(db, steps), sid) == db.roles[sid]
  {
    hide Inv, Exec;
    var later := RolesOf(Exec(db, steps), sid);
    TerminalRowStays(db, steps, sid, QA);
    forall r: Role ensures r in later && later[r] == db.roles[sid][r] {
      TerminalRowStays(db, steps, sid, r);
    }
    assert later.Keys == db.roles[sid].Keys;
    assert later == db.roles[sid];
  }
}
