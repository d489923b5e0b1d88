/** Properties of whole runs: any steps, in any order, at any times, on any number of sessions. */
module DbRuns {
  import opened Domain
  import opened RequestHash
  import opened Timestamps
  import opened Records
  import opened Database
  import opened DbInvariant
  import opened DbSteps

  // ---- At most two roles in flight anywhere ------------------------------------------------

  /** In the whole database the roles in flight belong to one session, which is reviewing, and are at most two. */
  lemma InFlightRows(db: Db, a: string, r: Role, b: string, q: Role)
    requires Inv(db) && Is(RolesOf(db, a), r, InFlight) && Is(RolesOf(db, b), q, InFlight)
    ensures a == b && a in db.sessions && db.sessions[a].status.Reviewing?
    ensures CountOf(RolesOf(db, a), InFlight) <= MAX_IN_FLIGHT
  {
    InvKeys(db);
    AtSession(db, a);
    AtSession(db, b);
    assert OneReviewing(db);
    hide Inv, SessionOk;
    InFlightMeansReviewing(db.sessions[a], db.roles[a], r);
    InFlightMeansReviewing(db.sessions[b], db.roles[b], q);
    AtMostTwo(db.sessions[a], db.roles[a]);
  }

  lemma AtMostTwo(s: Session, rs: RoleMap)
    requires SessionOk(s, rs) && s.status.Reviewing?
    ensures CountOf(rs, InFlight) <= MAX_IN_FLIGHT
  {
    hide SessionRowOk, RoleRunRowOk, RunFollows;
  }

  /** Every role ever started was started before its session's cutoff. */
  lemma StartedBeforeCutoff(db: Db, sid: string, r: Role)
    requires Inv(db) && sid in db.sessions && r in RolesOf(db, sid) && RolesOf(db, sid)[r].startedAt.Some?
    ensures db.sessions[sid].cutoffAt.Some? && RolesOf(db, sid)[r].startedAt.value < db.sessions[sid].cutoffAt.value
  {
    hide Inv, SessionOk, RoleRunRowOk;
    AtSession(db, sid);
    RowsOk(db.sessions[sid], db.roles[sid]);
    assert RunFollows(db.roles[sid][r], db.sessions[sid]);
  }

  // ---- Cancellation ----------------------------------------------------------------------------

  /** A run that was pending under a requested cancellation has not started, and never will. */
  ghost predicate NeverStarted(db: Db, sid: string, r: Role)
  {
    && sid in db.sessions && db.sessions[sid].cancelRequested && r in RolesOf(db, sid)
    && (RolesOf(db, sid)[r].status.Pending? || (RolesOf(db, sid)[r].status.Interrupted?
      && RolesOf(db, sid)[r].startedAt.None?))
  }

  lemma NeverStartedStep(db: Db, next: Db, sid: string, r: Role)
    requires Inv(db) && Inv(next) && StepOk(db, next) && NeverStarted(db, sid, r)
    ensures NeverStarted(next, sid, r)
  {
    hide Inv, StepOk, SessionOk;
    AtSession(db, sid);
    StepSession(db, next, sid);
    AtSession(next, sid);
    StepRun(db, next, sid, r);
    RowsOk(db.sessions[sid], db.roles[sid]);
    CancelledRunStep(db.sessions[sid], db.roles[sid][r], next.roles[sid][r]);
  }

  lemma CancelledRunStep(s: Session, a: RoleRun, b: RoleRun)
    requires RunStep(s, a, b) && s.cancelRequested && RoleRunRowOk(a)
    requires a.status.Pending? || (a.status.Interrupted? && a.startedAt.None?)
    ensures b.status.Pending? || (b.status.Interrupted? && b.startedAt.None?)
  {
  }

  /** A role pending when a cancellation commits never goes in flight, in any continuation. */
  lemma {:induction false} CancelledNeverStarts(db: Db, steps: seq<Step>, sid: string, r: Role)
    requires Inv(db) && NeverStarted(db, sid, r)
    ensures NeverStarted(Exec(db, steps), sid, r)
    decreases |steps|
  {
    hide Inv, StepOk, Apply, NeverStarted;
    if steps != [] {
      var before := Exec(db, steps[..|steps| - 1]);
      CancelledNeverStarts(db, steps[..|steps| - 1], sid, r);
      ExecKeeps(db, steps[..|steps| - 1]);
      ApplyKeeps(before, steps[|steps| - 1]);
      NeverStartedStep(before, Apply(before, steps[|steps| - 1]), sid, r);
    }
  }

  // ---- Rank: termination and no silent replay -------------------------------------------------------

  function RunRank(status: RoleStatus): nat
  {
    if status.Pending? then 2 else if status.InFlight? then 1 else 0
  }

  /** A role that is not there yet counts as pending. */
  function StatusAt(rs: RoleMap, r: Role): RoleStatus
  {
    if r in rs then rs[r].status else Pending
  }

  function RankAt(rs: RoleMap, r: Role): nat
  {
    RunRank(StatusAt(rs, r))
  }

  /** Steps that change the status of one role of one session. */
  ghost function Changes(db: Db, steps: seq<Step>, sid: string, r: Role): nat
  {
    if steps == [] then 0
    else
      var before, after := Exec(db, steps[..|steps| - 1]), Exec(db, steps);
      Changes(db, steps[..|steps| - 1], sid, r)
      + if StatusAt(RolesOf(before, sid), r) != StatusAt(RolesOf(after, sid), r) then 1 else 0
  }

  /** Steps that put one role of one session in flight. */
  ghost function Starts(db: Db, steps: seq<Step>, sid: string, r: Role): nat
  {
    if steps == [] then 0
    else
      var before, after := Exec(db, steps[..|steps| - 1]), Exec(db, steps);
      Starts(db, steps[..|steps| - 1], sid, r)
      + if !Is(RolesOf(before, sid), r, InFlight) && Is(RolesOf(after, sid), r, InFlight) then 1 else 0
  }

  /** One step, one role: a change of status lowers the rank, and the role only goes in flight from pending. */
  lemma RankStep(db: Db, next: Db, sid: string, r: Role)
    requires Inv(db) && Inv(next) && StepOk(db, next)
    ensures RankAt(RolesOf(next, sid), r) <= RankAt(RolesOf(db, sid), r) <= 2
    ensures StatusAt(RolesOf(next, sid), r) != StatusAt(RolesOf(db, sid), r) ==>
              RankAt(RolesOf(next, sid), r) < RankAt(RolesOf(db, sid), r)
    ensures !Is(RolesOf(db, sid), r, InFlight) && Is(RolesOf(next, sid), r, InFlight) ==>
              RankAt(RolesOf(db, sid), r) == 2 && RankAt(RolesOf(next, sid), r) == 1
  {
    hide Inv, StepOk, SessionOk;
    if sid in db.sessions {
      AtSession(db, sid);
      if r in db.roles[sid] {
        StepSession(db, next, sid);
        AtSession(next, sid);
        StepRun(db, next, sid, r);
      }
    } else {
      InvKeys(db);
    }
  }

  /** Every change of a role uses up rank: at most two changes a role, so at most eight a session. */
  lemma {:induction false} ChangesBounded(db: Db, steps: seq<Step>, sid: string, r: Role)
    requires Inv(db)
    ensures Changes(db, steps, sid, r) + RankAt(RolesOf(Exec(db, steps), sid), r) <= RankAt(RolesOf(db, sid), r) <= 2
    decreases |steps|
  {
    hide Inv, StepOk, Apply, RankAt, StatusAt;
    if steps == [] {
      NoChange(db);
      RankStep(db, db, sid, r);
    } else {
      var before := Exec(db, steps[..|steps| - 1]);
      ChangesBounded(db, steps[..|steps| - 1], sid, r);
      ExecKeeps(db, steps[..|steps| - 1]);
      ApplyKeeps(before, steps[|steps| - 1]);
      RankStep(before, Apply(before, steps[|steps| - 1]), sid, r);
    }
  }

  lemma SessionChangesBounded(db: Db, steps: seq<Step>, sid: string)
    requires Inv(db)
    ensures Changes(db, steps, sid, Requirements) + Changes(db, steps, sid, Architecture) + Changes(db, steps, sid, QA)
            + Changes(db, steps, sid, Security) <= 8
  {
    hide Inv, Changes, RankAt;
    forall r: Role ensures Changes(db, steps, sid, r) <= 2 {
      ChangesBounded(db, steps, sid, r);
    }
  }

  /** A session that is not there yet counts as queued. */
  function SessionStatusAt(db: Db, sid: string): SessionStatus
  {
    if sid in db.sessions then db.sessions[sid].status else Queued
  }

  function StatusRank(status: SessionStatus): nat
  {
    if status.Queued? then 2 else if status.Reviewing? then 1 else 0
  }

  /** Steps that change the status of one session. */
  ghost function Moves(db: Db, steps: seq<Step>, sid: string): nat
  {
    if steps == [] then 0
    else
      var before, after := Exec(db, steps[..|steps| - 1]), Exec(db, steps);
      Moves(db, steps[..|steps| - 1], sid)
      + if SessionStatusAt(before, sid) != SessionStatusAt(after, sid) then 1 else 0
  }

  lemma MoveStep(db: Db, next: Db, sid: string)
    requires Inv(db) && Inv(next) && StepOk(db, next)
    ensures SessionStatusAt(next, sid) == SessionStatusAt(db, sid)
         || StatusRank(SessionStatusAt(next, sid)) < StatusRank(SessionStatusAt(db, sid))
  {
    hide Inv, StepOk;
    if sid in db.sessions {
      StepSession(db, next, sid);
    }
  }

  /** A session changes status at most twice: it is claimed once and composed once. */
  lemma {:induction false} MovesBounded(db: Db, steps: seq<Step>, sid: string)
    requires Inv(db)
    ensures Moves(db, steps, sid) + StatusRank(SessionStatusAt(Exec(db, steps), sid))
            <= StatusRank(SessionStatusAt(db, sid)) <= 2
    decreases |steps|
  {
    hide Inv, StepOk, Apply, StatusRank, SessionStatusAt;
    AtMostTwoMoves(SessionStatusAt(db, sid));
    if steps != [] {
      var before := Exec(db, steps[..|steps| - 1]);
      MovesBounded(db, steps[..|steps| - 1], sid);
      ExecKeeps(db, steps[..|steps| - 1]);
      ApplyKeeps(before, steps[|steps| - 1]);
      MoveStep(before, Apply(before, steps[|steps| - 1]), sid);
    }
  }

  lemma AtMostTwoMoves(status: SessionStatus)
    ensures StatusRank(status) <= 2
  {
  }

  /** No silent replay: over any run a role goes in flight at most once, and then from pending. */
  lemma {:induction false} StartsOnce(db: Db, steps: seq<Step>, sid: string, r: Role)
    requires Inv(db)
    ensures Starts(db, steps, sid, r) <= 1
    ensures RankAt(RolesOf(Exec(db, steps), sid), r) == 2 ==> Starts(db, steps, sid, r) == 0
    ensures Starts(db, steps, sid, r) == 1 ==> RankAt(RolesOf(db, sid), r) == 2
    decreases |steps|
  {
    hide Inv, StepOk, Apply, RankAt, Is;
    if steps != [] {
      var front := steps[..|steps| - 1];
      var before := Exec(db, front);
      StartsOnce(db, front, sid, r);
      ExecKeeps(db, front);
      ApplyKeeps(before, steps[|steps| - 1]);
      RankStep(before, Apply(before, steps[|steps| - 1]), sid, r);
      ChangesBounded(db, front, sid, r);
    }
  }

  /** Provider calls a database run can have caused, when a start is worth at most two calls. */
  ghost function CallBudget(db: Db, steps: seq<Step>, sid: string): nat
  {
    2 * (Starts(db, steps, sid, Requirements) + Starts(db, steps, sid, Architecture) + Starts(db, steps, sid, QA)
         + Starts(db, steps, sid, Security))
  }

  lemma CallBudgetBounded(db: Db, steps: seq<Step>, sid: string)
    requires Inv(db)
    ensures CallBudget(db, steps, sid) <= 8
  {
    hide Inv, Starts;
    forall r: Role ensures Starts(db, steps, sid, r) <= 1 {
      StartsOnce(db, steps, sid, r);
    }
  }

  // ---- Idempotent submission -----------------------------------------------------------------------

  /** The session a project and key name, and the request it was made for. */
  ghost predicate Holds(db: Db, project: string, key: string, sid: string, digest: Digest)
  {
    && (project, key) in db.keys && db.keys[(project, key)] == sid
    && sid in db.sessions && db.sessions[sid].requestHash == digest
  }

  lemma HoldsStep(db: Db, next: Db, project: string, key: string, sid: string, digest: Digest)
    requires StepOk(db, next) && Holds(db, project, key, sid, digest)
    ensures Holds(next, project, key, sid, digest)
  {
    StepSession(db, next, sid);
    StepTables(db, next);
    hide StepOk;
  }

  lemma {:induction false} HoldsForever(db: Db, steps: seq<Step>, project: string, key: string, sid: string,
                                        digest: Digest)
    requires Inv(db) && Holds(db, project, key, sid, digest)
    ensures Holds(Exec(db, steps), project, key, sid, digest)
    decreases |steps|
  {
    hide Inv, StepOk, Apply, Holds;
    if steps != [] {
      var before := Exec(db, steps[..|steps| - 1]);
      HoldsForever(db, steps[..|steps| - 1], project, key, sid, digest);
      ExecKeeps(db, steps[..|steps| - 1]);
      ApplyKeeps(before, steps[|steps| - 1]);
      HoldsStep(before, Apply(before, steps[|steps| - 1]), project, key, sid, digest);
    }
  }

  lemma CreatedHolds(db: Db, p: SubmitParams, generated: string, createdAt: Instant)
    requires SubmitFault(p).None? && Submit(db, p, generated, createdAt).result.Created?
    ensures var o := Submit(db, p, generated, createdAt);
            Holds(o.db, p.projectId, p.key, o.result.id, Buffer(p.projectId, p.title, p.content))
  {
    Insertion(db, p, generated, createdAt);
    NewSessionFields(p, createdAt);
    hide Submit, SubmitFault, NewRoles, SnapshotStored, Buffer;
  }

  /**
   * (project, key) is write-once: after a submission created a session, any later submission under the same
   * project and key changes nothing, and is a replay exactly when title and content are the same.
   */
  lemma SubmitOnce(db: Db, p: SubmitParams, generated: string, createdAt: Instant, steps: seq<Step>,
                   q: SubmitParams, other: string, at: Instant)
    requires Inv(db) && SubmitFault(p).None? && Submit(db, p, generated, createdAt).result.Created?
    requires SubmitFault(q).None? && q.projectId == p.projectId && q.key == p.key
    ensures var id := Submit(db, p, generated, createdAt).result.id;
            var later := Exec(Submit(db, p, generated, createdAt).db, steps);
            var o := Submit(later, q, other, at);
            && o.db == later && id in later.sessions
            && o.result == if q.title == p.title && q.content == p.content
                           then Replayed(id, later.sessions[id].status) else KeyConflict
  {
    hide Inv, StepOk, Submit, SubmitFault, Buffer, Exec;
    var mid := Submit(db, p, generated, createdAt).db;
    var id := Submit(db, p, generated, createdAt).result.id;
    SubmitKeeps(db, p, generated, createdAt);
    CreatedHolds(db, p, generated, createdAt);
    HoldsForever(mid, steps, p.projectId, p.key, id, Buffer(p.projectId, p.title, p.content));
    if Buffer(q.projectId, q.title, q.content) == Buffer(p.projectId, p.title, p.content) {
      BufferInjective(q.projectId, q.title, q.content, p.projectId, p.title, p.content);
    }
    SubmitFound(Exec(mid, steps), q, other, at, id);
  }

  lemma SubmitFound(db: Db, q: SubmitParams, generated: string, at: Instant, id: string)
    requires SubmitFault(q).None? && (q.projectId, q.key) in db.keys && db.keys[(q.projectId, q.key)] == id
    requires id in db.sessions
    ensures Submit(db, q, generated, at)
         == Outcome(db, if db.sessions[id].requestHash == Buffer(q.projectId, q.title, q.content)
                        then Replayed(id, db.sessions[id].status) else KeyConflict)
  {
    hide SubmitFault, Buffer, UnitKeys, NewSession, NewRoles;
  }
}
