/** internal/review/engine.go: the four roles one after the other, the reference for the worker. */
module Engine {
  import opened Options
  import opened Domain
  import opened Evidence
  import opened Composer
  import opened RoleRunner
  import Sorting

  /** A role that never executed because cancellation was seen first. */
  function InterruptedOutcome(role: Role): RoleOutcome
  {
    RoleOutcome(role, Interrupted, [], "", Some(UserCancelled), 0, None)
  }

  /** How many roles run: those before the first true answer to Cancelled. */
  function RunsBefore(cancelled: seq<bool>): (n: nat)
    ensures n <= |cancelled| && (n < |cancelled| ==> cancelled[n]) && forall i :: 0 <= i < n ==> !cancelled[i]
  {
    if cancelled == [] || cancelled[0] then 0 else 1 + RunsBefore(cancelled[1..])
  }

  datatype Session = Session(id: string, snap: Snapshot, prompts: map<Role, Prompt>, maxTokens: int, timing: CallTiming)

  /** The outcome the role's environment accounts for. */
  ghost predicate RanTo(s: Session, env: Env, out: RoleOutcome)
    requires out.role in s.prompts
  {
    exists calls :: Accounts(env, s.timing, s.snap, s.prompts[out.role], s.maxTokens, out, calls)
  }

  /** Role i's outcome: what it ran to, or interrupted from the first cancellation on. */
  ghost predicate OutcomeAt(s: Session, envs: map<Role, Env>, cancelled: seq<bool>, i: nat, out: RoleOutcome)
    requires s.prompts.Keys == envs.Keys && (forall r: Role :: r in envs) && i < |ROLES| == |cancelled|
  {
    && out.role == ROLES[i]
    && if i < RunsBefore(cancelled) then RanTo(s, envs[out.role], out) else out == InterruptedOutcome(ROLES[i])
  }

  /** The outcomes of a whole run, in role order. */
  ghost predicate Ran(s: Session, envs: map<Role, Env>, cancelled: seq<bool>, outcomes: seq<RoleOutcome>)
    requires s.prompts.Keys == envs.Keys && (forall r: Role :: r in envs)
  {
    |outcomes| == |ROLES| == |cancelled|
    && forall i :: 0 <= i < |ROLES| ==> OutcomeAt(s, envs, cancelled, i, outcomes[i])
  }

  /** The report of the outcomes, in which a cancellation was seen if some role did not run. */
  ghost predicate Returns(s: Session, envs: map<Role, Env>, cancelled: seq<bool>, r: Result<Report, ComposeError>)
    requires s.prompts.Keys == envs.Keys && (forall r: Role :: r in envs)
  {
    exists outcomes ::
      Ran(s, envs, cancelled, outcomes)
      && r == Ok(Built(s.id, s.snap.id, s.snap.hash, outcomes, Decide(RowsFrom(outcomes)),
                       RunsBefore(cancelled) < |ROLES|))
  }

  predicate AllRoles<T>(m: map<Role, T>)
  {
    forall r: Role :: r in m
  }

  /** The engine's report never fails to compose, and is the report of the outcomes in role order. */
  method Run(s: Session, envs: map<Role, Env>, cancelled: seq<bool>)
    returns (r: Result<Report, ComposeError>)
    requires AllRoles(s.prompts) && AllRoles(envs) && s.prompts.Keys == envs.Keys && |cancelled| == |ROLES|
    ensures Returns(s, envs, cancelled, r)
  {
    hide Accounts, Decide;
    var done: seq<RoleOutcome> := [];
    var cancelObserved := false;
    for i := 0 to |ROLES|
      invariant |done| == i && cancelObserved == (RunsBefore(cancelled) < i)
      invariant forall j :: 0 <= j < i ==> OutcomeAt(s, envs, cancelled, j, done[j])
    {
      var role := ROLES[i];
      if cancelObserved || cancelled[i] {
        cancelObserved := true;
        done := done + [InterruptedOutcome(role)];
        continue;
      }
      var out, calls := RunRole(envs[role], role, s.snap, s.prompts[role], s.maxTokens, s.timing);
      assert RanTo(s, envs[role], out);
      done := done + [out];
    }
    assert Ran(s, envs, cancelled, done);
    OutcomesCompose(s, envs, cancelled, done);
    var verdict := Compose(RowsFrom(done));
    match verdict {
      case Err(e) =>
        return Err(e);
      case Ok(v) =>
        var report := BuildReport(s.id, s.snap.id, s.snap.hash, done, v, cancelObserved);
        return Ok(report);
    }
  }

  lemma RanRow(s: Session, env: Env, out: RoleOutcome)
    requires out.role in s.prompts && RanTo(s, env, out)
    ensures RowOk(RoleRow(out.role, out.status, out.cause)) && !out.status.Interrupted?
  {
    hide Protocol, Asks, Refused, Good, FailureCategory, DeadlineKept, SecondDue;
  }

  lemma {:induction false} OutcomesCompose(s: Session, envs: map<Role, Env>, cancelled: seq<bool>,
                                           outcomes: seq<RoleOutcome>)
    requires AllRoles(s.prompts) && AllRoles(envs) && s.prompts.Keys == envs.Keys && Ran(s, envs, cancelled, outcomes)
    ensures Composable(RowsFrom(outcomes))
  {
    hide RanTo;
    var rows := RowsFrom(outcomes);
    forall i | 0 <= i < |ROLES| ensures RowOk(rows[i]) && rows[i].role == ROLES[i] {
      assert OutcomeAt(s, envs, cancelled, i, outcomes[i]);
      if i < RunsBefore(cancelled) {
        RanRow(s, envs[outcomes[i].role], outcomes[i]);
      }
    }
  }

  // ---- What the database does not keep ------------------------------------------------------

  function ErasedSummary(s: RoleSummary): RoleSummary
  {
    s.(lastPurpose := None)
  }

  function EraseLastPurpose(report: Report): Report
  {
    report.(roles := Sorting.Map(ErasedSummary, report.roles))
  }

  function ErasedOutcome(o: RoleOutcome): RoleOutcome
  {
    o.(lastPurpose := None)
  }

  lemma {:induction false} ErasedContributions(os: seq<RoleOutcome>)
    ensures Contributions(Sorting.Map(ErasedOutcome, os)) == Contributions(os)
  {
    if os != [] {
      var front := os[..|os| - 1];
      ErasedContributions(front);
      assert Sorting.Map(ErasedOutcome, os)[..|os| - 1] == Sorting.Map(ErasedOutcome, front);
    }
  }

  /** Forgetting the last purposes before or after the report is built is the same. */
  lemma ErasedReport(id: string, snapshot: string, hash: Hash, os: seq<RoleOutcome>, v: Verdict, cancelled: bool)
    ensures EraseLastPurpose(Built(id, snapshot, hash, os, v, cancelled))
         == Built(id, snapshot, hash, Sorting.Map(ErasedOutcome, os), v, cancelled)
    ensures RowsFrom(Sorting.Map(ErasedOutcome, os)) == RowsFrom(os)
  {
    hide Sorting.Sort;
    Sorting.SortMap(ErasedSummary, Summaries(os), SummaryLess);
    assert Summaries(Sorting.Map(ErasedOutcome, os)) == Sorting.Map(ErasedSummary, Summaries(os));
    ErasedContributions(os);
  }

  // ---- A cancelled run -----------------------------------------------------------------------

  /**
   * Once a cancellation is seen the remaining roles are not run: they are interrupted for it without a call, and the
   * report is partial, for user_cancelled.
   */
  lemma {:induction false} CancelledRun(s: Session, envs: map<Role, Env>, cancelled: seq<bool>,
                                        outcomes: seq<RoleOutcome>)
    requires AllRoles(s.prompts) && AllRoles(envs) && s.prompts.Keys == envs.Keys && Ran(s, envs, cancelled, outcomes)
    requires exists i :: 0 <= i < |cancelled| && cancelled[i]
    ensures var v := Decide(RowsFrom(outcomes));
            && v.reason == ReasonUserCancelled && v.status == Partial && RunsBefore(cancelled) < |ROLES|
    ensures forall i, j :: 0 <= i <= j < |ROLES| && cancelled[i] ==>
              outcomes[j].role == ROLES[j] && outcomes[j].status == Interrupted
              && outcomes[j].cause == Some(UserCancelled) && outcomes[j].callCount == 0 && outcomes[j].findings == []
  {
    hide RanTo, Decide, RowsFrom;
    var i :| 0 <= i < |cancelled| && cancelled[i];
    forall k, j | 0 <= k <= j < |ROLES| && cancelled[k] ensures outcomes[j] == InterruptedOutcome(ROLES[j]) {
      assert OutcomeAt(s, envs, cancelled, j, outcomes[j]);
    }
    OutcomesCompose(s, envs, cancelled, outcomes);
    CancelledVerdict(outcomes, i);
  }

  lemma CancelledVerdict(outcomes: seq<RoleOutcome>, i: nat)
    requires i < |outcomes| && outcomes[i].cause == Some(UserCancelled) && Composable(RowsFrom(outcomes))
    ensures var v := Decide(RowsFrom(outcomes)); v.reason == ReasonUserCancelled && v.status == Partial
  {
    hide Decide, Composable;
    var rows := RowsFrom(outcomes);
    assert rows[i] in rows && rows[i].cause == Some(UserCancelled);
    assert Any(rows, UserCancelled);
    VerdictMeaning(rows);
    VerdictFitsSchema(rows);
  }

  /** A run on which none is seen runs every role, and says nothing of a cancellation. */
  lemma {:induction false} UncancelledRun(s: Session, envs: map<Role, Env>, cancelled: seq<bool>,
                                          outcomes: seq<RoleOutcome>)
    requires AllRoles(s.prompts) && AllRoles(envs) && s.prompts.Keys == envs.Keys && Ran(s, envs, cancelled, outcomes)
    requires forall i :: 0 <= i < |cancelled| ==> !cancelled[i]
    ensures RunsBefore(cancelled) == |ROLES| && Decide(RowsFrom(outcomes)).reason != ReasonUserCancelled
    ensures forall i :: 0 <= i < |ROLES| ==>
              outcomes[i].role == ROLES[i] && RanTo(s, envs[ROLES[i]], outcomes[i])
              && (outcomes[i].status == RoleComplete || outcomes[i].status == RoleFailed)
  {
    hide RanTo, Decide;
    forall i | 0 <= i < |ROLES|
      ensures outcomes[i].role == ROLES[i] && RanTo(s, envs[ROLES[i]], outcomes[i])
      ensures outcomes[i].cause == None && (outcomes[i].status == RoleComplete || outcomes[i].status == RoleFailed)
    {
      assert OutcomeAt(s, envs, cancelled, i, outcomes[i]);
      RanStatus(s, envs[ROLES[i]], outcomes[i]);
    }
    OutcomesCompose(s, envs, cancelled, outcomes);
    assert !Any(RowsFrom(outcomes), UserCancelled);
    VerdictMeaning(RowsFrom(outcomes));
  }

  lemma RanStatus(s: Session, env: Env, out: RoleOutcome)
    requires out.role in s.prompts && RanTo(s, env, out)
    ensures out.cause == None && (out.status == RoleComplete || out.status == RoleFailed)
  {
    hide Protocol, Asks, Refused, Good, FailureCategory, DeadlineKept, SecondDue;
  }
}
