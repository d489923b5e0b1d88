/** internal/review/runner.go and internal/worker/execute.go: one role, at most two provider calls. */
module RoleRunner {
  import opened Options
  import opened Text
  import opened Domain
  import opened Evidence
  import opened Composer
  import opened Validation

  // ---- The environment: everything RunRole asks of the outside --------------------------

  /** The clock is read at most once at each of these places. */
  datatype Moment = AtExecute | AtStart | AtFirstAttempt | AfterSleep | AtSecondCheck | AtSecondAttempt

  /** A provider error carries any category text; an untyped error counts as transport. */
  datatype Answer = Failed(category: string) | Returned(body: Body)

  datatype Call = Call(purpose: CallPurpose, attempt: nat, madeAt: int, deadline: Option<int>)

  /** ctxLive is ctx.Err() == nil when backoff is skipped; sleeps tells whether a sleep of a length runs to its end. */
  datatype Env = Env(now: Moment -> int, respond: Call -> Answer, ctxLive: bool, sleeps: int -> bool,
                     jitter: Option<int>)

  /** A timeout or backoff bound of zero or less, and an absent hard deadline, switch the feature off. */
  datatype CallTiming = CallTiming(callTimeout: int, hardDeadline: Option<int>, backoffMin: int, backoffMax: int,
                                   customSleep: bool)

  predicate BeforeHardDeadline(t: CallTiming, now: int)
  {
    t.hardDeadline.None? || now < t.hardDeadline.value
  }

  function Min(a: int, b: int): int
  {
    if a <= b then a else b
  }

  // ---- Attempt deadlines and backoff -------------------------------------------------------

  /** The earlier of now + timeout and the hard deadline, of those that are set. */
  method AttemptDeadline(t: CallTiming, now: int) returns (deadline: Option<int>)
    ensures t.callTimeout > 0 && t.hardDeadline.Some? ==>
            deadline == Some(Min(now + t.callTimeout, t.hardDeadline.value))
    ensures t.callTimeout > 0 && t.hardDeadline.None? ==> deadline == Some(now + t.callTimeout)
    ensures t.callTimeout <= 0 ==> deadline == t.hardDeadline
  {
    deadline := None;
    if t.callTimeout > 0 {
      deadline := Some(now + t.callTimeout);
    }
    if t.hardDeadline.Some? {
      if deadline.None? || t.hardDeadline.value < deadline.value {
        deadline := t.hardDeadline;
      }
    }
  }

  function Jitter(env: Env, t: CallTiming): (d: int)
    ensures env.jitter.None? && t.backoffMin <= t.backoffMax ==> t.backoffMin <= d <= t.backoffMax
  {
    if env.jitter.Some? then env.jitter.value
    else if t.backoffMax <= t.backoffMin then t.backoffMin
    else t.backoffMin + (t.backoffMax - t.backoffMin) / 2
  }

  predicate BackoffEnds(env: Env, t: CallTiming)
  {
    if t.backoffMin <= 0 then env.ctxLive
    else env.sleeps(Jitter(env, t)) && (t.customSleep || BeforeHardDeadline(t, env.now(AfterSleep)))
  }

  method Backoff(env: Env, t: CallTiming) returns (ok: bool)
    ensures ok == BackoffEnds(env, t)
  {
    if t.backoffMin <= 0 {
      return env.ctxLive;
    }
    var d := Jitter(env, t);
    if !env.sleeps(d) {
      return false;
    }
    if t.customSleep {
      return true;
    }
    return BeforeHardDeadline(t, env.now(AfterSleep));
  }

  // ---- What a run may look like -----------------------------------------------------------

  predicate IsInitial(c: Call)
  {
    c.purpose == Initial && c.attempt == 1
  }

  /** No call, one initial call, or an initial call and one of a retry or a repair. */
  predicate Protocol(calls: seq<Call>)
  {
    calls == []
    || (|calls| == 1 && IsInitial(calls[0]))
    || (|calls| == 2 && IsInitial(calls[0]) && calls[1].purpose != Initial && calls[1].attempt == 2)
  }

  predicate DeadlineKept(t: CallTiming, c: Call)
  {
    && (t.hardDeadline.Some? ==> c.deadline.Some? && c.deadline.value <= t.hardDeadline.value)
    && (t.callTimeout > 0 ==> c.deadline.Some? && c.deadline.value <= c.madeAt + t.callTimeout)
    && (c.deadline.Some? ==>
          c.deadline == t.hardDeadline || (t.callTimeout > 0 && c.deadline.value == c.madeAt + t.callTimeout))
  }

  predicate Retryable(a: Answer)
  {
    a.Failed? && IsRetryableTransport(a.category)
  }

  predicate Good(a: Answer, snap: Snapshot)
  {
    a.Returned? && a.body.Decoded? && Accepted(a.body.findings, snap)
  }

  /** The answer asks for a second call of this purpose. */
  predicate Asks(env: Env, t: CallTiming, snap: Snapshot, a: Answer, purpose: CallPurpose)
  {
    match purpose
    case Initial => false
    case TransportRetry => Retryable(a) && BackoffEnds(env, t)
    case FormatRepair => a.Returned? && !Good(a, snap)
  }

  predicate SecondDue(env: Env, t: CallTiming, snap: Snapshot, a: Answer)
  {
    Asks(env, t, snap, a, TransportRetry) || Asks(env, t, snap, a, FormatRepair)
  }

  /** Call 2 was due and the hard deadline had passed. */
  predicate Refused(env: Env, t: CallTiming, snap: Snapshot, calls: seq<Call>)
  {
    |calls| == 1 && SecondDue(env, t, snap, env.respond(calls[0])) && !BeforeHardDeadline(t, env.now(AtSecondCheck))
  }

  /** The category a body that is not accepted is given. */
  function BodyCategory(body: Body): string
  {
    if body.Undecodable? then INVALID_JSON
    else if !StructureOk(body.findings) then SCHEMA_INVALID
    else INVALID_BASIS_REF
  }

  function AnswerCategory(a: Answer): string
  {
    match a
    case Failed(category) => category
    case Returned(body) => BodyCategory(body)
  }

  datatype Prompt = BuildFailed | Assembled(tokens: nat)

  /** A limit of zero or less switches the budget off. */
  predicate Fits(prompt: Prompt, maxTokens: int)
  {
    prompt.Assembled? && (maxTokens <= 0 || prompt.tokens <= maxTokens)
  }

  /** Why a run with these calls failed. */
  function FailureCategory(env: Env, snap: Snapshot, prompt: Prompt, maxTokens: int, calls: seq<Call>): string
  {
    if calls == [] then
      if prompt.BuildFailed? then SCHEMA_INVALID
      else if !Fits(prompt, maxTokens) then BUDGET_EXHAUSTED
      else TIMEOUT
    else if |calls| == 1 && (Retryable(env.respond(calls[0])) || env.respond(calls[0]).Returned?) then TIMEOUT
    else AnswerCategory(env.respond(calls[|calls| - 1]))
  }

  /** Every answer, clock reading and sleep accounts for the calls made and the outcome. */
  predicate Accounts(env: Env, t: CallTiming, snap: Snapshot, prompt: Prompt, maxTokens: int,
                     out: RoleOutcome, calls: seq<Call>)
  {
    && Protocol(calls) && (forall c :: c in calls ==> DeadlineKept(t, c))
    && (calls != [] ==> calls[0].madeAt == env.now(AtFirstAttempt))
    && (|calls| == 2 ==> calls[1].madeAt == env.now(AtSecondAttempt))
    && (calls == [] <==> !Fits(prompt, maxTokens) || !BeforeHardDeadline(t, env.now(AtStart)))
    && (|calls| == 2 ==> Asks(env, t, snap, env.respond(calls[0]), calls[1].purpose))
    && (|calls| == 1 ==> SecondDue(env, t, snap, env.respond(calls[0])) ==>
      !BeforeHardDeadline(t, env.now(AtSecondCheck)))
    && (|calls| == 2 ==> BeforeHardDeadline(t, env.now(AtSecondCheck)))
    && out.cause == None
    && out.callCount == |calls| + (if Refused(env, t, snap, calls) then 1 else 0)
    && (out.status == RoleComplete || out.status == RoleFailed)
    && (out.status == RoleComplete <==> calls != [] && Good(env.respond(calls[|calls| - 1]), snap))
    && (out.status == RoleComplete ==>
          out.findings == env.respond(calls[|calls| - 1]).body.findings && out.errorCategory == "")
    && (out.status == RoleFailed ==>
          out.findings == [] && out.errorCategory == FailureCategory(env, snap, prompt, maxTokens, calls))
    && (out.lastPurpose == if calls == [] then None
                           else if Refused(env, t, snap, calls) then
                             Some(if Retryable(env.respond(calls[0])) then TransportRetry else FormatRepair)
                           else Some(calls[|calls| - 1].purpose))
  }

  /** What a second call of a purpose, once the budget allows it, comes to. */
  predicate SecondEnds(env: Env, snap: Snapshot, t: CallTiming, before: RoleOutcome, first: Call, purpose: CallPurpose,
                       out: RoleOutcome, calls: seq<Call>)
  {
    var started := before.(callCount := 2, lastPurpose := Some(purpose));
    if !BeforeHardDeadline(t, env.now(AtSecondCheck)) then
      calls == [first] && out == Fail(started, TIMEOUT)
    else
      && |calls| == 2 && calls[0] == first && calls[1].purpose == purpose && calls[1].attempt == 2
      && calls[1].madeAt == env.now(AtSecondAttempt) && DeadlineKept(t, calls[1])
      && var answer := env.respond(calls[1]);
         out == if Good(answer, snap) then Succeed(started, answer.body.findings)
                else Fail(started, AnswerCategory(answer))
  }

  // ---- RunRole ---------------------------------------------------------------------------

  function Fail(out: RoleOutcome, category: string): RoleOutcome
  {
    out.(status := RoleFailed, findings := [], errorCategory := category)
  }

  function Succeed(out: RoleOutcome, findings: seq<Finding>): RoleOutcome
  {
    out.(status := RoleComplete, findings := findings, errorCategory := "")
  }

  method RunRole(env: Env, role: Role, snap: Snapshot, prompt: Prompt, maxTokens: int, t: CallTiming)
    returns (out: RoleOutcome, calls: seq<Call>)
    ensures out.role == role && Accounts(env, t, snap, prompt, maxTokens, out, calls)
  {
    hide CitesAll, StructureOk, BackoffEnds, SecondEnds;
    out := RoleOutcome(role, Pending, [], "", None, 0, None);
    calls := [];
    if prompt.BuildFailed? {
      out := out.(status := RoleFailed, errorCategory := SCHEMA_INVALID);
      return;
    }
    if maxTokens > 0 && prompt.tokens > maxTokens {
      out := out.(status := RoleFailed, errorCategory := BUDGET_EXHAUSTED);
      return;
    }
    if t.hardDeadline.Some? && !(env.now(AtStart) < t.hardDeadline.value) {
      out := out.(status := RoleFailed, errorCategory := TIMEOUT);
      return;
    }
    out := out.(status := InFlight, callCount := 1, lastPurpose := Some(Initial));
    var deadline := AttemptDeadline(t, env.now(AtFirstAttempt));
    var first := Call(Initial, 1, env.now(AtFirstAttempt), deadline);
    calls := [first];
    var answer := env.respond(first);
    if answer.Failed? {
      if !IsRetryableTransport(answer.category) {
        out := Fail(out, answer.category);
        return;
      }
      var slept := Backoff(env, t);
      if !slept {
        out := Fail(out, TIMEOUT);
        return;
      }
      ghost var before := out;
      out, calls := SecondCall(env, out, snap, t, first, TransportRetry);
      SecondAccounts(env, t, snap, prompt, maxTokens, before, first, TransportRetry, out, calls);
      return;
    }
    var decoded := DecodeAndValidate(answer.body, snap);
    if decoded.Ok? {
      out := Succeed(out, decoded.value);
      return;
    }
    ghost var before := out;
    out, calls := FormatRepairCall(env, out, snap, t, first, decoded.error);
    SecondAccounts(env, t, snap, prompt, maxTokens, before, first, FormatRepair, out, calls);
  }

  lemma SecondAccounts(env: Env, t: CallTiming, snap: Snapshot, prompt: Prompt, maxTokens: int, before: RoleOutcome,
                       first: Call, purpose: CallPurpose, out: RoleOutcome, calls: seq<Call>)
    requires SecondEnds(env, snap, t, before, first, purpose, out, calls)
    requires IsInitial(first) && first.madeAt == env.now(AtFirstAttempt) && DeadlineKept(t, first)
    requires Fits(prompt, maxTokens) && BeforeHardDeadline(t, env.now(AtStart))
    requires Asks(env, t, snap, env.respond(first), purpose) && before.cause == None
    ensures out.role == before.role && Accounts(env, t, snap, prompt, maxTokens, out, calls)
  {
    hide Accepted, StructureOk, BackoffEnds, DeadlineKept, Fits, BeforeHardDeadline, AnswerCategory;
  }

  /** transportRetry. A valid response with an invalid body ends the role: there is no third call. */
  method SecondCall(env: Env, before: RoleOutcome, snap: Snapshot, t: CallTiming, first: Call, purpose: CallPurpose)
    returns (out: RoleOutcome, calls: seq<Call>)
    ensures SecondEnds(env, snap, t, before, first, purpose, out, calls)
  {
    hide CitesAll, StructureOk;
    calls := [first];
    out := before.(callCount := 2, lastPurpose := Some(purpose));
    if t.hardDeadline.Some? && !(env.now(AtSecondCheck) < t.hardDeadline.value) {
      out := Fail(out, TIMEOUT);
      return;
    }
    var deadline := AttemptDeadline(t, env.now(AtSecondAttempt));
    var second := Call(purpose, 2, env.now(AtSecondAttempt), deadline);
    calls := calls + [second];
    var answer := env.respond(second);
    if answer.Failed? {
      out := Fail(out, answer.category);
      return;
    }
    var decoded := DecodeAndValidate(answer.body, snap);
    match decoded {
      case Ok(findings) => out := Succeed(out, findings);
      case Err(category) => out := Fail(out, category);
    }
  }

  /** The same steps, behind a guard on the budget. */
  method FormatRepairCall(env: Env, before: RoleOutcome, snap: Snapshot, t: CallTiming, first: Call, category: string)
    returns (out: RoleOutcome, calls: seq<Call>)
    ensures before.callCount < MAX_PROVIDER_CALLS_PER_ROLE ==>
              SecondEnds(env, snap, t, before, first, FormatRepair, out, calls)
    ensures before.callCount >= MAX_PROVIDER_CALLS_PER_ROLE ==> calls == [first] && out == Fail(before, category)
  {
    if before.callCount >= MAX_PROVIDER_CALLS_PER_ROLE {
      return Fail(before, category), [first];
    }
    out, calls := SecondCall(env, before, snap, t, first, FormatRepair);
  }

  /** The environment leaves a run no choice: calls and outcome are a function of it. */
  lemma RunsAgree(env: Env, t: CallTiming, snap: Snapshot, prompt: Prompt, maxTokens: int,
                  a: RoleOutcome, xs: seq<Call>, b: RoleOutcome, ys: seq<Call>)
    requires Accounts(env, t, snap, prompt, maxTokens, a, xs) && Accounts(env, t, snap, prompt, maxTokens, b, ys)
    requires a.role == b.role
    ensures a == b && xs == ys
  {
    hide CitesAll, StructureOk, BackoffEnds, Fits;
    if xs != [] {
      assert DeadlineKept(t, xs[0]) && DeadlineKept(t, ys[0]);
      assert xs[0] == ys[0];
      if |xs| == 2 {
        assert |ys| == 2;
        assert DeadlineKept(t, xs[1]) && DeadlineKept(t, ys[1]);
      }
    }
  }

  datatype ExecuteError = EmptySnapshot | ZeroCallTimeout | ZeroHardDeadline

  /** worker.Execute: checks its configuration, and refuses to start at or after the hard deadline. */
  method Execute(env: Env, role: Role, snap: Snapshot, prompt: Prompt, maxTokens: int, t: CallTiming)
    returns (r: Result<RoleOutcome, ExecuteError>, calls: seq<Call>)
    ensures r.Err? <==> snap.units == [] || t.callTimeout <= 0 || t.hardDeadline.None?
    ensures r.Ok? && BeforeHardDeadline(t, env.now(AtExecute)) ==>
              r.value.role == role && Accounts(env, t, snap, prompt, maxTokens, r.value, calls)
    ensures r.Ok? && !BeforeHardDeadline(t, env.now(AtExecute)) ==>
              calls == [] && r.value == RoleOutcome(role, RoleFailed, [], TIMEOUT, None, 0, None)
  {
    calls := [];
    if |snap.units| == 0 {
      return Err(EmptySnapshot), [];
    }
    if t.callTimeout <= 0 {
      return Err(ZeroCallTimeout), [];
    }
    if t.hardDeadline.None? {
      return Err(ZeroHardDeadline), [];
    }
    if !(env.now(AtExecute) < t.hardDeadline.value) {
      return Ok(RoleOutcome(role, RoleFailed, [], TIMEOUT, None, 0, None)), [];
    }
    var out;
    out, calls := RunRole(env, role, snap, prompt, maxTokens, t);
    r := Ok(out);
  }

  // ---- Consequences -----------------------------------------------------------------------

  /** CallCount overstates the calls made by one exactly when call 2 was refused by the hard deadline. */
  lemma CallBound(env: Env, t: CallTiming, snap: Snapshot, prompt: Prompt, maxTokens: int,
                  out: RoleOutcome, calls: seq<Call>)
    requires Accounts(env, t, snap, prompt, maxTokens, out, calls)
    ensures |calls| <= out.callCount <= MAX_PROVIDER_CALLS_PER_ROLE
    ensures out.callCount != |calls| <==> Refused(env, t, snap, calls)
    ensures Refused(env, t, snap, calls) ==> |calls| == 1 && out.callCount == 2 && out.errorCategory == TIMEOUT
  {
    hide Accepted, StructureOk, BackoffEnds;
  }

  /** The time before the hard deadline, if there is one. */
  predicate TimeLeft(t: CallTiming, now: int)
  {
    t.hardDeadline == None || now < t.hardDeadline.value
  }

  /** The pause before a retry ends well: none is set and the context is live, or it runs to its end in time. */
  ghost predicate Rests(env: Env, t: CallTiming)
  {
    (t.backoffMin <= 0 && env.ctxLive)
    || (t.backoffMin > 0
        && (exists d :: env.sleeps(d) && IsPause(env, t, d))
        && (t.customSleep || TimeLeft(t, env.now(AfterSleep))))
  }

  /** The given jitter, or else the middle of the bounds, rounded down, or the lower bound if they are the wrong way. */
  predicate IsPause(env: Env, t: CallTiming, d: int)
  {
    match env.jitter
    case Some(j) => d == j
    case None =>
      if t.backoffMax <= t.backoffMin then d == t.backoffMin
      else 2 * d == t.backoffMin + t.backoffMax || 2 * d + 1 == t.backoffMin + t.backoffMax
  }

  lemma RestsIsBackoff(env: Env, t: CallTiming)
    ensures BackoffEnds(env, t) <==> Rests(env, t)
  {
    var d := Jitter(env, t);
    assert IsPause(env, t, d);
    assert forall e :: IsPause(env, t, e) ==> e == d;
  }

  /**
   * A first call that ends in an error is retried if and only if the error is a transport error or a timeout, the
   * pause ends well and there is time left; it is retried once. Otherwise the role fails with the error's own category,
   * or as a timeout if a retry was due.
   */
  lemma FirstErrorDecides(env: Env, t: CallTiming, snap: Snapshot, prompt: Prompt, maxTokens: int, out: RoleOutcome,
                          calls: seq<Call>)
    requires Accounts(env, t, snap, prompt, maxTokens, out, calls) && calls != [] && env.respond(calls[0]).Failed?
    ensures var c := env.respond(calls[0]).category;
            var due := (c == "transport" || c == "timeout") && Rests(env, t);
            && (|calls| == 2 <==> due && TimeLeft(t, env.now(AtSecondCheck)))
            && (|calls| == 2 ==> calls[1].purpose == TransportRetry && calls[1].attempt == 2)
            && (|calls| != 2 ==>
                  && |calls| == 1 && out.status == RoleFailed && out.findings == []
                  && out.callCount == (if due then 2 else 1)
                  && out.errorCategory == if c == "transport" then "timeout" else c)
  {
    hide Accepted, StructureOk, BackoffEnds, DeadlineKept, Rests, Fits, BodyCategory;
    RestsIsBackoff(env, t);
  }

  /**
   * A first answer that is accepted ends the role; one that is not is repaired once, if there is time left, and fails
   * the role as a timeout if there is not.
   */
  lemma FirstBodyDecides(env: Env, t: CallTiming, snap: Snapshot, prompt: Prompt, maxTokens: int, out: RoleOutcome,
                         calls: seq<Call>)
    requires Accounts(env, t, snap, prompt, maxTokens, out, calls) && calls != [] && env.respond(calls[0]).Returned?
    ensures var body := env.respond(calls[0]).body;
            var good := body.Decoded? && StructureOk(body.findings) && CitesAll(body.findings, snap);
            && (good ==>
                  |calls| == 1 && out.status == RoleComplete && out.findings == body.findings && out.callCount == 1)
            && (|calls| == 2 <==> !good && TimeLeft(t, env.now(AtSecondCheck)))
            && (|calls| == 2 ==> calls[1].purpose == FormatRepair && calls[1].attempt == 2)
            && (!good && |calls| == 1 ==>
                  && out.status == RoleFailed && out.findings == [] && out.errorCategory == "timeout"
                  && out.callCount == 2)
  {
    hide StructureOk, CitesAll, BackoffEnds, DeadlineKept, Fits, BodyCategory;
  }

  /** What the second answer decides, whichever call it answers: no third call is made. */
  lemma SecondAnswerDecides(env: Env, t: CallTiming, snap: Snapshot, prompt: Prompt, maxTokens: int, out: RoleOutcome,
                            calls: seq<Call>)
    requires Accounts(env, t, snap, prompt, maxTokens, out, calls) && |calls| == 2
    ensures out.callCount == 2
    ensures match env.respond(calls[1])
            case Failed(c) => out.status == RoleFailed && out.errorCategory == c
            case Returned(Undecodable) => out.status == RoleFailed && out.errorCategory == "invalid_json"
            case Returned(Decoded(fs)) =>
              if !StructureOk(fs) then out.status == RoleFailed && out.errorCategory == "schema_invalid"
              else if !CitesAll(fs, snap) then out.status == RoleFailed && out.errorCategory == "invalid_basis_ref"
              else out.status == RoleComplete && out.findings == fs && out.errorCategory == ""
  {
    hide StructureOk, CitesAll, BackoffEnds, DeadlineKept, Fits;
  }

  /** When no call is made at all, and why. */
  lemma NoCallDecides(env: Env, t: CallTiming, snap: Snapshot, prompt: Prompt, maxTokens: int, out: RoleOutcome,
                      calls: seq<Call>)
    requires Accounts(env, t, snap, prompt, maxTokens, out, calls)
    ensures var over := prompt.Assembled? && maxTokens > 0 && prompt.tokens > maxTokens;
            && (calls == [] <==> prompt.BuildFailed? || over || !TimeLeft(t, env.now(AtStart)))
            && (calls == [] ==>
                  && out.status == RoleFailed && out.callCount == 0 && out.findings == []
                  && out.errorCategory == if prompt.BuildFailed? then "schema_invalid"
                                          else if over then "budget_exhausted" else "timeout")
  {
    hide StructureOk, CitesAll, BackoffEnds, DeadlineKept, BodyCategory;
  }

  datatype Publication = Success(success: SuccessParams) | Failure(failure: FailureParams)

  function Clamp(n: int, low: int, high: int): int
  {
    if n < low then low else if n > high then high else n
  }

  /** What the supervisor publishes for an outcome. */
  function PublicationOf(out: RoleOutcome, message: string, project: string, sid: string, rid: string): Publication
  {
    if out.status.RoleComplete? then
      Success(SuccessParams(project, sid, rid, Some(out.role), out.findings,
                            Clamp(out.callCount, 1, MAX_PROVIDER_CALLS_PER_ROLE)))
    else
      Failure(FailureParams(project, sid, rid, Some(out.role), out.errorCategory, message,
                            Clamp(out.callCount, 0, MAX_PROVIDER_CALLS_PER_ROLE)))
  }

  /** The last call was answered by a provider error outside the canonical categories. */
  predicate OddCategory(env: Env, calls: seq<Call>)
  {
    calls != [] && var last := env.respond(calls[|calls| - 1]); last.Failed? && !IsValidErrorCategory(last.category)
  }

  /**
   * The hand-off: every complete outcome passes the publication validator, cites the snapshot and fits the
   * tables; a failed one passes unless the provider's last error carried a category of its own making.
   */
  lemma HandoffPasses(env: Env, t: CallTiming, id: string, units: seq<Unit>, prompt: Prompt, maxTokens: int,
                      out: RoleOutcome, calls: seq<Call>, message: string, project: string, sid: string, rid: string)
    requires Freezable(id, units) && Accounts(env, t, Frozen(id, units), prompt, maxTokens, out, calls)
    requires !Blank(sid) && !Blank(rid)
    ensures match PublicationOf(out, message, project, sid, rid)
            case Success(p) =>
              && SuccessOk(p) && CitesAll(p.findings, Frozen(id, units)) && p.callCount == out.callCount == |calls|
              && forall f :: f in p.findings ==> TableRowOk(f)
            case Failure(p) =>
              p.callCount == out.callCount && (FailureOk(p) <==> !OddCategory(env, calls))
  {
    hide StructureOk, CitesAll, BackoffEnds, Blank, DeadlineKept, Freezable, Frozen, TableRowOk;
    var snap := Frozen(id, units);
    CallBound(env, t, snap, prompt, maxTokens, out, calls);
    if out.status.RoleComplete? {
      var fs := env.respond(calls[|calls| - 1]).body.findings;
      forall f | f in fs ensures TableRowOk(f) {
        AcceptedTableRowOk(fs, id, units, f);
      }
    }
  }

  /**
   * What is published is what the run accounts for: its findings and count, or its category and count with the message;
   * the bounds the supervisor puts on the count never bite.
   */
  lemma HandsOver(env: Env, t: CallTiming, snap: Snapshot, prompt: Prompt, maxTokens: int, out: RoleOutcome,
                  calls: seq<Call>, message: string, project: string, sid: string, rid: string)
    requires Accounts(env, t, snap, prompt, maxTokens, out, calls)
    ensures PublicationOf(out, message, project, sid, rid)
         == if out.status == RoleComplete then
              Success(SuccessParams(project, sid, rid, Some(out.role), out.findings, out.callCount))
            else Failure(FailureParams(project, sid, rid, Some(out.role), out.errorCategory, message, out.callCount))
  {
    hide Accepted, StructureOk, BackoffEnds, DeadlineKept;
    CallBound(env, t, snap, prompt, maxTokens, out, calls);
  }
}
