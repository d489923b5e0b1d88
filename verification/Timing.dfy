/** The timing policy of internal/storage/sqlite/claim.go, and what it means for provider attempts. */
module Timing {
  import opened Options
  import opened RoleRunner

  const MAX_INT64: int := 0x7FFF_FFFF_FFFF_FFFF

  type Int64 = x: int | -MAX_INT64 - 1 <= x <= MAX_INT64

  datatype TimingPolicy = TimingPolicy(dispatchCutoff: Int64, callTimeout: Int64, sessionHardDeadline: Int64)

  datatype TimingFault = NonPositive | Overflow | DeadlineTooEarly

  /** Over the integers, where nothing overflows. */
  predicate ValidPolicy(p: TimingPolicy)
  {
    && p.dispatchCutoff > 0 && p.callTimeout > 0 && p.sessionHardDeadline > 0
    && p.sessionHardDeadline >= p.dispatchCutoff + p.callTimeout
  }

  /** Every intermediate value is an int64, and the verdict is the one over the integers. */
  method Validate(p: TimingPolicy) returns (fault: Option<TimingFault>)
    ensures fault.None? <==> ValidPolicy(p)
  {
    if p.dispatchCutoff <= 0 || p.callTimeout <= 0 || p.sessionHardDeadline <= 0 {
      return Some(NonPositive);
    }
    var headroom: Int64 := MAX_INT64 - p.callTimeout;
    if p.dispatchCutoff > headroom {
      return Some(Overflow);
    }
    var minDeadline: Int64 := p.dispatchCutoff + p.callTimeout;
    if p.sessionHardDeadline < minDeadline {
      return Some(DeadlineTooEarly);
    }
    return None;
  }

  /** A call made before the cutoff is due at its full timeout: the hard deadline never cuts it short. */
  lemma AttemptHasFullTimeout(p: TimingPolicy, claimedAt: int, t: CallTiming, c: Call)
    requires ValidPolicy(p) && t.callTimeout == p.callTimeout
    requires t.hardDeadline == Some(claimedAt + p.sessionHardDeadline) && DeadlineKept(t, c)
    requires c.madeAt <= claimedAt + p.dispatchCutoff
    ensures c.deadline == Some(c.madeAt + p.callTimeout)
  {
  }

  /** supervise.go runs both attempts under one context, due a call timeout after the role started. */
  function RoleDeadline(t: CallTiming, roleStart: int): int
    requires t.hardDeadline.Some?
  {
    var attempt := roleStart + t.callTimeout;
    if attempt > t.hardDeadline.value then t.hardDeadline.value else attempt
  }

  function EffectiveDeadline(t: CallTiming, roleStart: int, c: Call): int
    requires t.hardDeadline.Some? && c.deadline.Some?
  {
    Min(RoleDeadline(t, roleStart), c.deadline.value)
  }

  /**
   * Under the supervisor an attempt made before the cutoff gets its full timeout exactly when it is made no
   * later than the role started; every later one, so every second attempt, ends a timeout after the start.
   */
  lemma SupervisedAttemptIsCut(p: TimingPolicy, claimedAt: int, roleStart: int, t: CallTiming, c: Call)
    requires ValidPolicy(p) && t.callTimeout == p.callTimeout
    requires t.hardDeadline == Some(claimedAt + p.sessionHardDeadline) && DeadlineKept(t, c)
    requires roleStart <= claimedAt + p.dispatchCutoff && c.madeAt <= claimedAt + p.dispatchCutoff
    ensures EffectiveDeadline(t, roleStart, c) == c.madeAt + p.callTimeout <==> c.madeAt <= roleStart
    ensures c.madeAt > roleStart ==> EffectiveDeadline(t, roleStart, c) == roleStart + p.callTimeout
  {
    AttemptHasFullTimeout(p, claimedAt, t, c);
  }
}
