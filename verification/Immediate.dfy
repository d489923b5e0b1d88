/** internal/storage/sqlite/immediate.go: one transaction with bounded retries. */
module Immediate {
  import opened Options

  // ---- The retry policy -------------------------------------------------------------------

  const MAX_ALLOWED_RETRIES := 100
  const MAX_ALLOWED_BACKOFF := 30_000_000_000

  /** Backoffs are in nanoseconds. */
  datatype RetryPolicy = RetryPolicy(maxRetries: int, initialBackoff: int, maxBackoff: int, factor: real)

  predicate ValidPolicy(p: RetryPolicy)
  {
    && 0 <= p.maxRetries <= MAX_ALLOWED_RETRIES && p.factor >= 0.0
    && 0 <= p.initialBackoff <= p.maxBackoff <= MAX_ALLOWED_BACKOFF
  }

  method Validate(p: RetryPolicy) returns (ok: bool)
    ensures ok == ValidPolicy(p)
  {
    if p.maxRetries < 0 || p.maxRetries > MAX_ALLOWED_RETRIES {
      return false;
    }
    if p.initialBackoff < 0 || p.maxBackoff < p.initialBackoff || p.maxBackoff > MAX_ALLOWED_BACKOFF {
      return false;
    }
    return !(p.factor < 0.0);
  }

  function Power(x: real, n: nat): real
  {
    if n == 0 then 1.0 else x * Power(x, n - 1)
  }

  lemma {:induction false} PowerGrows(x: real, n: nat)
    requires x >= 1.0
    ensures Power(x, n) >= 1.0
  {
    if n > 0 {
      PowerGrows(x, n - 1);
      Product(x, Power(x, n - 1));
    }
  }

  lemma Product(x: real, y: real)
    requires x >= 1.0 && y >= 1.0
    ensures x * y >= y
  {
  }

  lemma {:induction false} PowerNonNegative(x: real, n: nat)
    requires x >= 0.0
    ensures Power(x, n) >= 0.0
  {
    if n > 0 {
      PowerNonNegative(x, n - 1);
    }
  }

  /** A factor of zero or less stands for two. */
  function Factor(p: RetryPolicy): real
  {
    if p.factor <= 0.0 then 2.0 else p.factor
  }

  /** The conversion to a whole duration, with the cap on either side of it. */
  function Capped(d: real, most: int): int
  {
    if d > most as real then most else if d.Floor > most then most else d.Floor
  }

  function Grown(p: RetryPolicy, retry: nat): real
    requires retry > 0
  {
    p.initialBackoff as real * Power(Factor(p), retry - 1)
  }

  function BackoffDuration(p: RetryPolicy, retry: int): int
  {
    if p.initialBackoff <= 0 || retry <= 0 then 0 else Capped(Grown(p, retry), p.maxBackoff)
  }

  lemma GrownBounds(p: RetryPolicy, retry: nat)
    requires ValidPolicy(p) && retry > 0
    ensures Grown(p, retry) >= 0.0
    ensures Factor(p) >= 1.0 ==> Grown(p, retry) >= p.initialBackoff as real
  {
    hide Power, Factor;
    FactorPositive(p);
    var first, growth := p.initialBackoff as real, Power(Factor(p), retry - 1);
    PowerNonNegative(Factor(p), retry - 1);
    Scaled(first, growth);
    if Factor(p) >= 1.0 {
      PowerGrows(Factor(p), retry - 1);
      Scaled(first, growth);
      assert first * growth >= first;
    }
  }

  lemma FactorPositive(p: RetryPolicy)
    ensures Factor(p) > 0.0
  {
  }

  lemma CappedBounds(d: real, least: int, most: int)
    requires 0.0 <= d && 0 <= least <= most
    ensures 0 <= Capped(d, most) <= most
    ensures d >= least as real ==> Capped(d, most) >= least
  {
    var whole := d.Floor;
    assert whole as real <= d && d < (whole + 1) as real;
    if d >= least as real {
      assert (whole + 1) as real > least as real;
    }
  }

  lemma Scaled(a: real, b: real)
    requires a >= 0.0 && b >= 0.0
    ensures a * b >= 0.0 && (b >= 1.0 ==> a * b >= a)
  {
  }

  /** Every pause is within bounds, and with a factor of at least one none is shorter than the first. */
  lemma BackoffBounded(p: RetryPolicy, retry: int)
    requires ValidPolicy(p)
    ensures 0 <= BackoffDuration(p, retry) <= p.maxBackoff
    ensures retry > 0 && Factor(p) >= 1.0 ==> BackoffDuration(p, retry) >= p.initialBackoff
  {
    hide Grown, Capped, Factor;
    if p.initialBackoff > 0 && retry > 0 {
      GrownBounds(p, retry);
      CappedBounds(Grown(p, retry), p.initialBackoff, p.maxBackoff);
    }
  }

  // ---- One attempt --------------------------------------------------------------------------

  datatype Fault = Busy | ContextDone | OtherFault(code: int)

  /** What one attempt meets: context checks, the connection, BEGIN, the callback, COMMIT, ROLLBACK. */
  datatype Attempt<!S> = Attempt(liveBefore: bool, connect: Option<Fault>, begin: Option<Fault>,
                                 callback: S -> Result<S, Fault>, liveAfter: bool, commit: Option<Fault>,
                                 rollbackOk: bool)

  /** A database: what is committed, and what the open transaction has made of it. */
  class Connection<S> {
    var committed: S
    var open: Option<S>
    var poisoned: bool

    constructor (initial: S)
      ensures committed == initial && open == None && !poisoned
    {
      committed, open, poisoned := initial, None, false;
    }
  }

  /** The attempt reaches COMMIT and COMMIT succeeds. */
  predicate Commits<S>(a: Attempt<S>, s: S)
  {
    a.liveBefore && a.connect.None? && a.begin.None? && a.callback(s).Ok? && a.liveAfter && a.commit.None?
  }

  /** BEGIN IMMEDIATE succeeds. */
  predicate Begins<S>(a: Attempt<S>)
  {
    a.liveBefore && a.connect.None? && a.begin.None?
  }

  /** The first thing that goes wrong. */
  function FaultOf<S>(a: Attempt<S>, s: S): Fault
    requires !Commits(a, s)
  {
    if !a.liveBefore then ContextDone
    else if a.connect.Some? then a.connect.value
    else if a.begin.Some? then a.begin.value
    else if a.callback(s).Err? then a.callback(s).error
    else if !a.liveAfter then ContextDone
    else a.commit.value
  }

  /**
   * All or nothing: the committed state becomes what the callback makes of it when the attempt succeeds and
   * stays as it was otherwise. A transaction that is not committed is rolled back, and the connection is
   * poisoned when the rollback fails.
   */
  method RunAttempt<S>(db: Connection<S>, a: Attempt<S>) returns (fault: Option<Fault>)
    requires db.open == None
    modifies db
    ensures db.open == None
    ensures fault.None? <==> Commits(a, old(db.committed))
    ensures fault.Some? ==> fault.value == FaultOf(a, old(db.committed)) && db.committed == old(db.committed)
    ensures fault.None? ==> db.committed == a.callback(old(db.committed)).value
    ensures db.poisoned == (old(db.poisoned) || (Begins(a) && fault.Some? && !a.rollbackOk))
  {
    if !a.liveBefore {
      return Some(ContextDone);
    }
    if a.connect.Some? {
      return a.connect;
    }
    var begun, committed := false, false;
    fault := None;
    if a.begin.Some? {
      fault := a.begin;
    } else {
      begun := true;
      db.open := Some(db.committed);
      var result := a.callback(db.open.value);
      if result.Err? {
        fault := Some(result.error);
      } else {
        db.open := Some(result.value);
        if !a.liveAfter {
          fault := Some(ContextDone);
        } else if a.commit.Some? {
          fault := a.commit;
        } else {
          db.committed := db.open.value;
          committed := true;
        }
      }
    }
    // Deferred: roll back what was begun and not committed.
    if begun && !committed {
      if !a.rollbackOk {
        db.poisoned := true;
      }
    }
    db.open := None;
  }

  // ---- The retry loop --------------------------------------------------------------------------

  datatype Failure = BadPolicy | Stopped(fault: Fault) | Unavailable(attempts: nat)

  /** Attempt number i, from 1, failed for a busy or locked database. */
  predicate WasBusy<S>(attempts: nat -> Attempt<S>, s: S, i: nat)
  {
    !Commits(attempts(i), s) && FaultOf(attempts(i), s) == Busy
  }

  /**
   * Exactly once or not at all. made counts the attempts and slept adds up the pauses; live tells whether the
   * context is alive at the check before an attempt, and wakes whether a pause runs to its end.
   */
  method WithImmediate<S>(db: Connection<S>, p: RetryPolicy, attempts: nat -> Attempt<S>, live: nat -> bool,
                          wakes: nat -> bool)
    returns (failure: Option<Failure>, made: nat, slept: int)
    requires db.open == None
    modifies db
    ensures db.open == None && (made > 0 ==> made <= 1 + p.maxRetries)
    ensures failure.None? ==>
              made > 0 && Commits(attempts(made), old(db.committed))
              && db.committed == attempts(made).callback(old(db.committed)).value
    ensures failure.Some? ==> db.committed == old(db.committed)
    ensures forall i :: 1 <= i < made ==> WasBusy(attempts, old(db.committed), i)
    ensures failure == Some(BadPolicy) <==> !ValidPolicy(p)
    ensures failure.Some? && failure.value.Stopped? ==>
              if made > 0 && !WasBusy(attempts, old(db.committed), made) then
                !Commits(attempts(made), old(db.committed))
                  && failure.value.fault == FaultOf(attempts(made), old(db.committed))
              else
                failure.value.fault == ContextDone && made < 1 + p.maxRetries
                  && !(live(made + 1) && (made > 0 ==> wakes(made)))
    ensures failure.Some? && failure.value.Unavailable? ==>
            made == 1 + p.maxRetries && WasBusy(attempts, old(db.committed), made)
    ensures ValidPolicy(p) ==> slept <= p.maxRetries * p.maxBackoff
    ensures failure.None? ==> slept == Pauses(p, made - 1)
    ensures failure.Some? && failure.value.Unavailable? ==> slept == Pauses(p, p.maxRetries)
  {
    made, slept := 0, 0;
    var valid := Validate(p);
    if !valid {
      return Some(BadPolicy), 0, 0;
    }
    var maxAttempts := 1 + p.maxRetries;
    while made < maxAttempts
      invariant 0 <= made <= maxAttempts && db.open == None && db.committed == old(db.committed)
      invariant forall i :: 1 <= i <= made ==> WasBusy(attempts, old(db.committed), i)
      invariant forall i :: 1 <= i <= made ==> wakes(i)
      invariant slept == Pauses(p, made) && made < maxAttempts
    {
      PausesBounded(p, made, p.maxRetries);
      if !live(made + 1) {
        return Some(Stopped(ContextDone)), made, slept;
      }
      made := made + 1;
      var fault := RunAttempt(db, attempts(made));
      if fault.None? {
        return None, made, slept;
      }
      if fault.value != Busy {
        return Some(Stopped(fault.value)), made, slept;
      }
      if made >= maxAttempts {
        break;
      }
      slept := slept + BackoffDuration(p, made);
      if !wakes(made) {
        PausesBounded(p, made, p.maxRetries);
        return Some(Stopped(ContextDone)), made, slept;
      }
    }
    return Some(Unavailable(maxAttempts)), made, slept;
  }

  /** The pauses after the first n attempts. */
  function Pauses(p: RetryPolicy, n: int): int
  {
    if n <= 0 then 0 else Pauses(p, n - 1) + BackoffDuration(p, n)
  }

  lemma {:induction false} PausesBounded(p: RetryPolicy, n: nat, retries: nat)
    requires ValidPolicy(p) && n <= retries
    ensures 0 <= Pauses(p, n) <= n * p.maxBackoff <= retries * p.maxBackoff
  {
    hide BackoffDuration;
    NextPause(n, p.maxBackoff);
    MorePauses(n, retries, p.maxBackoff);
    if n > 0 {
      PausesBounded(p, n - 1, retries);
      BackoffBounded(p, n);
    }
  }

  lemma MorePauses(n: nat, retries: nat, most: nat)
    requires n <= retries
    ensures n * most <= retries * most
  {
  }

  lemma NextPause(n: nat, most: nat)
    ensures n > 0 ==> (n - 1) * most + most == n * most
  {
  }

  // ---- How pauses grow ----------------------------------------------------------------------------------------

  /** The first pause is the initial backoff. */
  lemma FirstPause(p: RetryPolicy)
    requires ValidPolicy(p)
    ensures BackoffDuration(p, 1) == p.initialBackoff
  {
    assert Power(Factor(p), 0) == 1.0;
    assert p.initialBackoff > 0 ==> Grown(p, 1) == p.initialBackoff as real;
  }

  /** With the factor two, which a factor of zero stands for, each pause doubles the one before until the maximum. */
  lemma PausesDouble(p: RetryPolicy, retry: nat)
    requires ValidPolicy(p) && (p.factor == 0.0 || p.factor == 2.0) && retry > 0
    ensures BackoffDuration(p, retry + 1)
         == if 2 * BackoffDuration(p, retry) > p.maxBackoff then p.maxBackoff else 2 * BackoffDuration(p, retry)
  {
    hide BackoffDuration, TwoTo;
    PauseIs(p, retry);
    PauseIs(p, retry + 1);
    TwiceAsMuch(retry);
    Twice(p.initialBackoff, TwoTo(retry - 1));
  }

  lemma PauseIs(p: RetryPolicy, retry: nat)
    requires ValidPolicy(p) && (p.factor == 0.0 || p.factor == 2.0) && retry > 0
    ensures var n := p.initialBackoff * TwoTo(retry - 1);
            BackoffDuration(p, retry) == if n > p.maxBackoff then p.maxBackoff else n
  {
    hide Power, Capped, TwoTo;
    if p.initialBackoff > 0 {
      PowersOfTwo(retry - 1);
      Product2(p.initialBackoff, TwoTo(retry - 1));
      CappedWhole(p.initialBackoff * TwoTo(retry - 1), p.maxBackoff);
      assert Factor(p) == 2.0;
      assert Grown(p, retry) == (p.initialBackoff * TwoTo(retry - 1)) as real;
    } else {
      Twice(0, TwoTo(retry - 1));
    }
  }

  lemma TwiceAsMuch(n: nat)
    requires n > 0
    ensures TwoTo(n) == 2 * TwoTo(n - 1)
  {
  }

  function TwoTo(n: nat): nat
  {
    if n == 0 then 1 else 2 * TwoTo(n - 1)
  }

  lemma {:induction false} PowersOfTwo(n: nat)
    ensures Power(2.0, n) == TwoTo(n) as real
  {
    if n > 0 {
      PowersOfTwo(n - 1);
    }
  }

  lemma Twice(a: int, b: nat)
    ensures a * (2 * b) == 2 * (a * b)
  {
  }

  lemma Product2(a: int, b: nat)
    ensures a as real * b as real == (a * b) as real
  {
  }

  lemma CappedWhole(n: int, most: int)
    ensures Capped(n as real, most) == if n > most then most else n
  {
    assert (n as real).Floor == n;
  }

  // ---- The policy and the faults by their values -----------------------------------------------------------------

  /** At most a hundred retries, and no pause over thirty seconds. */
  lemma PolicyBounds(p: RetryPolicy)
    ensures ValidPolicy(p) <==>
              && 0 <= p.maxRetries <= 100 && 0 <= p.initialBackoff <= p.maxBackoff <= 30 * 1_000_000_000
              && p.factor >= 0.0
  {
  }

  /** An attempt whose context ends before the commit commits nothing, and the fault told is the first there was. */
  lemma FirstFault<S>(a: Attempt<S>, s: S)
    ensures Commits(a, s) ==> a.liveBefore && a.liveAfter && a.callback(s).Ok?
    ensures Commits(a, s) <==> a.liveBefore && Reaches(a, s) && a.commit == None
    ensures !a.liveBefore ==> !Commits(a, s) && FaultOf(a, s) == ContextDone
    ensures a.liveBefore && a.connect.Some? ==> !Commits(a, s) && FaultOf(a, s) == a.connect.value
    ensures a.liveBefore && a.connect == None && a.begin.Some? ==> !Commits(a, s) && FaultOf(a, s) == a.begin.value
    ensures Begins(a) && a.callback(s).Err? ==> !Commits(a, s) && FaultOf(a, s) == a.callback(s).error
    ensures Begins(a) && a.callback(s).Ok? && !a.liveAfter ==> !Commits(a, s) && FaultOf(a, s) == ContextDone
    ensures a.liveBefore && Reaches(a, s) && a.commit.Some? ==> !Commits(a, s) && FaultOf(a, s) == a.commit.value
  {
  }

  /** The attempt gets as far as COMMIT. */
  predicate Reaches<S>(a: Attempt<S>, s: S)
  {
    a.connect == None && a.begin == None && a.callback(s).Ok? && a.liveAfter
  }
}
