/** internal/worker/dispatch.go: the owner loop's state and steps, over the store it reserves from. */
module Dispatch {
  import opened Options
  import opened Text
  import opened Domain
  import opened Timestamps
  import opened Records
  import opened Database
  import opened SqliteStore
  import opened DbInvariant
  import DbEffects
  import RowEffects

  const WAKE_CAPACITY := 1
  const TICK_CAPACITY := 1
  const COMPLETION_CAPACITY := 8

  /** Why a step reserved nothing, or what it reserved. */
  datatype Decision = FastCancelled | FastCutoff | FastNoPending | FastCapacity(inFlight: nat)
                    | Refused(result: ReserveResult) | Granted(role: Role, inFlight: nat)

  datatype TraceEntry = TraceEntry(at: Instant, decision: Decision)

  /** The status the fast path looks at, when the read succeeds. */
  datatype Status = Status(cancelRequested: bool, cutoffAt: Option<Instant>, hasPending: bool)

  function StatusOf(db: Db, sid: string): Status
    requires sid in db.sessions
  {
    Status(db.sessions[sid].cancelRequested, db.sessions[sid].cutoffAt, FirstOf(RolesOf(db, sid), Pending).Some?)
  }

  /** What the fast path answers by itself, in canonical order. */
  function FastPath(status: Option<Status>, local: nat, now: Instant): Option<Decision>
  {
    if status.Some? && status.value.cancelRequested then Some(FastCancelled)
    else if status.Some? && status.value.cutoffAt.Some? && now >= status.value.cutoffAt.value then Some(FastCutoff)
    else if status.Some? && !status.value.hasPending then Some(FastNoPending)
    else if local >= MAX_IN_FLIGHT then Some(FastCapacity(local))
    else None
  }

  class Dispatcher {
    const sid: string
    const store: Store
    var localInFlight: nat
    var stopped: bool
    var wakeCh: nat
    var tickCh: nat
    var compCh: seq<Role>
    var trace: seq<TraceEntry>

    ghost predicate Valid()
      reads this, store
    {
      store.Valid() && wakeCh <= WAKE_CAPACITY && tickCh <= TICK_CAPACITY && |compCh| <= COMPLETION_CAPACITY
    }

    constructor (sid: string, store: Store)
      requires store.Valid()
      ensures Valid() && this.sid == sid && this.store == store
      ensures localInFlight == 0 && !stopped && wakeCh == 0 && tickCh == 0 && compCh == [] && trace == []
    {
      this.sid, this.store := sid, store;
      localInFlight, stopped, wakeCh, tickCh, compCh, trace := 0, false, 0, 0, [], [];
    }

    /** Signals never block: a full channel already carries the signal. */
    method Wake()
      requires Valid()
      modifies this`wakeCh
      ensures Valid() && (if stopped then wakeCh == old(wakeCh) else wakeCh == WAKE_CAPACITY)
    {
      if !stopped && wakeCh < WAKE_CAPACITY {
        wakeCh := wakeCh + 1;
      }
    }

    method Tick()
      requires Valid()
      modifies this`tickCh
      ensures Valid() && (if stopped then tickCh == old(tickCh) else tickCh == TICK_CAPACITY)
    {
      if !stopped && tickCh < TICK_CAPACITY {
        tickCh := tickCh + 1;
      }
    }

    /** Frees a slot, then leaves at least one completion for the owner to find, unless stopped. */
    method NotifyRoleCompleted(role: Role)
      requires Valid()
      modifies this`localInFlight, this`compCh
      ensures Valid() && localInFlight == if old(localInFlight) > 0 then old(localInFlight) - 1 else 0
      ensures stopped ==> compCh == old(compCh)
      ensures !stopped ==>
                compCh != []
                && (compCh == old(compCh) + [role] || (compCh == old(compCh) && |compCh| == COMPLETION_CAPACITY))
    {
      if localInFlight > 0 {
        localInFlight := localInFlight - 1;
      }
      if !stopped && |compCh| < COMPLETION_CAPACITY {
        compCh := compCh + [role];
      }
    }

    method Stop()
      requires Valid()
      modifies this`stopped
      ensures Valid() && stopped
    {
      stopped := true;
    }

    /**
     * One decision. readable tells whether the status read succeeded; at is the fast path's clock and
     * reservedAt the store's. A step reserves at most one role, through one guarded reservation, and never
     * asks the store when the fast path has the answer.
     */
    method Step(readable: bool, at: Instant, reservedAt: Instant) returns (reserved: Option<Role>, failed: bool)
      requires Valid() && sid in store.sessions
      modifies this`localInFlight, this`trace, store`roles, store`history
      ensures Valid() && store.State() == old(store.State()).(roles := store.roles)
      ensures var status := if readable then Some(StatusOf(old(store.State()), sid)) else None;
              var fast := FastPath(status, old(localInFlight), at);
              var o := Reserve(old(store.State()), "", sid, reservedAt);
              if fast.Some? then
                store.State() == old(store.State()) && store.history == old(store.history) && reserved.None? && !failed
                && localInFlight == old(localInFlight) && trace == old(trace) + [TraceEntry(at, fast.value)]
              else
                && store.State() == o.db && store.history == old(store.history) + [ReserveStep("", sid, reservedAt)]
                && failed == (o.result.ReserveNotFound? || o.result.ReserveMalformed?)
                && (if o.result.Reserved? then
                      reserved == Some(o.result.role) && localInFlight == old(localInFlight) + 1 <= MAX_IN_FLIGHT
                      && trace == old(trace) + [TraceEntry(at, Granted(o.result.role, localInFlight))]
                    else
                      reserved.None? && localInFlight == old(localInFlight) && store.State() == old(store.State())
                      && trace == if failed then old(trace) else old(trace) + [TraceEntry(at, Refused(o.result))])
    {
      hide Exec, Reserve;
      reserved, failed := None, false;
      var status := if readable then Some(StatusOf(store.State(), sid)) else None;
      var fast := FastPath(status, localInFlight, at);
      RefusedUnchanged(store.State(), sid, reservedAt);
      if fast.Some? {
        trace := trace + [TraceEntry(at, fast.value)];
        return;
      }
      var result := store.ReservePendingRole("", sid, reservedAt);
      if result.ReserveNotFound? || result.ReserveMalformed? {
        failed := true;
        return;
      }
      if result.Reserved? {
        localInFlight := localInFlight + 1;
        trace := trace + [TraceEntry(at, Granted(result.role, localInFlight))];
        reserved := Some(result.role);
      } else {
        trace := trace + [TraceEntry(at, Refused(result))];
      }
    }

    lemma RefusedUnchanged(db: Db, sid: string, at: Instant)
      ensures !Reserve(db, "", sid, at).result.Reserved? ==> Reserve(db, "", sid, at).db == db
      ensures Reserve(db, "", sid, at).db == db.(roles := Reserve(db, "", sid, at).db.roles)
      ensures Reserve(db, "", sid, at).db.roles.Keys >= db.roles.Keys
    {
      hide Blank, CountOf;
    }

    /**
     * The drain loop of Run: it steps until one step reserves nothing, the context ends or the dispatcher is
     * stopped. The functions give what each step's status read and clocks and each context check answer. The
     * roles it starts are the first pending ones in canonical order and nothing else changes, and the local
     * count bounds them whatever the clocks say.
     */
    method Drain(live: nat -> bool, readable: nat -> bool, at: nat -> Instant, reservedAt: nat -> Instant)
      returns (reserved: seq<Role>, end: DrainEnd)
      requires Valid() && sid in store.sessions && localInFlight <= MAX_IN_FLIGHT
      modifies this`localInFlight, this`trace, store`roles, store`history
      ensures Valid() && sid in store.sessions && store.State() == old(store.State()).(roles := store.roles)
      ensures FirstsStarted(RolesOf(old(store.State()), sid), RolesOf(store.State(), sid), reserved)
      ensures localInFlight == old(localInFlight) + |reserved| <= MAX_IN_FLIGHT
      ensures end == NotLive <==> stopped || exists i: nat :: i <= |reserved| && !live(i)
      ensures |trace| == old(|trace|) + |reserved| + (if end == Settled then 1 else 0) && old(trace) <= trace
      ensures forall i :: 0 <= i < |reserved| ==>
                trace[old(|trace|) + i] == TraceEntry(at(i), Granted(reserved[i], old(localInFlight) + i + 1))
      ensures end == Settled ==> !trace[|trace| - 1].decision.Granted?
    {
      hide Exec, Reserve, FastPath, Is;
      reserved := [];
      ghost var rows, count := RolesOf(store.State(), sid), |trace|;
      NothingStarted(rows);
      while true
        invariant Valid() && sid in store.sessions && store.State() == old(store.State()).(roles := store.roles)
        invariant FirstsStarted(rows, RolesOf(store.State(), sid), reserved)
        invariant !stopped || reserved == []
        invariant forall i: nat :: i < |reserved| ==> live(i)
        invariant localInFlight == old(localInFlight) + |reserved| <= MAX_IN_FLIGHT
        invariant |trace| == count + |reserved| && old(trace) <= trace
        invariant forall i :: 0 <= i < |reserved| ==>
                    trace[count + i] == TraceEntry(at(i), Granted(reserved[i], old(localInFlight) + i + 1))
        decreases MAX_IN_FLIGHT - localInFlight
      {
        var n := |reserved|;
        if !live(n) || stopped {
          return reserved, NotLive;
        }
        assert forall i: nat :: i <= n ==> live(i);
        ghost var db := store.State();
        var r, failed := Step(readable(n), at(n), reservedAt(n));
        if failed {
          RefusedUnchanged(db, sid, reservedAt(n));
          return reserved, StoreFailed;
        }
        if r.None? {
          FastIsNotGranted(if readable(n) then Some(StatusOf(db, sid)) else None, localInFlight, at(n));
          return reserved, Settled;
        }
        OneMoreStarted(rows, db, reserved, sid, reservedAt(n));
        reserved := reserved + [r.value];
      }
    }

    lemma FastIsNotGranted(status: Option<Status>, local: nat, now: Instant)
      ensures FastPath(status, local, now).Some? ==> !FastPath(status, local, now).value.Granted?
    {
    }
  }

  /** How a drain ends: a step reserved nothing, the store failed, or the context or the dispatcher was done. */
  datatype DrainEnd = Settled | StoreFailed | NotLive

  /** The reserved roles went from pending to in flight, first ones first, and no other row changed. */
  ghost predicate FirstsStarted(before: RoleMap, after: RoleMap, reserved: seq<Role>)
  {
    RowsStarted(before, after, reserved) && InOrder(after, reserved)
  }

  ghost predicate RowsStarted(before: RoleMap, after: RoleMap, reserved: seq<Role>)
  {
    && after.Keys == before.Keys
    && (forall r :: r in reserved ==> Is(before, r, Pending) && Is(after, r, InFlight))
    && (forall r :: r in before && r !in reserved ==> after[r] == before[r])
  }

  ghost predicate InOrder(after: RoleMap, reserved: seq<Role>)
  {
    && (forall i, j :: 0 <= i < j < |reserved| ==> RoleOrder(reserved[i]) < RoleOrder(reserved[j]))
    && (forall r, q :: r in reserved && Is(after, q, Pending) ==> RoleOrder(r) < RoleOrder(q))
  }

  lemma NothingStarted(rs: RoleMap)
    ensures FirstsStarted(rs, rs, [])
  {
  }

  lemma OneMoreStarted(before: RoleMap, db: Db, reserved: seq<Role>, sid: string, at: Instant)
    requires FirstsStarted(before, RolesOf(db, sid), reserved) && Reserve(db, "", sid, at).result.Reserved?
    ensures FirstsStarted(before, RolesOf(Reserve(db, "", sid, at).db, sid),
                          reserved + [Reserve(db, "", sid, at).result.role])
  {
    hide FirstsStarted, Reserve, FirstOf, RolesOf;
    var r, rs := Reserve(db, "", sid, at).result.role, RolesOf(db, sid);
    ReservedFirst(db, sid, at);
    DbEffects.ReserveEffect(db, sid, at);
    forall q | Is(rs, q, Pending) && q != r ensures RoleOrder(r) < RoleOrder(q) {
      FirstOfMeaning(rs, Pending, q);
    }
    FirstStarted(before, rs, reserved, r, Database.Started(rs[r], at));
  }

  lemma ReservedFirst(db: Db, sid: string, at: Instant)
    requires Reserve(db, "", sid, at).result.Reserved?
    ensures FirstOf(RolesOf(db, sid), Pending) == Some(Reserve(db, "", sid, at).result.role)
  {
    hide FirstOf, CountOf, Blank, RolesOf, SetRun;
  }

  lemma FirstStarted(before: RoleMap, rs: RoleMap, reserved: seq<Role>, r: Role, run: RoleRun)
    requires FirstsStarted(before, rs, reserved) && Is(rs, r, Pending) && run.status.InFlight?
    requires forall q :: Is(rs, q, Pending) && q != r ==> RoleOrder(r) < RoleOrder(q)
    ensures FirstsStarted(before, rs[r := run], reserved + [r])
  {
    hide RoleOrder;
    RowStarted(before, rs, reserved, r, run);
    var next, all := rs[r := run], reserved + [r];
    forall i, j | 0 <= i < j < |all| ensures RoleOrder(all[i]) < RoleOrder(all[j]) {
      assert all[i] in reserved;
    }
    forall q, p | q in all && Is(next, p, Pending) ensures RoleOrder(q) < RoleOrder(p) {
      assert Is(rs, p, Pending) && p != r && (q != r ==> q in reserved);
    }
  }

  lemma RowStarted(before: RoleMap, rs: RoleMap, reserved: seq<Role>, r: Role, run: RoleRun)
    requires RowsStarted(before, rs, reserved) && Is(rs, r, Pending) && run.status.InFlight?
    ensures RowsStarted(before, rs[r := run], reserved + [r])
  {
    var next, all := rs[r := run], reserved + [r];
    assert r !in reserved;
    forall q | q in all ensures Is(before, q, Pending) && Is(next, q, InFlight) {
      assert q != r ==> q in reserved;
    }
  }

  // ---- The fast path against the store -----------------------------------------------------------------------

  /** The fast path looks for a cancellation, the cutoff, a pending role and a free slot, in this order. */
  lemma FastPathExact(status: Option<Status>, local: nat, now: Instant)
    ensures var fast := FastPath(status, local, now);
            var cancelled := status.Some? && status.value.cancelRequested;
            var cut := status.Some? && status.value.cutoffAt.Some? && now >= status.value.cutoffAt.value;
            var idle := status.Some? && !status.value.hasPending;
            && (fast == Some(FastCancelled) <==> cancelled)
            && (fast == Some(FastCutoff) <==> cut && !cancelled)
            && (fast == Some(FastNoPending) <==> idle && !cut && !cancelled)
            && (fast == Some(FastCapacity(local)) <==> local >= 2 && !idle && !cut && !cancelled)
            && (fast == None <==> local < 2 && !idle && !cut && !cancelled)
  {
  }

  /**
   * The fast path agrees with the store: asked at the same time, of the same rows, with the local count right, it
   * passes the question on exactly when the reservation succeeds, and otherwise it gives the store's reason; only
   * where no role is pending and no slot is free does the store name the slot first.
   */
  lemma FastPathAgrees(db: Db, sid: string, at: Instant)
    requires Inv(db) && !Blank(sid) && sid in db.sessions && db.sessions[sid].status == Reviewing && sid in db.roles
    ensures var local := |RowEffects.RolesIn(db, sid, InFlight)|;
            var fast, result := FastPath(Some(StatusOf(db, sid)), local, at), Reserve(db, "", sid, at).result;
            && (fast == None <==> result.Reserved?)
            && (fast == Some(FastCancelled) <==> result == Cancelled)
            && (fast == Some(FastCutoff) <==> result == Cutoff)
            && (fast == Some(FastCapacity(local)) ==> result == CapacityFull(local))
            && (result == NoPendingRole(local) ==> fast == Some(FastNoPending))
            && (fast == Some(FastNoPending) ==> result == NoPendingRole(local) || result == CapacityFull(local))
  {
    hide Inv, Blank, Reserve, FirstOf, StatusOf;
    RowEffects.ReserveExact(db, "", sid, at);
    RowEffects.FirstIs(db, sid);
    StatusIs(db, sid);
  }

  lemma StatusIs(db: Db, sid: string)
    requires sid in db.sessions && sid in db.roles
    ensures StatusOf(db, sid) == Status(db.sessions[sid].cancelRequested, db.sessions[sid].cutoffAt,
                                        FirstOf(db.roles[sid], Pending).Some?)
  {
    hide FirstOf;
  }
}
