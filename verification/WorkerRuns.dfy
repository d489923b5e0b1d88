/** What the invariant says of every run of the worker, in any interleaving and across any number of crashes. */
module WorkerRuns {
  import opened Options
  import opened Text
  import opened Domain
  import opened Timestamps
  import opened Records
  import opened Database
  import opened DbInvariant
  import opened DbProgress
  import opened DbRuns
  import opened DbEffects
  import opened Worker
  import opened WorkerSafety
  import Dispatch

  const START: World := World(EMPTY, map[], None)

  /** Every action of the sequence is enabled when its turn comes. */
  ghost predicate IsRun(w: World, actions: seq<Action>)
    decreases |actions|, 0
  {
    actions == []
    || (IsRun(w, actions[..|actions| - 1]) && Enabled(After(w, actions[..|actions| - 1]), actions[|actions| - 1]))
  }

  ghost function After(w: World, actions: seq<Action>): World
    requires IsRun(w, actions)
    decreases |actions|, 1
  {
    if actions == [] then w else Do(After(w, actions[..|actions| - 1]), actions[|actions| - 1])
  }

  lemma StartOk()
    ensures WorldOk(START)
  {
    hide Inv;
    EmptyOk();
  }

  lemma {:induction false} RunKeeps(w: World, actions: seq<Action>)
    requires WorldOk(w) && IsRun(w, actions)
    ensures WorldOk(After(w, actions))
    decreases |actions|
  {
    hide WorldOk, Do, Enabled;
    if actions != [] {
      RunKeeps(w, actions[..|actions| - 1]);
      ActionKeeps(After(w, actions[..|actions| - 1]), actions[|actions| - 1]);
    }
  }

  // ---- Provider calls -----------------------------------------------------------------------

  /**
   * No silent replay, end to end: whatever is interleaved, crashes, restarts or is published late, a role of
   * a session is given at most two provider calls ever, and a session at most eight.
   */
  lemma CallsBounded(actions: seq<Action>, sid: string)
    requires IsRun(START, actions)
    ensures forall r :: CallsOf(After(START, actions), sid, r) <= 2
    ensures var w := After(START, actions);
            CallsOf(w, sid, Requirements) + CallsOf(w, sid, Architecture) + CallsOf(w, sid, QA)
              + CallsOf(w, sid, Security) <= 8
  {
    hide Inv, After, IsRun, WorkerOk, CallsOf, RankAt, RolesOf;
    StartOk();
    RunKeeps(START, actions);
    WorldCalls(After(START, actions), sid);
  }

  lemma WorldCalls(w: World, sid: string)
    requires WorldOk(w)
    ensures forall r :: CallsOf(w, sid, r) <= 2
  {
    hide Inv, WorkerOk, CallsOf, RankAt, RolesOf;
  }

  // ---- The dispatcher's books ------------------------------------------------------------------

  /** A role in flight is a counted slot or the one in the gap between commit and count. */
  lemma InFlightIsSlot(u: Worker, r: Role, status: RoleStatus, calls: nat)
    requires AllPcs(u.pcs) && RoleOk(u, r, status, calls) && status.InFlight?
    ensures Slot(u, r) || u.owner == Gap(r)
  {
  }

  function Gaps(u: Worker): nat
  {
    if u.owner.Gap? then 1 else 0
  }

  /** With one dispatcher, what the database has in flight is what the dispatcher counts, give or take the gap. */
  lemma PersistedWithinLocal(w: World, u: Worker)
    requires WorldOk(w) && w.worker == Some(u)
    ensures CountOf(RolesOf(w.db, u.sid), InFlight) <= u.local + Gaps(u)
  {
    hide WorldOk, RoleOk, Slot, CallsOf, RolesOf;
    WorkerParts(w, u);
    var rs := RolesOf(w.db, u.sid);
    forall r: Role ensures One(Is(rs, r, InFlight)) <= One(Slot(u, r)) + One(u.owner == Gap(r)) {
      RoleFacts(w, u, r);
      if Is(rs, r, InFlight) {
        InFlightIsSlot(u, r, rs[r].status, CallsOf(w, u.sid, r));
      }
    }
  }

  /** The count stays within the capacity, and below it whenever a reservation is under way. */
  predicate LocalOk(u: Worker)
  {
    u.local <= MAX_IN_FLIGHT && (u.owner.Reserving? || u.owner.Gap? ==> u.local < MAX_IN_FLIGHT)
  }

  lemma OwnerLocal(w: World, u: Worker, a: OwnerAction)
    requires u.sid in w.db.sessions && OwnerEnabled(u, a) && LocalOk(u)
    ensures var x := OwnerDo(w, u, a); x.worker.Some? && LocalOk(x.worker.value) && x.worker.value.comps >= u.comps - 1
    ensures var v := OwnerDo(w, u, a).worker.value;
            if a == Receive(Completion) then v.comps == u.comps - 1 && v.owner.Deciding? else v.comps == u.comps
  {
    hide Reserve, FastDecision;
    FastMoves(w.db, u, a);
  }

  lemma FastMoves(db: Db, u: Worker, o: OwnerAction)
    requires u.sid in db.sessions
    ensures o.Check? ==> var pc := FastDecision(db, u, o.readable, o.at); pc.Halted? || pc.Checked? || pc.Idle?
  {
    hide Dispatch.FastPath, Dispatch.StatusOf;
  }

  lemma RoleLocal(w: World, u: Worker, a: RoleAction)
    requires AllPcs(u.pcs) && u.sid in w.db.sessions && RoleEnabled(w, u, a) && LocalOk(u)
    ensures var x := RoleDo(w, u, a); x.worker.Some? && LocalOk(x.worker.value) && x.worker.value.comps >= u.comps
  {
    hide AllPcs, ExecutesTo, Publish, PublicationFor, CallsOf, StartOf;
  }

  lemma CoordLocal(w: World, u: Worker, a: CoordAction)
    requires AllPcs(u.pcs) && u.sid in w.db.sessions && CoordEnabled(w, u, a) && LocalOk(u)
    ensures var x := CoordDo(w, u, a); x.worker.Some? && LocalOk(x.worker.value) && x.worker.value.comps == u.comps
  {
    hide AllPcs, Readiness, SweepCancellation, ComposeSession;
  }

  /** No action takes the count past the capacity. */
  lemma LocalAction(w: World, u: Worker, a: Action)
    requires w.worker == Some(u) && Enabled(w, a) && LocalOk(u)
    ensures var x := Do(w, a); x.worker.Some? ==> LocalOk(x.worker.value)
  {
    hide Apply, AllPcs, IsForeign, OwnerDo, RoleDo, CoordDo, OwnerEnabled, RoleEnabled, CoordEnabled, LocalOk;
    match a
    case ByOwner(o) => OwnerLocal(w, u, o);
    case ByRole(o) => RoleLocal(w, u, o);
    case ByCoordinator(o) => CoordLocal(w, u, o);
    case _ =>
  }

  // ---- Completions are not lost -------------------------------------------------------------------

  /** A goroutine sends at most once and there are four, so the channel of eight is never full. */
  lemma SendNeverDropped(w: World, u: Worker, r: Role)
    requires WorldOk(w) && w.worker == Some(u) && AllPcs(u.pcs) && u.pcs[r].Decremented?
    ensures u.comps < Dispatch.COMPLETION_CAPACITY
    ensures !u.stopped ==> Sent(u, r).comps == u.comps + 1
  {
    hide WorldOk, RoleOk, RolesOf, CallsOf, Told;
    RoleFacts(w, u, r);
  }

  /** The completion stays in the channel until the owner takes it, which sends it back to deciding. */
  lemma CompletionKept(w: World, u: Worker, a: Action)
    requires w.worker == Some(u) && Enabled(w, a) && !a.Crash? && LocalOk(u)
    ensures var x := Do(w, a);
            && x.worker.Some?
            && (a != ByOwner(Receive(Completion)) ==> x.worker.value.comps >= u.comps)
            && (a == ByOwner(Receive(Completion)) ==>
              x.worker.value.comps == u.comps - 1 && x.worker.value.owner.Deciding?)
  {
    hide Apply, AllPcs, IsForeign, OwnerDo, RoleDo, CoordDo, OwnerEnabled, RoleEnabled, CoordEnabled, LocalOk;
    match a
    case ByOwner(o) => OwnerLocal(w, u, o);
    case ByRole(o) => RoleLocal(w, u, o);
    case ByCoordinator(o) => CoordLocal(w, u, o);
    case _ =>
  }

  // ---- The composition gate -----------------------------------------------------------------------------

  /**
   * Once the coordinator has read four terminal roles that stays so, and the composition it then asks for
   * succeeds: it is never refused as not ready. The one exception is a session whose ID trimming changes,
   * which Compose looks up under another name.
   */
  lemma GateHolds(w: World, u: Worker, at: Instant, rows: seq<string>)
    requires WorldOk(w) && w.worker == Some(u) && u.coord.Composing? && forall k :: k in rows ==> k in w.db.findings
    ensures AllTerminal(RolesOf(w.db, u.sid))
    ensures ComposeSession(w.db, "", u.sid, rows, at).result.Composed? <==> TrimSpace(u.sid) == u.sid
  {
    hide WorldOk, Inv, TrimSpace, AllTerminal, Blank, RolesOk, CountersOk, ComposeSession, AllPcs;
    Parts(w, u);
    WorkerParts(w, u);
    SessionNamed(w.db, u.sid);
    ComposeExact(w.db, "", u.sid, rows, at);
    OnlyOne(w.db, u.sid, TrimSpace(u.sid));
  }

  lemma OnlyOne(db: Db, a: string, b: string)
    requires Inv(db) && a in db.sessions && db.sessions[a].status.Reviewing?
    ensures b in db.sessions && db.sessions[b].status.Reviewing? ==> a == b
  {
    hide KeysAgree, SessionsOk, SnapshotsOk, FindingsOk;
  }

  /** The gate stays open through every action of everyone else, and the coordinator only moves on through it. */
  lemma GateStaysOpen(w: World, u: Worker, a: Action)
    requires WorldOk(w) && w.worker == Some(u) && Enabled(w, a) && !a.ByCoordinator? && !a.Crash? && GateOpen(u)
    ensures var x := Do(w, a);
            && x.worker.Some? && x.worker.value.sid == u.sid && x.worker.value.coord == u.coord
            && AllTerminal(RolesOf(x.db, u.sid))
  {
    hide WorldOk, AllTerminal, RolesOf, Apply, OwnerDo, RoleDo, AllPcs, IsForeign, OwnerEnabled, RoleEnabled;
    ActionKeeps(w, a);
    match a {
      case ByOwner(o) => OwnerElsewhere(w, u, o);
      case ByRole(o) => RoleElsewhere(w, u, o);
      case ByOthers(step) =>
    }
    WorkerParts(Do(w, a), Do(w, a).worker.value);
  }

  lemma OwnerElsewhere(w: World, u: Worker, a: OwnerAction)
    requires u.sid in w.db.sessions && OwnerEnabled(u, a)
    ensures var x := OwnerDo(w, u, a); x.worker.Some? && x.worker.value.sid == u.sid && x.worker.value.coord == u.coord
  {
    hide Reserve, FastDecision;
  }

  lemma RoleElsewhere(w: World, u: Worker, a: RoleAction)
    requires AllPcs(u.pcs) && u.sid in w.db.sessions && RoleEnabled(w, u, a)
    ensures var x := RoleDo(w, u, a); x.worker.Some? && x.worker.value.sid == u.sid && x.worker.value.coord == u.coord
  {
    hide AllPcs, ExecutesTo, Publish, PublicationFor, CallsOf, StartOf;
  }

  /** When the coordinator composes, a role is interrupted unstarted or has its published outcome stored. */
  lemma JoinedOutcomes(w: World, u: Worker, r: Role)
    requires WorldOk(w) && w.worker == Some(u) && u.coord.Composing?
    ensures r in RolesOf(w.db, u.sid) && AllPcs(u.pcs)
    ensures var status := RolesOf(w.db, u.sid)[r].status;
            if u.pcs[r].Absent? then status.Interrupted? else r !in u.leaked && Done(status)
  {
    hide WorldOk, RolesOf, CallsOf, Inv, CountersOk;
    RoleFacts(w, u, r);
    WorkerParts(w, u);
    var rs := RolesOf(w.db, u.sid);
    assert rs[r].status.IsTerminal();
  }

  /** The coordinator reads four terminal roles as such. */
  lemma Readable(w: World, u: Worker, v: Worker)
    requires u.sid in w.db.sessions && AllRoles(RolesOf(w.db, u.sid)) && AllTerminal(RolesOf(w.db, u.sid))
    requires v.sid == u.sid
    ensures Readiness(w.db, v).ReadTerminal?
  {
  }
}
