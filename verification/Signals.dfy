/**
 * The worker's signals over a whole life: how many wakes and completions the owner can receive, and what a failed
 * publication puts an end to.
 */
module Signals {
  import opened Options
  import opened Domain
  import opened Composer
  import opened Timestamps
  import opened Records
  import opened Database
  import opened DbEffects
  import opened Worker
  import opened WorkerSafety
  import opened WorkerRuns
  import Dispatch

  // ---- What is left to receive -----------------------------------------------------------------------------

  /** The wake signal waiting, and the timers that may still send one. */
  function WakesLeft(u: Worker): nat
  {
    u.alarms + One(u.wake)
  }

  /** The goroutine has not sent its completion. */
  predicate Unsent(pc: RolePc)
  {
    pc.Absent? || pc.Running? || pc.Decided? || pc.Cleared? || pc.Published? || pc.Decremented?
  }

  /** The completions waiting, and the goroutines that may still send one. */
  function CompletionsLeft(u: Worker): nat
    requires AllPcs(u.pcs)
  {
    u.comps + One(Unsent(u.pcs[Requirements])) + One(Unsent(u.pcs[Architecture])) + One(Unsent(u.pcs[QA]))
    + One(Unsent(u.pcs[Security]))
  }

  predicate Receives(a: Action, channel: Channel)
  {
    a == ByOwner(Receive(channel))
  }

  /** Every signal received is one less to come, and none is made up. */
  ghost predicate Spends(u: Worker, v: Worker, a: Action)
  {
    && AllPcs(u.pcs) && AllPcs(v.pcs)
    && WakesLeft(v) + One(Receives(a, WakeSignal)) <= WakesLeft(u)
    && CompletionsLeft(v) + One(Receives(a, Completion)) <= CompletionsLeft(u)
  }

  // ---- What a failed publication ends ---------------------------------------------------------------------------

  /** The owner is not about to ask the store for a role. */
  predicate AtRest(pc: OwnerPc)
  {
    pc.Deciding? || pc.Idle? || pc.Halted? || pc.Broken?
  }

  /** No goroutine starts any more, and the owner asks for no other role once it is at rest. */
  ghost predicate WindsDown(u: Worker, v: Worker)
  {
    && AllPcs(u.pcs) && AllPcs(v.pcs)
    && (u.fatal && u.stopped ==>
          && v.fatal && v.stopped && (AtRest(u.owner) ==> AtRest(v.owner))
          && forall r: Role :: u.pcs[r].Absent? ==> v.pcs[r].Absent?)
  }

  // ---- Step by step -----------------------------------------------------------------------------------------------

  lemma OwnerSignals(w: World, u: Worker, a: OwnerAction)
    requires AllPcs(u.pcs) && u.sid in w.db.sessions && OwnerEnabled(u, a)
    requires a.Start? ==> u.pcs[u.owner.role].Absent?
    ensures var x := OwnerDo(w, u, a);
            x.worker.Some? && Spends(u, x.worker.value, ByOwner(a)) && WindsDown(u, x.worker.value)
  {
    hide OwnerDo, Spends, WindsDown, AllPcs;
    OwnerMove(w, u, a);
    var v := OwnerDo(w, u, a).worker.value;
    if a.Start? {
      Spawned(u, v, u.owner.role);
    } else {
      SamePcs(u, v, ByOwner(a));
    }
  }

  /** What a step of the owner does to its own signals. */
  lemma OwnerMove(w: World, u: Worker, a: OwnerAction)
    requires AllPcs(u.pcs) && u.sid in w.db.sessions && OwnerEnabled(u, a)
    ensures var x := OwnerDo(w, u, a);
            && x.worker.Some?
            && var v := x.worker.value;
               && v.pcs == (if a.Start? && !u.fatal then u.pcs[u.owner.role := Running(0)] else u.pcs)
               && v.fatal == u.fatal && v.stopped == u.stopped && v.alarms == u.alarms
               && v.wake == (u.wake && a != Receive(WakeSignal)) && (a == Receive(WakeSignal) ==> u.wake)
               && v.comps + One(a == Receive(Completion)) == u.comps
               && (u.stopped && AtRest(u.owner) ==> AtRest(v.owner))
  {
    hide Reserve, FastDecision, AllPcs;
    Stopped(w.db, u, a);
  }

  lemma Spawned(u: Worker, v: Worker, r: Role)
    requires AllPcs(u.pcs) && u.pcs[r].Absent? && v.comps == u.comps && v.wake == u.wake && v.alarms == u.alarms
    requires v.pcs == if u.fatal then u.pcs else u.pcs[r := Running(0)]
    requires v.fatal == u.fatal && v.stopped == u.stopped
    requires u.stopped && AtRest(u.owner) ==> AtRest(v.owner)
    ensures Spends(u, v, ByOwner(Start)) && WindsDown(u, v)
  {
    hide AtRest;
    match r
    case Requirements =>
    case Architecture =>
    case QA =>
    case Security =>
  }

  lemma SamePcs(u: Worker, v: Worker, a: Action)
    requires AllPcs(u.pcs) && v.pcs == u.pcs && (u.fatal ==> v.fatal) && (u.stopped ==> v.stopped)
    requires WakesLeft(v) + One(Receives(a, WakeSignal)) <= WakesLeft(u)
    requires v.comps + One(Receives(a, Completion)) == u.comps
    requires u.stopped && AtRest(u.owner) ==> AtRest(v.owner)
    ensures Spends(u, v, a) && WindsDown(u, v)
  {
    hide AtRest, WakesLeft, Receives, Unsent;
  }

  /** A stopped owner decides to halt. */
  lemma Stopped(db: Db, u: Worker, a: OwnerAction)
    requires u.sid in db.sessions
    ensures a.Check? && u.stopped ==> FastDecision(db, u, a.readable, a.at) == Halted
  {
    hide Dispatch.FastPath, Dispatch.StatusOf;
  }

  /** Role r's counter moves, at most from unsent to sent, which leaves one completion at most. */
  ghost predicate OneMoves(u: Worker, v: Worker, r: Role)
  {
    && AllPcs(u.pcs) && AllPcs(v.pcs) && v.pcs == u.pcs[r := v.pcs[r]] && v.owner == u.owner
    && v.wake == u.wake && v.alarms == u.alarms
    && v.comps + One(Unsent(v.pcs[r])) <= u.comps + One(Unsent(u.pcs[r]))
    && (u.pcs[r].Absent? ==> v.pcs[r].Absent?) && (u.fatal ==> v.fatal) && (u.stopped ==> v.stopped)
  }

  lemma RoleMove(w: World, u: Worker, a: RoleAction)
    requires AllPcs(u.pcs) && u.sid in w.db.sessions && RoleEnabled(w, u, a)
    ensures var x := RoleDo(w, u, a); x.worker.Some? && OneMoves(u, x.worker.value, a.r)
  {
    hide ExecutesTo, PublishDo, CallsOf, OneMoves;
    match a
    case PublishAt(r, message, at) => PublishMove(w, u, r, u.pcs[r].out, message, at);
    case Provide(r) => PcMoves(u, r, Running(u.pcs[r].calls + 1));
    case Finish(r, out) => PcMoves(u, r, Decided(out));
    case Clear(r) => PcMoves(u, r, Cleared(u.pcs[r].out)); LeakMoves(u, r);
    case PublishFails(r) => LeakMoves(u, r);
    case Free(r) => FreeMoves(u, r);
    case Send(r) => SendMoves(u, r);
    case Wake(r) => WakeMoves(u, r);
    case Release(r) => ReleaseMoves(u, r);
    case Exit(r) => PcMoves(u, r, Exited);
  }

  /** A program counter that moves, the completion being as sent as it was. */
  lemma PcMoves(u: Worker, r: Role, pc: RolePc)
    requires AllPcs(u.pcs) && !u.pcs[r].Absent? && (Unsent(pc) ==> Unsent(u.pcs[r])) && !pc.Absent?
    ensures OneMoves(u, SetPc(u, r, pc), r)
  {
  }

  lemma LeakMoves(u: Worker, r: Role)
    requires AllPcs(u.pcs) && !u.pcs[r].Absent?
    ensures OneMoves(u, Leak(u, r), r) && OneMoves(u, Fatal(u, r), r)
  {
  }

  lemma FreeMoves(u: Worker, r: Role)
    requires AllPcs(u.pcs) && u.pcs[r].Published?
    ensures OneMoves(u, Freed(u, r), r)
  {
  }

  lemma SendMoves(u: Worker, r: Role)
    requires AllPcs(u.pcs) && u.pcs[r].Decremented?
    ensures OneMoves(u, Sent(u, r), r)
  {
  }

  lemma WakeMoves(u: Worker, r: Role)
    requires AllPcs(u.pcs) && u.pcs[r].Notified?
    ensures OneMoves(u, WokenGate(u, r), r)
  {
  }

  lemma ReleaseMoves(u: Worker, r: Role)
    requires AllPcs(u.pcs) && u.pcs[r].GateWoken?
    ensures OneMoves(u, Inactive(u, r), r)
  {
  }

  lemma PublishMove(w: World, u: Worker, r: Role, out: RoleOutcome, message: string, at: Instant)
    requires AllPcs(u.pcs) && u.sid in w.db.sessions && u.pcs[r].Cleared?
    ensures var x := PublishDo(w, u, r, out, message, at); x.worker.Some? && OneMoves(u, x.worker.value, r)
  {
    hide Publish, PublicationFor, StartOf, OneMoves, AllPcs;
    PcMoves(u, r, RolePc.Published);
    LeakMoves(u, r);
  }

  lemma RoleSignals(u: Worker, v: Worker, a: RoleAction)
    requires OneMoves(u, v, a.r)
    ensures Spends(u, v, ByRole(a)) && WindsDown(u, v)
  {
    hide Unsent;
    match a.r
    case Requirements =>
    case Architecture =>
    case QA =>
    case Security =>
  }

  lemma CoordSignals(w: World, u: Worker, a: CoordAction)
    requires AllPcs(u.pcs) && u.sid in w.db.sessions && CoordEnabled(w, u, a)
    ensures var x := CoordDo(w, u, a);
            x.worker.Some? && Spends(u, x.worker.value, ByCoordinator(a)) && WindsDown(u, x.worker.value)
  {
    hide CoordDo, WakesLeft, Spends, WindsDown, AllPcs;
    CoordMove(w, u, a);
    SamePcs(u, CoordDo(w, u, a).worker.value, ByCoordinator(a));
  }

  lemma CoordMove(w: World, u: Worker, a: CoordAction)
    requires AllPcs(u.pcs) && u.sid in w.db.sessions && CoordEnabled(w, u, a)
    ensures var x := CoordDo(w, u, a);
            && x.worker.Some?
            && var v := x.worker.value;
               && v.pcs == u.pcs && v.comps == u.comps && v.owner == u.owner && WakesLeft(v) <= WakesLeft(u)
               && (u.fatal ==> v.fatal) && (u.stopped ==> v.stopped)
  {
    hide AllPcs, Readiness, SweepCancellation, ComposeSession;
  }

  lemma SameSignals(u: Worker, a: Action)
    requires AllPcs(u.pcs) && !a.ByOwner?
    ensures Spends(u, u, a) && WindsDown(u, u)
  {
  }

  lemma ActionSignals(w: World, u: Worker, a: Action)
    requires WorldOk(w) && w.worker == Some(u) && Enabled(w, a) && !a.Crash?
    ensures var x := Do(w, a);
            x.worker.Some? && Spends(u, x.worker.value, a) && WindsDown(u, x.worker.value)
  {
    hide WorldOk, Apply, IsForeign, OwnerDo, RoleDo, CoordDo, RoleEnabled, CoordEnabled, Spends, WindsDown, OneMoves;
    match a
    case ByOwner(o) =>
      if o.Start? {
        WorkerParts(w, u);
        HeldRole(w, u, u.owner.role);
      }
      OwnerSignals(w, u, o);
    case ByRole(o) =>
      RoleMove(w, u, o);
      RoleSignals(u, RoleDo(w, u, o).worker.value, o);
    case ByCoordinator(o) => CoordSignals(w, u, o);
    case ByOthers(_) => SameSignals(u, a);
    case _ =>
  }

  // ---- Over a life ---------------------------------------------------------------------------------

  /** How often the owner receives from a channel. */
  function Received(actions: seq<Action>, channel: Channel): nat
  {
    if actions == [] then 0
    else Received(actions[..|actions| - 1], channel) + One(Receives(actions[|actions| - 1], channel))
  }

  /** A run of one worker: it is there at first and does not crash. */
  ghost predicate IsLife(w: World, actions: seq<Action>)
  {
    WorldOk(w) && w.worker.Some? && AllPcs(w.worker.value.pcs) && IsRun(w, actions)
    && forall a :: a in actions ==> !a.Crash?
  }

  lemma {:induction false} LifeSignals(w: World, actions: seq<Action>)
    requires IsLife(w, actions)
    ensures var x, u := After(w, actions), w.worker.value;
            && x.worker.Some? && AllPcs(x.worker.value.pcs) && WindsDown(u, x.worker.value)
            && Received(actions, WakeSignal) + WakesLeft(x.worker.value) <= WakesLeft(u)
            && Received(actions, Completion) + CompletionsLeft(x.worker.value) <= CompletionsLeft(u)
    decreases |actions|
  {
    hide WorldOk, Do, Enabled, WakesLeft, CompletionsLeft, Receives, AllPcs, AtRest;
    if actions == [] {
      NothingYet(w.worker.value);
    } else {
      var front, last := actions[..|actions| - 1], actions[|actions| - 1];
      assert forall a :: a in front ==> a in actions;
      LifeSignals(w, front);
      var before := After(w, front);
      RunKeeps(w, front);
      ActionSignals(before, before.worker.value, last);
      DownFurther(w.worker.value, before.worker.value, After(w, actions).worker.value);
    }
  }

  lemma NothingYet(u: Worker)
    requires AllPcs(u.pcs)
    ensures WindsDown(u, u)
  {
  }

  lemma DownFurther(u: Worker, v: Worker, x: Worker)
    requires WindsDown(u, v) && WindsDown(v, x)
    ensures WindsDown(u, x)
  {
  }

  lemma FreshSignals(sid: string)
    ensures AllPcs(NewWorker(sid).pcs) && WakesLeft(NewWorker(sid)) == 2 && CompletionsLeft(NewWorker(sid)) == 4
  {
    forall r: Role ensures r in ALL_ABSENT && ALL_ABSENT[r].Absent? {
      match r
      case Requirements =>
      case Architecture =>
      case QA =>
      case Security =>
    }
  }

  /** In its whole life the owner receives at most two wakes, one a timer, and at most four completions, one a role. */
  lemma SignalsBounded(w: World, sid: string, actions: seq<Action>)
    requires WorldOk(w) && w.worker == Some(NewWorker(sid)) && IsRun(w, actions)
    requires forall a :: a in actions ==> !a.Crash?
    ensures Received(actions, WakeSignal) <= 2 && Received(actions, Completion) <= 4
  {
    hide WorldOk, IsRun, After, NewWorker, AllPcs, WakesLeft, CompletionsLeft, Received, WindsDown;
    FreshSignals(sid);
    LifeSignals(w, actions);
  }

  /**
   * After a publication that fails no goroutine is started in the worker's life, and the owner, once it has come to
   * rest, never asks the store for a role again.
   */
  lemma FailureStopsAll(w: World, u: Worker, r: Role, actions: seq<Action>)
    requires WorldOk(w) && w.worker == Some(u) && Enabled(w, ByRole(PublishFails(r)))
    requires IsRun(Do(w, ByRole(PublishFails(r))), actions) && forall a :: a in actions ==> !a.Crash?
    ensures AllPcs(u.pcs)
    ensures var x := After(Do(w, ByRole(PublishFails(r))), actions);
            && x.worker.Some? && AllPcs(x.worker.value.pcs) && x.worker.value.fatal && x.worker.value.stopped
            && (forall q: Role :: u.pcs[q].Absent? ==> x.worker.value.pcs[q].Absent?)
            && (AtRest(u.owner) ==> AtRest(x.worker.value.owner))
  {
    hide WorldOk, IsRun, After, WakesLeft, CompletionsLeft, Received, ExecutesTo, AtRest;
    ActionKeeps(w, ByRole(PublishFails(r)));
    var next := Do(w, ByRole(PublishFails(r)));
    assert next.worker == Some(Fatal(u, r)) && u.pcs[r].Cleared?;
    LifeSignals(next, actions);
  }
}
