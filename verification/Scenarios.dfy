/** Particular sessions: the first one submitted and claimed, one with a padded ID, and two whose keys meet. */
module Scenarios {
  import opened Options
  import opened Text
  import opened Domain
  import opened Evidence
  import opened Timestamps
  import opened Records
  import opened Database
  import opened DbInvariant
  import opened DbSteps
  import opened DbProgress
  import Sorting
  import Timing
  import Validation

  // ---- Submit takes any ID --------------------------------------------------------------------

  /** Nothing about the ID a caller supplies matters to Submit, except that it is not empty and not taken. */
  lemma SubmitTakesAnyId(db: Db, p: SubmitParams, generated: string, at: Instant)
    requires SubmitFault(p).None? && p.sessionId != "" && (p.projectId, p.key) !in db.keys
    requires if p.snapshot.id in db.snapshots then db.snapshots[p.snapshot.id].hash == p.snapshot.hash
             else UnitKeys(p.snapshot) * db.unitKeys == {}
    ensures Submit(db, p, generated, at).result == if p.sessionId in db.sessions then DuplicateRow
            else Created(p.sessionId)
  {
    hide SubmitFault, UnitKeys, NewSession, NewRoles;
  }

  lemma BothAccepted(p: SubmitParams, q: SubmitParams, at: Instant)
    requires SubmitFault(p).None? && SubmitFault(q).None? && (p.projectId, p.key) != (q.projectId, q.key)
    requires p.snapshot == q.snapshot && p.sessionId != "" && q.sessionId != "" && p.sessionId != q.sessionId
    ensures Submit(EMPTY, p, "", at).result == Created(p.sessionId)
    ensures Submit(Submit(EMPTY, p, "", at).db, q, "", at).result == Created(q.sessionId)
  {
    hide SubmitFault, Submit;
    FirstTables(p, at);
    SubmitTakesAnyId(Submit(EMPTY, p, "", at).db, q, "", at);
  }

  /** So two IDs whose finding keys meet are both accepted, one after the other. */
  lemma MeetingIdsAccepted(p: SubmitParams, q: SubmitParams, at: Instant)
    requires SubmitFault(p).None? && SubmitFault(q).None? && (p.projectId, p.key) != (q.projectId, q.key)
    requires p.snapshot == q.snapshot && p.sessionId == "s" && q.sessionId == "s:qa:x"
    ensures Submit(EMPTY, p, "", at).result == Created("s")
    ensures Submit(Submit(EMPTY, p, "", at).db, q, "", at).result == Created("s:qa:x") && !Apart("s", "s:qa:x")
  {
    hide SubmitFault, Submit, Extends;
    assert |q.sessionId| == 6;
    BothAccepted(p, q, at);
    FindingKeysCollide();
  }

  lemma FirstTables(p: SubmitParams, at: Instant)
    requires SubmitFault(p).None? && p.sessionId != ""
    ensures var o := Submit(EMPTY, p, "", at);
            && o.result == Created(p.sessionId)
            && o.db.sessions == map[p.sessionId := NewSession(p, at)] && o.db.roles == map[p.sessionId := NewRoles(at)]
            && o.db.keys.Keys == {(p.projectId, p.key)} && o.db.findings == map[]
            && o.db.snapshots == map[p.snapshot.id := StoredSnapshot(p.snapshot.hash, p.snapshot.units)]
  {
    hide SubmitFault, UnitKeys, NewSession, NewRoles;
    assert UnitKeys(p.snapshot) * EMPTY.unitKeys == {};
  }

  // ---- The first session ---------------------------------------------------------------------

  /** What it takes to submit a session to an empty database and claim it. */
  predicate Opens(p: SubmitParams, at: Instant, policy: Timing.TimingPolicy, now: Instant)
  {
    && SubmitFault(p).None? && !Blank(p.sessionId) && Timing.ValidPolicy(policy)
    && at <= now && now + policy.sessionHardDeadline < END_OF_TIME
  }

  ghost function Opened(p: SubmitParams, at: Instant, policy: Timing.TimingPolicy, now: Instant): Db
  {
    Claim(Submit(EMPTY, p, "", at).db, policy, now).db
  }

  lemma FirstSubmitted(p: SubmitParams, at: Instant)
    requires SubmitFault(p).None? && !Blank(p.sessionId)
    ensures var o := Submit(EMPTY, p, "", at);
            && o.result == Created(p.sessionId) && Inv(o.db)
            && o.db.sessions == map[p.sessionId := NewSession(p, at)] && RolesOf(o.db, p.sessionId) == NewRoles(at)
            && UnitsStored(o.db, p.snapshot.id) == p.snapshot.units
  {
    hide SubmitFault, Submit, NewSession, NewRoles, Inv, StepOk;
    assert p.sessionId != "" by {
      TrimEdges(p.sessionId);
    }
    FirstTables(p, at);
    EmptyOk();
    SubmitKeeps(EMPTY, p, "", at);
  }

  lemma OnlyOneQueued(db: Db, sid: string, now: Instant)
    requires IsQueued(db, sid) && !Blank(sid) && db.sessions[sid].createdAt <= now
    requires forall other :: other in db.sessions && other != sid ==> db.sessions[other].status.IsTerminal()
    ensures IsHead(db, sid) && HeadReady(db, sid, now) && !AnyReviewing(db)
  {
    hide Blank, Earlier;
  }

  lemma FirstQueued(p: SubmitParams, at: Instant, now: Instant)
    requires SubmitFault(p).None? && !Blank(p.sessionId) && at <= now
    ensures var db, sid := Submit(EMPTY, p, "", at).db, p.sessionId;
            sid in db.sessions && IsHead(db, sid) && HeadReady(db, sid, now) && !AnyReviewing(db)
  {
    hide SubmitFault, Submit, NewSession, Blank, Inv, IsHead, HeadReady, AnyReviewing;
    NewSessionFields(p, at);
    FirstSubmitted(p, at);
    OnlyOneQueued(Submit(EMPTY, p, "", at).db, p.sessionId, now);
  }

  /** The first session submitted is claimed, whatever its ID, and all its roles are pending. */
  lemma FirstClaimed(p: SubmitParams, at: Instant, policy: Timing.TimingPolicy, now: Instant)
    requires Opens(p, at, policy, now)
    ensures var sid, db := p.sessionId, Opened(p, at, policy, now);
            && Claim(Submit(EMPTY, p, "", at).db, policy, now).result.Claimed?
            && Claim(Submit(EMPTY, p, "", at).db, policy, now).result.id == sid
            && Inv(db) && db.sessions.Keys == {sid} && db.sessions[sid].status.Reviewing?
            && db.sessions[sid] == ClaimedSession(NewSession(p, at), policy, now)
            && RolesOf(db, sid) == NewRoles(at) && UnitsStored(db, p.snapshot.id) == p.snapshot.units
  {
    hide SubmitFault, NewSession, NewRoles, Inv, StepOk, Submit, Claim, Timing.ValidPolicy, Blank, IsHead, HeadReady,
      AnyReviewing;
    FirstSubmitted(p, at);
    var db, sid := Submit(EMPTY, p, "", at).db, p.sessionId;
    FirstQueued(p, at, now);
    ClaimExact(db, policy, now, sid);
    ClaimKeepsAll(db, policy, now);
  }

  /** There are such sessions. */
  lemma SomethingOpens()
    ensures Opens(SubmitParams("s", "p", "k1", "t", "c", Frozen("snap", [UNIT])), 0,
                  Timing.TimingPolicy(1, 1, 2), 0)
    ensures TrimSpace("s") == "s"
  {
    hide CanonicalHash;
    SnapshotFits();
    TrimEdges("s");
    assert "s"[0] == 's' && TrimLeft("s") == "s";
  }

  // ---- A padded ID -----------------------------------------------------------------------------

  /**
   * A session submitted and claimed under an ID that trimming changes is never composed and blocks the queue in every
   * continuation; one whose ID is trimmed is composed after a recovery.
   */
  lemma PaddingDecides(p: SubmitParams, at: Instant, policy: Timing.TimingPolicy, now: Instant, steps: seq<Step>)
    requires Opens(p, at, policy, now)
    ensures var sid, later := p.sessionId, Exec(Opened(p, at, policy, now), steps);
            TrimSpace(sid) != sid ==>
              sid in later.sessions && later.sessions[sid].status.Reviewing?
              && Claim(later, policy, now) == Outcome(later, ActiveReviewing)
    ensures var sid, recovered := p.sessionId, Recover(Opened(p, at, policy, now), "", "", Some(now), now).db;
            TrimSpace(sid) == sid ==> ComposeSession(recovered, "", sid, [], now).result.Composed?
  {
    hide Inv, Claim, Recover, ComposeSession, TrimSpace, Exec, NewRoles, NewSession, Opened, Blank;
    var sid, db := p.sessionId, Opened(p, at, policy, now);
    FirstClaimed(p, at, policy, now);
    if TrimSpace(sid) != sid {
      PaddedIdNeverComposes(db, steps, sid, policy, now);
    } else {
      RecoveryEnablesCompose(db, sid, now, now, [], now);
    }
  }

  /** " a" is such an ID. */
  lemma PaddedId()
    ensures !Blank(" a") && TrimSpace(" a") != " a"
  {
    TrimEdges(" a");
    assert " a"[1] == 'a';
  }

  // ---- The unit and the finding of the examples ------------------------------------------------------

  const UNIT := Unit("u0", "brief", "x")

  function Found(id: string): Finding
  {
    Finding(id, EXISTING, "high", "c", "i", "r", ["u0"], "")
  }

  lemma SnapshotFits()
    ensures Freezable("snap", [UNIT]) && CanonicalHash([UNIT]) == [UNIT]
  {
    assert !Blank("snap") && !Blank("u0") && !Blank("x");
    assert [UNIT][..|[UNIT]| - 1] == [] && Sorting.Sort<Unit>([], ById) == [];
    assert CanonicalHash([UNIT]) == Sorting.Insert(UNIT, Sorting.Sort([UNIT][..|[UNIT]| - 1], ById), ById);
  }

  lemma FoundFits(id: string)
    requires !Blank(id)
    ensures Validation.FindingOk(Found(id)) && Validation.TableRowOk(Found(id)) && RefsKnown([UNIT], Found(id))
    ensures Validation.StructureOk([Found(id)])
  {
    var f := Found(id);
    assert !Blank("c") && !Blank("i") && !Blank("r") && !Blank("u0") && Blank("");
    hide Blank;
    assert Validation.FindingOk(f);
    Validation.StructureMeetsTable(f);
    assert UNIT in [UNIT] && "u0" in Ids([UNIT]);
  }

  lemma FoundHasId(id: string)
    ensures Found(id).id == id
  {
  }
}
