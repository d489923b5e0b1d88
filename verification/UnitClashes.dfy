/** Evidence unit keys: exactly when Submit refuses a snapshot because another one's units have its keys. */
module UnitClashes {
  import opened Text
  import opened Evidence
  import opened Records
  import opened Database
  import opened DbSteps
  import BlockIds
  import Composer
  import Ingest
  import Parser
  import Timestamps
  import Timing
  import Validation

  // ---- Two unit keys -----------------------------------------------------------------------------------

  /** Snapshot ID t goes on after s and a colon, and unit a of s spells out the rest of t before unit b. */
  predicate CrossesInto(s: string, a: string, t: string, b: string)
  {
    HasPrefix(t, s + ":") && a == t[|s| + 1..] + (":" + b)
  }

  predicate Crosses(s: string, a: string, t: string, b: string)
  {
    CrossesInto(s, a, t, b) || CrossesInto(t, b, s, a)
  }

  lemma CrossingKeys(s: string, a: string, t: string, b: string)
    requires CrossesInto(s, a, t, b)
    ensures UnitKey(s, a) == UnitKey(t, b)
  {
    var w := t[|s| + 1..];
    assert t == (s + ":") + w;
    assert UnitKey(s, a) == s + ":" + (w + (":" + b)) == (s + ":") + w + (":" + b) == UnitKey(t, b);
  }

  lemma ShorterCrosses(s: string, a: string, t: string, b: string)
    requires UnitKey(s, a) == UnitKey(t, b) && |s| < |t|
    ensures CrossesInto(s, a, t, b)
  {
    var k := UnitKey(s, a);
    assert k == t + (":" + b) == (s + ":") + a;
    assert k[..|s| + 1] == s + ":" && k[..|t|] == t;
    assert t[..|s| + 1] == s + ":";
    assert a == k[|s| + 1..] == t[|s| + 1..] + (":" + b);
  }

  lemma SameWidth(s: string, a: string, t: string, b: string)
    requires UnitKey(s, a) == UnitKey(t, b) && |s| == |t|
    ensures s == t && a == b
  {
    assert UnitKey(s, a)[..|s|] == s && UnitKey(t, b)[..|t|] == t;
    assert UnitKey(s, a)[|s| + 1..] == a && UnitKey(t, b)[|t| + 1..] == b;
  }

  /** Units of different snapshots have the same key if and only if they cross. */
  lemma SharedUnitKeys(s: string, a: string, t: string, b: string)
    requires s != t
    ensures UnitKey(s, a) == UnitKey(t, b) <==> Crosses(s, a, t, b)
  {
    hide UnitKey, CrossesInto;
    if CrossesInto(s, a, t, b) {
      CrossingKeys(s, a, t, b);
    }
    if CrossesInto(t, b, s, a) {
      CrossingKeys(t, b, s, a);
    }
    if UnitKey(s, a) == UnitKey(t, b) {
      if |s| < |t| {
        ShorterCrosses(s, a, t, b);
      } else if |t| < |s| {
        ShorterCrosses(t, b, s, a);
      } else {
        SameWidth(s, a, t, b);
      }
    }
  }

  predicate MeetAt(s: string, a: string, t: string, b: string)
  {
    UnitKey(s, a) == UnitKey(t, b) && !Blank(a) && !Blank(b)
  }

  /** Snapshots of these IDs can have a key in common if and only if one ID goes on after the other and a colon. */
  lemma SnapshotsMeet(s: string, t: string)
    requires s != t
    ensures (exists a, b :: MeetAt(s, a, t, b)) <==> HasPrefix(t, s + ":") || HasPrefix(s, t + ":")
  {
    hide Blank, HasPrefix, UnitKey;
    if a, b :| MeetAt(s, a, t, b) {
      SharedUnitKeys(s, a, t, b);
    }
    if HasPrefix(t, s + ":") {
      var a := UnitBefore(s, t);
      assert MeetAt(s, a, t, "u");
    }
    if HasPrefix(s, t + ":") {
      var b := UnitBefore(t, s);
      assert MeetAt(s, "u", t, b);
    }
  }

  lemma UnitBefore(s: string, t: string) returns (a: string)
    requires HasPrefix(t, s + ":")
    ensures MeetAt(s, a, t, "u")
  {
    hide UnitKey;
    a := t[|s| + 1..] + (":" + "u");
    CrossingKeys(s, a, t, "u");
    TrimEdges(a);
    TrimEdges("u");
    assert a[|a| - 1] == 'u' && "u"[0] == 'u';
  }

  /** For example unit "b:c" of snapshot "a" and unit "c" of snapshot "a:b", both of which freeze. */
  lemma SomeCross()
    ensures Crosses("a", "b:c", "a:b", "c")
    ensures Freezable("a", [Unit("b:c", "brief", "x")]) && Freezable("a:b", [Unit("c", "brief", "x")])
  {
    assert "a:b"[..2] == "a" + ":" && "a:b"[2..] == "b";
    TrimEdges("a");
    TrimEdges("b:c");
    TrimEdges("a:b");
    TrimEdges("c");
    TrimEdges("x");
    assert "a"[0] == 'a' && "b:c"[0] == 'b' && "a:b"[0] == 'a' && "c"[0] == 'c' && "x"[0] == 'x';
  }

  // ---- The keys in the database --------------------------------------------------------------------------

  predicate KeyOf(db: Db, k: string, id: string, u: Unit)
  {
    id in db.snapshots && u in db.snapshots[id].units && k == UnitKey(id, u.id)
  }

  /** The keys in use are those of the stored snapshots' units. */
  ghost predicate KeysExact(db: Db)
  {
    forall k :: k in db.unitKeys <==> exists id, u :: KeyOf(db, k, id, u)
  }

  lemma SameKeys(db: Db, next: Db)
    requires KeysExact(db) && next.snapshots == db.snapshots && next.unitKeys == db.unitKeys
    ensures KeysExact(next)
  {
    forall k ensures k in next.unitKeys <==> exists id, u :: KeyOf(next, k, id, u) {
      if id, u :| KeyOf(next, k, id, u) {
        assert KeyOf(db, k, id, u);
      }
      if k in next.unitKeys {
        var id, u :| KeyOf(db, k, id, u);
        assert KeyOf(next, k, id, u);
      }
    }
  }

  lemma StoredKeys(db: Db, next: Db, snap: Snapshot)
    requires KeysExact(db) && snap.id !in db.snapshots
    requires next.snapshots == db.snapshots[snap.id := StoredSnapshot(snap.hash, snap.units)]
    requires next.unitKeys == db.unitKeys + UnitKeys(snap)
    ensures KeysExact(next)
  {
    hide UnitKey;
    forall k ensures k in next.unitKeys <==> exists id, u :: KeyOf(next, k, id, u) {
      if k in db.unitKeys {
        var id, u :| KeyOf(db, k, id, u);
        assert KeyOf(next, k, id, u);
      }
      if k in UnitKeys(snap) {
        var u :| u in snap.units && k == UnitKey(snap.id, u.id);
        assert KeyOf(next, k, snap.id, u);
      }
      if id, u :| KeyOf(next, k, id, u) {
        assert id == snap.id || KeyOf(db, k, id, u);
      }
    }
  }

  lemma SubmitKeys(db: Db, p: SubmitParams, generated: string, at: Timestamps.Instant)
    requires KeysExact(db)
    ensures KeysExact(Submit(db, p, generated, at).db)
  {
    hide KeysExact, SubmitFault, Submit, NewSession, NewRoles, UnitKeys;
    var next := Submit(db, p, generated, at).db;
    if SubmitFault(p).None? && Submit(db, p, generated, at).result.Created? {
      Insertion(db, p, generated, at);
      if p.snapshot.id in db.snapshots {
        SameKeys(db, next);
      } else {
        StoredKeys(db, next, p.snapshot);
      }
    } else {
      SubmitUnchanged(db, p, generated, at);
    }
  }

  /** Only Submit touches snapshots and their units. */
  lemma StepKeys(db: Db, step: Step)
    requires !step.SubmitStep?
    ensures Apply(db, step).snapshots == db.snapshots && Apply(db, step).unitKeys == db.unitKeys
  {
    hide Timing.ValidPolicy, AnyReviewing, Claimable, IsHead, Blank, TrimSpace, Composer.Composable, CountOf,
      ReportWith, RolesOf, FirstOf, RefsKnown, FindingKeys, FindingRows, Validation.SuccessOk, Validation.FailureOk,
      PublishFault, RoleWithId, SweepPending, Composer.Decide;
  }

  lemma {:induction false} RunKeys(db: Db, steps: seq<Step>)
    requires KeysExact(db)
    ensures KeysExact(Exec(db, steps))
    decreases |steps|
  {
    hide KeysExact, Apply;
    if steps != [] {
      var before, step := Exec(db, steps[..|steps| - 1]), steps[|steps| - 1];
      RunKeys(db, steps[..|steps| - 1]);
      if step.SubmitStep? {
        SubmitKeys(before, step.submit, step.generated, step.at);
        SubmitIs(before, step);
      } else {
        StepKeys(before, step);
        SameKeys(before, Apply(before, step));
      }
    }
  }

  lemma SubmitIs(db: Db, step: Step)
    requires step.SubmitStep?
    ensures Apply(db, step) == Submit(db, step.submit, step.generated, step.at).db
  {
    hide Submit;
  }

  // ---- When Submit refuses a snapshot ----------------------------------------------------------------------

  /** A unit of the new snapshot crosses one of a stored snapshot. */
  ghost predicate Meets(db: Db, snap: Snapshot)
  {
    exists u, id, v :: u in snap.units && id in db.snapshots && v in db.snapshots[id].units
                       && Crosses(snap.id, u.id, id, v.id)
  }

  lemma KeysMeet(db: Db, snap: Snapshot)
    requires KeysExact(db) && snap.id !in db.snapshots
    ensures UnitKeys(snap) * db.unitKeys != {} <==> Meets(db, snap)
  {
    hide UnitKey, Crosses;
    if u, id, v :| u in snap.units && id in db.snapshots && v in db.snapshots[id].units
                   && Crosses(snap.id, u.id, id, v.id) {
      SharedUnitKeys(snap.id, u.id, id, v.id);
      assert KeyOf(db, UnitKey(id, v.id), id, v);
      assert UnitKey(snap.id, u.id) in UnitKeys(snap) * db.unitKeys;
    }
    if k :| k in UnitKeys(snap) * db.unitKeys {
      var u :| u in snap.units && k == UnitKey(snap.id, u.id);
      var id, v :| KeyOf(db, k, id, v);
      SharedUnitKeys(snap.id, u.id, id, v.id);
    }
  }

  /**
   * In every run: a valid submission under a new key and a free session ID, with a snapshot that is not stored yet,
   * is refused as a duplicate row if and only if a unit of its snapshot crosses a unit of a stored one.
   */
  lemma SubmitRefusesUnits(steps: seq<Step>, p: SubmitParams, generated: string, at: Timestamps.Instant)
    requires SubmitFault(p).None? && (p.projectId, p.key) !in Exec(EMPTY, steps).keys
    requires p.snapshot.id !in Exec(EMPTY, steps).snapshots
    requires SessionIdFor(p, generated) != "" && SessionIdFor(p, generated) !in Exec(EMPTY, steps).sessions
    ensures var db, created := Exec(EMPTY, steps), Created(SessionIdFor(p, generated));
            Submit(db, p, generated, at).result == if Meets(db, p.snapshot) then DuplicateRow else created
  {
    hide SubmitFault, UnitKeys, NewSession, NewRoles, KeysExact, Meets, Exec;
    NoKeys();
    RunKeys(EMPTY, steps);
    KeysMeet(Exec(EMPTY, steps), p.snapshot);
  }

  lemma NoKeys()
    ensures KeysExact(EMPTY)
  {
    forall k, id, u ensures !KeyOf(EMPTY, k, id, u) {
    }
  }

  // ---- Snapshots of the pipeline never cross -----------------------------------------------------------------

  lemma TokenHasNoColon(t: string)
    requires BlockIds.IsToken(t)
    ensures ':' !in t
  {
    var k: nat :| k < |t| && BlockIds.TokenAt(t, k);
    forall i | 0 <= i < |t| ensures t[i] != ':' {
      if i < k {
        assert BlockIds.IsAlnum(t[i]);
      } else if i > k {
        assert IsDigit(t[i]);
      }
    }
  }

  lemma IdHasNoColon(blocks: seq<Parser.Block>, ids: seq<string>, i: nat)
    requires BlockIds.Assigned(blocks, ids) && i < |ids|
    ensures ':' !in ids[i]
  {
    var base :| BlockIds.IsBase(blocks[i], base) && BlockIds.Picked(base, BlockIds.Before(ids, i), ids[i]);
    if BlockIds.HasToken(blocks[i], base) {
      BlockIds.HasTokenIsToken(blocks[i], base);
      TokenHasNoColon(base);
    }
    assert ':' !in base;
  }

  /** Units of snapshots built from source texts never cross, whatever the snapshots are called. */
  lemma IngestedNeverCross(source: string, ids: seq<string>, units: seq<Unit>, u: Unit, s: string,
                           other: string, others: seq<string>, otherUnits: seq<Unit>, v: Unit, t: string)
    requires Ingest.UnitsOf(source, ids, units) && u in units
    requires Ingest.UnitsOf(other, others, otherUnits) && v in otherUnits
    ensures !Crosses(s, u.id, t, v.id)
  {
    var i :| 0 <= i < |units| && units[i] == u;
    var j :| 0 <= j < |otherUnits| && otherUnits[j] == v;
    IdHasNoColon(Parser.Parsed(source), ids, i);
    IdHasNoColon(Parser.Parsed(other), others, j);
    ColonInCrossing(s, u.id, t, v.id);
    ColonInCrossing(t, v.id, s, u.id);
  }

  lemma ColonInCrossing(s: string, a: string, t: string, b: string)
    ensures CrossesInto(s, a, t, b) ==> ':' in a
  {
    if CrossesInto(s, a, t, b) {
      assert a[|t[|s| + 1..]|] == ':';
    }
  }
}
