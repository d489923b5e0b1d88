/** internal/evidence: the frozen snapshot every finding must cite. */
module Evidence {
  import opened Options
  import opened Text
  import Sorting

  datatype Unit = Unit(id: string, kind: string, text: string)

  predicate IsValidUnitKind(k: string)
  {
    k == "brief" || k == "requirement" || k == "component" || k == "flow" || k == "constraint" || k == "data_rule"
  }

  /** A digest is represented by the canonical sequence it is taken of, which makes it collision free. */
  type Hash = seq<Unit>

  datatype Snapshot = Snapshot(id: string, hash: Hash, units: seq<Unit>, refs: Option<set<string>>)
  {
    predicate HasRef(ref: string)
    {
      if refs.Some? then ref in refs.value else exists u :: u in units && u.id == ref
    }
  }

  predicate ById(a: Unit, b: Unit)
  {
    Less(a.id, b.id)
  }

  function CanonicalHash(units: seq<Unit>): Hash
  {
    Sorting.Sort(units, ById)
  }

  predicate UnitOk(u: Unit)
  {
    !Blank(u.id) && !Blank(u.text) && IsValidUnitKind(u.kind)
  }

  predicate UniqueIds(units: seq<Unit>)
  {
    forall i, j :: 0 <= i < j < |units| ==> units[i].id != units[j].id
  }

  predicate UnitsOk(units: seq<Unit>)
  {
    (forall u :: u in units ==> UnitOk(u)) && UniqueIds(units)
  }

  predicate Freezable(id: string, units: seq<Unit>)
  {
    !Blank(id) && units != [] && UnitsOk(units)
  }

  function Ids(units: seq<Unit>): set<string>
  {
    set u | u in units :: u.id
  }

  function Frozen(id: string, units: seq<Unit>): Snapshot
  {
    Snapshot(id, CanonicalHash(units), units, Some(Ids(units)))
  }

  datatype FreezeError = BlankSnapshotId | NoUnits | FaultyUnit(index: nat)

  /** Accepts exactly the freezable inputs; otherwise names the first unit at fault. */
  method Freeze(id: string, units: seq<Unit>) returns (r: Result<Snapshot, FreezeError>)
    ensures r.Ok? <==> Freezable(id, units)
    ensures r.Ok? ==> r.value == Frozen(id, units)
    ensures r.Err? && r.error.FaultyUnit? ==>
              r.error.index < |units| && UnitsOk(units[..r.error.index]) && !UnitsOk(units[..r.error.index + 1])
    ensures r == Err(BlankSnapshotId) <==> Blank(id)
  {
    if Blank(id) {
      return Err(BlankSnapshotId);
    }
    if |units| == 0 {
      return Err(NoUnits);
    }
    var refs: set<string> := {};
    for i := 0 to |units|
      invariant UnitsOk(units[..i]) && refs == Ids(units[..i])
    {
      var u := units[i];
      UnitsOkSnoc(units, i);
      if Blank(u.id) || Blank(u.text) || !IsValidUnitKind(u.kind) || u.id in refs {
        AFaultSpreads(units, i + 1);
        return Err(FaultyUnit(i));
      }
      refs := refs + {u.id};
    }
    assert units[..|units|] == units;
    return Ok(Snapshot(id, CanonicalHash(units), units, Some(refs)));
  }

  lemma UnitsOkSnoc(units: seq<Unit>, i: nat)
    requires i < |units| && UnitsOk(units[..i])
    ensures UnitsOk(units[..i + 1]) <==> UnitOk(units[i]) && units[i].id !in Ids(units[..i])
    ensures Ids(units[..i + 1]) == Ids(units[..i]) + {units[i].id}
  {
    var front, u := units[..i], units[i];
    assert units[..i + 1] == front + [u];
    if u.id in Ids(front) {
      var j :| 0 <= j < i && front[j].id == u.id;
      assert units[..i + 1][j].id == units[..i + 1][i].id;
    }
    assert u in units[..i + 1];
  }

  lemma AFaultSpreads(units: seq<Unit>, n: nat)
    requires n <= |units| && !UnitsOk(units[..n])
    ensures !UnitsOk(units)
  {
    if UnitsOk(units) {
      assert forall u :: u in units[..n] ==> u in units;
      assert UniqueIds(units[..n]);
    }
  }

  /** The rules of a unit, with the six kinds of evidence by name. */
  lemma UnitRules(u: Unit)
    ensures UnitOk(u) <==>
              && !AllSpace(u.id) && !AllSpace(u.text)
              && (u.kind == "brief" || u.kind == "requirement" || u.kind == "component" || u.kind == "flow"
                  || u.kind == "constraint" || u.kind == "data_rule")
  {
    TrimEdges(u.id);
    TrimEdges(u.text);
  }

  lemma FrozenHasRef(id: string, units: seq<Unit>, ref: string)
    ensures Frozen(id, units).HasRef(ref) <==> exists u :: u in units && u.id == ref
    ensures Frozen(id, units).HasRef(ref) <==> Frozen(id, units).(refs := None).HasRef(ref)
  {
  }

  lemma ByIdIsStrict()
    ensures Sorting.StrictOrder(ById)
  {
    forall a: Unit ensures !ById(a, a) { LessIrreflexive(a.id); }
    forall a: Unit, b: Unit, c: Unit | ById(a, b) && ById(b, c) ensures ById(a, c) {
      LessTransitive(a.id, b.id, c.id);
    }
  }

  lemma UniqueIdsComparable(units: seq<Unit>)
    requires UniqueIds(units)
    ensures Sorting.Comparable(units, ById)
  {
    forall i, j | 0 <= i < j < |units| ensures ById(units[i], units[j]) || ById(units[j], units[i]) {
      LessTotal(units[i].id, units[j].id);
    }
  }

  /** The hash identifies the units and nothing about their order. */
  lemma HashIdentifiesUnits(xs: seq<Unit>, ys: seq<Unit>)
    requires UniqueIds(xs) && UniqueIds(ys)
    ensures CanonicalHash(xs) == CanonicalHash(ys) <==> multiset(xs) == multiset(ys)
  {
    Sorting.SortPermutes(xs, ById);
    Sorting.SortPermutes(ys, ById);
    if multiset(xs) == multiset(ys) {
      ByIdIsStrict();
      UniqueIdsComparable(xs);
      Sorting.ComparablePermutes(xs, ys, ById);
    }
  }

  lemma SameHashSameRefs(xs: seq<Unit>, ys: seq<Unit>)
    requires CanonicalHash(xs) == CanonicalHash(ys)
    ensures Ids(xs) == Ids(ys)
  {
    Sorting.SortPermutes(xs, ById);
    Sorting.SortPermutes(ys, ById);
    forall u | u in xs ensures u in ys { assert u in multiset(xs); }
    forall u | u in ys ensures u in xs { assert u in multiset(ys); }
  }
}
