/** internal/benchmark/score.go, with real arithmetic for its floating point. */
module Scoring {
  import opened Text
  import opened Domain
  import Sorting

  datatype Defect = Defect(id: string, unitIds: seq<string>)

  // ---- Matching ---------------------------------------------------------------------------

  /** The finding cites or anchors one of the defect's units; the empty unit ID stands for none. */
  predicate IsMatch(f: Finding, d: Defect)
  {
    exists u :: u in d.unitIds && u != "" && (u == f.anchorRef || u in f.basisRefs)
  }

  method Matches(f: Finding, d: Defect) returns (matched: bool)
    ensures matched == IsMatch(f, d)
  {
    var units: set<string> := {};
    for i := 0 to |d.unitIds|
      invariant forall u :: u in units <==> u != "" && exists j :: 0 <= j < i && d.unitIds[j] == u
    {
      if d.unitIds[i] != "" {
        units := units + {d.unitIds[i]};
      }
    }
    assert forall u :: u in units <==> u != "" && u in d.unitIds;
    if f.anchorRef != "" && f.anchorRef in units {
      return true;
    }
    for i := 0 to |f.basisRefs|
      invariant forall j :: 0 <= j < i ==> f.basisRefs[j] !in units
    {
      if f.basisRefs[i] in units {
        return true;
      }
    }
    return false;
  }

  predicate Hit(fs: seq<Finding>, d: Defect)
  {
    exists f :: f in fs && IsMatch(f, d)
  }

  predicate Supported(f: Finding, defects: seq<Defect>)
  {
    exists d :: d in defects && IsMatch(f, d)
  }

  function Hits(fs: seq<Finding>, defects: seq<Defect>): (n: nat)
    ensures n <= |defects|
  {
    if defects == [] then 0
    else Hits(fs, defects[..|defects| - 1]) + if Hit(fs, defects[|defects| - 1]) then 1 else 0
  }

  function Supports(fs: seq<Finding>, defects: seq<Defect>): (n: nat)
    ensures n <= |fs|
  {
    if fs == [] then 0
    else Supports(fs[..|fs| - 1], defects) + if Supported(fs[|fs| - 1], defects) then 1 else 0
  }

  // ---- One run ------------------------------------------------------------------------------

  datatype RunScore = RunScore(defectsFound: nat, defectsTotal: nat, falseFindings: nat, supportedCites: nat,
                               totalFindings: nat, duplicateFindings: nat)

  /** Kind, sorted citations and anchor, with separators. */
  function DuplicateKey(f: Finding): string
  {
    f.kind + "\0" + Join(Sorting.Sort(f.basisRefs, Less), ",") + "\0" + f.anchorRef
  }

  function Keys(fs: seq<Finding>): set<string>
  {
    set f | f in fs :: DuplicateKey(f)
  }

  method ScoreRun(fs: seq<Finding>, defects: seq<Defect>) returns (s: RunScore)
    ensures s.totalFindings == |fs| && s.defectsTotal == |defects|
    ensures s.defectsFound == Hits(fs, defects) <= s.defectsTotal
    ensures s.supportedCites == Supports(fs, defects)
    ensures s.falseFindings + s.supportedCites == s.totalFindings
    ensures s.duplicateFindings + |Keys(fs)| == s.totalFindings
  {
    hide DuplicateKey, IsMatch;
    var found := 0;
    for i := 0 to |defects|
      invariant found == Hits(fs, defects[..i]) <= i
    {
      var matched := false;
      for j := 0 to |fs|
        invariant matched == exists k :: 0 <= k < j && IsMatch(fs[k], defects[i])
      {
        if !matched {
          matched := Matches(fs[j], defects[i]);
        }
      }
      assert defects[..i + 1][..i] == defects[..i];
      assert matched == Hit(fs, defects[i]);
      if matched {
        found := found + 1;
      }
    }
    assert defects[..|defects|] == defects;
    var falseFindings, supported := CountSupported(fs, defects);
    var duplicates := CountDuplicates(fs);
    s := RunScore(found, |defects|, falseFindings, supported, |fs|, duplicates);
  }

  method CountSupported(fs: seq<Finding>, defects: seq<Defect>) returns (falseFindings: nat, supported: nat)
    ensures supported == Supports(fs, defects) && falseFindings + supported == |fs|
  {
    hide IsMatch;
    falseFindings, supported := 0, 0;
    for i := 0 to |fs|
      invariant supported == Supports(fs[..i], defects) && falseFindings + supported == i
    {
      var matched := false;
      for j := 0 to |defects|
        invariant matched == exists k :: 0 <= k < j && IsMatch(fs[i], defects[k])
      {
        if !matched {
          matched := Matches(fs[i], defects[j]);
        }
      }
      assert fs[..i + 1][..i] == fs[..i];
      assert matched == Supported(fs[i], defects);
      if matched {
        supported := supported + 1;
      } else {
        falseFindings := falseFindings + 1;
      }
    }
    assert fs[..|fs|] == fs;
  }

  method CountDuplicates(fs: seq<Finding>) returns (n: nat)
    ensures n + |Keys(fs)| == |fs|
  {
    hide DuplicateKey;
    n := 0;
    var seen: set<string> := {};
    for i := 0 to |fs|
      invariant seen == Keys(fs[..i]) && n + |seen| == i
    {
      var key := DuplicateKey(fs[i]);
      assert fs[..i + 1] == fs[..i] + [fs[i]];
      assert Keys(fs[..i + 1]) == Keys(fs[..i]) + {key};
      if key in seen {
        n := n + 1;
      } else {
        seen := seen + {key};
      }
    }
    assert fs[..|fs|] == fs;
  }

  // ---- Statistics over the repeats --------------------------------------------------------------

  function Sum(xs: seq<real>): real
  {
    if xs == [] then 0.0 else Sum(xs[..|xs| - 1]) + xs[|xs| - 1]
  }

  function SquaredDiff(x: real, m: real): real
  {
    (x - m) * (x - m)
  }

  function SquaredDiffs(xs: seq<real>, m: real): real
  {
    if xs == [] then 0.0 else SquaredDiffs(xs[..|xs| - 1], m) + SquaredDiff(xs[|xs| - 1], m)
  }

  predicate InUnit(xs: seq<real>)
  {
    forall i :: 0 <= i < |xs| ==> 0.0 <= xs[i] <= 1.0
  }

  lemma {:induction false} SumBounds(xs: seq<real>)
    requires InUnit(xs)
    ensures 0.0 <= Sum(xs) <= |xs| as real
  {
    if xs != [] {
      SumBounds(xs[..|xs| - 1]);
    }
  }

  lemma Square(x: real)
    ensures x * x >= 0.0
  {
  }

  /** What n squared differences come to when every square is replaced by its root, s being the sum. */
  function Chord(s: real, m: real, n: real): real
  {
    s - 2.0 * m * s + n * (m * m)
  }

  /** In the unit interval a square is at most its root. */
  lemma UnitSquare(x: real, m: real)
    requires 0.0 <= x <= 1.0
    ensures 0.0 <= SquaredDiff(x, m) <= Chord(x, m, 1.0)
  {
    Square(x - m);
    assert (x - m) * (x - m) == x * x - 2.0 * m * x + m * m;
    assert x * x <= x;
  }

  lemma ChordStep(s: real, x: real, m: real, n: real)
    ensures Chord(s + x, m, n + 1.0) == Chord(s, m, n) + Chord(x, m, 1.0)
    ensures Chord(0.0, m, 0.0) == 0.0
  {
  }

  lemma {:induction false} DiffBounds(xs: seq<real>, m: real)
    requires InUnit(xs)
    ensures 0.0 <= SquaredDiffs(xs, m) <= Chord(Sum(xs), m, |xs| as real)
  {
    hide Chord, SquaredDiff;
    if xs == [] {
      ChordStep(0.0, 0.0, m, 0.0);
    } else {
      var front, x := xs[..|xs| - 1], xs[|xs| - 1];
      DiffBounds(front, m);
      UnitSquare(x, m);
      ChordStep(Sum(front), x, m, |front| as real);
    }
  }

  lemma Quarter(m: real)
    ensures m * (1.0 - m) <= 0.25
  {
    Square(m - 0.5);
    assert (m - 0.5) * (m - 0.5) == m * m - m + 0.25;
    assert m * (1.0 - m) == m - m * m;
  }

  function Mean(xs: seq<real>): real
    requires xs != []
  {
    Sum(xs) / |xs| as real
  }

  /** The population variance. */
  function Variance(xs: seq<real>): real
    requires xs != []
  {
    SquaredDiffs(xs, Mean(xs)) / |xs| as real
  }

  lemma Divided(a: real, b: real, n: real)
    requires n > 0.0 && a <= b * n
    ensures a / n <= b
  {
    assert a / n * n == a;
  }

  lemma Scaled(a: real, n: real)
    requires n > 0.0
    ensures a > 0.0 ==> a * n > 0.0
    ensures a >= 0.0 ==> a / n >= 0.0
  {
  }

  lemma Collect(s: real, m: real, n: real)
    requires n > 0.0 && s == m * n
    ensures Chord(s, m, n) == (m * (1.0 - m)) * n
  {
    assert m * s == m * m * n;
  }

  /** Recalls average between 0 and 1, and spread no more than a coin with that average does. */
  lemma Spread(xs: seq<real>)
    requires xs != [] && InUnit(xs)
    ensures 0.0 <= Mean(xs) <= 1.0
    ensures 0.0 <= Variance(xs) <= Mean(xs) * (1.0 - Mean(xs)) <= 0.25
  {
    hide Sum, SquaredDiffs, Chord;
    var n, m := |xs| as real, Mean(xs);
    SumBounds(xs);
    Scaled(Sum(xs), n);
    Divided(Sum(xs), 1.0, n);
    DiffBounds(xs, m);
    Scaled(SquaredDiffs(xs, m), n);
    assert Sum(xs) == m * n;
    Collect(Sum(xs), m, n);
    Divided(SquaredDiffs(xs, m), m * (1.0 - m), n);
    Quarter(m);
  }

  // ---- All repeats of one arm --------------------------------------------------------------------

  datatype RunResult = RunResult(findings: seq<Finding>, cost: real, latency: real)

  datatype ArmScore = ArmScore(repeats: nat, meanRecall: real, recallVariance: real, meanFalse: real,
                               importantMisses: seq<string>, meanCost: real, meanLatency: real)

  function Recall(fs: seq<Finding>, defects: seq<Defect>): (r: real)
    ensures 0.0 <= r <= 1.0
  {
    if defects == [] then 0.0 else Ratio(Hits(fs, defects), |defects|)
  }

  function Ratio(a: nat, b: nat): (r: real)
    requires a <= b && b > 0
    ensures 0.0 <= r <= 1.0
  {
    a as real / b as real
  }

  function Recalls(runs: seq<RunResult>, defects: seq<Defect>): (xs: seq<real>)
    ensures |xs| == |runs| && InUnit(xs)
  {
    seq(|runs|, i requires 0 <= i < |runs| => Recall(runs[i].findings, defects))
  }

  /** One number a run, summed up front to back. */
  function Figures(runs: seq<RunResult>, figure: RunResult -> real): (xs: seq<real>)
    ensures |xs| == |runs|
  {
    seq(|runs|, i requires 0 <= i < |runs| => figure(runs[i]))
  }

  function FalseOf(defects: seq<Defect>): RunResult -> real
  {
    (r: RunResult) => (|r.findings| - Supports(r.findings, defects)) as real
  }

  const COST: RunResult -> real := (r: RunResult) => r.cost
  const LATENCY: RunResult -> real := (r: RunResult) => r.latency

  lemma FiguresSnoc(runs: seq<RunResult>, figure: RunResult -> real, i: nat)
    requires i < |runs|
    ensures Sum(Figures(runs[..i + 1], figure)) == Sum(Figures(runs[..i], figure)) + figure(runs[i])
  {
    hide Sum;
    assert Figures(runs[..i + 1], figure) == Figures(runs[..i], figure) + [figure(runs[i])];
    Snoc(Figures(runs[..i], figure), figure(runs[i]), 0.0);
  }

  /** Some run hit a defect of this ID. */
  predicate EverFound(runs: seq<RunResult>, defects: seq<Defect>, id: string)
  {
    exists r, d :: r in runs && d in defects && d.id == id && Hit(r.findings, d)
  }

  /** The IDs of defects not found, in the order of the defects. */
  function Missed(runs: seq<RunResult>, defects: seq<Defect>, upTo: nat): seq<string>
    requires upTo <= |defects|
  {
    if upTo == 0 then []
    else
      var front := Missed(runs, defects, upTo - 1);
      if EverFound(runs, defects, defects[upTo - 1].id) then front else front + [defects[upTo - 1].id]
  }

  predicate DistinctDefects(defects: seq<Defect>)
  {
    forall i, j :: 0 <= i < j < |defects| ==> defects[i].id != defects[j].id
  }

  /** With distinct IDs the misses are the IDs no run matched, once each, in increasing order. */
  lemma MissesExact(runs: seq<RunResult>, defects: seq<Defect>)
    requires DistinctDefects(defects)
    ensures var misses := Sorting.Sort(Missed(runs, defects, |defects|), Less);
            && Sorting.Increasing(misses, Less)
            && forall id :: id in misses <==>
                 exists d :: d in defects && d.id == id && forall r :: r in runs ==> !Hit(r.findings, d)
  {
    hide EverFound, Less;
    var ids := Missed(runs, defects, |defects|);
    MissedIds(runs, defects, |defects|);
    LessIsStrict();
    forall i, j | 0 <= i < j < |ids| ensures Less(ids[i], ids[j]) || Less(ids[j], ids[i]) {
      LessTotal(ids[i], ids[j]);
    }
    Sorting.SortIncreasing(ids, Less);
    Sorting.SortPermutes(ids, Less);
    var misses := Sorting.Sort(ids, Less);
    forall id
      ensures id in misses <==> exists d :: d in defects && d.id == id && forall r :: r in runs ==> !Hit(r.findings, d)
    {
      assert id in misses <==> id in multiset(misses);
      assert id in ids <==> id in multiset(ids);
      NeverFound(runs, defects, id);
    }
  }

  lemma LessIsStrict()
    ensures Sorting.StrictOrder(Less)
  {
    forall a: string ensures !Less(a, a) { LessIrreflexive(a); }
    forall a: string, b: string, c: string | Less(a, b) && Less(b, c) ensures Less(a, c) { LessTransitive(a, b, c); }
  }

  lemma NeverFound(runs: seq<RunResult>, defects: seq<Defect>, id: string)
    requires DistinctDefects(defects)
    ensures (exists i :: 0 <= i < |defects| && defects[i].id == id && !EverFound(runs, defects, id)) <==>
              exists d :: d in defects && d.id == id && forall r :: r in runs ==> !Hit(r.findings, d)
  {
    hide Hit;
    if i :| 0 <= i < |defects| && defects[i].id == id && !EverFound(runs, defects, id) {
      assert defects[i] in defects;
    }
    if d :| d in defects && d.id == id && forall r :: r in runs ==> !Hit(r.findings, d) {
      var i :| 0 <= i < |defects| && defects[i] == d;
      assert forall e :: e in defects && e.id == id ==> e == d;
    }
  }

  lemma {:induction false} MissedIds(runs: seq<RunResult>, defects: seq<Defect>, upTo: nat)
    requires upTo <= |defects| && DistinctDefects(defects)
    ensures var ids := Missed(runs, defects, upTo);
            && (forall id :: id in ids <==>
                  exists i :: 0 <= i < upTo && defects[i].id == id && !EverFound(runs, defects, id))
            && forall i, j :: 0 <= i < j < |ids| ==> ids[i] != ids[j]
  {
    hide EverFound;
    if upTo > 0 {
      MissedIds(runs, defects, upTo - 1);
      var front, id := Missed(runs, defects, upTo - 1), defects[upTo - 1].id;
      assert id !in front;
    }
  }

  method AggregateArm(runs: seq<RunResult>, defects: seq<Defect>) returns (score: ArmScore)
    ensures score.repeats == |runs|
    ensures runs == [] ==> score == ArmScore(0, 0.0, 0.0, 0.0, [], 0.0, 0.0)
    ensures runs != [] ==>
              && score.meanRecall == Mean(Recalls(runs, defects))
                && score.recallVariance == Variance(Recalls(runs, defects))
              && score.meanFalse == Mean(Figures(runs, FalseOf(defects)))
              && score.meanCost == Mean(Figures(runs, COST)) && score.meanLatency == Mean(Figures(runs, LATENCY))
              && 0.0 <= score.meanRecall <= 1.0
              && 0.0 <= score.recallVariance <= score.meanRecall * (1.0 - score.meanRecall) <= 0.25
              && score.importantMisses == Sorting.Sort(Missed(runs, defects, |defects|), Less)
  {
    hide Hit, Hits, Supports, Sum, SquaredDiffs, Recall, EverFound, Sorting.Sort, Missed, IsMatch, Keys;
    if |runs| == 0 {
      return ArmScore(0, 0.0, 0.0, 0.0, [], 0.0, 0.0);
    }
    var recalls: seq<real> := [];
    var sumRecall, sumFalse, sumCost, sumLatency := 0.0, 0.0, 0.0, 0.0;
    NoSums(0.0);
    assert Figures(runs[..0], FalseOf(defects)) == [] && Figures(runs[..0], COST) == []
      && Figures(runs[..0], LATENCY) == [];
    for i := 0 to |runs|
      invariant recalls == Recalls(runs[..i], defects) && sumRecall == Sum(recalls)
      invariant sumFalse == Sum(Figures(runs[..i], FalseOf(defects)))
      invariant sumCost == Sum(Figures(runs[..i], COST)) && sumLatency == Sum(Figures(runs[..i], LATENCY))
    {
      FiguresSnoc(runs, FalseOf(defects), i);
      FiguresSnoc(runs, COST, i);
      FiguresSnoc(runs, LATENCY, i);
      var s := ScoreRun(runs[i].findings, defects);
      var recall := RecallOf(s, runs[i].findings, defects);
      Snoc(recalls, recall, 0.0);
      assert Recalls(runs[..i + 1], defects) == recalls + [recall];
      recalls := recalls + [recall];
      sumRecall := sumRecall + recall;
      sumFalse := sumFalse + s.falseFindings as real;
      sumCost := sumCost + runs[i].cost;
      sumLatency := sumLatency + runs[i].latency;
    }
    assert runs[..|runs|] == runs;
    var n := |runs| as real;
    var mean := sumRecall / n;
    var sumSqDiff := SumDiffs(recalls, mean);
    var misses := CollectMisses(runs, defects);
    Spread(recalls);
    score := ArmScore(|runs|, mean, sumSqDiff / n, sumFalse / n, Sorting.Sort(misses, Less), sumCost / n,
                      sumLatency / n);
  }

  lemma NoSums(m: real)
    ensures Sum([]) == 0.0 && SquaredDiffs([], m) == 0.0
  {
  }

  lemma Snoc(xs: seq<real>, x: real, m: real)
    ensures Sum(xs + [x]) == Sum(xs) + x && SquaredDiffs(xs + [x], m) == SquaredDiffs(xs, m) + SquaredDiff(x, m)
  {
    assert (xs + [x])[..|xs|] == xs;
  }

  method RecallOf(s: RunScore, fs: seq<Finding>, defects: seq<Defect>) returns (recall: real)
    requires s.defectsFound == Hits(fs, defects) && s.defectsTotal == |defects|
    ensures recall == Recall(fs, defects)
  {
    hide Hits;
    recall := 0.0;
    if s.defectsTotal > 0 {
      recall := s.defectsFound as real / s.defectsTotal as real;
    }
  }

  method SumDiffs(xs: seq<real>, m: real) returns (sum: real)
    ensures sum == SquaredDiffs(xs, m)
  {
    hide SquaredDiffs;
    sum := 0.0;
    NoSums(m);
    for i := 0 to |xs|
      invariant sum == SquaredDiffs(xs[..i], m)
    {
      var diff := xs[i] - m;
      Snoc(xs[..i], xs[i], m);
      assert xs[..i + 1] == xs[..i] + [xs[i]];
      sum := sum + diff * diff;
    }
    assert xs[..|xs|] == xs;
  }

  /** defectsEverFound: one flag an ID, latched by the first match of any run. */
  method CollectMisses(runs: seq<RunResult>, defects: seq<Defect>) returns (misses: seq<string>)
    ensures misses == Missed(runs, defects, |defects|)
  {
    hide IsMatch, Hit, EverFound;
    var ever: set<string> := {};
    NothingFound(defects);
    for i := 0 to |runs|
      invariant forall id :: id in ever <==> EverFound(runs[..i], defects, id)
    {
      ghost var before := ever;
      for j := 0 to |defects|
        invariant forall id :: id in ever <==>
                  id in before || exists k :: 0 <= k < j && defects[k].id == id && Hit(runs[i].findings, defects[k])
      {
        if defects[j].id !in ever {
          var hit := AnyMatch(runs[i].findings, defects[j]);
          if hit {
            ever := ever + {defects[j].id};
          }
        }
      }
      forall id ensures id in ever <==> EverFound(runs[..i + 1], defects, id) {
        FoundSnoc(runs, defects, i, id);
      }
    }
    assert runs[..|runs|] == runs;
    misses := [];
    for j := 0 to |defects|
      invariant misses == Missed(runs, defects, j)
    {
      if defects[j].id !in ever {
        misses := misses + [defects[j].id];
      }
    }
  }

  method AnyMatch(fs: seq<Finding>, d: Defect) returns (hit: bool)
    ensures hit == Hit(fs, d)
  {
    hide IsMatch;
    for i := 0 to |fs|
      invariant forall k :: 0 <= k < i ==> !IsMatch(fs[k], d)
    {
      var matched := Matches(fs[i], d);
      if matched {
        return true;
      }
    }
    return false;
  }

  lemma NothingFound(defects: seq<Defect>)
    ensures forall id :: !EverFound([], defects, id)
  {
  }

  lemma FoundSnoc(runs: seq<RunResult>, defects: seq<Defect>, i: nat, id: string)
    requires i < |runs|
    ensures EverFound(runs[..i + 1], defects, id) <==>
              EverFound(runs[..i], defects, id)
              || exists k :: 0 <= k < |defects| && defects[k].id == id && Hit(runs[i].findings, defects[k])
  {
    hide Hit;
    assert runs[..i + 1] == runs[..i] + [runs[i]];
    assert forall r :: r in runs[..i + 1] <==> r in runs[..i] || r == runs[i];
    if k :| 0 <= k < |defects| && defects[k].id == id && Hit(runs[i].findings, defects[k]) {
      assert defects[k] in defects;
    }
  }

  // ---- What the counters count -----------------------------------------------------------------------------------

  /** The defects some finding matches, and the findings that match some defect. */
  lemma {:induction false} HitsCount(fs: seq<Finding>, defects: seq<Defect>)
    ensures Hits(fs, defects) == |set i: nat | i < |defects| && Hit(fs, defects[i])|
  {
    hide Hit;
    if defects != [] {
      var n := |defects| - 1;
      HitsCount(fs, defects[..n]);
      var before := set i: nat | i < |defects[..n]| && Hit(fs, defects[..n][i]);
      assert (set i: nat | i < |defects| && Hit(fs, defects[i])) == before + if Hit(fs, defects[n]) then {n} else {};
    }
  }

  lemma {:induction false} SupportsCount(fs: seq<Finding>, defects: seq<Defect>)
    ensures Supports(fs, defects) == |set i: nat | i < |fs| && Supported(fs[i], defects)|
  {
    hide Supported;
    if fs != [] {
      var n := |fs| - 1;
      SupportsCount(fs[..n], defects);
      var before := set i: nat | i < |fs[..n]| && Supported(fs[..n][i], defects);
      assert (set i: nat | i < |fs| && Supported(fs[i], defects))
          == before + if Supported(fs[n], defects) then {n} else {};
    }
  }

  /** No text of the finding has a separator in it. */
  predicate Plain(f: Finding)
  {
    '\0' !in f.kind && '\0' !in f.anchorRef && forall ref :: ref in f.basisRefs ==> IsPlain(ref)
  }

  predicate IsPlain(ref: string)
  {
    ref != "" && '\0' !in ref && ',' !in ref
  }

  /**
   * Findings are duplicates when they agree in kind, in citations, whatever their order, and in anchor; and, as long as
   * no separator is part of a text, only then.
   */
  lemma DuplicatesAgree(f: Finding, g: Finding)
    ensures f.kind == g.kind && multiset(f.basisRefs) == multiset(g.basisRefs) && f.anchorRef == g.anchorRef ==>
              DuplicateKey(f) == DuplicateKey(g)
    ensures Plain(f) && Plain(g) && DuplicateKey(f) == DuplicateKey(g) ==>
              f.kind == g.kind && multiset(f.basisRefs) == multiset(g.basisRefs) && f.anchorRef == g.anchorRef
  {
    hide Sorting.Sort, Join, Less, IsPlain;
    LessIsStrict();
    forall a: string, b: string ensures a == b || Less(a, b) || Less(b, a) {
      LessTotal(a, b);
    }
    Sorting.SortsAgree(f.basisRefs, g.basisRefs, Less);
    if Plain(f) && Plain(g) && DuplicateKey(f) == DuplicateKey(g) {
      var xs, ys := Sorting.Sort(f.basisRefs, Less), Sorting.Sort(g.basisRefs, Less);
      PlainSorted(f);
      PlainSorted(g);
      JoinPlain(xs);
      JoinPlain(ys);
      assert DuplicateKey(f) == f.kind + ("\0" + (Join(xs, ",") + ("\0" + f.anchorRef)));
      assert DuplicateKey(g) == g.kind + ("\0" + (Join(ys, ",") + ("\0" + g.anchorRef)));
      CutAt('\0', f.kind, Join(xs, ",") + ("\0" + f.anchorRef), g.kind, Join(ys, ",") + ("\0" + g.anchorRef));
      CutAt('\0', Join(xs, ","), f.anchorRef, Join(ys, ","), g.anchorRef);
      JoinInjective(xs, ys);
    }
  }

  lemma PlainSorted(f: Finding)
    requires Plain(f)
    ensures forall ref :: ref in Sorting.Sort(f.basisRefs, Less) ==> IsPlain(ref)
  {
    hide Sorting.Sort, Less, IsPlain;
    Sorting.SortPermutes(f.basisRefs, Less);
    forall ref | ref in Sorting.Sort(f.basisRefs, Less) ensures ref in f.basisRefs {
      assert ref in multiset(Sorting.Sort(f.basisRefs, Less));
    }
  }

  lemma {:induction false} JoinPlain(parts: seq<string>)
    requires forall p :: p in parts ==> IsPlain(p)
    ensures '\0' !in Join(parts, ",") && (parts != [] ==> Join(parts, ",") != "")
  {
    if parts != [] {
      assert parts[0] in parts && IsPlain(parts[0]);
      JoinPlain(parts[1..]);
    }
  }

  /** Texts cut at the first separator. */
  lemma CutAt(sep: char, a: string, x: string, b: string, y: string)
    requires a + ([sep] + x) == b + ([sep] + y) && sep !in a && sep !in b
    ensures a == b && x == y
  {
    var s := a + ([sep] + x);
    assert s[|a|] == sep && s[|b|] == sep;
    forall p | 0 <= p < |a| ensures s[p] != sep { assert s[p] == a[p]; }
    forall p | 0 <= p < |b| ensures s[p] != sep { assert s[p] == b[p]; }
    assert |a| == |b|;
    assert a == s[..|a|] && b == s[..|b|] && x == s[|a| + 1..] && y == s[|b| + 1..];
  }

  lemma {:induction false} JoinInjective(xs: seq<string>, ys: seq<string>)
    requires (forall p :: p in xs ==> IsPlain(p)) && (forall p :: p in ys ==> IsPlain(p))
    requires Join(xs, ",") == Join(ys, ",")
    ensures xs == ys
  {
    hide IsPlain, Join;
    JoinPlain(xs);
    JoinPlain(ys);
    JoinNone();
    if xs != [] && ys != [] {
      assert xs == [xs[0]] + xs[1..] && ys == [ys[0]] + ys[1..];
      NoComma(xs[0]);
      NoComma(ys[0]);
      JoinFront(xs);
      JoinFront(ys);
      if |xs| > 1 && |ys| > 1 {
        CutAt(',', xs[0], Join(xs[1..], ","), ys[0], Join(ys[1..], ","));
        JoinInjective(xs[1..], ys[1..]);
      } else if |xs| > 1 {
        HasComma(xs[0], Join(xs[1..], ","));
      } else if |ys| > 1 {
        HasComma(ys[0], Join(ys[1..], ","));
      }
    }
  }

  lemma JoinNone()
    ensures Join([], ",") == ""
  {
  }

  lemma HasComma(x: string, rest: string)
    ensures ',' in x + ("," + rest)
  {
    assert (x + ("," + rest))[|x|] == ',';
  }

  lemma JoinFront(xs: seq<string>)
    requires xs != []
    ensures Join(xs, ",") == if |xs| == 1 then xs[0] else xs[0] + ("," + Join(xs[1..], ","))
  {
    hide Join;
    if |xs| > 1 {
      assert Join(xs, ",") == xs[0] + "," + Join(xs[1..], ",") by {
        JoinTwo(xs);
      }
    } else {
      JoinOne(xs[0]);
      assert xs == [xs[0]];
    }
  }

  lemma JoinTwo(xs: seq<string>)
    requires |xs| > 1
    ensures Join(xs, ",") == xs[0] + "," + Join(xs[1..], ",")
  {
  }

  lemma JoinOne(x: string)
    ensures Join([x], ",") == x
  {
  }

  lemma NoComma(x: string)
    requires IsPlain(x)
    ensures ',' !in x
  {
  }

  /** Recall is the share of the defects hit. */
  lemma RecallIsShare(fs: seq<Finding>, defects: seq<Defect>)
    ensures Recall(fs, defects) * |defects| as real == Hits(fs, defects) as real
  {
    hide Hits;
    if defects != [] {
      RatioTimes(Hits(fs, defects), |defects|);
    } else {
      NoHits(fs);
    }
  }

  lemma RatioTimes(a: nat, b: nat)
    requires a <= b && b > 0
    ensures Ratio(a, b) * b as real == a as real
  {
  }

  lemma NoHits(fs: seq<Finding>)
    ensures Hits(fs, []) == 0
  {
  }

  /** A finding that names no unit matches nothing, and one that matches names a unit of the defect. */
  lemma MatchNamesUnit(f: Finding, d: Defect)
    ensures IsMatch(f, d) ==> exists u :: u in d.unitIds && u != "" && (u == f.anchorRef || u in f.basisRefs)
    ensures f.anchorRef == "" && (forall ref :: ref in f.basisRefs ==> ref == "") ==> !IsMatch(f, d)
    ensures forall u :: u in d.unitIds && u != "" && u in f.basisRefs ==> IsMatch(f, d)
    ensures f.anchorRef != "" && f.anchorRef in d.unitIds ==> IsMatch(f, d)
  {
  }
}
