/** The report does not depend on the order in which roles finish or rows come back. */
module ReportOrder {
  import opened Domain
  import opened Evidence
  import opened Sorting
  import opened Composer

  predicate UniqueIdsOf(fs: seq<Finding>)
  {
    forall i, j :: 0 <= i < j < |fs| ==> fs[i].id != fs[j].id
  }

  predicate RolesDiffer(os: seq<RoleOutcome>)
  {
    forall i, j :: 0 <= i < j < |os| ==> os[i].role != os[j].role
  }

  predicate OutcomesOk(os: seq<RoleOutcome>)
  {
    RolesDiffer(os) && forall o :: o in os ==> UniqueIdsOf(o.findings)
  }

  /** The same outcome, its findings in any order. */
  predicate Same(a: RoleOutcome, b: RoleOutcome)
  {
    multiset(a.findings) == multiset(b.findings) && a.(findings := []) == b.(findings := [])
  }

  /** Each outcome of xs is somewhere in ys. */
  predicate Within(xs: seq<RoleOutcome>, ys: seq<RoleOutcome>)
  {
    forall a :: a in xs ==> exists b :: b in ys && Same(a, b)
  }

  predicate Reordered(xs: seq<RoleOutcome>, ys: seq<RoleOutcome>)
  {
    RolesDiffer(xs) && RolesDiffer(ys) && Within(xs, ys) && Within(ys, xs)
  }

  // ---- How often a finding or a summary occurs -----------------------------------------

  lemma {:induction false} TaggedCount(role: Role, fs: seq<Finding>, x: ReportFinding)
    ensures multiset(Tagged(role, fs))[x] == if x.role == role then multiset(fs)[x.finding] else 0
  {
    if fs != [] {
      var front, last := fs[..|fs| - 1], fs[|fs| - 1];
      TaggedCount(role, front, x);
      assert fs == front + [last];
      assert Tagged(role, fs) == Tagged(role, front) + [ReportFinding(role, last)];
    }
  }

  function Share(o: RoleOutcome, x: ReportFinding): nat
  {
    if o.role == x.role && o.status.RoleComplete? then multiset(o.findings)[x.finding] else 0
  }

  lemma ContributionCount(o: RoleOutcome, x: ReportFinding)
    ensures multiset(Contribution(o))[x] == Share(o, x)
  {
    TaggedCount(o.role, o.findings, x);
  }

  lemma {:induction false} ContributionsCount(os: seq<RoleOutcome>, x: ReportFinding)
    requires RolesDiffer(os)
    ensures forall o :: o in os && o.role == x.role ==> multiset(Contributions(os))[x] == Share(o, x)
    ensures (forall o :: o in os ==> o.role != x.role) ==> multiset(Contributions(os))[x] == 0
  {
    hide Contribution, Share;
    if os != [] {
      var front, last := os[..|os| - 1], os[|os| - 1];
      ContributionsCount(front, x);
      ContributionCount(last, x);
      ShareElsewhere(last, x);
      assert forall o :: o in os <==> o in front || o == last;
    }
  }

  lemma ShareElsewhere(o: RoleOutcome, x: ReportFinding)
    ensures o.role != x.role ==> Share(o, x) == 0
  {
  }

  lemma {:induction false} SummariesCount(os: seq<RoleOutcome>, s: RoleSummary)
    requires RolesDiffer(os)
    ensures multiset(Summaries(os))[s] == if exists o :: o in os && Summary(o) == s then 1 else 0
  {
    if os != [] {
      var front, last := os[..|os| - 1], os[|os| - 1];
      SummariesCount(front, s);
      assert Summaries(os) == Summaries(front) + [Summary(last)];
      assert forall o :: o in os <==> o in front || o == last;
    }
  }

  // ---- Permutation invariance ------------------------------------------------------------

  lemma SameContributions(xs: seq<RoleOutcome>, ys: seq<RoleOutcome>)
    requires Reordered(xs, ys)
    ensures multiset(Contributions(xs)) == multiset(Contributions(ys))
  {
    hide Contributions;
    forall x: ReportFinding ensures multiset(Contributions(xs))[x] == multiset(Contributions(ys))[x] {
      ContributionsCount(xs, x);
      ContributionsCount(ys, x);
      forall b | b in ys ensures exists a :: a in xs && a.role == b.role {
        var a :| a in xs && Same(b, a);
      }
      if a :| a in xs && a.role == x.role {
        var b :| b in ys && Same(a, b);
        assert Share(a, x) == Share(b, x);
      }
    }
  }

  lemma SameSummaries(xs: seq<RoleOutcome>, ys: seq<RoleOutcome>)
    requires Reordered(xs, ys)
    ensures multiset(Summaries(xs)) == multiset(Summaries(ys))
  {
    hide Summaries;
    forall a, b | Same(a, b) ensures Summary(a) == Summary(b) {
      assert |a.findings| == |multiset(a.findings)| == |multiset(b.findings)| == |b.findings|;
    }
    forall s: RoleSummary ensures multiset(Summaries(xs))[s] == multiset(Summaries(ys))[s] {
      SummariesCount(xs, s);
      SummariesCount(ys, s);
      assert (exists o :: o in xs && Summary(o) == s) <==> (exists o :: o in ys && Summary(o) == s);
    }
  }

  lemma SummariesComparable(os: seq<RoleOutcome>)
    requires RolesDiffer(os)
    ensures StrictOrder(SummaryLess) && Comparable(Summaries(os), SummaryLess)
  {
  }

  lemma {:induction false} ContributionsUnique(os: seq<RoleOutcome>)
    requires OutcomesOk(os)
    ensures UniqueFindings(Contributions(os))
    ensures forall x :: x in Contributions(os) ==> exists o :: o in os && o.role == x.role
  {
    if os != [] {
      var front, last := os[..|os| - 1], os[|os| - 1];
      ContributionsUnique(front);
      var fs, tail := Contributions(front), Contribution(last);
      assert forall o :: o in os <==> o in front || o == last;
      forall x | x in fs ensures x.role != last.role {
        var o :| o in front && o.role == x.role;
      }
      assert forall x :: x in tail ==> x.role == last.role;
      assert UniqueFindings(tail) by {
        assert UniqueIdsOf(last.findings);
      }
      UniqueJoin(fs, tail);
    }
  }

  lemma UniqueJoin(fs: seq<ReportFinding>, gs: seq<ReportFinding>)
    requires UniqueFindings(fs) && UniqueFindings(gs)
    requires forall f, g :: f in fs && g in gs ==> f.role != g.role
    ensures UniqueFindings(fs + gs)
  {
    var all := fs + gs;
    forall i, j | 0 <= i < j < |all| ensures all[i].role != all[j].role || all[i].finding.id != all[j].finding.id {
      if i < |fs| && j >= |fs| {
        assert all[i] == fs[i] && all[j] == gs[j - |fs|];
      }
    }
  }

  /** The report is a function of what each role did: neither role order nor finding order shows in it. */
  lemma ReportPermutes(sid: string, snapshot: string, hash: Hash, xs: seq<RoleOutcome>, ys: seq<RoleOutcome>,
                       v: Verdict, cancelled: bool)
    requires OutcomesOk(xs) && Reordered(xs, ys)
    ensures Built(sid, snapshot, hash, xs, v, cancelled) == Built(sid, snapshot, hash, ys, v, cancelled)
  {
    hide Contributions, Summaries, UniqueFindings, SummaryLess, FindingLess, Sort;
    SameContributions(xs, ys);
    SameSummaries(xs, ys);
    SummariesComparable(xs);
    ComparablePermutes(Summaries(xs), Summaries(ys), SummaryLess);
    ContributionsUnique(xs);
    UniqueFindingsComparable(Contributions(xs));
    FindingLessIsStrict();
    ComparablePermutes(Contributions(xs), Contributions(ys), FindingLess);
  }

  /** The report lists every finding of every complete role once, strictly increasing, and the roles in order. */
  lemma ReportComplete(sid: string, snapshot: string, hash: Hash, os: seq<RoleOutcome>, v: Verdict, cancelled: bool)
    requires OutcomesOk(os)
    ensures var report := Built(sid, snapshot, hash, os, v, cancelled);
            && Increasing(report.findings, FindingLess) && Increasing(report.roles, SummaryLess)
            && |report.roles| == |os| && (forall o :: o in os ==> Summary(o) in report.roles)
            && (forall x :: x in report.findings <==>
                  exists o :: o in os && o.role == x.role && o.status.RoleComplete? && x.finding in o.findings)
  {
    hide Contributions, UniqueFindings, SummaryLess, FindingLess, Sort;
    var report := Built(sid, snapshot, hash, os, v, cancelled);
    SummariesComparable(os);
    ContributionsUnique(os);
    UniqueFindingsComparable(Contributions(os));
    FindingLessIsStrict();
    SortIncreasing(Contributions(os), FindingLess);
    SortIncreasing(Summaries(os), SummaryLess);
    SortPermutes(Contributions(os), FindingLess);
    SortPermutes(Summaries(os), SummaryLess);
    forall o | o in os ensures Summary(o) in report.roles {
      var i :| 0 <= i < |os| && os[i] == o;
      assert Summaries(os)[i] == Summary(o);
      assert Summary(o) in multiset(report.roles);
    }
    forall x ensures x in report.findings <==>
                     exists o :: o in os && o.role == x.role && o.status.RoleComplete? && x.finding in o.findings
    {
      assert x in report.findings <==> x in multiset(report.findings);
      ContributionsCount(os, x);
    }
  }
}
