/** internal/review/composer.go: the session verdict and the deterministic report. */
module Composer {
  import opened Options
  import opened Text
  import opened Domain
  import opened Evidence
  import opened Sorting

  // ---- The verdict -----------------------------------------------------------------

  datatype RoleRow = RoleRow(role: Role, status: RoleStatus, cause: Option<InterruptCause>)

  datatype Verdict = Verdict(status: SessionStatus, reason: TerminalReason, completed: nat, incomplete: nat)

  datatype ComposeError = DuplicateRole(role: Role) | NotTerminal(role: Role) | BadCause(role: Role)
                        | RoleCount(got: nat)

  predicate RowOk(row: RoleRow)
  {
    row.status.IsTerminal() && (row.cause.Some? <==> row.status.Interrupted?)
  }

  predicate DistinctRoles(rows: seq<RoleRow>)
  {
    forall i, j :: 0 <= i < j < |rows| ==> rows[i].role != rows[j].role
  }

  /** One row for each of the four roles, all of them terminal. */
  predicate Composable(rows: seq<RoleRow>)
  {
    |rows| == |ROLES| && DistinctRoles(rows) && forall row :: row in rows ==> RowOk(row)
  }

  predicate Any(rows: seq<RoleRow>, cause: InterruptCause)
  {
    exists row :: row in rows && row.cause == Some(cause)
  }

  function Completed(rows: seq<RoleRow>): (n: nat)
    ensures n <= |rows|
  {
    if rows == [] then 0
    else Completed(rows[..|rows| - 1]) + if rows[|rows| - 1].status.RoleComplete? then 1 else 0
  }

  function RemainingReason(rows: seq<RoleRow>): TerminalReason
  {
    if Any(rows, ProcessRestart) then ReasonProcessRestart
    else if Any(rows, DeadlineCutoff) then ReasonDeadlineCutoff
    else RoleFailures
  }

  function Decide(rows: seq<RoleRow>): Verdict
    requires |rows| == |ROLES|
  {
    var c := Completed(rows);
    var incomplete := |ROLES| - c;
    if c == |ROLES| then Verdict(SessionComplete, AllRolesComplete, c, incomplete)
    else if Any(rows, UserCancelled) then Verdict(Partial, ReasonUserCancelled, c, incomplete)
    else if c > 0 then Verdict(Partial, RemainingReason(rows), c, incomplete)
    else Verdict(SessionFailed, RemainingReason(rows), c, incomplete)
  }

  lemma {:induction false} CompletedAll(rows: seq<RoleRow>)
    ensures Completed(rows) == |rows| <==> forall row :: row in rows ==> row.status.RoleComplete?
    ensures Completed(rows) == 0 <==> forall row :: row in rows ==> !row.status.RoleComplete?
  {
    if rows != [] {
      var front, last := rows[..|rows| - 1], rows[|rows| - 1];
      CompletedAll(front);
      assert rows == front + [last];
    }
  }

  /** The verdict read off the rows, one reason at a time. */
  lemma VerdictMeaning(rows: seq<RoleRow>)
    requires Composable(rows)
    ensures var v := Decide(rows);
            && v.completed + v.incomplete == |ROLES|
            && (v.status.SessionComplete? <==> forall row :: row in rows ==> row.status.RoleComplete?)
            && (v.reason == AllRolesComplete <==> v.status.SessionComplete?)
            && (v.reason == ReasonUserCancelled <==> Any(rows, UserCancelled))
            && (v.reason == ReasonProcessRestart <==> Any(rows, ProcessRestart) && !Any(rows, UserCancelled))
            && (v.reason == ReasonDeadlineCutoff <==>
                  Any(rows, DeadlineCutoff) && !Any(rows, ProcessRestart) && !Any(rows, UserCancelled))
            && (v.reason == RoleFailures <==>
                  (exists row :: row in rows && row.status.RoleFailed?)
                  && forall row :: row in rows ==> !row.status.Interrupted?)
            && (v.status.SessionFailed? <==>
                  !Any(rows, UserCancelled) && forall row :: row in rows ==> !row.status.RoleComplete?)
  {
    hide Completed, DistinctRoles;
    CompletedAll(rows);
    assert rows[0] in rows;
    forall row | row in rows && row.status.Interrupted?
      ensures Any(rows, UserCancelled) || Any(rows, ProcessRestart) || Any(rows, DeadlineCutoff)
    {
      match row.cause.value
      case UserCancelled => assert Any(rows, UserCancelled);
      case ProcessRestart => assert Any(rows, ProcessRestart);
      case DeadlineCutoff => assert Any(rows, DeadlineCutoff);
    }
  }

  /** What the schema demands of the terminal fields. */
  predicate TerminalFields(status: SessionStatus, reason: TerminalReason, completed: nat, incomplete: nat)
  {
    && completed + incomplete == |ROLES|
    && match status
       case SessionComplete => reason == AllRolesComplete && completed == |ROLES|
       case Partial => reason != AllRolesComplete && completed < |ROLES|
                       && (completed > 0 || reason == ReasonUserCancelled)
       case SessionFailed => reason != AllRolesComplete && reason != ReasonUserCancelled && completed == 0
       case _ => false
  }

  lemma VerdictFitsSchema(rows: seq<RoleRow>)
    requires Composable(rows)
    ensures var v := Decide(rows); TerminalFields(v.status, v.reason, v.completed, v.incomplete)
  {
  }

  lemma {:induction false} CompletedPermutes(xs: seq<RoleRow>, ys: seq<RoleRow>)
    requires multiset(xs) == multiset(ys)
    ensures Completed(xs) == Completed(ys)
  {
    if xs == [] {
      assert |multiset(ys)| == 0;
    } else {
      var last := xs[|xs| - 1];
      assert xs == xs[..|xs| - 1] + [last];
      assert last in multiset(ys);
      var j :| 0 <= j < |ys| && ys[j] == last;
      var rest := ys[..j] + ys[j + 1..];
      assert ys == ys[..j] + [last] + ys[j + 1..];
      assert multiset(rest) == multiset(ys) - multiset{last};
      CompletedPermutes(xs[..|xs| - 1], rest);
      CompletedSplit(ys[..j], ys[j + 1..]);
      CompletedSplit(ys[..j] + [last], ys[j + 1..]);
      assert (ys[..j] + [last])[..j] == ys[..j];
    }
  }

  lemma {:induction false} CompletedSplit(xs: seq<RoleRow>, ys: seq<RoleRow>)
    ensures Completed(xs + ys) == Completed(xs) + Completed(ys)
  {
    if ys == [] {
      assert xs + ys == xs;
    } else {
      CompletedSplit(xs, ys[..|ys| - 1]);
      assert (xs + ys)[..|xs + ys| - 1] == xs + ys[..|ys| - 1];
    }
  }

  /** The order in which the rows come back is no part of the verdict. */
  lemma VerdictPermutes(xs: seq<RoleRow>, ys: seq<RoleRow>)
    requires |xs| == |ys| == |ROLES| && multiset(xs) == multiset(ys)
    ensures Decide(xs) == Decide(ys)
  {
    CompletedPermutes(xs, ys);
    forall cause ensures Any(xs, cause) == Any(ys, cause) {
      assert forall row :: row in xs <==> row in multiset(xs);
      assert forall row :: row in ys <==> row in multiset(ys);
    }
  }

  // ---- Compose: a map of the rows seen, then one pass over it in any order -------------

  ghost predicate Collected(rows: seq<RoleRow>, i: nat, seen: map<Role, RoleRow>)
    requires i <= |rows|
  {
    && (forall j :: 0 <= j < i ==> rows[j].role in seen && seen[rows[j].role] == rows[j])
    && (forall r :: r in seen ==> seen[r].role == r && seen[r] in rows[..i])
    && |seen| == i
  }

  lemma CollectedStart(rows: seq<RoleRow>)
    ensures DistinctRoles(rows[..0]) && Collected(rows, 0, map[])
  {
  }

  lemma CollectedStep(rows: seq<RoleRow>, i: nat, seen: map<Role, RoleRow>)
    requires i < |rows| && DistinctRoles(rows[..i]) && Collected(rows, i, seen)
    ensures rows[i].role in seen ==> !DistinctRoles(rows)
    ensures rows[i].role !in seen ==>
              DistinctRoles(rows[..i + 1]) && Collected(rows, i + 1, seen[rows[i].role := rows[i]])
  {
    var front, row := rows[..i], rows[i];
    assert rows[..i + 1] == front + [row];
    assert forall j :: 0 <= j < i ==> front[j] == rows[j];
  }

  lemma CollectedSize(rows: seq<RoleRow>, seen: map<Role, RoleRow>)
    requires Collected(rows, |rows|, seen)
    ensures |seen| == |rows|
  {
  }

  method Compose(rows: seq<RoleRow>) returns (r: Result<Verdict, ComposeError>)
    ensures r.Ok? <==> Composable(rows)
    ensures r.Ok? ==> r.value == Decide(rows)
  {
    hide Collected, DistinctRoles, Decide;
    var seen: map<Role, RoleRow> := map[];
    CollectedStart(rows);
    for i := 0 to |rows|
      invariant DistinctRoles(rows[..i]) && Collected(rows, i, seen)
      invariant forall j :: 0 <= j < i ==> RowOk(rows[j])
    {
      var row := rows[i];
      assert row in rows;
      CollectedStep(rows, i, seen);
      if row.role in seen {
        return Err(DuplicateRole(row.role));
      }
      if !row.status.IsTerminal() {
        return Err(NotTerminal(row.role));
      }
      if row.status.Interrupted? != row.cause.Some? {
        return Err(BadCause(row.role));
      }
      seen := seen[row.role := row];
    }
    CollectedSize(rows, seen);
    assert rows[..|rows|] == rows;
    if |seen| != |ROLES| {
      return Err(RoleCount(|seen|));
    }
    var verdict := Tally(rows, seen);
    return Ok(verdict);
  }

  /** The second loop ranges over a map, so the rows come in an order of the run time's choosing. */
  method Tally(ghost rows: seq<RoleRow>, seen: map<Role, RoleRow>) returns (v: Verdict)
    requires Composable(rows) && Collected(rows, |rows|, seen)
    ensures v == Decide(rows)
  {
    hide RowOk, Composable, Collected, Visited, Any, Completed, Decide, DistinctRoles;
    TallyStart(rows, seen);
    var completed := 0;
    var hasUserCancelled, hasProcessRestart, hasDeadlineCutoff := false, false, false;
    ghost var visited: seq<RoleRow> := [];
    var left := seen.Keys;
    while left != {}
      invariant left <= seen.Keys && |visited| + |left| == |seen|
      invariant Visited(visited, seen, left)
      invariant completed == Completed(visited)
      invariant hasUserCancelled == Any(visited, UserCancelled)
      invariant hasProcessRestart == Any(visited, ProcessRestart)
      invariant hasDeadlineCutoff == Any(visited, DeadlineCutoff)
      decreases left
    {
      var role :| role in left;
      var row := seen[role];
      RowSeen(rows, seen, role);
      AnySnoc(visited, row);
      VisitedSnoc(visited, seen, left, role);
      if row.status.RoleComplete? {
        completed := completed + 1;
      }
      if row.status.Interrupted? {
        match row.cause.value
        case UserCancelled => hasUserCancelled := true;
        case ProcessRestart => hasProcessRestart := true;
        case DeadlineCutoff => hasDeadlineCutoff := true;
      }
      visited := visited + [row];
      left := left - {role};
    }
    Tallied(rows, seen, visited);
    var reason := if hasProcessRestart then ReasonProcessRestart
                  else if hasDeadlineCutoff then ReasonDeadlineCutoff
                  else RoleFailures;
    if completed == |ROLES| {
      v := Verdict(SessionComplete, AllRolesComplete, completed, |ROLES| - completed);
    } else if hasUserCancelled {
      v := Verdict(Partial, ReasonUserCancelled, completed, |ROLES| - completed);
    } else if completed > 0 {
      v := Verdict(Partial, reason, completed, |ROLES| - completed);
    } else {
      v := Verdict(SessionFailed, reason, completed, |ROLES| - completed);
    }
  }

  lemma TallyStart(rows: seq<RoleRow>, seen: map<Role, RoleRow>)
    requires Collected(rows, |rows|, seen)
    ensures Visited([], seen, seen.Keys) && Completed([]) == 0 && forall c :: !Any([], c)
  {
  }

  lemma RowSeen(rows: seq<RoleRow>, seen: map<Role, RoleRow>, role: Role)
    requires Composable(rows) && Collected(rows, |rows|, seen) && role in seen
    ensures seen[role].role == role && (seen[role].cause.Some? <==> seen[role].status.Interrupted?)
  {
    assert rows[..|rows|] == rows;
    assert RowOk(seen[role]);
  }

  /** The verdict from the flags of the rows, whatever the order they were visited in. */
  lemma Tallied(rows: seq<RoleRow>, seen: map<Role, RoleRow>, visited: seq<RoleRow>)
    requires Composable(rows) && Collected(rows, |rows|, seen) && Visited(visited, seen, {})
    ensures |visited| == |ROLES| && Decide(rows) == Decide(visited)
    ensures Completed(visited) <= |ROLES|
    ensures Decide(visited) ==
              var c := Completed(visited);
              var reason := if Any(visited, ProcessRestart) then ReasonProcessRestart
                            else if Any(visited, DeadlineCutoff) then ReasonDeadlineCutoff
                            else RoleFailures;
              if c == |ROLES| then Verdict(SessionComplete, AllRolesComplete, c, |ROLES| - c)
              else if Any(visited, UserCancelled) then Verdict(Partial, ReasonUserCancelled, c, |ROLES| - c)
              else if c > 0 then Verdict(Partial, reason, c, |ROLES| - c)
              else Verdict(SessionFailed, reason, c, |ROLES| - c)
  {
    hide Completed, Any, RowOk;
    VisitedAll(rows, seen, visited);
    assert |multiset(visited)| == |multiset(rows)|;
    VerdictPermutes(visited, rows);
  }

  ghost predicate Visited(visited: seq<RoleRow>, seen: map<Role, RoleRow>, left: set<Role>)
  {
    && DistinctRoles(visited)
    && (forall row :: row in visited ==> row.role in seen && row.role !in left && seen[row.role] == row)
    && (forall r :: r in seen && r !in left ==> seen[r] in visited)
  }

  lemma AnySnoc(rows: seq<RoleRow>, row: RoleRow)
    ensures forall c :: Any(rows + [row], c) == (Any(rows, c) || row.cause == Some(c))
    ensures Completed(rows + [row]) == Completed(rows) + if row.status.RoleComplete? then 1 else 0
  {
    assert (rows + [row])[..|rows|] == rows;
    forall c ensures Any(rows + [row], c) == (Any(rows, c) || row.cause == Some(c)) {
      assert forall x :: x in rows + [row] <==> x in rows || x == row;
    }
  }

  lemma VisitedSnoc(visited: seq<RoleRow>, seen: map<Role, RoleRow>, left: set<Role>, role: Role)
    requires Visited(visited, seen, left) && role in left && left <= seen.Keys && seen[role].role == role
    ensures Visited(visited + [seen[role]], seen, left - {role})
  {
    var all := visited + [seen[role]];
    assert forall i :: 0 <= i < |visited| ==> visited[i] in visited;
    assert forall x :: x in all <==> x in visited || x == seen[role];
  }

  lemma {:induction false} DistinctMultiplicity(rows: seq<RoleRow>, row: RoleRow)
    requires DistinctRoles(rows)
    ensures multiset(rows)[row] == if row in rows then 1 else 0
  {
    if rows != [] {
      var front, last := rows[..|rows| - 1], rows[|rows| - 1];
      DistinctMultiplicity(front, row);
      assert rows == front + [last];
    }
  }

  lemma VisitedAll(rows: seq<RoleRow>, seen: map<Role, RoleRow>, visited: seq<RoleRow>)
    requires DistinctRoles(rows) && Collected(rows, |rows|, seen) && Visited(visited, seen, {})
    ensures multiset(visited) == multiset(rows)
  {
    assert rows[..|rows|] == rows;
    forall row: RoleRow ensures multiset(visited)[row] == multiset(rows)[row] {
      DistinctMultiplicity(visited, row);
      DistinctMultiplicity(rows, row);
    }
  }

  // ---- Outcomes and the report ----------------------------------------------------------

  datatype RoleOutcome = RoleOutcome(role: Role, status: RoleStatus, findings: seq<Finding>, errorCategory: string,
                                     cause: Option<InterruptCause>, callCount: nat, lastPurpose: Option<CallPurpose>)

  datatype RoleSummary = RoleSummary(role: Role, status: RoleStatus, errorCategory: string,
                                     cause: Option<InterruptCause>, findingCount: nat, callCount: nat,
                                     lastPurpose: Option<CallPurpose>)

  datatype ReportFinding = ReportFinding(role: Role, finding: Finding)

  datatype Report = Report(sessionId: string, snapshotId: string, snapshotHash: Hash, status: SessionStatus,
                           reason: TerminalReason, cancelRequested: bool, completed: nat, incomplete: nat,
                           roles: seq<RoleSummary>, findings: seq<ReportFinding>)

  function RowsFrom(outcomes: seq<RoleOutcome>): (rows: seq<RoleRow>)
    ensures |rows| == |outcomes|
  {
    seq(|outcomes|, i requires 0 <= i < |outcomes| =>
      RoleRow(outcomes[i].role, outcomes[i].status, outcomes[i].cause))
  }

  function Summary(o: RoleOutcome): RoleSummary
  {
    RoleSummary(o.role, o.status, o.errorCategory, o.cause, |o.findings|, o.callCount, o.lastPurpose)
  }

  function Summaries(outcomes: seq<RoleOutcome>): (s: seq<RoleSummary>)
    ensures |s| == |outcomes|
  {
    seq(|outcomes|, i requires 0 <= i < |outcomes| => Summary(outcomes[i]))
  }

  function Tagged(role: Role, findings: seq<Finding>): (t: seq<ReportFinding>)
    ensures |t| == |findings|
  {
    seq(|findings|, i requires 0 <= i < |findings| => ReportFinding(role, findings[i]))
  }

  /** Only a complete role contributes findings. */
  function Contribution(o: RoleOutcome): seq<ReportFinding>
  {
    if o.status.RoleComplete? then Tagged(o.role, o.findings) else []
  }

  function Contributions(outcomes: seq<RoleOutcome>): seq<ReportFinding>
  {
    if outcomes == [] then []
    else Contributions(outcomes[..|outcomes| - 1]) + Contribution(outcomes[|outcomes| - 1])
  }

  // ---- The order of findings ---------------------------------------------------------------

  /** The least basis ref: PrimaryRef's running minimum. */
  function Lowest(refs: seq<string>): (low: string)
    requires refs != []
    ensures low in refs
  {
    if |refs| == 1 then refs[0]
    else
      var low, last := Lowest(refs[..|refs| - 1]), refs[|refs| - 1];
      if Less(last, low) then last else low
  }

  lemma {:induction false} LowestIsLeast(refs: seq<string>)
    requires refs != []
    ensures forall ref :: ref in refs ==> !Less(ref, Lowest(refs))
  {
    var n := |refs| - 1;
    LessIrreflexive(refs[n]);
    if n > 0 {
      var front := refs[..n];
      LowestIsLeast(front);
      forall ref | ref in refs ensures !Less(ref, Lowest(refs)) {
        if ref in front && Less(ref, refs[n]) && Less(refs[n], Lowest(front)) {
          LessTransitive(ref, refs[n], Lowest(front));
        }
      }
    }
  }

  function Primary(f: Finding): string
  {
    if f.basisRefs == [] then f.anchorRef else Lowest(f.basisRefs)
  }

  method PrimaryRef(f: Finding) returns (lowest: string)
    ensures lowest == Primary(f)
  {
    if |f.basisRefs| == 0 {
      return f.anchorRef;
    }
    lowest := f.basisRefs[0];
    for i := 1 to |f.basisRefs|
      invariant lowest == Lowest(f.basisRefs[..i])
    {
      assert f.basisRefs[..i + 1][..i] == f.basisRefs[..i];
      if Less(f.basisRefs[i], lowest) {
        lowest := f.basisRefs[i];
      }
    }
    assert f.basisRefs[..|f.basisRefs|] == f.basisRefs;
  }

  /** The order in which a finding cites its evidence is no part of its place in the report. */
  lemma PrimaryPermutes(f: Finding, g: Finding)
    requires multiset(f.basisRefs) == multiset(g.basisRefs) && f.anchorRef == g.anchorRef
    ensures Primary(f) == Primary(g)
  {
    assert |f.basisRefs| == |multiset(f.basisRefs)| == |multiset(g.basisRefs)| == |g.basisRefs|;
    if f.basisRefs != [] {
      LowestIsLeast(f.basisRefs);
      LowestIsLeast(g.basisRefs);
      var a, b := Lowest(f.basisRefs), Lowest(g.basisRefs);
      assert a in multiset(g.basisRefs) && b in multiset(f.basisRefs);
      LessTotal(a, b);
    }
  }

  predicate FindingLess(a: ReportFinding, b: ReportFinding)
  {
    var sa, sb := SeverityRank(a.finding.severity), SeverityRank(b.finding.severity);
    var ra, rb := RoleOrder(a.role), RoleOrder(b.role);
    var pa, pb := Primary(a.finding), Primary(b.finding);
    if sa != sb then sa < sb
    else if ra != rb then ra < rb
    else if pa != pb then Less(pa, pb)
    else if a.finding.category != b.finding.category then Less(a.finding.category, b.finding.category)
    else Less(a.finding.id, b.finding.id)
  }

  lemma FindingLessTransitive(a: ReportFinding, b: ReportFinding, c: ReportFinding)
    requires FindingLess(a, b) && FindingLess(b, c)
    ensures FindingLess(a, c)
  {
    hide Less, SeverityRank, RoleOrder, Primary;
    StringsTransitive(Primary(a.finding), Primary(b.finding), Primary(c.finding));
    StringsTransitive(a.finding.category, b.finding.category, c.finding.category);
    StringsTransitive(a.finding.id, b.finding.id, c.finding.id);
  }

  lemma StringsTransitive(a: string, b: string, c: string)
    ensures Less(a, b) && Less(b, c) ==> Less(a, c) && a != c
  {
    if Less(a, b) && Less(b, c) {
      LessTransitive(a, b, c);
      LessIrreflexive(a);
    }
  }

  lemma FindingLessIsStrict()
    ensures StrictOrder(FindingLess)
  {
    forall a: ReportFinding ensures !FindingLess(a, a) {
      LessIrreflexive(a.finding.id);
    }
    forall a: ReportFinding, b: ReportFinding, c: ReportFinding | FindingLess(a, b) && FindingLess(b, c)
      ensures FindingLess(a, c)
    {
      FindingLessTransitive(a, b, c);
    }
  }

  /** Findings told apart by role and ID. */
  predicate UniqueFindings(fs: seq<ReportFinding>)
  {
    forall i, j :: 0 <= i < j < |fs| ==> fs[i].role != fs[j].role || fs[i].finding.id != fs[j].finding.id
  }

  lemma UniqueFindingsComparable(fs: seq<ReportFinding>)
    requires UniqueFindings(fs)
    ensures Comparable(fs, FindingLess)
  {
    hide Less, SeverityRank, Primary;
    forall i, j | 0 <= i < j < |fs| ensures FindingLess(fs[i], fs[j]) || FindingLess(fs[j], fs[i]) {
      LessTotal(Primary(fs[i].finding), Primary(fs[j].finding));
      LessTotal(fs[i].finding.category, fs[j].finding.category);
      LessTotal(fs[i].finding.id, fs[j].finding.id);
    }
  }

  predicate SummaryLess(a: RoleSummary, b: RoleSummary)
  {
    RoleOrder(a.role) < RoleOrder(b.role)
  }

  function Built(sessionId: string, snapshotId: string, snapshotHash: Hash, outcomes: seq<RoleOutcome>,
                 v: Verdict, cancelRequested: bool): Report
  {
    Report(sessionId, snapshotId, snapshotHash, v.status, v.reason, cancelRequested, v.completed, v.incomplete,
           Sort(Summaries(outcomes), SummaryLess), Sort(Contributions(outcomes), FindingLess))
  }

  method BuildReport(sessionId: string, snapshotId: string, snapshotHash: Hash, outcomes: seq<RoleOutcome>,
                     v: Verdict, cancelRequested: bool) returns (report: Report)
    ensures report == Built(sessionId, snapshotId, snapshotHash, outcomes, v, cancelRequested)
  {
    hide Sort;
    var roles: seq<RoleSummary> := [];
    var findings: seq<ReportFinding> := [];
    for i := 0 to |outcomes|
      invariant roles == Summaries(outcomes[..i]) && findings == Contributions(outcomes[..i])
    {
      var o := outcomes[i];
      assert outcomes[..i + 1][..i] == outcomes[..i];
      roles := roles + [RoleSummary(o.role, o.status, o.errorCategory, o.cause, |o.findings|, o.callCount,
                                    o.lastPurpose)];
      assert roles == Summaries(outcomes[..i + 1]);
      if !o.status.RoleComplete? {
        assert findings + [] == findings;
        continue;
      }
      ghost var before := findings;
      for j := 0 to |o.findings|
        invariant findings == before + Tagged(o.role, o.findings[..j])
      {
        assert Tagged(o.role, o.findings[..j + 1])
          == Tagged(o.role, o.findings[..j]) + [ReportFinding(o.role, o.findings[j])];
        findings := findings + [ReportFinding(o.role, o.findings[j])];
      }
      assert o.findings[..|o.findings|] == o.findings;
    }
    assert outcomes[..|outcomes|] == outcomes;
    roles := Sort(roles, SummaryLess);
    findings := Sort(findings, FindingLess);
    report := Report(sessionId, snapshotId, snapshotHash, v.status, v.reason, cancelRequested,
                     v.completed, v.incomplete, roles, findings);
  }
}
