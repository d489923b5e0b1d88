/** internal/review/validate.go, and the parameter validators of internal/storage/sqlite/publish.go. */
module Validation {
  import opened Options
  import opened Text
  import opened Domain
  import opened Evidence

  // ---- What a finding must look like ----------------------------------------------------

  predicate RefsOk(refs: seq<string>)
  {
    (forall ref :: ref in refs ==> !Blank(ref)) && forall i, j :: 0 <= i < j < |refs| ==> refs[i] != refs[j]
  }

  predicate AnchorOk(f: Finding)
  {
    if f.kind == MISSING then !Blank(f.anchorRef) else Blank(f.anchorRef)
  }

  /** Everything demanded of a finding taken alone; lengths are in bytes. */
  predicate FindingOk(f: Finding)
  {
    && !Blank(f.id) && IsValidSeverity(f.severity) && !Blank(f.category)
    && !Blank(f.issue) && ByteLen(f.issue) <= MAX_ISSUE_CHARS
    && !Blank(f.recommendation) && ByteLen(f.recommendation) <= MAX_RECOMMENDATION_CHARS
    && IsValidFindingKind(f.kind)
    && BasisRefsBounds(f.kind).0 <= |f.basisRefs| <= BasisRefsBounds(f.kind).1
    && AnchorOk(f) && RefsOk(f.basisRefs)
  }

  predicate DistinctIds(fs: seq<Finding>)
  {
    forall i, j :: 0 <= i < j < |fs| ==> fs[i].id != fs[j].id
  }

  predicate FindingsOk(fs: seq<Finding>)
  {
    DistinctIds(fs) && forall f :: f in fs ==> FindingOk(f)
  }

  predicate StructureOk(fs: seq<Finding>)
  {
    |fs| <= MAX_FINDINGS_PER_ROLE && FindingsOk(fs)
  }

  predicate Cites(f: Finding, snap: Snapshot)
  {
    && (forall ref :: ref in f.basisRefs ==> snap.HasRef(ref))
    && (f.anchorRef == "" || snap.HasRef(f.anchorRef))
  }

  predicate CitesAll(fs: seq<Finding>, snap: Snapshot)
  {
    forall f :: f in fs ==> Cites(f, snap)
  }

  predicate Accepted(fs: seq<Finding>, snap: Snapshot)
  {
    StructureOk(fs) && CitesAll(fs, snap)
  }

  // ---- The validators -------------------------------------------------------------------

  method CheckRefs(refs: seq<string>) returns (ok: bool)
    ensures ok == RefsOk(refs)
  {
    hide Blank;
    var seen: set<string> := {};
    for j := 0 to |refs|
      invariant seen == set k | 0 <= k < j :: refs[k]
      invariant RefsOk(refs[..j])
    {
      if Blank(refs[j]) || refs[j] in seen {
        return false;
      }
      assert refs[..j + 1] == refs[..j] + [refs[j]];
      seen := seen + {refs[j]};
    }
    assert refs[..|refs|] == refs;
    return true;
  }

  method CheckFinding(f: Finding, seen: set<string>) returns (ok: bool)
    ensures ok <==> f.id !in seen && FindingOk(f)
  {
    hide Blank, ByteLen, RefsOk;
    if Blank(f.id) || f.id in seen || !IsValidSeverity(f.severity) || Blank(f.category) {
      return false;
    }
    if Blank(f.issue) || ByteLen(f.issue) > MAX_ISSUE_CHARS {
      return false;
    }
    if Blank(f.recommendation) || ByteLen(f.recommendation) > MAX_RECOMMENDATION_CHARS {
      return false;
    }
    if !IsValidFindingKind(f.kind) {
      return false;
    }
    var (minRefs, maxRefs) := BasisRefsBounds(f.kind);
    if |f.basisRefs| < minRefs || |f.basisRefs| > maxRefs {
      return false;
    }
    if (f.kind == EXISTING || f.kind == CONFLICTING) && !Blank(f.anchorRef) {
      return false;
    }
    if f.kind == MISSING && Blank(f.anchorRef) {
      return false;
    }
    ok := CheckRefs(f.basisRefs);
  }

  datatype Fault = TooMany | At(index: nat)

  /** The first finding the checks stop at. */
  predicate FirstFault(fs: seq<Finding>, i: nat)
  {
    i < |fs| && FindingsOk(fs[..i]) && !FindingsOk(fs[..i + 1])
  }

  function IdsIn(fs: seq<Finding>): set<string>
  {
    set f | f in fs :: f.id
  }

  lemma FindingsOkSnoc(fs: seq<Finding>, i: nat)
    requires i < |fs| && FindingsOk(fs[..i])
    ensures FindingsOk(fs[..i + 1]) <==> fs[i].id !in IdsIn(fs[..i]) && FindingOk(fs[i])
    ensures IdsIn(fs[..i + 1]) == IdsIn(fs[..i]) + {fs[i].id}
  {
    hide FindingOk;
    var front := fs[..i];
    assert fs[..i + 1] == front + [fs[i]];
    assert fs[i] in fs[..i + 1] && forall f :: f in front ==> f in fs[..i + 1];
    if fs[i].id in IdsIn(front) {
      var j :| 0 <= j < i && front[j].id == fs[i].id;
      assert fs[..i + 1][j].id == fs[..i + 1][i].id;
    }
  }

  lemma AFaultSpreads(fs: seq<Finding>, n: nat)
    requires n <= |fs|
    ensures FindingsOk(fs) ==> FindingsOk(fs[..n])
  {
    hide FindingOk;
    assert forall f :: f in fs[..n] ==> f in fs;
  }

  method CheckFindings(fs: seq<Finding>) returns (fault: Option<Fault>)
    ensures fault.None? <==> FindingsOk(fs)
    ensures fault.Some? ==> fault.value.At? && FirstFault(fs, fault.value.index)
  {
    hide FindingOk, DistinctIds, FindingsOk, IdsIn;
    NoFindings();
    var seen: set<string> := {};
    assert fs[..0] == [];
    for i := 0 to |fs|
      invariant FindingsOk(fs[..i]) && seen == IdsIn(fs[..i])
    {
      var ok := CheckFinding(fs[i], seen);
      FindingsOkSnoc(fs, i);
      if !ok {
        AFaultSpreads(fs, i + 1);
        return Some(At(i));
      }
      seen := seen + {fs[i].id};
    }
    assert fs[..|fs|] == fs;
    return None;
  }

  lemma NoFindings()
    ensures FindingsOk([]) && IdsIn([]) == {}
  {
  }

  method ValidateStructure(fs: seq<Finding>) returns (fault: Option<Fault>)
    ensures fault.None? <==> StructureOk(fs)
    ensures fault == Some(TooMany) <==> |fs| > MAX_FINDINGS_PER_ROLE
    ensures fault.Some? && fault.value.At? ==> FirstFault(fs, fault.value.index)
  {
    if |fs| > MAX_FINDINGS_PER_ROLE {
      return Some(TooMany);
    }
    fault := CheckFindings(fs);
  }

  method ValidateSemantics(fs: seq<Finding>, snap: Snapshot) returns (fault: Option<nat>)
    ensures fault.None? <==> CitesAll(fs, snap)
    ensures fault.Some? ==>
              fault.value < |fs| && CitesAll(fs[..fault.value], snap) && !Cites(fs[fault.value], snap)
  {
    for i := 0 to |fs|
      invariant CitesAll(fs[..i], snap)
    {
      var refs := fs[i].basisRefs;
      assert fs[i] in fs && fs[i] == fs[..i + 1][i];
      for j := 0 to |refs|
        invariant forall k :: 0 <= k < j ==> snap.HasRef(refs[k])
      {
        if !snap.HasRef(refs[j]) {
          return Some(i);
        }
      }
      if fs[i].anchorRef != "" && !snap.HasRef(fs[i].anchorRef) {
        return Some(i);
      }
      assert fs[..i + 1] == fs[..i] + [fs[i]];
    }
    assert fs[..|fs|] == fs;
    return None;
  }

  /** A provider body after JSON decoding: decoding is strict, and any failure of it is Undecodable. */
  datatype Body = Undecodable | Decoded(findings: seq<Finding>)

  /** The staged pipeline: each stage has its own category, and the first failing stage names it. */
  method DecodeAndValidate(body: Body, snap: Snapshot) returns (r: Result<seq<Finding>, string>)
    ensures r.Ok? <==> body.Decoded? && Accepted(body.findings, snap)
    ensures r.Ok? ==> r.value == body.findings
    ensures r == Err(INVALID_JSON) <==> body.Undecodable?
    ensures r == Err(SCHEMA_INVALID) <==> body.Decoded? && !StructureOk(body.findings)
    ensures r == Err(INVALID_BASIS_REF) <==>
            body.Decoded? && StructureOk(body.findings) && !CitesAll(body.findings, snap)
    ensures r.Err? ==> IsValidErrorCategory(r.error)
  {
    hide StructureOk, CitesAll;
    if body.Undecodable? {
      return Err(INVALID_JSON);
    }
    var structure := ValidateStructure(body.findings);
    if structure.Some? {
      return Err(SCHEMA_INVALID);
    }
    var semantics := ValidateSemantics(body.findings, snap);
    if semantics.Some? {
      return Err(INVALID_BASIS_REF);
    }
    return Ok(body.findings);
  }

  /** The rules of the output schema: at most fifteen findings, each with its own ID, and what each kind has to cite. */
  lemma StructureRules(fs: seq<Finding>)
    ensures StructureOk(fs) <==>
              && |fs| <= 15 && (forall i, j :: 0 <= i < j < |fs| ==> fs[i].id != fs[j].id)
              && forall i :: 0 <= i < |fs| ==> FollowsRules(fs[i])
  {
    forall f ensures FindingOk(f) <==> FollowsRules(f) {
      RulesAreChecks(f);
    }
    hide FindingOk, FollowsRules;
  }

  predicate FollowsRules(f: Finding)
  {
    && !Blank(f.id) && !Blank(f.category) && !Blank(f.issue) && !Blank(f.recommendation)
    && ByteLen(f.issue) <= 1000 && ByteLen(f.recommendation) <= 1000
    && (f.severity == "critical" || f.severity == "high" || f.severity == "medium" || f.severity == "low")
    && (|| (f.kind == "existing" && 1 <= |f.basisRefs| <= 5 && Blank(f.anchorRef))
        || (f.kind == "conflicting" && 2 <= |f.basisRefs| <= 5 && Blank(f.anchorRef))
        || (f.kind == "missing" && |f.basisRefs| <= 5 && !Blank(f.anchorRef)))
    && (forall i :: 0 <= i < |f.basisRefs| ==> !Blank(f.basisRefs[i]))
    && forall i, j :: 0 <= i < j < |f.basisRefs| ==> f.basisRefs[i] != f.basisRefs[j]
  }

  lemma RulesAreChecks(f: Finding)
    ensures FindingOk(f) <==> FollowsRules(f)
  {
    hide Blank, ByteLen;
  }

  lemma CategoryNames(c: string)
    ensures IsValidErrorCategory(c) <==>
              c == "transport" || c == "timeout" || c == "provider_rejected" || c == "budget_exhausted"
              || c == "invalid_json" || c == "schema_invalid" || c == "invalid_basis_ref"
  {
  }

  // ---- Publication parameters ---------------------------------------------------------------

  /** An empty role or project is no constraint. */
  datatype SuccessParams = SuccessParams(projectId: string, sessionId: string, roleRunId: string, role: Option<Role>,
                                         findings: seq<Finding>, callCount: int)

  datatype FailureParams = FailureParams(projectId: string, sessionId: string, roleRunId: string, role: Option<Role>,
                                         errorCategory: string, errorMessage: string, callCount: int)

  predicate SuccessOk(p: SuccessParams)
  {
    !Blank(p.sessionId) && !Blank(p.roleRunId) && 1 <= p.callCount <= MAX_PROVIDER_CALLS_PER_ROLE
      && StructureOk(p.findings)
  }

  predicate FailureOk(p: FailureParams)
  {
    !Blank(p.sessionId) && !Blank(p.roleRunId) && 0 <= p.callCount <= MAX_PROVIDER_CALLS_PER_ROLE
    && IsValidErrorCategory(p.errorCategory)
  }

  datatype ParamFault = NoSessionId | NoRoleRunId | BadCallCount | BadCategory | BadFindings(fault: Fault)

  method ValidateSuccess(p: SuccessParams) returns (fault: Option<ParamFault>)
    ensures fault.None? <==> SuccessOk(p)
    ensures fault.Some? && fault.value.BadFindings? ==>
              !StructureOk(p.findings) && SuccessOk(p.(findings := []))
  {
    hide Blank, FindingOk;
    if Blank(p.sessionId) {
      return Some(NoSessionId);
    }
    if Blank(p.roleRunId) {
      return Some(NoRoleRunId);
    }
    if p.callCount < 1 || p.callCount > MAX_PROVIDER_CALLS_PER_ROLE {
      return Some(BadCallCount);
    }
    if |p.findings| > MAX_FINDINGS_PER_ROLE {
      return Some(BadFindings(TooMany));
    }
    var found := CheckFindings(p.findings);
    if found.Some? {
      return Some(BadFindings(found.value));
    }
    return None;
  }

  method ValidateFailure(p: FailureParams) returns (fault: Option<ParamFault>)
    ensures fault.None? <==> FailureOk(p)
    ensures fault == Some(BadCategory) <==>
              !IsValidErrorCategory(p.errorCategory) && FailureOk(p.(errorCategory := TRANSPORT))
  {
    if Blank(p.sessionId) {
      return Some(NoSessionId);
    }
    if Blank(p.roleRunId) {
      return Some(NoRoleRunId);
    }
    if p.callCount < 0 || p.callCount > MAX_PROVIDER_CALLS_PER_ROLE {
      return Some(BadCallCount);
    }
    if !IsValidErrorCategory(p.errorCategory) {
      return Some(BadCategory);
    }
    return None;
  }

  // ---- The rows the schema takes ------------------------------------------------------------

  /** The column checks of the findings and finding_basis_refs tables, and the anchor triggers. */
  predicate TableRowOk(f: Finding)
  {
    && f.id != "" && IsValidSeverity(f.severity) && f.category != ""
    && 0 < |f.issue| <= 1000 && 0 < |f.recommendation| <= 1000
    && IsValidFindingKind(f.kind) && (f.kind == MISSING <==> f.anchorRef != "")
    && |f.basisRefs| <= 5 && forall i, j :: 0 <= i < j < |f.basisRefs| ==> f.basisRefs[i] != f.basisRefs[j]
  }

  lemma NotBlankNotEmpty(s: string)
    ensures !Blank(s) ==> s != ""
  {
  }

  /**
   * What the validator accepts the tables take. The structural check lets a non-missing finding carry
   * an anchor of white space, which the anchor trigger would refuse; the citation check catches it,
   * because a frozen snapshot has no blank unit ID.
   */
  lemma AcceptedTableRowOk(fs: seq<Finding>, id: string, units: seq<Unit>, f: Finding)
    requires Freezable(id, units) && Accepted(fs, Frozen(id, units)) && f in fs
    ensures TableRowOk(f)
    ensures f.kind != MISSING ==> f.anchorRef == ""
  {
    assert FindingOk(f);
    StructureMeetsTable(f);
    hide Blank;
    NotBlankNotEmpty(f.anchorRef);
    if f.anchorRef != "" {
      FrozenHasRef(id, units, f.anchorRef);
      var u :| u in units && u.id == f.anchorRef;
      assert UnitOk(u);
    }
  }

  /**
   * Exactly which well-formed findings the tables take: the missing ones, and those whose anchor is empty
   * and not merely blank.
   */
  lemma StructureMeetsTable(f: Finding)
    requires FindingOk(f)
    ensures TableRowOk(f) <==> f.kind == MISSING || f.anchorRef == ""
  {
    hide Blank;
    NotBlankNotEmpty(f.id);
    NotBlankNotEmpty(f.category);
    NotBlankNotEmpty(f.issue);
    NotBlankNotEmpty(f.recommendation);
    NotBlankNotEmpty(f.anchorRef);
  }

  /** So the structural check alone admits a finding the tables refuse, for example this one. */
  lemma StructureIsNotEnough()
    ensures var f := Finding("F", EXISTING, "high", "c", "i", "r", ["a"], " ");
            StructureOk([f]) && f.anchorRef != "" && !TableRowOk(f)
  {
    var f := Finding("F", EXISTING, "high", "c", "i", "r", ["a"], " ");
    assert FindingOk(f);
    StructureMeetsTable(f);
  }
}
