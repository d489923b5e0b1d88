/** The vocabulary of internal/domain: roles, states, their legal transitions, findings. */
module Domain {

  // ---- Roles ----------------------------------------------------------------

  datatype Role = Requirements | Architecture | QA | Security

  /** domain.Roles: dispatch order. */
  const ROLES: seq<Role> := [Requirements, Architecture, QA, Security]

  function RoleOrder(r: Role): nat
  {
    match r
    case Requirements => 0
    case Architecture => 1
    case QA => 2
    case Security => 3
  }

  function RoleName(r: Role): string
  {
    match r
    case Requirements => "requirements"
    case Architecture => "architecture"
    case QA => "qa"
    case Security => "security"
  }

  lemma RolesAreAll(r: Role)
    ensures r in ROLES && ROLES[RoleOrder(r)] == r
  {
  }

  // ---- Role and session states ----------------------------------------------

  datatype RoleStatus = Pending | InFlight | RoleComplete | RoleFailed | Interrupted
  {
    predicate IsTerminal() { RoleComplete? || RoleFailed? || Interrupted? }
  }

  predicate CanTransition(from: RoleStatus, to: RoleStatus)
  {
    match from
    case Pending => to == InFlight || to == Interrupted
    case InFlight => to == RoleComplete || to == RoleFailed || to == Interrupted
    case _ => false
  }

  datatype SessionStatus = Queued | Reviewing | SessionComplete | Partial | SessionFailed
  {
    predicate IsTerminal() { SessionComplete? || Partial? || SessionFailed? }
  }

  predicate LegalSessionTransition(from: SessionStatus, to: SessionStatus)
  {
    match from
    case Queued => to == Reviewing
    case Reviewing => to.IsTerminal()
    case _ => false
  }

  datatype TerminalReason = AllRolesComplete | ReasonUserCancelled | ReasonProcessRestart
                          | ReasonDeadlineCutoff | RoleFailures

  datatype InterruptCause = UserCancelled | DeadlineCutoff | ProcessRestart

  // ---- Error categories: provider errors may carry any text ------------------

  const TRANSPORT := "transport"
  const TIMEOUT := "timeout"
  const PROVIDER_REJECTED := "provider_rejected"
  const BUDGET_EXHAUSTED := "budget_exhausted"
  const INVALID_JSON := "invalid_json"
  const SCHEMA_INVALID := "schema_invalid"
  const INVALID_BASIS_REF := "invalid_basis_ref"

  predicate IsValidErrorCategory(c: string)
  {
    c == TRANSPORT || c == TIMEOUT || c == PROVIDER_REJECTED || c == BUDGET_EXHAUSTED
    || c == INVALID_JSON || c == SCHEMA_INVALID || c == INVALID_BASIS_REF
  }

  predicate IsRetryableTransport(c: string)
  {
    c == TRANSPORT || c == TIMEOUT
  }

  datatype CallPurpose = Initial | TransportRetry | FormatRepair

  const MAX_PROVIDER_CALLS_PER_ROLE := 2

  // ---- Findings ---------------------------------------------------------------

  datatype Finding = Finding(id: string, kind: string, severity: string, category: string,
                             issue: string, recommendation: string, basisRefs: seq<string>, anchorRef: string)

  const EXISTING := "existing"
  const CONFLICTING := "conflicting"
  const MISSING := "missing"

  predicate IsValidFindingKind(k: string)
  {
    k == EXISTING || k == CONFLICTING || k == MISSING
  }

  /** The inclusive bounds on the number of citations; an unknown kind gets (0, 0). */
  function BasisRefsBounds(k: string): (nat, nat)
  {
    if k == EXISTING then (1, 5)
    else if k == CONFLICTING then (2, 5)
    else if k == MISSING then (0, 5)
    else (0, 0)
  }

  function SeverityRank(s: string): nat
  {
    if s == "critical" then 0
    else if s == "high" then 1
    else if s == "medium" then 2
    else if s == "low" then 3
    else 4
  }

  predicate IsValidSeverity(s: string)
  {
    SeverityRank(s) < 4
  }

  const MAX_FINDINGS_PER_ROLE := 15
  const MAX_ISSUE_CHARS := 1000
  const MAX_RECOMMENDATION_CHARS := 1000
}
