/** The rows of internal/storage/sqlite and the checks its schema makes of them. */
module Records {
  import opened Options
  import opened Text
  import opened Domain
  import opened Evidence
  import opened Composer
  import opened RequestHash
  import opened Timestamps

  datatype Session = Session(projectId: string, key: string, requestHash: Digest, snapshotId: string,
                             status: SessionStatus, cancelRequested: bool, createdAt: Instant,
                             claimedAt: Option<Instant>, cutoffAt: Option<Instant>, deadlineAt: Option<Instant>,
                             terminalAt: Option<Instant>, reason: Option<TerminalReason>,
                             completed: nat, incomplete: nat)

  datatype RoleRun = RoleRun(status: RoleStatus, cause: Option<InterruptCause>, errorCategory: Option<string>,
                             errorMessage: Option<string>, callCount: nat, startedAt: Option<Instant>,
                             completedAt: Option<Instant>, createdAt: Instant)

  type RoleMap = map<Role, RoleRun>

  datatype StoredSnapshot = StoredSnapshot(hash: Hash, units: seq<Unit>)

  /** A finding with its citations in ordinal order. */
  datatype FindingRow = FindingRow(sessionId: string, role: Role, finding: Finding)

  /**
   * keys is the UNIQUE(project_id, idempotency_key) index of the sessions table; unitKeys and findings
   * are keyed by the text primary keys the store builds.
   */
  datatype Db = Db(snapshots: map<string, StoredSnapshot>, unitKeys: set<string>,
                   sessions: map<string, Session>, keys: map<(string, string), string>,
                   roles: map<string, RoleMap>, findings: map<string, FindingRow>)

  const EMPTY: Db := Db(map[], {}, map[], map[], map[], map[])

  const MAX_IN_FLIGHT := 2

  // ---- Text keys ---------------------------------------------------------------------

  function UnitKey(snapshotId: string, unitId: string): string
  {
    snapshotId + ":" + unitId
  }

  function RoleRunId(sid: string, role: Role): string
  {
    sid + ":" + RoleName(role)
  }

  function FindingKey(sid: string, role: Role, findingId: string): string
  {
    RoleRunId(sid, role) + ":" + findingId
  }

  lemma RoleNamesDiffer(a: Role, b: Role)
    ensures RoleName(a) == RoleName(b) ==> a == b
    ensures ':' !in RoleName(a)
  {
  }

  lemma LastColon(a: string, x: string, b: string, y: string)
    requires a + ":" + x == b + ":" + y && ':' !in x && ':' !in y
    ensures a == b && x == y
  {
    var s := a + ":" + x;
    assert s[|a|] == ':' && s[|b|] == ':';
    forall p | |a| < p < |s| ensures s[p] != ':' { assert s[p] == x[p - |a| - 1]; }
    forall p | |b| < p < |s| ensures s[p] != ':' { assert s[p] == y[p - |b| - 1]; }
    assert |a| == |b|;
    assert a == s[..|a|] && b == s[..|b|] && x == s[|a| + 1..] && y == s[|b| + 1..];
  }

  /** A role run ID names one session and one role, whatever the session is called. */
  lemma RoleRunIdInjective(s: string, a: Role, t: string, b: Role)
    requires RoleRunId(s, a) == RoleRunId(t, b)
    ensures s == t && a == b
  {
    RoleNamesDiffer(a, b);
    RoleNamesDiffer(b, a);
    LastColon(s, RoleName(a), t, RoleName(b));
  }

  /** Session ID t begins with the run ID of a role of s, as a whole or up to a colon. */
  predicate Extends(t: string, s: string)
  {
    exists a: Role :: ExtendsRun(t, s, a)
  }

  predicate ExtendsRun(t: string, s: string, a: Role)
  {
    t == RoleRunId(s, a) || HasPrefix(t, RoleRunId(s, a) + ":")
  }

  /** The two session IDs have no finding key in common. */
  predicate Apart(s: string, t: string)
  {
    !Extends(s, t) && !Extends(t, s)
  }

  predicate SameKey(s: string, a: Role, f: string, t: string, b: Role, g: string)
  {
    FindingKey(s, a, f) == FindingKey(t, b, g)
  }

  /** Where a key of a shorter session ID is also one of a longer: the longer extends a run ID of the shorter. */
  lemma KeyInside(s: string, a: Role, f: string, t: string, b: Role, g: string)
    requires SameKey(s, a, f, t, b, g) && |s| < |t|
    ensures ExtendsRun(t, s, a)
  {
    assert FindingKey(t, b, g) == t + ":" + (RoleName(b) + ":" + g);
    RoleNamesDiffer(a, a);
    var run := RoleRunId(s, a);
    forall p | |s| < p < |run| ensures run[p] != ':' {
      assert run[p] == RoleName(a)[p - |s| - 1];
    }
    RunInside(run, f, t, RoleName(b) + ":" + g, |s|);
  }

  lemma RunInside(run: string, f: string, t: string, rest: string, n: nat)
    requires run + ":" + f == t + ":" + rest && n < |t| && forall p :: n < p < |run| ==> run[p] != ':'
    ensures t == run || HasPrefix(t, run + ":")
  {
    var k := run + ":" + f;
    assert k[|t|] == ':' && k[..|t|] == t && k[..|run|] == run && k[..|run| + 1] == run + ":";
  }

  /** Every finding of a session whose ID extends another's has the key of some finding of the other's. */
  lemma ExtendedKey(s: string, t: string, b: Role, g: string) returns (a: Role, f: string)
    requires Extends(t, s)
    ensures SameKey(s, a, f, t, b, g)
  {
    hide ExtendsRun;
    a :| ExtendsRun(t, s, a);
    f := ExtendedRunKey(s, a, t, RoleName(b) + ":" + g);
    KeyParts(t, b, g);
  }

  lemma KeyParts(t: string, b: Role, g: string)
    ensures FindingKey(t, b, g) == t + (":" + (RoleName(b) + ":" + g))
  {
  }

  lemma ExtendedRunKey(s: string, a: Role, t: string, rest: string) returns (f: string)
    requires ExtendsRun(t, s, a)
    ensures FindingKey(s, a, f) == t + (":" + rest)
  {
    hide RoleRunId;
    var run := RoleRunId(s, a);
    if t == run {
      f := rest;
    } else {
      f := t[|run| + 1..] + (":" + rest);
      assert t == (run + ":") + t[|run| + 1..];
    }
  }

  /** Two sessions have a finding key in common if and only if the ID of one extends a run ID of the other. */
  lemma SharedKeys(s: string, t: string)
    requires s != t
    ensures (exists a, f, b, g :: SameKey(s, a, f, t, b, g)) <==> !Apart(s, t)
  {
    hide ExtendsRun, SameKey;
    if a, f, b, g :| SameKey(s, a, f, t, b, g) {
      KeySides(s, a, f, t, b, g);
    }
    if Extends(t, s) {
      var a, f := ExtendedKey(s, t, QA, "");
    }
    if Extends(s, t) {
      var a, f := ExtendedKey(t, s, QA, "");
      SameKeyBack(t, a, f, s, QA, "");
    }
  }

  lemma KeySides(s: string, a: Role, f: string, t: string, b: Role, g: string)
    requires SameKey(s, a, f, t, b, g) && s != t
    ensures Extends(t, s) || Extends(s, t)
  {
    hide ExtendsRun;
    if |s| < |t| {
      KeyInside(s, a, f, t, b, g);
    } else if |t| < |s| {
      KeyInside(t, b, g, s, a, f);
    } else {
      SameLength(s, a, f, t, b, g);
    }
  }

  lemma SameLength(s: string, a: Role, f: string, t: string, b: Role, g: string)
    requires SameKey(s, a, f, t, b, g) && |s| == |t|
    ensures s == t
  {
    assert FindingKey(s, a, f)[..|s|] == s && FindingKey(t, b, g)[..|t|] == t;
  }

  lemma SameKeyBack(s: string, a: Role, f: string, t: string, b: Role, g: string)
    ensures SameKey(s, a, f, t, b, g) <==> SameKey(t, b, g, s, a, f)
  {
  }

  lemma OneOwner(s: string, a: Role, f: string, t: string, b: Role, g: string)
    requires FindingKey(s, a, f) == FindingKey(t, b, g) && (s == t || Apart(s, t))
    ensures s == t
  {
    hide FindingKey, Extends;
    if s != t {
      assert SameKey(s, a, f, t, b, g);
      KeySides(s, a, f, t, b, g);
    }
  }

  lemma KeyTail(s: string, a: Role, f: string)
    ensures FindingKey(s, a, f)[|s| + 1..] == RoleName(a) + ":" + f
  {
  }

  /** In one session, or in two that are apart, a finding key names one finding. */
  lemma FindingKeyInjective(s: string, a: Role, f: string, t: string, b: Role, g: string)
    requires FindingKey(s, a, f) == FindingKey(t, b, g) && (s == t || Apart(s, t))
    ensures s == t && a == b && f == g
  {
    OneOwner(s, a, f, t, b, g);
    hide Apart;
    KeyTail(s, a, f);
    KeyTail(s, b, g);
    RoleNamesDiffer(a, b);
    RoleNamesDiffer(b, a);
    FirstColon(RoleName(a), f, RoleName(b), g);
  }

  lemma FirstColon(a: string, x: string, b: string, y: string)
    requires a + ":" + x == b + ":" + y && ':' !in a && ':' !in b
    ensures a == b && x == y
  {
    var s := a + ":" + x;
    assert s[|a|] == ':' && s[|b|] == ':';
    forall p | 0 <= p < |a| ensures s[p] != ':' { assert s[p] == a[p]; }
    forall p | 0 <= p < |b| ensures s[p] != ':' { assert s[p] == b[p]; }
    assert |a| == |b|;
    assert a == s[..|a|] && b == s[..|b|] && x == s[|a| + 1..] && y == s[|b| + 1..];
  }

  /** IDs without colons, as the generated ones are, are apart. */
  lemma ColonFreeApart(s: string, t: string)
    requires ':' !in s && ':' !in t
    ensures Apart(s, t)
  {
    forall a: Role ensures !ExtendsRun(t, s, a) && !ExtendsRun(s, t, a) {
      ColonInside(t, s, a);
      ColonInside(s, t, a);
    }
  }

  lemma ColonInside(t: string, s: string, a: Role)
    ensures ExtendsRun(t, s, a) ==> ':' in t
  {
    var run := RoleRunId(s, a);
    assert run[|s|] == ':' && (run + ":")[|s|] == ':';
    if ExtendsRun(t, s, a) && t != run {
      assert t[|s|] == (run + ":")[|s|];
    }
  }

  /** For example these two findings meet on one key. */
  lemma FindingKeysCollide()
    ensures FindingKey("s", QA, "x:qa:y") == FindingKey("s:qa:x", QA, "y") && Extends("s:qa:x", "s")
  {
    assert FindingKey("s", QA, "x:qa:y") == "s:qa:x:qa:y";
    assert FindingKey("s:qa:x", QA, "y") == "s:qa:x:qa:y";
    assert RoleRunId("s", QA) + ":" == "s:qa:";
    assert ExtendsRun("s:qa:x", "s", QA);
  }

  // ---- Counting roles -------------------------------------------------------------------

  predicate AllRoles(rs: RoleMap)
  {
    forall r: Role :: r in rs
  }

  function One(b: bool): nat
  {
    if b then 1 else 0
  }

  predicate Is(rs: RoleMap, r: Role, status: RoleStatus)
  {
    r in rs && rs[r].status == status
  }

  function CountOf(rs: RoleMap, status: RoleStatus): nat
  {
    One(Is(rs, Requirements, status)) + One(Is(rs, Architecture, status)) + One(Is(rs, QA, status))
    + One(Is(rs, Security, status))
  }

  /** The first role of that status in canonical order. */
  function FirstOf(rs: RoleMap, status: RoleStatus): Option<Role>
  {
    if Is(rs, Requirements, status) then Some(Requirements)
    else if Is(rs, Architecture, status) then Some(Architecture)
    else if Is(rs, QA, status) then Some(QA)
    else if Is(rs, Security, status) then Some(Security)
    else None
  }

  lemma FirstOfMeaning(rs: RoleMap, status: RoleStatus, q: Role)
    ensures var r := FirstOf(rs, status);
            && (r.Some? ==> Is(rs, r.value, status) && (Is(rs, q, status) ==> RoleOrder(r.value) <= RoleOrder(q)))
            && (r.None? ==> !Is(rs, q, status))
  {
    match q
    case Requirements =>
    case Architecture =>
    case QA =>
    case Security =>
  }

  /** The roles of that status in canonical order. */
  function RolesWith(rs: RoleMap, status: RoleStatus): (roles: seq<Role>)
    ensures |roles| == CountOf(rs, status)
  {
    RoleIf(rs, Requirements, status) + RoleIf(rs, Architecture, status) + RoleIf(rs, QA, status)
    + RoleIf(rs, Security, status)
  }

  function RoleIf(rs: RoleMap, r: Role, status: RoleStatus): seq<Role>
  {
    if Is(rs, r, status) then [r] else []
  }

  predicate InRoleOrder(roles: seq<Role>)
  {
    forall i, j :: 0 <= i < j < |roles| ==> RoleOrder(roles[i]) < RoleOrder(roles[j])
  }

  lemma RolesWithMeaning(rs: RoleMap, status: RoleStatus)
    ensures forall r: Role :: r in RolesWith(rs, status) <==> Is(rs, r, status)
    ensures InRoleOrder(RolesWith(rs, status))
  {
    hide Is, InRoleOrder;
    var two := RoleIf(rs, Requirements, status) + RoleIf(rs, Architecture, status);
    OneMoreInOrder([], rs, Requirements, status);
    assert [] + RoleIf(rs, Requirements, status) == RoleIf(rs, Requirements, status);
    OneMoreInOrder(RoleIf(rs, Requirements, status), rs, Architecture, status);
    OneMoreInOrder(two, rs, QA, status);
    OneMoreInOrder(two + RoleIf(rs, QA, status), rs, Security, status);
    forall r: Role ensures r in RolesWith(rs, status) <==> Is(rs, r, status) {
      match r
      case Requirements =>
      case Architecture =>
      case QA =>
      case Security =>
    }
  }

  lemma OneMoreInOrder(roles: seq<Role>, rs: RoleMap, r: Role, status: RoleStatus)
    requires roles != [] ==> InRoleOrder(roles) && forall q :: q in roles ==> RoleOrder(q) < RoleOrder(r)
    ensures InRoleOrder(roles + RoleIf(rs, r, status))
  {
    hide Is;
    var all := roles + RoleIf(rs, r, status);
    forall i, j | 0 <= i < j < |all| ensures RoleOrder(all[i]) < RoleOrder(all[j]) {
      assert all[i] in roles;
    }
  }

  predicate AllTerminal(rs: RoleMap)
  {
    forall r :: r in rs ==> rs[r].status.IsTerminal()
  }

  // ---- The checks of the schema ------------------------------------------------------------

  predicate AtLeast(a: Option<Instant>, b: Option<Instant>)
  {
    a.None? || b.None? || a.value >= b.value
  }

  /** The table-level checks of role_runs. */
  predicate RoleRunRowOk(run: RoleRun)
  {
    && run.callCount <= 2 && AtLeast(run.completedAt, run.startedAt)
    && (run.errorCategory.Some? ==> IsValidErrorCategory(run.errorCategory.value))
    && match run.status
       case Pending =>
         run.startedAt.None? && run.completedAt.None? && run.cause.None? && run.errorCategory.None?
         && run.errorMessage.None? && run.callCount == 0
       case InFlight =>
         run.startedAt.Some? && run.completedAt.None? && run.cause.None? && run.errorCategory.None?
           && run.errorMessage.None?
       case RoleComplete =>
         run.startedAt.Some? && run.completedAt.Some? && run.cause.None? && run.errorCategory.None?
         && run.errorMessage.None? && run.callCount >= 1
       case RoleFailed =>
         run.completedAt.Some? && run.cause.None? && run.errorCategory.Some?
       case Interrupted =>
         run.completedAt.Some? && run.cause.Some? && run.errorCategory.None? && run.errorMessage.None?
  }

  /** The table-level checks of sessions. */
  predicate SessionRowOk(s: Session)
  {
    && s.completed + s.incomplete == |ROLES|
    && AtLeast(s.deadlineAt, s.cutoffAt) && AtLeast(s.claimedAt, Some(s.createdAt))
      && AtLeast(s.terminalAt, s.claimedAt)
    && match s.status
       case Queued =>
         s.claimedAt.None? && s.cutoffAt.None? && s.deadlineAt.None? && s.terminalAt.None? && s.reason.None?
         && s.completed == 0
       case Reviewing =>
         s.claimedAt.Some? && s.cutoffAt.Some? && s.deadlineAt.Some? && s.terminalAt.None? && s.reason.None?
       case _ =>
         s.claimedAt.Some? && s.cutoffAt.Some? && s.deadlineAt.Some? && s.terminalAt.Some? && s.reason.Some?
         && TerminalFields(s.status, s.reason.value, s.completed, s.incomplete)
  }

  // ---- What the schema leaves to the code ---------------------------------------------------

  /** How a run's times and cause follow from its session. */
  predicate RunFollows(run: RoleRun, s: Session)
  {
    && (run.startedAt.Some? ==> s.claimedAt.Some? && s.cutoffAt.Some? && run.startedAt.value < s.cutoffAt.value)
    && (run.status.RoleFailed? ==> run.startedAt.Some?)
    && (run.cause == Some(UserCancelled) ==> s.cancelRequested && run.startedAt.None?)
    && (run.cause == Some(DeadlineCutoff) ==>
          run.startedAt.None? && s.cutoffAt.Some? && run.completedAt.Some? && run.completedAt.value >= s.cutoffAt.value)
  }

  function RowOf(rs: RoleMap, r: Role): RoleRow
    requires r in rs
  {
    RoleRow(r, rs[r].status, rs[r].cause)
  }

  /** The rows Compose decides on, in canonical order. */
  function RowsOf(rs: RoleMap): (rows: seq<RoleRow>)
    requires AllRoles(rs)
    ensures |rows| == |ROLES|
  {
    [RowOf(rs, Requirements), RowOf(rs, Architecture), RowOf(rs, QA), RowOf(rs, Security)]
  }

  /** Session status and role statuses agree, and a terminal session stores the verdict of its rows. */
  predicate Coupled(s: Session, rs: RoleMap)
    requires AllRoles(rs)
  {
    match s.status
    case Queued => CountOf(rs, Pending) == |ROLES|
    case Reviewing => CountOf(rs, InFlight) <= MAX_IN_FLIGHT
    case _ => AllTerminal(rs) && s.reason.Some?
              && Verdict(s.status, s.reason.value, s.completed, s.incomplete) == Decide(RowsOf(rs))
  }

  predicate SessionOk(s: Session, rs: RoleMap)
  {
    && AllRoles(rs) && SessionRowOk(s) && Coupled(s, rs)
    && forall r :: r in rs ==> RoleRunRowOk(rs[r]) && RunFollows(rs[r], s)
  }
}
