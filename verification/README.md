# SpecCouncil review protocol: a Dafny model

SpecCouncil reviews a specification with four reviewer roles. A session, its four role rows, its frozen evidence
snapshot and its findings live in a SQLite database, and every change is one `BEGIN IMMEDIATE` transaction. A worker
with a dispatcher loop, one goroutine a role and a coordinator drives one session at a time to a terminal report. A pure
ingestion pipeline makes the evidence units that every finding has to cite. This project models those parts and proves
what the protocol promises over every run: any steps, in any order, with any clock values, crashes and restarts included.

| part | files |
|---|---|
| Ingestion | `Evidence`, `Parser`, `ParserProperties`, `BlockIds`, `Ingest`, `LineKinds` (from the characters of a line to its unit) |
| Encodings and schema | `Timestamps`, `LegacyTimestamps`, `RequestHash`, `Records`, `Domain` |
| Reports and validation | `Composer`, `ReportOrder`, `Validation` |
| One role's execution, the sequential engine | `RoleRunner`, `Timing`, `Engine` |
| The persisted protocol | `Database` (the transactions as functions), `DbInvariant`, `DbSteps`, `DbRuns`, `DbProgress`, `FrozenReports`, `Scenarios` (particular sessions), `KeyClash` and `UnitClashes` (text keys that meet), `Sweeps`, `RowEffects` and `Composition` (what each transaction leaves, column by column), `Store` (the class that carries them out) |
| The worker | `Dispatcher`, `DbEffects`, `Worker` (its state machine), `WorkerSafety`, `WorkerRuns`, `Signals`, `Schedules`, `Planning`, `Completion`, `Liveness`, `LostWake` |
| Retried transactions, benchmark scores | `Immediate`, `Scoring` |
| Helpers | `Options`, `Text`, `Sorting` |

How the pieces fit. `Database` says what each transaction does to the tables. `SqliteStore.Store` is a class over mutable
tables whose methods follow the Go code statement by statement and are proved to have exactly that effect, with a ghost
history of the committed steps. `RowEffects`, `Sweeps` and `Composition` say what each transaction leaves in every column,
without the functions that compute it, and what follows for later runs. `DbInvariant.Inv` is what every transaction keeps, and `DbInvariant.StepOk` is what every
transaction does relative to the transition tables of `internal/domain/status.go`, to which the SQL never refers. `Worker` is
the concurrent worker as program counters over the store's steps: the owner loop, the goroutine of each role, the
coordinator, other clients of the database, crashes and reboots. An instant is a number of nanoseconds since the start of
year 0, below the end of year 9999; where the SQL compares timestamps as text the model compares texts.

What the proofs settle about the code, where one might expect otherwise. A session id that trimming changes, or one with colons,
can only come from a direct caller of `Store.Submit`: internal/api/server.go:332-337 never passes one, and generated ids have neither.

- The key of a finding joins session, role and finding with colons. Two sessions can have a finding key in common if and only
  if the id of one extends a role run id of the other (`SharedKeys`); otherwise a key names one finding (`FindingKeyInjective`).
  Submit accepts such a pair (`MeetingIdsAccepted`). Some run from an empty database then leaves a role unable to publish a
  finding with which nothing is wrong, if and only if besides neither id is blank and trimming leaves one of them as it is
  (`ClashExactly`).
- The key of an evidence unit joins snapshot and unit with a colon. Submit refuses a valid new snapshot as a duplicate row if
  and only if a unit of it crosses one of a stored snapshot, the id of one snapshot going on after the other's and a colon
  (`SharedUnitKeys`, `SubmitRefusesUnits`). Snapshots the ingestion pipeline makes never cross (`IngestedNeverCross`), and the
  HTTP server's own provider makes no others (internal/api/snapshot_provider.go:27).
- A session id that starts or ends with white space can be claimed but never composed, because `ComposeSession` trims the id
  and nothing else does; it then blocks every later claim. That happens to the first session submitted if and only if trimming
  changes its id (`PaddingDecides`; `GateHolds` shows it is the only way the composition gate can fail).
- Restart recovery does not compose, and a recovered session blocks claims until something composes it
  (`RecoveredBlocksClaims`, `RecoveryEnablesCompose`).
- An oldest queued session with a blank id, or created after the claim's clock, makes every claim fail rather than be passed
  over (`ClaimExact`).
- A cancelled session past its cutoff ends as user_cancelled if the cancellation sweep commits first. If the cutoff sweep does, it
  ends as deadline_cutoff, or as process_restart if a restart then interrupts a role in flight (`FirstSweepDecides`, `CutoffStands`).
  After a recovery it ends as user_cancelled if and only if a role was still pending when a cancellation had been requested
  (`RecoveredReason`).
- The coordinator spends a wake in vain exactly when some goroutine has not yet given up its count (`WakeInVain`). The gate is
  woken before that, so the last wake can be lost; a run from an empty database on which it is (`LostWakeHappens`) leaves
  only the ticker, or a timer that has not fired, to move the coordinator on.
- With a ticker, a run that calls each provider as often as its outcome takes, meets no failing store and is not cancelled, cut
  off or aborted (a planned run) never gets stuck (`NeverStuck`), and it finishes under every fair scheduler (`FairRunsFinish`).
- Under the supervisor a second attempt never has its full call timeout: the role's own deadline counts from the role's start
  (`SupervisedAttemptIsCut`). The timing policy alone does promise the full timeout (`AttemptHasFullTimeout`).
- The call count exceeds the calls made exactly when the deadline refuses the second call (`CallBound`).
- The publication of a role in flight fails only for a provider error with a category of its own making (`HandoffPasses`)
  or for a finding key that is taken (`PublishEffect`).
- A finding that passes the structural check meets its table's rules if and only if it is a missing one or its anchor is empty, not
  merely blank (`StructureMeetsTable`); the semantic check against a frozen snapshot closes the gap (`AcceptedTableRowOk`).
- Before timestamps had one width, two of the same second sorted against time if and only if the later one's digits began with
  the earlier one's and added more than zeros (`LegacyMisorders`); the migration mends it (`MigrationNormalizes`).
- The comment above the dispatcher's fast path puts capacity before the next pending role; the code looks for a pending role first,
  and so does the model. The store looks at capacity first, and that is the only case in which the two differ (`FastPathAgrees`).

## Model

| member | source | states |
|---|---|---|
| Evidence.Freeze | internal/evidence/snapshot.go:60-95 | Succeeds exactly on a nonblank id and valid, uniquely named units; otherwise names the first faulty unit |
| Evidence.FrozenHasRef | internal/evidence/snapshot.go:98-110 | A frozen snapshot knows exactly the ids of its units, with or without the cached set |
| Evidence.HashIdentifiesUnits | internal/evidence/snapshot.go:122-133 | Two unit lists have the same hash if and only if they are permutations of each other |
| Evidence.SameHashSameRefs | internal/evidence/snapshot.go:112-133 | Equal hashes mean equal sets of citable references |
| Parser.ParseBlocks | internal/ingest/parser.go:55-145 | The line loop yields one block for each segment that has text, as the segmentation of the lines says |
| Parser.ParseLine | internal/ingest/parser.go:72-138 | One turn of the loop moves lines to blocks and keeps what the rest will add up to |
| Parser.FlushParagraph | internal/ingest/parser.go:60-69 | The pending paragraph becomes at most one block, numbered next |
| Parser.ReadFence | internal/ingest/parser.go:81-104 | A fence takes every line up to the next fence line or the end, verbatim |
| Parser.HeadingTextOf | internal/ingest/parser.go:182-197 | One to six hashes, then a space, and the trimmed rest |
| Parser.ListItemTextOf | internal/ingest/parser.go:217-230 | Bullets and ordered markers give the trimmed item text |
| Parser.OrderedMarkerOf | internal/ingest/parser.go:245-264 | Digits followed by a dot or a parenthesis, with the place after them |
| ParserProperties.SegmentationUnique | internal/ingest/parser.go:55-145 | A list of segments is the parser's if and only if it is well formed and its lines are the input's, in order |
| ParserProperties.Partitions | internal/ingest/parser.go:55-145 | The segments are well formed and contain every line exactly once, in order |
| ParserProperties.ParsedNumbered | internal/ingest/parser.go:55-145 | Orders are exactly 0 to n-1 and no text is blank |
| ParserProperties.BlankLineSeparates | internal/ingest/parser.go:75-78 | At a blank line outside a fence the parse is that of the first part followed by that of the second, renumbered |
| ParserProperties.LineEndsDoNotMatter | internal/ingest/parser.go:158-170 | Lines joined by LF, CRLF or CR give identical blocks |
| LineKinds.OneLineDocument | internal/ingest/parser.go:72-138 | Which documents of one line are a heading, a table row, an item or prose, and with which text, told from the characters of the line |
| LineKinds.FencedDocument | internal/ingest/parser.go:81-104 | A document that is one fenced block gives its lines verbatim, closed or not, unless they are blank |
| BlockIds.AuthorId | internal/ingest/ids.go:90-118 | Finds the leading author token if the text has one, and fails only if it has none |
| BlockIds.TokenUnique | internal/ingest/ids.go:90-118 | A text starts with at most one author token |
| BlockIds.TokenText | internal/ingest/ids.go:90-118 | Letters or digits, a hyphen and digits are a token exactly if a letter comes first and the end, a blank, a tab, a colon, a dot or a bracket follows |
| BlockIds.AssignIds | internal/ingest/ids.go:24-72 | Each block gets its base id, or the smallest free suffix from 2 on that a search without the cache would find |
| BlockIds.PickId | internal/ingest/ids.go:43-66 | With a sound suffix cache the pick is the smallest free one, and the cache stays sound |
| BlockIds.FirstFree | internal/ingest/ids.go:50-58 | The suffix loop ends, at the smallest free suffix |
| BlockIds.SuffixesFillUp | internal/ingest/ids.go:50-58 | Taken suffixes in a row are no more than the ids taken: the pigeonhole behind the loop's end |
| BlockIds.IdsUnique | internal/ingest/ids.go:24-72 | Assigned ids are nonempty and pairwise different |
| BlockIds.AssignedUnique | internal/ingest/ids.go:24-72 | The rule leaves one assignment only |
| BlockIds.AssignedClosedForm | internal/ingest/ids.go:14-72 | With distinct orders, the first block with token T gets T, the k-th gets T-k, and any other block u and its order |
| Ingest.ParsedClosedForm | internal/ingest/ids.go:14-72 | The closed form holds of whatever the parser produced |
| Ingest.MapBlockKind | internal/ingest/kinds.go:24-36 | Every block kind becomes a valid unit kind |
| Ingest.UnitsAreOk | internal/ingest/snapshot.go:29-46 | Every unit the pipeline emits is one Freeze accepts |
| Ingest.BuildSnapshot | internal/ingest/snapshot.go:29-46 | With a nonblank id it fails exactly when the parser finds no block; otherwise it returns the frozen units |
| Ingest.SnapshotDetermined | internal/ingest/snapshot.go:29-46 | A source has one list of units |
| LineKinds.UnitKinds | internal/ingest/kinds.go:24-36 | The kind of evidence, by name, that each block of a source becomes |
| LineKinds.OneLineUnit | internal/ingest/snapshot.go:29-46 | A table row gives one data_rule, a heading a brief and an item a requirement, with the text of the line |
| LineKinds.FencedUnit | internal/ingest/snapshot.go:29-46 | A fenced block gives one constraint with its lines |
| LineKinds.UnitIds | internal/ingest/ids.go:24-72 | A unit's id is its block's token, or the token, a hyphen and one more than the earlier blocks with it, or u and its position |
| Timestamps.FormatOrder | internal/storage/sqlite/claim.go:365-367 | Text order of formatted instants is time order, and equal texts are equal instants |
| Timestamps.ParseFormat | internal/storage/sqlite/read.go:777-786 | Parsing undoes formatting |
| Timestamps.FieldsInverse | internal/storage/sqlite/claim.go:365-367 | The calendar fields of an instant are valid and determine it, leap years included |
| Timestamps.MonthLengths | internal/storage/sqlite/claim.go:365-367 | The lengths of the months |
| Timestamps.FormatLayout | internal/storage/sqlite/claim.go:365-367 | Where each field of a timestamp stands, at which width and between which marks |
| LegacyTimestamps.LegacyParses | internal/storage/sqlite/read.go:777-786 | A text with up to nine fraction digits, or none and no point, stands for the instant they say |
| LegacyTimestamps.LegacyMisorders | internal/storage/sqlite/migrations/006_normalize_legacy_timestamps.sql:1-3 | Two legacy texts of one second sort against time if and only if the later begins with the digits of the earlier and adds more than zeros |
| LegacyTimestamps.MigrationNormalizes | internal/storage/sqlite/migrations/006_normalize_legacy_timestamps.sql:11-20 | The migration keeps every timestamp's meaning and gives it the text the store writes |
| RequestHash.RequestHashV1 | internal/storage/sqlite/submit.go:82-117 | Refuses the first empty field; otherwise hashes the length-prefixed encoding |
| RequestHash.FieldSelfDelimiting | internal/storage/sqlite/submit.go:75-81 | A length-prefixed field can be cut off any bytes in one way only |
| RequestHash.EncodeInjective | internal/storage/sqlite/submit.go:96-112 | The UTF-8 encoding is injective |
| RequestHash.BufferInjective | internal/storage/sqlite/submit.go:75-117 | The hashed bytes determine project, title and content |
| RequestHash.BufferIsText | internal/storage/sqlite/submit.go:75-117 | The hashed bytes encode the line with the version and then project, title and content, each after its length and a colon |
| RequestHash.AsciiIsBytes | internal/storage/sqlite/submit.go:96-112 | Each ASCII character is encoded as itself |
| Composer.Compose | internal/review/composer.go:45-160 | Succeeds exactly on four valid terminal rows of different roles, with the verdict of those rows |
| Composer.VerdictMeaning | internal/review/composer.go:30-44 | When each status and reason is reached: cancellation over restart over cutoff over failures |
| Composer.VerdictPermutes | internal/review/composer.go:45-160 | The order of the rows does not change the verdict |
| Composer.VerdictFitsSchema | internal/storage/sqlite/migrations/002_core_schema.sql:48-97 | Every verdict meets the checks on a terminal session row |
| Composer.PrimaryRef | internal/review/composer.go:240-251 | The loop finds the least reference, or the anchor when there is none |
| Composer.PrimaryPermutes | internal/review/composer.go:240-251 | The primary reference does not depend on the order of the references |
| Composer.LowestIsLeast | internal/review/composer.go:240-251 | It is one of the references and no other is smaller |
| Composer.FindingLessIsStrict | internal/review/composer.go:220-237 | The order of findings is a strict order |
| Composer.UniqueFindingsComparable | internal/review/composer.go:220-237 | Findings with different role or id are always comparable, so sorting them has one result |
| Composer.BuildReport | internal/review/composer.go:170-217 | The appended and sorted lists are the report of the outcomes |
| Composition.FindingsInOrder | internal/review/composer.go:218-251 | Of two findings of a report the first is more severe, critical over high over medium over low, or as severe and of an earlier role, or of the same role with the lesser least citation, category or id |
| ReportOrder.ReportPermutes | internal/review/composer.go:160-217 | Reordering the outcomes, and the findings in each, gives the same report |
| ReportOrder.ReportComplete | internal/review/composer.go:160-217 | The report has a summary of every role and exactly the findings of complete roles, both in order |
| Validation.ValidateStructure | internal/review/validate.go:67-157 | Passes exactly the well-formed lists, and otherwise names the first faulty finding |
| Validation.StructureRules | internal/review/validate.go:67-157 | The well-formed lists, by number: at most fifteen findings with ids of their own, each with one to five, two to five or up to five citations, by kind |
| Validation.ValidateSemantics | internal/review/validate.go:161-178 | Passes exactly when every basis and anchor reference is in the snapshot, and otherwise names the first finding that cites another |
| Validation.DecodeAndValidate | internal/review/validate.go:32-64 | Which of the three stages fails decides the error category |
| Validation.ValidateSuccess | internal/storage/sqlite/publish.go:115-217 | Passes exactly the acceptable success parameters |
| Validation.ValidateFailure | internal/storage/sqlite/publish.go:219-243 | Passes exactly the acceptable failure parameters; the category is the last thing checked |
| Validation.StructureMeetsTable | internal/storage/sqlite/migrations/007_finding_kind_and_anchor.sql:10-23 | A well-formed finding meets its table's rules if and only if it is a missing one or has no anchor |
| Validation.AcceptedTableRowOk | internal/storage/sqlite/migrations/007_finding_kind_and_anchor.sql:1-42 | A finding accepted against a frozen snapshot meets the anchor rules of the table |
| Validation.StructureIsNotEnough | internal/review/validate.go:133-138 | For example a finding whose anchor is a space passes the structural check and not the table's |
| RoleRunner.AttemptDeadline | internal/review/runner.go:268-284 | The earlier of the call timeout and the hard deadline, whichever exist |
| RoleRunner.Jitter | internal/review/runner.go:318-326 | The default backoff is within its bounds |
| RoleRunner.RunRole | internal/review/runner.go:112-185 | For every provider, clock and sleep: no call, one, or an initial call and one retry or one repair; every attempt within the hard deadline; complete exactly when the last answer validates |
| RoleRunner.SecondCall | internal/review/runner.go:191-222 | What a second call leads to, and that the deadline refuses it after it was counted |
| RoleRunner.FormatRepairCall | internal/review/runner.go:225-263 | A repair is made only within the call budget |
| RoleRunner.NoCallDecides | internal/review/runner.go:130-152 | When no call is made, and which of schema_invalid, budget_exhausted and timeout the role then fails with |
| RoleRunner.FirstErrorDecides | internal/review/runner.go:165-180 | A first error is retried, once, if and only if it is transport or timeout, the pause ends well and there is time left; what the role fails with otherwise |
| RoleRunner.FirstBodyDecides | internal/review/runner.go:182-242 | An accepted first answer completes the role; any other is repaired, once, if there is time left |
| RoleRunner.SecondAnswerDecides | internal/review/runner.go:191-263 | What each second answer ends the role with, by category; there is no third call |
| RoleRunner.RunsAgree | internal/review/runner.go:112-263 | The account of a run leaves one outcome and one sequence of calls |
| RoleRunner.CallBound | internal/review/runner.go:200-206 | At most two calls, and the count differs from the calls exactly when the deadline refused the second |
| RoleRunner.Execute | internal/worker/execute.go:108-150 | Refuses bad configurations, times out without a call past the deadline, and otherwise is RunRole |
| RoleRunner.HandoffPasses | internal/worker/supervise.go:527-585 | A complete outcome always passes the publication validator and the citation check; a failed one does if and only if its category is canonical |
| RoleRunner.HandsOver | internal/worker/supervise.go:527-585 | What is published is the run's own findings or category, with the message and the count it accounts for |
| Timing.Validate | internal/storage/sqlite/claim.go:29-49 | Accepts exactly the policies whose hard deadline leaves a call timeout after the cutoff, within 64 bits |
| Timing.AttemptHasFullTimeout | internal/review/runner.go:268-284 | An attempt begun by the cutoff is never cut short by the hard deadline |
| Timing.SupervisedAttemptIsCut | internal/worker/supervise.go:479-486 | Under the supervisor an attempt has its full timeout if and only if it begins when the role does |
| Engine.Run | internal/review/engine.go:32-59 | Every role runs until the first cancellation seen, the others are interrupted, and the report is built from those outcomes |
| Engine.CancelledRun | internal/review/engine.go:32-59 | From the first cancellation seen the roles are interrupted for it without a call, and the verdict is partial, for user_cancelled |
| Engine.UncancelledRun | internal/review/engine.go:32-59 | Without one every role runs to completion or failure, and the verdict is not user_cancelled |
| Engine.ErasedReport | internal/review/engine.go:41-58 | Forgetting the last call purpose of each outcome changes the report only in those fields |
| Records.RoleRunIdInjective | internal/storage/sqlite/submit.go:317 | A role run id determines session and role, colons or not |
| Records.SharedKeys | internal/storage/sqlite/publish.go:394 | Two sessions have a finding key in common if and only if the id of one extends a role run id of the other |
| Records.FindingKeyInjective | internal/storage/sqlite/publish.go:394 | Within a session, and between sessions that are apart, a finding's key determines session, role and finding |
| Records.ColonFreeApart | internal/storage/sqlite/submit.go:121 | Ids without colons, as generated ones are, are always apart |
| Records.FindingKeysCollide | internal/storage/sqlite/publish.go:394 | For example two findings of sessions s and s:qa:x have the same key |
| Records.FirstOfMeaning | internal/storage/sqlite/dispatch.go:214-243 | The canonical pick is the first role in order with that status, if there is one |
| Records.RolesWithMeaning | internal/storage/sqlite/sweep.go:222-252 | The query for the roles of a status returns exactly those, in canonical order |
| DbSteps.SubmitKeeps | internal/storage/sqlite/submit.go:141-349 | Submit keeps the invariant and the transition tables |
| DbSteps.ClaimKeepsAll | internal/storage/sqlite/claim.go:162-363 | Claim does, and so at most one session is reviewing |
| DbSteps.ReserveKeeps | internal/storage/sqlite/dispatch.go:106-326 | Reserve does, and so at most two roles are in flight |
| DbSteps.PublishSuccessKeeps | internal/storage/sqlite/publish.go:248-469 | Publishing a success does, and every stored finding fits its table and cites its session's snapshot |
| DbSteps.PublishFailureKeeps | internal/storage/sqlite/publish.go:476-640 | Publishing a failure does |
| DbSteps.SweepCancellationKeeps | internal/storage/sqlite/sweep.go:142-322 | The cancellation sweep does |
| DbSteps.SweepCutoffKeeps | internal/storage/sqlite/sweep.go:331-518 | The cutoff sweep does |
| DbSteps.SweepHardDeadlineKeeps | internal/storage/sqlite/sweep.go:536-755 | The hard deadline sweep does |
| DbSteps.RecoverKeeps | internal/storage/sqlite/sweep.go:791-987 | Restart recovery does, for any number of sessions at once |
| DbSteps.CancellationKeeps | internal/storage/sqlite/cancel.go:76-199 | A cancellation request does |
| DbSteps.ComposeKeepsAll | internal/storage/sqlite/compose.go:163-697 | Compose does, and so terminal fields equal the verdict of the rows |
| DbSteps.InFlightMeansReviewing | internal/storage/sqlite/publish.go:276-331 | A role in flight means its session is reviewing: what Publish relies on without checking |
| DbSteps.PublishedFindingFits | internal/storage/sqlite/publish.go:363-381 | Valid parameters and known citations are enough for the table's own checks |
| DbSteps.ApplyKeeps | internal/domain/status.go:48-94 | Every step follows CanTransition and LegalSessionTransition and what the schema's triggers guard |
| DbSteps.ExecKeeps | internal/storage/sqlite/migrations/003_state_guards.sql:54-160 | The invariant holds after every run |
| RowEffects.SubmitStores | internal/storage/sqlite/submit.go:141-349 | A submission adds one queued session with its request, key and creation time, four pending roles, and its snapshot unless it is stored; or nothing |
| RowEffects.ClaimStores | internal/storage/sqlite/claim.go:288-334 | A claim takes the oldest queued session, ties by id, and stores the claim, the cutoff and the hard deadline at the policy's distances, as it answers; nothing else changes |
| RowEffects.InstantsStay | internal/storage/sqlite/migrations/003_state_guards.sql:54-160 | A session keeps the instants of its claim in every run |
| RowEffects.ClaimGivesFullTimeout | internal/storage/sqlite/claim.go:21-49 | In every run after a claim, a provider call made no later than the stored cutoff, under the stored hard deadline, has the policy's full timeout |
| RowEffects.ReserveExact | internal/storage/sqlite/dispatch.go:106-326 | A reservation starts the first pending role exactly if the session is reviewing, not cancelled, before its cutoff and has fewer than two in flight; otherwise it names what stood in its way and changes nothing |
| RowEffects.FaultExact | internal/storage/sqlite/publish.go:275-342 | The reads pass exactly for the run id of a role in flight, in scope and of the role asked for, that has started by then |
| RowEffects.SuccessExact | internal/storage/sqlite/publish.go:248-469 | A published success completes its role with the count and time given, stores each finding under its own key, and changes nothing else |
| RowEffects.SuccessWhen | internal/storage/sqlite/publish.go:344-418 | For a role in flight it goes through if and only if the parameters are valid, every citation is stored and every key is free |
| RowEffects.FailureExact | internal/storage/sqlite/publish.go:476-640 | A failure is published exactly for a role in flight and valid parameters, and stores category, message, count and time |
| RowEffects.CancellationExact | internal/storage/sqlite/cancel.go:76-199 | A request sets the flag of a session that is not terminal and nothing else, and answers effective exactly when the flag was not set |
| RowEffects.CancelledRolesNeverStart | internal/storage/sqlite/cancel.go:140-160 | After a request no role that was pending is started, in any run |
| Sweeps.CancellationSweepExact | internal/storage/sqlite/sweep.go:142-322 | Exactly in a cancelled reviewing session it interrupts exactly the pending roles, for user_cancelled at that time, lists them and the roles in flight, and changes nothing else |
| Sweeps.CutoffSweepExact | internal/storage/sqlite/sweep.go:331-518 | The same from the cutoff on, for deadline_cutoff |
| Sweeps.DeadlineSweepExact | internal/storage/sqlite/sweep.go:536-755 | The same from the hard deadline on; it is no operation only if no role is pending or in flight |
| Sweeps.DeadlineSettles | internal/storage/sqlite/sweep.go:536-755 | After it, in every run, the roles that were pending stay cut off at that time and no role of the session is started |
| Sweeps.TerminalRowStays | internal/storage/sqlite/migrations/003_state_guards.sql:90-160 | The row of a terminal role is the same in every run |
| Sweeps.RecoverExact | internal/storage/sqlite/sweep.go:845-963 | In the sessions it reaches, pending roles are interrupted for user_cancelled or process_restart as the session's flag says, roles in flight for process_restart no earlier than they started; no other row changes |
| Sweeps.RecoverCounts | internal/storage/sqlite/sweep.go:845-987 | It answers for exactly the sessions it reaches, with how many roles were in flight and pending |
| Sweeps.ReasonByCauses | internal/review/composer.go:101-127 | The reason of a terminal session, from what its stored roles were interrupted for |
| Sweeps.RecoveredReason | internal/storage/sqlite/sweep.go:925-942 | Whatever runs after a recovery, a session without a cancelled role then ends as user_cancelled if and only if a cancellation was requested and a role was pending, and as process_restart if and only if not so and a role was pending, in flight or restarted before |
| FrozenReports.RowOrderDoesNotMatter | internal/storage/sqlite/read.go:559-667 | The order in which the database returns finding rows does not change the report |
| FrozenReports.TerminalStays | internal/storage/sqlite/migrations/003_state_guards.sql:90-97 | The record of a terminal session never changes, whatever runs |
| FrozenReports.ComposeWrites | internal/storage/sqlite/compose.go:551-644 | Compose writes the verdict of the rows and nothing else, and returns the report the tables hold afterwards |
| FrozenReports.ReportFrozen | internal/storage/sqlite/compose.go:239-253 | The report Compose returned is what every later read and every repeated Compose under a matching project scope return, after any steps and in any row order; another scope finds nothing |
| FrozenReports.ReadRefuses | internal/storage/sqlite/read.go:354-415 | A report is read exactly of a terminal session in scope; otherwise the status is named, or nothing found |
| Composition.ComposedTells | internal/storage/sqlite/compose.go:393-644 | A composition stores the verdict of the rows at a time no earlier than the claim, and reports it with every role's row and exactly the session's findings, each once and in order |
| Composition.NotComposed | internal/storage/sqlite/compose.go:193-430 | Otherwise nothing changes, and a review that is not over names how many roles are pending and in flight |
| DbRuns.InFlightRows | internal/storage/sqlite/dispatch.go:198-280 | In the whole database the roles in flight belong to one reviewing session and are at most two |
| DbRuns.StartedBeforeCutoff | internal/storage/sqlite/dispatch.go:171-196 | Every role that was ever started has its start before the session's cutoff |
| DbRuns.CancelledNeverStarts | internal/storage/sqlite/dispatch.go:261-280 | A role pending when a cancellation commits is never started in any run |
| DbRuns.ChangesBounded | internal/domain/status.go:48-72 | Status changes of a role use up rank: at most two in any run |
| DbRuns.SessionChangesBounded | internal/domain/status.go:48-72 | At most eight role changes a session |
| DbRuns.MovesBounded | internal/domain/status.go:86-94 | A session changes status at most twice in any run |
| DbRuns.StartsOnce | internal/storage/sqlite/dispatch.go:261-280 | A role goes in flight at most once in any run, and only from pending |
| DbRuns.CallBudgetBounded | internal/storage/sqlite/sweep.go:902-942 | At most eight provider calls' worth of starts a session, whatever restarts and sweeps happen |
| DbRuns.SubmitOnce | internal/storage/sqlite/submit.go:187-343 | A key is written once: after any run the same request gets the same session and another one conflicts, and neither changes anything |
| DbProgress.HeadExists | internal/storage/sqlite/claim.go:203-241 | If any session is queued, one is the head of the queue |
| DbProgress.HeadUnique | internal/storage/sqlite/claim.go:203-241 | There is one head at most |
| DbProgress.ClaimExact | internal/storage/sqlite/claim.go:191-334 | With a valid policy a claim succeeds if and only if nothing is reviewing and the head is ready, takes the head, and otherwise changes nothing |
| DbProgress.StaysReviewing | internal/storage/sqlite/compose.go:551-607 | Only Compose ends a review |
| DbProgress.RecoveredBlocksClaims | internal/storage/sqlite/claim.go:191-201 | After a recovery every claim finds the session still reviewing until a Compose of it |
| DbProgress.ComposeExact | internal/storage/sqlite/compose.go:393-407 | Compose succeeds if and only if the trimmed id names a reviewing session in scope whose roles are all terminal |
| DbProgress.RecoveryEnablesCompose | internal/storage/sqlite/sweep.go:845-963 | From every reachable reviewing state a recovery with a cutoff at or after the claim makes all roles terminal, and Compose then succeeds |
| DbProgress.RecoversAtMostOne | internal/storage/sqlite/sweep.go:845-963 | A recovery finds at most one stale session, so its list has one order and its totals are that session's |
| DbProgress.PaddedIdNeverComposes | internal/storage/sqlite/compose.go:170 | A reviewing session whose id has white space at an edge stays reviewing in every run and blocks every claim |
| DbProgress.CancelledReason | internal/review/composer.go:101-127 | A terminal session says user_cancelled if and only if a role was interrupted for it, and then a cancellation was requested |
| DbProgress.FirstSweepDecides | internal/storage/sqlite/sweep.go:468-482 | In a cancelled session past its cutoff the sweep that commits first fixes the terminal reason for every run that follows, roles in flight or not |
| DbProgress.RestartTakesRecovery | internal/storage/sqlite/sweep.go:900-943 | In a run without a recovery no role is interrupted for a restart |
| DbProgress.CutoffStands | internal/storage/sqlite/sweep.go:331-518 | Without a recovery a session cut off first ends as deadline_cutoff |
| Scenarios.SubmitTakesAnyId | internal/storage/sqlite/submit.go:187-343 | Whatever id the caller supplies, Submit refuses it only if it is taken |
| Scenarios.MeetingIdsAccepted | internal/storage/sqlite/submit.go:187-343 | Two ids whose finding keys meet are both accepted |
| Scenarios.FirstClaimed | internal/storage/sqlite/claim.go:162-363 | The first session submitted is claimed under any id that is not blank |
| Scenarios.PaddingDecides | internal/storage/sqlite/compose.go:170 | Submitted first and claimed, a session whose id trimming changes is never composed and blocks the queue; any other is composed after a recovery |
| KeyClash.AlwaysHeld | internal/storage/sqlite/compose.go:170 | In every run a session with a blank id is still queued and one whose id trimming changes is not terminal |
| KeyClash.RefusedBy | internal/storage/sqlite/publish.go:392-404 | A publication refused for its key is that of a role in flight, and the finding in its way belongs to a complete role of another session, the two ids not being apart |
| KeyClash.ClashReached | internal/storage/sqlite/publish.go:392-404 | Whenever two findings of different sessions have one key, a run from an empty database composes the first and then refuses the valid success of the second |
| KeyClash.RefusedMeansClash | internal/storage/sqlite/publish.go:392-404 | In every run the session in the way of a refused one extends it or is extended, neither is blank, and one of the two ids is trimmed |
| KeyClash.ClashExactly | internal/storage/sqlite/publish.go:392-404 | So some run of two sessions ends in such a refusal if and only if their ids meet that condition |
| UnitClashes.SharedUnitKeys | internal/storage/sqlite/submit.go:253-264 | Units of different snapshots have the same key if and only if the id of one snapshot goes on after the other and a colon, and its rest is the start of the other's unit id |
| UnitClashes.SnapshotsMeet | internal/storage/sqlite/submit.go:253-264 | Two snapshot ids leave room for such units if and only if one goes on after the other and a colon |
| UnitClashes.SubmitRefusesUnits | internal/storage/sqlite/submit.go:253-264 | After every run a valid submission of a new key, session and snapshot is refused as a duplicate row if and only if one of its units crosses a stored one |
| UnitClashes.IngestedNeverCross | internal/ingest/ids.go:24-72 | Units made from source texts never cross, whatever the snapshots are called |
| SqliteStore.Store.constructor | internal/storage/sqlite/migrations/002_core_schema.sql:1-174 | Empty tables and an empty history |
| SqliteStore.Store.Submit | internal/storage/sqlite/submit.go:141-349 | Checks, looks up the key and inserts snapshot, units, session and roles, all or nothing |
| SqliteStore.Store.ClaimSession | internal/storage/sqlite/claim.go:162-363 | Counts reviewing sessions, selects the oldest queued one and checks it before it updates |
| SqliteStore.Store.ReservePendingRole | internal/storage/sqlite/dispatch.go:106-326 | Its textual guard never disagrees with the checks before it, so guard_conflict cannot happen |
| SqliteStore.Store.PublishRoleSuccess | internal/storage/sqlite/publish.go:248-469 | Findings and role row change together or not at all |
| SqliteStore.Store.PublishRoleFailure | internal/storage/sqlite/publish.go:476-640 | Only a role in flight is failed |
| SqliteStore.Store.SweepCancellation | internal/storage/sqlite/sweep.go:142-322 | Interrupts exactly the pending roles of a cancelled reviewing session and lists them in canonical order |
| SqliteStore.Store.SweepCutoff | internal/storage/sqlite/sweep.go:331-518 | Interrupts and lists exactly the pending roles once the cutoff has passed, and says whether it has |
| SqliteStore.Store.SweepHardDeadline | internal/storage/sqlite/sweep.go:536-755 | Interrupts and lists exactly the pending roles after the hard deadline, lists those in flight, and is a no-op only without either |
| SqliteStore.Store.SweepRestartRecovery | internal/storage/sqlite/sweep.go:791-987 | Over every stale session, interrupts what is pending or in flight and counts both |
| SqliteStore.Store.RequestCancellation | internal/storage/sqlite/cancel.go:76-199 | Sets the flag once and only before the session is terminal |
| SqliteStore.Store.ComposeSession | internal/storage/sqlite/compose.go:163-697 | Gate, verdict, compare-and-set and report, for any order of the finding rows |
| SqliteStore.Store.ReadReport | internal/storage/sqlite/read.go:354-445 | The stored report, assembled without the report builder |
| SqliteStore.Store.ReadSnapshot | internal/storage/sqlite/read.go:669-740 | The stored snapshot always freezes again to the stored hash |
| SqliteStore.SelectOldest | internal/storage/sqlite/claim.go:203-241 | The query returns the head of the queue, or nothing when none is queued |
| SqliteStore.SelectRoles | internal/storage/sqlite/sweep.go:222-252 | Returns the roles of a status in canonical order |
| SqliteStore.CountReviewing | internal/storage/sqlite/claim.go:191-201 | Positive exactly when some session is reviewing |
| SqliteStore.CheckCitations | internal/storage/sqlite/publish.go:344-381 | Passes exactly when every finding cites stored units only |
| SqliteStore.InsertFindings | internal/storage/sqlite/publish.go:392-418 | Goes through exactly when no key is taken, and then adds exactly the rows of the findings |
| SqliteStore.InsertUnits | internal/storage/sqlite/submit.go:253-264 | Goes through exactly when no unit key is taken |
| SqliteStore.GroupFindings | internal/storage/sqlite/read.go:559-667 | Every role is given its own findings in row order |
| SqliteStore.InterruptPending | internal/storage/sqlite/sweep.go:268-300 | The bulk update changes the pending roles and returns how many there were |
| SqliteStore.InterruptInFlight | internal/storage/sqlite/sweep.go:900-923 | The bulk update changes the roles in flight and returns how many there were |
| SqliteStore.ReadIsBuilt | internal/storage/sqlite/read.go:416-445 | The reader's own assembly of a report equals the report builder's |
| Dispatch.Dispatcher.Wake | internal/worker/dispatch.go:122-130 | Afterwards a wake is waiting, unless stopped |
| Dispatch.Dispatcher.NotifyRoleCompleted | internal/worker/dispatch.go:147-161 | Frees a slot, and leaves a completion waiting even when the channel is full, unless stopped |
| Dispatch.Dispatcher.Step | internal/worker/dispatch.go:292-384 | One decision: the fast path answers without the store, and otherwise one guarded reservation takes one slot or none |
| Dispatch.Dispatcher.Drain | internal/worker/dispatch.go:403-419 | The roles started are the first pending ones in canonical order, no other row changes, and capacity is kept; it ends on a step that reserved nothing, a failed store, or a stop |
| Dispatch.FirstStarted | internal/worker/dispatch.go:403-419 | Starting the first pending role extends the roles started so far in canonical order |
| Dispatch.FastPathAgrees | internal/worker/dispatch.go:278-384 | With the right count it passes the question on exactly when the store would grant a role, and otherwise gives the store's reason, but that it looks for a pending role before a slot |
| DbEffects.ForeignEffect | internal/worker/supervise.go:659-712 | What other clients do to a session's roles is to interrupt pending ones |
| DbEffects.PublishEffect | internal/worker/supervise.go:527-585 | A role in flight is published exactly when its category is canonical or its finding keys are free, and what the rows then hold |
| DbEffects.NoPublishFault | internal/storage/sqlite/publish.go:275-342 | Nothing but its parameters can refuse the publication of a role in flight |
| WorkerSafety.ActionKeeps | internal/worker/supervise.go:456-850 | Every action of every thread, the cutoff and deadline timers, store failures, a crash and a reboot keep the worker's invariant |
| WorkerSafety.FloorNeverHit | internal/worker/dispatch.go:147-152 | When a goroutine notifies, the local count is at least one |
| WorkerRuns.RunKeeps | internal/worker/supervise.go:331-850 | The invariant holds over every interleaving |
| WorkerRuns.CallsBounded | internal/review/runner.go:154-263 | Over any crashes, restarts and late steps a role makes at most two provider calls and a session at most eight |
| WorkerRuns.PersistedWithinLocal | internal/worker/dispatch.go:331-384 | Roles persisted in flight never exceed the local count, plus one between commit and increment |
| WorkerRuns.LocalAction | internal/worker/dispatch.go:389-501 | Channel counts and the local count stay within capacity in every action |
| WorkerRuns.SendNeverDropped | internal/worker/dispatch.go:154-161 | With four roles and eight places no completion is ever dropped |
| WorkerRuns.CompletionKept | internal/worker/dispatch.go:389-501 | A completion leaves the channel only when the owner receives it and goes on to decide again |
| Signals.SignalsBounded | internal/worker/dispatch.go:389-501 | In its whole life an owner receives at most two wakes, from the two timers, and at most four completions, one a role |
| Signals.FailureStopsAll | internal/worker/supervise.go:586-604 | After a publication that fails no goroutine is started, and the owner at rest never asks the store for a role again |
| WorkerRuns.GateHolds | internal/worker/supervise.go:677-712 | When the coordinator composes, all roles are terminal, and Compose succeeds if and only if the session id is trimmed |
| WorkerRuns.GateStaysOpen | internal/worker/supervise.go:648-712 | Four terminal roles, once read, stay so whatever the other threads do |
| WorkerRuns.JoinedOutcomes | internal/worker/supervise.go:677-681 | When the coordinator composes, every role that ran was published and every other one was interrupted |
| Schedules.AccountedFits | internal/worker/supervise.go:527-585 | What RunRole accounts for can be published, unless it failed with a category of the provider's own |
| Schedules.PublishStores | internal/storage/sqlite/publish.go:390-455 | A publication stores its outcome and disturbs no other role's |
| Schedules.StoredReport | internal/storage/sqlite/compose.go:609-644 | From stored outcomes, in any row order, Compose builds the engine's report without the last purposes |
| Schedules.CalmKeeps | internal/worker/supervise.go:456-712 | Every action of a calm run keeps what was stored and what is still to be stored |
| Schedules.ScheduleIndependence | internal/worker/supervise.go:456-712 | Every interleaving that finishes composes the report the sequential engine builds from the same outcomes |
| Schedules.EngineReportIs | internal/review/engine.go:41-58 | The engine's contract leaves it that one report |
| Schedules.WorkerAgreesWithEngine | internal/worker/supervise.go:456-712 | Every interleaving that finishes composes what Engine.Run returns for the same snapshot and environments, up to the last purposes |
| Planning.BootedOnTrack | internal/worker/supervise.go:331-455 | A worker that has just claimed its session is on track for every plan that fits: outcomes that can be published, the provider calls that lead to them, and a clock reading before the cutoff |
| Planning.PlannedKeeps | internal/worker/supervise.go:456-850 | Every planned action of every thread (no failing store, no abort, no provider call beyond the plan, no interference with the session's rows) keeps the run on track |
| Planning.PlannedRunKeeps | internal/worker/supervise.go:456-850 | So every state a planned run reaches is on track |
| Completion.HelpfulCan | internal/worker/supervise.go:456-850 | In every state on track a thread that is told by the state can take a planned step |
| Completion.StepLowers | internal/worker/supervise.go:456-850 | That thread's steps leave less to do, and no planned step of another leaves more or takes the turn away |
| Completion.CanFinish | internal/worker/supervise.go:331-850 | From every state on track some planned continuation reaches the end |
| Completion.NeverStuck | internal/worker/supervise.go:331-850 | However a planned run goes from a claim, it can go on to the end and then returns the sequential engine's report |
| Liveness.FairRunsFinish | internal/worker/supervise.go:331-850 | Every infinite planned run on which no thread that can move for ever is left out for ever reaches the end, with that report; the dispatcher's clock reads before the cutoff until every role has started |
| Liveness.FairRunsExist | internal/worker/supervise.go:331-850 | There is such a run from every worker that has just claimed its session |
| LostWake.WakeInVain | internal/worker/supervise.go:677-712 | A coordinator that has read four terminal roles goes back to waiting if and only if some goroutine has not given up its count |
| LostWake.LostWake | internal/worker/supervise.go:470-472 | From the last goroutine's deferred calls six steps leave the coordinator waiting at a gate nobody will wake any more |
| LostWake.StrandsFrom | internal/worker/supervise.go:456-712 | A calm run leads there from any worker that takes its roles one at a time, and then only the ticker, a timer that has not fired, or giving up can move the coordinator |
| LostWake.LostWakeHappens | internal/worker/supervise.go:331-850 | So there is a run from an empty database on which the last wake is lost |
| LostWake.FirstSessionFinishes | internal/worker/supervise.go:331-850 | And one on which the first session is composed |
| Immediate.Validate | internal/storage/sqlite/immediate.go:44-64 | Accepts exactly the bounded policies |
| Immediate.BackoffBounded | internal/storage/sqlite/immediate.go:66-83 | Every pause is between zero and the maximum, and no shorter than the first when the factor is at least one |
| Immediate.PausesDouble | internal/storage/sqlite/immediate.go:66-83 | With the default factor each pause doubles the one before, up to the maximum |
| Immediate.RunAttempt | internal/storage/sqlite/immediate.go:190-276 | The callback's effect is committed or there is none; the connection is poisoned exactly when a begun transaction failed and could not be rolled back |
| Immediate.WithImmediate | internal/storage/sqlite/immediate.go:126-188 | Success applies the effect once and an error not at all; at most 1 + MaxRetries attempts, only after busy ones; which error is returned; the pauses add up to at most MaxRetries times MaxBackoff |
| Scoring.ScoreRun | internal/benchmark/score.go:45-103 | False and supported findings add up to all findings, and duplicates and distinct keys do too |
| Scoring.HitsCount | internal/benchmark/score.go:45-103 | The defects found are those some finding matches |
| Scoring.SupportsCount | internal/benchmark/score.go:45-103 | The supported findings are those that match some defect |
| Scoring.DuplicatesAgree | internal/benchmark/score.go:83-116 | Findings are duplicates if they agree in kind, citations in any order and anchor, and, unless a text has a separator in it, only then |
| Scoring.RecallIsShare | internal/benchmark/score.go:126-198 | Recall times the number of defects is the number found |
| Scoring.Spread | internal/benchmark/score.go:174-187 | The mean m of recalls is in [0,1] and the variance between 0 and m(1-m), which is at most 1/4 |
| Scoring.MissesExact | internal/benchmark/score.go:189-195 | With distinct defect ids the misses are, in order, exactly the ids of defects no run matched |
| Scoring.AggregateArm | internal/benchmark/score.go:126-198 | The running sums give the mean, the variance within those bounds and the sorted misses |

## Left out

- HTTP routing, both command lines, prompt texts and the rendering of reports: input, output and presentation.
- SQL text, drivers, pragmas and every migration's data changes but the one that normalizes timestamps: a transaction is one atomic step, and the checks and triggers of the schema are predicates on rows.
- A transaction callback that panics: the rollback is the one modelled, the repanic is not.
- JSON decoding: a provider's body is either undecodable or a decoded list of findings.
- SHA-256: a hash is its own preimage, that is, free of collisions.
- Strings that are not valid UTF-8; the `length` function of SQLite stops at a NUL and the model counts every character.
- Rows with status, kind or category texts outside the schema's lists: the types have no such values.
- Role run and basis reference tables: folded into the rows of their session and finding, an ordinal being a position.
- Evidence unit rows: kept as the units of the stored snapshot and the set of their keys.
- SqliteStore.Store.ClaimSession: a claim whose deadlines would fall after year 9999 is refused, since the text order of timestamps ends there.
- Scoring.AggregateArm: sums and quotients are real numbers, without the rounding of floating point.
- Immediate.BackoffBounded: the power and the product are real numbers, with the cap where the code has it.
- Dispatch.Dispatcher.Drain: a sequential drain, in which no slot is freed and nothing is stopped between two steps; the interleavings are those of the Worker state machine, as is the callback after a reservation.
- The process lock: at most one worker exists at a time.
- Worker: of the cutoff and hard deadline timers the wakes are the coordinator's actions and the sweeps are steps of other clients; a cancelled context shows only in the coordinator giving up and in the outcomes.
- The estimate of a prompt's tokens, which is a parameter, its copy in the outcome and `Policy.RepairTransportFailureCategory`, which the runner never reads.
- Benchmark arms, fixtures, cost estimates and lenient parsing.
