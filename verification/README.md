# Governance runtime: durable protocols

A model, in Dafny, of the durable core of an agent-governance runtime: the idempotency store and the
reconciliation ledger that share one database, the audit outbox and its two durable sinks, the
admission bulkhead, the approval store, the process-local cache, legacy migration, evidence lineage,
identity replay protection and anchor continuity.

`dafny verify dfyconfig.toml` checks everything.

## How the model is built

Each SQLite transaction is one atomic step on a value, `Tables` (`LedgerTypes.dfy`); a transaction
that raises leaves the tables alone.  `Operations.dfy` gives every transaction as a function of the
tables; `DurableStore.dfy` is the store object, whose methods update the table fields step by step,
roll back explicitly, and are proved to realize those functions.  A run is any sequence of
transactions by any number of processes (`Runs.dfy`), together with a history of what each
transaction did to ownership (`Ownership.dfy`); it starts from an empty database or from a migrated
one, and owner tokens are drawn fresh.  `StoreAnswers.dfy` and `LedgerAnswers.dfy` say, without the
transactions' own case distinctions, what the calls answer and when they are accepted.
`StoreRuns.dfy` shows that serving calls on the object reaches exactly the tables of such a run, and
`LedgerDriver.dfy` goes the other way: it drives the ledger to a given log by a sequence of calls.

The JSONL log is built the same way.  `JsonlSteps.dfy` gives, as a value, what a call leaves on disk when
its process gets through only so many of its durable file operations; the backup and size limits may
change from call to call, as processes with other limits go on with the log.  `JsonlSink.dfy` is the sink
object, proved to realize those values operation by operation, and `JsonlRuns.dfy` has the theorems about
whole lives of a log.

Clocks, drawn identifiers, lease lengths, failures and crashes are parameters, so every theorem holds
for all of them.  Canonical JSON, digests and HMAC tags are injective constructors; the audit hash is
an arbitrary function that is assumed collision free only where a lemma says so.  The verdict of the
evidence schema is a boolean argument.

| area | files |
|---|---|
| store and ledger | `LedgerTypes`, `Operations`, `LedgerInvariant`, `LedgerSteps`, `Runs`, `Ownership`, `StoreAnswers`, `LedgerTheorems`, `LedgerAnswers`, `AttemptDiscipline`, `AttemptScan`, `ReconciliationRuns`, `LedgerDriver`, `StrandedAttempts`, `DurableStore`, `StoreRuns` |
| audit | `AuditChain`, `SqliteSink`, `Delivery`, `AuditRelay`, `JsonlLog`, `JsonlSafety`, `JsonlSteps`, `JsonlLimits`, `JsonlRuns`, `JsonlSink`, `RaisedLimit` |
| admission | `Bulkhead`, `Admission` |
| approvals | `Approvals`, `ApprovalRuns`, `ApprovalStore` |
| others | `CompletedCache`, `Migration`, `Lineage`, `IdentityReplay`, `Anchors` |

## Where the code does not give what one would expect

* **Replay protection.**  Verification reads the clock once for the acceptance window and again for
  the replay claim, and the claim's reading is taken before the store's lock or transaction.  One
  envelope can therefore be accepted twice in two ways: the two readings of one call straddle the
  expiry of the earlier claim (`IdentityReplay.TwoReadingsAcceptTwice`), or a call with a later
  reading enters the store first and purges the claim (`IdentityReplay.OverlapAcceptsTwice`, with one
  reading per call).  `IdentityReplay.RepeatAcceptedIff` gives the exact condition without any
  assumption on the clock.  One reading per call, taken under the lock, rules both out
  (`IdentityReplay.NoReplayWithOneReading`).
* **First JSONL write.**  The first write creates the active file, appends its line and then writes
  the first state file.  A crash after the first or the second of these leaves a log that every later
  read and write refuses (`JsonlSteps.WriteKeeps`, `JsonlLimits.LostAfterIff`).
* **A raised backup limit.**  Pruning unlinks the younger of the superfluous segments first, so a crash
  between two unlinks leaves a gap before the anchor.  A later rotation under a larger limit can move the
  anchor back over the gap, and then every read is refused while writes go on, because a write only looks
  at the newest line.  `JsonlSteps.WriteKeeps` says exactly when: after a write that records a new anchor
  under a limit n the log can be read if and only if, before it, no line was missing among the active file
  and the segments 1 to n - 1; any other write after the first leaves it as readable as it was.  `JsonlSafety.WholeIffConsecutive` turns
  that into a look at the numbers on those lines.  `RaisedLimit.RaisedLimitBreaks` is such a life, in nine
  calls.  Reads recover after at most n rotations (`JsonlRuns.RotationsMend`); a crash between append and
  state file before that loses the log for good (`JsonlLimits.LostAfterIff`, `JsonlRuns.LostForGood`).
  As long as limits are never raised, or no write crashes, the crash of the first write is the only
  thing that stops the log from being read (`JsonlRuns.ReadsBack`).
* **Stranded attempts.**  The ledger accepts a persisted finding at whatever revision is current, even
  while another attempt is open; `StrandedAttempts.StrandingRun` is such a run.
  `StrandedAttempts.StrandedRunIff` says exactly when a head outside UNKNOWN has an open attempt, in
  any run.  Under the runtime's own rule of transitioning at the revision of its own finish, none has.

## Model

| member | source | states |
|---|---|---|
| Ownership.NoBlindReexecution | agent_runtime_governance/registry.py:497-685 | In every run from an empty or migrated database, between two owner claims of one namespace and key there is the first owner's own failure, a prune of its completed row, or a transition of its execution to CONFIRMED_NOT_APPLIED. |
| Ownership.TakenUntilFreed | agent_runtime_governance/registry.py:497-685 | In every run, nobody claims the key of a row that is not confirmed not applied before that row failed, was pruned or was reconciled as not applied. |
| Ownership.SettledOnce | agent_runtime_governance/registry.py:951-984 | At most one completion, failure, unknown mark, unknown record or lease expiry ever takes effect for one owner token. |
| Ownership.FencedOut | agent_runtime_governance/registry.py:724-816 | After a token was settled, no complete, fail, mark-unknown, record-unknown or renew with it changes any table. |
| Ownership.ReconciledIsForGood | agent_runtime_governance/reconciliation.py:2557-2588 | Once reconciliation has moved an execution, nothing ever claims, settles, renews or prunes it again. |
| Ownership.StepExplained | agent_runtime_governance/registry.py:497-984 | Every transaction changes the record table exactly as its recorded effect says, row for row: a claim inserts a pending row with the lease it asked for, only above rows confirmed not applied; a completion, unknown mark or expiry ends the pending owner's row with the caller's result, error and time, an expiry only once the lease is over; a prune takes only completed rows older than its cutoff; a reconciliation of an unresolved row leaves the state, result and error its decision calls for. |
| Ownership.HistoryRecordsCalls | agent_runtime_governance/registry.py:497-984 | The k-th history entry is the effect of the k-th call on the tables that call met. |
| StoreAnswers.AnswersByState | agent_runtime_governance/registry.py:576-677 | For every table the store can hold: an acquire of the request of a retained row is told what the row says and changes nothing: a completed row replays its result, an unknown or reviewed one answers outcome-unknown, an applied one already-applied, a pending one whose lease still runs in-progress. |
| StoreAnswers.OtherRequestsRefused | agent_runtime_governance/registry.py:572-575 | A different fingerprint under a used key is refused whatever state the key is in. |
| StoreAnswers.FreeKeyIsGranted | agent_runtime_governance/registry.py:525-562 | A key without rows, or whose rows are all confirmed not applied, goes to whoever asks, at the next generation, with the token, lease, fingerprint and descriptor of the call, unless the execution id is taken. |
| StoreAnswers.EndedLeaseIsUnknown | agent_runtime_governance/registry.py:632-664 | An acquire that meets a pending row whose lease is over ends it as unknown and opens the head of a prepared action; it is refused, with nothing changed, only if that head's audit id is taken. |
| StoreAnswers.LastChangeAnswers | agent_runtime_governance/registry.py:497-685 | In any reachable state and after any call that leaves a row, an acquire of its request is told what that call made of the row, however many calls come between that cannot change it; which calls cannot is said of the calls alone. |
| StoreAnswers.CompletedReplays | agent_runtime_governance/registry.py:577-578 | Once a completion is accepted, every later acquire of the same request replays that very result, through any calls, until a prune with a cutoff after the completion. |
| StoreAnswers.FreedKeyIsGranted | agent_runtime_governance/registry.py:593-631 | After a failure, a prune or the confirmation that the effect was not applied, the next acquire of the request becomes its owner. |
| StoreAnswers.LeasesAreHonoured | agent_runtime_governance/registry.py:632-664 | In every run each lease expiry comes at or after the end of the last lease that the owner's claim or renewal asked for: no acquire takes a row from an owner whose lease still runs. |
| StoreAnswers.PruneTakesExactly | agent_runtime_governance/registry.py:818-878 | A prune takes exactly the completed rows older than the cutoff that have no head, with their descriptors, counts them, and leaves every other row as it is. |
| Ownership.StartIsOk | agent_runtime_governance/registry.py:54-80 | A database without heads whose history lists the owners of its pending rows satisfies everything the run theorems need to start from. |
| LedgerTheorems.GenerationStructure | agent_runtime_governance/registry.py:514-676 | The retained generations of a key are exactly 1..n, one row each, with one fingerprint; every row that is not confirmed not-applied is generation n. |
| LedgerTheorems.TablesAgree | agent_runtime_governance/reconciliation.py:4070-4099 | Every head has a retained row in the state and with the result its disposition prescribes, no pending row has a head, every prepared action belongs to its own retained row. |
| LedgerTheorems.AuthorityAlwaysMatches | agent_runtime_governance/reconciliation.py:2557-2588 | In every reachable state no transition is refused because the idempotency authority differs or because its audit event conflicts. |
| LedgerTheorems.HeadIsItsLog | agent_runtime_governance/reconciliation.py:4004-4030 | The head is the fold of its log: revisions 1..n, linked states; the outbox holds exactly one envelope for each revision 0..n, whose payload shows every field of the head replayed up to that revision and reports provider, attempt, outcome, evidence and operator of the event that led to it. |
| LedgerTheorems.LastMoveSettles | agent_runtime_governance/reconciliation.py:4070-4099 | In every run, head and idempotency row show what the last transition in the log settled: none, unknown and blocked; MANUAL_REVIEW, in review and blocked; CONFIRMED_NOT_APPLIED, not applied and retry allowed; CONFIRMED_SUCCEEDED, completed with its result, or already applied without one. |
| Runs.ApplyKeeps | agent_runtime_governance/reconciliation.py:1571-2092 | Every transaction keeps record structure, links between tables, log well-formedness and the outbox; logs and outbox only grow. |
| Runs.LogsGrow | agent_runtime_governance/reconciliation.py:2407-2480 | No transaction removes or rewrites an event of any log. |
| AttemptDiscipline.StartedOnce | agent_runtime_governance/reconciliation.py:3740-3753 | An attempt id starts once in a log. |
| AttemptDiscipline.FinishHasStart | agent_runtime_governance/reconciliation.py:3755-3774 | Every finish has an earlier start of the same attempt by the same provider. |
| AttemptDiscipline.FinishedOnce | agent_runtime_governance/reconciliation.py:3755-3774 | An attempt finishes at most once. |
| AttemptDiscipline.AtMostOneOpen | agent_runtime_governance/reconciliation.py:3749-3753 | At most one attempt of a log is open. |
| AttemptDiscipline.UnfinishedIsOpen | agent_runtime_governance/reconciliation.py:3777-3800 | A start that no finish names is among the open ones. |
| AttemptDiscipline.OpenIsSole | agent_runtime_governance/reconciliation.py:3777-3800 | An open start is named nowhere else in its log. |
| AttemptDiscipline.TransitionsRestOnFindings | agent_runtime_governance/reconciliation.py:3873-3895 | Every provider transition is preceded by a successful finish carrying the identical finding. |
| AttemptDiscipline.RetrySafeAsserted | agent_runtime_governance/reconciliation.py:3898-3968 | A transition asserts retry safety exactly when it moves to CONFIRMED_NOT_APPLIED. |
| AttemptDiscipline.ConfirmedIsFinal | agent_runtime_governance/reconciliation.py:4033-4050 | After a confirmed state only finishes may follow, and they keep the state. |
| AttemptDiscipline.StartThenOwnFinish | agent_runtime_governance/runtime.py:2239-2277 | When provider transitions are made at the revision of the attempt's own finish, a start is directly followed by its own finish. |
| AttemptDiscipline.NothingOpenOutsideUnknown | agent_runtime_governance/runtime.py:2239-2277 | Under that rule no attempt is open once the log has left UNKNOWN. |
| AttemptDiscipline.ConfirmedEndsTheLog | agent_runtime_governance/runtime.py:2239-2277 | Under that rule nothing at all follows a confirmed state. |
| ReconciliationRuns.NoOpenAttemptOutsideUnknown | agent_runtime_governance/reconciliation.py:1945-1948 | In every run that follows the runtime's rule a head outside UNKNOWN has no open attempt, so recovery never meets one. |
| ReconciliationRuns.AbandonedFinalizerIsClosed | agent_runtime_governance/runtime.py:2817-2860 | A finalizer that gives up because the head moved past its start leaves its attempt closed by the very next event. |
| StrandedAttempts.StrandedIff | agent_runtime_governance/reconciliation.py:3740-3800 | A log outside UNKNOWN has an open attempt if and only if some event moved it out of UNKNOWN while an attempt was open that no later event finishes. |
| StrandedAttempts.StrandedRunIff | agent_runtime_governance/reconciliation.py:2014-2092 | The same equivalence for every head outside UNKNOWN in every run. |
| StrandedAttempts.StrandingRun | agent_runtime_governance/reconciliation.py:2014-2092 | A concrete run of six calls, all accepted, that ends with a head outside UNKNOWN and an attempt still open. |
| ReconciliationRuns.LedgerAcceptsAtAnyRevision | agent_runtime_governance/reconciliation.py:2014-2092 | The ledger commits a persisted finding at whatever revision is current. |
| LedgerDriver.StartLeads | agent_runtime_governance/reconciliation.py:1868-1889 | Any run that ends at an UNKNOWN log can be extended by a call that starts an attempt the log allows. |
| LedgerDriver.FinishLeads | agent_runtime_governance/reconciliation.py:1891-1917 | And by a call that finishes an attempt with a finding the provider supports. |
| LedgerDriver.TransitionLeads | agent_runtime_governance/reconciliation.py:2014-2092 | And by a call that commits a persisted finding or an operator's resolution at the current revision. |
| ReconciliationRuns.RecoveryQuarantines | agent_runtime_governance/reconciliation.py:1919-2012 | Once its deadline has passed, an open attempt of an UNKNOWN head is always closed and the head moved to review, in exactly two events. |
| LedgerAnswers.StartAcceptedIff | agent_runtime_governance/reconciliation.py:1868-1889 | A start is accepted exactly at the current revision of the addressed UNKNOWN head, when every started attempt is finished and this one was never named; then its one event is appended and no row changes. |
| LedgerAnswers.FinishAcceptedIff | agent_runtime_governance/reconciliation.py:1891-1917 | A finish is accepted exactly at the current revision from the provider whose attempt is open, with a finding of its own kinds exactly on success; then its one event is appended and no row changes. |
| LedgerAnswers.TransitionAcceptedIff | agent_runtime_governance/reconciliation.py:2014-2092 | A transition is accepted exactly for the persisted finding of an UNKNOWN head, or an operator's resolution of a head in review, at the current state and revision; the appended transition restates the decision field by field, and head and row show what it settles. |
| LedgerAnswers.RecoveryAnswers | agent_runtime_governance/reconciliation.py:1919-2012 | Recovery reports that nothing is open, leaves an attempt within its deadline alone, refuses an open attempt outside UNKNOWN, and otherwise closes the overdue attempt and moves the head to review. |
| LedgerAnswers.PrepareAcceptedIff | agent_runtime_governance/reconciliation.py:1609-1664 | An action is prepared exactly by the owner that holds its row, once; the same action again is accepted and another one refused. |
| LedgerAnswers.RecordUnknownAcceptedIff | agent_runtime_governance/reconciliation.py:1666-1780 | An unknown outcome is recorded exactly by the owner that holds its row, for the identity it prepared; the new head carries the prepared action where there is one. |
| LedgerAnswers.CreateUnknownAcceptedIff | agent_runtime_governance/reconciliation.py:1571-1607 | A head is created exactly for a retained unknown row without one that the action is bound to. |
| LedgerAnswers.NothingOpenIff | agent_runtime_governance/reconciliation.py:3777-3800 | The scan finds nothing open exactly when every started attempt of the log is finished. |
| AttemptScan.UnmatchedStarts | agent_runtime_governance/reconciliation.py:3777-3800 | The dict-and-set scan raises exactly on a log whose starts and finishes do not pair up, and otherwise returns exactly the starts no later finish closed, oldest first. |
| AttemptScan.LogIsPaired | agent_runtime_governance/reconciliation.py:3777-3800 | In every log the ledger builds, starts and finishes pair up, so the scan never raises on one. |
| AttemptScan.ValidateAttemptAppend | agent_runtime_governance/reconciliation.py:3740-3774 | On any log: refuses a start of a known attempt or beside an open one, and a finish without exactly one unmatched start by its provider; a start on a log that does not pair up raises; nothing else is refused. |
| AttemptScan.RequireFinishedAttempt | agent_runtime_governance/reconciliation.py:3873-3895 | The scan finds a successful finish with the same attempt, provider and finding exactly when the log has one. |
| AttemptScan.RefuseDecision | agent_runtime_governance/reconciliation.py:3898-3968 | A call whose parts do not fit together is refused; otherwise a legal move is let through exactly when the head's log accepts it as its next event. |
| DurableStore.Store.SelectLatest | agent_runtime_governance/registry.py:514-524 | The newest generation of a key is found whenever the key has a row. |
| DurableStore.Store.InsertOwner | agent_runtime_governance/registry.py:525-551 | Inserts a pending row and its prepared action together, or raises and changes nothing. |
| DurableStore.Store.ExpireOwner | agent_runtime_governance/registry.py:880-949 | Turns an expired owner into an unknown outcome and opens the head of a prepared action, or raises and changes nothing. |
| DurableStore.Store.Acquire | agent_runtime_governance/registry.py:497-685 | Realizes the acquire transaction on every table and reply; every row of the requested key whose state calls for a reply gets exactly that one, and another fingerprint under the key is refused, in both cases with every table unchanged. |
| DurableStore.Store.Complete | agent_runtime_governance/registry.py:714-722 | Returns exactly for a claim that holds its row or owns nothing; then the row is completed with the caller's result and time. Otherwise it raises and changes nothing. |
| DurableStore.Store.MarkUnknown | agent_runtime_governance/registry.py:777-787 | Returns exactly for a claim that holds its row or owns nothing; then the row is unknown with the caller's error and time. Otherwise it raises and changes nothing. |
| DurableStore.Store.Fail | agent_runtime_governance/registry.py:724-775 | Deletes the claim's row and its prepared action unless a head keeps it, or raises and changes nothing. |
| DurableStore.Store.Renew | agent_runtime_governance/registry.py:789-816 | Returns exactly for an owner that holds its row, whose lease then ends when asked; otherwise it raises and changes nothing. |
| DurableStore.Store.PruneCompleted | agent_runtime_governance/registry.py:818-878 | Deletes exactly the completed rows older than the cutoff that no head keeps, with their prepared actions, and returns how many. |
| DurableStore.Store.Enqueue | agent_runtime_governance/reconciliation.py:3542-3626 | Queues an audit event once per execution, revision and type; an identical one is left, a different one raises. |
| DurableStore.Store.PrepareAction | agent_runtime_governance/reconciliation.py:1609-1664 | Records a recovery descriptor for a claim that still owns its row, idempotently, or raises. |
| DurableStore.Store.RecordUnknown | agent_runtime_governance/reconciliation.py:1666-1780 | Settles the row as unknown and opens its head with the audit event in one transaction, or rolls everything back. |
| DurableStore.Store.CreateUnknown | agent_runtime_governance/reconciliation.py:1571-1607 | Opens a head only for an unknown row with matching fingerprint and namespace. |
| DurableStore.Store.AppendAttempt | agent_runtime_governance/reconciliation.py:2324-2480 | Appends a start or finish, moves the head's revision and queues the audit event together, or raises. |
| DurableStore.Store.StartAttempt | agent_runtime_governance/reconciliation.py:1868-1889 | Starts an attempt on an UNKNOWN head at the expected revision only. |
| DurableStore.Store.FinishAttempt | agent_runtime_governance/reconciliation.py:1891-1917 | Finishes an attempt at the expected revision, with a finding exactly on success. |
| DurableStore.Store.AppendTransition | agent_runtime_governance/reconciliation.py:2014-2092 | Moves head, log, idempotency row and outbox together, or raises and changes nothing. |
| DurableStore.Store.CompareAndAppendTransition | agent_runtime_governance/reconciliation.py:2014-2092 | Realizes the compare-and-append transaction with all its refusals; from sound tables it returns exactly when the decision may move the head, and then the log, head and row are moved as the decision says. |
| DurableStore.Store.CloseAll | agent_runtime_governance/reconciliation.py:1953-1971 | The recovery loop writes one synthetic finish for each open start. |
| DurableStore.Store.Quarantine | agent_runtime_governance/reconciliation.py:1953-2012 | Closing and moving to review commit together or are both rolled back. |
| DurableStore.Store.RecoverUnfinished | agent_runtime_governance/reconciliation.py:1919-2012 | Realizes the recovery transaction: nothing open, lease still valid, quarantine, or error. |
| DurableStore.Store.MarkDelivered | agent_runtime_governance/reconciliation.py:2184-2205 | Marks an envelope delivered once; an unknown id raises. |
| DurableStore.Store.RecordDeliveryFailure | agent_runtime_governance/reconciliation.py:2282-2322 | Counts a failed delivery of an undelivered envelope only. |
| StoreRuns.ServeAll | agent_runtime_governance/registry.py:497-984 | Serving any calls one after the other on a new store reaches exactly the tables of that run, and they satisfy the invariant. |
| Delivery.ExactlyOnceInOrder | agent_runtime_governance/reconciliation.py:2126-2205 | With any number of drainers and crashes between sink write and acknowledgement: no outbox id is in the sink twice, each row shows its envelope, each execution's rows are in revision order without gaps, acknowledged envelopes form a revision prefix and are all in the sink, and no delivery is ever refused. |
| Delivery.RetryIsSafe | agent_runtime_governance/audit.py:559-616 | A retried delivery never meets different content under its id, and writes nothing when its row is there. |
| Delivery.SomethingIsDeliverable | agent_runtime_governance/reconciliation.py:2138-2147 | As long as an execution has an undelivered envelope, one of its envelopes is deliverable. |
| AuditRelay.PendingAuditEvents | agent_runtime_governance/reconciliation.py:2126-2182 | Returns at most the limit of eligible envelopes, distinct, in execution order, all of them when fewer exist and otherwise none out of turn; refuses limits outside 1..1000. |
| AuditRelay.DeliverOne | agent_runtime_governance/runtime.py:2696-2711 | Writes the envelope unless the sink fails first; its acknowledgement time is set exactly when the acknowledgement commits, and otherwise its failure count grows by one; no other envelope changes, and sink and outbox stay in step. |
| AuditRelay.DeliverBatch | agent_runtime_governance/runtime.py:2693-2754 | Acknowledges a batch up to the first failure, exactly those and the failed one only if its acknowledgement had committed; every delivery before the failed one succeeded. |
| AuditRelay.Drain | agent_runtime_governance/runtime.py:2658-2754 | Pending-delivery is raised exactly when failures are fatal and the last delivery tried failed, all before it having succeeded; a returned count says that so many deliveries succeeded, and, unless the next one failed and failures are not fatal, that the limit is reached or nothing of the execution is pending. Everything acknowledged belongs to the execution asked for and is counted, but for one whose acknowledgement committed and raised; sink and outbox are in step at every exit. |
| SqliteSink.SqliteAuditSink.WriteEvent | agent_runtime_governance/audit.py:559-616 | Appends the event as the next chained row under its source id; a retry changes nothing and fails exactly when the stored content differs. |
| SqliteSink.WriteKeepsChain | agent_runtime_governance/audit.py:559-616 | Every table the sink writes is accepted by its verifying reader. |
| SqliteSink.ReadVerified | agent_runtime_governance/audit.py:618-659 | The reader accepts exactly the tables whose rows form a contiguous hash chain that ends in the recorded tail, and then returns every event. |
| SqliteSink.TailDeterminesTable | agent_runtime_governance/audit.py:618-659 | With a collision-free hash, two accepted tables with one tail hold the same events. |
| AuditChain.AgreeUpTo | agent_runtime_governance/audit.py:83-113 | With a collision-free hash, two chains from one anchor that agree on one hash agree on everything up to it. |
| AuditChain.ChainDetermined | agent_runtime_governance/audit.py:83-113 | One anchor and one tail determine the whole chain. |
| JsonlLog.RenameKeepsLines | agent_runtime_governance/audit.py:415-420 | Moving a segment to a free next index keeps the oldest-first line order, whatever gaps the indices have. |
| JsonlLog.ShiftKeeps | agent_runtime_governance/audit.py:415-420 | However far a shift gets, no rename overwrites a segment, the lines and their order are the same, and a segment can only get out of reach of an index. |
| JsonlLog.ShiftedAt | agent_runtime_governance/audit.py:415-420 | A complete shift moves exactly every segment up by one index. |
| JsonlLog.RotateKeepsLines | agent_runtime_governance/audit.py:420-422 | Turning the active file into segment 1 keeps the line order. |
| JsonlLog.ScanIsChained | agent_runtime_governance/audit.py:201-235 | Whatever the verifying reader returns is a hash chain from its anchor. |
| JsonlLog.ScanFindsChain | agent_runtime_governance/audit.py:201-235 | The reader gets through any lines whose part from the anchor on is a chain, whatever older lines remain. |
| JsonlLog.AcceptedLogsAgree | agent_runtime_governance/audit.py:286-318 | Two logs accepted from one state file agree up to the recorded event, and entirely when their tails agree, so a deletion, insertion, reordering or edit is refused. |
| JsonlSafety.AnchorIff | agent_runtime_governance/audit.py:431-439 | After anchoring at the first line pruning leaves, the log can be read if and only if the lines pruning leaves are the whole end of the log; everything beyond the limit lies before the anchor. |
| JsonlSafety.UnlinkKeeps | agent_runtime_governance/audit.py:424-429 | Removing a segment that lies before the anchor makes nothing readable or unreadable and leaves the segments below it alone, in whatever order segments go. |
| JsonlSafety.ScanIff | agent_runtime_governance/audit.py:201-235 | On lines that are some of the entries of a log, in order, with the newest one last, the reader succeeds if and only if none is missing from the anchor on, and then returns exactly those. |
| JsonlSafety.LoadIff | agent_runtime_governance/audit.py:237-318 | On every disk that calls and crashes lead to, under whatever limits, the load succeeds if and only if nothing is missing from the anchor on, with every append from there on and the newest one recorded. |
| JsonlSafety.WholeIffConsecutive | agent_runtime_governance/audit.py:441-474 | Whether a line is missing up to an index can be told from the numbers on the lines alone. |
| JsonlSteps.RotateKeeps | agent_runtime_governance/audit.py:178-182 | However far a rotation gets, the disk stays in order; once the anchor is recorded it can be read exactly when the lines pruning leaves are whole, and before that exactly when it could. |
| JsonlSteps.WriteKeeps | agent_runtime_governance/audit.py:169-192 | After any write, however far it gets and under whatever limit, the log is in order, and whether it can be read is decided exactly by what the disk was before: whole below the limit if the write records an anchor under one, readable otherwise, and past its state file if it is the first. |
| JsonlLimits.WriteKeepsWhole | agent_runtime_governance/audit.py:424-439 | A write never loses a line within the limit it is made under, wherever it crashes. |
| JsonlLimits.RotationLifts | agent_runtime_governance/audit.py:415-429 | A write that rotates and succeeds moves what is whole exactly one index up. |
| JsonlLimits.WriteKeepsGapless | agent_runtime_governance/audit.py:424-429 | A write that succeeds leaves a log without gaps without gaps, whatever its limit. |
| JsonlLimits.AnchorMovesForward | agent_runtime_governance/audit.py:431-439 | The anchor moves only forward when nothing within the limit lies before it, and not at all without a limit. |
| JsonlLimits.WrittenReadsIff | agent_runtime_governance/audit.py:169-192 | After a write that succeeds: readable exactly when whole below the limit, if it rotated under one, and else exactly when it was readable. |
| JsonlLimits.WrittenFits | agent_runtime_governance/audit.py:407-413 | A successful write appends to the active file exactly where the line fits the size limit or the file is empty, and otherwise starts a new one and keeps the old lines as segment 1; the active file is then within the limit or no larger than the line. |
| JsonlLimits.LostAfterIff | agent_runtime_governance/audit.py:260-284 | A log is lost exactly by a crash that leaves it unreadable with its newest line not recorded, or without any state file. |
| JsonlRuns.LifeKeeps | agent_runtime_governance/audit.py:169-318 | Whatever processes, limits, calls and crashes there were, what is on disk are entries of the log in order with the newest one last, and the state file matches the log. |
| JsonlRuns.ConfirmedArePlaced | agent_runtime_governance/audit.py:169-192 | The confirmed writes of a life are an order-preserving subsequence of its appends, each at its own place. |
| JsonlRuns.LoweredLimitsRead | agent_runtime_governance/audit.py:424-439 | As long as no limit is larger than an earlier one, a log with a state file can always be read, wherever writes crash. |
| JsonlRuns.LoweredLimitsMoveForward | agent_runtime_governance/audit.py:431-439 | And its anchor never moves back. |
| JsonlRuns.UncrashedReads | agent_runtime_governance/audit.py:169-192 | As long as no write crashes, limits may change freely and the log can always be read, without a gap. |
| JsonlRuns.ReadsBack | agent_runtime_governance/audit.py:194-199 | If limits were never raised or no write crashed, the log can be read, except after a first write that never got to its state file; then nothing was confirmed. |
| JsonlRuns.UnlimitedKeepsAll | agent_runtime_governance/audit.py:431-434 | A log that never was under a backup limit still starts at its first event. |
| JsonlRuns.RotationsMend | agent_runtime_governance/audit.py:424-439 | A log that is not lost can be read again after as many successful rotations as its limit allows backups, whatever was missing. |
| JsonlRuns.LostForGood | agent_runtime_governance/audit.py:237-284 | A lost log stays as it is and refuses every later read and write. |
| RaisedLimit.RaisedLimitBreaks | agent_runtime_governance/audit.py:424-439 | A concrete life of nine calls, two of them crashes in a prune under limit one and the last three under limit four, after which reads are refused and writes go on; the next rotation mends it, and a crash between append and state file instead loses it. |
| RaisedLimit.RefusedRead | agent_runtime_governance/audit.py:194-199 | The same nine calls on the sink object end in a refused read. |
| JsonlSink.SegmentPaths | agent_runtime_governance/audit.py:476-490 | Lists all segment files oldest first. |
| JsonlSink.ReadSegments | agent_runtime_governance/audit.py:201-235 | The nested loops with running sequence and hash verify exactly the lines of all segments in order. |
| JsonlSink.ReadTail | agent_runtime_governance/audit.py:320-365 | Finds and checks the last line of the newest non-empty segment. |
| JsonlSink.FirstRawEvent | agent_runtime_governance/audit.py:441-474 | Finds the first line of the segments that pruning leaves. |
| JsonlSink.FindCheckpoint | agent_runtime_governance/audit.py:300-308 | Finds the first event with the recorded number. |
| JsonlSink.Sink.Open | agent_runtime_governance/audit.py:130-166 | Takes over the log under new limits exactly when they are positive and a backup limit comes with a size limit, and leaves the files alone. |
| JsonlSink.Sink.LoadOrRebuild | agent_runtime_governance/audit.py:237-318 | On any disk: refuses, or adopts appended lines that extend the recorded event, or crashes without a change. |
| JsonlSink.Sink.LoadForWrite | agent_runtime_governance/audit.py:260-284 | The short cut by the newest line gives the same current state as a full load; it is refused exactly when the log is lost, so a log that cannot be read passes while its newest line is recorded. |
| JsonlSink.Sink.ReadDisk | agent_runtime_governance/audit.py:194-199 | On any disk, returns exactly the events the load accepts. |
| JsonlSink.Sink.ReadVerified | agent_runtime_governance/audit.py:194-199 | On every reachable disk: refused exactly when something is missing from the anchor on or the first write never got to its state file, otherwise returns every append at or after the anchor. |
| JsonlSink.Sink.ShiftBackups | agent_runtime_governance/audit.py:415-419 | The rename loop, cut short anywhere, makes exactly the first renames of the shift, highest index first. |
| JsonlSink.Sink.Rotate | agent_runtime_governance/audit.py:415-422 | Realizes the shift and the move of the active file, cut short anywhere. |
| JsonlSink.Sink.StateBeforePrune | agent_runtime_governance/audit.py:431-439 | Realizes the anchor at the first line that pruning leaves. |
| JsonlSink.Sink.Prune | agent_runtime_governance/audit.py:424-429 | The unlink loop, cut short anywhere, removes exactly the first segments beyond the limit, lowest index first. |
| JsonlSink.Sink.RotateAndPrune | agent_runtime_governance/audit.py:178-182 | Realizes rotation, anchor, state file and unlinks in this order, cut short anywhere, and crashes exactly when the operations run out. |
| JsonlSink.Sink.AppendLine | agent_runtime_governance/audit.py:183-192 | Realizes file creation, append and state replacement, cut short anywhere. |
| JsonlSink.Sink.Write | agent_runtime_governance/audit.py:169-192 | Realizes the whole write on every reachable disk: refused exactly when the log is lost, successful exactly when it gets through all its operations, and otherwise leaving what the operations before the crash made. |
| JsonlSink.Lifetime | agent_runtime_governance/audit.py:169-318 | Any calls on the object are a life of the log: what a read returns is the whole end of the appends, the confirmed writes are among the appends in order, the read is refused only if a limit was raised and a write crashed or nothing was confirmed, and without a backup limit every confirmed write reads back. |
| Bulkhead.PermitsConservedAndFair | agent_runtime_governance/resilience.py:205-326 | In every run with timeouts, cancellations, closed loops and repeated releases: free and held permits add up to the capacity, a free permit never coexists with a waiter, nobody is granted before an earlier caller who still waits, and no release is one too many. |
| Bulkhead.GrantAllServes | agent_runtime_governance/resilience.py:280-291 | The grant loop serves the queue in order, skipping closed loops, as far as permits go. |
| Bulkhead.FirstReleaseFrees | agent_runtime_governance/resilience.py:273-291 | The first release of a lease marks it released and takes its permit from the holder; the freed permits go to the oldest open waiters, exactly as many as there are, and the rest stays available. |
| Bulkhead.ReleasedOnce | agent_runtime_governance/resilience.py:320-326 | However often a released lease is released again, whatever happens in between, nothing changes. |
| Bulkhead.WithdrawLeaves | agent_runtime_governance/resilience.py:257-271 | A waiting caller that gives up leaves the queue and nothing else changes; a granted one gives its permit back, which goes to the oldest open waiters; either has the given state afterwards, and a finished one is left alone. |
| Bulkhead.DeliverReturns | agent_runtime_governance/resilience.py:293-302 | A delivery whose future is already done gives its permit back, which goes to the oldest open waiters; any other only takes place. |
| Bulkhead.EnterKeeps | agent_runtime_governance/resilience.py:248-255 | Entering keeps conservation, queue placement and fairness. |
| Bulkhead.WithdrawKeeps | agent_runtime_governance/resilience.py:257-271 | So does a timeout or cancellation, before or after the grant. |
| Bulkhead.DeliverKeeps | agent_runtime_governance/resilience.py:293-302 | So does a delivery callback, even for a future that was cancelled meanwhile. |
| Bulkhead.ReleaseKeeps | agent_runtime_governance/resilience.py:273-278 | Every release of a lease, first or repeated, keeps conservation, queue placement and fairness, and never finds all permits free already. |
| Admission.RuntimeBulkhead.GrantNext | agent_runtime_governance/resilience.py:280-291 | The loop hands free permits to the queue until permits or waiters run out. |
| Admission.RuntimeBulkhead.AcquireOrEnqueue | agent_runtime_governance/resilience.py:248-255 | Takes a permit and its lease exactly when one is free, and otherwise queues behind everyone. |
| Admission.RuntimeBulkhead.Withdraw | agent_runtime_governance/resilience.py:257-271 | Removes a waiter or returns its permit, then grants on; a finished waiter is left alone. |
| Admission.RuntimeBulkhead.Deliver | agent_runtime_governance/resilience.py:293-302 | Delivers a standing grant, or returns the permit of a cancelled one. |
| Admission.RuntimeBulkhead.ReleasePermit | agent_runtime_governance/resilience.py:273-278 | Raises exactly when all permits are back. |
| Admission.RuntimeBulkhead.ReleaseLease | agent_runtime_governance/resilience.py:313-326 | The first release never raises, ends the lease, gives its permit back and hands it to the oldest open waiter; every further release changes nothing. |
| Admission.RuntimeBulkhead.Serve | agent_runtime_governance/resilience.py:216-302 | Every critical section keeps the invariant, and releasing through a lease never raises. |
| ApprovalRuns.SingleConsumption | agent_runtime_governance/approval_store.py:319-479 | In every run each request is spent at most once, for a request equal on every compared field to the one it was opened for, with a decision that some approver passed for it, as passed and bound to exactly that request, by the holder of its latest reservation while that lasts; a consumed row never changes and every row verifies its own tag. |
| ApprovalRuns.DecideGrantedIff | agent_runtime_governance/decisions.py:71-118 | A decision is granted exactly when the request is live and unspent, every field the decision names is the request's, it does not outlive the request and no other decision is stored; the one stored has the approver's verdict, reason, source, id, name and time, the request's fields, and the request's expiry where the approver gave none. |
| ApprovalRuns.CommitGrantedIff | agent_runtime_governance/approval_store.py:405-460 | A commit is granted exactly for the stored request, with the current token, before its reservation ends. |
| ApprovalRuns.ReserveGrantedIff | agent_runtime_governance/approval_store.py:319-403 | A reservation is granted exactly for a decided, unexpired request, equal on every compared field, that nobody holds. |
| ApprovalRuns.ReservationCanCommit | agent_runtime_governance/approval_store.py:405-460 | A handed-out token commits to the same decision at any time before the reservation ends. |
| ApprovalRuns.NoConcurrentAnswers | agent_runtime_governance/approval_store.py:368-403 | The concurrent-change answers and the integrity failure never come out of rows the store wrote. |
| ApprovalRuns.ApplyKeepsRows | agent_runtime_governance/approval_store.py:512-596 | Every row the store writes verifies its tag and parses at the next read, and a reservation exists only while decided. |
| ApprovalRuns.ValidateIsSameness | agent_runtime_governance/approval_store.py:625-652 | The request check passes exactly for requests equal on nine fields, whether or not arguments were stored. |
| ApprovalStore.SqliteApprovalStore.OpenPending | agent_runtime_governance/approval_store.py:240-272 | Opens a request once, storing it with its arguments or redacted as configured, and leaves every other row alone; it returns exactly when the stored request and the presented one agree on every compared field, and raises otherwise. |
| ApprovalStore.SqliteApprovalStore.Get | agent_runtime_governance/approval_store.py:488-536 | Returns a row exactly when it is there and its tag verifies. |
| ApprovalStore.SqliteApprovalStore.Decide | agent_runtime_governance/approval_store.py:274-311 | Granted exactly when the request is live and unspent, the decision fits it and no other is stored; the decision returned and stored is the approver's own, bound to the request. A refusal changes nothing. |
| ApprovalStore.SqliteApprovalStore.Reserve | agent_runtime_governance/approval_store.py:319-403 | Hands out a token exactly for a decided, unexpired request that nobody holds, and that token commits to the very decision returned at any time before the reservation ends. |
| ApprovalStore.SqliteApprovalStore.Commit | agent_runtime_governance/approval_store.py:405-460 | Granted exactly for the stored request with the current token in time; it returns the stored decision, and after it no commit of the request, with any token at any time, is granted. |
| ApprovalStore.SqliteApprovalStore.Release | agent_runtime_governance/approval_store.py:462-479 | Answers true exactly for the current token, and then only the token and its end go; otherwise nothing changes. |
| ApprovalStore.SqliteApprovalStore.Consume | agent_runtime_governance/approval_store.py:313-317 | Returns the stored decision exactly when the reserve is granted and the commit comes within thirty seconds, and leaves the row consumed. |
| ApprovalStore.ServeAll | agent_runtime_governance/approval_store.py:240-479 | Serving any calls one after the other on a new store reaches exactly the rows of that run, so single consumption holds of the object. |
| CompletedCache.PoppingLeavesRecent | agent_runtime_governance/registry.py:388-400 | Popping the oldest while it is stale or there are too many leaves exactly the fresh touches cut to the most recent. |
| CompletedCache.InMemoryStore.PopStale | agent_runtime_governance/registry.py:388-400 | The eviction loop drops a settled entry with its touch and never an unsettled one. |
| CompletedCache.InMemoryStore.EvictCompleted | agent_runtime_governance/registry.py:388-400 | Leaves exactly the recent touches, and exactly the entries that are unsettled, untracked or still tracked. |
| CompletedCache.InMemoryStore.RememberCompleted | agent_runtime_governance/registry.py:384-386 | Moves a slot to the recent end without growing the list when it was tracked. |
| CompletedCache.InMemoryStore.Acquire | agent_runtime_governance/registry.py:309-342 | After eviction: a slot without an entry goes to the caller under a new future; the same request joins the entry's future and touches it if settled; another request gets nothing. An unsettled slot never gets a second owner; every settled entry stays tracked and their number within the maximum. |
| CompletedCache.InMemoryStore.Settle | agent_runtime_governance/registry.py:344-378 | Settles a future once, tracks it, evicts, and keeps exactly the surviving entries, among them every unsettled one. |
| CompletedCache.InMemoryStore.Fail | agent_runtime_governance/registry.py:353-364 | Removes exactly the claim's own entry and its touch, and gives the failure to its future exactly when that is unsettled. |
| CompletedCache.InMemoryStore.SettledAreFew | agent_runtime_governance/registry.py:388-400 | After any call at most the maximum number of entries are settled. |
| Migration.NormalizeLegacyRow | agent_runtime_governance/registry.py:1391-1452 | Every legacy row becomes one satisfying both table checks; which state, result, lease and error text it gets, for every state. |
| Migration.MigrateLegacyRecords | agent_runtime_governance/registry.py:1332-1361 | Succeeds exactly for distinct keys and identities, and then the new table holds exactly the given rows, at generation one. |
| Migration.MigratedRecordsOk | agent_runtime_governance/registry.py:54-80 | A migrated table satisfies the generation invariant of the store. |
| Migration.MigratedTablesOk | agent_runtime_governance/registry.py:1332-1361 | Every invariant of the store and ledger holds of a migrated table, so transactions may go on from it. |
| Migration.MigratedIsStart | agent_runtime_governance/registry.py:1332-1361 | A migrated table is a place for runs to start, so every theorem about runs holds from there. |
| Migration.MigratedKeysStayTaken | agent_runtime_governance/registry.py:1391-1452 | Right after any migration, a key it brought can be acquired by a new owner only if its legacy row was confirmed not applied; a row of the oldest schema never is. |
| Migration.MigratedKeysAreFreed | agent_runtime_governance/registry.py:1391-1452 | In every run from a migrated table, a new owner of a key whose legacy row was not confirmed not applied comes after a failure, a prune or a not-applied reconciliation of that very row. |
| Lineage.ValidateLineage | agent_runtime_governance/evidence.py:861-890 | The validator accepts exactly the paths of the ledger's state machine from UNKNOWN, numbered from one, in order of time. |
| Lineage.LineageIsShort | agent_runtime_governance/evidence.py:52-66 | An accepted lineage has at most two entries and nothing follows a confirmed state. |
| Lineage.HistoryAcceptedIff | agent_runtime_governance/evidence.py:861-890 | The transitions of any ledger log are accepted if and only if their times do not go backwards. |
| Lineage.RunAcceptedIff | agent_runtime_governance/evidence.py:861-890 | The same for the log of every head in every run. |
| Lineage.EveryLineageArises | agent_runtime_governance/reconciliation.py:4033-4050 | Every accepted lineage is the history that some run of ledger calls leaves. |
| IdentityReplay.NoReplayWithOneReading | agent_runtime_governance/identity.py:98-108 | With one clock reading per verification, taken in the order in which the store serves the calls, no envelope is accepted twice in any run, although claims are purged. |
| IdentityReplay.AcceptedInTime | agent_runtime_governance/identity.py:235-271 | An accepted envelope is genuine, no longer-lived than allowed, and presented between issue and expiry, give or take the skew; its id is then claimed until the skewed expiry. |
| IdentityReplay.RepeatAcceptedIff | agent_runtime_governance/identity.py:235-271 | Without any assumption on the clock: the next presentation of an accepted envelope is accepted again if and only if it is in its window and the claim has run out at its own claim reading or was purged by a call in between. |
| IdentityReplay.RepeatNeedsPassing | agent_runtime_governance/identity.py:235-271 | Whatever else was presented, a second acceptance needs a window check before the claim's expiry and a claim reading at or after it, by this call or one that entered the store before it. |
| IdentityReplay.TwoReadingsAcceptTwice | agent_runtime_governance/identity.py:235-271 | A concrete run of two calls that do not overlap, both accepted. |
| IdentityReplay.OverlapAcceptsTwice | agent_runtime_governance/identity.py:134-154 | A concrete run with one reading per call in which an overlapping call with a later reading enters the store first, and one envelope is accepted twice. |
| IdentityReplay.IdentityProvider.VerifyEnvelope | agent_runtime_governance/identity.py:215-279 | Accepts exactly a genuine envelope inside its window whose id is not claimed, with the code's two clock readings; already-used is answered exactly for a live claim. |
| IdentityReplay.InMemoryReplayStore.ClaimId | agent_runtime_governance/identity.py:98-108 | An id is claimed exactly when no live claim on it exists; afterwards a claim on it is there, and every live claim on any id survives. |
| IdentityReplay.SqliteReplayStore.ClaimId | agent_runtime_governance/identity.py:134-154 | The same in a transaction; a refusal rolls the purge back and changes nothing. |
| Anchors.ValidateAnchorEntries | agent_runtime_governance/evidence_external.py:521-530 | Accepts exactly the histories with contiguous positions and distinct bundles. |
| Anchors.GreedyIff | agent_runtime_governance/evidence_external.py:533-554 | Matching each element at its first chance succeeds exactly when an order-preserving placement exists. |
| Anchors.ScanSubsequence | agent_runtime_governance/evidence_external.py:533-554 | The scan over one shared iterator decides the subsequence relation. |
| Anchors.SameMembersIffPermutation | agent_runtime_governance/evidence_external.py:265-270 | For histories without repetition, equal member sets and a permutation are the same thing. |
| Anchors.AnchorProvider.Append | agent_runtime_governance/evidence_external.py:224-239 | Appends exactly when there is room and the bundle id is new, and keeps the history well formed. |
| Anchors.AnchorProvider.VerifyContinuity | agent_runtime_governance/evidence_external.py:241-271 | Passed exactly for an equal history, deletion exactly for a strict subsequence, reordered exactly for a different permutation, subject missing exactly when it is not there. |

## Left out

- The in-memory ledger and the in-memory approval store: they make the same moves without transactions, outbox or tags.
- SQLite itself, schema checks, triggers, journal modes and connection handling: each transaction is one atomic step and constraints are refusals.
- Databases with only one of the two authorities installed: the model has both, and starts without heads.
- Signatures on audit events and on the state file, redaction, byte limits and identifier formats: they are checks on single values.
- Torn lines in the JSONL file: once the file is there, a line is appended whole or not at all.
- Stall alerts, poisoning after a failed failure record, and caller deadlines in the drain: observability and scheduling.
- Event-loop scheduling, executors, shutdown and hooks: only the critical sections and the protocol steps are modelled.
- Re-parsing of stored approval requests: the source recomputes a tag from the request it parses and dumps again; texts are constructors of their contents here, so that this round trip gives the same text holds by construction.
- Truncation of legacy error texts to a length limit.
- Circuit breaker, policy, decision explanation, evidence signing and receipts, production readiness, pipeline, debugger and command line: separate components that neither read nor write the state modelled here.
- AuditRelay.Drain: one drainer at a time; interleavings of several drainers with crashes are the subject of `Delivery.ExactlyOnceInOrder`.
- IdentityReplay.RepeatAcceptedIff: signature, issuer, audience and format checks are one boolean of the envelope.
