# DisputeManager: chargeback reconciliation, modelled in Dafny

`DisputeManager` is a Sidekiq worker. It reconciles the payment gateway's chargeback
disputes with the local billing records. For each dispute the gateway lists, it does
one of three things:

- It skips the dispute if the dispute's metadata already carries a `payment_receipt_id`.
- It skips the dispute silently if no payment receipt exists for the dispute's charge, or
  if that receipt has no account.
- Otherwise it enforces. It records a chargeback activity on the account's user. It then
  quarantines every server of that user with `block_server`: a shutdown, a shutdown
  activity, `validation_reason := 4`, and a validation activity. It mails the user and
  notifies support (a failure of the support notice is ignored). It logs the account's
  risky IP addresses and then its risky cards. Last, it writes a marker back into the
  dispute's metadata at the gateway: the receipt id, the receipt number and the account id.

An exception anywhere in one dispute is tracked with the dispute's charge and the source
tag `DisputeManager`, and the batch goes on with the next dispute.

## How the model is built

Nine modules, one file each.

- `DisputeTypes` (`types.dfy`) holds the data: dispute, receipt, account, the external
  calls, the recorded effects (`Event`) and the world `State`. The state has:
  - the read-only tables: server owners, each user's servers in order, accounts, and
    receipts by charge reference;
  - each server's `validation_reason`;
  - the gateway's disputes by id;
  - one append-only trace of every external effect, in order.
- `DisputeMetadata` (`metadata.dfy`) holds the string side. It models ActiveSupport's
  `blank?` (missing, or only Unicode white space) and decimal rendering with its parse.
  It also holds the marker `update_dispute` writes and the idempotency guard.
- `Reconciliation` (`reconciliation.dfy`) is the specification. Each operation of the
  worker is a function `State -> (State, Completion)`. `Completion` is either normal
  completion or the exception that ended it.
- `DisputeWorker` (`dispute_manager.dfy`) is the worker itself. It is a class whose
  fields are the world state, and whose methods (`BlockServer`, `UpdateDispute`, the loop
  over the servers, `Perform` with its loop over the listed disputes) update those fields
  step by step. Each method is proved to leave exactly the state, and give exactly the
  completion, that the matching `Reconciliation` function gives.
- `ServerProperties`, `TraceProperties`, `DisputeProperties` and `BatchProperties` hold
  the lemmas about `block_server`, about the write-only trace, about one dispute, and
  about a whole batch.
- `Scenario` (`scenario.dfy`) works one concrete dispute through the functions: once
  processed, once relisted, once interrupted inside `block_server`. A second world, with
  two disputes on one charge, shows why failure isolation needs the failed dispute to
  leave every reason unchanged.

Exceptions are modelled by a fault set, `set<Call>`: the calls that raise while one dispute
is handled. A batch takes an `Oracle`, a map from dispute id to fault set. A call that
raises has no effect of its own. The database reads raise like any other call: the
receipt lookup (line 16), the account load (line 20), the user load (line 22) and the
server-list load (line 24) each have a `Call`. A user who is missing (`account.user` is
`nil`) raises `NilUser` at the chargeback activity, the first place the code dereferences it.

Failure isolation holds only for a dispute that fails before it changes any reason. The
`rescue` (line 38) undoes nothing that ran before the exception. A dispute that fails
partway through the traversal has therefore already quarantined the servers before the
failing one, and the next dispute for the same user passes those servers by.
`BatchProperties.FailureIsolation` therefore requires the failed dispute to leave the
reasons as it found them. `BatchProperties.RunAfterFailure` states the general case: the
rest of the batch runs from the state the failed dispute left. `Scenario.PartialFailureIsNotIsolated`
gives a concrete batch where dropping the condition fails.

## Model

| member | source | states |
|---|---|---|
| `DisputeMetadata.Reconciled` | app/workers/dispute_manager.rb:14 | the guard `dispute['metadata']['payment_receipt_id'].blank?`, negated: a dispute counts as reconciled only if the key is present with a nonempty value. The value must also hold a character other than white space (`GuardExamples`). `Marker` always satisfies it, and `ReconciledDisputeIsSkipped` and `MarkerGuardsLaterRuns` make processed disputes skip |
| `DisputeMetadata.GuardExamples` | app/workers/dispute_manager.rb:14 | a missing key, an empty value or a value of white space (including the non-breaking space) leave a dispute unmarked; `"0"` or any value holding a non-space character marks it |
| `DisputeMetadata.DecimalString` | app/workers/dispute_manager.rb:47 | an integer id is written to the metadata as a nonempty string of decimal digits |
| `DisputeMetadata.DecimalRoundTrip` | app/workers/dispute_manager.rb:47 | reading the decimal text of an id back gives the same id |
| `DisputeMetadata.DigitsNotBlank` | app/workers/dispute_manager.rb:14 | a nonempty digit string is not `blank?`, so a written receipt id passes the guard |
| `DisputeMetadata.Marker` | app/workers/dispute_manager.rb:47 | the marker has exactly the keys `payment_receipt_id`, `payment_receipt_ref` and `account`; it is `Reconciled`; its receipt id parses back to the receipt's id; its ref is the receipt number; its account parses back to the receipt's account id |
| `Reconciliation.BlockServer` | app/workers/dispute_manager.rb:52-58 | a server with reason > 0 is left alone with no effect; otherwise it completes exactly when none of its four calls raises, and then its reason becomes 4 and the trace gains shutdown, shutdown activity, validation activity with reason 4; a partial run leaves a prefix of those effects; no other server's reason, no table and no gateway record changes; an exception is one of the server's own calls |
| `Reconciliation.BlockAll` | app/workers/dispute_manager.rb:24 | the traversal only quarantines, never touches the tables or the gateway, only appends quarantine effects, and an exception comes from a faulty call |
| `Reconciliation.Correlate` | app/workers/dispute_manager.rb:14-21 | the three skips, each as an if-and-only-if: already reconciled exactly when the receipt id is not blank; no receipt exactly when unmarked and the charge has no receipt; no account exactly when unmarked, a receipt exists, and its account does not; a match carries the receipt of the charge and the account of that receipt |
| `Reconciliation.LookupFault` | app/workers/dispute_manager.rb:14-21 | the database read of the skip guards that raises: none for a marked dispute; otherwise `find_by_reference` if it raises, then the account load if a receipt was found and that load raises. No read raises exactly when the dispute is marked, or the lookup succeeds and either finds no receipt or the account load succeeds |
| `Reconciliation.NotifyAndLogRisk` | app/workers/dispute_manager.rb:27-34 | completes exactly when the mail and both risk logs succeed, whatever the support notice does; on completion the trace gains mail, then the support notice unless it failed, then risky IPs, then risky cards; nothing but the trace changes |
| `Reconciliation.Enforce` | app/workers/dispute_manager.rb:22-34 | keeps the tables coherent, only quarantines, leaves the gateway alone, only appends; an exception is `NilUser` or a faulty call, the user load and the server-list load included |
| `Reconciliation.UpdateDispute` | app/workers/dispute_manager.rb:45-49 | completes exactly when the dispute exists at the gateway and neither the fetch nor the save raises; then only that record changes, its metadata being replaced by the marker, and the save is recorded; on an exception nothing changes |
| `Reconciliation.Reconcile` | app/workers/dispute_manager.rb:13-36 | skipped exactly when no read of the guards raises and the dispute is unmatched, then with no effect and that skip's cause; a raising read fails the dispute with no effect; a failure leaves the gateway alone; a processed dispute met no raising read, and its record gets the marker of its receipt while no other record changes |
| `Reconciliation.Handle` | app/workers/dispute_manager.rb:12-40 | one iteration with its rescue: a skip has no effect; a failure leaves the gateway alone and ends the trace with the tracked error carrying the charge and `DisputeManager`; a processed dispute was matched and its record now carries the marker |
| `Reconciliation.Run` | app/workers/dispute_manager.rb:11-41 | the batch keeps the tables and their coherence, only quarantines, only appends, keeps the gateway's ids, and leaves unchanged every dispute record the batch does not list |
| `DisputeWorker.DisputeManager.constructor` | app/workers/dispute_manager.rb:5 | the worker starts on the given world state |
| `DisputeWorker.DisputeManager.BlockServer` | app/workers/dispute_manager.rb:52-58 | the in-place `block_server` leaves exactly the state and completion of `Reconciliation.BlockServer` |
| `DisputeWorker.DisputeManager.UpdateDispute` | app/workers/dispute_manager.rb:45-49 | the in-place fetch, metadata assignment and save give exactly `Reconciliation.UpdateDispute` |
| `DisputeWorker.DisputeManager.BlockServers` | app/workers/dispute_manager.rb:24 | the loop over the user's servers, stopped by the first exception, gives exactly `Reconciliation.BlockAll` |
| `DisputeWorker.DisputeManager.NotifyAndLogRisk` | app/workers/dispute_manager.rb:27-34 | the notifications and risk logs give exactly `Reconciliation.NotifyAndLogRisk` |
| `DisputeWorker.DisputeManager.Enforce` | app/workers/dispute_manager.rb:22-34 | the enforcement steps, the user and server-list loads included, give exactly `Reconciliation.Enforce` |
| `DisputeWorker.DisputeManager.ReconcileDispute` | app/workers/dispute_manager.rb:13-36 | the body of one iteration, the receipt lookup and account load included, gives exactly `Reconciliation.Reconcile` |
| `DisputeWorker.DisputeManager.Perform` | app/workers/dispute_manager.rb:9-42 | the loop over the listed disputes, tracking each exception and going on, keeps the tables coherent and gives exactly `Reconciliation.Run` |
| `ServerProperties.BlockServerIdempotent` | app/workers/dispute_manager.rb:53-56 | after a completed `block_server`, a second one, whatever raises, changes nothing |
| `ServerProperties.InterruptedQuarantineIsRepeated` | app/workers/dispute_manager.rb:53-56 | if `update!` raises, the reason stays 0, and the next `block_server` shuts the server down again: quarantine is at least once, not exactly once |
| `ServerProperties.BlockServerSeesOnlyItsCalls` | app/workers/dispute_manager.rb:52-58 | only that server's four calls decide what `block_server` does |
| `ServerProperties.BlockAllSeesOnlyBlockCalls` | app/workers/dispute_manager.rb:24 | only the listed servers' `block_server` calls decide what the traversal does |
| `ServerProperties.BlockAllQuarantinesAll` | app/workers/dispute_manager.rb:24 | a traversal that completes leaves every listed server with reason > 0 |
| `ServerProperties.BlockAllWithoutFaults` | app/workers/dispute_manager.rb:24 | if no server's calls raise, the traversal completes |
| `ServerProperties.BlockAllKeepsUnlisted` | app/workers/dispute_manager.rb:24 | a server that is not listed keeps its reason |
| `ServerProperties.BlockAllSkipsQuarantined` | app/workers/dispute_manager.rb:53 | if every listed server has reason > 0, the traversal has no effect at all |
| `ServerProperties.QuarantineTraceFrame` | app/workers/dispute_manager.rb:53 | the quarantine effects expected of a list of servers depend only on those servers' reasons |
| `ServerProperties.BlockAllHead` | app/workers/dispute_manager.rb:24 | the first step of a completed traversal of distinct servers records exactly that server's quarantine, or nothing if it was under validation, and leaves the other servers' expected effects unchanged |
| `ServerProperties.BlockAllTrace` | app/workers/dispute_manager.rb:24 | a completed traversal of distinct servers appends exactly `QuarantineTrace`. In list order, each server at reason 0 or below gains shutdown, shutdown activity and validation activity with reason 4, owned by its user; a server at reason > 0 gains nothing |
| `TraceProperties.BlockServerShift` | app/workers/dispute_manager.rb:52-58 | `block_server` does the same whatever was recorded before |
| `TraceProperties.BlockAllShift` | app/workers/dispute_manager.rb:24 | the traversal does the same whatever was recorded before |
| `TraceProperties.NotifyShift` | app/workers/dispute_manager.rb:27-34 | the notifications do the same whatever was recorded before |
| `TraceProperties.EnforceShift` | app/workers/dispute_manager.rb:22-34 | enforcement does the same whatever was recorded before |
| `TraceProperties.UpdateDisputeShift` | app/workers/dispute_manager.rb:45-49 | the write-back does the same whatever was recorded before |
| `TraceProperties.ReconcileShift` | app/workers/dispute_manager.rb:13-36 | one iteration's body does the same whatever was recorded before |
| `TraceProperties.HandleShift` | app/workers/dispute_manager.rb:12-40 | one iteration does the same whatever was recorded before |
| `TraceProperties.RunShift` | app/workers/dispute_manager.rb:11-41 | a batch does the same whatever was recorded before |
| `DisputeProperties.EnforceTouchesOnlyUsersServers` | app/workers/dispute_manager.rb:22-24 | enforcement changes the reason of no server outside the account user's list |
| `DisputeProperties.EnforceTrace` | app/workers/dispute_manager.rb:22-34 | whatever enforcement appends begins with the chargeback activity, with the dispute's amount, currency, reason, status and the receipt id, and goes on with quarantine, notification and risk effects only |
| `DisputeProperties.EnforceCompleted` | app/workers/dispute_manager.rb:22-34 | completed enforcement means the user exists, no enforcement call raised, every server of the user has reason > 0, and the trace ends with risky IPs, then risky cards |
| `DisputeProperties.EnforceEndsWithNotices` | app/workers/dispute_manager.rb:22-34 | completed enforcement starts its effects with the chargeback activity. It ends with, in this order: the user's mail, the support notice unless that call raised, risky IPs, risky cards |
| `DisputeProperties.Traversal` | app/workers/dispute_manager.rb:22-24 | the traversal after a recorded chargeback activity: its effects start with that activity and hold no support notice |
| `DisputeProperties.TraversalQuarantines` | app/workers/dispute_manager.rb:24 | a completed traversal leaves every server of the user with reason > 0 |
| `DisputeProperties.TraversalTrace` | app/workers/dispute_manager.rb:22-24 | a completed traversal of distinct servers records the chargeback activity, then exactly `QuarantineTrace` of the user's servers |
| `DisputeProperties.EnforceFullTrace` | app/workers/dispute_manager.rb:22-34 | for users whose server lists repeat no server, completed enforcement appends exactly: the chargeback activity, the quarantine of each server at reason 0 or below in list order, the mail, the support notice unless that call raised, risky IPs, risky cards |
| `DisputeProperties.EnforceSucceeds` | app/workers/dispute_manager.rb:22-34 | enforcement whose calls (all but the support notice) do not raise completes |
| `DisputeProperties.EnforceEarlyAbort` | app/workers/dispute_manager.rb:22 | a raising user load, a missing user, or a chargeback activity that raises, aborts with no effect and that exception |
| `DisputeProperties.EnforceOnQuarantinedUser` | app/workers/dispute_manager.rb:24 | for a user whose servers are all under validation already, enforcement changes no reason |
| `DisputeProperties.ReconciledDisputeIsSkipped` | app/workers/dispute_manager.rb:14 | a dispute whose receipt id is not blank is skipped with no effect at all |
| `DisputeProperties.UnmatchedDisputeIsSkipped` | app/workers/dispute_manager.rb:16-21 | with no receipt, or no account, and no raising read, the dispute is skipped silently with that cause and no effect; with a raising read it fails |
| `DisputeProperties.LookupFailureIsTracked` | app/workers/dispute_manager.rb:16-39 | for an unmarked dispute whose receipt lookup raises, or whose account load raises after a receipt was found, the dispute fails with that exception and its only effect is the tracked error with its charge and `DisputeManager` |
| `DisputeProperties.ProcessedTraceShape` | app/workers/dispute_manager.rb:22-36 | the ordering facts of an enforcement trace followed by a write-back |
| `DisputeProperties.EnforceThenSaveTrace` | app/workers/dispute_manager.rb:22-36 | completed enforcement then a completed write-back: chargeback first and once, risky IPs then risky cards, the marker saved last and once |
| `DisputeProperties.ProcessedTrace` | app/workers/dispute_manager.rb:22-36 | a processed dispute's effects: the chargeback activity first and only once, then risky IPs, risky cards, and the marker saved last and only once |
| `DisputeProperties.ProcessedNotices` | app/workers/dispute_manager.rb:27-36 | a processed dispute's trace ends with, in this order: the mail, the support notice unless that call raised, risky IPs, risky cards, the marker saved |
| `DisputeProperties.ProcessedFullTrace` | app/workers/dispute_manager.rb:22-48 | for users whose server lists repeat no server, a processed dispute appends exactly: the chargeback activity, the quarantine of each server at reason 0 or below, the four notification effects (three if the support notice raised), the marker saved |
| `DisputeProperties.ProcessedDispute` | app/workers/dispute_manager.rb:16-48 | a processed dispute leaves every server of the user under validation, no other server's reason changed, and its gateway record carrying exactly the marker; none of its reads, enforcement calls or gateway calls raised |
| `DisputeProperties.FailedDisputeStaysUnmarked` | app/workers/dispute_manager.rb:36-40 | a failed dispute leaves the gateway unchanged, writes no marker, and its last effect is the tracked error with its charge and `DisputeManager` |
| `DisputeProperties.WriteBackOnlyAfterEnforcement` | app/workers/dispute_manager.rb:16-36 | if the gateway changed, the dispute was processed, no read of the guards and no enforcement call raised, and every server of the user is under validation |
| `DisputeProperties.CleanDisputeIsProcessed` | app/workers/dispute_manager.rb:16-48 | a matched dispute all of whose calls succeed, reads included and the support notice aside, is processed |
| `DisputeProperties.EarlyFailureKeepsReasons` | app/workers/dispute_manager.rb:22-24 | a raising user load, a missing user, a failing chargeback activity, or a user already fully under validation leaves every reason as it was |
| `DisputeProperties.MarkerGuardsLaterRuns` | app/workers/dispute_manager.rb:14 | the record a processed dispute leaves at the gateway is skipped as already reconciled from any state |
| `DisputeProperties.HandleKeepsReconciled` | app/workers/dispute_manager.rb:14 | a marked record at the gateway stays marked whichever dispute is handled |
| `DisputeProperties.RemoveSupport` | app/workers/dispute_manager.rb:28 | a trace with its support notices taken out holds no support notice and is no longer than the trace |
| `DisputeProperties.RemoveSupportAppend` | app/workers/dispute_manager.rb:28 | taking the support notices out of two traces one after the other is taking them out of their concatenation |
| `DisputeProperties.RemoveSupportNone` | app/workers/dispute_manager.rb:28 | a trace with no support notice is unchanged by taking them out |
| `DisputeProperties.NotifyShape` | app/workers/dispute_manager.rb:27-34 | once the user's mail goes out, the notifications append the mail, the support notice unless that call raised, and the risk logs up to the first that raises |
| `DisputeProperties.NotifyTracesDiffer` | app/workers/dispute_manager.rb:28 | the notifications with the support notice raising append exactly what they append without it, that notice taken out |
| `DisputeProperties.NotifySupportSwallowed` | app/workers/dispute_manager.rb:28 | whether or not the support notice raises, the notifications complete the same way and change nothing else the same way. Their effects are the same in the same order once the support notice is taken out, and with the notice raising none is recorded |
| `DisputeProperties.BlockStageSupportSwallowed` | app/workers/dispute_manager.rb:22-34 | the same for enforcement that gets past the user load and the chargeback activity |
| `DisputeProperties.EnforceSupportSwallowed` | app/workers/dispute_manager.rb:22-34 | the same for the whole enforcement block: same completion, reasons and gateway, and the same effects in the same order, the support notice aside |
| `DisputeProperties.SaveIgnoresSupport` | app/workers/dispute_manager.rb:45-49 | the write-back depends neither on the trace nor on the support notice |
| `DisputeProperties.ReconcileSupportSwallowed` | app/workers/dispute_manager.rb:13-36 | the same for one iteration's body, the write-back included |
| `DisputeProperties.SupportFailureIsSwallowed` | app/workers/dispute_manager.rb:28 | whether or not the support notice raises, the dispute has the same outcome, the same reasons and gateway records, and the same effects in the same order once the support notice is taken out; with the notice raising, none is recorded |
| `BatchProperties.RunAppend` | app/workers/dispute_manager.rb:11 | running two lists one after the other is running their concatenation |
| `BatchProperties.SkippedDisputeIsAbsent` | app/workers/dispute_manager.rb:14-21 | a skipped dispute is as if it had not been listed |
| `BatchProperties.RunFromStripped` | app/workers/dispute_manager.rb:11-41 | a batch from any state is the batch from that state without its trace, with the trace put back in front |
| `BatchProperties.RunAfterFailure` | app/workers/dispute_manager.rb:11-40 | after any failed dispute, the gateway and tables are as before it. The rest of the batch runs from the state it left, whatever reasons it already set, with its effects in front |
| `BatchProperties.FailureIsolation` | app/workers/dispute_manager.rb:11-40 | a dispute that raised without changing any reason does not change how the rest of the batch runs; the two batches differ only by that dispute's own effects and its tracked error |
| `BatchProperties.RunKeepsReconciled` | app/workers/dispute_manager.rb:14 | a record marked at the gateway is still marked after any batch |
| `BatchProperties.RerunIsNoOp` | app/workers/dispute_manager.rb:14 | a batch of disputes that all carry the marker has no effect at all |
| `BatchProperties.ProcessedHeadStaysMarked` | app/workers/dispute_manager.rb:11-48 | a dispute processed first in a batch is still marked when the batch ends |
| `BatchProperties.ProcessedAfterPrefixStaysMarked` | app/workers/dispute_manager.rb:11-48 | a dispute processed after any prefix is still marked when the batch ends |
| `BatchProperties.ProcessedStaysMarked` | app/workers/dispute_manager.rb:11-48 | every dispute the batch processed is marked at the gateway when the batch ends |
| `BatchProperties.SecondRunIsNoOp` | app/workers/dispute_manager.rb:14 | a later run over the gateway's current records of disputes a run processed has no effect: no activity, no shutdown and no write |
| `Scenario.World` | app/workers/dispute_manager.rb:16-24 | the example world (one user with servers 1 at reason 0 and 2 at reason 3, an account, a receipt for charge `ch_1`, one unmarked dispute) is coherent |
| `Scenario.BlockExample` | app/workers/dispute_manager.rb:24 | on the example, server 1 is shut down and set to reason 4 with its two activities, and server 2 is passed by |
| `Scenario.EnforceExample` | app/workers/dispute_manager.rb:22-34 | on the example, enforcement records the chargeback with the dispute's amount, currency, reason, status and receipt 12, quarantines server 1, then mails, notifies support and logs risky IPs and cards of account 5 |
| `Scenario.UpdateExample` | app/workers/dispute_manager.rb:45-49 | on the example, the write-back leaves the dispute carrying exactly the marker of receipt 12 |
| `Scenario.HandleExample` | app/workers/dispute_manager.rb:12-40 | on the example, the iteration processes the dispute and leaves exactly the state described |
| `Scenario.ProcessedExample` | app/workers/dispute_manager.rb:9-42 | a batch of the one example dispute leaves exactly that state |
| `Scenario.RelistedExample` | app/workers/dispute_manager.rb:14 | listing the marked record again has no effect |
| `Scenario.InterruptedBlockExample` | app/workers/dispute_manager.rb:52-58 | when server 1's reason update raises, the traversal stops after its shutdown and shutdown activity, with its reason still 0, and server 2 is not visited |
| `Scenario.InterruptedExample` | app/workers/dispute_manager.rb:12-40 | that failure is tracked with charge `ch_1` and `DisputeManager`, no reason changes and the dispute stays unmarked |
| `Scenario.World2` | app/workers/dispute_manager.rb:16-24 | the second example world (one user with servers 1 and 2 at reason 0, two unmarked disputes on charge `ch_1`) is coherent |
| `Scenario.FirstServerExample` | app/workers/dispute_manager.rb:52-58 | in the second world, `block_server` quarantines server 1 |
| `Scenario.SecondServerExample` | app/workers/dispute_manager.rb:52-58 | when server 2's reason update raises, server 2 is shut down with its shutdown activity, and its reason stays 0 |
| `Scenario.TraversalOfA` | app/workers/dispute_manager.rb:24 | the traversal for `dp_a` quarantines server 1, then stops at server 2's reason update |
| `Scenario.EnforceOfA` | app/workers/dispute_manager.rb:22-24 | enforcement for `dp_a` records the chargeback activity, quarantines server 1, and stops with the exception at server 2's reason update |
| `Scenario.PartialFailureExample` | app/workers/dispute_manager.rb:12-40 | `dp_a` fails with that error tracked, after it has set server 1's reason to 4 |
| `Scenario.SecondDisputeProcessed` | app/workers/dispute_manager.rb:22-48 | `dp_b`, with no call raising, is processed from any reasons for servers 1 and 2 |
| `Scenario.World2Distinct` | app/workers/dispute_manager.rb:24 | the second world lists no server twice |
| `Scenario.SecondDisputeTrace` | app/workers/dispute_manager.rb:22-48 | handling `dp_b` appends `6 + |QuarantineTrace(...)|` effects: six fixed effects plus three for each server still at reason 0 or below. It states the count only; `ProcessedFullTrace` gives the effects themselves |
| `Scenario.QuarantinesLeft` | app/workers/dispute_manager.rb:53 | after `dp_a`, server 2 alone is left to quarantine (three effects); before it, both servers are (six) |
| `Scenario.FailureThenSecond` | app/workers/dispute_manager.rb:11-40 | the batch `dp_a`, `dp_b` runs `dp_b` from the state the failed `dp_a` left |
| `Scenario.SecondAfterFailure` | app/workers/dispute_manager.rb:11-48 | from that state, `dp_b` adds nine effects |
| `Scenario.SecondBeforeFailure` | app/workers/dispute_manager.rb:11-48 | from the state before `dp_a`, trace emptied, `dp_b` adds twelve effects |
| `Scenario.PartialFailureIsNotIsolated` | app/workers/dispute_manager.rb:11-40 | `dp_a` fails having changed a reason, and the batch holds three effects fewer than "the failed dispute's effects, then the rest run from the state before it". So `FailureIsolation` does not hold without its condition on the reasons |

Proof helpers, which only unfold a definition and model no source line of their own:
`ServerProperties.DistinctTail`, `TraceProperties.ShiftStrip`, `TraceProperties.EmitShift`,
`DisputeProperties.BlockStage`, `DisputeProperties.ProcessedSteps`,
`DisputeProperties.FailedSteps`, `BatchProperties.RunCons`, `Scenario.SecondDisputeRun` and
`Scenario.RunPair`.

## Left out

- Listing the disputes (`Payments#list_disputes`, line 10) is not modelled, because it is a
  gateway call. `Perform` takes the listed disputes as a parameter. The cutoff time
  (yesterday's start of day, from the clock) is not modelled for the same reason.
- A failing `list_disputes` raises out of `perform` before any dispute is handled. It is
  outside the rescue, so the model has nothing to say about it.
- Sidekiq's `unique: :until_executed` (line 7) is not modelled: it is the job queue's
  concern. Two concurrent runs, and the races between them, are not modelled either.
- The gateway, the mailer, the support task runner, the server task runner and the
  risk-log methods of `Account` are foreign code. Each appears only as a recorded effect
  and as a call that may raise. What they do inside (templates, exception reporting) is not
  part of this model.
- A call that raises is modelled as having no effect. A real call could fail halfway, for
  example shut a server down and then raise.
- `update_dispute` replaces the metadata with the marker. This is how the gateway's client
  library treats an assigned hash: it sends an empty value, and so a deletion, for every
  old key. That client library is not part of this model.
- `ErrorLogging#track_exception` is recorded as an `ErrorTracked` effect carrying the
  error, the charge and the source tag. What it does with them is not modelled.
- `Reconciliation.Enforce`: its contract only states frame and trace facts. Its ordering,
  completion and quarantine properties are lemmas beside it: `EnforceTrace`,
  `EnforceCompleted`, `EnforceEndsWithNotices`, `EnforceFullTrace`, `EnforceSucceeds`,
  `EnforceEarlyAbort` and `EnforceOnQuarantinedUser`. `EnforceFullTrace` and
  `ProcessedFullTrace` give the whole trace only for users whose server list repeats no
  server. Without that condition, `EnforceEndsWithNotices` and `ProcessedNotices` still give
  the order of the notification effects.
- `Reconciliation.BlockAll`: its contract only states frame and trace facts. Two lemmas give
  the rest. `ServerProperties.BlockAllQuarantinesAll` says a completed traversal quarantines
  every server. `ServerProperties.BlockAllTrace` gives its exact effects when the list has
  no repeated server.
- A server whose `update!` (line 56) raises after its shutdown stays at reason 0. Reason 0
  does not pass `validation_reason > 0` (line 53). So a later run that lists the
  still-unmarked dispute shuts the server down and quarantines it again
  (`ServerProperties.InterruptedQuarantineIsRepeated`).
- `Reconciliation.Handle`, `Reconciliation.Run`: if `track_exception` (line 39) itself
  raises, the exception leaves `perform` and no later dispute is handled. The model always
  records the tracked error and goes on, because the error-logging service is not part of
  this model.
- `Reconciliation.NotifyAndLogRisk`: the modifier `rescue nil` (line 28) catches
  `StandardError` only. Any other exception from the support notice would fail the dispute.
  The model always swallows it, because it does not distinguish exception classes.
- `DisputeMetadata.Marker`: the model assumes every receipt number is nonempty. For an
  empty number the gateway's client library would send an empty value, deleting
  `payment_receipt_ref`, while `Marker` keeps the key with the empty string. That client
  library is not part of this model.
