# Wrangnarok control plane: a Dafny model

The repository is a durable-execution control plane. Workers and Workflow instances race on shared D1 rows, and every
guarantee rests on small fenced SQL writes (`WHERE status=…`, `ON CONFLICT DO NOTHING`, `used_at IS NULL`). This
project models those rows as maps, each SQL statement or batch as one atomic step, and proves what holds over every
interleaving of any number of clients, each of which may crash between any two statements. The clock, the answers of
native calls and every check that lives in code not modelled here are arbitrary inputs of a step.

Every stateful part has the same shape. A machine whose `Step` is a total function (an event that is not enabled changes
nothing) and whose `Run` folds it over an arbitrary list of events; an inductive invariant; theorems about every run.
Beside it stands an object with the source's own methods and loops, each proved against the functions of the machine.
Where a promise does not hold of the code, there is a run in which it fails and an if-and-only-if statement of when it
holds.

| module | what it models |
|---|---|
| `Identity`, `IdentityText`, `Ledger` | Execution ids and the texts they hash, the `executions` and `operations` tables, every statement against them, what each keeps |
| `Submission`, `SubmissionSafety` | submit, child dispatch, prepare, cancel and run checkpoints as interleaved clients; idempotency, admission bound, final outcomes |
| `CountFirst` | the gate moved in front of the insert, and for every limit a run that passes it |
| `Cancellation`, `CancellationRuns` | the compensating rollback among any number of cancellers: when it is exact and what is lost when it is not; concrete runs |
| `LateDispatch` | when a cancelled Execution can still be dispatched |
| `Solo` | one client left alone: its run, and the same as a table of answers over the stored rows |
| `ControlPlane` | the same operations as one object with methods, each proved to be its client's solo run of the machine |
| `ChildAwait` | the polling loop of a parent over its child's row |
| `StartupHandles` | one-time form sessions: peek, reserve, submit, consume, verify |
| `FormBinding` | the submission gate and the defaults merge |
| `EventDelivery`, `EventFanout`, `EventRecreation` | event log, delivery, fan-out, retry, listings; what deleting and re-creating does |
| `Paging`, `History`, `ChangeFeed` | ordered bounded scans and keyset pages; the history walk; the app-table feed |
| `UploadTokens` | upload capabilities, single use and revocation |
| `Base64`, `HistoryCursor`, `Utf8` | the digest and cursor codecs; the digest message and its truncation |
| `AiProfiles`, `McpCatalog`, `McpNames`, `CertCache` | profile lifecycle, tool catalog sync, qualified names, certificate cache |

## What is assumed

- Ids are SHA-256 over the JSON text of tagged tuples. The digest is taken as injective; that the texts are too is
  proved (`IdentityText.IdsAreTheirTuples`), so in the machines an id is its tuple.
  Random tokens, handles and row UUIDs never repeat.
- A D1 statement or batch is atomic, and `createBatch` starts nothing for an id that already has an instance.
- A form submission is dispatched only after it reserved its handle, as the submit route does. In `StartupHandles` and
  `EventDelivery` one step stands for a whole submit; `SubmissionSafety.SubmissionsConverge` is what justifies it.
- A Saga's input parser is a function of Saga and payload.
- Authority, install, ceiling and catalog checks are booleans that may answer anything at any step.

## Where the code does not do what its text says

- `executions.ts` and `children.ts` describe the rollback as returning to the prior active status. The status is the one
  read before the marker: when the Workflow's prepare step commits between read and marker, a Running row goes back to
  Pending, its later success is dropped without a trace, and a vendor timeout takes it from Pending to TimedOut, which
  the transition table does not list (`CancellationRuns.StaleRollbackConsequences`). Two cancellers can cross as well: the
  second one's rollback can undo, between the first one's read and marker, what the first had read
  (`CancellationRuns.CrossedRollbacks`). The rollback is exact if and only if the prepare steps and rollbacks between read
  and marker leave the status read (`Cancellation.RollbackIsExact`).
- `executions.ts` says that a cancelled Execution never dispatches. A submitter that was past its read when an
  undispatched Pending row was cancelled can still start its instance and report success. Exactly when is
  `LateDispatch.CancelledDispatchesExactly`: some client must be past its read of the row, of the row's revision if it is
  a top-level submit; a client about to count under a limit it has read also needs fewer rows of its Saga than that limit
  to be stuck in Cancelling with their canceller gone, since nothing ever frees those. The instance then cannot get past
  its prepare step (`Cancellation.CancelledNeverRuns`).
- `files.ts` says that outstanding tokens stop working at revocation. Those in the table do
  (`UploadTokens.RevocationIsFinal`). A revocation and a location delete remove the capability rows in one statement and
  the policy in a later one, and an issuer writes its row after its check. A token whose row was not in the table at the
  first statement escapes: the issuer had drawn it already (`UploadTokens.LateIssueIsConsumed`), or passed its check
  between the two statements and may even have written its row there (`UploadTokens.IssueBetweenIsConsumed`). It can be
  consumed after the policy is granted again. Which tokens these are is `UploadTokens.RevocationMissesExactly`, seen from
  the end of the operation, and `UploadTokens.CanGetAwayExactly`, seen from its start.
- `events.ts` promises one Execution per subscription and event. Deleting and re-creating the subscription, or its source,
  under the same name keeps the delivery key. Another Saga or another payload then meets an idempotency conflict, another
  run-as user gets a second Execution (`EventRecreation.RecreatedSubscription`, `EventRecreation.RecreatedSource`). The promise
  holds over any run in which re-creations repeat Saga, run-as user and payload, and from any reachable state exactly if
  what is stored and in flight agrees on them (`EventDelivery.StaysAtMostOnceExactly`).
- `app-runtime.ts` says its stamp keeps writes from sorting behind an issued cursor. After the newest row is deleted, an
  insert in the same millisecond, or under a clock that went back, can (`ChangeFeed.DeleteHidesLaterInsert`). When a write
  does is `ChangeFeed.WriteIsAheadExactly`, and over whole runs a poller with nothing more to fetch is right about a row
  exactly if the row's last write did not (`ChangeFeed.FeedIsExact`).
- `mcp-catalog.ts` says that manual disables survive every sync. One that lands between a sync's read and its batch is
  overwritten exactly when the plan touches that tool (`McpCatalog.DisableInsideSyncExactly`).
- `forms.ts` says that validation and merge agree on visibility. Validation judges a condition over startup snapshot and
  body, the merge over what ends up bound. With targets declared earlier and a snapshot that adds nothing, every field
  validation judged visible and required is bound (`FormBinding.RequiredIsBound`), and what is left of the disagreement is
  an omitted target whose own default meets the condition (`FormBinding.OnlyDefaultsDiffer`). In general the passes agree on
  every field exactly if no condition is met by the body on a later field, or by only one of snapshot and earlier default
  (`FormBinding.PassesAgreeExactly`). Three submissions show the ways to differ.
- `forms.ts` admits field names such as `constructor` and `toString`, which every plain object inherits. Omitting such a
  field, optional or not, is never accepted: it reads as a function (`FormBinding.InheritedCannotBeOmitted`).

## Model

| member | source | states |
|---|---|---|
| IdentityText.JsonArrayIsInjective | src/domain.ts:1759-1765 | different lists of strings have different `JSON.stringify` texts |
| IdentityText.EscapesAreStandard | src/domain.ts:1759-1765 | the escapes of `JSON.stringify` |
| IdentityText.IdsAreTheirTuples | src/children.ts:91-101 | under an injective digest equal Execution ids come from equal (caller, parent, step, Saga, key) tuples at every nesting depth, and no child id is a top-level id |
| Ledger.StatementKeepsConsistent | src/executions.ts:528-720 | every statement the code can issue keeps: lineage columns match the id, dispatched implies an instance, a result exactly on Succeeded rows, an error exactly on Failed, TimedOut and Cancelled rows, a completion time exactly on terminal ones |
| Ledger.RunExtends | src/executions.ts:551-625 | over any list of statements no row disappears, identity columns never change, terminal rows keep their outcome, a dispatched marker and a start time stay, a settled Operation is never rewritten |
| Ledger.StatusChanges | src/domain.ts:361-375 | a statement follows the table, except that a rollback leaves Cancelling and a timeout can find its row Pending; nothing else makes these two changes |
| Ledger.StatusChangesExactly | src/domain.ts:361-375 | some legal statement on some consistent table makes a status change exactly if the table lists it, or it leaves Cancelling for Pending or Running, or goes from Pending to TimedOut |
| Ledger.OperationChanges | src/domain.ts:398-405 | an Operation only moves from Running to Succeeded or Failed |
| Ledger.CancelWins | src/executions.ts:701-720 | once Cancelling and never rolled back, a row ends Cancelled exactly if a confirmation is among the later statements, and no later statement gives it a result |
| Ledger.ParentsFormForest | src/children.ts:259-274 | climbing stored parent links meets existing, strictly shallower rows and stops at a top-level row after exactly as many links as the id has |
| SubmissionSafety.StepKeepsInv | src/executions.ts:323-424 | one step of any client keeps the whole inductive invariant of submit, dispatch, prepare and cancel |
| SubmissionSafety.SubmissionsConverge | src/executions.ts:347-424 | all acknowledged submissions of one id agree on Saga and input, the row, its instance and its admission exist, and at most one acknowledgement of a top-level key says it was not a replay, with crashes and concurrent retries |
| SubmissionSafety.DispatchIsAdmitted | src/executions.ts:391-421 | at every moment an instance belongs to an admitted row, and a dispatched marker to an instance |
| SubmissionSafety.LineageIsForest | src/children.ts:259-274 | in every reachable state the parent links form a forest |
| SubmissionSafety.RunExecutesTrace | src/executions.ts:528-720 | a run of the clients is a legal run of table statements, so everything proved of statements holds of runs |
| SubmissionSafety.OutcomesAreFinal | src/executions.ts:575-625 | from the moment a row is terminal no later run changes anything of it but its dispatched marker and policy stamp |
| SubmissionSafety.AdmissionBound | src/executions.ts:271-290 | while the limit stays between 1 and k, admitted active Executions of one Organization and Saga never pass k, for any mix of top-level and child submits |
| CountFirst.CountFirstOverAdmits | src/executions.ts:347-399 | with the count in front of the insert, for every limit k a run from empty tables in which k+1 clients pass the gate and k+1 admitted Executions are active |
| Cancellation.StepFollowsTable | src/domain.ts:361-375 | in every reachable state a step follows the transition table except a canceller undoing its own marker and a timeout on a Pending row |
| Cancellation.RunKeepsOneHolder | src/index.ts:2826-2879 | in every run at most one canceller is between its marker and its confirmation or rollback of a row, and that row is Cancelling |
| Cancellation.StatusAtMarker | src/index.ts:2818-2835 | at a canceller's marker the row has the status that the prepare steps and other cancellers' rollbacks since its read leave |
| Cancellation.MarkerStands | src/executions.ts:575-607 | while nobody confirms or rolls back, no checkpoint moves a Cancelling row |
| Cancellation.RollbackIsExact | src/index.ts:2872-2879 | in every run of the machine, with any other cancellers, the rollback restores the status its marker replaced exactly if prepare steps and rollbacks between read and marker leave the status read |
| Cancellation.SuccessSurvivesRollback | src/executions.ts:620-625 | after the rollback of a marker that replaced Running, success is recorded exactly if the canceller had read Running |
| CancellationRuns.StaleRollbackHappens | src/children.ts:435-464 | a run of the machine that ends with a prepared, running Workflow whose row is Pending |
| CancellationRuns.StaleRollbackConsequences | src/executions.ts:575-625 | from there the success checkpoint changes nothing and a vendor timeout makes the forbidden change from Pending to TimedOut |
| CancellationRuns.CrossedRollbacks | src/index.ts:2818-2879 | a run in which a canceller had read Running and its rollback still does not restore what its marker replaced, because another one rolled back in between |
| CancellationRuns.CancelledMayStillDispatch | src/executions.ts:386-421 | a run in which a submitter past the gate dispatches and acknowledges an Execution whose cancel was confirmed meanwhile |
| LateDispatch.CancelledDispatchesExactly | src/executions.ts:386-421 | a cancelled, unstarted row of a reachable state gets its instance in some continuation exactly if a client is past its read of it and nothing left on its way is certain to refuse it |
| Cancellation.CancelledNeverRuns | src/executions.ts:535-543 | after a confirmed cancel, in every later state, the row is Cancelled without result and every prepare and every submit that reads it is refused |
| Solo.AloneIsARun | src/executions.ts:323-424 | a solo run of a client, which the methods below are proved equal to, is a run of the interleaved machine |
| Solo.FreshSubmit | src/executions.ts:347-424 | the first submit of a key inserts its Pending row whatever follows, is acknowledged exactly if the Saga is neither paused nor full and createBatch answers, and then is no replay, dispatched, with one new instance |
| Solo.RetryConverges | src/executions.ts:347-424 | a retry over an existing row is acknowledged exactly if the row is not cancelled and is dispatched, or the gate is open, the revision the same, the row less than 900,000 ms old and createBatch answers; then it is a replay and adds at most its own instance |
| Solo.SubmitTable | src/executions.ts:347-424 | every answer of an undisturbed top-level submit, first or repeated, from the stored row, policy and active rows, and every column and instance it leaves |
| Solo.ChildTable | src/children.ts:259-302 | the same for a child dispatch: lineage compared, no age or revision limit, a replay exactly over a row dispatched before |
| ControlPlane.ControlPlane.AdmitExecution | src/executions.ts:249-292 | paused, limited or admitted, from the stored policy and the other Pending, Running and Cancelling rows of the Organization and Saga |
| ControlPlane.ControlPlane.Submit | src/executions.ts:323-424 | the method's tables and answer are those of a top-level submit client run alone and of the table of answers |
| ControlPlane.ControlPlane.InvokeChild | src/children.ts:259-302 | the same for a child dispatch, with the child's own refusal codes |
| ControlPlane.ControlPlane.CreateAndConfirm | src/executions.ts:400-421 | refused past revision or 900,000 ms for a top-level submit, unconfirmed if createBatch throws, else acknowledged with instance and marker |
| ControlPlane.ControlPlane.PrepareExecution | src/executions.ts:528-550 | the row's input exactly for this Saga and revision uncancelled, a retried step included; a Pending row turns Running with its start time kept, any other keeps everything; the prepare Operation has succeeded unless settled before |
| ControlPlane.ControlPlane.BeginOperationRow | src/executions.ts:551-561 | afterwards the Operation is there: a settled one untouched, any other Running with nothing recorded under its first position and start; no other Operation changes, consistency stays |
| ControlPlane.ControlPlane.FinishOperationRow | src/executions.ts:562-574 | the Operation changes exactly if it was Running, and then to Succeeded with this output; nothing else changes, consistency stays |
| ControlPlane.ControlPlane.FailExecution | src/executions.ts:575-607 | the row takes the outcome exactly if it was Pending or Running; its Execution has no Running Operation left; settled Operations, other Executions' and other rows are untouched |
| ControlPlane.ControlPlane.PersistRunSuccess | src/executions.ts:620-625 | the row changes exactly if it was Running, and then to Succeeded with this output; no other row and no Operation changes |
| ControlPlane.ControlPlane.FailSagaExecution | src/executions.ts:658-682 | an active row ends TimedOut exactly if the code is a vendor name followed by `_VENDOR_TIMEOUT`, Failed otherwise; any other row is untouched and no Running Operation is left |
| ControlPlane.ControlPlane.CancelExecution | src/executions.ts:701-720 | the row becomes Cancelled exactly if it was Cancelling; its Execution has no Running Operation left; settled Operations, other Executions' and other rows are untouched |
| ControlPlane.ControlPlane.CancelOne | src/index.ts:2818-2879 | undisturbed, confirmed exactly for an active row whose stop was observed or that never dispatched; then Cancelled column by column with its Running Operations failed, otherwise nothing has changed |
| ControlPlane.ControlPlane.CancelChild | src/children.ts:434-464 | one child: it stops exactly if it is active and the native stop resolved or its error text mentions a settled instance, or no instance of a never dispatched Pending row; then it is Cancelled column by column, otherwise as it began |
| ControlPlane.ControlPlane.CancelDirectChildren | src/children.ts:414-467 | over the rows of the SELECT, in its order: exactly the active direct children whose stop was observed are answered, in that order, and Cancelled with error and own completion time, every other column kept; exactly their Running Operations fail; every other row is as it was; consistency stays |
| ChildAwait.AwaitChildResult | src/children.ts:332-386 | which poll decides, and per answer what the row it read was: the recorded result of this parent's own Succeeded child, the status and error of its failed one, a corrupt result, no row, a foreign row, or the deadline; with full sleeps at most ceil(timeoutMs / 1000) + 1 reads, and that many always settle the wait |
| ChildAwait.AnswersAreOwn | src/children.ts:354-361 | in every reachable state a value is the result recorded in this caller's and this parent's own Succeeded child of the receipt's Saga, a failure that child's status and error |
| ChildAwait.LaterPollsAgree | src/children.ts:362-378 | once a wait has its value, corrupt result or failure every later poll of the same receipt gives the same one |
| StartupHandles.StepKeepsInv | src/forms.ts:1807-1994 | one step of any client, sweep or invalidation keeps the handle invariant |
| StartupHandles.ClaimIsWriteOnce | src/forms.ts:1852-1871 | a key that ever won a handle and a key that wins it at any later moment are the same |
| StartupHandles.OneExecutionPerHandle | src/forms.ts:1852-1994 | all submissions past the fence of one handle carry one key, and everything dispatched through it is one Execution |
| StartupHandles.FenceIsExact | src/forms.ts:1852-1871 | the fence lets a submission pass exactly if its unexpired session of this form exists and its key owns the handle or nobody does and it is unused |
| StartupHandles.AfterAdmissionStep | src/forms.ts:1978-1994 | after admission the answer is lost only when the session row itself is gone at the final bind; a used or expired handle does not matter |
| StartupHandles.InvalidatedStaysStale | src/forms.ts:2005-2008 | after an invalidation no earlier handle of that principal is ever live, reserved, consumed or bound again |
| StartupHandles.AnsweredIsDispatched | src/forms.ts:1852-1994 | in every run each answered submission dispatched its Execution through its handle |
| StartupHandles.SubmitTable | src/index.ts:1098-1149 | every answer of an undisturbed submission from the stored session and Execution row, and what it leaves in both tables |
| StartupHandles.StartExactly | src/forms.ts:1764-1782 | a new session lasts 1,800,000 ms, unused and unclaimed |
| StartupHandles.DeletesExactly | src/forms.ts:1786-2008 | a sweep removes expired sessions only, an invalidation exactly the user's |
| StartupHandles.FormStore.ReserveStartupHandle | src/forms.ts:1852-1871 | when a reservation succeeds and that it changes the claim alone |
| StartupHandles.FormStore.ConsumeStartupHandle | src/forms.ts:1881-1911 | when a consumption wins and that it sets use and claim alone |
| StartupHandles.FormStore.VerifyOwnAdmission | src/forms.ts:1939-1971 | both proofs, the own Execution row and the claim, are required; an unbound row is bound |
| StartupHandles.FormStore.ConsumeAfterAdmission | src/forms.ts:1978-1994 | success exactly if the claim is free or own and the handle is still unused or the admission is proved; the first use is never overwritten |
| StartupHandles.FormStore.SubmitForm | src/index.ts:1098-1149 | undisturbed, the route succeeds exactly on a live handle that is free or own, valid input, no conflicting Execution and, unless it only schedules, an acknowledged dispatch; no other session changes |
| FormBinding.PickOptions | src/forms.ts:1366-1395 | the picking loop keeps exactly the lists of at most 50 allowed options, as given, and refuses any other with the code of its first defect |
| FormBinding.EntryExactly | src/forms.ts:1329-1410 | per field type which values are kept, as what, and with which code any other is refused: number within its bounds, boolean, text by length, format and pattern, select and multiselect by option, file by its two members |
| FormBinding.ValidateFormInput | src/forms.ts:1262-1419 | the loops produce the failures, in order, or the validated values of the fold they are specified by |
| FormBinding.MergeFormDefaults | src/forms.ts:1430-1454 | the declaration-order loop equals its fold |
| FormBinding.AcceptedExactly | src/forms.ts:1267-1418 | a submission is accepted exactly if it is an object of at most 200 members, every member names a declared bindable field, nothing hidden carries a value, every given visible value is one its type takes and every omitted required field has a default |
| FormBinding.RejectionExactly | src/forms.ts:1281-1418 | whom a refused submission blames: the bad keys and hidden values if there are any, otherwise exactly the refused entries, each with its code |
| FormBinding.MergedAt | src/forms.ts:1442-1453 | per field: a validated value wins; a default appears exactly if the condition is met by the final value of an earlier-declared target |
| FormBinding.InheritedCannotBeOmitted | src/forms.ts:1311-1341 | a submission that omits a bindable field whose name every object inherits is never accepted |
| FormBinding.BoundAt | src/forms.ts:1460-1467 | per field of an accepted submission: what the bound input holds and why, an inherited member read in place of an explicit null included |
| FormBinding.BoundKeys | src/forms.ts:1460-1467 | only declared bindable names appear, no internal key does, and nothing given is lost |
| FormBinding.RequiredIsBound | src/forms.ts:1297-1328 | with targets declared earlier and a snapshot that adds nothing, every field judged visible and required is in the bound input |
| FormBinding.MergeResolves | src/forms.ts:1430-1454 | the merge sees a condition met exactly if, from declaration and body alone, its target is declared earlier and is given with that value, or is omitted, has it as default and has its own condition met in the same sense |
| FormBinding.RequiredIsBoundExactly | src/forms.ts:1297-1328 | without these hypotheses, such a field is there exactly if it is given or its condition resolves in that sense (or its name is inherited) |
| FormBinding.RequiredInBoundExactly | src/forms.ts:1430-1454 | a required field whose condition resolves is missing exactly if it has no default, validation judged it hidden and its name is not inherited |
| FormBinding.DifferExactly | src/forms.ts:1297-1328 | the passes judge a field's visibility differently exactly if the body meets its condition on a field not declared earlier, or the body leaves it open and exactly one of snapshot and earlier-declared default meets it |
| FormBinding.PassesAgreeExactly | src/forms.ts:1460-1467 | they agree on every field of an accepted submission exactly if no field is of that kind |
| FormBinding.OnlyDefaultsDiffer | src/forms.ts:1430-1454 | with targets declared earlier and a snapshot that adds nothing, they differ exactly where an omitted target's default meets the condition |
| FormBinding.AgreementBindsRequired | src/forms.ts:1297-1328 | where they agree on a required field, it is bound exactly if they judge it visible |
| FormBinding.ForwardTargetDropsRequired | src/forms.ts:1448-1450 | a condition on a later field drops a required default |
| FormBinding.SnapshotConditionDropsRequired | src/forms.ts:1297-1328 | a condition met only by the snapshot drops a required default |
| FormBinding.DefaultRevealsRequired | src/forms.ts:1448-1450 | a target's own default, with any other prefill or none, makes the bound input meet the condition of a required field that validation judged hidden and that it lacks |
| EventDelivery.NamespaceFilter | src/events.ts:523-529 | a namespace filter matches exactly the topics that extend the namespace by a dot and at least one character |
| EventDelivery.UniformIsAtMostOnce | src/events.ts:758-814 | over any run, deletes and re-creations included, in which every new subscription row has one Saga and run-as user and every new logging of the event one payload: one Execution, named by every delivery and the receipt, and no submit conflicts |
| EventDelivery.DeliveryIsAtMostOnce | src/events.ts:758-814 | the same over every run that deletes neither subscription nor source |
| EventDelivery.SameRowsAreAtMostOnce | src/events.ts:586-611 | the same while the source stands and every row the subscription is created with names one Saga and run-as user |
| EventDelivery.StaysAtMostOnceExactly | src/events.ts:586-611 | from any reachable state with a standing subscription and a matching logged event, the promise holds over all further runs without deletes exactly if the delivery's Executions and everything in flight towards it (emits before their scan, fan-outs with the subscription still to dispatch, retries, dispatches) have the standing row's Saga and user and the logged payload |
| EventDelivery.LoggedContentIsFinal | src/events.ts:277-327 | while the source stands the content logged under an event id never changes |
| EventDelivery.EmittedIsLogged | src/events.ts:277-327 | while the source stands every accepted emit, and its fan-out, carries topic, payload and execution exactly as logged |
| EventRecreation.RecreatedSubscription | src/events.ts:586-611 | after delete and re-create of the subscription a retry of the event replays, conflicts or forks, each exactly when stated |
| EventRecreation.RecreatedSource | src/events.ts:230-256 | after delete and identical re-create of the source the promise survives exactly if the event id comes back with the same payload |
| EventFanout.DispatchEventFanout | src/events.ts:843-900 | the loop attempts exactly the first ten enabled matches, reports in scan order, counts the overflow and aborts exactly on a non-Fault error |
| EventFanout.FanoutAccounts | src/events.ts:865-899 | deliveries plus overflow equal the matches, disabled rows are reported and cost nothing, every attempt has its report |
| EventFanout.AttemptedAreFirst | src/events.ts:849-868 | over a scan in name order everybody attempted precedes everybody skipped by overflow |
| EventFanout.ScanIsAttempted | src/events.ts:843-900 | what the machine's one scan of an emit picks is what the fan-out loop attempts on the rows of its SELECT |
| EventFanout.RetryKeepsBound | src/events.ts:1041-1060 | a retry run alone leaves at most max(before, 10) receipts for the event |
| EventFanout.ListingsAreDisjoint | src/events.ts:959-988 | on one state no event is listed delivered and failed; failed ones are logged matches without receipt; complete when the window suffices |
| EventFanout.EventStore.EmitEvent | src/events.ts:277-327 | accepted exactly for a standing enabled source and an event that is new or logged with equal topic, payload and execution; then the log holds this content and the answer says whether it did before; which refusal otherwise; no other entry changes |
| EventFanout.EventStore.DispatchToSubscriber | src/events.ts:758-814 | every answer from the stored subscription and Execution, the Execution's caller, Saga and payload, the receipt, and that nothing else changes |
| EventFanout.EventStore.RetrySubscriptionDelivery | src/events.ts:1021-1074 | refused exactly without a matching logged event or with ten other receipts, otherwise the dispatch of the logged content |
| EventFanout.EventStore.DeleteEventSource | src/events.ts:230-256 | nothing of the source is left, neither row, log, subscription nor receipt; every row of other sources and every Execution is |
| Paging.TakeIsPrefix | src/executions.ts:783-790 | ORDER BY with LIMIT returns the first rows in order and leaves something out only when full |
| Paging.PageIsExact | src/executions.ts:788-798 | a limit-plus-one page: the rows right after the cursor, hasMore exactly if there are more, nothing unseen before the next cursor |
| Paging.ScanIsTake | src/executions.ts:783-790 | ORDER BY with LIMIT has only one answer: any scan of that many rows in order that leaves nothing out before them is it |
| History.ListHistory | src/executions.ts:750-799 | from any limit-plus-one scan past the cursor: the caller's own rows that satisfy each set filter, newest first, right after the cursor, hasMore exactly if there are more, nothing unseen before the next cursor |
| History.WalkTerminates | src/executions.ts:788-798 | following nextCursor ends after as many requests as the final rows need pages |
| History.WalkIsHonest | src/executions.ts:750-799 | every row the walk returns matched at the moment of one of its requests |
| History.HistoryWalk | src/executions.ts:750-799 | without a status filter, a completed walk among arbitrary submits and lifecycle steps returns every initially matching row exactly once, newest first |
| ChangeFeed.FeedIsComplete | src/app-runtime.ts:669-716 | without deletes, under any clock, stamps strictly increase and the poller's view is the table whenever a page has nothing more |
| ChangeFeed.WriteIsAheadExactly | src/app-runtime.ts:530-541 | when exactly a write lands ahead of a poller's token |
| ChangeFeed.FeedIsExact | src/app-runtime.ts:669-716 | in every run, deletes included, at a page with nothing more the poller shows a live row as it is exactly if the row's last write did not land behind the token it met |
| ChangeFeed.BehindStaysHidden | src/app-runtime.ts:669-716 | a row written behind the token stays stale through any polls and any inserts, patches and deletes of other rows |
| ChangeFeed.DeleteHidesLaterInsert | src/app-runtime.ts:623-643 | a run after which, whatever follows without touching it, a live row is never shown, because the newest row was deleted first |
| ChangeFeed.RevisionDetects | src/app-runtime.ts:640-642 | the revision never goes back and a standing revision means unchanged rows |
| ChangeFeed.AppTable.NextAppStamp | src/app-runtime.ts:530-541 | the stamp passes every stamp in the table and is now unless the peak is not behind now |
| ChangeFeed.AppTable.InsertTableRow | src/app-runtime.ts:546-581 | refused exactly at 500 rows; otherwise one new row under the next stamp and one revision |
| ChangeFeed.AppTable.PatchTableRow | src/app-runtime.ts:587-619 | replaces data and stamp of an existing row, keeps its creation time |
| ChangeFeed.AppTable.PollAppTableChanges | src/app-runtime.ts:669-716 | from any limit-plus-one scan past the token: the changes are stored rows past the old and up to the new token, whatever is left out is past the new token and hasMore says so, a quiet page keeps its token |
| UploadTokens.EachTokenIsConsumedOnce | src/files.ts:637-667 | no token is consumed twice under any interleaving |
| UploadTokens.RevocationIsFinal | src/files.ts:374-392 | after the capability rows are deleted no upload token then in the table is ever consumed again, even after a new grant |
| UploadTokens.ConsumableExactly | src/files.ts:637-667 | in every reachable state an unspent token is consumed in some continuation exactly if nobody drew it yet, its issuer still holds it, or an unused upload row stands under it |
| UploadTokens.RevocationMissesExactly | src/files.ts:374-392 | over a whole revocation or location delete with anything in between: of the upload tokens drawn for its place by its end and not consumed, exactly those whose row was not in the table at the capability delete, and that are still with their issuer or in a row written since, are consumed in some continuation |
| UploadTokens.CanGetAwayExactly | src/files.ts:381-391 | told at the capability delete: a token can be drawn before the operation is over and consumed after it exactly if an issuer for that place holds it or nobody has drawn it yet |
| UploadTokens.LateIssueIsConsumed | src/files.ts:478-521 | a run in which a complete revocation passes by an authorised issuer |
| UploadTokens.IssueBetweenIsConsumed | src/files.ts:381-391 | a run in which an issuer comes and goes between the two statements of a revocation and its row survives it |
| UploadTokens.ConsumerTable | src/files.ts:637-667 | every answer of an undisturbed consumption from the stored row and policy, and that only this row is then used |
| UploadTokens.IssuerTable | src/files.ts:478-521 | every answer of an undisturbed issue, and its row with the expiry in milliseconds |
| UploadTokens.RevokerTable | src/files.ts:374-392 | which capabilities an undisturbed revocation of each action removes, and when it answers not found |
| UploadTokens.FileStore.RevokePolicy | src/files.ts:374-392 | undisturbed, at a declared location exactly the policy and its capabilities go; not found is answered exactly if the location or the policy was missing |
| UploadTokens.FileStore.DeleteLocation | src/files.ts:308-319 | refused exactly while undeclared or holding a file; otherwise exactly the place's declaration, policies and capabilities go |
| UploadTokens.FileStore.IssueUploadSlot | src/files.ts:478-521 | a capability row exactly under a declared location with a standing write policy and no viewer ceiling; a new path gets a pending file row, a ready one is untouched |
| UploadTokens.FileStore.ConsumeUploadToken | src/files.ts:637-667 | exactly which tokens are consumed, and that the row is then used |
| Base64.UnpackInvertsPack | src/endpoints.ts:179-189 | decoding inverts encoding on every byte string |
| Base64.PackInvertsUnpackExactly | src/endpoints.ts:184-186 | encoding gives a sextet string back exactly if its spare bits are zero |
| Base64.AlphabetIsStandard | src/endpoints.ts:165-178 | the alphabet by code point, and its URL-safe variant |
| Base64.SameBits | src/endpoints.ts:179-189 | three bytes and their four sextets are the same 24 bits |
| Base64.DigestBijection | src/endpoints.ts:165-191 | accepted texts and 32-byte strings are in bijection |
| Base64.FillGroups | src/endpoints.ts:179-183 | the in-place group loop writes the thirty bytes of the first forty sextets |
| Base64.DecodeDigestBase64 | src/endpoints.ts:170-191 | a digest exactly for the canonical form, and which one |
| HistoryCursor.CursorRoundTrip | src/domain.ts:1850-1874 | every cursor with a creation time of byte characters and an Execution id is encoded and reads back, through JSON text, bytes and the forgiving decoder |
| HistoryCursor.CursorsAreUnique | src/domain.ts:1850-1855 | two such cursors have the same text exactly if they are the same |
| Base64.ForgivingReadIsExact | src/domain.ts:1856-1860 | the forgiving decoder ignores spare bits; re-encoding returns the text exactly if they are zero |
| Utf8.ContinuationIsInside | src/domain.ts:1679 | a byte starts a code point exactly if it is no continuation byte |
| Utf8.EncodingIsStandard | src/domain.ts:1676 | length, lead byte and bits of each encoded code point |
| Utf8.CutPoint | src/domain.ts:1677-1679 | the back-up loop stops on the last code point boundary within 1024 bytes |
| Utf8.DecodeInvertsEncode | src/domain.ts:1680 | decoding the kept bytes gives the kept code points |
| Utf8.MessageExactly | src/domain.ts:1673-1675 | the text: count in decimal, then none or at most five names |
| Utf8.JoinExactly | src/domain.ts:1674 | the names in order with a comma and a blank between them |
| Utf8.ShapeDigest | src/domain.ts:1673-1683 | for every list the message passes the input gate and is the longest whole-code-point prefix that fits |
| AiProfiles.FirstTakesAllKeys | src/ai-profiles.ts:492-498 | in an empty Organization the six inserts all succeed and map every key |
| AiProfiles.LifecycleIsSafe | src/ai-profiles.ts:449-784 | after any operations from empty: assignments name existing profiles, the chat default is chat-enabled, names are unique ignoring case, a profile once there stays at least one with primary and chat_default mapped, no insert ever conflicts |
| AiProfiles.BackfillIsUnreachable | src/ai-profiles.ts:499-504 | in a reachable non-empty Organization create and update leave the assignments alone |
| AiProfiles.MergeConserves | src/ai-profiles.ts:630-687 | a merge removes exactly the sources, keeps the mapped keys, moves exactly theirs, and ORs the chat flag |
| AiProfiles.DeleteIsExact | src/ai-profiles.ts:602-613 | a delete succeeds exactly if no key maps to the profile, so never on the last one |
| AiProfiles.ProfileStore.CreateProfile | src/ai-profiles.ts:449-508 | when a create is refused and with which code, and column by column what it stores: the first profile chat-enabled under every key, a later one as asked under none |
| AiProfiles.ProfileStore.UpdateProfile | src/ai-profiles.ts:526-598 | when an update is refused and with which code; all or nothing on one profile; each given column stored as given, each other kept, but for the resets of transport and capability state; invariant and assignments stand |
| AiProfiles.ProfileStore.MergeProfiles | src/ai-profiles.ts:630-687 | the method with its loops equals the merge function; when a merge is refused and with which code |
| AiProfiles.ProfileStore.SetAssignment | src/ai-profiles.ts:752-784 | only this key moves; exactly the four optional keys can be cleared; exactly existing, connected and, for chat_default, chat-enabled profiles can be mapped; the invariant stands |
| McpCatalog.PlanCatalogSync | src/mcp-catalog.ts:166-212 | the planning loops equal the three filters, in order |
| McpCatalog.BatchOfPlanIsSync | src/mcp-catalog.ts:361-419 | planning and applying the plan is the per-row meaning of a sync |
| McpCatalog.SyncIsExact | src/mcp-catalog.ts:361-427 | after any syncs and toggles ending in a sync there is a row for every tool ever seen, enabled exactly if listed now and not last disabled by an admin |
| McpCatalog.SyncedRow | src/mcp-catalog.ts:361-419 | column by column what a sync makes of a new, a returning, a vanished and any other row |
| McpCatalog.ResyncPlansNothing | src/mcp-catalog.ts:166-212 | repeating the sync plans nothing |
| McpCatalog.DisableStands | src/mcp-catalog.ts:317-342 | from any catalog, a manual disable stands through all later whole syncs and toggles until that tool is enabled |
| McpCatalog.DisableInsideSyncExactly | src/mcp-catalog.ts:374-411 | a disable between a sync's read and its batch survives exactly if the plan does not touch the tool |
| McpCatalog.DisableIsOverwritten | src/mcp-catalog.ts:374-411 | it happens: a returning tool disabled inside the sync is enabled again by its batch |
| McpCatalog.CatalogStore.SetToolEnabled | src/mcp-catalog.ts:317-342 | an unknown tool changes nothing, a known one only its own row, keeping content and sync time; whatever a later sync lists, the tool is then enabled exactly if the toggle enabled it and the sync lists it |
| McpCatalog.CatalogStore.SyncMcpCatalog | src/mcp-catalog.ts:361-427 | the batch leaves the synced catalog; a repeated name changes nothing |
| McpNames.QualifiedRoundTrip | src/mcp-catalog.ts:73-91 | every qualified name parses to its lower-case Connection and its tool |
| McpNames.ParsesExactly | src/mcp-catalog.ts:80-91 | what parses: the prefix, a UUID by shape, a double underscore, a tool name by shape; the UUID is answered in lower case |
| McpNames.ParsedIsQualified | src/mcp-catalog.ts:80-91 | what parses is the qualified name of its parts exactly if its Connection segment is lower-case |
| CertCache.CachesStayBounded | src/access.ts:58-72 | under any interleaving both maps hold at most 32 distinct kids and every key was imported for its kid |
| CertCache.HitIsFresh | src/access.ts:141-150 | a hit returns a key imported for that kid no more than six hours ago |
| CertCache.CacheIsNewest | src/access.ts:58-72 | over any pieces, sweeps included, the cache is the newest end of the unbounded recency list, and its 32 newest entries as long as no sweep drops anything |
| CertCache.RecentKidSurvives | src/access.ts:58-72 | after any history a key just imported or hit stays cached while fewer than 32 distinct other kids are used and no sweep finds it over six hours old |
| CertCache.RecentKidEvictedExactly | src/access.ts:64-72 | and as long as no sweep drops anything, it is evicted exactly when 32 distinct other kids were used since |
| CertCache.KeyCache.SweepExpiredCertKeys | src/access.ts:58-62 | the deleting loop keeps exactly the unexpired entries in order |
| CertCache.KeyCache.PutCertKey | src/access.ts:64-72 | the eviction loop leaves the newest entries that fit |
| CertCache.RememberExactly | src/access.ts:186-189 | a missed kid is on record at its time, and only the oldest of 32 makes room for a new one |
| CertCache.KeyCache.Consult | src/access.ts:141-163 | the synchronous part of a lookup: its answer, and which pieces of the machine it is |
| CertCache.KeyCache.Resolve | src/access.ts:164-192 | the rest of a lookup is the import pieces of the published set in order, then the wanted key or the miss; however large the set, the wanted key survives |
| CertCache.KeyCache.KeyFor | src/access.ts:141-192 | the answer of a lookup: a key of this kid no older than 21,600,000 ms, else unknown within 60,000 ms of a miss, else unavailable without the certificates, else exactly what they publish |

## Left out

- Vendor fetches, JWT, HMAC and AES, R2 streams and Workflow internals: foreign calls, kept as abstract outcomes.
- The provider path (`src/sync.ts`), which marks a row dispatched without a Workflow instance: the machine's dispatched marker means an instance exists. The promotion of scheduled rows.
- The operator's repair cancel (`src/index.ts:3571-3589`), which marks an active row and confirms whatever the native stop answers. The shared request budget, active-install checks and authority resolution: boolean guards at most.
- The text of native terminate errors is an input of the child fan-out; for the cancel route the classified outcome is.
- Tolerance for old schemas, scrubbing, audit, logging and telemetry.
- JSON parsing and serialisation: stored texts are compared as texts; which child results parse back is an abstract predicate.
- HistoryCursor.CursorRoundTrip: a text is read in the layout `JSON.stringify` writes; other layouts of the same object, which `JSON.parse` accepts too, are not.
- The file-pointer check of a form submission, provider resolution and the regular-expression gate: one boolean, inputs, and an abstract predicate.
- `sagaName` as a history filter: same shape as `sagaId`. Walks with a status filter make no completeness promise, because rows change status.
- `readTableRows`: a slice of one bounded newest-first scan. Concurrent writers of one app table: the source itself leaves them to a re-list.
- `issueUploadBatch` and download capabilities beyond their rows: repetition of the single issue.
- Concurrent AI profile operations and concurrent inserts of one tool by two syncs: the source does not fence them end to end.
- Failing key imports in the certificate cache.
- EventDelivery.StaysAtMostOnceExactly: the dispatches of one fan-out may overlap in the machine; the source runs them one after another.
- Base64.DecodeDigestBase64: shifts and masks are written as division and remainder, which give the same numbers on these disjoint bit fields.
- Embed grants, app builds, artifacts, configuration and capability manifests: weaker variants of the protocols above.
