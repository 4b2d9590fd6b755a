# Verification of the edge agent and its backend

A Dafny 4.11 model of the crash-tolerant protocols and the codecs of the weapon detection platform, with
proofs about them.  `dafny verify dfyconfig.toml` checks all of it.

The platform is an edge Agent that turns detections of a DeepStream Bridge into rows of a local database
and delivers them, with JPEG evidence, to a Backend that enforces a daily quota.  Seven parts are modelled.

| part | modules |
|---|---|
| Outbox and evidence: both tables, the JPEG spool, the two workers, reconciliation, the Backend ledger | BackendLedger, AlertSnapshot, OutboxTables, OutboxProtocol, OutboxSafety, OutboxTheorems, OutboxCompletion, SyncResults |
| Progress of the two drain loops and their backoff | Backoff, DrainRounds, Workers, SyncProgress, UploadProgress |
| Credentials: activation, reactivation, validation, the durable lock, start-up, starting and stopping components | Credentials, CredentialProtocol, RuntimeCoordinator, Supervisor |
| Configuration: validation, cache, generated file, source map, the one Bridge process | Configuration, ConfigSerialization, ConfigGenerator, ConfigCoordinator |
| Schema migrations 0 to 6 | ResumableChain, Migration, MigrationTheorems |
| Ingest: frames, queue, validation, cooldown, persistence, acknowledgement; the JPEG scanner | Frames, DetectionValidation, Ingest, Pipeline, Jpeg |
| Analytics: the CSV export and calendar buckets | Csv, AnalyticsWindow |

`Common` and `JsonValues` hold shared vocabulary.

The three protocols (OutboxProtocol, CredentialProtocol, ConfigCoordinator) are transition systems.  A
step is one commit, one file operation, one message or one crash; a request that was sent may be
processed at any later time and any number of times, and a reply may be lost.  Results about them hold
for every finite sequence of steps.  Objects that the source updates in place are classes; each method is
proved against a function of the old state, and the properties are proved about that function.

## Where the code differs from what is said of it

Each of these is a theorem; the condition is exact where the statement says "if and only if".

- The sync and upload tasks are said to survive every failure.  `2 ** attempt` stops converting to a float
  at attempt 1024, in the handler's own wait, so the task ends after 1025 failures without an answered
  batch in between (`Backoff.SurvivesIff`).
- A local storage problem is said never to block a later row.  A full batch of older rows with unusable
  files does, for ever, and the pass then repeats without a wait (`UploadProgress.UploadedIff`,
  `Workers.SpinsIff`).  The sync worker has the same limit (`SyncProgress.DrainedIff`) for rows the Backend keeps rejecting or that
  belong to another device, and a refused upload blocks everything behind it.
- An association is offered once.  A capture row created after it, or a crash between the delivered mark
  and the association, leaves evidence that is never uploaded (`OutboxCompletion.HandledIff`,
  `OutboxCompletion.CrashSavesIff`).
- A second capture of an event is assumed to carry identical bytes.  When it does not, the file no longer
  matches its row (`OutboxTheorems.EvidenceExact`, `OutboxTheorems.TwoJpegsBreakEvidence`).
- A suppressed event stays suppressed only while the quota is on (`BackendLedger.VerdictRepeatsIff`).
- `validate_detection` is documented never to raise; it raises on integers beyond the float range and on
  sums that leave it (`DetectionValidation.RaisesIff`).
- The generated file has a section for every camera, the source map only for enabled ones
  (`ConfigGenerator.AgreesIffAllEnabled`).
- A Bridge whose start fails, or that dies, is not started again until the version changes
  (`ConfigCoordinator.FailedStartStrands`, `ConfigCoordinator.StrandedForever`).
- The key pattern ends in `$`, which also matches before a final line feed; the path rule is what rejects
  such a key (`Configuration.PathRuleIff`).
- The scanner gives the TEM marker a length it does not have in ITU-T T.81 (`Jpeg.TemSkips`).
- A cancelled component start is not rolled back, nor the rest of a cancelled rollback
  (`RuntimeCoordinator.RunningRestoredIff`); a component whose rollback stop fails stays live and untracked
  (`RuntimeCoordinator.AllTrackedIff`).
- The bucket loop throws near the end of the calendar (`AnalyticsWindow.EnumerateBuckets`).

## Model

| member | source | states |
|---|---|---|
| `BackendLedger.SyncOneSound` | backend/src/WeaponDetection.Infrastructure/Services/AlertSyncService.cs:73-145 | Every outcome is true of the ledger it leaves: accepted and duplicate name a held alert with those very facts, quota_exceeded a recorded suppression without an alert; nothing held before is lost or changed |
| `BackendLedger.SyncBatchSound` | backend/src/WeaponDetection.Infrastructure/Services/AlertSyncService.cs:52-150 | The same for a whole batch, of the ledger after its last event |
| `BackendLedger.UploadSound` | backend/src/WeaponDetection.Infrastructure/Services/AlertSnapshotUploadService.cs:46-176 | Accepted and duplicate mean that the alert holds the digest of the received bytes; every other answer changes nothing |
| `BackendLedger.VerdictRepeats` | backend/src/WeaponDetection.Infrastructure/Services/AlertSyncService.cs:100-145 | While the quota is on, a resubmitted event gets its first verdict again (or is refused by validation), whatever was processed in between |
| `BackendLedger.SuppressionLiftedIff` | backend/src/WeaponDetection.Infrastructure/Services/AlertSyncService.cs:118-145 | A suppressed event gains an alert if and only if some batch that submits it is processed with the quota off and does not refuse it |
| `BackendLedger.VerdictRepeatsIff` | backend/src/WeaponDetection.Infrastructure/Services/AlertSyncService.cs:100-145 | Whatever the quota switch does, an event gets its verdict again if and only if it passes validation and, if suppressed, the quota is on and it was not let in meanwhile |
| `BackendLedger.QuotaSwitchFlipsVerdict` | backend/src/WeaponDetection.Infrastructure/Services/AlertSyncService.cs:118-125 | With a maximum of one a day, a suppressed event resubmitted with the quota switched off is accepted |
| `BackendLedger.QuotaNeverExceeded` | backend/src/WeaponDetection.Infrastructure/Services/AlertSyncService.cs:198-272 | Over any sequence of batches of a Branch's one Device the counter of a day is exactly the number of that day's alerts and never passes the maximum, and no event is both suppressed and accepted |
| `AlertSnapshot.Alert.AttachSnapshot` | backend/src/WeaponDetection.Domain/Alert.cs:200-260 | The new state of all five snapshot fields and the answer, bad arguments included |
| `AlertSnapshot.FirstWriteWins` | backend/src/WeaponDetection.Domain/Alert.cs:200-260 | Over any sequence of attempts the slot ends as the first acceptable offer; that attempt alone is Attached, every later one is Duplicate or Conflict by its digest |
| `AlertSnapshot.SlotDecidesLikeLedger` | backend/src/WeaponDetection.Domain/Alert.cs:238-259 | When the stored and the incoming digest are written as different texts unless equal, the five-field slot decides exactly as first-write-wins on the digests |
| `AlertSnapshot.SlotInstance` | backend/src/WeaponDetection.Domain/Alert.cs:238-259 | A filled slot that answers a retry as a duplicate and another image as a conflict |
| `OutboxTables.DetectionEventRepository.Insert` | agent/src/weapon_detection_agent/persistence/detection_event_repository.py:119-179 | Inserts once; a second row for the same id is refused and nothing is overwritten |
| `OutboxTables.DetectionEventRepository.ListPending` | agent/src/weapon_detection_agent/persistence/detection_event_repository.py:197-214 | The oldest pending rows in order, as many as the limit allows and no fewer |
| `OutboxTables.DetectionEventRepository.MarkDeliveredMany` | agent/src/weapon_detection_agent/persistence/detection_event_repository.py:216-244 | Exactly the named rows that are still pending become delivered; the count is their number; settled rows stay as they are |
| `OutboxTables.DetectionEventRepository.MarkSuppressedByQuotaMany` | agent/src/weapon_detection_agent/persistence/detection_event_repository.py:246-280 | Exactly the named rows that are still pending become suppressed; a delivered row never does |
| `OutboxTables.SnapshotOutboxRepository.Create` | agent/src/weapon_detection_agent/persistence/snapshot_outbox_repository.py:88-141 | One row per event, only for a stored event; otherwise an error and an unchanged table |
| `OutboxTables.SnapshotOutboxRepository.AssociateAlertId` | agent/src/weapon_detection_agent/persistence/snapshot_outbox_repository.py:143-178 | Write-once alert id: missing row and equal id are no-ops, a different id is refused |
| `OutboxTables.SnapshotOutboxRepository.ListUploadReady` | agent/src/weapon_detection_agent/persistence/snapshot_outbox_repository.py:180-192 | The oldest rows that are captured, pending and linked, as many as the limit allows |
| `OutboxTables.SnapshotOutboxRepository.MarkRowUploaded` | agent/src/weapon_detection_agent/persistence/snapshot_outbox_repository.py:194-214 | Only a pending row becomes uploaded |
| `OutboxTables.SnapshotOutboxRepository.Cancel` | agent/src/weapon_detection_agent/persistence/snapshot_outbox_repository.py:265-292 | Only a pending row is cancelled; the answer says whether one was |
| `OutboxTables.EventTransactionsEvolve` | agent/src/weapon_detection_agent/persistence/detection_event_repository.py:119-280 | No transaction of the event table loses or overwrites a row or unsettles one; a mark settles exactly the pending rows it names, and repeating or crossing marks changes nothing |
| `OutboxTables.OutboxTransactionsEvolve` | agent/src/weapon_detection_agent/persistence/snapshot_outbox_repository.py:88-292 | No transaction of the outbox loses a row, changes a recorded digest, size or stored alert id, or leaves a terminal state |
| `OutboxTables.SelectOldest` | agent/src/weapon_detection_agent/persistence/detection_event_repository.py:197-214 | Selection by repeated minimum is the ordered, limited query |
| `OutboxTables.OldestUnique` | agent/src/weapon_detection_agent/persistence/snapshot_outbox_repository.py:180-192 | The ordered, limited query has one possible answer |
| `OutboxSafety.StepKeeps` | agent/src/weapon_detection_agent/sync/worker.py:174-325 | Every step of the protocol (insert, capture, send, process, reply, timeout, each commit, each file operation, crash, restart, reconciliation) keeps the invariant over both tables, the spool, messages in flight and the Backend |
| `OutboxSafety.RunKeeps` | agent/src/weapon_detection_agent/snapshot/worker.py:158-231 | So does every run, and rows and ledger entries only evolve |
| `OutboxTheorems.AcknowledgementSound` | agent/src/weapon_detection_agent/sync/worker.py:251-292 | In every reachable state, delivered means that the Backend holds this very event, suppressed_by_quota means that it said so |
| `OutboxTheorems.NothingLost` | agent/src/weapon_detection_agent/sync/worker.py:174-292 | Whatever happens later, no row is lost or overwritten and every terminal state stays |
| `OutboxTheorems.QuotaNeverUploads` | agent/src/weapon_detection_agent/persistence/snapshot_outbox_repository.py:143-292 | An event whose standing verdict is quota_exceeded is never upload-ready and never uploaded, in whatever order capture, response and cancel come |
| `OutboxTheorems.AssociationNeverConflicts` | agent/src/weapon_detection_agent/sync/worker.py:309-325 | No reachable association ever meets a different stored alert id |
| `OutboxTheorems.UploadedDigestHeld` | agent/src/weapon_detection_agent/snapshot/worker.py:220-222 | An uploaded row's digest is the one its alert holds at the Backend |
| `OutboxTheorems.EvidenceExact` | agent/src/weapon_detection_agent/snapshot/worker.py:180-222 | A row awaiting upload always has its file; the file matches the row if and only if the latest capture of the event carried the recorded bytes |
| `OutboxTheorems.EvidenceSafe` | agent/src/weapon_detection_agent/detection/snapshot_capture.py:137-219 | With one JPEG per event, every row awaiting upload has its JPEG on disk with the recorded size and digest, through crashes and reconciliation |
| `OutboxTheorems.UploadsNeverConflict` | backend/src/WeaponDetection.Infrastructure/Services/AlertSnapshotUploadService.cs:144-176 | With one JPEG per event, no request ever sent can be answered as a conflict, however late and often it is processed |
| `OutboxTheorems.TwoJpegsBreakEvidence` | agent/src/weapon_detection_agent/detection/ingest_handler.py:846-869 | A run in which two captures of one event, both of which pass validation, leave a file that no longer matches its row |
| `OutboxCompletion.MissedNeverUploads` | agent/src/weapon_detection_agent/persistence/snapshot_outbox_repository.py:143-178 | Once its association is missed, a row is never upload-ready and never uploaded, whatever happens afterwards |
| `OutboxCompletion.HandledIff` | agent/src/weapon_detection_agent/sync/worker.py:251-325 | Once an acceptance is handled, the row is upload-ready if and only if it was captured and awaiting upload by then, and the association is missed if and only if there was no row |
| `OutboxCompletion.CrashSavesIff` | agent/src/weapon_detection_agent/sync/worker.py:251-266 | After a crash in any reachable state, the evidence of a delivered event not uploaded yet can still be uploaded by some run if and only if its row was captured, pending and linked |
| `OutboxCompletion.LateCaptureLost` | agent/src/weapon_detection_agent/persistence/snapshot_outbox_repository.py:161-162 | A capture that comes after its acceptance was handled is never uploaded |
| `OutboxCompletion.LateCaptureRun` | agent/src/weapon_detection_agent/persistence/snapshot_outbox_repository.py:161-162 | A run from the start in which a capture comes too late |
| `OutboxCompletion.CrashBeforeAssociationRun` | agent/src/weapon_detection_agent/sync/worker.py:255-266 | A run from the start in which a crash falls between the delivered mark and the association |
| `OutboxCompletion.SettleIsApplyResult` | agent/src/weapon_detection_agent/sync/worker.py:228-325 | Handling a response commit by commit has exactly the row-by-row effect of the response |
| `OutboxCompletion.TimelyCaptureIsReady` | agent/src/weapon_detection_agent/sync/worker.py:251-325 | A captured row that exists when its acceptance is handled ends upload-ready with that alert id, and its event delivered |
| `OutboxCompletion.UploadCompletes` | agent/src/weapon_detection_agent/snapshot/worker.py:180-231 | From every reachable state an undisturbed attempt on an upload-ready row ends uploaded, the digest held by the Backend, the file gone; also when an earlier attempt was stored and its reply lost |
| `Backoff.FailureWaits` | agent/src/weapon_detection_agent/sync/worker.py:332-338 | One failed pass waits between half of and all of the capped exponential delay |
| `Backoff.StreakWaits` | agent/src/weapon_detection_agent/sync/worker.py:332-338 | n failures in a row wait in total between half of and all of the nominal schedule |
| `Backoff.SurvivesIff` | agent/src/weapon_detection_agent/sync/worker.py:156-172 | The task stays alive if and only if no 1025 failures ever follow each other without an answered batch in between |
| `DrainRounds.SettledIff` | agent/src/weapon_detection_agent/snapshot/worker.py:167-178 | What one pass settles: the deliverable rows before the first refused one |
| `DrainRounds.StarvedForever` | agent/src/weapon_detection_agent/sync/worker.py:184-205 | A row with a refused row, or batch_size skipped rows, ahead of it is never settled by any number of passes |
| `DrainRounds.StarvedInstance` | agent/src/weapon_detection_agent/sync/worker.py:184-205 | A table of two rows in which the newer one is never reached, for any number of passes |
| `DrainRounds.SettledIffReachable` | agent/src/weapon_detection_agent/snapshot/worker.py:163-178 | Given enough passes, a deliverable row is settled if and only if no refused and fewer than batch_size skipped rows are ahead of it |
| `DrainRounds.DrainBound` | agent/src/weapon_detection_agent/sync/worker.py:174-249 | With q deliverable and k < batch_size skipped rows, all q are settled within ceil(q / (batch_size - k)) passes |
| `Workers.RetryClock.SleepBackoff` | agent/src/weapon_detection_agent/sync/worker.py:329-338 | The wait and the counter, and the overflow that ends the task |
| `Workers.DetectionEventSyncWorker.Handle` | agent/src/weapon_detection_agent/sync/worker.py:228-230 | Marking, linking, suppressing and cancelling together are the row-by-row effect of the response |
| `Workers.DetectionEventSyncWorker.AssociateAlertIds` | agent/src/weapon_detection_agent/sync/worker.py:309-325 | Going over the alert ids links exactly the unlinked existing rows, in any order |
| `Workers.DetectionEventSyncWorker.CancelSnapshots` | agent/src/weapon_detection_agent/sync/worker.py:294-307 | Exactly the named pending rows are cancelled and only their files removed |
| `Workers.DetectionEventSyncWorker.DrainOnce` | agent/src/weapon_detection_agent/sync/worker.py:174-249 | One pass: which rows are sent, the tables after each kind of reply, the backoff state, and when the loop idles |
| `Workers.SyncPassIsRound` | agent/src/weapon_detection_agent/sync/worker.py:174-249 | An answered pass, before anything new arrives, is one oldest-first round |
| `SyncProgress.DrainWhileArriving` | agent/src/weapon_detection_agent/sync/worker.py:156-249 | Any number of answered passes with detections arriving in between are oldest-first rounds on the stored table |
| `SyncProgress.RoundsArePasses` | agent/src/weapon_detection_agent/sync/worker.py:174-249 | Rounds with arrivals compose: the table of pending rows ends as the oldest-first passes say |
| `SyncProgress.DrainedIff` | agent/src/weapon_detection_agent/sync/worker.py:174-249 | After enough answered passes a row of this Device that is not rejected is settled if and only if fewer than batch_size stuck rows come before it |
| `SyncProgress.DrainedInTime` | agent/src/weapon_detection_agent/sync/worker.py:174-249 | With s drainable and b stuck rows before it, it is settled after n answered passes as soon as n * (batch_size - b) > s |
| `Workers.SnapshotUploadWorker.UploadOne` | agent/src/weapon_detection_agent/snapshot/worker.py:180-231 | The effect on row, file and loop of a bad local file, a failed request and a success |
| `Workers.SnapshotUploadWorker.DrainOnce` | agent/src/weapon_detection_agent/snapshot/worker.py:158-178 | One pass over the listed rows, up to and including the first failed request |
| `Workers.UploadAllSettles` | agent/src/weapon_detection_agent/snapshot/worker.py:167-178 | A whole pass uploads exactly the deliverable rows before the first refused one, removes exactly their files, and leaves the rest in place |
| `Workers.UploadPassIsRound` | agent/src/weapon_detection_agent/snapshot/worker.py:158-178 | A pass is one oldest-first round and leaves the fate of every remaining row as it was |
| `Workers.SpinsIff` | agent/src/weapon_detection_agent/snapshot/worker.py:177-178 | A pass completes without achieving anything if and only if every listed row has an unusable local file |
| `UploadProgress.RoundsArePasses` | agent/src/weapon_detection_agent/snapshot/worker.py:158-178 | Upload passes, with captures and associations in between, are oldest-first passes over the ready rows |
| `UploadProgress.UploadedIff` | agent/src/weapon_detection_agent/snapshot/worker.py:158-231 | After enough passes an uploadable row has been uploaded if and only if no refused row and fewer than batch_size rows with an unusable file come before it |
| `Workers.ReconcileSpool` | agent/src/weapon_detection_agent/detection/snapshot_capture.py:168-219 | Afterwards every captured row has its file and every file its row, and nothing else has changed |
| `SyncResults.ParseResults` | agent/src/weapon_detection_agent/sync/client.py:246-313 | Each collection holds exactly the events named once among the readable items, with that outcome |
| `SyncResults.FirstIsOnly` | agent/src/weapon_detection_agent/sync/client.py:246-313 | Keeping the first reading and discarding repeated ids is the same as there being only one reading |
| `SyncResults.OrderIndependent` | agent/src/weapon_detection_agent/sync/client.py:246-313 | Two responses with the same items in any order give the same five collections |
| `SyncResults.OutcomesDisjoint` | agent/src/weapon_detection_agent/sync/client.py:246-313 | The four outcome collections are disjoint; alert ids belong to accepted or duplicate events only |
| `Frames.HandleConnection` | agent/src/weapon_detection_agent/detection/ingest_handler.py:438-505 | The connection loop enqueues the items the bytes spell, up to the first reason to stop |
| `Frames.SplitEncoded` | agent/src/weapon_detection_agent/detection/protocol.py:97-117 | A snapshot body splits back into the same id and bytes |
| `Frames.SplitLosslessIff` | agent/src/weapon_detection_agent/detection/protocol.py:110-117 | Exactly which bodies the split loses nothing of; shorter ones are accepted with a truncated id |
| `Frames.LegalFramesRead` | agent/src/weapon_detection_agent/detection/protocol.py:77-94 | Legal frames followed by anything are read as themselves, then reading goes on with what follows |
| `Frames.StreamRoundTrip` | agent/src/weapon_detection_agent/detection/protocol.py:77-117 | The concatenation of any list of legal frames is read as exactly that list, then a clean end |
| `Frames.CutYieldsPrefix` | agent/src/weapon_detection_agent/detection/ingest_handler.py:547-575 | Cutting any stream anywhere yields a prefix of its items |
| `Frames.NothingAfterViolation` | agent/src/weapon_detection_agent/detection/ingest_handler.py:456-497 | After a violation nothing that still arrives is read or enqueued |
| `Frames.CutFramesYieldPrefix` | agent/src/weapon_detection_agent/detection/ingest_handler.py:547-575 | A cut list of legal frames yields a prefix of that list |
| `Frames.IngestQueue.Enqueue` | agent/src/weapon_detection_agent/detection/ingest_handler.py:577-591 | A full queue drops the newest item and counts it |
| `Frames.QueueConserves` | agent/src/weapon_detection_agent/detection/ingest_handler.py:577-599 | Items put equal items taken, held and dropped; order is kept; the capacity is never passed |
| `Ingest.DetectionCooldownTracker.Decide` | agent/src/weapon_detection_agent/detection/cooldown.py:108-126 | Suppresses by the last commit of the key and changes nothing |
| `Ingest.DetectionCooldownTracker.Evaluate` | agent/src/weapon_detection_agent/detection/cooldown.py:90-106 | Decide and commit in one: the commit happens exactly when nothing is suppressed |
| `Ingest.DetectionIngestHandler.Process` | agent/src/weapon_detection_agent/detection/ingest_handler.py:690-758 | From the verdict on, the whole effect of one queued detection on tracker, table and acknowledgements |
| `Ingest.LifetimeInv` | agent/src/weapon_detection_agent/detection/ingest_handler.py:614-758 | Over a process lifetime with any insert failures: commits of a key are at least the cooldown apart, every suppression has a commit of its key less than the cooldown before it, every commit and every accepted acknowledgement has its row |
| `Ingest.CommitsPerInterval` | agent/src/weapon_detection_agent/detection/cooldown.py:108-144 | An interval of length T holds at most floor(T / cooldown) + 1 commits of one key |
| `Ingest.SuppressedIffRecent` | agent/src/weapon_detection_agent/detection/cooldown.py:108-126 | The next detection is suppressed if and only if some stored detection of its key was committed less than the cooldown ago |
| `Ingest.FailedInsertsErased` | agent/src/weapon_detection_agent/detection/ingest_handler.py:715-758 | Over any run, tracker, table and acknowledgements are what they would be had the failed detections never come |
| `Ingest.AcceptedMeansStored` | agent/src/weapon_detection_agent/detection/ingest_handler.py:740-797 | Every accepted acknowledgement ever sent names a stored row |
| `Pipeline.ProcessMessage` | agent/src/weapon_detection_agent/detection/ingest_handler.py:614-758 | The whole handling of a message: its flat form, its camera, the validator's outcome, and what the consumer then does |
| `Pipeline.StoredIsAccepted` | agent/src/weapon_detection_agent/detection/ingest_handler.py:614-758 | Every row ever stored comes from a received message that the validator accepts, under this Device, the camera of its source and the name of its class |
| `Pipeline.FormsStoreAlike` | agent/src/weapon_detection_agent/detection/ingest_handler.py:637-688 | Over any run, version 2 messages and their flat forms leave the same rows, cooldowns and history |
| `DetectionValidation.ValidateDetection` | agent/src/weapon_detection_agent/detection/validation.py:110-241 | The loops over the fields and the in-place clamping compute the verdict function: same rules, same order |
| `DetectionValidation.ConstructorNeverFails` | agent/src/weapon_detection_agent/detection/models.py:60-84 | An accepted message never makes the event constructor fail |
| `DetectionValidation.ClampIsIntersection` | agent/src/weapon_detection_agent/detection/validation.py:218-223 | The stored box is the reported box intersected with the frame; a box that starts beyond the frame becomes empty on its edge |
| `DetectionValidation.OmittedFrameIsLeast` | agent/src/weapon_detection_agent/detection/validation.py:206-216 | An omitted frame size becomes the least positive integer that holds the box, which is then kept as reported |
| `DetectionValidation.RevalidationKeeps` | agent/src/weapon_detection_agent/detection/validation.py:110-241 | Validating an accepted event again changes nothing |
| `DetectionValidation.RaisesIff` | agent/src/weapon_detection_agent/detection/validation.py:110-241 | A message raises if and only if its first unusable number is an integer beyond the float range, or it obeys every rule and a frame side, given or needed by the box, is beyond that range |
| `DetectionValidation.HugeIntegerRaises` | agent/src/weapon_detection_agent/detection/validation.py:110-241 | A concrete message that raises although the documentation says that none does |
| `DetectionValidation.NormalizeV2Payload` | agent/src/weapon_detection_agent/detection/validation.py:77-107 | Which names the flat message has and where each value comes from |
| `DetectionValidation.V2AgreesWithFlat` | agent/src/weapon_detection_agent/detection/validation.py:77-107 | A version 2 message is judged exactly as its flat form |
| `Jpeg.ParseDimensions` | agent/src/weapon_detection_agent/detection/snapshot_capture.py:57-92 | The loop terminates, stays in bounds and computes the scan on every byte string |
| `Jpeg.ReadsFrameHeader` | agent/src/weapon_detection_agent/detection/snapshot_capture.py:57-92 | For every list of fill bytes, parameterless markers and segments before the first frame header, the scan returns that header's width and height |
| `Jpeg.FoundInFrame` | agent/src/weapon_detection_agent/detection/snapshot_capture.py:57-92 | Whatever the input, returned dimensions stand in a frame header inside it |
| `Jpeg.TemSkips` | agent/src/weapon_detection_agent/detection/snapshot_capture.py:79-90 | After a TEM marker the scan goes on at the distance the next two bytes spell, and finds nothing if they spell none |
| `Jpeg.TemLosesFrame` | agent/src/weapon_detection_agent/detection/snapshot_capture.py:79-90 | So a short enough stream with TEM before another marker is refused whatever its frame header says |
| `Jpeg.TemReadsInside` | agent/src/weapon_detection_agent/detection/snapshot_capture.py:79-90 | In a longer one a frame header at that distance is believed, whatever stands in between |
| `Jpeg.ValidatesWellFormed` | agent/src/weapon_detection_agent/detection/snapshot_capture.py:95-112 | A well-formed stream within the limit is accepted with its dimensions if and only if both are positive |
| `Csv.AppendLine` | backend/src/WeaponDetection.Api/Contracts/AnalyticsCsvWriter.cs:41-71 | The loop with its separator appends one RFC 4180 line |
| `Csv.Write` | backend/src/WeaponDetection.Api/Contracts/AnalyticsCsvWriter.cs:41-71 | A strict RFC 4180 reader returns the header and nine cells per row, each equal to the input after the formula prefix, for all texts |
| `Csv.FieldRead` | backend/src/WeaponDetection.Api/Contracts/AnalyticsCsvWriter.cs:91-106 | Escaping and reading a cell gives back the defused text and what follows it |
| `Csv.LineRead` | backend/src/WeaponDetection.Api/Contracts/AnalyticsCsvWriter.cs:41-71 | A written line is read as its cells, whatever follows |
| `Csv.NoFormula` | backend/src/WeaponDetection.Api/Contracts/AnalyticsCsvWriter.cs:91-106 | No cell read back starts a formula |
| `Csv.DefuseCollides` | backend/src/WeaponDetection.Api/Contracts/AnalyticsCsvWriter.cs:91-106 | Exactly which two texts share a cell |
| `AnalyticsWindow.TruncateIdempotent` | backend/src/WeaponDetection.Application/Analytics/AnalyticsWindow.cs:106-124 | A bucket start truncates to itself and a week starts on a Monday midnight |
| `AnalyticsWindow.EnumerateBuckets` | backend/src/WeaponDetection.Application/Analytics/AnalyticsWindow.cs:140-159 | The loop lists the consecutive bucket starts from the one holding the first instant to the one holding the last; it throws exactly when the start after the last leaves the calendar |
| `AnalyticsWindow.LastWindowThrows` | backend/src/WeaponDetection.Application/Analytics/AnalyticsWindow.cs:126-159 | A window at the end of the calendar that meets the throwing condition for every bucket size |
| `AnalyticsWindow.BucketsAscend` | backend/src/WeaponDetection.Application/Analytics/AnalyticsWindow.cs:140-159 | The listed starts ascend strictly |
| `AnalyticsWindow.BucketsPartition` | backend/src/WeaponDetection.Application/Analytics/AnalyticsWindow.cs:140-159 | Every instant of the window truncates to exactly one listed start |
| `AnalyticsWindow.BucketsTouchWindow` | backend/src/WeaponDetection.Application/Analytics/AnalyticsWindow.cs:140-159 | No listed bucket is wholly outside the window |
| `AnalyticsWindow.CountBound` | backend/src/WeaponDetection.Application/Analytics/AnalyticsWindow.cs:140-159 | A window of span s has at most ceil(s / size) + 1 buckets |
| `AnalyticsWindow.AbsoluteWindowBound` | backend/src/WeaponDetection.Application/Analytics/AnalyticsWindow.cs:91-101 | An absolute window gets at most 49 hourly or 32 daily buckets |
| `AnalyticsWindow.AbsoluteWindowBoundTight` | backend/src/WeaponDetection.Application/Analytics/AnalyticsWindow.cs:91-101 | Windows that reach both bounds |
| `AnalyticsWindow.PresetBound` | backend/src/WeaponDetection.Application/Analytics/AnalyticsWindow.cs:73-85 | The exact span of every preset, its bucket bound, and when it throws |
| `ResumableChain.RunCompletes` | agent/src/weapon_detection_agent/persistence/schema.py:296-382 | A chain of all-or-nothing steps, uninterrupted, reaches its target |
| `ResumableChain.InterruptedOnTheWay` | agent/src/weapon_detection_agent/persistence/schema.py:296-382 | An interrupted run leaves valid data from which the same target is reached |
| `Migration.Connection.RunTransaction` | agent/src/weapon_detection_agent/persistence/database.py:96-111 | The statements all take effect at the commit or, on an error or crash, none does |
| `Migration.Connection.MigrateFrom` | agent/src/weapon_detection_agent/persistence/schema.py:410-654 | One migration is kept entirely or not at all, and foreign keys are on again however it ends |
| `Migration.Connection.InitializeSchema` | agent/src/weapon_detection_agent/persistence/schema.py:296-382 | The version ladder, step by step, is the chain of migrations |
| `MigrationTheorems.RebuildWorks` | agent/src/weapon_detection_agent/persistence/schema.py:448-504 | Create, copy, drop, rename: the table is replaced by its widened copy, its indexes are gone, nothing else changes |
| `MigrationTheorems.StepsAreUpgrades` | agent/src/weapon_detection_agent/persistence/schema.py:410-654 | On valid data every migration completes when uninterrupted, and whenever it is kept it is the upgrade to the next version |
| `MigrationTheorems.InitializeCompletes` | agent/src/weapon_detection_agent/persistence/schema.py:296-382 | From every valid database of version 0 to 6 the call ends at version 6, valid, with every old row on its old columns and none added |
| `MigrationTheorems.CrashResume` | agent/src/weapon_detection_agent/persistence/schema.py:296-382 | After any finite sequence of crashes anywhere, one completed call gives the database an uninterrupted run would have given |
| `MigrationTheorems.UntouchedUnlessKnown` | agent/src/weapon_detection_agent/persistence/schema.py:364-407 | A newer or untrustworthy version is reported and nothing is changed |
| `MigrationTheorems.LastMigrationNeedsKeysOff` | agent/src/weapon_detection_agent/persistence/schema.py:629-654 | With foreign keys on, the last migration would fail if and only if a snapshot row exists |
| `Credentials.Device.Activate` | backend/src/WeaponDetection.Domain/Device.cs:300-320 | The external id is given once, the secret replaced each time; a bad secret changes nothing |
| `Credentials.Device.RequireReactivation` | backend/src/WeaponDetection.Domain/Device.cs:337-348 | Revokes the secret, keeps the id; refused before a first activation |
| `Credentials.ActivationKey.Consume` | backend/src/WeaponDetection.Domain/ActivationKey.cs:84-93 | Only an unconsumed key can be consumed |
| `Credentials.DeviceIdentityRepository.Store` | agent/src/weapon_detection_agent/persistence/device_identity_repository.py:148-178 | One row for ever; a second store is refused |
| `Credentials.DeviceIdentityRepository.ReplaceSharedSecret` | agent/src/weapon_detection_agent/persistence/device_identity_repository.py:180-202 | Secret and state change together, the id never |
| `Credentials.DeviceIdentityRepository.MarkReactivationRequired` | agent/src/weapon_detection_agent/persistence/device_identity_repository.py:204-224 | The secret is erased and the state locked in one write; a failed write changes nothing |
| `Credentials.ActivationService.Activate` | agent/src/weapon_detection_agent/activation/service.py:103-245 | At most one request; the identity is written only on a grant for the same device, the key file removed only after that |
| `Credentials.CredentialValidationMonitor.AttemptOnce` | agent/src/weapon_detection_agent/validation/monitor.py:113-209 | Locks only on a confirmed rejection, and reports it only once the lock is stored |
| `Credentials.CredentialValidationMonitor.Poll` | agent/src/weapon_detection_agent/validation/monitor.py:91-111 | Over any series of verdicts the loop ends at the first confirmed rejection and at nothing else |
| `CredentialProtocol.StepKeeps` | backend/src/WeaponDetection.Infrastructure/Services/DeviceService.cs:142-371 | Every step of Backend, network, Agent and operator keeps the invariant over device rows, keys, issued secrets and the stored identity |
| `CredentialProtocol.RejectionMeansDead` | backend/src/WeaponDetection.Infrastructure/Services/DeviceCredentialValidator.cs:36-98 | A confirmed rejection of a secret issued for the device means that no device holds it |
| `CredentialProtocol.DeadForever` | backend/src/WeaponDetection.Infrastructure/Services/DeviceService.cs:278-371 | A spent secret stays spent, whatever happens afterwards |
| `CredentialProtocol.NeverDropsValidSecret` | agent/src/weapon_detection_agent/validation/monitor.py:113-209 | Over every run, a secret the Agent erases or replaces is one the Backend does not accept, then or ever after |
| `CredentialProtocol.DeviceIdPermanent` | agent/src/weapon_detection_agent/persistence/device_identity_repository.py:148-224 | Once stored, the device id never changes and the row is never lost |
| `CredentialProtocol.ReachableCredentials` | agent/src/weapon_detection_agent/persistence/device_identity_repository.py:97-224 | In every reachable state a secret is stored exactly when operational, belongs to the stored id, and each device has at most one unconsumed key |
| `CredentialProtocol.LostReplyConsumesKey` | agent/src/weapon_detection_agent/activation/service.py:213-228 | An activation whose reply is lost has consumed its key: in every later state of every run, presenting it is refused |
| `CredentialProtocol.RecoveryIff` | agent/src/weapon_detection_agent/activation/service.py:136-211 | From every reachable state, a fresh key and a restart bring the Agent to current credentials if and only if it has no identity yet or the key is for its own device |
| `RuntimeCoordinator.OperationalStateCoordinator.StartOperationalComponents` | agent/src/weapon_detection_agent/runtime/operational_state_coordinator.py:159-194 | The start loop and its rollback, with every start and stop it tries, in order |
| `RuntimeCoordinator.OperationalStateCoordinator.EnterReactivationRequired` | agent/src/weapon_detection_agent/runtime/operational_state_coordinator.py:196-212 | Locks before the first stop is tried and keeps what fails to stop |
| `RuntimeCoordinator.OperationalStateCoordinator.MarkOperationalAfterReactivation` | agent/src/weapon_detection_agent/runtime/operational_state_coordinator.py:214-250 | Unlocks only on a durable operational identity with a secret, and starts nothing |
| `RuntimeCoordinator.LockStopsAll` | agent/src/weapon_detection_agent/runtime/operational_state_coordinator.py:285-307 | A lock tries every stop in reverse start order and leaves running exactly the components whose stop failed |
| `RuntimeCoordinator.StartSucceeds` | agent/src/weapon_detection_agent/runtime/operational_state_coordinator.py:159-194 | If every start succeeds, the running list grows by exactly the pending components, in order |
| `RuntimeCoordinator.FailedStartRestores` | agent/src/weapon_detection_agent/runtime/operational_state_coordinator.py:169-283 | A failed start restores the running list exactly; a component whose own stop fails stays live without being tracked |
| `RuntimeCoordinator.CancelledStartKeeps` | agent/src/weapon_detection_agent/runtime/operational_state_coordinator.py:174-194 | A cancelled start is not rolled back |
| `RuntimeCoordinator.RunningRestoredIff` | agent/src/weapon_detection_agent/runtime/operational_state_coordinator.py:172-283 | A start that does not complete leaves the running list as it was if and only if nothing had been started or it failed and no stop of its rollback was cancelled |
| `RuntimeCoordinator.AllTrackedIff` | agent/src/weapon_detection_agent/runtime/operational_state_coordinator.py:172-283 | It leaves something live and untracked if and only if it failed and a stop that its rollback reached failed |
| `RuntimeCoordinator.CancelledStartInstance` | agent/src/weapon_detection_agent/runtime/operational_state_coordinator.py:180-186 | A cancelled second start that leaves the first component running |
| `RuntimeCoordinator.UntrackedInstance` | agent/src/weapon_detection_agent/runtime/operational_state_coordinator.py:269-283 | A failed second start that leaves the first component live and untracked |
| `RuntimeCoordinator.RunTracked` | agent/src/weapon_detection_agent/runtime/operational_state_coordinator.py:105-307 | Over every call sequence and every failure pattern, what is tracked as running is live, registered and listed once |
| `RuntimeCoordinator.LockedStartsNothing` | agent/src/weapon_detection_agent/runtime/operational_state_coordinator.py:159-307 | From a locked state nothing is started until a durable operational identity with a secret is found |
| `Supervisor.AgentSupervisor.Startup` | agent/src/weapon_detection_agent/runtime/supervisor.py:163-255 | One start-up only: row and key decide which request is made and with what; the answer decides branch, stored row and runtime, so a confirmed rejection locks, and anything else starts every component and then the monitor |
| `Supervisor.AgentSupervisor.ValidateAtStart` | agent/src/weapon_detection_agent/runtime/supervisor.py:219-255 | The stored credentials are presented once; valid and indeterminate operate on an unchanged row, a confirmed rejection locks the row if it can and stays down either way |
| `Supervisor.AgentSupervisor.StartWithKey` | agent/src/weapon_detection_agent/runtime/supervisor.py:198-217 | The key is sent once; row, outcome and branch follow from the answer, and only an activation starts the components |
| `Supervisor.AgentSupervisor.EnterOperational` | agent/src/weapon_detection_agent/runtime/supervisor.py:263-288 | Coordinator, then every component, then one monitor; a failed start means no monitor |
| `Supervisor.AgentSupervisor.MonitorEnded` | agent/src/weapon_detection_agent/runtime/supervisor.py:290-338 | The end of the monitor locks the runtime; it is fatal if and only if the monitor failed or a stop did, and after a failed stop every remaining stop is tried once more |
| `Configuration.ValidateConfiguration` | agent/src/weapon_detection_agent/configuration/validation.py:47-114 | The loop with its four seen-sets computes the first broken rule |
| `Configuration.AcceptedIff` | agent/src/weapon_detection_agent/configuration/validation.py:47-162 | Exactly the accepted configurations, stated without order or seen-sets |
| `Configuration.PathRuleIff` | agent/src/weapon_detection_agent/configuration/validation.py:117-150 | For a key that matches the pattern, the path rules hold if and only if the key has no final line feed and the path is the key's own |
| `Configuration.DuplicatePathNeverFires` | agent/src/weapon_detection_agent/configuration/validation.py:110-114 | The duplicate-path rule can never be the one that rejects |
| `ConfigGenerator.FirstSource` | agent/src/weapon_detection_agent/deepstream/config_generator.py:113-121 | The carried section is the least source section in name order |
| `ConfigGenerator.GenerateRuntimeConfig` | agent/src/weapon_detection_agent/deepstream/config_generator.py:41-110 | The file for any template and cameras; it fails exactly without a source section, or for two cameras of one order |
| `ConfigGenerator.OneSectionPerCamera` | agent/src/weapon_detection_agent/deepstream/config_generator.py:70-90 | The file has exactly one source section per camera |
| `ConfigGenerator.BatchSizeCountsSources` | agent/src/weapon_detection_agent/deepstream/config_generator.py:91-95 | The batch size written is the number of source sections in the file |
| `ConfigGenerator.NoCollision` | agent/src/weapon_detection_agent/deepstream/config_generator.py:70-95 | No two sections share a name, and the template's other sections are kept |
| `ConfigGenerator.NumeralInjective` | agent/src/weapon_detection_agent/deepstream/config_generator.py:73-76 | Different source orders give different section names |
| `ConfigGenerator.SourceGenerationTracker.Install` | agent/src/weapon_detection_agent/configuration/source_mapping.py:57-71 | The new generation, its number, and the next one |
| `ConfigGenerator.MapOfIff` | agent/src/weapon_detection_agent/configuration/source_mapping.py:57-71 | The map holds exactly the orders of the enabled cameras, each with its camera |
| `ConfigGenerator.MapInjective` | agent/src/weapon_detection_agent/configuration/source_mapping.py:57-71 | Different sources stand for different cameras |
| `ConfigGenerator.MakerSound` | agent/src/weapon_detection_agent/deepstream/config_generator.py:73-90 | Nothing carried over from the template overwrites a camera's name, id, uri or mount |
| `ConfigGenerator.AgreesIffAllEnabled` | agent/src/weapon_detection_agent/deepstream/config_generator.py:73-90 | File and source map agree on every source id (the section is there exactly when the id resolves, with that camera's id, key, uri and mount) if and only if every camera is enabled |
| `ConfigGenerator.DisabledInstance` | agent/src/weapon_detection_agent/configuration/validation.py:47-114 | An accepted configuration with a disabled camera, on which file and map disagree for every template |
| `ConfigSerialization.RoundTripIff` | agent/src/weapon_detection_agent/configuration/serialization.py:20-76 | Writing and reading back returns the same configuration if and only if every camera has a key |
| `ConfigSerialization.AcceptedSurvivesCache` | agent/src/weapon_detection_agent/configuration/serialization.py:20-76 | Every accepted configuration survives the cache |
| `ConfigSerialization.LegacyCameraRoundTrip` | agent/src/weapon_detection_agent/configuration/serialization.py:93-122 | Without its key a camera is read back as itself if and only if its path is the key's own |
| `ConfigSerialization.LegacyCacheRecovers` | agent/src/weapon_detection_agent/configuration/serialization.py:93-122 | The cameras of an accepted configuration are recovered from a cache without keys |
| `ConfigCoordinator.DeepStreamProcessManager.Start` | agent/src/weapon_detection_agent/deepstream/process_manager.py:83-114 | One tracked process at most; a failed spawn leaves nothing behind |
| `ConfigCoordinator.DeepStreamProcessManager.Stop` | agent/src/weapon_detection_agent/deepstream/process_manager.py:116-147 | Ends and forgets exactly the tracked process |
| `ConfigCoordinator.DeviceConfigurationCoordinator.PollOnce` | agent/src/weapon_detection_agent/configuration/coordinator.py:207-296 | A poll is the protocol's own steps in a row |
| `ConfigCoordinator.DeviceConfigurationCoordinator.LoadAndApplyCache` | agent/src/weapon_detection_agent/configuration/coordinator.py:129-185 | Start from the cache: validated again, generated, installed, started |
| `ConfigCoordinator.StepKeeps` | agent/src/weapon_detection_agent/configuration/coordinator.py:129-296 | Every step, with a crash between any two, keeps the invariant over process, file, map, cache and the configuration in force |
| `ConfigCoordinator.GenerationSafety` | agent/src/weapon_detection_agent/configuration/coordinator.py:257-296 | At most one Bridge is alive, and while one is, the file and the source map are those of the configuration it was started from |
| `ConfigCoordinator.ResolvesToOwnCamera` | agent/src/weapon_detection_agent/configuration/coordinator.py:311-316 | A source id of the live Bridge resolves to the camera whose section it read, and to nothing if that camera is disabled or there is none |
| `ConfigCoordinator.GenerationsIncrease` | agent/src/weapon_detection_agent/configuration/source_mapping.py:57-71 | In one process lifetime generations strictly increase |
| `ConfigCoordinator.AppliedMovesForward` | agent/src/weapon_detection_agent/configuration/coordinator.py:230-269 | What is applied was validated and cached before, and only moves forward, crashes included |
| `ConfigCoordinator.RestartNoOlder` | agent/src/weapon_detection_agent/configuration/coordinator.py:162-185 | A restart takes up the newest cached configuration, which is no older than the one applied last |
| `ConfigCoordinator.BootFromText` | agent/src/weapon_detection_agent/configuration/coordinator.py:162-185 | In every reachable state, starting from the cached text is starting from the configuration written to it |
| `ConfigCoordinator.RestartFromText` | agent/src/weapon_detection_agent/configuration/coordinator.py:162-185 | A restart after a crash takes up, through its text, the newest accepted configuration, no older than the one applied last |
| `ConfigCoordinator.PollIsRun` | agent/src/weapon_detection_agent/configuration/coordinator.py:207-296 | The uninterrupted poll is a run of the protocol |
| `ConfigCoordinator.PollStartsIff` | agent/src/weapon_detection_agent/configuration/coordinator.py:230-296 | With no Bridge, an undisturbed poll starts one if and only if the fetched version is accepted, has cameras and differs from the one in force |
| `ConfigCoordinator.FailedStartStrands` | agent/src/weapon_detection_agent/configuration/coordinator.py:269-282 | After a failed start, polls that return the same version never start the Bridge |
| `ConfigCoordinator.StrandedInstance` | agent/src/weapon_detection_agent/configuration/coordinator.py:269-282 | An accepted configuration of one camera whose failed start is stranded |

## Left out

Not modelled:

- HTTP, sockets, task scheduling, logging, redaction, settings, file modes, the user interface, controllers and dependency injection: the network is a parameter or a nondeterministic step.
- SQL, JSON, UTF-8, URL, UUID and ISO-8601 engines: tables are maps, JSON is a tree, readers and writers are parameters that are assumed faithful where a round trip needs it.
- SHA-256 is an injective constructor; UUIDs and secrets are fresh parameters; protecting a stored secret is the identity; event ids are ordered as numbers.
- Floats are reals: rounding is left out, overflow to an error is kept where it changes behaviour.
- The ledger is that of one Device, which is all of its Branch: the schema allows exactly one Device per Branch (backend/src/WeaponDetection.Infrastructure/Persistence/Configurations/DeviceConfiguration.cs:32-36).  Races between concurrent Backend transactions are not modelled, so a batch is one atomic step.  The upload's content-type check, an upload without a claimed digest, and a stream longer than its declared length are left out; the Agent always sends both headers.
- The exception of the URL parser on a text it cannot split: the model's parser is total.  The source does not catch it as a broken rule; the fetched configuration is not applied either way.
- The bounded spool size check before a capture: it only skips captures, which the protocol allows at any time.
- Letter case is folded for ASCII only when digests are compared.
- The Gregorian fields of an instant: hours, days and weeks are computed on ticks, which is what those fields amount to at these three sizes.
- Timestamps and numbers enter the CSV writer as text; the file name and the number formats are left out.
- The `[DEFAULT]` section and `%` interpolation of the generated file's template.
- Cached fields of the wrong JSON type, which the reader accepts silently in places and the model treats as an error.
- The blank-key errors of the cooldown, the guards of the Alert constructor, the network fields of Device, queue capacities that mean no bound, and the limit on the digits of an integer's text.
- Rows whose text primary key is NULL, which SQLite permits.
- Cancellation in the middle of creating a subprocess, and a Bridge that outlives a crashed Agent: by default the service manager ends both.
- The supervisor's orderly shutdown, restart of finished tasks, and idle waits of the loops.

Stated under an assumption that the source makes elsewhere or that its documents name:

- OutboxTheorems.EvidenceSafe: assumes that no outside program changes the spool and that all captures of an event carry the same bytes; EvidenceExact gives the condition without the latter.
- OutboxTheorems.UploadsNeverConflict: assumes one JPEG per event.
- OutboxCompletion.UploadCompletes: is about an attempt that no fault disturbs, a JPEG that the Backend can decode, and a size within its limit.
- BackendLedger.VerdictRepeats: assumes that the quota stays on; VerdictRepeatsIff gives the exact condition.
- BackendLedger.QuotaNeverExceeded: assumes that the quota stays on and its size fixed; batches are atomic and in order.
- DrainRounds.DrainBound: assumes that the fate of a row does not change between passes and that rows that arrive are newer.
- SyncProgress.DrainedIff: counts answered passes only, with detections that arrive made later than the row; the set of events that the Backend keeps rejecting is fixed.
- UploadProgress.UploadedIff: assumes that what the Backend answers for a row does not change between passes, and that rows that become ready were captured later.
- Ingest.CommitsPerInterval: assumes a clock that never goes back, as the source's monotonic clock does.
- RuntimeCoordinator.FailedStartRestores: is about rollbacks that are not cancelled; RunningRestoredIff and AllTrackedIff cover all.
- RuntimeCoordinator.LockStopsAll: is about stops that are not cancelled; a cancelled one ends the call at once and is covered by RunTracked.
- Jpeg.ReadsFrameHeader: excludes TEM before the frame header; TemSkips and TemLosesFrame say what happens with it.
- CredentialProtocol.RecoveryIff: is about a recovery that no fault disturbs.
- Frames.StreamRoundTrip: assumes that decoding inverts encoding for the ids that are sent.
- MigrationTheorems.CrashResume: is about databases that satisfy the constraints of their version, which every database written by these migrations does.
