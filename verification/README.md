# Verified models of the build service's protocols

This project models the parts of the service whose promises depend on many small steps taken in the
right order, and proves those promises for every run. A run is any sequence of steps, where a step is one
section under a lock, one file operation, one message, a process stop, or a step of a process start.

| area | modules |
|---|---|
| live log: runner sink, server store, and both joined by an unreliable network | `LogStore`, `LogSink`, `LogProtocol`, `LogInJob` |
| releases: queue, workers, `current` link, stop markers, clean-up, retention, recovery | `Release`, `ReleaseContent`, `ReleaseManager`, `ReleaseWork` |
| repository versions: queue, workers, kept results, removal, clean-up, recovery | `Repository`, `RepositorySafety`, `RepositoryContent`, `RepositoryManager`, `RepositoryWork` |
| uploads and sealing of a job | `ManifestText`, `Uploads`, `UploadSafety`, `UploadStore`, `UploadWork` |
| repository contents and directory digests | `Digests`, `Contents` |
| signing pool | `Sealer` |
| git server requests | `GitServer`, `GitManager` |
| polling source | `Polling` |
| label codec, token buckets | `LabelCodec`, `Buckets` |

Where the source is an object that changes its fields under a lock, there is a class with those fields,
and each lock section is a method that is proved to take a specified step from the old state to the new
one. The steps, the invariants and the theorems over runs are stated on values, so that a whole run can be
spoken of. Algorithms that loop are methods with loops, proved against a function or a predicate of their
inputs.

File operations end in one of three ways: they take effect, they fail without effect, or the process stops
before or after the effect. Writing a JSON file, or rewriting the log index, is one such operation.
Finished writes survive a stop. SHA-256 is injective, so a digest is modelled by what was hashed. Files are
not changed from outside, and reading an existing file or link succeeds. Choices that the model does not
determine, such as the outcome of an operation or the order of messages, are arbitrary.

`backend/artifact-manager/pkg/upload/sealing.go` returns nil from `run` in fewer cases than "every task ran
and succeeded": a request that is found cancelled while its last task is still out reports an error even if
that task then succeeds. `Sealer.SuccessIsNotNil` gives the case, and `Sealer.NilExactly` the exact condition.

`backend/artifact-manager/pkg/release/manager.go` may fail a release that it has published whole. When the
write of the prepared record fails, the record still says that the release is being created, so the periodic
retry materialises it again; its rename finds the first directory, and that conflict is recorded as a final
failure (`backend/artifact-manager/pkg/release/materialize.go:155`), which no later start reconsiders.
`ReleaseContent.RebuildFails` gives the run for every request, `ReleaseContent.AcceptedExactly` says exactly
when a published release is accepted, and `ReleaseContent.FailedForGood` that the failure lasts.

`backend/git-server/pkg/repository/manager.go` may still be retrying a request that is no longer pending. Two
requests that are accepted before either is added to the queue may be served together; the second addition
then brings the key to a worker once more, and a failure of that operation is counted and retried.
`GitServer.ServedMayBeRetried` gives the run. What holds in every run is `GitServer.RetriesAreUsed`: an error
that may be retried stands only when all retries are used, or while the request is still in motion.

The modules whose names end in `Work` say what gets done: that from every reachable state certain steps are
possible, and where they lead. They do not say that these steps are ever taken.

## Model

| member | source | states |
|---|---|---|
| `LogStore.RecoveryKeepsMeaning` | backend/artifact-manager/pkg/upload/log_store.go:81-178 | Recovery of files that the protocol can leave behind restores contiguous sequences, prefix-sum offsets and a matching body length, keeps every committed chunk, and never reaches the Corrupted verdict |
| `LogStore.PartialRecovery` | backend/artifact-manager/pkg/upload/log_store.go:81-178 | A recovery that itself fails or stops after any file operation loses nothing, and the next one ends in the same files |
| `LogStore.AppendingCommitsOnce` | backend/artifact-manager/pkg/upload/log_store.go:195-260 | Wherever an append stops, recovery yields the log before it or the log with exactly that one chunk more, so resending never duplicates it |
| `LogStore.AppendAnswers` | backend/artifact-manager/pkg/upload/log_store.go:195-260 | Each verdict of an append exactly: a runner's own unfinished log accepts the next number and a committed chunk sent again, without change; a different runner, a finished log, a gap and different bytes are each refused with their own answer |
| `LogStore.ResendCommitsOnce` | backend/artifact-manager/pkg/upload/log_store.go:195-260 | An append that stopped anywhere, followed by an answered append of the same chunk, is accepted, and the chunk is in the log once |
| `LogStore.CompletingIsSound` | backend/artifact-manager/pkg/upload/log_store.go:372-480 | Wherever a completion stops, recovery yields an open log with its body intact, or a completed one whose artifact is the committed bytes |
| `LogStore.AttemptConverges` | backend/artifact-manager/pkg/upload/log_store.go:81-113 | After one completion that stopped anywhere and the recovery that followed, the log has the same chunks and is finished, with the requested artifact, exactly when the rename had happened; otherwise it is open |
| `LogStore.CompletionConverges` | backend/artifact-manager/pkg/upload/log_store.go:372-480 | However often a completion stops, and wherever, the same request is accepted again; no chunk is lost or gained; the log is finished exactly when one attempt got to its rename |
| `LogStore.CompletionFinishes` | backend/artifact-manager/pkg/upload/log_store.go:447-478 | The next attempt that is not stopped finishes the log with an artifact of exactly the committed bytes |
| `LogStore.CompletionAnswers` | backend/artifact-manager/pkg/upload/log_store.go:372-420 | Each verdict of a completion exactly: it succeeds when the request gives the last number, the length and the hash of the committed bytes and neither manifest nor seal is in the way; on a finished log, when it describes it |
| `LogStore.EventsAreTheRest` | backend/artifact-manager/pkg/upload/log_store.go:278-327 | A replay after a number has every later chunk, in order, each under its own number |
| `LogStore.Store.ScanIndex` | backend/artifact-manager/pkg/upload/log_store.go:135-160 | The scan accepts exactly the contiguous index files and returns their number of lines and end offset |
| `LogStore.Store.RecoverLog` | backend/artifact-manager/pkg/upload/log_store.go:81-178 | Recovery in file-operation steps ends in the specified repaired files, or stops at a specified intermediate state |
| `LogStore.Store.RecoverBody` | backend/artifact-manager/pkg/upload/log_store.go:150-178 | The body is cut to what the index describes, then the counters follow; each is one file operation |
| `LogStore.Store.Repair` | backend/artifact-manager/pkg/upload/log_store.go:81-178 | Recovery keeps what the files mean and, when it succeeds, leaves nothing to repair |
| `LogStore.Store.Start` | backend/artifact-manager/pkg/upload/artifact_store.go:80-124 | A start keeps the meaning of the log and is up exactly when recovery succeeded |
| `LogStore.Store.LoadLog` | backend/artifact-manager/pkg/upload/log_store.go:26-54 | Loading recovers first if an earlier write was outstanding, and never changes the meaning |
| `LogStore.Store.LoadOrCreateLog` | backend/artifact-manager/pkg/upload/log_store.go:54-79 | A missing log is created empty for the runner; an existing one is loaded as it is, after recovery if that is due |
| `LogStore.Store.FindLogRecord` | backend/artifact-manager/pkg/upload/log_store.go:262-276 | Finds the index line with a sequence number, or says there is none |
| `LogStore.Store.AppendLog` | backend/artifact-manager/pkg/upload/log_store.go:195-260 | The reply is the verdict on the meaning before, with the counts of the meaning after; without an answer, the meaning is as before or has exactly that chunk more |
| `LogStore.Store.AppendNext` | backend/artifact-manager/pkg/upload/log_store.go:233-260 | The next chunk is committed by three writes, body, index, metadata, in that order |
| `LogStore.Store.CompleteLog` | backend/artifact-manager/pkg/upload/log_store.go:372-480 | The reply is the verdict on the meaning before; success leaves an artifact of exactly the committed bytes |
| `LogStore.Store.Finalize` | backend/artifact-manager/pkg/upload/log_store.go:447-478 | The five writes of a completion, cut off anywhere, leave one of the specified intermediate files |
| `LogStore.Store.Status` | backend/artifact-manager/pkg/server/log_handler.go:89-100 | The status is the number of committed chunks and bytes of the log as it means |
| `LogStore.Store.ReplayLog` | backend/artifact-manager/pkg/upload/log_store.go:278-327 | Replay returns exactly the committed chunks after a sequence number, in order, each with its number |
| `LogSink.JobLogSink.Write` | backend/runner/pkg/artifact/log_uploader.go:135-158 | A write appends to the spool and counts what reached the file, also when it fails; none is accepted after closing or over the limit |
| `LogSink.JobLogSink.Begin` | backend/runner/pkg/artifact/log_uploader.go:230-245 | The worker starts where the server says its log ends, and refuses an offset beyond the spool |
| `LogSink.JobLogSink.Take` | backend/runner/pkg/artifact/log_uploader.go:262-290 | One pass of the worker: stop, wait, or take the next chunk of the spool |
| `LogSink.JobLogSink.Confirm` | backend/runner/pkg/artifact/log_uploader.go:300-306 | An acknowledged chunk moves the offset and the sequence number by exactly that chunk |
| `LogSink.JobLogSink.Drain` | backend/runner/pkg/artifact/log_uploader.go:256-311 | What the closing worker sends is the rest of the spool, in order, without gaps, in chunks of bounded size, numbered consecutively |
| `LogSink.JobLogSink.Completion` | backend/runner/pkg/artifact/log_uploader.go:176-200 | The completion request has the last sequence number, and the length and the hash of the whole spool |
| `LogProtocol.InvariantHolds` | backend/runner/pkg/artifact/log_uploader.go:160-339 | In every run with lost, delayed and repeated requests and restarts of either side, every message describes a piece of the spool at its place in the log |
| `LogProtocol.ReceivedStaysPrefix` | backend/artifact-manager/pkg/upload/log_store.go:195-260 | A chunk that arrives at any time, however old, leaves the committed log an initial part of the spool |
| `LogProtocol.CommittedIsPrefixOfSpool` | backend/runner/pkg/artifact/log_uploader.go:160-339 | At every moment of every run the committed log is an initial part of the spool |
| `LogProtocol.CommittedIsForEver` | backend/artifact-manager/pkg/upload/log_store.go:195-260 | Committed chunks are never lost, changed or reordered |
| `LogProtocol.AcknowledgedIsCommitted` | backend/runner/pkg/artifact/log_uploader.go:314-339 | An acknowledged chunk is in the log at its number at every later moment |
| `LogProtocol.RepeatIsAccepted` | backend/artifact-manager/pkg/upload/log_store.go:195-232 | In every run, a chunk that the unfinished log holds at its number is accepted whenever it arrives again, and the log stays as it is |
| `LogProtocol.ServerNeverAhead` | backend/runner/pkg/artifact/log_uploader.go:237-243 | The sink never finds the server ahead of its spool |
| `LogProtocol.CompletionDeliversSpool` | backend/runner/pkg/artifact/log_uploader.go:160-204 | When a drained sink receives the success of its completion, the artifact holds the whole spool, each byte once and in order |
| `LogProtocol.DrainedDescribesLog` | backend/runner/pkg/artifact/log_uploader.go:176-200 | In every run, when the sink has drained, the committed log is the whole spool, and the completion request has its last number, length and hash |
| `LogProtocol.DrainedCompletionIsAccepted` | backend/runner/pkg/artifact/log_uploader.go:176-204 | In every run, the completion of a drained sink that is answered, with neither manifest nor seal, is accepted and finishes the log with the whole spool |
| `LogProtocol.QuietNetworkDelivers` | backend/runner/pkg/artifact/log_uploader.go:160-311 | From wherever a run has got to, a closing sink in step with its log delivers the whole spool and completes it, if nothing more is lost |
| `LogProtocol.FinishedIsFinal` | backend/artifact-manager/pkg/upload/log_store.go:379-388 | A finished log never changes again |
| `LogInJob.CompletionsAgree` | backend/artifact-manager/pkg/upload/log_store.go:447-478 | The log store and the upload store model the same completion: after each write the upload store sees exactly what the log files show |
| `LogInJob.RecoveriesAgree` | backend/artifact-manager/pkg/upload/log_store.go:81-113 | Both models recover an interrupted completion to the same artifact or the same open log |
| `LogInJob.AppendsAgree` | backend/artifact-manager/pkg/upload/log_store.go:233-260 | Wherever an append stops, the upload store sees the log as it was or grown by exactly that chunk |
| `Release.StepKeeps` | backend/artifact-manager/pkg/release/manager.go:96-508 | Every lock section, file operation, process stop and start keeps the invariant of disk, cache, queue, workers and clean-ups |
| `Release.SubmitKeeps` | backend/artifact-manager/pkg/release/manager.go:96-171 | Submission keeps the invariant, also when its write fails or the process stops around it |
| `Release.FinishKeeps` | backend/artifact-manager/pkg/release/manager.go:237-266 | The end of a materialisation keeps the invariant: a durable failure, or a durable checkpoint to activate from |
| `Release.PointKeeps` | backend/artifact-manager/pkg/release/manager.go:278-325 | Pointing `current` at a prepared release of an active build is safe before its record says ready |
| `Release.ActivateKeeps` | backend/artifact-manager/pkg/release/manager.go:278-336 | Activation keeps the invariant wherever it fails or stops |
| `Release.DeleteKeeps` | backend/artifact-manager/pkg/release/manager.go:373-398 | Deletion keeps the invariant and never takes the current release |
| `Release.HistoryKeeps` | backend/artifact-manager/pkg/release/retention.go:24-55 | History clean-up keeps the invariant and never takes the current release or one being cleaned up |
| `Release.MoveKeeps` | backend/artifact-manager/pkg/release/manager.go:400-418 | The half of a removal outside the lock keeps the invariant, also when the directory is gone and its deletion fails |
| `Release.EraseKeeps` | backend/artifact-manager/pkg/release/manager.go:418-429 | The half of a removal under the lock keeps the invariant |
| `Release.EmptyKeeps` | backend/artifact-manager/pkg/release/cleanup.go:144-165 | A build clean-up that fails half-way through a directory keeps the invariant |
| `Release.UnrecordKeeps` | backend/artifact-manager/pkg/release/cleanup.go:165-183 | A build clean-up may remove the record of a release that is still cached |
| `Release.BootKeeps` | backend/artifact-manager/pkg/release/recovery.go:30-113 | A start that recovers any number of records, and stops anywhere, keeps the invariant |
| `Release.InvariantHolds` | backend/artifact-manager/pkg/release/manager.go:39-71 | The invariant holds at every moment of every run |
| `Release.CurrentNeverDangles` | backend/artifact-manager/pkg/release/manager.go:278-429 | In every run, whenever `current` names a build, its directory is intact and its record is ready, or prepared with only the final write outstanding |
| `Release.CacheAnswersDisk` | backend/artifact-manager/pkg/release/manager.go:477-534 | For every name with no build clean-up begun, the cache holds exactly the persisted unfinished record, and a lookup answers what the disk says |
| `Release.OnlyActivationPoints` | backend/artifact-manager/pkg/release/manager.go:278-336 | Only activation moves `current` |
| `Release.PointsOnlyActiveBuilds` | backend/artifact-manager/pkg/repository/cleanup.go:13-23 | No step points `current` at a build that has a stop marker |
| `Release.StoppedForEver` | backend/artifact-manager/pkg/release/cleanup.go:24-40 | Once StopBuild has answered true, at every later moment no materialiser works for the build, no record of it is being created, and `current` is never pointed at it |
| `Release.RetriedQueues` | backend/artifact-manager/pkg/release/manager.go:456-471 | A periodic retry only lengthens the queue, by visited names that were neither queued nor with a worker, each once; while the queue has room every visited name ends up queued or running |
| `ReleaseWork.WorkIsTaken` | backend/artifact-manager/pkg/release/manager.go:177-205 | What a worker takes is removed exactly when its record is being deleted, activated exactly when it is prepared, and materialised exactly when it is being created |
| `ReleaseWork.RemovalCompletes` | backend/artifact-manager/pkg/release/manager.go:400-429 | From every reachable state, a deleted release at the head of the queue is gone after its removal: record, cache entry and directory |
| `ReleaseWork.ActivationCompletes` | backend/artifact-manager/pkg/release/manager.go:278-336 | From every reachable state, a worker that activates a prepared release of an active build makes its record ready and `current` name it |
| `ReleaseWork.MakingCompletes` | backend/artifact-manager/pkg/release/manager.go:177-266 | From every reachable state, a worker that takes a release being created, of an active build and not yet published, makes it live |
| `ReleaseWork.StartChangesOnly` | backend/artifact-manager/pkg/release/recovery.go:49-107 | A start changes a record only when it is being created and has its directory, or is prepared and `current` names it, and its build is not stopped, and says to what |
| `ReleaseWork.CleanedBuildIsGone` | backend/artifact-manager/pkg/release/cleanup.go:44-183 | When a build clean-up ends as complete, no record, release directory or `current` link of the build is left |
| `ReleaseContent.StepKeepsContent` | backend/artifact-manager/pkg/release/manager.go:96-508 | Every step keeps each release directory with the record it was made for, except for builds whose stop is confirmed |
| `ReleaseContent.StartAcceptsPublished` | backend/artifact-manager/pkg/release/recovery.go:49-107 | A start accepts every release whose directory was published before the process stopped: it becomes prepared with the digest of its files, and what is left to do is to activate it |
| `ReleaseContent.StepGoes` | backend/artifact-manager/pkg/release/manager.go:237-429 | Every change that a step makes to a record, its directory or its worker is one of the listed ones |
| `ReleaseContent.NeverRebuilt` | backend/artifact-manager/pkg/release/manager.go:177-235 | An accepted release, or one whose failure is final, is never created or materialised again while its record is there, whatever stops and starts |
| `ReleaseContent.AcceptedExactly` | backend/artifact-manager/pkg/release/manager.go:237-266 | A published release whose record is still being created is accepted exactly when the worker that published it writes its result or the process starts; once that write has failed, exactly when the process starts before a second materialiser ends or a deletion |
| `ReleaseContent.RebuildFails` | backend/artifact-manager/pkg/release/materialize.go:155-158 | For every request there is a run in which the release is published whole and yet ends as failed for good, because the write of its result fails and the retry finds the directory in place |
| `ReleaseContent.FailedForGood` | backend/artifact-manager/pkg/release/recovery.go:49-52 | A release whose failure is final stays failed, also over starts, until it is deleted or its build is cleaned up |
| `ReleaseManager.Releases.RecordOf` | backend/artifact-manager/pkg/release/manager.go:503-534 | A lookup answers the cached record, or else the file at the known path |
| `ReleaseManager.Releases.Persist` | backend/artifact-manager/pkg/release/manager.go:477-501 | A record is written, then the cache is brought in line; a record file never moves |
| `ReleaseManager.Releases.Submit` | backend/artifact-manager/pkg/release/manager.go:96-171 | The reply and the new state are those of the specified decision, for every outcome of the write |
| `ReleaseManager.Releases.Worker` | backend/artifact-manager/pkg/release/manager.go:177-235 | A worker takes the head of the queue, removes it when it is being deleted, activates it when it is prepared, materialises it when it is being created, and drops it otherwise or when it has a worker |
| `ReleaseManager.Releases.Place` | backend/artifact-manager/pkg/release/materialize.go:155-163 | Refines the rename of a materialiser: the directory is put in place, or a directory found there is a conflict |
| `ReleaseManager.Releases.Finish` | backend/artifact-manager/pkg/release/manager.go:237-266 | Refines the end of a materialisation |
| `ReleaseManager.Releases.Activate` | backend/artifact-manager/pkg/release/manager.go:278-336 | Refines activation; it reports success exactly when link and record are written |
| `ReleaseManager.Releases.Delete` | backend/artifact-manager/pkg/release/manager.go:373-398 | Refines deletion; in use exactly when `current` names the release |
| `ReleaseManager.Releases.Move` | backend/artifact-manager/pkg/release/manager.go:400-418 | Refines the half of a removal outside the lock |
| `ReleaseManager.Releases.Erase` | backend/artifact-manager/pkg/release/manager.go:418-429 | Refines the half under the lock |
| `ReleaseManager.Releases.RetryPending` | backend/artifact-manager/pkg/release/manager.go:456-471 | Visits exactly the unfinished work but for prepared releases of stopped builds, and queues it as the specified visits do; while the queue has room none of it is left out |
| `ReleaseManager.Releases.CleanupHistory` | backend/artifact-manager/pkg/release/retention.go:44-54 | Refines the deletion of one expired release |
| `ReleaseManager.Releases.StopBuild` | backend/artifact-manager/pkg/release/cleanup.go:24-40 | The marker is durable before the answer; true only when both managers have drained |
| `ReleaseManager.Releases.BeginBuildCleanup` | backend/artifact-manager/pkg/release/cleanup.go:93-124 | Refines the reservation of a build |
| `ReleaseManager.Releases.CheckBuildCurrent` | backend/artifact-manager/pkg/release/cleanup.go:126-142 | Refines the check that `current` does not name the build |
| `ReleaseManager.Releases.RemoveBuildDirectory` | backend/artifact-manager/pkg/release/cleanup.go:144-165 | Refines the removal of one directory, which may leave anything behind when it fails |
| `ReleaseManager.Releases.EndBuildCleanup` | backend/artifact-manager/pkg/release/cleanup.go:72-91 | Refines the end of a clean-up: only a complete one evicts the build |
| `ReleaseManager.Releases.RecoverRecord` | backend/artifact-manager/pkg/release/recovery.go:49-107 | Recovery of one record, in one or two writes, ends in the specified record |
| `ReleaseManager.Releases.Recover` | backend/artifact-manager/pkg/release/recovery.go:30-47 | A start recovers every record and fills the cache with the unfinished ones |
| `RepositorySafety.StepKeeps` | backend/artifact-manager/pkg/repository/manager.go:239-536 | Every lock section, file operation, process stop and start keeps the invariant of disk, cache, kept results, queue and workers |
| `RepositorySafety.HeadIsFree` | backend/artifact-manager/pkg/repository/manager.go:341-356 | The head of the queue is unfinished, idle, without a kept result, and without content if it is being created: no queue entry is ever stale |
| `RepositorySafety.SubmitKeeps` | backend/artifact-manager/pkg/repository/manager.go:239-328 | Submission keeps the invariant, also when its write fails |
| `RepositorySafety.FinishKeeps` | backend/artifact-manager/pkg/repository/manager.go:389-434 | The end of a materialisation keeps the invariant, also when the result cannot be written |
| `RepositorySafety.DeleteKeeps` | backend/artifact-manager/pkg/repository/manager.go:481-505 | Deletion keeps the invariant, also while the version is being materialised |
| `RepositorySafety.MoveKeeps` | backend/artifact-manager/pkg/repository/manager.go:507-527 | Removal of the content keeps the invariant |
| `RepositorySafety.EraseKeeps` | backend/artifact-manager/pkg/repository/manager.go:527-536 | Removal of the record keeps the invariant |
| `RepositorySafety.WipeKeeps` | backend/artifact-manager/pkg/repository/cleanup.go:72-97 | A build clean-up that stops half-way keeps the invariant |
| `RepositorySafety.BootKeeps` | backend/artifact-manager/pkg/repository/manager.go:70-125 | A start keeps the invariant; afterwards a version that is still being created has no content |
| `RepositorySafety.InvariantHolds` | backend/artifact-manager/pkg/repository/manager.go:37-68 | The invariant holds at every moment of every run |
| `RepositorySafety.OneWorkerPerVersion` | backend/artifact-manager/pkg/repository/manager.go:341-387 | At most one worker acts on a version at a time, so removal never overlaps materialisation |
| `RepositoryContent.ReadyIsDurable` | backend/artifact-manager/pkg/repository/manager.go:155-199 | A version is reported ready only when its record is ready on disk and its content is there: what was published for its request, with the recorded digest, unless the stop of its build is confirmed |
| `RepositoryContent.StepKeepsReady` | backend/artifact-manager/pkg/repository/manager.go:239-536 | Every step keeps the content of every ready version, except for builds whose stop is confirmed |
| `RepositorySafety.ContentStays` | backend/artifact-manager/pkg/repository/manager.go:239-536 | Content goes only by removal of a version being deleted or by the clean-up of its build |
| `RepositorySafety.MaterialisedOnce` | backend/artifact-manager/pkg/repository/manager.go:341-462 | Published content stays as it is and its version is never materialised again until it is removed, whatever writes fail and however often the process restarts |
| `RepositorySafety.StartAcceptsPublished` | backend/artifact-manager/pkg/repository/manager.go:70-97 | A start accepts every version that was published before the process stopped |
| `RepositorySafety.KeptResultIsWritten` | backend/artifact-manager/pkg/repository/manager.go:428-462 | A kept result is recorded later exactly as the worker produced it |
| `RepositorySafety.StoppedForEver` | backend/artifact-manager/pkg/repository/cleanup.go:26-68 | Once StopBuild has answered true, no version of the build is ever created or materialised again |
| `RepositoryWork.WorkIsTaken` | backend/artifact-manager/pkg/repository/manager.go:341-372 | What a worker takes is removed exactly when its record is being deleted, and materialised, with its base exactly when that is ready, when it is being created |
| `RepositoryWork.RemovalCompletes` | backend/artifact-manager/pkg/repository/manager.go:507-536 | From every reachable state, a deleted version at the head of the queue is gone after its removal: record, cache entry and content |
| `RepositoryWork.MakingCompletes` | backend/artifact-manager/pkg/repository/manager.go:341-426 | From every reachable state, a worker that takes a version being created, whose base is ready, publishes it and makes its record ready |
| `RepositoryWork.StartChangesOnly` | backend/artifact-manager/pkg/repository/manager.go:70-97 | A start changes exactly the records that are being created and have their content: they become ready |
| `RepositoryWork.CleanedBuildIsGone` | backend/artifact-manager/pkg/repository/cleanup.go:72-98 | When a build clean-up ends as complete, nothing of the build is left, on disk or in memory, but its stop marker |
| `RepositoryManager.Repositories.Submit` | backend/artifact-manager/pkg/repository/manager.go:239-328 | The reply and the new state are those of the specified decision, for every outcome of the write |
| `RepositoryManager.Repositories.Worker` | backend/artifact-manager/pkg/repository/manager.go:341-387 | Refines taking the head of the queue, with the check of the base |
| `RepositoryManager.Repositories.Finish` | backend/artifact-manager/pkg/repository/manager.go:389-434 | Refines the end of a materialisation: the result is kept until its record is written |
| `RepositoryManager.Repositories.RetryPending` | backend/artifact-manager/pkg/repository/manager.go:450-462 | Visits every unfinished version by the specified step: a kept result leaves memory only for the disk, unchanged, and while the queue has room all other unfinished work ends up queued or running |
| `RepositoryManager.Repositories.Delete` | backend/artifact-manager/pkg/repository/manager.go:481-505 | Refines deletion |
| `RepositoryManager.Repositories.Move` | backend/artifact-manager/pkg/repository/manager.go:507-527 | Refines the half of a removal outside the lock |
| `RepositoryManager.Repositories.Erase` | backend/artifact-manager/pkg/repository/manager.go:527-536 | Refines the half under the lock |
| `RepositoryManager.Repositories.HasWork` | backend/artifact-manager/pkg/repository/cleanup.go:61-67 | Finds unfinished work of a build exactly when there is some |
| `RepositoryManager.Repositories.StopBuild` | backend/artifact-manager/pkg/repository/cleanup.go:26-68 | The marker is durable before the answer; true only when the accepted work has finished |
| `RepositoryManager.Repositories.BeginBuildCleanup` | backend/artifact-manager/pkg/repository/cleanup.go:104-125 | Refines the reservation of a build |
| `RepositoryManager.Repositories.RemoveBuildFiles` | backend/artifact-manager/pkg/repository/cleanup.go:78-94 | Removes everything of one scope; a failure may leave any part of it, and nothing else changes |
| `RepositoryManager.Repositories.EndBuildCleanup` | backend/artifact-manager/pkg/repository/cleanup.go:126-145 | Refines the end of a clean-up |
| `RepositoryManager.Repositories.Recover` | backend/artifact-manager/pkg/repository/manager.go:70-125 | A start accepts what was published and fills the cache with the unfinished records |
| `UploadSafety.BeginKeepsStore` | backend/artifact-manager/pkg/upload/artifact_store.go:240-370 | Beginning an upload keeps the store sound: a restarted or new upload has its path, key and name to itself |
| `UploadSafety.CompleteKeepsStore` | backend/artifact-manager/pkg/upload/artifact_store.go:372-401 | Completing an upload keeps the store sound wherever it fails or stops |
| `UploadSafety.FailKeepsStore` | backend/artifact-manager/pkg/upload/artifact_store.go:409-413 | A failure report keeps the store sound and only ever reaches an artifact that is still as the request left it, pending and without content |
| `UploadSafety.RecoverKeepsStore` | backend/artifact-manager/pkg/upload/artifact_store.go:126-150 | Recovery of a pending upload keeps the store sound and sets no content aside |
| `UploadSafety.LogCompleteKeepsStore` | backend/artifact-manager/pkg/upload/log_store.go:372-480 | Completing the log, cut off after any file operation, keeps the store sound |
| `UploadSafety.LogRecoverKeepsStore` | backend/artifact-manager/pkg/upload/log_store.go:81-113 | Recovery of a sound log never declares it broken |
| `UploadSafety.SameList` | backend/artifact-manager/pkg/upload/manifest_store.go:93-106 | A request that continues an interrupted sealing has brought exactly the list of the seal record |
| `UploadSafety.StepKeeps` | backend/artifact-manager/pkg/upload/manifest_store.go:68-267 | Every lock section, file operation, process stop and step of a start keeps the invariant of store, seal, signed files and manifest |
| `UploadSafety.InvariantHolds` | backend/artifact-manager/pkg/upload/artifact_store.go:34-48 | The invariant holds at every moment of every run |
| `UploadSafety.CompletedForEver` | backend/artifact-manager/pkg/upload/artifact_store.go:240-413 | A completed artifact keeps its path, size and hash, and its content is there, at every later moment of every run |
| `UploadSafety.SealedForEver` | backend/artifact-manager/pkg/upload/manifest_store.go:88-204 | From the moment the seal record is written nothing of the job is pending, and no artifact and no file is added, changed or removed |
| `UploadSafety.ListedStaysCompleted` | backend/artifact-manager/pkg/upload/manifest_store.go:171-204 | Every listed file stays a completed artifact with that path, size and hash, and its content matches |
| `UploadSafety.OneManifest` | backend/artifact-manager/pkg/upload/manifest_store.go:68-167 | A job gets at most one manifest, and its upload digest is that of the first accepted list |
| `UploadSafety.SameEntriesSameManifest` | backend/artifact-manager/pkg/upload/manifest_store.go:73-101 | Once a job is sealed, a request matches its seal or its manifest exactly when it brings the entries of the accepted list, in whatever order |
| `UploadSafety.SavedEntriesArePublished` | backend/artifact-manager/pkg/upload/manifest_store.go:206-267 | Every signed entry saved in the seal record appears unchanged in the manifest |
| `UploadSafety.ManifestDescribesContent` | backend/artifact-manager/pkg/upload/artifact_store.go:469-490 | The manifest describes the served content exactly, and a signed package is the uploaded one |
| `UploadSafety.RequestsAreAlone` | backend/artifact-manager/pkg/server/artifact_handler.go:135-177 | Two upload requests never work for the same artifact; one that may still report a failure has an artifact that is pending and without content |
| `UploadWork.ToldToSend` | backend/artifact-manager/pkg/upload/artifact_store.go:271-370 | In every reachable state, a request is told to send its content exactly when the job is not sealed, no live artifact has the path, and the key is new and there is room, or the key's artifact failed with the same metadata |
| `UploadWork.ToldItIsThere` | backend/artifact-manager/pkg/upload/artifact_store.go:287-318 | In every reachable state, a request is answered without sending exactly when its artifact was declared the same and the content is there; once the job is sealed, when the artifact is completed |
| `UploadWork.RefusalSaysWhy` | backend/artifact-manager/pkg/upload/artifact_store.go:302-345 | On an unsealed job each refusal is given exactly for its cause: different metadata, an upload in progress, a taken path, a full job |
| `UploadWork.UploadsAreUnreserved` | backend/artifact-manager/pkg/upload/artifact_store.go:240-270 | In every run, no upload has a path that the store keeps for itself |
| `UploadWork.TakenUploadCompletes` | backend/artifact-manager/pkg/upload/artifact_store.go:319-401 | From every reachable state, a request that may be told to send, and sends what it declared, completes its upload |
| `UploadWork.FailedUploadIsRetried` | backend/artifact-manager/pkg/upload/artifact_store.go:311-333 | From every reachable state, an upload whose request reports a failure is told to send its content when it is requested again with the same key and metadata, and then completes |
| `UploadWork.StrandedContentIsFound` | backend/artifact-manager/pkg/upload/artifact_store.go:403-407 | From every reachable state, a refused request whose content is in place after all ends well, and the same request again is answered without sending and leaves the artifact completed |
| `UploadWork.StartComesUp` | backend/artifact-manager/pkg/upload/artifact_store.go:80-150 | From every reachable state of a stopped process, recovering the pending uploads brings the store up, with those whose content is there completed, the others failed, and nothing else changed |
| `UploadWork.SealingPublishes` | backend/artifact-manager/pkg/upload/manifest_store.go:117-169 | From every reachable state in which a request is sealing, also after an interruption, signing what is left and ending publishes the manifest of its list |
| `UploadWork.JobIsPublished` | backend/artifact-manager/pkg/upload/manifest_store.go:68-169 | From every reachable state of an unsealed job without pending uploads, a list of completed artifacts seals it, and the job gets a manifest with the digest of that list |
| `UploadStore.JobStore.FindKey` | backend/artifact-manager/pkg/upload/artifact_store.go:274-285 | Finds the one artifact with an idempotency key, or that two have it |
| `UploadStore.JobStore.HasConflict` | backend/artifact-manager/pkg/upload/artifact_store.go:313-317 | Finds another live artifact of a path exactly when there is one |
| `UploadStore.JobStore.BeginUpload` | backend/artifact-manager/pkg/upload/artifact_store.go:240-370 | A request is answered by the specified decision; told to send, it is at work on a pending artifact of its key and metadata; content in place is recorded as completed |
| `UploadStore.JobStore.CompleteUpload` | backend/artifact-manager/pkg/upload/artifact_store.go:372-401 | Refines completion: rename, then record |
| `UploadStore.JobStore.UploadCommitted` | backend/artifact-manager/pkg/upload/artifact_store.go:403-407 | Says whether the committed content matches what was declared |
| `UploadStore.JobStore.FailUpload` | backend/artifact-manager/pkg/upload/artifact_store.go:409-413 | Refines the failure report |
| `UploadStore.JobStore.CompleteLog` | backend/artifact-manager/pkg/upload/log_store.go:389-480 | Refines completion of the log, operation by operation |
| `UploadStore.JobStore.RecoverLog` | backend/artifact-manager/pkg/upload/log_store.go:86-113 | Refines recovery of the log metadata |
| `UploadStore.JobStore.RecoverArtifact` | backend/artifact-manager/pkg/upload/artifact_store.go:126-150 | Refines recovery of one pending upload |
| `UploadStore.JobStore.Load` | backend/artifact-manager/pkg/upload/artifact_store.go:80-124 | A start is a series of recovery steps, artifacts first and then the log; when it succeeds no upload is pending and the log is recovered; nothing but the state of pending artifacts changes |
| `UploadStore.JobStore.ValidateSealInput` | backend/artifact-manager/pkg/upload/manifest_store.go:171-204 | Accepts exactly the lists of distinct completed artifacts of a job with nothing pending |
| `UploadStore.JobStore.BeginSeal` | backend/artifact-manager/pkg/upload/manifest_store.go:68-130 | Sorts the list and refines the first lock section of sealing; repeats the manifest exactly for the same digest |
| `UploadStore.JobStore.PublishSigned` | backend/artifact-manager/pkg/upload/sealing.go:204-278 | A signed copy is linked only where none is, and only for the same package |
| `UploadStore.JobStore.RecordSigned` | backend/artifact-manager/pkg/upload/manifest_store.go:228-243 | Refines saving one signed entry |
| `UploadStore.JobStore.VerifyFinal` | backend/artifact-manager/pkg/upload/manifest_store.go:250-266 | Accepts exactly when every file to be published matches its entry |
| `UploadStore.JobStore.FinishSeal` | backend/artifact-manager/pkg/upload/manifest_store.go:136-168 | Refines the last lock section of sealing |
| `ManifestText.DigestManifest` | backend/artifact-manager/pkg/upload/manifest_store.go:20-29 | Sorts the list by path and hashes the header and one line per file |
| `ManifestText.SortedIsOrdered` | backend/artifact-manager/pkg/upload/manifest_store.go:21-22 | Sorting puts the same entries in the order of their paths |
| `ManifestText.OrderDoesNotMatter` | backend/artifact-manager/pkg/upload/manifest_store.go:20-29 | The order in which a list without a repeated path is given does not matter |
| `ManifestText.LineUnique` | backend/artifact-manager/pkg/upload/manifest_store.go:25-27 | A line is read back unambiguously, whatever follows it |
| `ManifestText.ManifestDigestUnique` | backend/artifact-manager/pkg/upload/manifest_store.go:20-29 | Two lists of well-named files have the same digest only when they have the same entries |
| `ManifestText.ManifestDigestExact` | backend/artifact-manager/pkg/upload/manifest_store.go:20-29 | For a list without a repeated path, another list has the same digest exactly when it is a rearrangement of it |
| `Contents.LinkRPMDirectory` | backend/artifact-manager/pkg/repository/materialize.go:330-361 | Accepts exactly the bases whose files match their index, and keeps exactly the entries whose spec is not replaced |
| `Contents.PassesMeansAgrees` | backend/artifact-manager/pkg/repository/materialize.go:111-137 | The checks of the merge loop decide exactly whether an input agrees with everything before it |
| `Contents.AddInput` | backend/artifact-manager/pkg/repository/materialize.go:111-138 | One pass of the merge loop succeeds exactly when the input agrees with everything before it |
| `Contents.AddInputs` | backend/artifact-manager/pkg/repository/materialize.go:106-138 | The merge succeeds exactly when no two packages disagree, and then adds exactly the batch |
| `Contents.Materialize` | backend/artifact-manager/pkg/repository/materialize.go:66-138 | A new version is the base without the replaced specs plus the batch, or a conflict |
| `Contents.MergedIsSound` | backend/artifact-manager/pkg/repository/materialize.go:84-138 | A merge keeps identities unique and the files matching the index |
| `Contents.MergesExactly` | backend/artifact-manager/pkg/repository/materialize.go:84-138 | A merge succeeds exactly when some sound version holds the batch together with what the base has of other specs |
| `Contents.ChainIsLatest` | backend/artifact-manager/pkg/repository/materialize.go:66-138 | A chain of versions contains exactly, for each spec, the packages of the last batch containing it; identities are unique and files match the index |
| `Contents.BuildsExactly` | backend/artifact-manager/pkg/repository/materialize.go:66-138 | A chain is built without conflict exactly when, at each of its lengths, the packages of the last batches fit together in a sound version |
| `Contents.SelectPackages` | backend/artifact-manager/pkg/release/materialize.go:67-92 | A release selects exactly the packages whose spec is not excluded, or finds an entry without a proper file |
| `Contents.SelectedIsRest` | backend/artifact-manager/pkg/release/materialize.go:67-92 | A release contains exactly the packages of its source whose spec is not excluded, and is sound |
| `Contents.SelectsExactly` | backend/artifact-manager/pkg/release/materialize.go:67-92 | Selecting from a sound version fails exactly when a package that it would take has a name that does not end in ".rpm" in lower case |
| `Contents.PublishedIsAccepted` | backend/artifact-manager/pkg/repository/manager.go:81-95 | For every version of every chain and every release selected from one, the digest stored at publication is the one that recovery recomputes from the files |
| `Digests.SumFile` | backend/artifact-manager/pkg/repository/materialize.go:396-416 | The sum of a file is the stored one exactly for a package with a matching entry |
| `Digests.DigestDirectory` | backend/artifact-manager/pkg/repository/materialize.go:369-428 | The digest fails exactly when index and package files do not correspond; otherwise it hashes one line per file |
| `Digests.CountDecides` | backend/artifact-manager/pkg/repository/materialize.go:424-426 | When every package file has an entry, comparing counts decides whether every entry has a file |
| `Digests.StoredSumsAreAccepted` | backend/artifact-manager/pkg/release/materialize.go:236-308 | Reusing true sums gives the digest recomputed from the contents |
| `Digests.DigestDeterminesTree` | backend/artifact-manager/pkg/repository/materialize.go:417-423 | Directories with the same recomputed digest are the same, file by file, in both formats |
| `Digests.VersionUidUnique` | backend/artifact-manager/pkg/repository/manager.go:222-237 | Different projects, builds, bases or jobs never share a repository identifier |
| `GitServer.StepKeeps` | backend/git-server/pkg/repository/manager.go:148-346 | Every request, queue call, worker section and store operation keeps the invariant |
| `GitServer.ConcludeKeeps` | backend/git-server/pkg/repository/manager.go:311-346 | A result counts only for the request it was made for, and never drops a newer one |
| `GitServer.InvariantHolds` | backend/git-server/pkg/repository/manager.go:66-77 | The invariant holds at every moment of every run |
| `GitServer.LatestRequestWins` | backend/git-server/pkg/repository/manager.go:148-346 | A quiet key is not pending and shows its last accepted request, unless an error says why not; an error that may be retried stands only when all retries are used |
| `GitServer.RetriesAreUsed` | backend/git-server/pkg/repository/manager.go:311-346 | In every run, a request whose error may be retried has used all its retries or is still in motion: queued, delayed, with a worker, or about to be added |
| `GitServer.ServedMayBeRetried` | backend/git-server/pkg/repository/manager.go:311-346 | A request that is no longer pending may still be retried: an accepted request that was overtaken brings a served key to a worker again, and that failure is retried |
| `GitServer.SuccessServes` | backend/git-server/pkg/repository/manager.go:245-346 | From every reachable state, a worker that takes the request of a key and succeeds leaves it served, without error and not pending |
| `GitServer.FailureRetries` | backend/git-server/pkg/repository/manager.go:311-346 | From every reachable state, a worker that fails with an error that may be retried, with retries left, leaves the request as pending as it was and brings the key back to the queue with one retry counted |
| `GitServer.OneWorkerPerKey` | backend/git-server/pkg/repository/manager.go:245-346 | At most one worker processes a key, and no request is retried more often than allowed |
| `GitManager.Manager.Sync` | backend/git-server/pkg/repository/manager.go:148-176 | Refines a sync request; a pending one is not repeated |
| `GitManager.Manager.Delete` | backend/git-server/pkg/repository/manager.go:178-201 | Refines a delete request |
| `GitManager.Manager.TakeSnapshot` | backend/git-server/pkg/repository/manager.go:257-266 | Refines the first section of a worker |
| `GitManager.Manager.Operate` | backend/git-server/pkg/repository/manager.go:271-285 | Refines the operation, which may have its effect even when it fails |
| `GitManager.Manager.Conclude` | backend/git-server/pkg/repository/manager.go:311-346 | A current failure that may be retried, with retries left, stays pending and is retried; any other current end settles the request; an outdated one changes only what is available |
| `Sealer.PassKeeps` | backend/artifact-manager/pkg/upload/sealing.go:129-154 | Each pass keeps at most `workers` tasks out and decreases 2*(len-next)+pending |
| `Sealer.NeverTooMany` | backend/artifact-manager/pkg/upload/sealing.go:126-154 | At no moment are more tasks out than there are workers |
| `Sealer.NilExactly` | backend/artifact-manager/pkg/upload/sealing.go:114-163 | On return nothing is out; the result is nil exactly when every task ran and succeeded and no pass found the request cancelled |
| `Sealer.SuccessIsNotNil` | backend/artifact-manager/pkg/upload/sealing.go:130-132 | A request whose only task succeeds still reports an error when it is cancelled while that task runs |
| `Sealer.ErrorSaysWhy` | backend/artifact-manager/pkg/upload/sealing.go:128-163 | The error is the first that happened and nothing is submitted after it: a refusal of the pool while nothing is out, a cancellation, or a failed task |
| `Sealer.UndisturbedOutcome` | backend/artifact-manager/pkg/upload/sealing.go:114-163 | A request that is not cancelled, and whose tasks the pool takes, returns nil exactly when no task that it ran failed, and then it ran all of them |
| `Sealer.WaitsOnlyWhenFull` | backend/artifact-manager/pkg/upload/sealing.go:133-154 | A pass waits only when it cannot submit: an error is known, all tasks are submitted, as many are out as there are workers, or the pool refuses |
| `Sealer.Passes` | backend/artifact-manager/pkg/upload/sealing.go:128-163 | The loop returns the error and the endings that the specified passes yield, and stops by the measure 2*(len-next)+pending |
| `Sealer.Run` | backend/artifact-manager/pkg/upload/sealing.go:114-163 | The loop itself: it terminates, drains what it submitted, and returns nil under exactly that condition |
| `Sealer.StepKeepsPool` | backend/artifact-manager/pkg/upload/sealing.go:59-104 | Every step of requests, workers and closing keeps each task in one place |
| `Sealer.SendsOnlyOnOpenQueue` | backend/artifact-manager/pkg/upload/sealing.go:94-104 | Closing never makes a request send on the closed queue |
| `Sealer.LeavesNothingBehind` | backend/artifact-manager/pkg/upload/sealing.go:113-125 | When a request has returned, no worker and no queue entry holds a task of it |
| `Sealer.ReportsNeverBlock` | backend/artifact-manager/pkg/upload/sealing.go:126-126 | The report channel of a request never fills, and its request is always there to read it |
| `Sealer.SigningPool.TrySubmit` | backend/artifact-manager/pkg/upload/sealing.go:133-138 | Refines a send that does not wait; the queue is open |
| `Polling.CollectedIsList` | backend/controller-manager/pkg/source/polling.go:143-162 | A collected snapshot holds exactly the listed items, each under its own key |
| `Polling.CollectedExactly` | backend/controller-manager/pkg/source/polling.go:143-162 | A list is accepted exactly when every element is readable, with name, UID and resource version, and no two have the same key |
| `Polling.KeysDiffer` | backend/controller-manager/pkg/source/polling.go:153-156 | Objects of different namespaces or names have different keys, as long as neither contains a slash |
| `Polling.ListedExactly` | backend/controller-manager/pkg/source/polling.go:132-167 | A list arrives exactly when some page is the last one and all pages up to it arrive, and then has exactly the elements of these pages |
| `Polling.PollingSource.CollectPage` | backend/controller-manager/pkg/source/polling.go:143-162 | One page extends the snapshot, or is an error exactly when an element is unreadable or repeated |
| `Polling.PollingSource.List` | backend/controller-manager/pkg/source/polling.go:132-167 | Listing succeeds exactly when all pages arrive and the list has a snapshot |
| `Polling.PollingSource.Scan` | backend/controller-manager/pkg/source/polling.go:132-176 | A failing scan changes nothing; a successful one emits exactly the due events of every key |
| `Polling.PollingSource.Dispatch` | backend/controller-manager/pkg/source/polling.go:178-197 | Each key sees exactly the events due between the two snapshots |
| `Polling.DueReplays` | backend/controller-manager/pkg/source/polling.go:184-196 | The events due for a key turn what it held into what it holds; a change of UID is a delete and an add |
| `Polling.EventsSayWhat` | backend/controller-manager/pkg/source/polling.go:178-197 | An object, told apart by its UID, is added exactly when it was not there and is, deleted exactly when it was and is not, updated exactly when it was and is; each is told of once, a deletion before an addition |
| `Polling.DispatchedIsValid` | backend/controller-manager/pkg/source/polling.go:178-197 | Over any series of scans each key has events of the form (Add Update* Delete)* that end in the snapshot |
| `Polling.HandlerHoldsSnapshot` | backend/controller-manager/pkg/source/polling.go:178-197 | A handler that applies every event holds exactly the snapshot |
| `LabelCodec.Encode` | backend/controller-manager/pkg/labelcodec/codec.go:10-31 | The loop computes the specified encoding |
| `LabelCodec.Decode` | backend/controller-manager/pkg/labelcodec/codec.go:34-70 | The loop accepts exactly the specified values |
| `LabelCodec.RoundTrip` | backend/controller-manager/pkg/labelcodec/codec.go:10-70 | Decoding the encoding of a non-empty name gives the name back |
| `LabelCodec.AcceptedIsImage` | backend/controller-manager/pkg/labelcodec/codec.go:34-70 | A value is accepted with a result exactly when it is the encoding of that non-empty result |
| `LabelCodec.EncodedUnique` | backend/controller-manager/pkg/labelcodec/codec.go:7-9 | Different names have different encodings |
| `LabelCodec.EncodedIsLabel` | backend/controller-manager/pkg/labelcodec/codec.go:7-31 | An encoding uses only label characters and starts and ends with a letter or a digit |
| `LabelCodec.PlainNamesStay` | backend/controller-manager/pkg/labelcodec/codec.go:10-31 | A name is its own label exactly when it has only letters, digits, dashes and dots, starts with a letter or digit other than X, and ends with a letter or digit |
| `LabelCodec.EscapesAreHex` | backend/controller-manager/pkg/labelcodec/codec.go:5-31 | An escaped byte is an underscore and two upper-case hexadecimal digits, with an X in front at the start |
| `Buckets.Buckets.Allow` | backend/ebs-gateway/internal/limit/buckets.go:29-51 | With a clock that does not go back, a call is granted exactly when no window that ends now would have too many grants; it takes one token and changes no other key |
| `Buckets.TokensAreConserved` | backend/ebs-gateway/internal/limit/buckets.go:29-51 | Tokens granted and tokens left come from the capacity and the refill of the time that passed |
| `Buckets.GrantedExactly` | backend/ebs-gateway/internal/limit/buckets.go:29-51 | In every run with a clock that does not go back, a call is granted exactly when, with it, no window that ends with it has more grants of the key than capacity + rate * t |
| `Buckets.FirstIsGranted` | backend/ebs-gateway/internal/limit/buckets.go:29-51 | A key's first call is granted when the capacity is at least one |
| `Buckets.RestedIsGranted` | backend/ebs-gateway/internal/limit/buckets.go:29-51 | A call is granted when at least the time of one token has passed since the key's last call |
| `Buckets.WindowBound` | backend/ebs-gateway/internal/limit/buckets.go:29-51 | With a clock that does not go back, at most capacity + rate * t requests of a key are granted in any window of length t, over every run |

## Left out

- Request decoding, authentication, authorisation, HTTP replies, SSE and multipart parsing; only the order in which an upload request calls the store is kept. Validation of names, locations and symbolic links is taken as done.
- External commands (rpm, createrepo_c, signing, git): functions of their input, or arbitrary success or failure.
- Time stamps, failure messages, attempt counters and metrics; which releases are old enough for retention, whether a job's quota is used up, and when a retry or a flush is due are parameters.
- The job's upload quota as an invariant: a failed upload that is retried is not counted again.
- Live subscription to a log: a chunk that is committed by recovery is never published to subscribers. The server's limit on log size and its deduplication window are not modelled either.
- Eventual sealing: an interrupted log completion can leave a pending log artifact that nothing clears, and then the job can never be sealed.
- Liveness: that any queue is ever served, or that a waiting release is ever taken out of waiting.
- Changed signing keys: the managers' fingerprint comparisons are modelled only for sealing. Power loss and a failing flush after a rename are not modelled.
- The job deletion and the shutdown of the git server, whose callers must first be quiet; handlers of the polling source that panic.
- The runner's checkpoint and index files beside the spool, and the idempotency key of its completion request.
- The delays of the git server's rate limiter; which operation error a failure carries beyond whether it may be retried; the git operations themselves.
- Sorting: entries of a manifest with the same path keep their order, where the order of the library's sort is open; such a list is refused. A directory walk is given sorted by name, which determines it.
- One log and one job per store object; jobs do not share state except the signing pool, which `Sealer` models on its own.
- LogStore.Store.RecoverLog: index lines that are not valid JSON are part of a torn last line or of a corrupt index; no line in the middle is skipped.
- ReleaseManager.Releases.RemoveBuildRecord: temporary directories of the build are not modelled, so their removal is not.
- ReleaseManager.Releases.RetryPending: the order in which the map is visited is arbitrary.
- RepositoryManager.Repositories.RetryPending: the order in which the map is visited is arbitrary.
- Contents.Materialize: the architecture check of the inputs, the inspection of a package and the repository metadata files are not modelled; a package's headers are a function of its name and content.
- Buckets.WindowBound: real numbers stand for floating point, and rate and capacity are not negative, as for every bucket the service makes.
