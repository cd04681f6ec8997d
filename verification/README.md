# Mokibox verification

A Dafny model of mokibox, a short-video service: an API gateway, a single-slot transcoding worker, Postgres,
a Redis-backed queue and an R2 object store. `dafny verify dfyconfig.toml` checks everything.

The project has three parts.

**The video lifecycle protocol.** `Lifecycle` is a state machine of upload-intent, confirm, video and account
deletion, the worker's four handlers, the queue, the object store and the clock. A step is one committed statement
or transaction, one queue call or one object-store call, so a delete can land between any two calls of an attempt.
Failures are labelled outcomes of steps; each theorem names the ones it excludes. `Statuses`, `Retries`,
`Uniqueness`, `OneTask`, `Uploads`, `Liveness`, `Stranding`, `Published`, `Leaks`, `Tombstones`, `Purges` and
`Reconcile` prove what holds over all runs; `Counterexamples` has a run for each fault that must be excluded. `Deployment` is the same
protocol as the programs have it: a class over the shared systems whose methods are the handlers, with any steps of the
others between two calls. Every handler is proved to be a run of the state machine in which each call is taken as it
reported, and its contract says what has become of its row, its task and its objects; `Playback` carries theorems about
runs over to the programs. `Keys` gives the structured keys their text, `ObjectStore` is the batching R2 client, and
`Rendering` proves that what the client does to the text is what the protocol's steps do to the keys.

**Counters and the comment forest.** `CommentForest`, `Counters` and `Social`: likes_count and comments_count
against the rows, through like, unlike, comment, reply, subtree delete, hard delete and account deletion, as functions
with their laws and as the transaction bodies that change the tables in place and roll back.

**Paging, limits and text.** `Paging` and `Cursors` (keyset and offset pagination and the cursors' text),
`RateLimit` (the evicting token-bucket store), `Wildcards` (SQL wildcard escaping), `MediaTokens` and `Playlists`
(the master playlist, written and rewritten), with `Encoding` below them.

## Where the code decides

- `MarkVideoFailed` has no status guard. A tombstone still stays DELETED, but only because the CHECK
  constraint `chk_videos_deleted_at` (migrations/001_init.sql:60-64) refuses to turn a tombstone FAILED;
  `Statuses.FailureSparesTombstones` says so and the protocol is proved with that constraint.
- A comment in account.go says the worker deletes the HLS prefix "when the video row itself is processed". After an
  account deletion the rows are gone, so only the reconcile sweep removes those objects: coverage in `Leaks` is by
  "owner inactive".
- `InsertVideo` stores a key made from an id of its own; the row's id comes from the database. The two agree only
  after a second upload-intent.
- The comment on the cleanup grace says the re-enqueue uses the elapsed time; the code uses the remaining time.
- Deleting the account of a user who is inactive already starts his deleted_at anew, also while a reconcile tick that has
  listed him runs: `Reconcile.TickNamesOnlyLapsedUsers` speaks of the grace period at the time of the listing.
- The gateway's confirm enqueues the transcode task before its transaction commits. The model keeps both orders of
  commit and dequeue; `OneTask.Early` names the bad one and `Stranding.EarlyDequeueStrands` shows what it does.
- DeleteObjects sends one request, and one request carries at most 1000 keys, so a longer cleanup payload fails for ever.

## Model

| member | source | states |
|---|---|---|
| Statuses.Reachable | transcoder-worker/transcode.go:110-421 | In every reachable state rows satisfy the table's CHECKs, only PENDING_UPLOAD rows are locked by a confirm, and the running handler's snapshot of its row still agrees with the table up to a tombstone. |
| Statuses.StatusOnlyAdvances | shared/db/videos.sql.go:16-23 | Over any run and any faults a video never goes back: DELETED is final, READY and FAILED only become DELETED, and a removed id never returns. |
| Statuses.FailureSparesTombstones | shared/db/videos.sql.go:790-794 | The unguarded UPDATE to FAILED is refused exactly for tombstones. |
| Statuses.NeverLocked | api-gateway/handlers/video.go:435-466 | No UPDATE or DELETE of the worker ever waits for a confirm's row lock. |
| Retries.RetriesAreBounded | transcoder-worker/transcode.go:94-103 | In every run, redeliveries included, at most 3 attempts per video start, retry_count is at most 3 and the scheduled back-off adds up to at most 90 seconds. |
| Retries.RetryIsDelayed | transcoder-worker/transcode.go:461-493 | In every run the task comes back exactly 30 n seconds after the n-th attempt for n = 1 and 2, n being the row's retry_count, and is not scheduled again after the third. |
| Uploads.KeysAreUnique | migrations/001_init.sql:41-80 | In every run different rows have different raw keys and a user has at most one PENDING_UPLOAD row. |
| Uploads.DroppedKeyIsNotInUse | api-gateway/handlers/video.go:263-281 | In every run the key whose object a rotation is about to give up is not the key of its video's row. |
| Uniqueness.OneTaskPerVideo | transcoder-worker/transcode.go:461-493 | Unless its own confirm rolls back after the enqueue or its own transcode is redelivered, a video never has two live transcode tasks, and none before its confirm or after READY or FAILED. |
| OneTask.ExactlyOneTask | api-gateway/handlers/video.go:435-522 | If besides its own handler drops nothing and its task is not taken before its confirm commits, a PROCESSING video has exactly one live transcode task, whatever happens to others. |
| Stranding.StrandedIffDropped | transcoder-worker/transcode.go:137-196 | A step that does not duplicate its task leaves a PROCESSING video without a task if and only if its own handler drops it. |
| Stranding.StrandedUntilDeleted | shared/db/videos.sql.go:820-828 | A PROCESSING video without a task stays so until it is deleted, whatever happens. |
| Stranding.EarlyDequeueStrands | api-gateway/handlers/video.go:500-522 | A task taken before its confirm commits strands the video. |
| Liveness.HandlersFinish | transcoder-worker/transcode.go:110-493 | Every handler run ends after finitely many calls, whatever they return. |
| Liveness.WorkerCanStep | transcoder-worker/transcode.go:110-493 | The running handler always has a next call that can happen. |
| Liveness.RankDescends | transcoder-worker/transcode.go:461-493 | No tame step of anybody raises the rank of a PROCESSING video, and every helpful one lowers it. |
| Liveness.NeverStuck | api-gateway/handlers/video.go:435-522 | For every PROCESSING video some helpful step can happen now. |
| Liveness.CanAlwaysFinish | transcoder-worker/transcode.go:110-493 | From every such state a finite tame continuation takes the video out of PROCESSING. |
| Liveness.ProcessingEnds | transcoder-worker/transcode.go:110-493 | In every weakly fair tame infinite run every PROCESSING video becomes READY, FAILED or DELETED, or loses its row. |
| Published.PublishedAssetsAreSafe | transcoder-worker/transcode.go:289-411 | Unless a cleanup of its own media fails or is redelivered or its own transcode task is duplicated, a READY video of an active owner has stored, in every run, every file of the published 480p encode under 480p/, every file of the 720p encode under 720p/, its thumbnail and its master, and no live cleanup names any of them. |
| Published.OnlyFilesArePut | transcoder-worker/transcode.go:309-369 | In every run, faults included, the only hls/ or thumbs/ objects ever put are the files of the running attempt's two encodes, its thumbnail and its master. |
| Model.AssetsAreTheFiles | transcoder-worker/transcode.go:567-596 | The list an attempt uploads holds exactly the files of both encodes under their directories, the thumbnail and the master. |
| Counterexamples.EachFaultLosesAssets | transcoder-worker/transcode.go:295-307 | For each of the four excluded faults - a confirm rolled back after its enqueue, a transcode task delivered twice, a cleanup that fails and is retried, a cleanup delivered twice - a run without any other of them ends with a READY video of an active owner without its 480p playlist. |
| Leaks.NoObjectIsForgotten | transcoder-worker/transcode.go:295-307 | If failed attempts' cleanups are enqueued and no failed put of a variant file stores it, every hls/ and thumbs/ object is always covered: by its row, a live cleanup, the running attempt, or its inactive owner; failed cleanups, rollbacks and redeliveries included. |
| Leaks.StoredPutIsCoveredIffReported | transcoder-worker/transcode.go:567-596 | A put that stores its object and still reports an error leaves it covered if and only if it was not a variant file. |
| Tombstones.HardDeleteAfterGrace | transcoder-worker/cleanup.go:167-222 | A row leaves the table only with its owner's account, or as a tombstone first written at least 24 hours before. |
| Tombstones.PostponedIffRefreshed | transcoder-worker/cleanup.go:164-184 | A cleanup:video task is put off if and only if a later delete refreshed deleted_at and less than 24 hours have passed since. |
| Tombstones.ReenqueuesPaidByRefreshes | transcoder-worker/cleanup.go:164-184 | A cleanup:video task has been re-enqueued at most as often as its tombstone was refreshed. |
| Tombstones.DueAtGraceEnd | transcoder-worker/cleanup.go:164-184 | The re-enqueued task is due at deleted_at + 24h, plus exactly the time between the handler's clock reading and its enqueue. |
| Tombstones.RipeStays | transcoder-worker/cleanup.go:122-184 | A task that could run once stays runnable under any later steps, so a redelivery of it deletes nothing too early. |
| Tombstones.PurgeRuns | transcoder-worker/cleanup.go:186-222 | The undisturbed purge removes exactly the doomed objects and the row. |
| Tombstones.CrashPoints | transcoder-worker/cleanup.go:186-222 | A crash inside any of the purge's calls leaves the row with some doomed objects gone, or everything done. |
| Tombstones.CrashedPurgeIsCompleted | transcoder-worker/cleanup.go:186-222 | From any such state the redelivered task ends in the same rows and objects as the undisturbed run. |
| Tombstones.RowFirstWouldForget | transcoder-worker/cleanup.go:218-222 | Were the row deleted first, a crash would leave objects no redelivery deletes. |
| Purges.TombstoneHasItsPurge | api-gateway/handlers/video.go:593-622 | In every run a tombstone has its cleanup:video task runnable, delayed, running or about to be enqueued, unless an enqueue or a load of that task was reported to fail. |
| Purges.RemovedRowsLeaveNothing | transcoder-worker/cleanup.go:186-222 | In every run, faults included, when the worker removes a row no HLS object under its prefix and no thumbnail of it is left. |
| Purges.LastMarkComes | api-gateway/handlers/video.go:574-596 | deleted_at is refreshed only finitely often: no delete of a tombstone begins, and each refresh uses up a delete that had begun before. |
| Purges.TombstonesArePurged | transcoder-worker/cleanup.go:122-227 | In every weakly fair run in which its purge is neither lost nor interrupted, every tombstone's row is finally removed. |
| Reconcile.TickNamesOnlyLapsedUsers | transcoder-worker/reconcile.go:120-191 | In every run each call of a tick enqueues at most one cleanup, all its keys belong to one user, and that user is inactive and was inactive for more than 24 hours when this very tick listed him. |
| Reconcile.EligibleAfterADay | shared/db/users.sql.go:49-54 | In every run an active user who is deactivated is eligible for the sweep if and only if more than 24 hours have passed since; deactivating again postpones nothing (deleting the account does). |
| Reconcile.SweptUserIsCovered | transcoder-worker/reconcile.go:120-165 | After a tick has listed a user, whatever everybody else does, each stored object of his is named by a runnable cleanup or still in the worker's hands, as long as he puts nothing, no transcode of his is started and no failure that concerns him is reported. |
| Reconcile.TickAndDrainEmptyThePrefixes | transcoder-worker/reconcile.go:102-165 | Every tick whose query answers all eligible users, followed by any drain of the queue, without a reported failure and with no transcode of theirs waiting, leaves no object of an eligible user. |
| Reconcile.TickAndDrainIsPossible | transcoder-worker/reconcile.go:102-165 | There is such a tick and drain when the eligible users are within the batch and hold at most 1000 keys each. |
| Reconcile.NextTickEnqueuesNothing | transcoder-worker/reconcile.go:120-165 | After every such tick and drain the next tick, whatever its batch and however its calls turn out, enqueues no cleanup and deletes nothing; at most the tick itself is put back. |
| Deployment.Cluster.UploadIntent | api-gateway/handlers/video.go:191-324 | A new id gets exactly the pending row. A reused row was the user's pending one, is still hers, has from then on the key made of its own id, and its former object is queued for cleanup unless that enqueue failed. 404 exactly for unknown users; a conflict only when the row is no longer pending or its new key is taken; a failed insert only for a reported error, a used id or key, or another pending row. |
| Deployment.Cluster.FindPending | shared/db/videos.sql.go:150-160 | Finds the user's PENDING_UPLOAD row, or there is none. |
| Deployment.Cluster.ConfirmUpload | api-gateway/handlers/video.go:396-532 | Which answer is given exactly when: 404 for a missing or foreign video; a wait for another confirm's lock; conflict for a row not pending or an object not stored; bad request for another key or an object of the wrong size; else success or a reported failure. Success changes the row to PROCESSING with retry_count 0 and nothing else of it, after its task was enqueued. A wrong size queues the cleanup of exactly that key and changes nothing else; every other refusal changes nothing; a failure leaves the row as it was. |
| Deployment.Cluster.CommitConfirm | api-gateway/handlers/video.go:480-522 | What the transaction locked and checked still holds at its commit, so the flip cannot miss its row. |
| Deployment.Cluster.DeleteVideo | api-gateway/handlers/video.go:558-623 | 404 exactly for a missing or foreign video; a tombstone is left alone; else the video is gone or a tombstone whose deleted_at is no older than the request, and its purge is due after the grace period unless the enqueue failed. |
| Deployment.Cluster.DeleteAccount | api-gateway/handlers/account.go:191-224 | On success the user is inactive for good, every row he had is gone for good, and a runnable cleanup names exactly the raw and thumbnail keys of those rows, unless its enqueue failed. 404 exactly for an unknown user, a wait exactly when a confirm holds one of his rows, and then nothing has changed. |
| Deployment.Cluster.CollectKeys | api-gateway/handlers/account.go:230-254 | Collects exactly the raw and thumbnail keys of the user's rows, row by row. |
| Deployment.Cluster.HandleTranscode | transcoder-worker/transcode.go:110-421 | From the dequeued task to the return, under any interleaving, exactly one of: dropped on a reported failure; not needed, the row being gone or not PROCESSING; withdrawn, the row being a tombstone or gone and the uploads queued for cleanup; given up, the row FAILED or a tombstone and the raw object queued for cleanup; retried at now + 30 n seconds after the n-th attempt, n below 3 and equal to the row's retry_count, with the failed uploads' cleanup queued before; published, with every file of both encodes, the thumbnail and the master stored, the row READY or tombstoned since. The raw object meant is the row's own. |
| Deployment.Cluster.IncrementRetry | transcoder-worker/transcode.go:184-196 | The attempt starts on the row as it is now, PROCESSING and within the budget; else nothing was counted because of an error or because the row had moved. |
| Deployment.Cluster.UploadVariant | transcoder-worker/transcode.go:567-596 | Uploads the directory's files in order; after a failure the list holds exactly the files put before it, all of them stored. |
| Deployment.Cluster.UploadAll | transcoder-worker/transcode.go:309-369 | On success uploadedKeys are all assets, master last, and every file of both encodes, the thumbnail and the master are stored; after a failure a prefix of them. |
| Deployment.Cluster.MarkReady | transcoder-worker/transcode.go:395-417 | The row is READY with this attempt's prefix and thumbnail, or it was no longer PROCESSING, or the call failed. |
| Deployment.Cluster.CleanupOnFailure | transcoder-worker/transcode.go:295-307 | Exactly the uploaded keys are queued for cleanup unless that was reported to fail; without a retry to come the row is a tombstone or gone. |
| Deployment.Cluster.MarkFailedDetached | transcoder-worker/transcode.go:448-453 | Unless the update was reported to fail, the row is FAILED, or stays a tombstone. |
| Deployment.Cluster.HandleTransient | transcoder-worker/transcode.go:461-493 | FAILED and raw cleanup exactly when the budget is spent; else the retry due at now + 30 n seconds after the n-th attempt, or the task dropped exactly on a reported failure. |
| Deployment.Cluster.HandleCleanupObjects | transcoder-worker/cleanup.go:66-90 | Done exactly when the payload fits one request and no failure was reported; then all its keys are gone, else the task is scheduled again; no other object goes. |
| Deployment.Cluster.Inspect | transcoder-worker/cleanup.go:140-184 | Finds no tombstone, or puts it off for exactly the rest of its grace, or purges the row it has read. |
| Deployment.Cluster.HandleCleanupVideo | transcoder-worker/cleanup.go:122-227 | Nothing to do or a reported failure; put off, due no earlier than deleted_at + 24h; interrupted, with the task scheduled again; or purged: the row past its grace is gone and no HLS object under the prefix it recorded and no thumbnail of it is left. Only objects the row recorded ever go. |
| Deployment.Cluster.HandleReconcileTick | transcoder-worker/reconcile.go:79-175 | At most batch users are listed. When nothing failed and the time was enough, every object a listed user had at the start is named by a runnable cleanup; a failed query puts the tick back. |
| Deployment.Cluster.RunTask | shared/redis.go:45-100 | The single slot takes exactly the head of the queue and is idle again only when that task has ended in one of its handler's ways. |
| Playback.ReadyVideosPlay | transcoder-worker/transcode.go:289-411 | In every state the programs reach without the excluded faults, a READY video of an active owner has all its objects. |
| Playback.ProcessingVideosHaveTheirTask | api-gateway/handlers/video.go:500-522 | In every state the programs reach without dropped or duplicated tasks of it, a PROCESSING video has exactly one live transcode task. |
| Keys.RenderIsInjective | api-gateway/handlers/video.go:341-343 | Different structured keys have different texts. |
| Keys.UserPrefixIsOwnership | transcoder-worker/reconcile.go:180-190 | root/user/ is a prefix of exactly that user's keys under that root. |
| Keys.VideoPrefixIsUnder | transcoder-worker/cleanup.go:188-208 | hls/user/video/ is a prefix of exactly that video's HLS keys, never of a sibling's. |
| Keys.KeyTexts | transcoder-worker/transcode.go:280-281 | How raw, HLS and thumbnail keys are written. |
| ObjectStore.Bucket.DeleteObjects | shared/r2.go:207-246 | One request with the non-empty keys; missing keys are no error, the first real one is returned, and without an error all of them are gone. |
| ObjectStore.Bucket.FirstRealError | shared/r2.go:240-245 | The first per-key error that is not a missing key. |
| ObjectStore.Bucket.DeletePrefix | shared/r2.go:326-381 | For every split into pages: all listed keys sent once, in order, in batches of 1 to 1000, later batches tried after a failure, the first error returned; after a failed page only full batches; a prefix that is empty, has no final slash or only slashes is refused and sends nothing. |
| ObjectStore.SweptIsPrecise | shared/r2.go:326-381 | Without an error the bucket has lost precisely the keys under the prefix. |
| ObjectStore.EachKeyOnce | shared/r2.go:349-381 | Every place in every batch is a different place of the listing. |
| ObjectStore.Bucket.ListObjectsByPrefix | shared/r2.go:262-295 | All listed keys, or the first max of them, or an error and nothing. |
| Rendering.DeletePrefixPurges | transcoder-worker/cleanup.go:188-208 | DeletePrefix on hls/owner/video/ without an error leaves exactly the texts of the keys that the protocol's purge of the prefix leaves. |
| Rendering.DeleteObjectsDeletes | transcoder-worker/cleanup.go:66-90 | One DeleteObjects request leaves exactly the texts of the keys less the payload, or with an error less some part of it. |
| Rendering.ListingsAreOwned | transcoder-worker/reconcile.go:180-191 | The listings under the three roots put together are the texts of a listing of exactly the user's keys. |
| CommentForest.CascadeIsLeast | migrations/001_init.sql:127-130 | What the cascade removes is the least set with the deleted rows that is closed under replies. |
| CommentForest.OneVideo | migrations/001_init.sql:125-130 | A subtree lies in one video. |
| CommentForest.CascadeKeepsForest | shared/db/comments.sql.go:36-43 | The rows left are a forest. |
| CommentForest.CountIsCascadeSize | shared/db/comments.sql.go:16-33 | The UNION ALL recursion ends and counts exactly the rows the cascade removes, 0 for a missing comment. |
| CommentForest.NewRowInCascades | migrations/001_init.sql:125-130 | A reply joins the cascade of exactly the comments its parent is below; a comment without a parent joins none. |
| CommentForest.ReplyIsCounted | api-gateway/handlers/social.go:658-677 | After a reply the subtree count of its parent and of each of the parent's ancestors is one higher, every other count is as it was. |
| Counters.LikePreserves | api-gateway/handlers/social.go:211-240 | A like keeps likes_count equal to the like rows. |
| Counters.UnlikePreserves | api-gateway/handlers/social.go:275-290 | So does an unlike, and its guard never blocks the decrement. |
| Counters.AddCommentPreserves | api-gateway/handlers/social.go:450-477 | A comment or reply moves the counter and the rows alike. |
| Counters.DeleteCommentPreserves | api-gateway/handlers/social.go:589-609 | A delete from however old a read lowers the counter by exactly the rows removed; GREATEST never clamps; a repeated delete changes nothing. |
| Counters.DeleteCommentLeaves | api-gateway/handlers/social.go:589-609 | Exactly the cascade's rows go and the video's counter falls by as many, without going below 0; nothing else changes. |
| Counters.AccountDeletionWidensGap | api-gateway/handlers/account.go:261-296 | On every surviving video likes_count stays exact and comments_count rises above the rows by exactly (rows removed there - 1) if the user commented there, else not at all; neither GREATEST clamps. |
| Counters.AccountDeletionLeaves | api-gateway/handlers/account.go:261-296 | Row by row: the others' videos stay, with one like less where the user liked and one comment less where she commented; of likes and comments only those of others on others' videos stay, and no comment under one of hers. |
| Counters.DeleteFirstWouldDrift | api-gateway/handlers/account.go:261-296 | Deleting the like rows before the decrement would leave the counter one too high. |
| Counters.CountersAfterAnyRun | shared/db/videos.sql.go:103-121 | After every run likes_count equals the like rows and comments_count is at least the comment rows. |
| Counters.CommentsCountExactly | shared/db/videos.sql.go:90-96 | After every run comments_count is the rows plus what account deletions left over. |
| Counters.CommentsCountIsRows | api-gateway/handlers/social.go:430-712 | Without account deletions comments_count is the number of rows. |
| Social.Database.End | api-gateway/handlers/tx.go:73-86 | Commit keeps the body's effect; any failure restores the state of BEGIN. |
| Social.Database.LikeVideo | api-gateway/handlers/social.go:211-240 | Commits exactly the like row, one on the counter if the row is new, and then one notification to the owner unless she is the liker; or changes nothing, and without a failing call only for a missing video. |
| Social.Database.UnlikeVideo | api-gateway/handlers/social.go:275-290 | Commits: the like row is gone, the counter one lower exactly if it was there, nothing else changed; or changes nothing. |
| Social.Database.CreateComment | api-gateway/handlers/social.go:450-477 | Commits the row (video, author, no parent), one on the counter and the owner's notification; or nothing, and without a failing call only for a missing video. |
| Social.Database.ReplyComment | api-gateway/handlers/social.go:658-697 | Commits the row with its parent, author and the parent's video, every other row as it was, and one on the counter, so the parent's cascade has exactly one row more; owner and parent author are notified once each, never the actor. Without a failing call it is refused exactly when the parent is gone or not of that video. |
| Social.Database.CountCommentSubtree | shared/db/comments.sql.go:16-33 | The working-table loop computes the count. |
| Social.Database.DeleteComment | api-gateway/handlers/social.go:589-609 | Commits: exactly the cascade is gone and the counter lower by its size; or nothing. |
| Social.Database.DeleteUserData | api-gateway/handlers/account.go:261-296 | Commits: exactly the others' videos, their likes on them, and their comments on them that are not under a comment of the user are left; or nothing. |
| Paging.ListPage | api-gateway/handlers/feed.go:120-155 | The page descends strictly below the request's cursor; without a next cursor it is complete, with one, its last row, everything left is below it. |
| Paging.WalkDescends | shared/db/videos.sql.go:467-490 | The pages of a walk put together descend strictly, over changing tables. |
| Paging.ShownIsEligible | shared/db/videos.sql.go:638-648 | Only rows that some consulted table had are shown. |
| Paging.EveryEligibleRowOnce | api-gateway/handlers/user.go:417-443 | A finished walk shows every row that stayed eligible exactly once. |
| Paging.FixedTableWalk | shared/db/videos.sql.go:638-648 | On a fixed table it ends after rows / limit + 1 requests and its pages are the whole sorted list. |
| Paging.SearchList | api-gateway/handlers/search.go:120-147 | One list of the search answer, with a cursor exactly when rows are left. |
| Paging.SearchWalkComplete | api-gateway/handlers/search.go:216-236 | An offset walk shows everything if and only if the results are within the last offset the parser accepts, and else is rejected. |
| Paging.SmallSearchesFinish | api-gateway/handlers/search.go:216-236 | No walk over at most 100000 results is led to a rejected cursor. |
| RateLimit.StoresAgree | api-gateway/middleware/ratelimit.go:95-134 | When rate * ttl >= burst the evicting store answers every trace like one that never evicts. |
| RateLimit.EvictionInvisibleIff | api-gateway/middleware/ratelimit.go:95-134 | They agree on all traces if and only if rate * ttl >= burst. |
| RateLimit.WindowBound | api-gateway/middleware/ratelimit.go:95-113 | In any window of length T an identity gets at most burst + rate * T requests through. |
| RateLimit.GrantedIff | api-gateway/middleware/ratelimit.go:95-113 | A request is let through if and only if, with it, its identity is within burst + rate * T for every window of length T that ends now: the bucket refuses nothing the limit allows. |
| RateLimit.DeployedLimitsQualify | api-gateway/routes.go:140-164 | Both deployed configurations meet the condition. |
| RateLimit.RateLimiterStore.Allow | api-gateway/middleware/ratelimit.go:95-113 | With rate * ttl >= burst and a clock that does not step back: the request is let through if and only if it is within the limit of every window that ends now, every answer so far is that of a store that never evicts, and no identity ever got more than burst + rate * T through in a time T up to now. |
| RateLimit.RateLimiterStore.Sweep | api-gateway/middleware/ratelimit.go:119-134 | Exactly the entries idle for longer than ttl are gone and the others are as they were. |
| Wildcards.PassesAreOneMap | api-gateway/handlers/search.go:209-214 | The three ordered passes escape each character once. |
| Wildcards.BackslashLastWouldDoubleEscape | api-gateway/handlers/search.go:209-214 | With the backslash pass last, an escaped percent sign no longer matches itself. |
| Wildcards.UnescapedFindsMore | api-gateway/handlers/search.go:209-214 | Unescaped, an underscore would find any character and a percent sign any text; escaped they do not. |
| Wildcards.LikeIsSubstring | shared/db/search.sql.go:94-118 | s LIKE the pattern of q if and only if q is a substring of s. |
| Wildcards.ILikeIsFoldedSubstring | shared/db/search.sql.go:16-34 | The same for ILIKE, up to the case folding. |
| Cursors.CursorInverseIff | shared/cursor.go:45-79 | For a non-zero time and a non-nil id decoding inverts encoding if and only if the year has four digits. |
| Cursors.DecodesIff | shared/cursor.go:58-79 | For every text: it is a cursor if and only if it is base64 of a time, a bar and an id; the time is then on the calendar. |
| Cursors.FirstPages | shared/cursor.go:45-61 | Exactly the empty cursor asks for the first page; exactly the zero time and the nil id encode to it; the empty offset is 0. |
| Cursors.TimeText | shared/cursor.go:45-51 | A timestamp's fields in RFC 3339 order. |
| Cursors.CursorIsInjective | shared/cursor.go:45-51 | Different positions have different cursors. |
| Cursors.OffsetInverse | api-gateway/handlers/search.go:218-240 | An offset cursor reads back, or is rejected exactly above 100000. |
| MediaTokens.TokenVerifiesIff | shared/mediatoken.go:74-132 | A signed token is accepted if and only if the video is the one it was signed for and it has not expired (ideal hash). |
| MediaTokens.VerdictIff | shared/mediatoken.go:97-132 | For every token: accepted if and only if it is base64 of a decimal stamp that is not over, a dot and the hexadecimal keyed hash of "video_id:", this video, ":" and this stamp; expired and mismatched exactly as the code answers, everything else malformed. |
| MediaTokens.OneVideoPerToken | shared/mediatoken.go:97-132 | No token, however made, opens two videos under one secret (ideal hash). |
| Playlists.WriteMasterPlaylist | transcoder-worker/transcode.go:603-616 | The builder writes the header and two lines per variant. |
| Playlists.DeployedMaster | transcoder-worker/transcode.go:80-87 | The master of the two deployed variants, text for text. |
| Playlists.TagReadsBack | transcoder-worker/transcode.go:611-614 | A variant's tag, read as an attribute list, gives back its bandwidth and its resolution. |
| Playlists.RewriteMasterPlaylist | api-gateway/handlers/video_detail.go:439-498 | The scanner loop is the line-by-line rewriting with one fresh token; refused exactly for empty arguments. |
| Playlists.MasterRewritten | api-gateway/handlers/video_detail.go:439-498 | A master the worker wrote keeps its tags and the order of its lines, and every URI becomes a request for exactly that variant's directory. |
| Playlists.EveryRequestIsSigned | api-gateway/handlers/video_detail.go:443-447 | The token in each request opens this video until the expiry and no other. |
| Playlists.EveryRequestReadsBack | api-gateway/handlers/video_detail.go:489-490 | The query of each request, split as the gateway splits it, gives back the variant's directory and a token that opens this video until the expiry and no other. |
| Playlists.RewritingAgainChangesNothingIff | api-gateway/handlers/video_detail.go:466-474 | Rewriting a rewritten master again, with another signed token, changes nothing if and only if the URIs emitted behind the base URL are absolute. |
| Playlists.MasterRewrittenAgain | api-gateway/handlers/video_detail.go:466-490 | The exact outcome of the second rewriting: the same master, or behind a relative base one whose every variant is named like the video. |

## Left out

- Routing, binding, validation tags, envelopes and error codes, OIDC, webhooks and notifications' payloads.
- Title, description, duration, view counts and follow edges; visibility rules, which only filter rows.
- ffmpeg, ffprobe and files: an encode yields any file names that include the variant's index, or fails.
- The order of the reconcile query: any list of eligible users within the batch is allowed.
- Statement-level anomalies: a committed transaction is one step, a statement that would wait for a row lock waits.
- A worker crash outside the purge of a tombstone, and the queue's retry and archive limits.
- Integer overflow of counters and times; times are whole seconds in the protocol and reals in the limiter.
- Deployment.Cluster.ConfirmUpload: a request that would wait for another confirm's lock answers `Waiting` instead.
- Deployment.Cluster.DeleteVideo: likewise; the tombstone write waits for a confirm's lock.
- Cursors.CursorInverseIff: numeric zone offsets and the other spellings uuid.Parse accepts are not modelled; no cursor written here has them.
- Playlists.EveryRequestReadsBack: percent-decoding of the query is not modelled; a token and the deployed directories have nothing to decode.
- Playlists.RewriteMasterPlaylist: trimming knows the ASCII spaces, NEL and the no-break space, not the other Unicode spaces.
- RewriteVariantPlaylist, the same loop with presigned URLs.
- Clock steps backwards and rounding in the token bucket; concurrent allow and sweep are single steps.
- MediaTokens.TokenVerifiesIff: assumes that under one secret different payloads have different hashes.
