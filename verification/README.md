# pbin, modelled and proved in Dafny

pbin shares files, multi-file buckets and text pastes under random slugs, with an optional expiry,
password and one-use flag. A file or bucket lives in two stores that are not updated together, SQL
rows and a blob store; requests and a background sweeper change both at the same time. This project
models that behaviour and proves what survives every interleaving and every fault.

`dafny verify dfyconfig.toml` checks everything.

## How it is organised

| module | what it holds |
|---|---|
| `Expiry`, `Columns` | preset table, nanosecond clock against stored seconds, the two expiry tests, column conversions |
| `Slugs`, `Images` | the slug generator; MIME decision, signature scan, peek and recombine |
| `Shares` | the tables: shares of three kinds under one reference type, the shared `bucket_files` table, cascade |
| `Machine` | the concurrent step machine: one SQL statement or blob operation per step, any number of operations, any call may fail |
| `Invariant`, `Stability`, `Effects`, `Steps`, `Reachable` | a rely/guarantee proof that every reachable state is good |
| `Ledger`, `Stores` | the row/blob account and the exact match of the two stores |
| `Delivery`, `Contents`, `Truncated` | at-most-once delivery and admission; end-to-end content; the ZIP that is not whole |
| `Removal`, `Sweeps`, `FullSweep` | what takes a row away; what a sweep takes, call by call and as a whole |
| `Requests`, `Authority`, `Promises` | every row and every operation traced to its request; what users are promised, stated on requests alone |
| `Answers`, `Batches` | what each service call answers and leaves behind when nobody interferes, as a function of the fate of its calls; the loops' meaning |
| `Server`, `Solo`, `SoloRequests` | the services and the sweeper as sequential code over mutable fields, and the machine's operations run alone: both proved to do what `Answers` says |
| `KeyPaths`, `LocalStore`, `LocalRuns`, `LocalAlone` | the file system backend as a refinement of an atomic map, step by step and over whole runs; the undisturbed round trip |
| `Router`, `Dispatch`, `Escape` | links and paths, the file-or-paste probe, HTML escaping |
| `Worker` | ticker, stop and done channels, panic recovery |

The machine's `World` ends in history fields (who drew which string for what, what was planned, which
faults happened, who set a mark). No step decides anything by them; they let the theorems say what a
state owes to the past.

## Assumptions

- The generator never repeats a string: slugs and storage keys are fresh (`Machine.FreshSlug`). A
  write overwrites and a rollback deletes by key, so the ledger needs this.
- Temp names and inode numbers are fresh when drawn (`LocalStore`), the storage root has no trailing
  slash, and the file system is case-sensitive.
- The clock never goes back. Each SQL statement is atomic (internal/storage/db.go:51), foreign keys
  cascade (internal/storage/db.go:33).
- A call that returns an error has changed nothing, with one exception that is modelled: the
  conditional UPDATE of a mark may be applied and its row count then fail to be read.
- Password hashing is an arbitrary relation between hash and attempt; the constant-time comparison of
  secrets is equality; the base URL is empty (cmd/pbin/main.go:72).
- Request parsing, the MIME sniffer's answer, random draws, listing order and the fate of every call
  are parameters, so every theorem holds for all of them.

## Where a property holds only under a condition

- View and delete of `/{slug}` can disagree on the kind of share: a failed lookup sends the view to
  the paste handler and the delete to the file handler. `Dispatch.ViewAndDeleteAgree` gives the exact
  condition.
- Stop does not wait for a sweep once a sweep has panicked: the deferred close has already run, and
  the second run of the loop closes again and crashes. `Worker.StopBreaksIffPanicked`
  and `Worker.CrashesIffPanicked` give the exact condition.
- A ZIP that ends without error need not hold the whole bucket. If the bucket's row goes between the
  two queries of the lookup, a bucket that is not one-use is sent as an empty ZIP; a ZIP taken during
  Create, or after a failed AddFile, is silently cut short. `Contents.ZipIsWholeIff` gives the exact
  condition, `Truncated.EmptyZip` a run.
- The check for dangerous types knows four bare strings. The sniffer answers sniffed HTML and XML with
  "; charset=utf-8", which is stored unchanged; such a file is never inline.
  `Images.OnlyBareTypesAreReplaced`.
- A file whose first read returns fewer than four bytes is never stored as an image, even if it
  begins with a BMP or JPEG signature. `Images.ValidateImageMagic` states the length as part of the
  condition.
- A hand-written slug can be captured by an earlier route (`/b/info`, `/b/delete/file/x`, `/paste`).
  `Router.PrintThenServe` gives the exact condition; generated values never meet it.
- Between the stored deadline and the next second a share is refused but not yet swept:
  `Expiry.TestsDisagreeExactly`.
- A row can outlive its blob, and a blob its row. `Stores.OrphanBlobIsExplained` and
  `Stores.MissingBlobIsExplained` list the only ways.

## Where code and documentation disagree

The model follows the code. The milestone requirements promise that a one-use file, bucket or paste
is deleted after its first use (FILE-06, BUCK-05 and PASTE-05 in
.planning/milestones/v1.0-REQUIREMENTS.md:26-44); the code only marks the row, which stays until it is
deleted or swept, and GetFile keeps serving the single files of a consumed bucket. A one-use share
without an expiry is never removed by the sweeper.

## Model

| member | source | states |
|---|---|---|
| `Promises.ContentWasEntitled` | internal/domain/file/service.go:130-176 | an operation that hands out content of a share belongs to a read request for that share, of that kind, whose password attempt opens the share as its creation request protected it, at an instant within the requested lifetime |
| `Promises.OneUseIsOneDelivery` | internal/domain/bucket/service.go:209-264 | of all read requests ever made for a share requested as one-use, one at most is handed its content or ZIP |
| `Promises.MetadataWasEntitled` | internal/domain/bucket/service.go:181-204 | metadata that was answered belongs to a metadata request for that share, within its lifetime and for a bucket with a password attempt that opens it; it is the row the creation request describes, with the list the read's own file query found, or the one file |
| `Promises.LostRowsWereJustified` | internal/domain/file/service.go:197-221 | a row that has gone was taken by one event of an operation started by a Delete request with the very secret of the share's creation request, or by a sweep after the requested lifetime |
| `Promises.ReadsHonourDeadline` | internal/domain/file/service.go:100-140 | for a share requested with preset d at clock t, no read of any kind is refused as expired up to t + d minus one second, every read is after t + d, and none ever is with "never" |
| `Promises.DeadlinesArrive` | internal/domain/file/service.go:139-142 | once the clock has moved past t + d the next check of the share is refused |
| `Requests.RowWasRequested` | internal/domain/file/service.go:75-124 | every row, alive or gone, goes back to one accepted creation request and has its secret, password, one-use flag, lifetime, names and type |
| `Requests.RowDescribesRequest` | internal/domain/paste/service.go:58-104 | the row under the slug of an accepted request describes that request, for ever |
| `Requests.RequestIsKept` | internal/domain/bucket/service.go:76-114 | the bytes, files and columns of an accepted request stay on record unchanged |
| `Authority.EveryOpWasAsked` | cmd/pbin/main.go:121-210 | every operation of a run was started by one request and works for exactly that request: share, password, secret and goal |
| `Authority.ServedForever` | cmd/pbin/main.go:121-210 | and the operation of an accepted request works for it for ever |
| `Delivery.AtMostOnce` | internal/domain/file/service.go:154-163 | in every run, under every interleaving and fault pattern, two operations that ever hand out the content of one one-use file, paste or bucket ZIP are the same operation |
| `Delivery.DelivererIsMarker` | internal/storage/file_repo.go:85-97 | whoever hands out a one-use share is the operation whose conditional UPDATE set its mark, even if the row has vanished since |
| `Delivery.HandsOutForever` | internal/domain/bucket/service.go:241-264 | having passed the consume step is never undone by any later event |
| `Delivery.MarkIsSound` | internal/storage/bucket_repo.go:111-123 | a living row's mark changes only from unset to set, only on a one-use share, only in the mark step of a Get or StreamZIP that had passed the expiry and password checks |
| `Delivery.MarkedRowsWereFetched` | internal/domain/file/service.go:139-163 | over whole runs, a marked row was marked by one event, in the mark step of an operation that at an earlier event was a Get or StreamZIP of that one-use share with the right password while it had not lapsed |
| `Delivery.MarkIsPermanent` | internal/storage/paste_repo.go:84-96 | once marked, a row keeps its mark and every other column for as long as it lives, over whole runs |
| `Delivery.ContentIsAdmitted` | internal/domain/bucket/service.go:218-229 | over whole runs, an operation that hands out content of any share presented the right password for that share, at an instant when the share had not lapsed |
| `Ledger.EveryBlobAndRowAccounted` | internal/domain/file/service.go:107-116 | in every reachable state each blob is named by a row, held by an unfinished creation or has a recorded fault to blame, and each row has its blobs, is being removed or had its deletion fail |
| `Ledger.StepIsBalanced` | internal/domain/bucket/service.go:114-168 | every step of every operation keeps that account: what it writes it holds, what it lets go of is named or blamed, what it deletes it clears |
| `Stores.OrphanBlobIsExplained` | internal/domain/bucket/service.go:116-161 | a blob no row names is held by the creation that wrote it, or its deletion failed and was ignored, or a remover listed its bucket mid-Create, or its own file row was never inserted because an AddFile of its bucket failed |
| `Stores.MissingBlobIsExplained` | internal/domain/file/service.go:211-218 | a named blob is missing only while a removal of that share is between blob and row, or after a failed deletion of that row |
| `Stores.QuietStoresMatch` | internal/worker/cleanup.go:121-131 | with nothing under way and no recorded fault, the blob store holds exactly the blobs the two file tables name, each with its uploaded bytes |
| `Stores.GoneShareLeavesNoBlob` | internal/worker/cleanup.go:144-155 | a share whose row is gone leaves no blob, except one whose own deletion failed and was ignored, or one of a bucket that a remover listed mid-Create |
| `Steps.StepIsGood` | internal/domain/bucket/service.go:76-178 | any step of any operation, whatever the environment answers, keeps the world invariant, gives the guarantee to all others and establishes its own next assertion |
| `Stability.OpStable` | internal/domain/bucket/service.go:312-335 | what an operation knows from earlier, possibly stale, reads survives every step another operation may take |
| `Reachable.StepInv` | internal/worker/cleanup.go:104-176 | every event keeps the invariant of the whole system |
| `Reachable.RunInv` | internal/worker/cleanup.go:104-110 | every run from a good state ends in a good state |
| `Reachable.ReachableInv` | internal/domain/file/service.go:75-221 | every reachable state satisfies the invariant of the world and of every operation |
| `Contents.DownloadIsUpload` | internal/domain/file/service.go:130-176 | whatever happened since the upload, a Get that hands out the file hands out exactly the uploaded bytes under the uploaded name, with the metadata of that upload |
| `Contents.BucketFileIsInput` | internal/domain/bucket/service.go:268-309 | GetFile delivers the name and bytes of the very request file whose storage key was asked for |
| `Contents.ZipFollowsRequest` | internal/domain/bucket/service.go:209-264 | whatever a ZIP has written, complete or broken off, is a prefix of the files of the request that created the bucket |
| `Contents.ZipIsPrefixOfRequest` | internal/domain/bucket/service.go:244-261 | the same in every good state, with the bucket's own metadata, and all listed files when the ZIP ends without error |
| `Contents.ListingFollowsRequest` | internal/storage/bucket_repo.go:89-109 | however AddFile statements of several buckets interleave, the second query lists a prefix of the bucket's request in request order, the whole request once Create has returned and until the row goes, and nothing after that |
| `Contents.StoredMeansCompleted` | internal/domain/bucket/service.go:156-177 | a Create that returned success has inserted its row and a file row for every file of the request, all of them listed while the row lives |
| `Contents.PasteIsWhatWasPosted` | internal/domain/paste/service.go:109-142 | a delivered paste shows the posted title, text and language |
| `Contents.StoredImagesAreSigned` | internal/handler/file.go:101-120 | in every reachable state a file row with a supported image type has stored bytes that begin with that type's signature |
| `Contents.InlineContentIsSigned` | internal/handler/file.go:207-213 | content served inline carries the signature of its stored image type |
| `Contents.KeysAreSlugs` | internal/slug/slug.go:20-33 | every key and slug in any reachable state has the generator's shape, and no slug is in two tables |
| `Contents.ZipIsWholeIff` | internal/storage/bucket_repo.go:61-109 | a ZIP that ends without error holds exactly the request's files in order if and only if at its file query the bucket's row was there and all AddFile statements were done, or there was nothing to add |
| `Contents.ZipIsWhole` | internal/domain/bucket/service.go:247-263 | in particular it is whole when Create has returned and the row is still there at the file query, under any interleaving |
| `Truncated.EmptyZip` | internal/domain/bucket/service.go:209-264 | a run in which a one-file bucket is complete, with its row and its file row, at the ZIP's row query, is gone at its file query, and the ZIP is sent empty without error |
| `Removal.RowLossIsAuthorized` | internal/domain/file/service.go:197-221 | a row disappears only in the row deletion of an operation that carries that row's own secret, or of a sweep that had listed it after its expiry; which request brought the secret is the subject of `Promises.LostRowsWereJustified` |
| `Removal.LostRowsWereRemoved` | internal/domain/paste/service.go:145-163 | over whole runs from any good state, a row that has gone was taken away by one such event in between, before which the row was there and after which it is not |
| `Removal.GoneForever` | internal/storage/paste_repo.go:98-104 | a removed share never comes back |
| `Removal.FilesLeaveWithBucket` | internal/storage/migrations/001_init.sql:30 | bucket file rows disappear only together with their bucket's row |
| `Removal.SweepTakesOnlyRefused` | internal/worker/cleanup.go:113-176 | when a sweep takes a row away, every service read of it at that moment or later is refused as expired, whatever its password and goal |
| `Sweeps.SweepTakesAllExpired` | internal/storage/bucket_repo.go:133-191 | once a sweep is done, a share that was expired when the sweep listed its kind is gone with its file rows unless the sweep's own deletion of that row failed, and each blob it found listed for the share is gone unless its own deletion of that blob failed; files and pastes need no more, a bucket also needs the sweep's file queries; no earlier fault and no failed deletion for another share is an excuse |
| `Sweeps.SweptIsGone` | internal/worker/cleanup.go:136-157 | each share and each blob on the finished sweep's record is gone unless its own deletion of that very row or blob failed |
| `FullSweep.SweepTakesWhatWasExpired` | internal/worker/cleanup.go:104-176 | a requested sweep, once done, leaves no row of any kind that could be swept when it was requested, unless its own listing of the kind, its own file queries for a bucket, or its own deletion of that row failed |
| `FullSweep.FinishedSweepsListAll` | internal/worker/cleanup.go:104-110 | every finished sweep has had the answer to its listing of files, of buckets and of pastes |
| `Expiry.SweepableIsLapsed` | internal/storage/file_repo.go:107-118 | whatever the sweeper may remove is refused by every service read, then and later |
| `Expiry.TestsDisagreeExactly` | internal/domain/file/service.go:140 | the two expiry tests differ exactly during the open second that begins at the stored deadline, so refused implies sweepable one second later |
| `Expiry.AcceptanceWindow` | internal/domain/file/service.go:100-105 | the column of the deadline t + d for a finite preset d lets reads through for more than d minus one second, never after t + d, and the exact cut is the stored second |
| `Expiry.NeverIsForever` | internal/domain/file/file.go:13-24 | "never" is the one preset that never lapses and is never swept |
| `Expiry.DeadlineHonours` | internal/domain/file/service.go:100-105 | the column a preset leads to does at every instant what the preset promises a share created then |
| `Expiry.OneColumnHonours` | internal/storage/file_repo.go:28-32 | no other column keeps that promise |
| `Expiry.PresetsMeanTheirNames` | internal/domain/file/file.go:13-24 | there are nine presets, and each lasts as long as its name says in minutes, hours, days or years |
| `Expiry.ShownDeadlineIsEnforced` | internal/handler/file.go:149-152 | the RFC 3339 time shown to the uploader names exactly the second that is stored and enforced |
| `Columns.ReadBack` | internal/storage/file_repo.go:27-83 | an inserted share is read back unchanged except that its deadline has lost its fraction of a second |
| `Slugs.New` | internal/slug/slug.go:20-33 | a positive length succeeds exactly when every draw succeeds, and the result then has that length, the alphabet, and spells the drawn indices; other lengths are refused |
| `Slugs.SlugDeterminesDraws` | internal/slug/slug.go:25-31 | different index vectors give different slugs |
| `Slugs.CharsetIsAlphabet` | internal/slug/slug.go:11 | a character is in the literal alphabet exactly when it is one of the closed form |
| `Slugs.CharsetTable` | internal/slug/slug.go:11 | the literal alphabet has 56 characters, given by a closed form at every position |
| `Images.ValidateImageMagic` | internal/handler/file.go:302-323 | the scan accepts a prefix exactly when it has at least four bytes and begins with the type's signature |
| `Images.Sniff` | internal/handler/file.go:101-120 | for every peek length the content passed on is the whole body, and a stored image type means the body begins with its signature |
| `Images.SignatureOfPrefix` | internal/handler/file.go:302-323 | a signature seen in the peeked prefix is a signature of the whole content |
| `Images.EverySupportedTypeIsChecked` | internal/domain/file/file.go:28-48 | each supported image type has a check that some content passes and the empty content does not |
| `Images.SupportedIffSigned` | internal/domain/file/file.go:28-48 | the supported types are exactly those with a signature |
| `Images.SignatureBytes` | internal/handler/file.go:292-323 | the signatures of the five formats byte by byte |
| `Images.Decide` | internal/handler/file.go:104-117 | an image type survives only with its signature, and none of the four dangerous strings comes out |
| `Images.OnlyBareTypesAreReplaced` | internal/handler/file.go:104-117 | exactly which sniffed types are stored as they are; the two charset forms that the sniffer gives for HTML and XML are among them |
| `Shares.FilesOfAppend` | internal/storage/bucket_repo.go:48-58 | inserting a file row extends its own bucket's list at the end and no other bucket's |
| `Shares.FilesOfDrop` | internal/storage/migrations/001_init.sql:30 | the cascade empties the removed bucket's list and leaves every other list alone |
| `Shares.DropKeepsRows` | internal/storage/migrations/001_init.sql:28-35 | exactly the rows of the removed bucket go |
| `Shares.DropKeepsOrder` | internal/storage/migrations/001_init.sql:29 | ids stay in insertion order through the cascade |
| `Shares.FilesOfMembers` | internal/storage/bucket_repo.go:89-93 | a file is listed for a bucket exactly when the table has a row that says so |
| `LocalStore.StepRefinesMap` | internal/filestore/local.go:41-92 | seen from the keys, every step of every task is the identity or one atomic map operation: a successful rename stores the whole content, a successful remove drops the key |
| `LocalStore.SuccessMeansRenamed` | internal/filestore/local.go:58-65 | only a step that renamed makes a Write succeed, and at that moment the key holds the whole content |
| `LocalStore.RunInv` | internal/filestore/local.go:41-65 | every run keeps temp files private to their writers and published files frozen |
| `LocalRuns.KeysHoldCompleteWrites` | internal/filestore/local.go:49-92 | in every run a key holds given bytes if and only if some Write renamed exactly these bytes, its whole content, onto it and no rename or remove of the key has followed |
| `LocalRuns.ReadsAreCompleteSnapshots` | internal/filestore/local.go:68-80 | a Read that reaches the end returns what the key held at the moment it was opened: one Write's whole content, neither replaced nor removed up to then, whatever ran in between |
| `LocalRuns.WriteSucceedsIffRenamed` | internal/filestore/local.go:41-65 | a Write that has ended reports success if and only if its rename happened |
| `LocalRuns.WrittenIsWhatWasAsked` | internal/filestore/local.go:41-65 | a Write that reports success was called with these very chunks, and right after its rename the key holds all of them |
| `LocalRuns.DeleteSucceedsIffRemoved` | internal/filestore/local.go:83-92 | a Delete that has ended was called for its key and reports success if and only if one of its own events removed the key, which holds nothing right after |
| `LocalRuns.TasksServeTheirCalls` | internal/filestore/local.go:31-92 | every task goes back to one call and works on its key and chunks; a call is refused only for an invalid key |
| `LocalRuns.FailedWritesChangeNothing` | internal/filestore/local.go:41-65 | no step of a Write that ends in failure has changed what any key holds |
| `LocalAlone.WriteAlone` | internal/filestore/local.go:41-65 | undisturbed, a Write succeeds and its key holds all its chunks |
| `LocalAlone.ReadAlone` | internal/filestore/local.go:68-80 | undisturbed, a Read returns exactly what the key holds |
| `LocalAlone.RemoveAlone` | internal/filestore/local.go:83-92 | undisturbed, a Delete succeeds and its key holds nothing |
| `LocalAlone.RoundTrip` | internal/filestore/local.go:41-80 | what a Write has been given in chunks a later Read returns whole |
| `KeyPaths.ParentOf` | internal/filestore/local.go:44-50 | the parent of a path ending in a slash-free name is the folder before it |
| `KeyPaths.FolderIsParent` | internal/filestore/local.go:31-39 | the folder made for a key is the parent of the key's path |
| `KeyPaths.KeyPathIsInjective` | internal/filestore/local.go:31-39 | distinct valid keys have distinct paths |
| `KeyPaths.NoPathIsAFolder` | internal/filestore/local.go:31-39 | no key's path is the root or a folder of any key |
| `KeyPaths.NoTempIsAKey` | internal/filestore/local.go:50 | no temp file name is the path of a key |
| `KeyPaths.SlugsAreKeys` | internal/filestore/local.go:14 | every generated slug is an accepted key with a two-character folder |
| `Router.PrintThenServe` | cmd/pbin/main.go:121-210 | for any nonempty slash-free arguments a printed share link is served as its own route if and only if no earlier case or exact pattern captures its argument |
| `Router.GeneratedLinksWork` | internal/handler/bucket.go:198-202 | every link printed for generated slugs, keys and secrets is served as the route it was printed for |
| `Router.ServeThenPrint` | cmd/pbin/main.go:121-210 | a path dispatched to a share's route is, outer slashes aside, the link printed for that route |
| `Router.FixedPages` | cmd/pbin/main.go:121-136 | the fixed pages are reached by exactly their own paths |
| `Router.PrintJoins` | internal/domain/bucket/service.go:172-173 | each printed link is the join of its route's segments |
| `Router.SplitJoin` | cmd/pbin/main.go:124-130 | splitting undoes joining of slash-free segments |
| `Router.JoinSplit` | cmd/pbin/main.go:124-130 | joining undoes splitting of any path |
| `Dispatch.DispatchReachesTheTable` | cmd/pbin/main.go:176-205 | with lookups that succeed, view and delete reach the handler of the table that holds the slug, expired rows included, and never take a paste for a file |
| `Dispatch.ViewAndDeleteAgree` | cmd/pbin/main.go:184-200 | view and delete choose the same kind of share if and only if the probe's lookup does not fail |
| `Escape.HtmlEscape` | internal/handler/bucket.go:394-413 | the buffer loop computes the rune-wise escape |
| `Escape.Distributes` | internal/handler/bucket.go:394-413 | escaping distributes over concatenation |
| `Escape.DecodeEscape` | internal/handler/bucket.go:394-413 | an entity decoder recovers every input |
| `Escape.EscapeIsInjective` | internal/handler/bucket.go:394-413 | names that escape alike are alike |
| `Escape.OutputIsHarmless` | internal/handler/bucket.go:394-413 | the output has no raw angle bracket or quote, and every ampersand starts one of the five entities |
| `Worker.StopWaitsForSweep` | internal/worker/cleanup.go:80-101 | in a panic-free run Stop returns only after the loop has returned, no sweep step follows, and done is closed exactly once |
| `Worker.DoneClosesOnce` | internal/worker/cleanup.go:86-88 | panic-free, done is closed once when the loop returns and not before |
| `Worker.CleanReturnIffNoPanic` | internal/worker/cleanup.go:66-78 | a worker that has ended returned cleanly if and only if no sweep ever panicked |
| `Worker.CrashesIffPanicked` | internal/worker/cleanup.go:66-88 | an alive worker can crash on a second close of done, without a further panic, if and only if a sweep has panicked |
| `Worker.StopBreaksIffPanicked` | internal/worker/cleanup.go:66-88 | while the worker is alive, Stop called or not, Stop can return in the middle of a sweep without a further panic if and only if a sweep has panicked |
| `Worker.StopCanReturn` | internal/worker/cleanup.go:80-101 | a worker that has not panicked can always be shut down, Stop included, without a panic |
| `Worker.FirstPanicRestarts` | internal/worker/cleanup.go:66-78 | the first panic in a sweep closes done and leaves the worker alive, about to run its loop again |
| `Server.Pbin.constructor` | internal/storage/migrations/001_init.sql:3-35 | the process starts with empty tables and an empty store |
| `Server.Pbin.Upload` | internal/domain/file/service.go:75-124 | either the row and the uploaded bytes are there or nothing changed; only a failed insert with a failed rollback leaves bytes |
| `Server.Pbin.CreatePaste` | internal/domain/paste/service.go:58-104 | the row appears exactly when text and expiry are accepted and the insert succeeds |
| `Server.Pbin.CreateBucket` | internal/domain/bucket/service.go:76-178 | all or nothing up to the bucket row for every failing index; after it, a failure at AddFile k leaves the row, the files before k in order and every blob |
| `Server.Pbin.CreateAccepted` | internal/domain/bucket/service.go:107-178 | writes, rollback, row and files together do exactly what the answer function says, under every fault pattern |
| `Server.Pbin.InsertBucket` | internal/domain/bucket/service.go:148-168 | exactly the row, and one file row per stored member in request order up to the first failed AddFile |
| `Server.Pbin.WriteLoop` | internal/domain/bucket/service.go:112-146 | the blobs written and the members recorded are those before the first failed draw or write |
| `Server.Pbin.AddLoop` | internal/domain/bucket/service.go:156-168 | the rows inserted and the ids used are those before the first failed AddFile |
| `Server.Pbin.DropBlobs` | internal/domain/bucket/service.go:325-328 | each listed blob goes exactly if its own deletion succeeds, all errors ignored |
| `Server.Pbin.SelectFiles` | internal/storage/bucket_repo.go:89-107 | the row loop returns the bucket's files in id order |
| `Server.Pbin.FindFile` | internal/domain/bucket/service.go:290-301 | the search loop finds the first file with the key, and fails exactly when there is none |
| `Server.Pbin.WriteEntries` | internal/domain/bucket/service.go:247-261 | the ZIP loop writes the stored bytes of the files in order up to the first blob that cannot be read |
| `Server.Pbin.Admit` | internal/domain/bucket/service.go:210-239 | lookup, expiry, password, consume: exactly when the read is served, which error otherwise, and the exact rows after it |
| `Server.Pbin.Get` | internal/domain/file/service.go:130-176 | content is sent exactly when the read is admitted and the blob can be read, and it is the blob; a blob that cannot be read loses a one-use file |
| `Server.Pbin.GetPaste` | internal/domain/paste/service.go:109-142 | the paste is sent exactly when the read is admitted |
| `Server.Pbin.StreamZip` | internal/domain/bucket/service.go:209-264 | an admitted read writes the listed files in order and ends without error exactly when every blob can be read |
| `Server.Pbin.GetFile` | internal/domain/bucket/service.go:268-309 | one file by key exactly when the checks pass and the key is in the bucket, with no change of state |
| `Server.Pbin.GetFileMeta` | internal/domain/file/service.go:180-194 | accepted exactly when the row is there and not expired, with no password and no change of state |
| `Server.Pbin.GetBucketMeta` | internal/domain/bucket/service.go:181-204 | accepted exactly when the row is there, not expired and the password is right, with the listed files and no change of state |
| `Server.Pbin.DeleteBucket` | internal/domain/bucket/service.go:312-335 | exactly the bucket's own secret removes its row, its file rows and the blobs whose deletion succeeds |
| `Server.Pbin.DeleteFile` | internal/domain/file/service.go:197-221 | removed exactly when the secret matches and both deletions succeed; a failed blob deletion keeps the row |
| `Server.Pbin.DeletePaste` | internal/domain/paste/service.go:145-163 | removed exactly when the secret matches and the deletion succeeds |
| `Server.Pbin.ListExpired` | internal/storage/file_repo.go:107-147 | the listing returns each expired row of the kind once and nothing else |
| `Server.Pbin.ListFiles` | internal/storage/bucket_repo.go:158-186 | each listed share comes with the files it names |
| `Server.Pbin.RemoveListed` | internal/worker/cleanup.go:144-156 | the loop's exact effect on tables and blobs under every fault pattern, and the count of successful row deletions |
| `Server.Pbin.SweepKind` | internal/worker/cleanup.go:136-157 | run alone, the returned count is the number of rows removed, the listing is exact, and tables and blobs change exactly as the deletions that succeed say |
| `Server.Pbin.Pass` | internal/worker/cleanup.go:104-157 | one pass and exactly the rows the next one finds |
| `Server.Pbin.Sweep` | internal/worker/cleanup.go:104-110 | the three passes one after the other, each with its own faults and each listing what the one before left: exact tables and blobs at the end, and the counts add up |
| `Answers.CreateIsAllOrNothing` | internal/domain/bucket/service.go:107-168 | up to the bucket row a creation that fails at any file or at the row leaves the tables as they were, and the blobs too when its rollback's deletions succeed; after it, a failure at AddFile k leaves the row, the files before k in order and every blob; no other bucket's list moves |
| `Answers.AllSwept` | internal/worker/cleanup.go:104-176 | three passes whose row deletions succeed leave exactly the rows that were not sweepable |
| `Answers.SweptRows` | internal/worker/cleanup.go:113-133 | rows that stay are unchanged, and with no failed deletion exactly the listed ones go |
| `Batches.RollbackRestores` | internal/domain/bucket/service.go:149-153 | deleting what the write loop wrote restores the blob map exactly |
| `Batches.PutAllHolds` | internal/domain/bucket/service.go:114-146 | after the write loop a key holds the last content written under it, or what it held before |
| `Batches.DropAllHolds` | internal/domain/bucket/service.go:325-328 | after a deletion loop exactly the keys with a successful deletion are gone and the rest keep their bytes |
| `Batches.DropListsHolds` | internal/worker/cleanup.go:144-149 | the same over all listed shares of a sweep |
| `Batches.AddAllReads` | internal/storage/bucket_repo.go:48-109 | what the AddFile loop inserts is what the second query reads back, and other buckets read what they read before |
| `Batches.AddAllInOrder` | internal/storage/migrations/001_init.sql:29 | inserted rows keep the table in id order |
| `Batches.RowsWithoutHolds` | internal/worker/cleanup.go:150-155 | exactly the rows with a successful deletion are gone, the others unchanged |
| `Batches.RemovedRowsAreCounted` | internal/worker/cleanup.go:143-156 | successful deletions of distinct rows and remaining rows add up to the rows before |
| `Solo.SoloIsARun` | internal/domain/bucket/service.go:76-178 | an operation that moves alone is a run of the concurrent machine |
| `Solo.SoloFileCreate` | internal/domain/file/service.go:107-118 | the machine's upload run alone ends as Upload does, whichever of write, insert and rollback fail |
| `Solo.SoloPasteCreate` | internal/domain/paste/service.go:58-104 | the machine's paste creation run alone ends as CreatePaste does |
| `Solo.SoloCreate` | internal/domain/bucket/service.go:107-178 | the machine's bucket creation run alone ends as CreateBucket does, for a failure at any draw, write, row insert, AddFile or rollback deletion |
| `Solo.SoloFileDelete` | internal/domain/file/service.go:197-221 | the machine's file deletion run alone ends as DeleteFile does, whatever fails |
| `Solo.SoloPasteDelete` | internal/domain/paste/service.go:145-163 | the machine's paste deletion run alone ends as DeletePaste does, whatever fails |
| `Solo.SoloBucketDelete` | internal/domain/bucket/service.go:312-335 | the machine's bucket deletion run alone ends as DeleteBucket does, whatever fails |
| `Solo.SoloContent` | internal/domain/bucket/service.go:209-264 | the machine's Get of a file or paste and its StreamZIP run alone end as Get, GetPaste and StreamZip do, for every fate of lookup, mark and reads |
| `Solo.SoloOneFile` | internal/domain/bucket/service.go:268-309 | the machine's read of a single bucket file run alone ends as GetFile does and changes nothing |
| `Solo.SoloRollback` | internal/domain/bucket/service.go:149-153 | the machine's rollback run alone has the effect of the deletion loop |
| `Solo.SoloSends` | internal/domain/bucket/service.go:247-261 | the machine's send loop run alone writes the entries of the ZIP loop and breaks off where it does |
| `Solo.SoloSweep` | internal/worker/cleanup.go:144-155 | the machine's removal loop run alone has the effect of the sweep loop, whichever deletions fail |
| `Solo.SoloPass` | internal/worker/cleanup.go:113-176 | one pass of the machine's sweep run alone, listing and file queries included, ends as SweepKind does, whichever deletions fail, and goes on to the next kind |
| `Solo.SoloPassFails` | internal/storage/bucket_repo.go:133-186 | a pass whose rows' query or any bucket's file query fails removes nothing and goes on to the next kind |
| `Solo.SoloMeta` | internal/domain/bucket/service.go:181-204 | the machine's metadata reads run alone answer as the two GetMetas do and change nothing |
| `SoloRequests.InvalidIsRejected` | internal/domain/file/file.go:64-83 | a creation request with an unknown preset, or a paste without text, is refused at once without a trace |
| `SoloRequests.UploadServed` | internal/domain/file/service.go:75-124 | an upload request alone, from its arrival on, ends as `FileCreate` says for a row that describes the request and the bytes it brought |
| `SoloRequests.PasteServed` | internal/domain/paste/service.go:58-104 | the same for a paste request |
| `SoloRequests.BucketServed` | internal/domain/bucket/service.go:76-178 | the same for a bucket request, for a failure at any call |
| `SoloRequests.ContentServed` | internal/domain/bucket/service.go:209-264 | a request for content alone, from its arrival on, is answered as Get, GetPaste and StreamZip answer that share and that password |
| `SoloRequests.OneFileServed` | internal/domain/bucket/service.go:268-309 | the same for a single bucket file |
| `SoloRequests.MetaServed` | internal/domain/file/service.go:180-194 | the same for metadata |
| `SoloRequests.FileDeleteServed` | internal/domain/file/service.go:197-221 | a Delete request alone, from its arrival on, is answered as DeleteFile answers that secret |
| `SoloRequests.PasteDeleteServed` | internal/domain/paste/service.go:145-163 | the same for a paste |
| `SoloRequests.BucketDeleteServed` | internal/domain/bucket/service.go:312-335 | the same for a bucket |
| `SoloRequests.SweepServed` | internal/worker/cleanup.go:104-176 | a sweep requested alone goes through files, buckets and pastes and leaves what the three passes of Server.Pbin.Sweep leave, whichever deletions fail |

## Left out

- HTML pages, the password form, response headers and status codes: presentation.
- Configuration, flags, signals, server timeouts, BasicAuth and base-URL derivation: no state shared across functions.
- SQLite, WAL and connection pools beyond atomic statements; goose migrations.
- bcrypt, the random source, multipart parsing, MIME detection and the ZIP byte format: a ZIP is a sequence of names and contents.
- `humanSize`: floating-point display.
- The body size limit and form parsing of the handlers: their results are the fields of a request.
- Request cancellation and the sweep's time limit are not separate events: both show up as failing calls, which the machine allows anywhere.
- Exactly-once delivery: the code does not promise it; a consumed read can still fail at the blob.
- `Server.Pbin` is one object for services, tables and store and runs one operation at a time; what other operations do in between is the subject of `Machine`.
- The three sweeps share one method, `Server.Pbin.SweepKind`, with the kind as a parameter; their loops differ only in the blobs they visit.
- `Exists` of the file system backend: no service or handler calls it.
- LocalRuns.KeysHoldCompleteWrites: says nothing about temp files left behind when the deferred remove fails; they are no key's path.
- LocalStore and `Machine` are not composed: the machine uses the atomic map that `LocalStore.StepRefinesMap` shows the backend to be.
- Sweeps.SweepTakesAllExpired: for a bucket, assumes that the file queries of that sweep succeed, because the code skips all buckets when one of them fails.
- Stores.GoneShareLeavesNoBlob: a listing taken mid-Create is recorded per bucket, so it excuses every blob of that bucket, also those the early listing did name.
- Expiry.ShownDeadlineIsEnforced: keeps the calendar date of the shown time as a day number.
