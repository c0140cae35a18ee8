# Archcore Send, verified

Archcore Send hands a working session from one machine to another. A shell client packs a
working directory into parts, encrypts them, and uploads them to a small Go server; whoever
has the link redeems it, once for a one-time send, and downloads the parts under a
short-lived grant. The server keeps its facts in two places that no transaction spans: SQL
rows and files. Only the order of operations and one conditional UPDATE keep them
consistent. This project models that protocol and the algorithms it rests on, and proves
what they guarantee.

`dafny verify dfyconfig.toml` checks everything.

## How the model is organised

The protocol is a transition system (`protocol.dfy`) over tables (`sql.dfy`), blobs, a clock
and any number of calls in flight. One step runs one SQL statement, the creating
transaction, one rename, one unlink, one listing or one open, of one call. Time may pass, a
call may end early, and the process may die at any point. A ghost history records what was
declared, finalized, consumed, granted and delivered; no step reads it. Fresh send ids,
tokens and random bytes are parameters, and the two hash functions are uninterpreted.

| file | subject |
|---|---|
| `records.dfy`, `sql.dfy`, `bloboutcome.dfy` | records, errors, keys; one function for each SQL statement; what a bounded, verified copy yields |
| `protocol.dfy`, `invariants.dfy`, `steps.dfy` | the transition system, its invariant, and the proof that every step keeps it |
| `later.dfy`, `publication.dfy`, `sweeping.dfy`, `gaps.dfy` | monotonicity, publish-before-record, the orphan sweep under interleaving, two runs that show what the hypotheses exclude |
| `redemption.dfy`, `grantlife.dfy`, `downloads.dfy` | one-time redemption, how long a grant lives, what a download returns |
| `origins.dfy`, `acceptance.dfy`, `replies.dfy`, `reaping.dfy` | calls, rows, blobs, replies and reaping explained by the requests that began earlier and the clock at that instant |
| `mailbox.dfy`, `solo.dfy` | the abstract mailbox that every run refines; calls without interference and what a sweep converges to |
| `stores.dfy`, `coordinator.dfy` | the imperative `SQLiteState`, `Coordinator` and `Worker`, each tied to the protocol's steps |
| `ratelimit.dfy`, `envelope.dfy` | the token bucket with eviction, as a class; its exact envelope |
| `fsblob.dfy`, `paths.dfy`, `text.dfy` | the streaming put, the mapping between keys and paths, splitting and joining |
| `filesweep.dfy` | the orphan sweep over files, and whole runs of the protocol over files |
| `ids.dfy`, `create.dfy`, `onetime.dfy` | time-ordered ids (section 7 of RFC 4648); the limits and arithmetic of a create request; one-time unless refused |
| `manifest.dfy`, `client.dfy`, `titles.dfy` | the shell client's manifest printer, its line-oriented reader and the loading walk; what a JSON reader makes of a title |

## Where the code and its words differ

- `Coordinator.OrphanSweep` says that it deletes blobs no longer referenced by any part row
  (server/internal/store/coordinator.go:100-101). It compares a listing with live keys read
  earlier, so a part uploaded to a send created in between loses its blob. By key,
  `Sweeping.ListingSafeIff` is the exact condition, `Gaps.StaleListingLosesUpload` a run from
  the empty server, and `Sweeping.ListFirstNeedsNoCondition` shows that the opposite order of
  the two reads would need no condition.
- The same sweep compares the names that files are listed under with the keys that the
  database holds, and `handleCreate` asks of a part id only that it is not empty
  (server/internal/api/handlers.go:87). A part "a//b" is kept in the file "a/b" and listed as
  such, so even an undisturbed sweep with a current snapshot removes its blob:
  `FileSweep.DoubledSlashIsLost`. `FileSweep.LiveSurvivesIff` is the exact condition for one
  live key and `FileSweep.LiteralLiveKeysSurvive` covers canonical keys. Two such ids can also
  share a file: `Paths.ResolveEqualIff` says exactly when, and
  `FileSweep.DoubledSlashOverwrites` what it does to a download. For canonical part ids, which
  are the only ones the shell client declares, `FileSweep.FilesOfRun` carries every theorem
  about runs over to files.
- `SQLiteState.DeleteExpired` says that it removes unfinished sends
  (server/internal/store/sqlite.go:341-343). It deletes by ids selected earlier, so a send
  finished and redeemed in between goes with its fresh grant: `Gaps.LateReapLosesGrant`.
  `GrantLife.GrantLostIff` says exactly when the DELETE takes a grant that is still good,
  `GrantLife.SparedRowIff` when it takes a row that matches no clause any more, and
  `GrantLife.LostAcrossRunIff` the same in terms of the row at the SELECT.
  `GrantLife.AdjacentReapSpares` shows that adjacent statements lose none.
- The time-to-live product wraps around in int64 (server/internal/api/handlers.go:74):
  `Create.PositiveTtlIff`, `Create.DefaultTtlIff` and `Create.WrappedTtl`. The running total
  of the declared sizes can wrap as well (line 100), for settings that allow parts so large
  that as many as a body can declare overflow: `Create.CapIff`, `Create.TwoPartsOverflow`.
  With parts of at most 8 TiB it cannot: `Create.ReceivedStaysWithinCap`.
- `FilesystemBlob.Put` reads limit+1 bytes (server/internal/store/fsblob.go:71-72), which
  wraps at the largest int64: `FsBlob.SimpleRuleIff`.
- `resolve` promises a path strictly under the directory (server/internal/store/fsblob.go:36-37).
  For a directory `/` its second test refuses every named key (`Paths.EscapesIff`), and in any
  directory the key "." is the directory itself: `Paths.StrictlyBelowIff` is the exact condition.
- `json_escape` says that it escapes a string for JSON (skill/send/scripts/send.sh:74). Awks
  differ in what its replacement for a backslash prints. Where that is a single backslash, a
  title comes back from JSON if and only if it holds none: `Titles.BareTitleIff`.

## Model

| member | source | states |
|---|---|---|
| `Steps.StepOk` | server/internal/store/coordinator.go:28-123 | every step of every call, the passing of time, and a crash at any point keep the invariant that ties rows, blobs, grants and control points together |
| `Steps.RunOk` | server/internal/store/sqlite.go:113-403 | the invariant holds in every state of every interleaved, crash-prone run |
| `Steps.InsertPartsEffect` | server/internal/store/sqlite.go:136-144 | the part rows of a creation are inserted exactly when the declared ids are distinct and new, and then they are exactly the declared ones |
| `Steps.AllUploaded` | server/internal/store/sqlite.go:207-219 | when the finalizing UPDATE matches, the parts marked uploaded are exactly the declared ones |
| `Invariants.Stable` | server/internal/store/sqlite.go:47-47 | no step of one call disturbs what any other call in flight is counting on |
| `Mailbox.StepRefines` | server/internal/store/coordinator.go:28-123 | each concrete step is one move of an abstract mailbox whose sends are being filled, sealed, opened by at most one grant, or gone, or no move at all |
| `Mailbox.RunRefines` | server/internal/store/sqlite.go:113-386 | forward simulation: every run of the protocol maps to a run of the mailbox |
| `Downloads.DownloadSafety` | server/internal/store/coordinator.go:73-82 | bytes served by any download have the size and hash that its part was declared with; the declaration, then the finalization with all parts uploaded, then a redemption of that same send that issued the token, and then the download happened in this order |
| `Downloads.FinalizedIsDownloadable` | server/internal/store/coordinator.go:78-81 | with no stale listing, opening a part of a finalized send never fails and gives the declared bytes |
| `Downloads.CountersMatchRows` | server/internal/store/sqlite.go:117-132 | in every reachable state part_count is the number of part rows of the send and total_encrypted_size their sum as an int64 |
| `Downloads.HistoryStep` | server/internal/store/coordinator.go:28-82 | only a creation declares, only a finalize completes and only a redemption issues a token, each in the step that does it |
| `Origins.Origin` | server/internal/store/coordinator.go:28-123 | every call in flight, at any point of any run, was begun once, at an earlier step, still says what that request asked for, and where it has read the clock holds the time of that step |
| `Acceptance.GrantIssued` | server/internal/store/sqlite.go:273-281 | every grant row was inserted by a redemption of its send, has not been away since, and expires a grant time-to-live after that redemption began, in whole seconds |
| `Acceptance.AcceptedIff` | server/internal/store/sqlite.go:290-306 | over runs, a download gets past the check of its token if and only if a redemption of the same send inserted a grant for that token hash, which is still in the table, and the clock is before the grant time-to-live from the beginning of that redemption; otherwise it ends with ErrInvalidGrant |
| `Origins.CreationOf` | server/internal/store/sqlite.go:113-149 | every send on record stems from one creation request, with the parts that it declared and the time at which it began |
| `Replies.CreateReply` | server/internal/store/sqlite.go:113-149 | a creation succeeds exactly for distinct part ids, and the step that answers it adds the one send row and the part rows spelled out here, and nothing else |
| `Replies.StoredReply` | server/internal/store/coordinator.go:36-63 | a stored upload was of a part that a creation declared, with its size and hash, and the hash that the client named, if any; the bytes of the body were published before, and the row is marked with the time of the reply |
| `Replies.BlobOrigin` | server/internal/store/fsblob.go:70-95 | every blob in every state is the body of an upload for the send and part of its key, as far as it was read |
| `Replies.FinalizedReply` | server/internal/store/sqlite.go:193-228 | a send is reported finalized only if by then it was finalized with every declared part uploaded |
| `Replies.IncompleteIff` | server/internal/store/sqlite.go:207-215 | the count of missing parts ends the call with ErrIncomplete if and only if some part row is unmarked |
| `Replies.GrantedReply` | server/internal/store/sqlite.go:230-288 | a grant in a reply is for the token asked for, runs for the grant time-to-live from the beginning of the redemption, has had its row inserted, and lists exactly the parts that the creation declared, with their declared sizes, unless the send was reaped in between |
| `Replies.OneGrantedReply` | server/internal/store/sqlite.go:257-271 | of all redemptions of a send created as one-time, in a whole run, at most one is answered with a grant |
| `Replies.DataReply` | server/internal/store/coordinator.go:73-82 | downloaded bytes are explained from end to end: by the creation that declared their size and hash, the upload whose body they are, and the redemption whose grant, when this very call validated it, was there and had not run out |
| `Publication.PubStep` | server/internal/store/coordinator.go:32-62 | publish-before-record is kept by every step except a blob listing taken with a stale snapshot |
| `Publication.RunPublished` | server/internal/store/coordinator.go:32-35 | by key, in every state of such a run, after a crash too, a part marked uploaded has a published blob of its declared size and hash |
| `Publication.LiveIffRow` | server/internal/store/sqlite.go:388-403 | a published key is among the live keys exactly when the part that owns it has a row |
| `Later.NothingUndone` | server/internal/store/sqlite.go:182-228 | over any stretch of any run a finalized send stays finalized, a consumed one keeps its time, a marked part stays marked, and a deleted send never comes back |
| `Later.LateUploadsHarmless` | server/internal/store/coordinator.go:37-61 | whatever is published under a key over a run has one size and one hash, and is the same bytes if the hash is injective |
| `Sweeping.ListingSafeIff` | server/internal/store/coordinator.go:102-123 | by key, after a listing, publish-before-record holds in every continuation if and only if no listed blob of a live part is missing from the snapshot |
| `Sweeping.GuardedRunKeeps` | server/internal/store/coordinator.go:102-123 | from any good state, runs whose listings are current never leave a marked part without its blob |
| `Sweeping.NoCreationMeansCurrent` | server/internal/store/coordinator.go:103-107 | if no send is created between the two reads of a sweep, its snapshot is current |
| `Sweeping.SweptKeysAreOrphans` | server/internal/store/coordinator.go:111-121 | a sweep never lists for deletion a key of its snapshot, and with a current snapshot no key it lists has a part row then or ever after |
| `Sweeping.UnlinksOrphansOnly` | server/internal/store/coordinator.go:116-121 | each unlink of a sweep, however long after its listing, removes one blob, never one of the snapshot, and with a current snapshot never one that has a part row at that moment or at any other since the listing |
| `Sweeping.DeadKeyStaysDead` | server/internal/store/coordinator.go:100-101 | a published key without a part row never gets one again |
| `Sweeping.ListFirstNeedsNoCondition` | server/internal/store/coordinator.go:103-110 | had the blobs been listed first and the live keys read second, no listed key outside the live keys could ever become live, in any interleaving |
| `Sweeping.UploadSteps` | server/internal/store/coordinator.go:36-63 | an upload of matching bytes to an unfinished send can always run to its end, and marks its part and publishes its blob |
| `Gaps.StaleListingLosesUpload` | server/internal/store/coordinator.go:103-121 | for every usable part limit there is a run from the empty server that ends with a part marked uploaded and no blob |
| `Gaps.LateReapLosesGrant` | server/internal/store/sqlite.go:348-382 | there is a run in which a grant is valid, no time passes, and two steps of a reaping call later it is refused |
| `Gaps.RedemptionsRace` | server/internal/store/sqlite.go:241-271 | there is a run in which two redemptions have both read the send as open before either consumes it; then one is granted and the other gets ErrAlreadyRedeemed |
| `Redemption.AtMostOneGrant` | server/internal/store/sqlite.go:257-281 | in any run, with crashes and reaping, at most one step ever inserts a grant for a one-time send |
| `OneTimeDefault.OneTimeUnlessRefused` | server/internal/api/handlers.go:108-111 | a send admitted from a request that does not say `one_time: false` is granted at most once in any run |
| `Redemption.ExactlyOneWins` | server/internal/store/sqlite.go:232-288 | when any number of redemptions of an unconsumed finalized send run undisturbed to their end, one is granted and all others get ErrAlreadyRedeemed |
| `Redemption.GrantRows` | server/internal/store/sqlite.go:273-281 | only a redemption's INSERT adds a grant, only a reaping DELETE of its send removes one, and none is ever altered |
| `GrantLife.ClausesAgreeIff` | server/internal/store/sqlite.go:345-351 | the consumed clause of the reaping SELECT matches at exactly the instants at which the grant is rejected, if and only if the grant time-to-live is whole seconds |
| `GrantLife.ClausesWithinASecond` | server/internal/store/sqlite.go:302-304 | for any grant time-to-live the two instants differ by less than one second |
| `GrantLife.GrantSurvival` | server/internal/store/sqlite.go:344-386 | a step removes a grant only if it has expired, or its send has, or the send was selected as unfinished and finalized before the DELETE |
| `GrantLife.GrantLostIff` | server/internal/store/sqlite.go:348-382 | the DELETE of a reaping call removes a grant that is still good if and only if its send was selected as unfinished and finalized since |
| `GrantLife.SparedRowIff` | server/internal/store/sqlite.go:348-382 | a deleted row matches none of the three clauses any more if and only if it was selected as unfinished, is finalized, and is neither expired nor past its consumption |
| `GrantLife.LostAcrossRunIff` | server/internal/store/sqlite.go:348-382 | over a whole run, a reaping call removes a good grant if and only if the send was an upload abandoned for too long when it was selected |
| `GrantLife.AdjacentReapSpares` | server/internal/store/sqlite.go:344-386 | when nothing comes between the SELECT and the DELETE, no grant that is still good is removed |
| `Reaping.ConsumerOf` | server/internal/store/sqlite.go:257-271 | a consumed send was consumed by the UPDATE of a redemption of it, at a step before which it was not, and holds the time at which that redemption began |
| `Reaping.RejectedIsRefused` | server/internal/store/sqlite.go:302-304 | while a grant's row is in the table, validation refuses its token exactly at the instants that `GrantLife.ClausesAgreeIff` speaks of, counted from the beginning of its redemption |
| `Reaping.PicksIff` | server/internal/store/sqlite.go:344-353 | over runs, the reaping SELECT picks a send if and only if its time-to-live from the beginning of its creation is over when the reaping call begins, or it is one-time and its redemption began a grant time-to-live ago or more, or it is unfinished and its creation began 900 seconds ago or more |
| `Reaping.UnfinishedPickedIff` | server/internal/store/sqlite.go:345-352 | so an unexpired unfinished send is picked if and only if at least 900 seconds lie between the two beginnings |
| `Solo.ReapKeeps` | server/internal/store/sqlite.go:344-386 | what reaping keeps, as inequalities between the times of a row, with 900 seconds for an unfinished upload; with a send go its parts and its grants, and the keys it gives up are exactly those of the parts that go |
| `Solo.ReapAlone` | server/internal/store/coordinator.go:89-98 | an undisturbed DeleteExpired ends, in whatever order it unlinks, with exactly the reapable sends and their blobs gone, and reports their number |
| `Solo.SweepAlone` | server/internal/store/coordinator.go:102-123 | by key, an undisturbed OrphanSweep ends with exactly the blobs that have a part row, and counts the others |
| `Solo.SweepConverges` | server/internal/gc/gc.go:45-53 | from any reachable or post-crash state one undisturbed sweep keeps exactly the sends that are not expired, not consumed a grant time-to-live ago and not unfinished for 900 seconds, with all their rows unchanged, and exactly the blobs of the parts left |
| `Solo.SweepIsIdempotent` | server/internal/gc/gc.go:45-53 | afterwards published keys are live keys, every uploaded part still has its blob, and a second sweep at the same time deletes nothing |
| `Solo.DisjointKeys` | server/internal/store/store.go:134-136 | no key of a deleted send is a key of a send that is kept |
| `Records.KeyOwnerOfStorageKey` | server/internal/store/store.go:134-136 | a storage key determines its send and its part, whatever the part id contains |
| `Stores.SQLiteState.CreateSend` | server/internal/store/sqlite.go:113-149 | commits exactly when the id is new and the part ids are distinct, with the rows spelled out; otherwise nothing has changed |
| `Sql.CreatedTables` | server/internal/store/sqlite.go:121-149 | the transaction commits exactly when the id is new and the part ids are distinct, and then adds the send and an unmarked row for each declaration |
| `Sql.MissingMeans` | server/internal/store/sqlite.go:207-212 | the count is positive exactly when some part of the send is unmarked |
| `Sql.BriefMeans` | server/internal/store/sqlite.go:405-421 | the part list of a redemption has every part row of the send with its size, and nothing else |
| `Stores.SQLiteState.FinalizeSend` | server/internal/store/sqlite.go:193-228 | succeeds exactly for a finalized send or a creating one without an unmarked part, which is then finalized at the current second; every refusal has its error and leaves the tables alone; and it is the protocol's steps taken without interference |
| `Stores.SQLiteState.RedeemSend` | server/internal/store/sqlite.go:230-288 | each refusal with its condition; on success a one-time send is consumed now, the one new grant expires a grant time-to-live from now, and the reply lists every part row of the send with its size |
| `Stores.RedeemAlone` | server/internal/store/sqlite.go:232-288 | the specification of the method is what the protocol's steps do when nothing interferes |
| `Stores.SQLiteState.ValidateGrant` | server/internal/store/sqlite.go:290-306 | accepts a token hash exactly if it has a grant of that send whose expiry is after the current second |
| `Stores.SQLiteState.DeleteExpired` | server/internal/store/sqlite.go:344-386 | keeps exactly the sends that outlive the given time, by the inequalities of `Solo.ReapKeeps`, with their parts and grants, and returns the number of the others and the keys of their parts |
| `Stores.SQLiteState.KeysFor` | server/internal/store/sqlite.go:441-458 | the storage keys of the given sends, none more |
| `Stores.SQLiteState.LiveStorageKeys` | server/internal/store/sqlite.go:388-403 | the storage keys of all part rows, none more |
| `Stores.InsertPartsStops` | server/internal/store/sqlite.go:136-144 | one failing insertion rolls the whole creation back |
| `Coordination.Coordinator.PutPart` | server/internal/store/coordinator.go:36-63 | each refusal with its condition, which changes nothing; on success the row is marked with the current second and the blob is the body |
| `Coordination.UploadEffect` | server/internal/store/coordinator.go:32-35 | a stored upload leaves a marked part with a blob of the declared size and hash and touches no other key; a refused one changes nothing |
| `Coordination.UploadAlone` | server/internal/store/coordinator.go:36-63 | that specification is what the protocol's steps do when nothing interferes |
| `Coordination.Coordinator.GetPart` | server/internal/store/coordinator.go:73-82 | the blob of a declared part for a grant of that send that has not expired, and each error with its condition |
| `Coordination.DownloadAlone` | server/internal/store/coordinator.go:74-82 | that specification is what the protocol's steps do when nothing interferes |
| `Coordination.Coordinator.DeleteExpired` | server/internal/store/coordinator.go:88-98 | the tables keep what outlives the given time, and the loop over the returned keys unlinks exactly the blobs of parts that go |
| `Coordination.Coordinator.OrphanSweep` | server/internal/store/coordinator.go:102-123 | over a store by key, the loop keeps exactly the blobs with a part row and its counter is the number of the others |
| `Coordination.Worker.Sweep` | server/internal/gc/gc.go:44-59 | the state after a pass in which either step may fail, and a report, if there is a callback, exactly when something was removed or failed |
| `RateLimit.Limiter.Allow` | server/internal/ratelimit/ratelimit.go:46-69 | the answer and the new buckets of one call, with eviction before an insertion at the cap; with a setting that is not positive it allows and keeps no bucket |
| `RateLimit.Limiter.Evict` | server/internal/ratelimit/ratelimit.go:73-80 | drops exactly the buckets idle for at least the window |
| `RateLimit.IdleIsTheWindow` | server/internal/ratelimit/ratelimit.go:74-74 | burst divided by rate is the window, so the eviction test is idleness for one window |
| `RateLimit.WindowRefills` | server/internal/ratelimit/ratelimit.go:71-72 | a bucket idle for a window has refilled completely |
| `RateLimit.LimiterRefinesSolo` | server/internal/ratelimit/ratelimit.go:46-80 | on any trace with a non-decreasing clock the answers for a key are those of one never-evicted bucket fed with that key's events alone; with a setting that is not positive it always allows |
| `RateLimit.BoundedMemory` | server/internal/ratelimit/ratelimit.go:54-60 | after any trace there are at most 100000 buckets, or the peak number of distinct keys within one window |
| `Envelope.BucketIsLevel` | server/internal/ratelimit/ratelimit.go:62-67 | a bucket holds what the allowed events left in it; refused events and the instants of looking make no difference |
| `Envelope.LevelAtLeast` | server/internal/ratelimit/ratelimit.go:62-62 | the level is at least x exactly when it is so measured from every allowed event |
| `Envelope.ExactEnvelope` | server/internal/ratelimit/ratelimit.go:54-68 | an event is allowed if and only if, for the time s of every earlier allowed event, the allowed ones from s on and itself are at most perWindow + perWindow * (t - s) / window |
| `Envelope.LimiterEnvelope` | server/internal/ratelimit/ratelimit.go:46-80 | the same for the limiter with its other keys and evictions, for every positive pair of settings |
| `Envelope.BurstIsExact` | server/internal/ratelimit/ratelimit.go:54-68 | of events of one key at one instant exactly the first perWindow are allowed, for every positive pair of settings, whatever the other keys do |
| `Envelope.IntervalBound` | server/internal/ratelimit/ratelimit.go:13-14 | every interval between two allowed events obeys that bound |
| `Envelope.SpacedNeverRefused` | server/internal/ratelimit/ratelimit.go:62-66 | a client that leaves at least window / perWindow between its events is never refused |
| `FsBlob.FilesystemBlob.Put` | server/internal/store/fsblob.go:49-95 | for any reader and chunking at most limit+1 bytes are consumed, the outcome is the specified one, the key is replaced exactly on acceptance, and every failure leaves the files as they were |
| `FsBlob.PutIsSimple` | server/internal/store/fsblob.go:71-83 | below the largest int64, too large exactly when the stream exceeds the limit, and accepted exactly when length and hash are the declared ones |
| `FsBlob.SimpleRuleIff` | server/internal/store/fsblob.go:71-72 | every truthful stream within the limit is published if and only if the limit is below the largest int64 |
| `FsBlob.BrokenStream` | server/internal/store/fsblob.go:72-78 | a stream that breaks is an I/O error if the break is seen before more than the limit has been read, and too large otherwise |
| `FsBlob.FaultsReject` | server/internal/store/fsblob.go:49-95 | something is published exactly if it would be without any fault and there was none, and every fault around the copy is an I/O error |
| `FsBlob.TempIff` | server/internal/store/fsblob.go:130-130 | the skipped files are exactly those whose last path element begins with .tmp- |
| `FsBlob.Reader.Read` | server/internal/store/fsblob.go:72-72 | any reader: it may deliver less than asked, fail, or end together with its last bytes |
| `FsBlob.FilesystemBlob.List` | server/internal/store/fsblob.go:125-146 | exactly the keys of the files below the directory, the root included, whose last path element does not begin with .tmp-, each once |
| `FsBlob.FilesRefineKeys` | server/internal/store/fsblob.go:36-146 | on canonical keys the store by path is a store by key: publishing, opening, unlinking and listing commute with the mapping |
| `FsBlob.StorageKeysAreCanonical` | server/internal/store/store.go:134-136 | the storage key of a canonical part id is canonical |
| `FileSweep.OrphanSweep` | server/internal/store/coordinator.go:102-123 | over files, the loop removes exactly the files that listed keys without a row resolve to, and counts those keys |
| `FileSweep.PutStaysHome` | server/internal/store/fsblob.go:38-46 | whatever admitted key a file is published under, the name it is listed with resolves back to it |
| `FileSweep.SweptFilesAre` | server/internal/store/coordinator.go:111-121 | a file survives the sweep if and only if it is not listed or is listed under a live key, and keeps its contents |
| `FileSweep.LiveSurvivesIff` | server/internal/store/coordinator.go:111-121 | the file of a live key survives the sweep if and only if it is temporary by name, or the key without its empty elements and dots is a live key |
| `FileSweep.LiteralLiveKeysSurvive` | server/internal/store/coordinator.go:111-121 | when all live keys are literal, as canonical ones are, the files of all of them survive |
| `FileSweep.DoubledSlashIsLost` | server/internal/api/handlers.go:87-90 | for any directory but the root, any send and any files, the blob of a live part "a//b" is removed by the sweep |
| `FileSweep.DoubledSlashOverwrites` | server/internal/store/fsblob.go:38-46 | of the parts "a//b" and "a/b" of one send the later upload replaces the bytes of the other |
| `FileSweep.FileStep` | server/internal/store/coordinator.go:28-123 | over canonical keys one step of the protocol over files is that step over keys |
| `FileSweep.FilesOfRun` | server/internal/store/coordinator.go:28-123 | in every state of every run whose declared part ids are canonical, the files hold the blobs, their listing is the keys, and resolving a declared part's key finds its blob |
| `FileSweep.FilesPublished` | server/internal/store/coordinator.go:32-35 | publish-before-record over files, for such runs without a stale listing |
| `Paths.RefusedIff` | server/internal/store/fsblob.go:38-46 | a key is refused exactly if it is empty, absolute or has two dots in a row, or the directory is the root and the key names something |
| `Paths.EscapesIff` | server/internal/store/fsblob.go:42-45 | the escape test fires if and only if the directory is the root and the cleaned key is not empty |
| `Paths.JoinedElements` | server/internal/store/fsblob.go:42-42 | the joined path is the directory's elements followed by those of the cleaned key, dots and doubled slashes gone |
| `Paths.ListedBackIff` | server/internal/store/fsblob.go:125-145 | every admitted key resolves, and is listed back as itself if and only if no element of it is empty or a dot |
| `Paths.ResolveInjective` | server/internal/store/fsblob.go:38-47 | two literal keys never share a path |
| `Paths.NonLiteralKeysCollide` | server/internal/store/fsblob.go:38-47 | doubling a slash of any admitted key gives another admitted key for the same file |
| `Paths.ResolveEqualIff` | server/internal/store/fsblob.go:38-47 | two admitted keys share a file if and only if they are the same after dropping empty elements and dots |
| `Paths.StrictlyBelowIff` | server/internal/store/fsblob.go:36-47 | an admitted key resolves strictly below the directory if and only if the directory is not the root and some element of the key is neither empty nor a dot |
| `Ids.EncodePreservesOrder` | server/internal/store/ids.go:11-13 | the lower-cased base32hex text of two byte strings of equal length is in the same strict order as the bytes, and distinct for distinct bytes |
| `Ids.NewSendId` | server/internal/store/ids.go:17-28 | filling the sixteen bytes in place and encoding them gives the prefixed id of the clock and the random bytes, thirty characters long |
| `Ids.IdsSortByTime` | server/internal/store/ids.go:15-28 | ids compare like the low 48 bits of the clock and then the random bytes, so below 2^48 milliseconds an earlier id sorts first whatever its random bytes |
| `Ids.IdsAreKeySafe` | server/internal/store/ids.go:17-28 | an id holds no slash and no dot, and equal ids come from equal clocks and random bytes |
| `Create.HandleCreate` | server/internal/api/handlers.go:61-113 | admits a request exactly under the inequalities listed, one-time unless it says false, with its parts as declared, and a refusal names the first check that fails |
| `Create.DeclaredParts` | server/internal/api/handlers.go:83-102 | the loop with its set of ids and running total passes exactly distinct, well-declared parts, and otherwise stops at the first bad one |
| `Create.FirstRefusalMeans` | server/internal/api/handlers.go:86-99 | a bad declaration is reported for the first part that is not good: empty or sizeless before repeated before oversized |
| `Create.RunsIff` | server/internal/config/config.go:69-94 | the settings with which the server starts, with the ceiling of a week written out |
| `Create.RetentionBound` | server/internal/api/handlers.go:74-81 | for every int64 the client may send, an admitted send has a time-to-live in (0, maximum] and timestamps at most 604800 seconds apart |
| `Create.NothingOutlivesTheWeek` | server/internal/store/sqlite.go:348-353 | in any reachable state no admitted send survives an undisturbed sweep seven days or more after its creation |
| `Create.PositiveTtlIff` | server/internal/api/handlers.go:74-81 | a positive request is granted as asked or refused as too long if and only if its nanoseconds fit in an int64 or wrap above the maximum |
| `Create.DefaultTtlIff` | server/internal/api/handlers.go:74-77 | the exact condition under which a request for the default gets the default |
| `Create.WrappedTtl` | server/internal/api/handlers.go:74-74 | 18446744074 seconds is admitted and means 0.29 seconds |
| `Create.CapIff` | server/internal/api/handlers.go:85-106 | for requests of at most n parts, for any n, the running int64 total enforces the total cap if and only if n full parts, or MaxPartCount of them if that is fewer, fit in an int64 |
| `Create.OverflowingIsAdmitted` | server/internal/api/handlers.go:100-106 | when n full parts overflow and the part count allows n, a request of at most n parts is admitted whose sizes add up to 2^63 |
| `Create.ReceivedStaysWithinCap` | server/internal/api/handlers.go:14-14 | with parts of at most 8 TiB, whatever the part count, every request that fits in the body limit stays within the cap |
| `Create.TwoPartsOverflow` | server/internal/api/handlers.go:96-106 | with parts of 2^62 bytes allowed, a request of two short declarations is admitted and passes every cap |
| `Create.RowTotalIsExact` | server/internal/store/sqlite.go:117-132 | when the parts of an admitted request cannot overflow, the recorded total is the exact sum and within the cap |
| `Create.ValidSHA256Hex` | server/internal/api/handlers.go:16-29 | accepts exactly the strings that are 32 bytes written in hex, which are those of 64 characters among 0-9 and a-f |
| `Manifest.DiscoveredShaped` | skill/send/scripts/send.sh:213-243 | discovery puts the one compact part first, numbers its parts consecutively, marks for loading exactly those that are not details, and gives each a known kind, whatever the files are called |
| `Manifest.DiscoveredAre` | skill/send/scripts/send.sh:213-243 | discovery makes exactly one part of each regular file of the two directories, in listing order, named by its stem, with its kind, size and flags |
| `Manifest.StemOf` | skill/send/scripts/send.sh:230-230 | the stem is the name without its last extension, or the whole name if it has none |
| `Manifest.KindOf` | skill/send/scripts/send.sh:158-167 | the kind of each of the six known extensions |
| `Manifest.KindOfOthers` | skill/send/scripts/send.sh:158-167 | binary exactly for all other names |
| `Manifest.TransportIdNumber` | skill/send/scripts/send.sh:223-223 | a transport id is part_ and at least four digits, four up to 9999, from which the number can be read back |
| `Manifest.UploadIdsDistinct` | skill/send/scripts/send.sh:435-436 | the part ids of one upload are distinct, the manifest's included |
| `Manifest.WordStep` | skill/send/scripts/send.sh:97-106 | in a line of quoted words the last match of the expression is found word by word |
| `Manifest.TitleIsSilent` | skill/send/scripts/send.sh:287-287 | no title makes its own line yield a value for any of the four keys, whichever way the awk treats backslashes |
| `Titles.TitleReadsBack` | skill/send/scripts/send.sh:74-87 | with an awk that doubles backslashes, the JSON string printed for a title denotes the title, for every title |
| `Titles.BareTitleIff` | skill/send/scripts/send.sh:74-87 | with an awk that prints one backslash for one, it does so if and only if the title holds no backslash |
| `Manifest.PartRow` | skill/send/scripts/send.sh:298-302 | a printed part line is selected and reads back as its four fields |
| `Manifest.SpacesAround` | skill/send/scripts/send.sh:97-106 | white space around the colon does not matter to the readers of one field |
| `Manifest.TabsRunTogether` | skill/send/scripts/send.sh:599-600 | any runs of tabs before, between and after four fields read as the four fields |
| `Manifest.PartLineText` | skill/send/scripts/send.sh:299-301 | the printed text of a part, piece by piece, with a comma after all but the last |
| `Client.HeaderText` | skill/send/scripts/send.sh:284-297 | the printed text of the seven lines before the parts |
| `Client.DefaultIdsAre` | skill/send/scripts/send.sh:291-295 | default_load names the parts loaded by default |
| `Client.ChosenInOrder` | skill/send/scripts/send.sh:599-616 | those are the parts with the flag, each once, in order |
| `Client.RoundTrip` | skill/send/scripts/send.sh:279-306 | reading the printed manifest gives back every part in order and nothing else, for plain semantic ids and any one-line title |
| `Client.RoundTripIff` | skill/send/scripts/send.sh:626-634 | for any working directory the round trip holds if and only if no semantic id holds a quote, a tab or a newline, which plain file names guarantee |
| `Client.UploadsAreCanonical` | skill/send/scripts/send.sh:435-436 | every part id this client uploads is a key that the blob store keeps apart and lists back |
| `Client.UploadKeysAreCanonical` | skill/send/scripts/send.sh:435-436 | so is every storage key of an upload, whatever id its send gets |
| `Client.LoadFetchesExactly` | skill/send/scripts/send.sh:599-616 | a load fetches exactly the parts marked for loading, in order, and no detail; its context is the compact part, its evidence the other marked parts in order, and every detail is listed |
| `Client.RowsInOrder` | skill/send/scripts/send.sh:625-634 | one row for each line that holds the quoted key, in order |
| `Client.DetailIff` | skill/send/scripts/send.sh:653-659 | asking for a semantic id gets that part if and only if no later file has the same stem |
| `Client.LastAnswers` | skill/send/scripts/send.sh:653-655 | the last row with the wanted id decides |
| `Client.UnknownDetail` | skill/send/scripts/send.sh:653-657 | an id that no part has is not found |
| `Client.Skill.DiscoverParts` | skill/send/scripts/send.sh:213-243 | the parallel arrays stay aligned and hold the discovered parts; without compact.md there are none |
| `Client.Skill.AddFiles` | skill/send/scripts/send.sh:228-241 | one directory's loop adds a part for every regular file and numbers on |
| `Client.Skill.DefaultLoad` | skill/send/scripts/send.sh:291-295 | the quoted list of the parts loaded by default |
| `Client.Skill.BuildManifest` | skill/send/scripts/send.sh:279-306 | the printed file, line by line |
| `Client.Skill.PartsLines` | skill/send/scripts/send.sh:625-634 | one row for every line that mentions a transport id |
| `Client.Skill.Load` | skill/send/scripts/send.sh:599-616 | what the walk fetches and lists |
| `Client.Skill.FindDetail` | skill/send/scripts/send.sh:653-659 | the last row with the wanted semantic id |

## Left out

- Reading the configuration from the environment, HTTP routing, JSON decoding and the exact text of a body (a create request is taken as decoded, and the number of parts it can hold is a parameter of `Create.CapIff`), status mapping, landing pages, request logging, the team token, start-up and shutdown.
- The SQLite engine, WAL, the driver and its limits: a statement is atomic, foreign keys and primary keys are enforced. Statements that fail for other reasons are calls that end early.
- GetSendMeta, partsFull and every ORDER BY: the parts of a reply are a map from part id to size.
- SHA-256, crypto/rand, age, gzip and base64: hashes are uninterpreted functions, fresh values are parameters. NewRedeemToken is a fresh token.
- Clocks: CreateSend, RedeemSend and the worker read the clock once, before their first statement; the other methods read it together with the statement that uses it.
- Floating-point rounding in the limiter: arithmetic is over the reals, and the clock does not go back under the lock. A bucket is a value in a map, so the sharing of a bucket object is not modelled.
- Temporary files left by a crash, removal of emptied directories, a key whose path is a directory or passes through a file (any such failure is the mkdir, create or rename fault of `Put`), and Windows separators. Listing is atomic and unlinking succeeds.
- Publication.RunPublished: speaks of blobs under opaque keys; over files it is `FileSweep.FilesPublished`, for runs whose part ids are canonical, and fails at "a//b".
- Sweeping.ListingSafeIff: speaks of opaque keys; over files a current snapshot spares a live blob under the further condition of `FileSweep.LiveSurvivesIff`.
- Solo.SweepAlone: speaks of opaque keys; the sweep over files is `FileSweep.OrphanSweep`.
- Coordination.Coordinator.OrphanSweep: runs over a store by key; the loop over the filesystem store is `FileSweep.OrphanSweep`.
- The protocol's other theorems likewise speak of blobs under opaque keys and reach files through `FileSweep.FilesOfRun`, for canonical part ids; what a run does with other ids is stated for single uploads and sweeps only.
- The rows selected by a reaping call are kept beside their ids, for comparison in proofs; the steps use the ids only. Deletion loops take their keys in any order.
- The worker's ticker; the coordinator's pass-through methods and Close.
- Coordination.BlobStore: its put takes the whole body at once, because the streaming form is `FsBlob.FilesystemBlob.Put`.
- Reading the title and version back from the manifest, whether the printed manifest is valid JSON beyond its title, `\u` escapes and control characters in titles, multi-line titles, the result line of a load, size caps, the secret scan and the grant cache of the shell client. Rows are passed between its procedures as a list of lines.
- send.ps1, tests/mock_sendd.py, deployment scripts and the rest of the documentation.
