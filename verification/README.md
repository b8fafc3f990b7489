# Verified model of the backup server

This project models the backend of a backup and inference service in Dafny and
proves what its parts promise together. The centre is one state machine: an
account's backups (a chain of full and delta versions), the bill for keeping
them, and the files they stand for. Around it are the upload slots, the per-ip
rate limiter, the batch encoder, the redemption of challenges and enrollment
tokens, the inference overdraft and the navigation history of the client.

`dafny verify dfyconfig.toml` checks everything.

## How the modules fit together

- `Pricing`, `Tables` and `Transactions` give prices, SQL clauses and aggregates,
  and the committed effect of each store transaction as a function on a
  database value. `Stores` holds the mutable store, statement by statement with
  rollback, and `Ledgers` the ledger on top of it; every method is proved against
  those functions.
- `Runs` proves an invariant of every sequence of transactions, accepted or
  refused. `Chains`, `Admission` and `BillingRuns` draw the consequences:
  deletes, prunes and restores; quotas and isolation; the ledger and the
  storage bill.
- `Blobs` is the directory of files. `BackupSystem` interleaves upload, delete,
  prune and account-delete handlers, the orphan sweep and crashes; an upload
  transaction checks in one step and commits in another, holding the lock of its
  account in between. `DurableBackups` proves that rows keep their files, that
  the database of every interleaving goes through a run of the store, and that
  restores from disk never change. `WholeUploads` follows one upload from its first
  byte to its end, `Removals` the files of rows that go and the recovery after a
  crash, `AccountDeletes` the files an account delete leaves behind, and
  `JointBilling` the storage bill of the interleaved server. `Promises` proves that
  the lock keeps every answer of the checks but the total the cap check read, and
  `StorageCap` how far that lets the stored total overshoot the cap.
- `UploadSlots` (who may upload), `RateLimiter`, `Encode`,
  `AuthTables`/`AuthStore`/`AuthRuns`, `Inference` and `Navigation` are the
  smaller machines.
- `Outcomes`, `Arithmetic` and `Sums` are helpers.

Integers are unbounded: bytes, nanoseconds and microcredits are exact, and a
rounded price is an exact ceiling.

## Where the code does something else than expected

- **Grace period of the sweep.** Let D bound the time from the last write of a
  file to the commit of its row and G the time from listing the rows to taking
  the cutoff. `D + G <= minAge` is not enough: the sweep spares a file only when
  its time is strictly after the cutoff (`blobs.go:139`), so in the case of
  equality a row committed right after the listing loses its file. Rows are safe
  exactly when `D + G < minAge` (`DurableBackups.SweepSafeIff`).
- **Cap.** The cap check reads the total of all accounts under the lock of one
  (`backups.go:149-157`). The stored total can exceed the cap by one largest
  backup for every upload slot but one, and no smaller bound holds
  (`StorageCap.CapBoundExact`).
- **Quota.** An upload reads the balance before it settles the storage
  (`backups.go:117-148`). An account whose last credit goes into that settlement
  still gets its upload (`Admission.OverdrawnIff`); on a server with the default
  prices 501 MB and, an hour later, one more byte do it
  (`Admission.OverdrawnExample`).
- **One `now` for a whole billing pass.** If an upload or delete settles an
  account after the pass took its `now`, the pass moves the mark back and the
  period in between is billed again (`BillingRuns.StalePassBillsTwice`). A pass may
  take five minutes (`main.go:171`), and four are enough to pay more
  (`BillingRuns.StalePassExample`). Each instant is billed once exactly when no
  settlement is dated before its mark (`BillingRuns.BilledOnceIff`), and the
  handlers alone never settle before it (`JointBilling.HandlersNeverBehind`).
- **Account deletes.** The paths are listed before the account is locked
  (`accounts.go:110-129`). The file of a row that goes is left to the sweep
  exactly when the row was committed after the listing
  (`AccountDeletes.LeftBehindIff`, with a run of the server in
  `AccountDeletes.FileLeftBehind`). Nothing but the sweep removes such a file
  (`AccountDeletes.OnlySweepRemoves`).
- **Inference slots.** A call passes the balance check before it waits for a
  slot, so the slots do not bound the overdraft; the calls in flight do
  (`Inference.OverdraftExact`).
- **Janitor.** Purging shows in one place only, the number of sessions that a
  revocation reports (`AuthRuns.RevocationCountShowsPurge`, with a run in which
  it falls from 1 to 0 in `AuthRuns.PurgeLowersCount`).

## Assumptions

- A transaction whose commit reports an error has committed nothing.
- Random file names, nonces and token hashes are fresh, and so are the ids the
  database hands out; they need not be committed in that order.
- Accounts start with balance 0 and version counter 0; `backup_version_seq` is
  at or above every existing version.
- Where a statement needs a clock that does not go back, it says so in its
  `requires` or its events: the clock of `BackupSystem` and of the auth tables
  may stand still but not go back; settlements may carry any time.
- A row is committed at most `commitDelay` after the last write of its file, and
  the cutoff of a sweep is taken at most `walkDelay` after its listing.

## Model

| member | source | states |
|---|---|---|
| Pricing.Cost | deployables/backend/internal/billing/billing.go:41-55 | an embedding costs the embedding price of its tokens, a rerank the rerank price, rounded up to whole microcredits; a priced call with tokens is never free and one without tokens is |
| Pricing.StorageCost | deployables/backend/internal/billing/billing.go:59-68 | the storage price is the exact price rounded up by less than one microcredit, and 0 below the free quota or for no time |
| Pricing.SettlementSchedule | deployables/backend/internal/billing/billing.go:59-68 | settling a period in any n pieces never lowers the bill and adds at most n - 1 microcredits |
| Pricing.GigabyteMonths | deployables/backend/internal/billing/billing.go:59-68 | n gigabytes over the free megabytes cost n times the advertised price for 30 days, exactly |
| Stores.Store.ChargeTx | deployables/backend/internal/store/billing.go:54-71 | balance and usage event change together, by the same amount |
| Stores.Store.SettleStorageTx | deployables/backend/internal/store/billing.go:181-209 | the old byte count is paid for the time since the mark and the mark moves to now, also backwards; the byte count returned is the stored one |
| Stores.Store.CheckUpload | deployables/backend/internal/store/backups.go:135-173 | the checks are made in the specified order, the cap check on the sum that was read, and name the first that fails |
| Stores.Store.CreateBackup | deployables/backend/internal/store/backups.go:107-185 | whatever sum the cap check read and whatever id the row gets, the statements in order commit exactly the specified transaction, and every refusal leaves rows, counter, mark, balance and events as they were |
| Stores.Store.DeleteBackup | deployables/backend/internal/store/backups.go:187-216 | commits the specified delete, or nothing when the row is missing or still a parent |
| Stores.Store.PruneBackups | deployables/backend/internal/store/backups.go:218-261 | commits the specified prune and returns the removed rows, or changes nothing |
| Stores.Store.AllStoragePaths | deployables/backend/internal/store/backups.go:263-281 | the result holds exactly the paths some row refers to |
| Stores.Store.StorageBillingDue | deployables/backend/internal/store/billing.go:127-151 | every account whose mark is more than the given age old, or that has none and stores something, is listed once and no other |
| Stores.Store.SettleStorage | deployables/backend/internal/store/billing.go:153-170 | a settlement on its own moves the mark and reports what it took from the balance; an unknown account changes nothing |
| Stores.Store.Charge | deployables/backend/internal/store/billing.go:40-52 | the balance falls by the cost, below zero if need be, and is returned; one event is booked; an unknown account changes nothing |
| Stores.Store.AddCredits | deployables/backend/internal/store/billing.go:74-84 | the balance of an existing account grows by the amount and is returned, and nothing else changes |
| Stores.Store.DeleteAccount | deployables/backend/internal/store/accounts.go:103-136 | cascades rows and events of the account and returns the paths the earlier listing found, whatever committed in between |
| Ledgers.Ledger.Precheck | deployables/backend/internal/billing/billing.go:96-108 | passes exactly when billing is not enforced or the balance is positive, and says that credits are missing exactly when they are |
| Ledgers.Ledger.Charge | deployables/backend/internal/billing/billing.go:110-128 | the balance falls by the price of the tokens at the rate of their kind, and price and new balance are reported |
| Ledgers.Ledger.BillStorage | deployables/backend/internal/billing/billing.go:143-164 | with any transactions of others between its settlements, and even when it stops at an error, the pass settles only due accounts, once each, and reports what these settlements took from the balances; without error no due account is left out |
| Ledgers.QuietPass | deployables/backend/internal/billing/billing.go:143-164 | when nothing else commits, the report is the sum of the events booked, these are all that changed the balances, and exactly the settled accounts are paid to the given time |
| Ledgers.NobodyLeft | deployables/backend/internal/billing/billing.go:143-164 | after a complete undisturbed pass nobody is due, unless its time is more than a day behind the clock of the database |
| Runs.ReachableInv | deployables/backend/internal/store/backups.go:104-261 | the invariant holds in every state reachable from the empty database, overlapping cap checks included |
| Chains.OneDeltaPerBackup | deployables/backend/internal/store/backups.go:159-173 | no two deltas share a parent |
| Chains.PruneBoundary | deployables/backend/internal/store/backups.go:218-220 | what a prune keeps is self contained if and only if the boundary is a full backup |
| Chains.PruneAccepted | deployables/backend/internal/store/backups.go:221-261 | a prune is accepted exactly at a full backup of the account and removes exactly the older rows; a delta, and a version the account does not have, are refused as such; the parent key is never tripped |
| Chains.DeleteAccepted | deployables/backend/internal/store/backups.go:187-216 | a delete is refused as not found exactly when the account has no such backup, as in use exactly when some delta builds on it, and otherwise removes that row alone |
| Chains.NoIntegrityErrors | deployables/backend/internal/store/backups.go:174-184 | in reachable states no upload with an id from the sequence violates a unique index and no prune or account delete the parent key |
| Chains.AccountDeleted | deployables/backend/internal/store/accounts.go:125-135 | deleting an account takes all and only the rows and events that belong to it |
| Chains.RowsAreOldOrNew | deployables/backend/internal/store/backups.go:114-128 | a row present later was there before or has an id no row had and a version above the old counter; ids may be committed in any order |
| Chains.VersionNamesOneBackup | deployables/backend/internal/store/backups.go:104-106 | an id, and a version of an account, names the same backup at any two moments of a run |
| Chains.NewVersionIsHighest | deployables/backend/internal/store/backups.go:104-106 | whatever was deleted in between, a new version lies above every earlier version of its account |
| Chains.VersionsConsecutive | deployables/backend/internal/store/backups.go:104-128 | over every run the version counter of an account moves by one for every accepted upload: refusals and deletes leave no gap |
| Chains.RestoreNeverChanges | deployables/backend/internal/store/backups.go:204-261 | restoring is defined for every row of a reachable state and no transaction changes what a surviving row restores to |
| Admission.UploadAccepted | deployables/backend/internal/store/backups.go:135-185 | an upload is accepted exactly when account, version limit, quota and the cap under the total that was read allow it with the new backup in, and a delta builds on the newest row; it adds that row as head, with the next version and all it was given, and a refusal changes nothing |
| Admission.UploadRefused | deployables/backend/internal/store/backups.go:112-173 | each refusal has its exact condition: no such account, no version left, bytes not affordable, server full, unknown parent, parent not the head, in this order |
| Admission.OverdrawnIff | deployables/backend/internal/store/backups.go:115-148 | an accepted upload leaves the account over its free quota on a spent balance if and only if its own settlement uses up the credit |
| Admission.OverdrawnExample | deployables/backend/internal/store/backups.go:115-148 | a run of the empty server at default prices that ends that way |
| Admission.RunWithinCap | deployables/backend/internal/store/backups.go:149-157 | when every cap check reads what is stored at its commit, the bytes on the server stay within the cap over every run |
| Admission.OthersUntouched | deployables/backend/internal/store/backups.go:80-86 | a transaction of one account changes no balance, counter, mark, row or event of another |
| Admission.SameRefusal | deployables/backend/internal/store/backups.go:112-173 | nothing other accounts commit changes the answer of an upload's checks, but for the total |
| BillingRuns.LedgerConserved | deployables/backend/internal/store/billing.go:40-84 | in every reachable state the balance is the credits added minus the booked costs |
| BillingRuns.BalanceExplained | deployables/backend/internal/store/billing.go:40-84 | and these are what its model calls cost and the storage bill, so every microcredit is accounted for |
| BillingRuns.BillIsBilledArea | deployables/backend/internal/store/billing.go:181-209 | for arbitrary settlement times, the storage bill is at least the exact price of the bytes every instant was billed for, summed over all settlements that billed it, and less than one microcredit more per charging settlement |
| BillingRuns.WeightIsBytes | deployables/backend/internal/store/billing.go:181-209 | when no settlement is dated before its mark, each instant between the marks is billed for exactly the bytes stored then |
| BillingRuns.BillIsIntegral | deployables/backend/internal/store/billing.go:181-209 | then the storage bill between two marks is at least the exact integral of the billable bytes over every nanosecond, and less than one microcredit more per charging settlement |
| BillingRuns.UnmarkedStoresNothing | deployables/backend/internal/store/billing.go:187-193 | an account without a mark stores no bytes, so nothing escapes the bill |
| BillingRuns.EveryInstantBilled | deployables/backend/internal/store/billing.go:191-207 | for arbitrary settlement times, an instant between first and last mark is billed once plus once per backward move over it |
| BillingRuns.BilledOnceIff | deployables/backend/internal/store/billing.go:191-207 | every instant between the marks is billed once and no other, if and only if no settlement is dated before its mark |
| BillingRuns.StalePassBillsTwice | deployables/backend/cmd/server/main.go:167-188 | settling at an older time than the mark charges nothing and makes the next settlement bill the period again |
| BillingRuns.StalePassExample | deployables/backend/cmd/server/main.go:167-188 | a run of the empty server at default prices in which an upload commits four minutes into a pass that may take five; the account is due at that pass and at the next one, and the next one has billed 46 microcredits more than without the stale settlement |
| JointBilling.HandlersNeverBehind | deployables/backend/internal/store/backups.go:130 | in every interleaving in which settlements on their own carry the current time, uploads, deletes and prunes never settle an account before its mark |
| JointBilling.InterleavedBill | deployables/backend/internal/store/billing.go:181-209 | so between any two moments of such an interleaving the bill brackets the exact integral of the stored bytes, and every instant is billed once |
| Blobs.WrittenNamesResolve | deployables/backend/internal/blobs/blobs.go:108-119 | every name Write hands out is accepted by Open and Remove |
| Blobs.NamesDiffer | deployables/backend/internal/blobs/blobs.go:55 | two blobs have one name only if owner and random part are the same |
| Blobs.NameUnderOwner | deployables/backend/internal/blobs/blobs.go:48-57 | a blob lies right below the directory of its owner, and no part file has the name of a blob |
| Blobs.AcceptedIffInside | deployables/backend/internal/blobs/blobs.go:108-119 | a path is accepted exactly when walking it from the root leads to something below the root and it has no two dots in a row; so no accepted path leads out |
| Blobs.Dir.Write | deployables/backend/internal/blobs/blobs.go:42-80 | the whole content appears under the new name with its size and checksum, or the directory is as before; with a random part that its owner has not had, every file that was there stays as it was |
| Blobs.Dir.Remove | deployables/backend/internal/blobs/blobs.go:96-106 | removes that file and no other, tolerates a missing one, and refuses exactly escaping paths and what the file system refuses |
| Blobs.Dir.Sweep | deployables/backend/internal/blobs/blobs.go:126-171 | removes exactly the old, unknown files and reports their number and bytes |
| BackupSystem.ExecKeeps | deployables/backend/internal/httpapi/backup.go:167-240 | every interleaving of the handlers, of overlapping upload transactions, of the sweep and of crashes keeps names apart and rows on complete files |
| DurableBackups.SafeAlways | deployables/backend/cmd/server/main.go:195-202 | with a long enough grace period each row's file is there with the recorded size and checksum, in every reachable state |
| DurableBackups.LateCommitLosesFile | deployables/backend/internal/blobs/blobs.go:137-141 | with a shorter one, some interleaving from the empty server loses a file |
| DurableBackups.SweepSafeIff | deployables/backend/cmd/server/main.go:195-202 | rows never lose their file if and only if commit delay plus walk delay is below the grace period |
| DurableBackups.ExecIsRun | deployables/backend/internal/httpapi/backup.go:167-240 | the database of every interleaving, overlapping cap checks included, goes through a run of the store |
| DurableBackups.WholeWrite | deployables/backend/internal/blobs/blobs.go:42-80 | the file events of an upload nothing comes between leave the directory as Dir.Write does |
| DurableBackups.WholeSweep | deployables/backend/internal/blobs/blobs.go:126-156 | the events of a walk nothing comes between leave files and part files as Dir.Sweep does |
| DurableBackups.UndisturbedSweep | deployables/backend/cmd/server/main.go:195-202 | a complete sweep nothing comes between keeps exactly the files that have a row or are younger than the grace period, and exactly the younger part files |
| DurableBackups.CommitStoresUpload | deployables/backend/internal/httpapi/backup.go:167-240 | an accepted upload is recorded with its account, parent and meta, and downloaded as the bytes that were received |
| WholeUploads.AnyPieces | deployables/backend/internal/blobs/blobs.go:42-80 | in whatever pieces and however slowly a body arrives, its file holds the pieces in order and has the time of the last one |
| WholeUploads.BrokenOff | deployables/backend/internal/blobs/blobs.go:62-77 | an upload that breaks off leaves no file, no part file and no lock |
| WholeUploads.TurnedDownUpload | deployables/backend/internal/httpapi/backup.go:179-236 | so does a complete upload whose transaction is refused or rolled back |
| WholeUploads.NoEmptyBackup | deployables/backend/internal/httpapi/backup.go:186-191 | in no interleaving does an empty body become a backup |
| DurableBackups.RestoreSurvives | deployables/backend/internal/httpapi/backup.go:396-476 | through every interleaving of handlers, sweeps and crashes a surviving backup restores from disk to the same content |
| Removals.RowsTakeFiles | deployables/backend/internal/httpapi/backup.go:395-476 | in every reachable state a delete or prune makes a file due for removal exactly when its row went; when nothing comes between, exactly these files are gone in the end and all else is as it was |
| Removals.AccountTakesFiles | deployables/backend/internal/store/accounts.go:103-136 | an account delete nothing comes between takes exactly the rows and files of the account |
| Removals.ListedInVain | deployables/backend/internal/store/accounts.go:103-136 | one that fails, or finds no account, changes nothing |
| Removals.CrashRecovers | deployables/backend/cmd/server/main.go:190-215 | after a crash in any reachable state, the first sweep after the grace period leaves exactly the files of the rows, each as it was, and no part file |
| AccountDeletes.ListedIff | deployables/backend/internal/store/accounts.go:110-129 | in any interleaving that follows, the paths listed by an account delete are those of exactly the rows that were there |
| AccountDeletes.LeftBehindIff | deployables/backend/internal/store/accounts.go:103-136 | in every run from the empty server, the file of a row that an account delete takes is intact right after it; it is left to the sweep if and only if the row was committed after the listing, and otherwise the delete goes on to remove it |
| AccountDeletes.OnlySweepRemoves | deployables/backend/cmd/server/main.go:195-202 | whatever happens, a file left to the sweep stays as it is until the sweep removes it |
| AccountDeletes.KeptIsLeft | deployables/backend/internal/httpapi/backup.go:420-423 | a file whose removal is refused stays and is left to the sweep |
| AccountDeletes.LeftIsSwept | deployables/backend/internal/blobs/blobs.go:126-156 | an undisturbed sweep removes it exactly when it is no longer younger than the grace period |
| AccountDeletes.FileLeftBehind | deployables/backend/internal/store/accounts.go:110-129 | a run of the empty server that ends with such a file |
| Promises.CheckedUploadsCommit | deployables/backend/internal/store/backups.go:112-185 | whatever interleaves, a checked upload that commits in time is accepted |
| StorageCap.CapOvershoot | deployables/backend/internal/httpapi/backup.go:148-240 | from any state within the cap the sum of the stored rows stays within the cap plus one largest backup per slot but one, over every interleaving; with one slot the cap is exact |
| StorageCap.WorstCaseReached | deployables/backend/internal/store/backups.go:149-157 | some interleaving from the empty server stores exactly that much |
| StorageCap.CapBoundExact | deployables/backend/internal/httpapi/backup.go:246-276 | the bound is the least one that holds, the largest backup being the smaller of the upload limit and the cap |
| UploadSlots.AdmissionGuard | deployables/backend/internal/httpapi/backup.go:253-276 | in every interleaving a handler is admitted exactly when no other uploads for its account, and only while fewer than the slots upload |
| UploadSlots.AdmittedBegins | deployables/backend/internal/httpapi/backup.go:253-276 | whenever a handler is admitted, its upload can begin in the joint model of rows and files, and belongs to a handler with a slot from then on |
| UploadSlots.NothingKept | deployables/backend/internal/httpapi/backup.go:253-276 | the busy path and release give back exactly what was taken |
| RateLimiter.IpLimiter.Evict | deployables/backend/internal/httpapi/ratelimit.go:47-54 | exactly the idle entries go, and only when a sweep is due |
| RateLimiter.IpLimiter.Allow | deployables/backend/internal/httpapi/ratelimit.go:43-66 | one call evicts, tracks the ip unless the table is full, and takes a token |
| RateLimiter.TableBounded | deployables/backend/internal/httpapi/ratelimit.go:28-31 | the table never outgrows its limit, whatever the calls and the clock |
| RateLimiter.UntrackedCall | deployables/backend/internal/httpapi/ratelimit.go:57-60 | a new ip that meets a full table is let through and leaves no entry; only the sweep takes place |
| RateLimiter.TrackedAreIdeal | deployables/backend/internal/httpapi/ratelimit.go:43-66 | over every run, full tables included, the tracked calls are answered as by an unbounded limiter that never evicts, and all others are let through |
| RateLimiter.TrackedRate | deployables/backend/internal/httpapi/ratelimit.go:28-66 | in every stretch of every run the tracked calls of an ip that are let through are at most the burst plus the rate times the length |
| RateLimiter.ServerRates | deployables/backend/internal/httpapi/router.go:52-53 | that is 10 and one every three seconds for logins, 30 and five a second for public calls |
| RateLimiter.EvictionInvisibleIff | deployables/backend/internal/httpapi/ratelimit.go:28-66 | eviction never shows if and only if a drained bucket refills before its entry can be evicted |
| RateLimiter.ServerLimitersInvisible | deployables/backend/internal/httpapi/router.go:52-53 | both limiters of the server meet that condition |
| Encode.BuildBatch | deployables/backend/internal/encode/onnx.go:210-231 | every row of the flat arrays is laid out so, and the token count is the sum of the attentions |
| Encode.TokensAreMaskSum | deployables/backend/internal/encode/onnx.go:210-231 | the billed tokens equal the sum of the whole padded mask |
| Encode.MeanPool | deployables/backend/internal/encode/onnx.go:357-376 | the result is the coordinate-wise mean of the unmasked vectors, or the old content when there are none |
| Encode.MeanOfParts | deployables/backend/internal/encode/onnx.go:357-376 | the mean of any vectors is the weighted mean of the means of two parts of them |
| Encode.SelectedConcat | deployables/backend/internal/encode/onnx.go:360-363 | each position is looked at on its own and taken exactly when its mask is not 0 |
| Encode.VectorAt | deployables/backend/internal/encode/onnx.go:303-311 | where the numbers of a token stand in the output of the whole batch |
| Encode.Normalise | deployables/backend/internal/encode/onnx.go:378-390 | the vector becomes its unit vector; a zero vector stays |
| Encode.UnitIff | deployables/backend/internal/encode/onnx.go:378-390 | the unit vector of a nonzero vector has length one and is its only positive multiple of that length |
| Encode.Embed | deployables/backend/internal/encode/onnx.go:282-316 | each text gets the mean over its own unmasked tokens, whatever stands at padded positions, or token 0 of its row, brought to length one |
| Encode.BatchIndependence | deployables/backend/internal/encode/onnx.go:297-314 | Embed gives a text the same normalised vector in two batches of any widths, under either pooling, if the model gives the tokens the pooling looks at the same vectors |
| AuthStore.Store.CreateChallenge | deployables/backend/internal/store/auth.go:29-43 | for an existing device only; at any later time the challenge can be redeemed with its nonce alone and exactly until it expires; no other changes |
| AuthStore.Store.ConsumeChallenge | deployables/backend/internal/store/auth.go:45-62 | succeeds exactly for an unused, unexpired challenge with the right nonce, after which no nonce redeems it again; no other challenge changes |
| AuthStore.Store.CreateSession | deployables/backend/internal/store/auth.go:66-73 | at any later time the session is found exactly until it expires, and no other lookup changes; a taken hash and a missing account or device are refused, each as such |
| AuthStore.Store.SessionByTokenHash | deployables/backend/internal/store/auth.go:75-88 | finds a session exactly until it expires |
| AuthStore.Store.DeleteSession | deployables/backend/internal/store/auth.go:90-93 | the session is not found any more and no other lookup changes |
| AuthStore.Store.DeleteSessions | deployables/backend/internal/store/auth.go:93-105 | no session of the account is left but the kept one, no other session goes, and the count is what went |
| AuthStore.Store.CreateEnrollmentToken | deployables/backend/internal/store/enrollments.go:15-22 | at any later time the token can be redeemed for its account exactly until it expires; no other token changes |
| AuthStore.Store.CreateDevice | deployables/backend/internal/store/devices.go:21-30 | the device has its account and key, and no other device changes |
| AuthStore.Store.DeleteDevice | deployables/backend/internal/store/devices.go:94-107 | only the account that owns the device can delete it; exactly its sessions and challenges go with it |
| AuthStore.Store.DeleteAccount | deployables/backend/cmd/server/migrations/0001_init.sql:12-66 | exactly what belongs to the account, or to one of its devices, goes with it |
| AuthStore.Store.ConsumeEnrollmentToken | deployables/backend/internal/store/enrollments.go:24-40 | whatever it answers, asking again is refused, and what other tokens answer does not change |
| AuthStore.Store.PurgeExpired | deployables/backend/internal/store/janitor.go:14-31 | the loop purges the tables in order up to the first error; exactly the expired rows go, and their number is reported |
| AuthRuns.SingleRedemption | deployables/backend/internal/store/auth.go:45-86 | over every interleaving a challenge leads to at most one session, a token to at most one device, and each session's account owns its device, which exists |
| AuthRuns.ExecFresh | deployables/backend/cmd/server/migrations/0001_init.sql:2-48 | in every reachable state the sequences are ahead of all ids in use |
| AuthRuns.SessionsEarned | deployables/backend/internal/httpapi/auth.go:261-313 | over every interleaving, each session belongs to a device that signed the nonce of a challenge issued to this very device, and that was enrolled, with the key that signature is valid for, by a token granted to the account of the session |
| AuthRuns.NobodyForges | deployables/backend/internal/httpapi/auth.go:294-299 | where no signature is valid, no session ever exists |
| AuthRuns.ForgeryRefused | deployables/backend/internal/httpapi/auth.go:294-299 | an invalid signature is answered as unauthorized, changes no table, and its challenge cannot be redeemed again |
| AuthRuns.SessionEndsIff | deployables/backend/internal/store/auth.go:90-105 | a session goes with a step exactly when the step is its logout, a revocation that does not keep it, or the end of its device or account, or when it is purged after it expired |
| AuthRuns.RevokedForever | deployables/backend/internal/store/auth.go:75-105 | whatever follows, a revoked token is never accepted again |
| AuthRuns.JanitorInvisible | deployables/backend/internal/store/janitor.go:14-31 | erasing the purges from a run changes no answer to a client but the number of revoked sessions |
| AuthRuns.RevocationCountShowsPurge | deployables/backend/internal/store/auth.go:93-105 | at any moment of any run that number equals the one without purges if and only if it would count no session purged earlier |
| AuthRuns.PurgeLowersCount | deployables/backend/internal/store/auth.go:93-105 | a run of a login whose session expires, after which a revocation counts 0 with the purge and 1 without it |
| Inference.OverdraftBound | deployables/backend/internal/httpapi/infer.go:20-50 | a nonnegative balance never falls below 1 - N * C, failed bookings and any interleaving included |
| Inference.OverdraftExact | deployables/backend/internal/httpapi/infer.go:53-68 | that is the exact floor, however few inference slots there are |
| Inference.SlotsBound | deployables/backend/internal/httpapi/infer.go:53-68 | over every interleaving no more calls run at a time than there are slots, and every slot is given back |
| Inference.BalanceConserved | deployables/backend/internal/httpapi/infer.go:20-50 | the balance moves by what was added and what was charged, and by nothing else |
| Navigation.NavigationStore.NavigateTo | deployables/frontend/src/lib/NavigationStore.ts:44-77 | slicing the stack is a visit in the history: pages ahead go, an ephemeral page is replaced, the oldest page beyond 50 is dropped; the page is then the current one and nothing is ahead of it |
| Navigation.NavigationStore.NavigateBack | deployables/frontend/src/lib/NavigationStore.ts:78-90 | moves one page back, or stays at the oldest |
| Navigation.NavigationStore.NavigateForward | deployables/frontend/src/lib/NavigationStore.ts:91-101 | moves one page forward, or stays at the newest |
| Navigation.JourneyProper | deployables/frontend/src/lib/NavigationStore.ts:44-102 | after any moves 1 to 50 pages are kept and only the last can be ephemeral |
| Navigation.NoLoginBehind | deployables/frontend/src/lib/NavigationStore.ts:44-102 | so no login page is ever behind the current one, and none ahead but at the end |
| Navigation.BackAndForth | deployables/frontend/src/lib/NavigationStore.ts:78-102 | any number of steps back is undone by as many steps forward |
| Navigation.VisitThenBack | deployables/frontend/src/lib/NavigationStore.ts:44-90 | back after a visit leads to the page visited from, or past it when it was ephemeral |

## Left out

- HTTP: headers, JSON, deadlines, status codes, metrics, logs, listing and download handlers; only the order of the handlers' effects is modelled. The upload handler looks at quota and version limit once before it reads the body; the transaction decides both again.
- Cryptography: signatures are an arbitrary predicate, checksums an arbitrary function, random values fresh.
- Postgres: transactions are atomic but for uploads, which hold their account's row lock from their checks to their commit; integer widths, connection failures and the ids a failed insert uses up do not appear.
- `Stores.Store.CreateBackup`: the sum the cap check reads and the id of the row are arguments; `BackupSystem` says where they come from.
- `Pricing.StorageCost`: float64 rounding is replaced by exact integers, and the informational quantity of a usage event is not modelled.
- `Blobs.Dir.Write`: one time stamps the whole write; `BackupSystem` renews the time of a part file with every chunk. Syncing, and removing empty owner directories in a sweep, are not modelled.
- `Blobs.Dir.Remove`: paths are compared as written; cleaning `a//b` is not modelled.
- `BackupSystem.ExecKeeps`: the statements of an upload before its cap check are one step with it, since they read and lock rows of its account only; one sweep at a time, as the server has one sweep loop.
- `Inference`: enforcement is on and no storage is charged in between; what an account owes for storage is the subject of `BillingRuns`.
- `RateLimiter`: `golang.org/x/time/rate` is modelled as a bucket over exact integers that starts full, not over floats; resolving a client's ip is left out.
- `Encode`: float32 and float64 become reals; the square root is any function whose result squares to its argument; the runtime, the tokenizer and reranking are left out. A batch of nothing but empty encodings under first-token pooling, where the source slices past the row, is excluded.
- `AuthRuns`: device renames, password changes, argon2 slots and login by password are left out; the time to live of each row is arbitrary.
- `Navigation`: React components that call the store.
- Account registration beyond the empty account, password updates, statistics and configuration: easy members that touch none of the invariants.
