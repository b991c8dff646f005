# facetfs: verified models of its stateful cores

facetfs serves one file system over NFSv4.0, SMB2, WebDAV and SFTP, and can put a
content cache in front of a slow backend.  This project models the parts that keep
state between requests and proves what that state promises over every sequence of
operations:

- **The NFSv4.0 state machine** (`nfs4`): clients, open-owners and lock-owners, share
  reservations, byte-range locks, read delegations and their recall, leases,
  tombstones, the one-slot replay cache, rename, and READDIR paging.
- **The content cache** (`facetcache`): the interval list, the sparse copy and its
  agreement with the backend, what a crash leaves on disk, and the one counter of
  cached bytes.
- **The SMB2 kernels** (`smb`): the message-id window with its credits, wildcard
  matching, and multi-element LOCK with CLOSE and rename.

`dafny verify dfyconfig.toml` checks the whole project.

## How it is put together

| files | what they hold |
|---|---|
| `LockRanges` | byte-range lists as maps from byte to unlocked, read or write |
| `NfsTables` | the NFS state as plain tables, and each operation as a function on them |
| `NfsInvariants`, `NfsRuns` | what each operation keeps and when, and runs of operations, with OPEN split into check, recall and commit |
| `NfsKept`, `NfsSafety` | what every run keeps, and exactly which runs keep exclusion |
| `NfsLeases`, `NfsStateids` | what a lease protects and what its end does, and which stateid numbers are refused, over every run |
| `NfsDelegations`, `NfsRaces` | delegations: exclusion, recall and retry; runs that break what the split OPEN and RENAME do not keep |
| `NfsLockPhases`, `NfsLockRaces` | LOCK in its two critical sections, exactly which runs keep exclusion then, and two that do not |
| `StoreIndex`, `StoreAgreement`, `StateStore`, `StoreRuns` | the indexed store as a class, proved to compute the table functions, and a server that runs any steps on it |
| `RenamePath` | the rename walk over a map that it changes while iterating |
| `Seqid`, `NfsRouting`, `NfsReplay` | withSeqid and withTwoSeqids, exactly-once over runs, which stream a stateid leads to, and the replay caches in front of the tables |
| `DirListing` | READDIR pages and the snapshot cache |
| `RangeSet` | the cache's interval list as a set of bytes |
| `CacheContent`, `CacheCrash`, `CacheRecovery` | the copy against the backend, the disk after a crash, and restarts with contents, as state machines |
| `ContentCache`, `CacheFlush`, `CacheAccounting` | the item operations, their steps in those machines, and the byte account with the history of loads |
| `MessageWindow`, `DosMatch`, `SmbLocks` | the SMB2 kernels |
| `MapSums`, `Lists`, `Words` | sums over finite maps; lists without repeats; 32-bit numbers that wrap around |

Three conventions hold throughout.  A pointer is the key of a table row (a stateid's
`other` field is its counter value, a cache item is its identity).  Whatever the
operating system, the network or the backend decides is a parameter.  Time is a number
that does not go back.

Fields that one lock guards are grouped: `StateStore.Store` has the tables and the
indexes, `CacheAccounting.Cfs` has the account.  A Go map range is a loop that takes
keys in any order.

`NfsTables` is the reference form of the NFS state: it has no index and no counter, and
every lookup searches the whole table.  `StateStore.Store` works on the indexes and
counters as the code does.  Each of its methods is proved to give exactly what the table
function gives and to keep the indexes exact.  `StoreRuns.Server` dispatches every step of
a run to them, and `StoreRuns.Serve` proves that after any steps the server is in the world
of that run of the tables with its indexes exact, so the theorems about runs of the tables
are theorems about the store.  The tables have no lists: where a rename has given an owner
several opens of a path, which of them an OPEN finds is part of the step (`pick`), and the
store finds the first in its list.
`NfsReplay` puts the replay caches in front, and `NfsReplay.ServerRefinesTables` proves that
the tables still only do what a run does.

## What turned out not to hold

Each of these is a lemma with a concrete run or input, beside the exact condition.

- **A delegation can coexist with another client's write.**  OPEN recalls delegations
  and drops the lock before it commits.  A delegation granted in between is not seen
  (`NfsRaces.DelegationRace`).  The commit keeps exclusion exactly when no such
  delegation stands (`NfsDelegations.CommitKeepsDelegationsIff`).  A rename keeps exclusion
  exactly when no moved delegation lands beside another client's writer, nor a moved writer
  beside a delegation (`NfsDelegations.RenameDelegationsIff`).  With OPEN and RENAME as one
  step each, exclusion holds in every run whose renames do that
  (`NfsDelegations.WholeRunsExclusive`), and renaming a file always does, because of its
  recalls (`NfsDelegations.FileRenameSpares`).  Renaming a directory need not
  (`NfsRaces.DirectoryRace`).
- **A RENAME can put incompatible reservations on one file.**  Replacing a file that is open
  or locked merges the lists without a conflict check (`NfsRaces.MergeRace`).  It keeps every
  invariant exactly when no moved open shares its owner or clashes with a resident one, and
  likewise for locks (`NfsInvariants.RenameSafeIff`).
- **A RENAME during an OPEN can leave a write lock on a read-only open.**  The OPEN commits
  the access it settled on at its check, although the rename has since moved a wider open of
  its owner onto the path (`NfsRaces.NarrowedRace`).  The commit keeps every invariant
  exactly when no lock on the owner's open needs more than that access
  (`NfsInvariants.CommitSafeIff`).  A run is safe throughout exactly when its commits and
  renames meet these two conditions (`NfsSafety.RunSafeIff`).
- **A RENAME during a LOCK can leave a lock under a path that its open has left, or two
  write locks on one byte** (`NfsLockRaces.StrayLockRace`, `NfsLockRaces.BlindLockRace`).  The
  second critical section works under the path of the request without asking where the state
  is now.  It keeps every invariant exactly when a first LOCK's open is still there, or a
  further LOCK's range conflicts with nothing where its state is now
  (`NfsLockPhases.FinishSafeIff`), and a run is safe throughout exactly when these hold too
  (`NfsLockPhases.PhasedRunSafeIff`).
- **An OPEN in flight can leave state behind for an expired client**
  (`NfsRaces.LateCommitRace`).  It does so exactly when the client is no longer confirmed
  at the commit (`NfsRaces.CommitOwnedIff`).
- **The rename walk depends on map iteration order** for names where one lies under the
  other; it does not exactly when the names are equal or incomparable
  (`RenamePath.OrderIrrelevantIff`).  RENAME itself refuses to move a directory into
  itself or onto a directory that is not empty.
- **A fill published late can overwrite newer bytes** when a punch, a truncate or a
  failed mirror touches its range between its read and its publish
  (`CacheContent.PunchBreaks`, `TruncateBreaks`, `FailedMirrorBreaks`).  A publish is safe
  exactly when every byte of it that was changed on the backend since its read is held
  (`CacheContent.PublishSafeIff`), and every run that keeps to this, and to the next
  condition, is coherent (`CacheContent.EveryRunCoherent`).
- **A truncate that extends claims zeros the backend may not have**, after a mirror
  failed past the end (`CacheContent.ExtendBreaks`).  A truncate is safe exactly when it
  does not extend the item or no mirror past its end has failed since the last one
  (`CacheContent.TruncateSafeIff`).  The comment in `truncate` says the region is present
  by construction; the model follows the code.
- **Two flushes at once can persist claims that were never synced**
  (`CacheCrash.OverlappingFlushesLie`).  A snapshot is safe exactly when the sync flag is
  up or no other flush stands between its snapshot and the end of its sync
  (`CacheCrash.BeginSafeIff`).
- **A punch followed by a crash serves zeros.**  The hole is punched at once and the
  metadata that claims it is replaced later (`CacheRecovery.PunchThenCrash`).  From what
  the janitor can see, a punch is safe against a crash exactly when it punches nothing
  (`CacheRecovery.PunchSafeIff`); with the metadata and the flushes under way given, exactly
  when none of them claims a punched byte (`CacheRecovery.PunchUnclaimedIff`).  In every run
  with such punches only, and without overlapping flushes, each restart is coherent
  (`CacheRecovery.EveryRestartCoherent`).
- **A load that stops at its resize leaves its ranges behind**, and a later load of
  another object brings the item to life with them
  (`CacheAccounting.RetryKeepsStaleClaims`, a run of two opens).  In every state of the
  cache, a load in its history claims what its own metadata justifies exactly when what the
  load before it left, and it keeps, is among that (`CacheAccounting.EveryLoadIff`).
- **Message ids are admitted again once all 2^64 have been used**
  (`MessageWindow.ExhaustedStartsOver`), and not before
  (`MessageWindow.NoIdAdmittedTwice`).
- **Unlocking an SMB range just locked may release an older lock instead**: it gives the
  same locks back exactly when the handle did not hold that very range in the other mode
  (`SmbLocks.UnlockUndoesLockIff`).
- **An SMB rename can leave two exclusive locks on one byte** when it replaces a locked file
  (`SmbLocks.MergeBreaks`); it does not exactly when no lock that moves clashes with one that
  is there (`SmbLocks.RenameSoundIff`).  One onto the same name loses all the file's locks
  (`SmbLocks.RenameConservesIff`).
- **An SMB lock can outlive its handle**, when its LOCK found the handle before the CLOSE and
  runs after it (`SmbLocks.LateLockStays`).  A close releases everything exactly when all of
  the handle's locks are under its path (`SmbLocks.CloseReleasesIff`), and without such a late
  LOCK they always are (`SmbLocks.EveryCloseReleases`).
- **dosMatch takes a star in the name for a star in the pattern.**  It is right about
  every pattern exactly for names without a star (`DosMatch.AgreesIff`).

## Model

| member | source | states |
|---|---|---|
| `LockRanges.MakeLockRange` | nfs4/ops_lock.go:36-47 | which offset and length pairs are refused, and that an accepted range covers exactly the requested bytes, to end of file included |
| `LockRanges.CanonicalRanges` | nfs4/ops_lock.go:89-110 | sorting and merging gives the canonical list with the same byte-to-mode meaning |
| `LockRanges.SubtractRange` | nfs4/ops_lock.go:66-81 | the result is the canonical list in which exactly the cut bytes are unlocked |
| `LockRanges.SetLockRange` | nfs4/ops_lock.go:83-87 | the result is the canonical list in which exactly the added bytes have the added mode |
| `LockRanges.HeadIsMaximalRun` | nfs4/state.go:109-111 | the first range of a canonical list is the first maximal run of one mode |
| `LockRanges.CanonicalUnique` | nfs4/state.go:109-111 | two canonical lists that lock the same bytes in the same way are equal |
| `NfsInvariants.ConflictIsPointwise` | nfs4/ops_lock.go:128-140 | the range conflict test holds exactly when some requested byte is held incompatibly |
| `NfsInvariants.OpenCommitSafe` | nfs4/ops_state.go:330-370 | the re-checked commit of OPEN keeps share reservations, locks, backing opens and ids consistent, under the condition of the next row |
| `NfsInvariants.CommitSafeIff` | nfs4/ops_state.go:330-362 | a commit keeps them, and the locks backed, exactly when no lock on the owner's open of the path needs more than the access settled on at the check |
| `NfsInvariants.OpenDowngradeSafe` | nfs4/ops_state.go:466-524 | OPEN_DOWNGRADE keeps them, because it is refused while a lock needs the dropped access |
| `NfsInvariants.CloseSafe` | nfs4/ops_state.go:540-581 | CLOSE keeps them, because it is refused while a lock is held on the open |
| `NfsInvariants.LockNewSafe` | nfs4/ops_lock.go:306-406 | the first LOCK of a lock-owner keeps byte exclusion and backing |
| `NfsInvariants.LockMoreSafe` | nfs4/ops_lock.go:306-406 | a further LOCK keeps them |
| `NfsInvariants.LockUSafe` | nfs4/ops_lock.go:459-502 | LOCKU keeps them |
| `NfsInvariants.ReleaseLockOwnerSafe` | nfs4/ops_lock.go:504-555 | RELEASE_LOCKOWNER keeps them |
| `NfsInvariants.DelegReturnSafe` | nfs4/state.go:303-330 | DELEGRETURN keeps them |
| `NfsInvariants.RecallSafe` | nfs4/callback.go:192-228 | recalling and revoking delegations keeps them |
| `NfsInvariants.SweepSafe` | nfs4/lease.go:21-76 | the lease sweep keeps them |
| `NfsInvariants.ConfirmClientSafe` | nfs4/state.go:194-219 | replacing a client on SETCLIENTID_CONFIRM keeps them |
| `NfsInvariants.RenameSafeIff` | nfs4/state.go:522-568 | a rename, onto any name, keeps them exactly when what it moves clashes with nothing that stays where it lands |
| `NfsInvariants.MovedTogetherIff` | nfs4/state.go:522-568 | relocation sends two paths to one exactly when they are equal or a moved one lands on one that stays |
| `NfsKept.StepKept` | nfs4/ops_state.go:251-370 | every step, RENAME and anything else between an OPEN's phases included, keeps ids fresh, locks on a live open of their client and path, client records consistent, and one recall per delegation |
| `NfsKept.EveryRunKept` | nfs4/callback.go:192-228 | in every reachable state all that holds, lock lists are canonical, and each delegation was recalled at most once |
| `NfsSafety.StepSafeIff` | nfs4/ops_state.go:251-370 | from a safe state any step leads to a safe state exactly when it meets the condition of a commit or a rename |
| `NfsSafety.RunSafeIff` | nfs4/ops_mutation.go:379-406 | a run is safe throughout exactly when each of its commits and renames meets its condition |
| `NfsSafety.EveryRunSafe` | nfs4/state.go:628-638 | in every state such runs reach, reservations are compatible with one open per owner and path, no byte is write-locked beside another owner's lock, and every lock stands on a live open that covers it |
| `NfsSafety.SparedRunSafe` | nfs4/ops_state.go:330-362 | the same with no condition on commits, when each rename merges well and brings no OPEN in flight a wider open of its owner |
| `NfsSafety.StepUniqueIff` | nfs4/state.go:522-568 | a step leaves every owner one open per path exactly when it is not a rename of an open onto its owner's other open |
| `NfsSafety.PicksIrrelevant` | nfs4/ops_state.go:412-419 | as long as no rename gives an owner two opens of a path, a run is the same whichever open its OPENs would prefer |
| `NfsRuns.RunEvolves` | nfs4/state.go:486-492 | over any run stateids are never reused and a removed one stays removed |
| `NfsRuns.GoneNeverResolves` | nfs4/state.go:643-734 | a stateid that has left the tables never resolves again, as an open, a lock, a delegation or for I/O |
| `NfsStateids.UsedSeqidRefused` | nfs4/state.go:643-675 | after a successful OPEN of a path the owner has open already, OPEN_DOWNGRADE, LOCK or LOCKU the stateid's old sequence number is refused for the next 2^32 - 2 steps of any run, and the next number is accepted at once |
| `NfsStateids.StepCounts` | nfs4/ops_lock.go:142-167 | no step moves an open's or a lock's sequence number by more than one, wrap-around included |
| `NfsLeases.LeaseProtects` | nfs4/lease.go:48-76 | while its lease holds a client loses no open and no lock to anybody else's requests, sweeps or replacements, in every run |
| `NfsLeases.RequestProtects` | nfs4/state.go:497-515 | a sequenced request on a live stateid, whatever its outcome, protects its client's opens and locks for another lease, in every run |
| `NfsLeases.SweepExact` | nfs4/lease.go:21-76 | a sweep removes exactly the lapsed clients: their opens and locks are gone and have tombstones, and every other row stays as it was |
| `NfsLeases.ExpiredIsTold` | nfs4/lease.go:26-38 | for a whole lease after its tombstone a stateid answers EXPIRED in every lookup, in every run |
| `NfsDelegations.CommitKeepsDelegationsIff` | nfs4/ops_state.go:330-370 | the commit keeps delegation exclusion exactly when no other client's delegation on the path is falsified by it |
| `NfsDelegations.RenameDelegationsIff` | nfs4/state.go:522-568 | a rename keeps it exactly when no moved delegation or writer lands beside another client's writer or delegation |
| `NfsDelegations.FileRenameSpares` | nfs4/ops_mutation.go:395-406 | a RENAME of a file always meets that, because it recalls the delegations on both names first |
| `NfsDelegations.WholeRunsExclusive` | nfs4/state.go:280-338 | with each operation as one step and renames that meet it, no client ever holds a delegation on a path another client has open for write or with deny-read, and all state belongs to confirmed clients |
| `NfsDelegations.NoGrantDuringRecall` | nfs4/state.go:280-300 | a delegation is granted only where none is being recalled |
| `NfsDelegations.RetryNotDelayed` | nfs4/callback.go:192-228 | a conflicting request, or an OPEN before its side effects, retried the recall wait after its first delay is not delayed by a delegation it met then, whatever happened in between |
| `NfsRaces.DelegationRace` | nfs4/ops_state.go:274-370 | a reachable state in which one client writes what another holds a delegation on |
| `NfsRaces.DirectoryRace` | nfs4/ops_mutation.go:395-406 | a run of whole operations, with a directory renamed, after which one client writes what another holds a delegation on |
| `NfsRaces.CommitOwnedIff` | nfs4/ops_state.go:330-370 | the commit keeps state with confirmed clients exactly when its own client still is one |
| `NfsRaces.LateCommitRace` | nfs4/ops_state.go:330-370 | a reachable state with an open of an expired client |
| `NfsRaces.MergeRace` | nfs4/ops_mutation.go:379-406 | a reachable state with incompatible reservations on one path |
| `NfsRaces.NarrowedRace` | nfs4/ops_state.go:330-362 | a reachable state in which a write lock stands on an open for reading only |
| `NfsLockPhases.UndisturbedIsOneStep` | nfs4/ops_lock.go:306-406 | a LOCK whose two critical sections follow one another is the one step that the runs have, in every outcome |
| `NfsLockPhases.FinishSafeIff` | nfs4/ops_lock.go:326-406 | the second section of a LOCK keeps all invariants exactly when a first LOCK's open is still under the request's path, or a further LOCK's range conflicts with nothing under the path its state has now |
| `NfsLockPhases.PhasedRunSafeIff` | nfs4/ops_lock.go:306-406 | with anything between the two sections, a run is safe throughout exactly when each commit, rename and second section meets its condition |
| `NfsLockPhases.EveryPhasedRunSafe` | nfs4/ops_lock.go:306-406 | runs with careful commits and renames, none of which moves a file while a LOCK of it is between its sections, reach safe states only |
| `NfsLockRaces.StrayLockRace` | nfs4/ops_lock.go:319-350 | a reachable state in which a lock is listed under a path that its open has left |
| `NfsLockRaces.BlindLockRace` | nfs4/ops_lock.go:375-400 | a reachable state in which two owners have write-locked one byte of a file |
| `StoreIndex.ListedExactly` | nfs4/state.go:426-439 | a per-path list names exactly the rows of that path, once each |
| `StoreIndex.UnlistedOk` | nfs4/state.go:361-391 | removing a row from its list keeps the index exact and deletes an empty list |
| `StoreIndex.CountDrop` | nfs4/state.go:361-376 | decrementing a client's counter keeps it the true count and never below zero |
| `StoreAgreement.TidyFacts` | nfs4/state.go:643-734 | what the store methods rely on is among what every run keeps |
| `StoreAgreement.RecallStep` | nfs4/callback.go:200-222 | one delegation of the recall walk does its share of the whole recall |
| `StateStore.Store.constructor` | nfs4/state.go:124-145 | an empty store is valid |
| `StateStore.Store.ShareConflictAt` | nfs4/state.go:628-638 | the walk over the path's opens finds a conflict exactly when the table has one |
| `StateStore.Store.FindOpenAt` | nfs4/ops_state.go:412-419 | the walk finds the first open of the owner in the path's list, which is one the table has, or there is none |
| `StateStore.Store.LockConflictAt` | nfs4/ops_lock.go:128-140 | the walk over the path's locks finds a conflict exactly when the table has one |
| `StateStore.Store.LocksBlockCloseOf` | nfs4/state.go:393-400 | looking only at the path's locks is enough to know whether any lock of the open is held |
| `StateStore.Store.LocksBlockDowngradeOf` | nfs4/state.go:402-414 | the same for locks the narrower access would not cover |
| `StateStore.Store.MayGrant` | nfs4/state.go:280-300 | the grant test over the indexes is the grant test over the tables |
| `StateStore.Store.OwnerForStateid` | nfs4/state.go:497-515 | the owner map answers as the live and closed tables do, and renews the lease |
| `StateStore.Store.SetClientIdAt` | nfs4/state.go:158-192 | SETCLIENTID computes the table function, with the old unconfirmed records of the owner gone |
| `StateStore.Store.RenewLease` | nfs4/state.go:221-233 | the same for RENEW |
| `StateStore.Store.CallbackAnswered` | nfs4/callback.go:234-244 | the same for a callback path that answers |
| `StateStore.Store.CheckOpen` | nfs4/ops_state.go:252-263 | the check of OPEN through the path's list is the check over the tables, for the open the list has first |
| `StateStore.Store.ConfirmOpen` | nfs4/ops_state.go:431-452 | the same for OPEN_CONFIRM |
| `StateStore.Store.CommitOpen` | nfs4/ops_state.go:330-370 | the commit computes the table function, grant included, for the open the list has first, and keeps every index exact |
| `StateStore.Store.DowngradeOpen` | nfs4/ops_state.go:466-524 | the same for OPEN_DOWNGRADE |
| `StateStore.Store.CloseOpen` | nfs4/ops_state.go:540-581 | the same for CLOSE, with the empty lock states and the owner's closed stateid |
| `StateStore.Store.LockFirst` | nfs4/ops_lock.go:306-406 | the same for the first LOCK of a lock-owner |
| `StateStore.Store.LockAgain` | nfs4/ops_lock.go:306-406 | the same for a further LOCK |
| `StateStore.Store.Unlock` | nfs4/ops_lock.go:459-502 | the same for LOCKU |
| `StateStore.Store.ReleaseOwner` | nfs4/ops_lock.go:504-555 | the same for RELEASE_LOCKOWNER |
| `StateStore.Store.ReturnDelegation` | nfs4/state.go:303-330 | the same for DELEGRETURN |
| `StateStore.Store.RecallDelegations` | nfs4/callback.go:192-228 | the walk revokes what timed out, marks the rest, and sends one recall per delegation newly marked |
| `StateStore.Store.ReleaseClient` | nfs4/state.go:237-272 | releasing a client removes all its state and its owner entries, closed ones included, from every index |
| `StateStore.Store.ConfirmClientId` | nfs4/state.go:194-219 | confirming a client replaces the one it supersedes |
| `StateStore.Store.SweepExpired` | nfs4/lease.go:21-76 | the nested loops compute the sweep of the tables, tombstones included |
| `StateStore.Store.RenameAll` | nfs4/state.go:522-568 | the three walks relocate opens, locks and delegations in every iteration order |
| `StoreRuns.Server.Do` | nfs4/ops_state.go:251-370 | any step of a run, done by the store's methods on its indexes and the OPENs in flight, gives the world that the tables give for the open that an OPEN found, and keeps every index exact |
| `StoreRuns.Serve` | nfs4/state.go:124-145 | from an empty store, after any steps, the server is in the world of that run, with the opens its OPENs found, and its indexes are exact; that is the run asked for when no rename gives an owner two opens of a path, and a safe state when the run is careful |
| `RenamePath.Rename` | nfs4/state.go:528-546 | the loop over the changing map is the fold of one visit |
| `RenamePath.RenameRelocates` | nfs4/state.go:522-568 | for incomparable names every order gives the untouched lists plus the relocated ones, with each path field its key |
| `RenamePath.RenameIndexOk` | nfs4/state.go:522-568 | the index stays exact and nothing stays under the old name |
| `RenamePath.OrderIrrelevantIff` | nfs4/state.go:522-568 | the result is the same in every order exactly for equal or incomparable names |
| `Seqid.Owner.constructor` | nfs4/state.go:83-93 | a new owner has accepted nothing |
| `Seqid.Owner.WithSeqid` | nfs4/ops_state.go:62-99 | replay, refusal and execution as a client sees them, the filehandle a replayed OPEN restores included; a no-advance status leaves the stream as it was, and a non-fresh owner always has a cached reply |
| `Seqid.WithTwoSeqids` | nfs4/ops_lock.go:190-253 | the same for the two streams of a first LOCK |
| `Seqid.BothOrNeither` | nfs4/ops_lock.go:190-253 | a two-stream LOCK advances both owners or neither |
| `Seqid.HistoryConsecutive` | nfs4/ops_state.go:62-99 | in every run the slot is the last accepted request and the accepted ids never skip |
| `Seqid.NoSeqidAcceptedTwice` | nfs4/ops_state.go:62-99 | no id is accepted twice within 2^32 accepted requests of a stream |
| `Seqid.ReplayIsLastAccepted` | nfs4/ops_state.go:70-81 | a reply without execution is a refusal or the last accepted reply, and an exact repeat always gets that reply |
| `Seqid.NotAcceptedLeavesNoTrace` | nfs4/ops_state.go:86-93 | striking a request that was not accepted from a run changes no other reply |
| `NfsRouting.StepRoutes` | nfs4/state.go:497-515 | whatever anybody else does, a stateid leads to the same owner's stream for as long as that owner's client is known, after its CLOSE too |
| `NfsReplay.RetransmissionRunsNothing` | nfs4/ops_state.go:62-99 | in any run of the server, until an owner sends something new and while its client is served, every repeat of its last accepted OPEN, CLOSE, LOCK or other request still finds its streams, gets the same reply, starts no body and leaves the tables and the OPENs in flight unchanged |
| `NfsReplay.StatusIsTheSteps` | nfs4/ops_state.go:83-98 | a sequenced request ends with the status that its one step on the tables returned, or with an error of its own and no step |
| `NfsReplay.EndedStays` | nfs4/ops_state.go:83-98 | a request that has ended takes no further step, and its status stays until it returns |
| `NfsReplay.EveryServerOk` | nfs4/ops_state.go:63-64 | in any run a request holds the mutexes of all its owners, and its ids stay in order until it returns |
| `NfsReplay.ServerRefinesTables` | nfs4/ops_state.go:192-198 | with the replay caches in front, the tables are always in a state of some run of the tables |
| `DirListing.ReadPage` | nfs4/ops_io.go:55-102 | the encoding loop with rollback emits the longest run of entries that fits |
| `DirListing.PagesTile` | nfs4/ops_io.go:55-102 | following cookies gives contiguous pages that end at the last entry, within one page per entry |
| `DirListing.EveryEntryOnce` | nfs4/ops_io.go:41-102 | a listing from the start returns every entry exactly once, in order, and ends |
| `DirListing.DirCache.constructor` | nfs4/dircache.go:43-45 | an empty cache is valid |
| `DirListing.DirCache.Lookup` | nfs4/dircache.go:53-61 | a snapshot is found exactly when it is held and not too old |
| `DirListing.DirCache.Drop` | nfs4/dircache.go:90-103 | dropping a key keeps the total, the bound and the duplicate-free order |
| `DirListing.DirCache.Put` | nfs4/dircache.go:65-87 | storing a listing drops the stale ones, then only as many of the oldest as the bound needs |
| `RangeSet.PresentExact` | facetcache/ranges.go:85-91 | presence is inclusion in the covered bytes |
| `RangeSet.FindMissingExact` | facetcache/ranges.go:95-108 | the part cut off is covered and the rest starts uncovered |
| `RangeSet.IntervalInOneEntry` | facetcache/ranges.go:12-16 | a covered interval is covered by one entry |
| `RangeSet.ValidUnique` | facetcache/ranges.go:12-16 | two lists in form that cover the same bytes are equal |
| `RangeSet.Insert` | facetcache/ranges.go:24-50 | insert is union and keeps the form |
| `RangeSet.Remove` | facetcache/ranges.go:54-81 | remove is difference and keeps the form |
| `RangeSet.MissingWithin` | facetcache/ranges.go:112-130 | the appended runs are exactly the uncovered bytes, ordered and apart |
| `RangeSet.Size` | facetcache/ranges.go:133-139 | the number of covered bytes |
| `CacheContent.PublishSafeIff` | facetcache/item.go:420-451 | a publish keeps coherence, with every backend that agrees with the fill where nothing changed, exactly when every changed byte of it is held |
| `CacheContent.StepKeeps` | facetcache/file.go:182-225 | every step but an unsafe publish or an unsafe truncate keeps coherence, the item's end, and what each pending fill carries outside its changed bytes |
| `CacheContent.TruncateSafeIff` | facetcache/item.go:485-513 | a resize keeps coherence exactly when it does not extend the item or no mirror past its end has failed |
| `CacheContent.EveryRunCoherent` | facetcache/download.go:434-471 | whatever is interleaved between a fill's read and publish, covered bytes equal backend bytes and lie inside the item, in every run in which each publish and each truncate is safe in that sense |
| `CacheContent.SparedRunCoherent` | facetcache/download.go:434-471 | the same with no condition on publishes, when no punch, truncate or failed mirror touches a fill under way |
| `CacheContent.PunchBreaks` | facetcache/janitor.go:219-260 | a run in which a punch breaks that |
| `CacheContent.FailedMirrorBreaks` | facetcache/item.go:466-473 | a run in which a failed mirror does |
| `CacheContent.TruncateBreaks` | facetcache/item.go:485-513 | a run in which a truncate does |
| `CacheContent.ExtendBreaks` | facetcache/item.go:501-505 | an extending truncate claims zeros where the backend has data |
| `CacheCrash.BeginSafeIff` | facetcache/item.go:265-283 | a metadata snapshot is safe, whatever is on disk, exactly when the sync flag is up or no other flush has yet to sync |
| `CacheCrash.CrashLeavesHonestMetadata` | facetcache/item.go:256-312 | at any step of any run, failures and retries included, metadata on disk claims only positions that a sync has covered |
| `CacheCrash.UnsafeBeginPersists` | facetcache/item.go:265-312 | any other snapshot leads at once to metadata that claims unsynced bytes |
| `CacheCrash.OverlappingFlushesLie` | facetcache/item.go:256-312 | two overlapping flushes do so from an empty cache |
| `CacheRecovery.StepGood` | facetcache/item.go:250-312 | every step, crashes and restarts included, keeps all that metadata in place or on its way claims on stable storage with the backend's value |
| `CacheRecovery.EveryRestartCoherent` | facetcache/item.go:168-237 | over any run with any number of crashes, whatever they leave of unsynced bytes and whichever metadata file, an item holds the backend's bytes as long as the object is the one it was loaded from |
| `CacheRecovery.CrashLeavesHonest` | facetcache/item.go:198-222 | what a crash leaves is metadata and a data file over which the load of `ContentCache.LoadCoherent` is coherent |
| `CacheRecovery.PunchSafeIff` | facetcache/janitor.go:219-260 | from what the janitor sees, a punch leaves a recoverable disk exactly when it punches nothing |
| `CacheRecovery.PunchUnclaimedIff` | facetcache/janitor.go:219-260 | with the metadata in place and the flushes under way given, a punch and anything those flushes do next leaves a recoverable disk exactly when none of them claims a punched byte |
| `CacheRecovery.PunchThenCrash` | facetcache/janitor.go:237-259 | a run of a fill, a finished flush, a punch and a crash whose restart holds a zero the backend does not have |
| `ContentCache.LoadJustifiedIff` | facetcache/item.go:198-222 | a load claims what its own metadata justifies exactly when the ranges left from before it are among that |
| `ContentCache.StoreRuns` | facetcache/item.go:433-440 | the write loop stores exactly the missing bytes, and a failure leaves the held ones alone |
| `ContentCache.Filled` | facetcache/item.go:420-451 | writeNoOverwrite is the publish step, raises the flags exactly when bytes are new, and counts what it skipped |
| `ContentCache.Mirrored` | facetcache/item.go:456-481 | a mirror that succeeds is the write step |
| `ContentCache.Unmirrored` | facetcache/item.go:466-473 | a mirror that fails gives up exactly its range |
| `ContentCache.Truncated` | facetcache/item.go:485-513 | a resize is the truncate step |
| `ContentCache.AlignInside` | facetcache/janitor.go:264-271 | rounding shrinks a punch |
| `ContentCache.PunchList` | facetcache/janitor.go:229-236 | the ranges to punch are exactly the covered bytes below the cut |
| `ContentCache.PunchedOut` | facetcache/janitor.go:219-260 | punching gives up bytes below the cut only, touches no other byte of the file, frees exactly what it subtracts, and raises the dirty flag exactly when something was punched and nothing failed |
| `ContentCache.ReadMetadata` | facetcache/item.go:194-222 | what a load claims, from what was claimed before and the metadata |
| `ContentCache.LoadCoherent` | facetcache/item.go:168-237 | a load over a reopened file whose matching metadata is honest gives a coherent item that ends where the object ends |
| `ContentCache.ReopenKeeps` | facetcache/item.go:536-555 | closing a coherent item and opening it again over the same object gives the same bytes back |
| `CacheFlush.FillDurable` | facetcache/item.go:420-451 | a fill is the crash model's fill step |
| `CacheFlush.FailedFillDurable` | facetcache/item.go:433-440 | a fill that fails is its failed fill step |
| `CacheFlush.MirrorDurable` | facetcache/item.go:456-481 | a mirror is its mirror step |
| `CacheFlush.FailedMirrorDurable` | facetcache/item.go:466-473 | a failed mirror is its failed mirror step |
| `CacheFlush.FlushSnapshot` | facetcache/item.go:261-283 | the locked part of a flush is its begin step |
| `CacheFlush.FlushSynced` | facetcache/item.go:285-296 | the sync, done or failed, is its sync step |
| `CacheFlush.FlushWritten` | facetcache/item.go:297-311 | the metadata write, done or failed, is its persist step |
| `CacheFlush.OpIsStep` | facetcache/item.go:256-312 | every item operation and flush phase is a step of the crash model |
| `CacheFlush.StoppedAnywhere` | facetcache/item.go:250-255 | stop any run of them at any point: the metadata on disk claims only bytes that a finished sync has covered |
| `CacheAccounting.Cfs.constructor` | facetcache/janitor.go:37-39 | an empty cache balances |
| `CacheAccounting.ChargeMoves` | facetcache/item.go:442-445 | one item's change moves the sum of all items by the same amount |
| `CacheAccounting.LoadBalanced` | facetcache/item.go:231-236 | loading moves a name from the index to the live items without counting it twice |
| `CacheAccounting.ShutdownBalanced` | facetcache/item.go:536-555 | shutting down moves the bytes back without touching the counter |
| `CacheAccounting.Cfs.WriteNoOverwrite` | facetcache/item.go:420-451 | the fill on a registered item, with the counter |
| `CacheAccounting.Cfs.MirrorWrite` | facetcache/item.go:456-481 | the mirror, with the counter |
| `CacheAccounting.Cfs.Truncate` | facetcache/item.go:485-513 | the resize, with the counter; a failed one dooms the item |
| `CacheAccounting.Cfs.PunchItem` | facetcache/janitor.go:219-260 | the punch, with the counter |
| `CacheAccounting.Cfs.DoomLocked` | facetcache/item.go:517-531 | dooming takes a live item's bytes out of the counter once |
| `CacheAccounting.Cfs.EnsureLoaded` | facetcache/item.go:168-237 | when a load succeeds, what it claims and what a failed resize leaves, the file it reopens, and that its name leaves the index |
| `CacheAccounting.Cfs.Shutdown` | facetcache/item.go:536-555 | a live item's bytes go to the index, a doomed item's nowhere |
| `CacheAccounting.Cfs.OpenItem` | facetcache/item.go:99-114 | a warm open changes no byte and no count; a cold one loads or is released, and the pins say which |
| `CacheAccounting.EveryLoadIff` | facetcache/item.go:198-237 | in every state of the cache each load in its history claims what its own metadata justifies exactly when that takes in what the item's last load, which stopped, left and it keeps |
| `CacheAccounting.EveryLoadJustified` | facetcache/item.go:198-237 | and so it does unless an earlier load of the item stopped at its resize |
| `CacheAccounting.RetryKeepsStaleClaims` | facetcache/item.go:198-230 | a run of two opens, the first stopped at its resize, that ends with a live item claiming what its metadata does not justify |
| `CacheAccounting.Cfs.ReleaseItem` | facetcache/item.go:134-151 | the last handle of a doomed item lets it go |
| `CacheAccounting.Cfs.CloseIdle` | facetcache/janitor.go:102-117 | exactly the idle unpinned names leave the registry and the counter stays |
| `CacheAccounting.Cfs.DeleteEntry` | facetcache/janitor.go:165-191 | a closed file's bytes leave with it; a live name is left alone |
| `CacheAccounting.Cfs.EvictOverBudget` | facetcache/janitor.go:132-145 | eviction is oldest first, stops once the budget is met, and otherwise leaves only live names |
| `CacheAccounting.Cfs.InvalidateTree` | facetcache/fswrap.go:62-98 | nothing live or indexed stays at or under the name, and nothing else goes |
| `MessageWindow.Window.Take` | smb/conn.go:91-112 | an id range is taken exactly when it lies in the window and is unconsumed, and the base is then the lowest unconsumed id |
| `MessageWindow.TookOk` | smb/conn.go:91-112 | the set the ring stands for stays within its window |
| `MessageWindow.Connection.Admit` | smb/conn.go:375-398 | credits stay within bounds and equal one plus granted less charged |
| `MessageWindow.Connection.Grant` | smb/conn.go:402-415 | a client is never left without a credit |
| `MessageWindow.NoIdAdmittedTwice` | smb/conn.go:83-90 | in every run no id is admitted twice before all have been consumed |
| `MessageWindow.ExhaustedStartsOver` | smb/conn.go:107-110 | after that the window is as new |
| `DosMatch.DosMatch` | smb/ops_misc.go:372-398 | the loop is the walk, in a number of rounds bounded by name length times pattern length |
| `DosMatch.WalkCorrect` | smb/ops_misc.go:372-398 | from every state the walk decides whether the rest, or a later start of the last star, matches |
| `DosMatch.AgreesWithoutStars` | smb/ops_misc.go:372-398 | for names without a star the walk is the recursive meaning of the pattern |
| `DosMatch.AgreesIff` | smb/ops_misc.go:372-398 | and only for those is it right about every pattern |
| `SmbLocks.PathLocks.Lock` | smb/ops_misc.go:659-722 | a request is the fold of its elements or leaves the list exactly as it was, although the array was edited in place |
| `SmbLocks.PathLocks.Close` | smb/state.go:270-289 | compacting in place drops exactly the handle's locks |
| `SmbLocks.UnlockUndoesLockIff` | smb/ops_misc.go:690-717 | unlocking what was just locked restores the locks exactly when the handle did not hold that range in the other mode |
| `SmbLocks.OneKeeps` | smb/ops_misc.go:679-717 | one element keeps exclusion between handles, every other session's count, and the session's bound |
| `SmbLocks.CloseKeeps` | smb/state.go:270-289 | a close keeps exclusion and every session within its bound |
| `SmbLocks.RenameSoundIff` | smb/ops_misc.go:320-334 | a rename keeps them exactly when it is onto itself or no lock that moves clashes with one that is there |
| `SmbLocks.RenameConservesIff` | smb/ops_misc.go:330-333 | a rename gives up no lock exactly when it is onto another name or there is none |
| `SmbLocks.RunSoundIff` | smb/ops_misc.go:320-334 | a run of opens, locks, closes and renames is sound throughout exactly when each of its renames meets that condition |
| `SmbLocks.EveryRunSound` | smb/ops_misc.go:647-722 | in every state such runs reach from no locks, no two handles hold overlapping ranges of a file with one exclusive, and no session is over its bound |
| `SmbLocks.MergeBreaks` | smb/ops_misc.go:330-333 | a run in which a replacing rename leaves two exclusive locks on one byte |
| `SmbLocks.CloseReleasesIff` | smb/state.go:270-289 | a close releases no other handle's lock, and all of its own exactly when they are all under its path |
| `SmbLocks.EveryCloseReleases` | smb/state.go:270-289 | in every run in which each LOCK comes before the CLOSE of its handle, whatever is renamed, every lock is under the path of a handle that is open |
| `SmbLocks.LateLockStays` | smb/ops_misc.go:655-660 | a LOCK that found its handle before the CLOSE and runs after it leaves a lock of a closed handle |

## Left out

- Sockets, goroutines, RPC and SMB framing, the XDR codec, attribute encoding and file handles: wire format and scheduling.
- NTLM, signing, key derivation, random verifiers and the server epoch in a stateid: foreign primitives; a stateid is its counter value and is fresh because the counter grows.
- File-system calls inside OPEN, CREATE, REMOVE and the rest: only their effect on the state tables is kept, and they may fail at will.
- The special stateids, LOCKT, and the per-client bounds on owners, opens and lock ranges: each is a lookup or a comparison.
- The number of ranges of one lock state: LOCK compares it with a limit, LOCKU can pass it, so it is not an invariant.
- NfsKept.EveryRunKept: LOCK is one step, and so in the other theorems about runs but those of NfsLockPhases; that every lock stands on its open and that locks exclude one another rest on it.
- OPEN_CONFIRM, OPEN_DOWNGRADE, CLOSE and LOCKU in several critical sections: the last one asks again for all that it needs and works on the state itself, not on a path, so each is one step.
- StateStore.Store.RenameAll: covers incomparable names; for comparable ones the result depends on iteration order.
- Which LOCK a two-stream replay came from: the two owners' cached replies may come from different requests.
- NfsReplay.RetransmissionRunsNothing: finding the owner and taking its mutex is one step, so a request that found a lock-owner just before RELEASE_LOCKOWNER deleted it is not covered.
- readAt's presence check after the read: a punch and a refill around one read can pass it.
- Concurrent overlapping WriteAt calls and write handles opened before the item was cached: a backend write and its mirror are one step.
- CacheCrash.CrashLeavesHonestMetadata: speaks of positions, not contents, so an overwritten synced byte still counts as synced, and punches are not among its steps; CacheRecovery has contents, punches and restarts.
- CacheFlush.StoppedAnywhere: the same.
- CacheRecovery.EveryRestartCoherent: takes every change of the object to change its size-and-mtime fingerprint to one not seen before; after a change the running item is CacheContent's subject.
- CacheContent.EveryRunCoherent: after a failed truncate the item is doomed, and open readers keep their old bytes; the run ends there.
- CacheAccounting.Cfs.DeleteEntry: a name is cacheable or not, which stands for the component rules of cachePaths; an indexed name always is.
- RangeSet.Insert: positions are unbounded, so overflow of a 64-bit end is not modelled.
- The janitor's start-up walk and hourly reconcile: they read the disk.
- Read-ahead, download scheduling, probe detection and attribute caching.
- DosMatch.DosMatch: takes pattern and name after upper-casing; Unicode case folding is not modelled.
- SmbLocks.PathLocks.Lock: the session's locks on other paths are a parameter of the method; the runs compute it from the whole state.
- SmbLocks.EveryRunSound: renaming a directory moves only the list under that very name, as the code does; open files below it keep their old paths.
- SMB share modes, negotiation, sessions and directory queries.
- memfs, the directory backend, SFTP and WebDAV: thin adapters.
