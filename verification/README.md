# msauth-go token cache and account binding, modelled in Dafny

msauth-go keeps OAuth token caches on the user's machine and binds clients to exact accounts.
This project models the parts whose correctness is not visible from any single function body
and proves what they are for:

- **The keychain generation store** (`cache/keychain.go`). A keyring with small items and no
  transactions is turned into a crash-safe blob register. `KeychainOps` states Load, Save and
  Delete as programs that make one keyring call per step. `KeychainStep` says what every step
  keeps, `KeychainReadBack` why nothing unread is published, and `KeychainSystem` interleaves
  any number of processes that may die at any step. `KeychainRecovery`, `KeychainTornReads`,
  `KeychainLayout` and `KeychainLegacy` prove what survives damage, what can never be returned,
  which items exist, and what becomes of the old format. `KeychainContents` says the same of the
  items themselves, by name and by text: what Load makes of them, what a Save leaves and what a
  Delete takes. `KeychainStore` has the methods as the
  code writes them, changing a keyring item by item, each proved to follow its program from the
  first call to the result.
- **The locks** (`cache/transaction.go`, `cache/keychain_lock*.go`). `Gates` is the
  reference-counted gate table as a step relation over any number of threads, `GateTable` the
  same table as heap objects. `Transactions` adds lock file, view and callback over any number
  of processes; `TransactionRun` is one thread's runTransaction with its view. `BlobLocks` and
  `KeychainLocks` do the same for the lock around each blob. `Progress` and `Completion` put
  both lock levels together.
- **The encrypted-file store** (`cache/file.go`), which takes no lock. `FileOps` has keyBytes,
  Load, Save and Delete as programs over a directory with inodes and hard links, `FileSteps`
  what each step keeps, `FileRuns` the theorems over every interleaving, `FileReads` what a Load
  makes of the bytes it gets from any directory, damaged ones included, `FileStore` the methods
  as the code writes them.
- **Exact account binding** (`accounts.go`). `Accounts` follows a login result to a reference,
  an authority, a selected cache entry and the check of a token result; `AccountOrder` is the
  order of listings.

`Text` and `Markers` hold the string conversions and the marker codec, `Wrappers` the optional
value.

## How to read the models

A program is a value. `Request` gives its next call, `Resume` what it becomes after the reply,
and a crash is a program that is never resumed, so "at every crash point" means "after every
prefix of its log" or "in every state of every run". Calls fail whenever they like; a failed
call changes nothing. A class method carries ghost arguments that name the program state it is
in, and its contract says which state it has brought the program to.

`View` is what a Load that runs alone and meets no failing call returns. A key is an atomic
register when `View` changes only at a Save's publishing call (to the saved blob) and at a
Delete's first removal (to empty).

Hypotheses that theorems name:

- The digest is any function with 64 hexadecimal characters as its result, so some texts share a
  digest. The theorems about damage say what follows if two texts do (`Clashes`); only
  `RecoveredExactly` rules it out, for the one text that the damaged chunks spell.
- A Save draws a generation of 32 hexadecimal characters that the key's current and backup
  markers do not name when it starts (`Unnamed`). Nothing else is assumed of it.
- Store keys contain no `#` (`KeyOk`); the repository's own keys are `msauth:` and a client id
  (config.go, lines 62 to 66).
- Theorems about returned values, backups and counts say which Gets they need answered
  (`Missed`, `ServedSince`, `SavesServed`); the structural ones need none.
- The cipher's open inverts seal (`Inverts`). The file-name hash is any function: keys whose
  names hash alike share a file and a register (`SharesFile`).
- A blob is short enough for the chunk count to be computed in a 64-bit int (`Fits`).
- Where a run is completed, callbacks return after finitely many operations (`Returns`).

One character stands for one byte, and Go's int is 64 bits wide. A saved empty blob and an
absent key both load as nothing in the code, so both are the empty blob here. A lock wait is
one step, taken when the lock is free; a thread that gives up or is refused is a thread that
dies or aborts before that step. Random bytes are arguments, and drawing them does not fail.

Where the code and its comments differ, the model follows the code, and a theorem says how far
the comment holds:

- Save is documented to keep the last complete generation available for recovery. If the chunks
  or the marker of the current one are damaged, Load recovers a saved blob exactly when the
  marker item is still in the keyring; if that item is lost, Load reports an absent key although
  the backup is intact (`RecoveredExactly`). And a successful Save leaves the generation before
  it as the backup exactly when no Get it made failed, or the backup marker named that generation
  already: one failed Get makes a readable generation look unusable (`SaveKeepsBackup`,
  `OldGenerationInReach`).
- Save is documented to repair an invalid marker. It repairs the current one; an unparsable
  backup marker makes every Save fail (`SaveSucceedsExactly`), and any unparsable marker makes
  Delete fail before it removes anything (`DeleteSucceedsExactly`).
- Legacy chunks are documented to stay reclaimable. That holds exactly when no Get of the
  migrating Save failed (`LegacyCountKeptExactly`), and every legacy layout without a backup can
  lose its count to one failed Get (`OneMissLosesTheCount`, with an instance in `ACountIsLost`).
- Account listings are documented to be deterministic. They are exactly when no two different
  entries tie (`ListingDeterministic`). Entries tie if the five compared fields agree, the
  environment up to case; tied entries may swap places, and with them the spelling of the
  environment in the reference, the user name and the name (`ListingsDiffer`).

## Model

| member | source | states |
|---|---|---|
| Markers.ParseEncode | cache/keychain.go:57-87 | Parsing an encoded well-formed marker, legacy or v2, gives the marker back. |
| Markers.Parse | cache/keychain.go:64-87 | Every accepted text parses to a well-formed marker: a positive count, and either no generation or one of 32 and a digest of 64 hexadecimal characters. |
| Markers.ParseStable | cache/keychain.go:57-87 | Re-encoding and re-parsing any accepted text, canonical or not, gives the same marker. |
| Markers.ParseIsNotInjective | cache/keychain.go:64-71 | `+3`, `003` and `3` are one legacy marker, so encoding does not invert parsing. |
| Markers.ItemsOwned | cache/keychain.go:46-48 | Every marker and chunk item of a key without `#` begins with that key and a `#`, so distinct keys share no item. |
| Markers.MarkerItemsApart | cache/keychain.go:101-106 | The three marker items of a key differ from each other and from each of its chunk items. |
| Markers.ChunkNamesApart | cache/keychain.go:101-106 | Two chunk names of a key are equal exactly when generation and index are. |
| Markers.ParseExactly | cache/keychain.go:64-87 | A text parses to a marker if and only if it is the spelling of a positive count, or `v2:`, 32 hexadecimal characters, such a count, and a digest of 64 hexadecimal characters, with a colon between each two. |
| KeychainContents.ReadSpells | cache/keychain.go:101-124 | A marker item reads to a blob if and only if the items it names, by their full names and from 0 on, spell it, with the marker's digest if it has one. |
| KeychainContents.LoadAnswers | cache/keychain.go:134-158 | Whatever Gets fail, a Load that returns a blob returns nothing for a missing marker item, or what the chunks of the current or of the backup generation spell. |
| KeychainContents.LoadExactly | cache/keychain.go:134-158 | With every Get answered Load fails if and only if the marker item is there and neither it nor the backup's can be read; otherwise it returns nothing for a missing marker item, the current blob if readable, and the backup's if not. |
| KeychainContents.LegacyLoads | cache/keychain.go:46-48 | A bare count and the items `key#0`, `key#1` and so on load as the concatenation of those items. |
| KeychainContents.SaveLeaves | cache/keychain.go:163-220 | After a successful Save the marker item reads `v2:`, generation, count and digest, and each chunk item, by its full name, holds its piece of 2048 bytes. |
| KeychainContents.DeleteExactly | cache/keychain.go:223-260 | Without failures a Delete removes the three marker items and the chunk items that their texts name, legacy ones from `key#0` on, and nothing else, if each marker item is absent or has the form of a marker, and otherwise nothing at all. |
| KeychainContents.LegacyDeleted | cache/keychain.go:223-260 | After a failure-free Delete of a bare count none of the items `key#0`, `key#1` and so on that it counts is left. |
| KeychainStep.CallsStayHome | cache/keychain.go:134-260 | Each call of Load, Save and Delete names an item of the operation's own key. |
| KeychainStep.ChunkShape | cache/keychain.go:189-197 | Each chunk is in bounds and at most 2048 bytes, all but the last are full, and only the empty blob has an empty chunk. |
| KeychainStep.WrittenRoundTrip | cache/keychain.go:108-124 | Once all chunks of a new generation are stored, reading its marker gives the whole blob, for every length. |
| KeychainOps.SaveWritesOnce | cache/keychain.go:163-220 | A Save publishes its blob exactly once if it reports success or is cut short while collecting, and never if it reports an error or is cut short before. |
| KeychainOps.DeleteClearsOnce | cache/keychain.go:223-260 | A Delete clears the value exactly once if it succeeds and at most once if it fails. |
| KeychainStep.SaveStep | cache/keychain.go:163-220 | Whatever a Save's next call does, Load's value becomes the blob only at the publishing call and otherwise stays, complete markers stay complete, and the Save knows what its next step needs. |
| KeychainStep.DeleteStep | cache/keychain.go:223-260 | The same for each call of Delete: the value becomes empty at the first removal and stays otherwise; markers go before chunks. |
| KeychainStep.OpStep | cache/keychain.go:134-260 | One call of any operation keeps the markers complete, applies its register effect and touches only its own key. |
| KeychainStep.SaveCrashSafe | cache/keychain.go:160-220 | After every prefix of a Save's calls Load yields the old value or the new blob, complete markers are complete, and other keys' items are untouched. |
| KeychainStep.DeleteCrashSafe | cache/keychain.go:222-260 | After every prefix of a Delete's calls Load yields the old value or nothing, and existing markers still name complete generations. |
| KeychainStep.SaveResult | cache/keychain.go:163-220 | After a finished Save, Load yields the blob if it reported success and the old value if it reported an error. |
| KeychainStep.LoadResult | cache/keychain.go:134-158 | Whatever Gets fail, Load returns the value, the backup generation's blob or an error; with every Get answered it returns the value. |
| KeychainReadBack.PublishesOnlyVerified | cache/keychain.go:198-213 | Whatever the keyring answers, truthfully or not, a Save moves a marker only after it has read its whole new generation back with the digest of its blob. |
| KeychainSystem.InvRun | cache/keychain.go:134-260 | In every state of every run, each process knows what its program needs, and each key has at most one running operation. |
| KeychainSystem.AtomicRegister | cache/keychain.go:134-260 | Over every interleaving with failed calls and deaths, each key's value changes only at a Save's publishing call and a Delete's first removal. |
| KeychainSystem.MarkersStayComplete | cache/keychain.go:160-220 | In every state of such a run the current and the backup marker are absent or parse and name a complete generation, and Load has a value. |
| KeychainSystem.LoadReturnsTheValue | cache/keychain.go:134-158 | A Load none of whose own calls failed, whatever happened to all others, returns the register's value at the moment it returns. |
| KeychainRecovery.SaveKeepsBackup | cache/keychain.go:169-213 | A successful Save over a readable generation leaves it, whole and named, as the backup if and only if no Get it made failed or the backup marker named it already. |
| KeychainRecovery.OldGenerationInReach | cache/keychain.go:160-213 | At every crash point of any Save over a readable generation it is whole, and a marker names it if and only if no Get failed, nothing is published yet, or the backup marker named it already. |
| KeychainRecovery.DamagedLoad | cache/keychain.go:132-158 | After any loss or rewriting of the current chunks and any loss or spoiling of the current marker, Load yields nothing if the marker item is lost, what the chunks spell if it has the saved blob's digest, and exactly the blob before otherwise. |
| KeychainRecovery.DamageRecovery | cache/keychain.go:132-219 | With the marker item in place Load then yields one of the two blobs or a text with the digest of the newer one; a further Save keeps the backup marker, and at each of its crash points Load yields that or the new blob. |
| KeychainRecovery.RecoveredExactly | cache/keychain.go:140-158 | Unless the damaged chunks spell a text that shares the blob's digest, Load yields the saved blob or the one before it if and only if the current marker item is still there or one of the two is empty. |
| KeychainTornReads.NoTornReads | cache/keychain.go:108-158 | From a keyring without markers, with chunk items damaged at any moment, a Load returns nothing, an error or a text with the digest of a blob passed to a Save of that key, and so, unless those two share a digest, that blob whole. |
| KeychainLayout.SaveMovesFootprint | cache/keychain.go:188-219 | A Save without failing calls succeeds, makes the new generation current and the old one the backup, and leaves exactly their items and the legacy ones. |
| KeychainLayout.FootprintAfterSaves | cache/keychain.go:163-220 | After any number of such Saves, from nothing or from a legacy layout, the key owns exactly the last two generations with their markers and the legacy items. |
| KeychainLayout.SaveSucceedsExactly | cache/keychain.go:169-178 | Without failing calls a Save succeeds if and only if the backup marker is absent or parses; otherwise it has written nothing. |
| KeychainLayout.DeleteSucceedsExactly | cache/keychain.go:223-260 | Without failing calls a Delete succeeds if and only if each of the three markers is absent or parses; it then removes the markers and every chunk they name, and otherwise nothing. |
| KeychainLayout.DeleteLeavesNothing | cache/keychain.go:222-260 | From any footprint of a failure-free run, legacy start included, Delete leaves the key no item. |
| KeychainLegacy.LegacyReclaim | cache/keychain.go:201-218 | From a complete legacy layout, after any run of Saves cut short anywhere with their Gets answered, every legacy chunk is there, some marker names the full count, and a Delete removes them all. |
| KeychainLegacy.LegacyCountKeptExactly | cache/keychain.go:179-213 | A successful Save over a legacy generation records its count if and only if no Get it made failed; the current marker no longer names it either way. |
| KeychainLegacy.RunsOn | cache/keychain.go:163-220 | From any point of a Save at which the backup marker is absent or parses, serving its remaining calls leads to success. |
| KeychainLegacy.OneMissLosesTheCount | cache/keychain.go:169-213 | For every legacy layout without a backup and every blob there is a successful Save, its first Get failed, after which the legacy chunks are there and no marker names them. |
| KeychainLegacy.ACountIsLost | cache/keychain.go:169-213 | A keyring, a Save and its calls for which this happens. |
| KeychainStore.Store.Read | cache/keychain.go:108-124 | The loop over the chunks follows the read of its operation and returns its result, leaving every item as it was. |
| KeychainStore.Store.RemoveChunks | cache/keychain.go:126-130 | The loop goes on past every failed Delete and ends where its operation goes on. |
| KeychainStore.Store.Look | cache/keychain.go:89-99 | Absent, a parsed marker and an error are told apart as the code does. |
| KeychainStore.Store.Load | cache/keychain.go:134-158 | Load changes nothing; a returned blob is nothing for a missing marker item or what the chunks of the current or the backup generation spell, and if no call failed an error means that the marker item is there and neither can be read. |
| KeychainStore.Store.Save | cache/keychain.go:163-220 | On success Load yields the blob, on an error what it did before, and at every recorded call one of the two with complete markers. |
| KeychainStore.Store.StoreChunks | cache/keychain.go:191-197 | The loop stores the chunks of the new generation in order and stops at the first failed call. |
| KeychainStore.Store.MoveMarkers | cache/keychain.go:201-219 | Backup marker, legacy count, new marker and collection follow in that order, each only if the one before succeeded. |
| KeychainStore.Store.Delete | cache/keychain.go:223-260 | On success all three markers are gone and Load yields nothing, and at every recorded call the old value or nothing; if no call failed, exactly the marker items and the chunk items that their texts name are gone. |
| KeychainStore.Store.FindMarkers | cache/keychain.go:229-240 | All three markers are read and parsed before anything is removed, and one error ends Delete with every item in place. |
| KeychainStore.Store.RetireMarkers | cache/keychain.go:241-249 | The marker items are removed in order, a missing one being no error, before any chunk. |
| BlobLocks.RunKeeps | cache/keychain_lock_unix.go:16-40 | In every state of every run, mutexes and file locks are held by exactly the threads whose stage says so, through errors and deaths. |
| BlobLocks.Exclusion | cache/keychain_lock_unix.go:14-40 | Over all processes at most one thread is inside the lock of a service and key. |
| BlobLocks.NothingLeftBehind | cache/keychain_lock_unix.go:17-39 | When no thread is in the lock or waiting for it, no mutex and no file lock is held. |
| BlobLocks.Mover | cache/keychain_lock_unix.go:14-40 | A thread that waits or holds always has, after at most two holders, a thread that can take its next step. |
| KeychainLocks.LockNamesApart | cache/keychain_lock.go:9-15 | Services without NUL bytes share a mutex name only for the same service and key. |
| KeychainLocks.KeychainMutexes.LockProcess | cache/keychain_lock.go:9-15 | A known name keeps its mutex, a new one gets a fresh one, and no two names share one. |
| KeychainLocks.KeychainMutexes.LockKeychain | cache/keychain_lock_unix.go:16-40 | It returns both locks exactly when every call succeeded, and on each error path neither mutex nor file lock is held; other names are untouched. |
| KeychainLocks.KeychainMutexes.Unlock | cache/keychain_lock_unix.go:39 | Unlocking frees and closes the file lock and frees the mutex of that name and no other. |
| Gates.StepKeeps | cache/transaction.go:53-78 | Every step keeps: users counts the threads that refer to a gate, token and holders make one, a path is in the table while its gate has users, and no two paths share a gate. |
| Gates.RunKeeps | cache/transaction.go:53-78 | So in every state of every run, across deletion and re-creation of gates. |
| Gates.Exclusion | cache/transaction.go:53-78 | At most one thread per path holds the token, even when the path's gate was deleted and made anew. |
| Gates.NoLostWaiter | cache/transaction.go:71-77 | A waiting thread finds the token or a holder whose return cannot block; a cancellation never loses the token. |
| Gates.CancelUndoesEnter | cache/transaction.go:53-74 | Entering and being cancelled leaves table, gates and threads as they were. |
| Gates.InTableWhileUsed | cache/transaction.go:63-70 | A path is in the table exactly while some thread refers to its gate. |
| Gates.Cleanup | cache/transaction.go:63-70 | When every caller has returned the table is empty. |
| GateTable.TransactionGates.Join | cache/transaction.go:54-62 | Finding or making the gate and counting the caller in is the Enter step of the table. |
| GateTable.TransactionGates.Leave | cache/transaction.go:63-70 | Counting the caller out, with deletion by the last one, is the Drop step. |
| GateTable.TransactionGates.Send | cache/transaction.go:76 | The channel is empty whenever a holder returns the token, so the send does not block. |
| GateTable.TransactionGates.AcquireGate | cache/transaction.go:53-78 | A cancelled caller leaves table and threads as it found them; any other becomes the one holder of its path. |
| GateTable.TransactionGates.ReleaseGate | cache/transaction.go:63-76 | The caller is gone from the table, and its path is too exactly when nobody else refers to it. |
| Transactions.StepKeeps | cache/transaction.go:114-186 | Every step of every thread and every death keeps: a thread past its gate holds the token, the lock file's holder is the one thread in a guarded phase, and the store is what the journal says. |
| Transactions.Serializable | cache/transaction.go:16-26 | In every state of every run the store equals the journal's transactions run one after the other; a callback that returned made all its operations, and only the last entry may still be running. |
| Transactions.JournalGrows | cache/transaction.go:114-186 | Entries are added only by the holder of the lock file and extended only while last, so the serial order is the lock order and a death leaves a prefix. |
| Transactions.OperationsCovered | cache/transaction.go:80-112 | Each operation on an open view happens while its thread holds gate and lock file, and no other thread of any process has an open view. |
| Transactions.NothingLeftBehind | cache/transaction.go:139-171 | When no thread refers to a gate, the lock file is free and every gate table is empty. |
| TransactionRun.View.Call | cache/transaction.go:86-112 | A closed view or a done context refuses, tells the callback and leaves the store alone; otherwise the operation happens while gate and lock file are held. |
| TransactionRun.LockFile | cache/transaction.go:154-170 | The lock is held if and only if some poll finds it free and all before it busy; the error is the poll's if a fault comes first, and the context's if all polls find it busy. |
| TransactionRun.RunTransaction | cache/transaction.go:114-186 | The callback runs, to its end, if and only if no callback is nil, the context is not done, the directory is there, the lock path is a regular file or missing, it opens, a poll finds it free with only busy ones before, and it is then the same regular file; otherwise the error is that of the first check that failed. On every path the gate is given back, the lock file unlocked and closed and the view shut. |
| TransactionRun.RunCallback | cache/transaction.go:182-185 | A callback that decides as it goes runs until it is done, and leaves the store and its result as its journal entry has them. |
| Progress.EffectsLocked | cache/transaction.go:188-198 | The store changes only by an operation of an open view whose thread holds the lock file of its blob. |
| Progress.DeadlockFree | cache/transaction.go:188-198 | Every reachable state with a thread in a transaction or a store operation has a step that needs no failure, cancellation or death, an open view's operation taking its blob lock first. |
| Completion.EveryRunCompletes | cache/transaction.go:188-198 | From every reachable state whose callbacks return, each thread with its own, a bounded number of such steps leads to a state with no thread under way and no gate, lock file or blob lock held. |
| Completion.ForwardShrinks | cache/keychain_lock_unix.go:16-40 | Each such step, every lock step of every operation still to come included, lowers that bound. |
| FileSteps.OpStep | cache/file.go:46-230 | Each file-system call keeps the directory sound and the caller's knowledge true, moves only its own temporary file, and a program comes to fail only by a failed call. |
| FileSteps.OthersSteady | cache/file.go:174-199 | A call leaves the key, every published file and every other program's temporary file as they are. |
| FileSteps.RegisterStep | cache/file.go:158-230 | What Load would yield changes only by a Save's rename and a Delete's removal, for the keys that share their file. |
| FileRuns.RunKeeps | cache/file.go:46-230 | In every state of every lock-free interleaving with deaths, the directory is sound and no two programs share a temporary file. |
| FileRuns.KeyNeverChanges | cache/file.go:65-84 | Once the key file exists it holds 32 bytes that never change. |
| FileRuns.KeyAgreement | cache/file.go:46-113 | All keyBytes calls that succeed, in any process at any time, return the one published key. |
| FileRuns.BlobsWhole | cache/file.go:174-199 | At every instant a blob file is absent or one writer's whole ciphertext under the published key. |
| FileRuns.AtomicRegister | cache/file.go:127-230 | Each file, and so each key, is an atomic register without a lock, and Load always has a value. |
| FileRuns.LoadReturnsTheValue | cache/file.go:132-156 | A Load that returns a blob returns the register's value at the moment it opened the file. |
| FileRuns.FailsOnlyOnFault | cache/file.go:79-84 | An operation fails only if one of its own file-system calls failed, whatever became of earlier ones of the process; losing the race for the key is no failure. |
| FileRuns.NoLitter | cache/file.go:71-198 | Without deaths and failed removals every temporary file belongs to an operation under way. |
| FileReads.LoadAnswers | cache/file.go:132-156 | Whatever its calls are answered, Load returns a blob if and only if its file is missing and the blob empty, or the content read has at least 12 bytes and opens to the blob under the 32 bytes read from the key file or its own key once linked. |
| FileReads.DamageIsReported | cache/file.go:132-156 | If the content is too short or does not open under the key obtained, or the key file has another length than 32, Load ends in an error. |
| FileReads.LoadStep | cache/file.go:46-156 | Alone on any directory each call of Load leaves all files but its own temporary one as they are, and Load fails only by a failed call, a key of the wrong length or a text that does not open. |
| FileStore.Store.ReadKey | cache/file.go:98-113 | The key file is validated, opened and read, and only 32 bytes are accepted. |
| FileStore.Store.KeyBytes | cache/file.go:46-85 | The fast path, the write of a temporary file, the link and the fallback after a lost race follow the program, and the temporary file is removed on every path. |
| FileStore.Store.WriteSyncClose | cache/file.go:209-219 | However the system splits the writes, all bytes are in the file before it is synced and closed, or the caller drops it. |
| FileStore.Store.Load | cache/file.go:132-156 | From any directory Load leaves every file as it was; without a failed call it returns nothing for a missing file, and otherwise what the text opens to under a key file of 32 bytes, its first 12 bytes the nonce, or an error if key or text is of the wrong length or the text does not open. From a sound directory it returns the key's value, or an error after a failed call. |
| FileStore.Store.Save | cache/file.go:158-200 | On success the key loads as the blob, on an error as before, and no key with another file changes; an error means that a call failed. |
| FileStore.Store.Delete | cache/file.go:221-230 | On success the key loads as nothing, a missing file being no error, and no key with another file changes. |
| Accounts.LoginBinds | accounts.go:55-160 | The reference of a successful login is valid, carries the logged-in ids and the claimed tenant, and gets the authority `https://`, environment and tenant, `consumers` for the personal one, from an empty configuration; user name, name and cache realm are the login's. |
| Accounts.LoginSucceedsExactly | accounts.go:147-160 | A login is accepted if and only if its ids and its claim make a valid reference and its realm is empty, an alias, the claim, or `consumers` for the personal tenant. |
| Accounts.LoginSelectable | accounts.go:127-160 | The logged-in account fits its reference by realm unless the realm is empty or an alias, and by its local id if the realm is an alias and the id is known. |
| Accounts.CleanExactly | accounts.go:191-196 | A field is clean if and only if it is not empty, has no space at either end and no control character anywhere. |
| Accounts.ValidRefExactly | accounts.go:177-200 | A reference is valid if and only if its fields are clean, the local id clean or empty, environment and tenant free of the seven characters that structure a URL, and the tenant no alias in any case. |
| Accounts.BindsExactly | accounts.go:55-73 | A client is bound if and only if its reference is valid, no account is configured and a configured authority parses and fits; the authority is then `https://`, environment and tenant, `consumers` for the personal one. |
| Accounts.ListedByFields | accounts.go:127-145 | A listed entry has its account's ids and names, and for its tenant the realm, the personal tenant for `consumers` and none for the other aliases. |
| Accounts.SelectExactAccount | accounts.go:225-250 | The loop returns what the classes of exact and of discovery entries call for. |
| Accounts.SelectedExactly | accounts.go:225-250 | An account is selected if and only if it is the only exact entry, or no entry is exact and it is the only discovery entry; a login is required if and only if nothing matches. |
| Accounts.SelectedByFields | accounts.go:225-255 | The same for the fields themselves: home id, environment up to case and a known local id must agree; an entry is exact if its realm is the tenant or `consumers` for the personal one, and other than that counts only as `common` or `organizations` with a known local id. More than one entry of the class is ambiguous. |
| Accounts.OrderIndependent | accounts.go:225-250 | The order of the cache entries decides neither the account nor the error. |
| Accounts.LoginRoundTrip | accounts.go:147-250 | A login's reference selects the logged-in account from every list in which no other entry matches, if its realm names a tenant or an alias with a known local id. |
| Accounts.TokenAcceptedExactly | accounts.go:257-276 | A token result is accepted if and only if its claim is absent or the bound tenant and its metadata are absent or exactly matching; no conflicting result passes. |
| Accounts.TokenByFields | accounts.go:252-276 | The same for the fields themselves: the claim is absent or the tenant, and the metadata is absent or agrees in home id, environment up to case, a known local id and realm, `consumers` standing for the personal tenant; all else is a mismatch. |
| Accounts.SelectedTokenAccepted | accounts.go:225-276 | A result that carries the selected account passes if and only if the account was selected by its realm. |
| Accounts.BindingRoundTrip | accounts.go:55-276 | Login, binding, selection and token check agree on the logged-in account exactly for the realms that name a tenant. |
| Accounts.AuthorityPinned | accounts.go:202-223 | A configured authority never changes the pinned one; it is accepted or refused. |
| Accounts.AuthorityAcceptedExactly | accounts.go:202-217 | A valid reference accepts its own environment with its own tenant, `common`, or `consumers` if personal and `organizations` if not, and nothing else. |
| Accounts.AuthorityStable | accounts.go:202-223 | The authority a valid reference gets is accepted when configured and pins itself again. |
| Accounts.AuthorityInjective | accounts.go:218-222 | Two valid references have the same authority exactly when environment and tenant agree. |
| AccountOrder.CompareIsPreorder | accounts.go:162-175 | compareAccounts is antisymmetric and transitive, and ties exactly the entries that agree in all five fields, the environment up to case. |
| AccountOrder.CompareTextIsByteOrder | accounts.go:162-175 | A text comes before another if and only if it is a proper prefix of it or has the smaller byte at the first difference. |
| AccountOrder.FieldsInOrder | accounts.go:162-175 | Home id, environment up to case, tenant, local id and cache realm decide, in that order. |
| AccountOrder.ListAccounts | accounts.go:82-93 | The listing holds every cached entry's metadata once, in order. |
| AccountOrder.ListingsAgreeOnKeys | accounts.go:75-93 | However the cache orders its entries and whichever way they are sorted, two listings agree position by position in every compared field. |
| AccountOrder.ListingDeterministic | accounts.go:75-93 | The listing is the same for every order of the cache and every way of sorting if and only if no two different entries tie. |
| AccountOrder.ListingsDiffer | accounts.go:162-175 | Two entries whose environments differ in case have two listings, with different references first. |
| Text.FoldsAgree | accounts.go:198-276 | The two ways in which the code ignores case agree. |
| Text.AtoiExactly | cache/keychain.go:64-87 | A text is a number if and only if it is the decimal spelling of a 64-bit integer after an optional sign and any zeros. |
| Text.ItoaByDigits | cache/keychain.go:46-62 | A count or index is spelled in decimal digits, last digit last, without leading zeros. |
| Text.HexExactly | cache/keychain.go:72-87 | Hexadecimal characters are the digits and the letters a to f in either case. |
| Text.FoldsLetters | accounts.go:198-276 | Two texts agree up to case if and only if they are equally long and each two characters are equal or one ASCII letter in both cases. |
| Text.TrimmedExactly | accounts.go:191-196 | A text is unchanged by trimming if and only if it is empty or neither end is white space. |

## Left out

- MSAL, withCacheValue, login and logout of the authenticator, token sources, the interactive, device and loopback flows, the command and the test doubles: they wrap libraries that are not shown or follow from one body.
- URL parsing: accountAuthority gets the parts of a parsed URL, or that it did not parse.
- Non-ASCII account strings: the code mixes EqualFold and ToLower, which differ on a few letters outside ASCII; characters outside ASCII count as their own case here.
- The contents of error messages and the wrapping of one error in another; errors are told apart by kind.
- Permissions, access control lists, symbolic links and the canonical form of lock paths: such calls are steps that may fail.
- The Windows variants of locks and permissions.
- Sync, chmod and mkdir have no effect here beyond failing: what they guard against is not part of this model.
- Power loss and a directory that was not synced: a crash is the death of a process, and link and rename are atomic.
- Lock files replaced by outsiders and writers that bypass transactions: the code calls these uncoordinated.
- Several keyring services at once: services share no item and no lock, so one is modelled.
- Nested transactions on one store: a thread that waits for itself ends only by its context.
- A callback that uses its view from several goroutines at once.
- Fairness: `EveryRunCompletes` says that all work can finish, not which waiting thread goes first.
- Reuse of inodes and of process numbers while something still refers to them.
- Partial reads: a file is read in one step, which is exact because published bytes never change.
- KeychainStore.Store.Load: the class runs one operation alone; what other processes do between its calls is in KeychainSystem, and the same holds for FileStore and FileRuns.
- TransactionRun.RunTransaction: the callback must return; one that does not is cut short only by a death, which is in Transactions.
- AccountOrder.ListAccounts: the library's sorting routine is an insertion sort here; the listing theorems hold for every sorting routine.
