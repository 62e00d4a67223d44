# Verified models of the langgraph-cpp foundation

A Dafny model of the hard parts of the C++ foundation library and proofs of what they promise: the JSON
Schema compiler and validator, the filesystem and in-memory blob stores, channels with `select`, the
unbuffered channel, the lifecycle manager, the server-sent-events parser, the ULID generator and the
in-memory cache.  `dafny verify dfyconfig.toml` checks everything.

Objects that the C++ code changes in place are classes with the same fields; the loops that scan, evict, notify
or encode are loops.  Each method is tied to a function or relation on values, and the theorems are about
those.  Concurrent code is a state machine whose steps are the critical sections of the source, and the
theorems hold in every reachable state of every interleaving.

**JSON Schema.** `Json`, `Decimal`, `Strings`, `Pointer` and `TreeBudget` hold documents, JSON Pointers (RFC 6901) and the
size checks; `Schema` and `SchemaCompiler` say and decide which schemas compile; `Validation` gives the full error list of
a run as a function, `Validator` is the validator with its shared error list, stop flag and counters, and
`SchemaValidator` is the entry point.  `Semantics` defines, independently of any run, when a value satisfies a
schema (section 10.2 of JSON Schema Core 2020-12, section 6 of JSON Schema Validation 2020-12), for the library's
integer arithmetic and for the mathematical one; `Standard` shows where the two are the same and `Tolerance` what the
tolerance of `multipleOf` does to integers.  The main
results: the validator reports nothing exactly when the value satisfies the schema; a smaller error bound reports a
prefix of what a larger one does; a run enters at most size-of-value times size-of-schema nodes; every
reported location exists; and an accepted schema is never read at the wrong kind.

**Blob stores.** `BlobStore` is the disk between two file operations, `BlobStoreFiles` the store that performs them one
by one with any of them failing, `MemoryBlobStore` the reference store and the refinement, `BlobOrder` and `BlobListing`
the paging.  Every state a crash can leave answers like a memory store that did each operation entirely
or not at all.

**Channels.** `Select` is the wake-up protocol with any number of selectors and other threads; `Channels` the bounded
channel and the shuffle; `Rendezvous` the unbuffered channel.

**The others.** `Lifecycle` is the manager over all interleavings, `LifecycleManager` its sweeps as loops and
`LifecycleRuns` the link between them; `Sse` the parser;
`Ulid` the generator; `CacheKeys`, `Recency` and `MemoryCache` the cache.

## Where the code falls short of what one would expect

Each of these has a lemma that shows the failure and one that says exactly when it does not happen.

- Integers are compared and tested as signed 64-bit values when their storage differs, so an unsigned value from 2^63
  on can compare as negative (`Json.OrderWraps`, `Json.CompareExact`), equal a negative number (`Json.EqualityWraps`,
  `Json.EqualExact`) or pass as a multiple (`Json.DivisibilityWraps`, `Json.MultipleOfExact`).  A schema with `const` -1
  accepts 2^64 - 1 (`Standard.ConstAcceptsWrapped`).
- The floating-point tolerance of `multipleOf` is also applied to integers that the integer test refused.  With the
  64-bit mantissa of an 80-bit `long double`, `{"multipleOf": 1152921504606846976}` accepts 1 and `{"multipleOf": 2}`
  accepts 4611686018427387905 (`Tolerance.ToleranceAcceptsNonMultiple`).  In exact arithmetic it accepts what is within
  2^-57 of the larger of the two (`Tolerance.NearOnIntegers`), which is divisibility for all integers up to a bound if
  and only if the bound is below 2^57 (`Tolerance.ToleranceHarmlessIff`, `Tolerance.SuitsIff`).  Where integers neither
  wrap nor pass by the tolerance alone, the verdict is the standard's (`SchemaValidator.VerdictIsStandard`).
- A divisor from 2^63 on is refused (`Schema.LargeDivisorRefused`, `Schema.MultipleOfAcceptedIff`).
- The type `integer` goes by storage, so 1.0 is not an integer, unlike in section 6.1.1 of JSON Schema Validation
  (`Schema.WholeDoubleIsNoInteger`, `Schema.IntegerTypeExact`).  `Semantics` follows the code here.
- A `put` whose clock has stepped behind the recorded creation time, or whose metadata is larger than the
  reader accepts, commits metadata that can never be read, replaced or removed again
  (`BlobStore.ClockStepBackLosesBlob`, `BlobStore.UnreadableIsStuck`, `BlobStore.PutReadBackIff`).
- Writing content first is not crash-safe if it overwrites current content of the same checksum and other
  bytes (`BlobStore.CollisionMixesBlobs`, `BlobStore.PutSafeIff`).  A key that shares its path with another one goes
  from "missing" to an error when the other is written (`BlobStore.SharedStemBreaksOther`,
  `BlobStore.SharedStemAnswer`).
- The header comment of the unbuffered channel says a send completes only after a receiver took the value.  A
  close, or another sender's cancellation or timeout, throws the value out of the slot, and the sender then
  returns Ok (`Rendezvous.CloseLosesValue`, `Rendezvous.CancelLosesOtherValue`, `Rendezvous.OkMeansReceivedIff`).
- After an exhaustion error the ULID counter is back at zero, so order is lost until some call reads a later time
  (`Ulid.ExhaustionBreaksOrder`, `Ulid.AfterExhaustionIff`, `Ulid.ConsecutiveIdsIff`).

## Model

| member | source | states |
|---|---|---|
| `Json.CompareExact` | src/foundation/json/json_schema_common.hh:287-325 | integer comparison is the mathematical one if and only if a mixed signed/unsigned pair does not wrap to the wrong side |
| `Json.OrderWraps` | src/foundation/json/json_schema_common.hh:287-325 | 2^63 stored unsigned compares below -1 |
| `Json.EqualExact` | src/foundation/json/json_schema_validate.cpp:443-452 | integer equality in enum, const and uniqueItems is the mathematical one if and only if a mixed pair does not differ by 2^64 |
| `Json.EqualityWraps` | src/foundation/json/json_schema_validate.cpp:443-452 | 2^64 - 1 equals -1 |
| `Json.MultipleOfExact` | src/foundation/json/json_schema_validate.cpp:138-172 | for every divisor the compiler accepts, the integer test is divisibility if and only if the divisor is stored unsigned, the value does not wrap, the divisor divides 2^64, or neither the value nor its wrapped reading is a multiple |
| `Json.DivisibilityWraps` | src/foundation/json/json_schema_validate.cpp:138-172 | 2^64 - 3 leaves 1 when divided by 3 and passes as a multiple of 3 |
| `Pointer.EscapeToken` | src/foundation/json/json_schema_common.hh:77-90 | the escaping loop computes the escaped token |
| `Pointer.EscapeRoundTrip` | src/foundation/json/json_schema_common.hh:77-90 | unescaping by RFC 6901 undoes the escaping for every token |
| `Pointer.ResolveKey` | src/foundation/json/json_schema_common.hh:92-98 | a pointer with a key appended resolves to that member of what the shorter pointer resolves to |
| `Pointer.ResolveIndex` | src/foundation/json/json_schema_common.hh:100-106 | the same for an appended array index |
| `TreeBudget.CheckTree` | src/foundation/json/json_schema_validate.cpp:22-79 | accepts exactly the trees within depth, node and string limits, counts their nodes, and otherwise names the first place over a limit in document order, which exists in the value |
| `TreeBudget.ExcessIff` | src/foundation/json/json_schema_validate.cpp:22-79 | there is a first place over a limit if and only if height, size or longest string of the tree is over it |
| `SchemaCompiler.CompileType` | src/foundation/json/json_schema_compile.cpp:45-73 | accepts exactly a known type name or a non-empty list of distinct known names |
| `Schema.IntegerTypeExact` | src/foundation/json/json_schema_common.hh:181-202 | the type integer is that of whole numbers if and only if the value is not a whole double |
| `Schema.WholeDoubleIsNoInteger` | src/foundation/json/json_schema_common.hh:181-202 | 1.0 is whole and not of type integer |
| `SchemaCompiler.CompileRequired` | src/foundation/json/json_schema_compile.cpp:75-93 | accepts exactly lists of distinct strings |
| `SchemaCompiler.CompileEnum` | src/foundation/json/json_schema_compile.cpp:95-109 | accepts exactly non-empty lists without equal values |
| `SchemaCompiler.CompileRange` | src/foundation/json/json_schema_compile.cpp:111-138 | accepts exactly finite numeric bounds in order |
| `SchemaCompiler.CompileMultipleOf` | src/foundation/json/json_schema_compile.cpp:140-158 | accepts exactly finite positive doubles and integers whose signed 64-bit reading is positive |
| `Schema.MultipleOfAcceptedIff` | src/foundation/json/json_schema_compile.cpp:140-158 | of the integers, those from 1 to 2^63 - 1 are accepted and no others |
| `Schema.LargeDivisorRefused` | src/foundation/json/json_schema_compile.cpp:140-158 | 2^63 is refused as a divisor |
| `SchemaCompiler.CompileSizes` | src/foundation/json/json_schema_compile.cpp:191-222 | accepts exactly non-negative integer bounds in order |
| `SchemaCompiler.CompileSchema` | src/foundation/json/json_schema_compile.cpp:251-369 | from any node count, accepts exactly the acceptable schemas that fit depth and node budget, and counts no more nodes than the schema has |
| `SchemaCompiler.Compile` | src/foundation/json/json_schema_compile.cpp:371-379 | succeeds if and only if the whole tree is within the limits and every keyword at every depth is acceptable |
| `Schema.AcceptedIsWellKinded` | src/foundation/json/json_schema_compile.cpp:251-369 | every accepted schema has, at every depth, keywords of the kind the validator reads them as, so no run makes an ill-kinded read |
| `Schema.SpellingDistinguishes` | src/foundation/json/json_schema_common.hh:17-44 | the keyword names of the source meet the assumption the proofs make about names |
| `Validator.ValidationResult.AddError` | src/foundation/json/json_schema_error.cpp:51-58 | appends the error and changes nothing else |
| `Validator.ValidationContext.AddValidationError` | src/foundation/json/json_schema_validate.cpp:81-104 | adds the error unless stopped, and stops when the bound is reached |
| `Validator.ValidationContext.CheckBudget` | src/foundation/json/json_schema_validate.cpp:106-127 | counts the node and reports depth or node excess, without going on after a stop |
| `Validator.ValidationContext.ValidateQuiet` | src/foundation/json/json_schema_validate.cpp:200-215 | a quiet sub-run leaves the outer error list, flag and counter alone and answers whether its own full run has no error |
| `Validator.ValidationContext.ValidateObject` | src/foundation/json/json_schema_validate.cpp:217-297 | the context afterwards is the old one with the object's errors and visits absorbed up to the error bound |
| `Validator.ValidationContext.ValidateArray` | src/foundation/json/json_schema_validate.cpp:299-348 | the same for arrays |
| `Validator.ValidationContext.ValidateString` | src/foundation/json/json_schema_validate.cpp:350-386 | the same for strings |
| `Validator.ValidationContext.ValidateNumber` | src/foundation/json/json_schema_validate.cpp:388-423 | the same for numbers |
| `Validator.ValidationContext.ValidateValue` | src/foundation/json/json_schema_validate.cpp:425-520 | the same for the whole recursive run, through quiet branches, budget errors and early stops; and the counter moves by at most size of value times size of schema even when the run stops early |
| `Validator.CountCodePoints` | src/foundation/json/json_schema_common.hh:327-335 | the byte loop counts the bytes that do not continue a code point |
| `SchemaValidator.Validate` | src/foundation/json/json_schema_validate.cpp:528-559 | the outcomes for a zero bound, a rejected schema and an over-budget value; otherwise exactly the first maxErrors errors of the full list; with enough node budget, none if and only if the value satisfies the schema, and for documents in a range of integers that neither wrap nor pass as near multiples without being multiples, if and only if it does so under the standard's arithmetic |
| `SchemaValidator.StoppingTruncates` | src/foundation/json/json_schema_validate.cpp:81-104 | of two validations of the same value the one with the smaller bound reports a prefix of the other, all of it unless it stopped, and both give the same verdict, whatever the outcome is |
| `SchemaValidator.VerdictIsMeaning` | src/foundation/json/json_schema_validate.cpp:192-559 | with enough node budget the error list is empty if and only if the value satisfies the schema under the declarative semantics with the library's 64-bit arithmetic |
| `SchemaValidator.VerdictIsStandard` | src/foundation/json/json_schema_validate.cpp:192-559 | the same with mathematical order, equality and divisibility of integers, and equality of objects whatever their member order, for every value and schema in key order whose integers lie in a range up to at most 2^63 - 1 in which the platform's tolerance accepts only multiples |
| `Standard.SameMeaning` | src/foundation/json/json_schema_validate.cpp:388-452 | on such documents satisfaction under the library's arithmetic and under the mathematical one are the same at every depth |
| `Standard.LookupIsPosition` | src/foundation/json/json_schema_validate.cpp:443-452 | on objects in key order, comparing members position by position is comparing them by key |
| `Standard.ConstAcceptsWrapped` | src/foundation/json/json_schema_validate.cpp:443-452 | above 2^63 - 1 they differ: a schema with const -1 is satisfied by 2^64 - 1 |
| `Tolerance.NearOnIntegers` | src/foundation/json/json_schema_validate.cpp:174-190 | in exact arithmetic the tolerance test on integers accepts if and only if the distance to the nearest multiple is at most 2^-57 of the larger of divisor and magnitude |
| `Tolerance.ToleranceHarmlessIff` | src/foundation/json/json_schema_validate.cpp:174-190 | among the integers up to a bound it accepts only multiples if and only if the bound is below 2^57 |
| `Tolerance.SuitsIff` | src/foundation/json/json_schema_validate.cpp:174-190 | so on a platform that computes it exactly, the range of the verdict theorem may be all integers up to a bound if and only if the bound is below 2^57 |
| `Tolerance.ToleranceAcceptsNonMultiple` | src/foundation/json/json_schema_validate.cpp:174-190 | beyond it the meanings differ: multipleOf 2^60 is satisfied by 1 and multipleOf 2 by 2^62 + 1 |
| `Agreement.Agrees` | src/foundation/json/json_schema_validate.cpp:425-520 | the agreement with the declarative semantics at every position of the recursion |
| `Visits.VisitBound` | src/foundation/json/json_schema_validate.cpp:425-520 | from any counter, a run counts at most size of value times size of schema nodes |
| `Visits.VisitsAtMostProduct` | src/foundation/json/json_schema_validate.cpp:106-127 | a whole run counts at most that product, whatever the budgets |
| `Budgets.RunClean` | src/foundation/json/json_schema_validate.cpp:106-127 | where the value fits the depth, no depth error is reported at any position, and where the product fits, no node error |
| `SchemaValidator.ChecksNeverFire` | src/foundation/json/json_schema_validate.cpp:106-127 | after the pre-pass the depth check never fires, and with room for the product the node check never does |
| `Locations.RunLocated` | src/foundation/json/json_schema_validate.cpp:217-520 | every error of a run below an existing place has an existing schema path, and an existing value path or, for a missing member, an existing object that lacks it |
| `SchemaValidator.ReportsAreLocated` | src/foundation/json/json_schema_validate.cpp:528-559 | the same for a whole report |
| `BlobStoreFiles.FileSystemBlobStore.Put` | src/foundation/blob/filesystem_blob_store.cpp:141-273 | with any file operation failing, every intermediate disk is one of the four states of the write protocol; success means committed, failure means the old metadata is in place, refusal changes nothing |
| `BlobStoreFiles.FileSystemBlobStore.WriteFile` | src/foundation/filesystem/atomic_file.cpp:117-165 | an atomic write leaves the target old or new and at worst a temporary file |
| `BlobStoreFiles.FileSystemBlobStore.Remove` | src/foundation/blob/filesystem_blob_store.cpp:773-835 | every intermediate disk is before, without metadata, or without both files |
| `BlobStoreFiles.FileSystemBlobStore.Compact` | src/foundation/blob/filesystem_blob_store.cpp:889-968 | success leaves exactly metadata, foreign files and referenced content; at every moment nothing referenced is gone |
| `BlobStoreFiles.FileSystemBlobStore.Scan` | src/foundation/blob/filesystem_blob_store.cpp:889-968 | in any directory order finds the temporary, content and referenced files, and succeeds only when all metadata is readable |
| `BlobStore.PutCrashSafe` | src/foundation/blob/filesystem_blob_store.cpp:141-273 | in every state of the protocol the key answers with its whole old or whole new blob, the store stays sound and no other key's blob changes |
| `BlobStore.PutSafeIff` | src/foundation/blob/filesystem_blob_store.cpp:224-252 | in the state between content and metadata the key answers with all of the old or all of the new if and only if the new checksum does not collide with current content of other bytes, the metadata is unchanged, or the new metadata is unreadable and the lengths differ |
| `BlobStore.CollisionMixesBlobs` | src/foundation/blob/filesystem_blob_store.cpp:224-252 | with two contents of one checksum the key answers, before the metadata is replaced, with the old metadata and the new content |
| `BlobStore.PutReadBackIff` | src/foundation/blob/filesystem_blob_store.cpp:141-273 | a committed blob is read back if and only if its metadata fits and the clock is not behind the creation time |
| `BlobStore.UnreadableIsStuck` | src/foundation/blob/blob_metadata.cpp:174-247 | otherwise get, put and remove all fail on the key |
| `BlobStore.ClockStepBackLosesBlob` | src/foundation/blob/blob_metadata.cpp:174-247 | two puts with a clock that steps back reach that state |
| `BlobStore.SharedStemAnswer` | src/foundation/blob/filesystem_blob_store.cpp:187-210 | a key sharing the path of a written key changes its answer if and only if the path was free |
| `BlobStore.SharedStemBreaksOther` | src/foundation/blob/filesystem_blob_store.cpp:187-210 | a key is missing in an empty store and fails once a key on the same path is written |
| `BlobStore.RemoveCrashSafe` | src/foundation/blob/filesystem_blob_store.cpp:773-835 | in every state the key answers as before or is missing, and no other key's blob changes |
| `BlobStore.CompactionIsInvisible` | src/foundation/blob/filesystem_blob_store.cpp:889-968 | at every moment of a compaction every key answers as before and the store stays sound |
| `BlobStore.SoundIsScannable` | src/foundation/blob/filesystem_blob_store.cpp:889-968 | a sound store passes the scan if and only if no metadata has become unreadable |
| `MemoryBlobStore.MemoryStore.Put` | src/foundation/blob/memory_blob_store.cpp:20-54 | the map gains the new blob with the old creation time, or is unchanged when refused |
| `MemoryBlobStore.MemoryStore.Remove` | src/foundation/blob/memory_blob_store.cpp:159-167 | the key is gone |
| `MemoryBlobStore.SameRefusals` | src/foundation/blob/filesystem_blob_store.cpp:141-210 | on agreeing stores both refuse the same puts and removes |
| `MemoryBlobStore.StepRefines` | src/foundation/blob/filesystem_blob_store.cpp:141-273 | any put, remove or compaction, interrupted anywhere, is the whole memory operation or none of it, and a finished one is the operation |
| `MemoryBlobStore.CompactIsStep` | src/foundation/blob/filesystem_blob_store.cpp:889-968 | what the compaction method guarantees is such a step |
| `MemoryBlobStore.RunRefines` | src/foundation/blob/filesystem_blob_store.cpp:141-273 | for every run with crashes there is a memory run that agrees with the disk after every event |
| `MemoryBlobStore.NewStoreRefines` | src/foundation/blob/filesystem_blob_store.cpp:141-273 | so does every run from a new store, with a new memory store |
| `MemoryBlobStore.SuccessfulRunAgrees` | src/foundation/blob/memory_blob_store.cpp:20-94 | after a run of finished operations every get equals that of the memory store |
| `MemoryBlobStore.BlobsAreIsolated` | src/foundation/blob/filesystem_blob_store.cpp:187-210 | for every path mapping and every run with crashes the store stays sound and a stored blob is unchanged until an operation on its own key |
| `MemoryBlobStore.CompactionAfterCrashes` | src/foundation/blob/filesystem_blob_store.cpp:889-968 | from every state such a run leaves, a compaction changes no answer |
| `BlobStore.GetIsOwn` | src/foundation/blob/filesystem_blob_store.cpp:444-561 | a found blob is the key's own, with the recorded size and checksum |
| `BlobOrder.PageUnique` | src/foundation/blob/filesystem_blob_store.cpp:653-770 | the first keys of a set in order are uniquely determined |
| `BlobOrder.InsertKeepsPage` | src/foundation/blob/filesystem_blob_store.cpp:732-744 | bounded insertion keeps the first keys of everything seen, whatever the order |
| `BlobOrder.CursorRoundTrip` | src/foundation/blob/blob_store.cpp:57-97 | decoding undoes encoding for every valid key |
| `BlobOrder.FollowingEnumerates` | src/foundation/blob/filesystem_blob_store.cpp:653-770 | following the cursors delivers every wanted key exactly once in increasing order, in at most one page more than there are keys |
| `BlobOrder.FollowingTerminates` | src/foundation/blob/filesystem_blob_store.cpp:653-770 | from every cursor the chain of pages ends |
| `BlobListing.ListFiles` | src/foundation/blob/filesystem_blob_store.cpp:607-770 | for every scan order, fails exactly on refused options, unreadable metadata or too many files, and otherwise returns the page and the cursor |
| `BlobListing.Insert` | src/foundation/blob/filesystem_blob_store.cpp:736-744 | inserts at the lower bound and drops the last candidate when over the bound |
| `BlobListing.ListMemory` | src/foundation/blob/memory_blob_store.cpp:121-157 | returns the page and the cursor, and fails exactly on refused options |
| `BlobListing.CollectPage` | src/foundation/blob/memory_blob_store.cpp:131-147 | the in-order loop collects the page past the cursor |
| `BlobListing.SameListing` | src/foundation/blob/filesystem_blob_store.cpp:607-770 | on agreeing stores both listings return the same items and the same next cursor |
| `Select.NoLostWakeUp` | src/foundation/async/channel_select.hpp:66-128 | in every reachable state a selector blocked under the generation it observed has no ready channel operation, unless the lock holder is still to notify it |
| `Select.NotifiedWakes` | src/foundation/async/bounded_channel.hpp:254-265 | wherever a blocked selector stands in the list of waiters still to be notified, the lock holder's remaining steps reach it and let it wake |
| `Select.OnlyHolderNotifies` | src/foundation/async/bounded_channel.hpp:254-265 | no other step changes that list |
| `Select.AtMostOneCommit` | src/foundation/async/channel_select.hpp:66-128 | a select performs at most one channel operation, none before it ends, and on success only the one it returns |
| `Select.FirstInFirstOut` | src/foundation/async/bounded_channel.hpp:214-244 | in every reachable state what was received and what is queued is what was sent, in order, within the capacity |
| `Select.StepKeeps` | src/foundation/async/channel_select.hpp:66-128 | every step of every thread keeps the protocol's invariant |
| `Channels.BoundedChannel.Push` | src/foundation/async/bounded_channel.hpp:214-228 | closed, full or appended, with every live waiter moved to a later generation |
| `Channels.BoundedChannel.Pop` | src/foundation/async/bounded_channel.hpp:230-244 | the oldest value, drained or empty, with every live waiter notified |
| `Channels.BoundedChannel.Close` | src/foundation/async/bounded_channel.hpp:164-173 | closed for good, contents kept, waiters notified |
| `Channels.BoundedChannel.NotifyWaiters` | src/foundation/async/bounded_channel.hpp:254-265 | notifies the live waiters and erases the expired ones in place |
| `Channels.BoundedChannel.Size` | src/foundation/async/bounded_channel.hpp:183-187 | the queue length is sent minus received and within the capacity |
| `Channels.EveryoneMovesOn` | src/foundation/async/channel_types.hpp:32-39 | after a notification no live waiter is on its old generation |
| `Channels.ShuffleSelectOrder` | src/foundation/async/channel_types.hpp:147-157 | the shuffle permutes the order in place, whatever the random source |
| `Channels.ShuffledIsOrder` | src/foundation/async/channel_select.hpp:80-90 | so every operation is still tried exactly once |
| `Rendezvous.UnbufferedChannel.Offer` | src/foundation/async/unbuffered_channel.hpp:41-52 | the slot is filled, or refused after close |
| `Rendezvous.UnbufferedChannel.Settle` | src/foundation/async/unbuffered_channel.hpp:53-64 | Ok unless the channel is closed with the slot still full |
| `Rendezvous.UnbufferedChannel.Withdraw` | src/foundation/async/unbuffered_channel.hpp:56-63 | the slot is emptied, whoever filled it |
| `Rendezvous.UnbufferedChannel.Take` | src/foundation/async/unbuffered_channel.hpp:263-278 | takes the value and counts it as sent and received |
| `Rendezvous.UnbufferedChannel.Close` | src/foundation/async/unbuffered_channel.hpp:203-216 | closed, slot emptied, a thrown-out value counted as rejected |
| `Rendezvous.DeliveredAtMostOnce` | src/foundation/async/unbuffered_channel.hpp:263-278 | in every run no value is delivered twice and sent equals received equals the deliveries |
| `Rendezvous.OkMeansReceivedIff` | src/foundation/async/unbuffered_channel.hpp:31-65 | a send that returned Ok was received if and only if no close, cancellation or timeout happened while its value was in the slot |
| `Rendezvous.OkMeansReceived` | src/foundation/async/unbuffered_channel.hpp:31-65 | in runs without those, Ok means received |
| `Rendezvous.OnlyOneWaits` | src/foundation/async/unbuffered_channel.hpp:31-65 | in such runs a placed value is in the slot if and only if it has not been received |
| `Rendezvous.CloseLosesValue` | src/foundation/async/unbuffered_channel.hpp:203-216 | a run in which close makes a sender return Ok for a value nobody received |
| `Rendezvous.CancelLosesOtherValue` | src/foundation/async/unbuffered_channel.hpp:56-63 | a run in which one sender's cancellation does that to another |
| `Lifecycle.SweepsExclude` | src/foundation/lifecycle/lifecycle.cpp:162-187 | in every reachable state at most one start and one close sweep have begun and no two threads sweep at once |
| `Lifecycle.ListIsFixed` | src/foundation/lifecycle/lifecycle.cpp:138-160 | no step changes the component list while a sweep runs |
| `Lifecycle.ClosesAgree` | src/foundation/lifecycle/lifecycle.cpp:330-366 | all closes that did not time out return the same status |
| `Lifecycle.CloseStatusIsFinal` | src/foundation/lifecycle/lifecycle.cpp:359-366 | once recorded, the close status never changes |
| `Lifecycle.RollbackOrder` | src/foundation/lifecycle/lifecycle.cpp:189-271 | in every run starts go up to the first failure and, if component i failed, exactly i-1 down to 0 are closed once each |
| `Lifecycle.CloseOrder` | src/foundation/lifecycle/lifecycle.cpp:365-430 | closes go down through what was not closed, the result is the first failure in that order, and continue-on-error leaves none out |
| `Lifecycle.FirstErrorIsFirst` | src/foundation/lifecycle/lifecycle.cpp:12-17 | the combined status is that of the first failing call, or Ok when none failed |
| `Lifecycle.NoneForgotten` | src/foundation/lifecycle/lifecycle.cpp:365-430 | after a continue-on-error close every component was closed by the rollback or had its turn |
| `Lifecycle.NeverClosedAgain` | src/foundation/lifecycle/lifecycle.cpp:365-430 | no component is closed again after one of its closes returned Ok |
| `Lifecycle.StepKeeps` | src/foundation/lifecycle/lifecycle.cpp:138-441 | every step of every thread keeps the manager's invariant |
| `LifecycleRuns.StartIsRun` | src/foundation/lifecycle/lifecycle.cpp:162-271 | what start computes without interference is a run of the machine by one thread, with the same calls, state and status |
| `LifecycleRuns.CloseIsRun` | src/foundation/lifecycle/lifecycle.cpp:330-441 | the same for close |
| `LifecycleManager.Manager.Add` | src/foundation/lifecycle/lifecycle.cpp:138-160 | appends exactly when nothing was started and the name is new |
| `LifecycleManager.Manager.Start` | src/foundation/lifecycle/lifecycle.cpp:162-271 | the calls made, their order and results, the rollback, and the whole final state as the outcome that is shown to be a run of the machine |
| `LifecycleManager.Manager.RollBack` | src/foundation/lifecycle/lifecycle.cpp:214-236 | closes exactly i-1 down to 0 and records each result |
| `LifecycleManager.Manager.Close` | src/foundation/lifecycle/lifecycle.cpp:330-441 | sweeps once, downwards over what is open, returns the first failure, and leaves the outcome that is shown to be a run of the machine; a second close returns the first one's status |
| `Sse.ChunksDoNotMatter` | src/foundation/network/sse_parser.cpp:10-39 | for every input, cutting and callback, feeding the pieces and finishing delivers and fails exactly as the whole input read line by line |
| `Sse.DrainSplits` | src/foundation/network/sse_parser.cpp:10-26 | reading in two goes is reading at once, also when a line end is split |
| `Sse.DrainIsFold` | src/foundation/network/sse_parser.cpp:10-26 | taking lines off the buffer is going through the lines of the text |
| `Sse.BlockMeaning` | src/foundation/network/sse_parser.cpp:41-79 | a block of lines builds the event with joined data, last name and id and last well-formed retry, and delivers nothing |
| `Sse.WholeHandsAnnounced` | src/foundation/network/sse_parser.cpp:10-103 | the events delivered for any input are those its blank-line-separated blocks with data describe, in order, up to the first failing callback |
| `Sse.HandedIsCut` | src/foundation/network/sse_parser.cpp:81-103 | that is the longest prefix in which only the last callback may fail |
| `Sse.ChunksHandAnnounced` | src/foundation/network/sse_parser.cpp:10-39 | the same for the input fed in any pieces |
| `Sse.SseParser.FeedChunk` | src/foundation/network/sse_parser.cpp:10-26 | the loop leaves exactly the specified pending event, deliveries and buffer |
| `Sse.SseParser.FinishAll` | src/foundation/network/sse_parser.cpp:28-39 | an unterminated line and a last event are delivered |
| `Sse.SseParser.ConsumeLine` | src/foundation/network/sse_parser.cpp:41-79 | the effect of one line |
| `Sse.SseParser.Dispatch` | src/foundation/network/sse_parser.cpp:81-103 | an event with data is delivered once, and the pending event is reset first |
| `Ulid.IncrementBigEndian` | src/foundation/id/id_generator.cpp:154-163 | the bytes denote one more, or all were full and are now zero |
| `Ulid.EncodeUlid` | src/foundation/id/id_generator.cpp:174-199 | the 26 characters denote time * 2^80 + random in base 32 |
| `Ulid.TextOrderIsNumeric` | src/foundation/id/id_generator.cpp:174-199 | equally long texts are ordered as strings if and only if their numbers are |
| `Ulid.CrockfordAlphabet` | src/foundation/id/id_generator.cpp:28 | the digit characters are those of the Crockford alphabet |
| `Ulid.UlidOrder` | src/foundation/id/id_generator.cpp:174-199 | ids are ordered as strings if and only if time and random are, lexicographically |
| `Ulid.UlidGenerator.NextUlid` | src/foundation/id/id_generator.cpp:374-399 | the new state and the result for every clock and random source, including their failures |
| `Ulid.RankRises` | src/foundation/id/id_generator.cpp:374-399 | every call that is not an exhaustion keeps or raises the kept position, and an id always raises it |
| `Ulid.IdsIncrease` | src/foundation/id/id_generator.cpp:374-399 | in every run, of two ids with no exhaustion between them the later is greater as a string |
| `Ulid.AfterExhaustionIff` | src/foundation/id/id_generator.cpp:374-399 | in every run from a state, the next id is greater than that state's id if and only if no call before it reported exhaustion or some call read a later usable time |
| `Ulid.ConsecutiveIdsIff` | src/foundation/id/id_generator.cpp:374-399 | in every run, of two ids issued one after the other the later is greater under exactly that condition on the calls between them |
| `Ulid.ExhaustionBreaksOrder` | src/foundation/id/id_generator.cpp:395-398 | a run from a new generator in which order is lost |
| `CacheKeys.HexEncode` | src/foundation/cache/cache_common.cpp:114-121 | the loop writes two digits per byte |
| `CacheKeys.HexInjective` | src/foundation/cache/cache_common.cpp:114-121 | different byte strings have different encodings |
| `CacheKeys.EntryIdInjective` | src/foundation/cache/memory_cache.cpp:131-134 | different keys have different ids |
| `CacheKeys.PrefixMeansNamespace` | src/foundation/cache/memory_cache.cpp:98-114 | an id lies under a namespace's prefix if and only if its key is of that namespace |
| `Recency.RunKeeps` | src/foundation/cache/memory_cache.cpp:18-175 | after every run no id is listed twice, the size is at most the maximum, and whatever precedes an entry was used after it |
| `Recency.EvictedOnlyWhenStale` | src/foundation/cache/memory_cache.cpp:168-175 | in every run an entry that disappears unexpired and unasked had at least maxEntries distinct other keys used since its last use |
| `Recency.GetAfterPut` | src/foundation/cache/memory_cache.cpp:18-73 | after any run that follows a put, a get returns the value put, unless the key was put again or discarded, the item expired, or at some moment at least maxEntries other keys had been used since the key was |
| `Recency.HitIsLastPut` | src/foundation/cache/memory_cache.cpp:18-38 | after every run a get that hits returns the unexpired value of the last put of its key |
| `MemoryCache.Cache.Get` | src/foundation/cache/memory_cache.cpp:18-38 | expired entries go, a hit moves to the front and returns its value |
| `MemoryCache.Cache.Put` | src/foundation/cache/memory_cache.cpp:40-73 | refused, or stored in front of the recency sequence, which is then cut to the maximum |
| `MemoryCache.Cache.Remove` | src/foundation/cache/memory_cache.cpp:75-88 | the entry is gone and the order of the others kept |
| `MemoryCache.Cache.ClearNamespace` | src/foundation/cache/memory_cache.cpp:98-114 | exactly the ids under the prefix are gone |
| `MemoryCache.Cache.EvictExpired` | src/foundation/cache/memory_cache.cpp:156-166 | in any order of the map, exactly the expired entries go from map and list |
| `MemoryCache.Cache.EvictOverflow` | src/foundation/cache/memory_cache.cpp:168-175 | the least recently used go until the maximum is met |
| `MemoryCache.Cache.Compact` | src/foundation/cache/memory_cache.cpp:116-122 | expired entries go, then overflow |
| `MemoryCache.ClearsExactlyNamespace` | src/foundation/cache/memory_cache.cpp:98-114 | an entry survives a namespace clear if and only if its key is of another namespace |

## Left out

- IEEE rounding, the floating-point `multipleOf` tolerance and `std::regex`: they are parameters of the platform, so the verdict theorem asks of the tolerance that it accepts only multiples among the integers of the documents; `Tolerance` works out when that is so in exact arithmetic, without the rounding of the quotient.
- `SchemaValidator.VerdictIsStandard`: stated for integers that neither wrap nor pass by the tolerance alone, because it is false otherwise; the exact conditions are `Json.CompareExact`, `Json.EqualExact`, `Json.MultipleOfExact` and `Tolerance.SuitsIff`.
- Member order: an object is its members in iteration order.  `Semantics.SameValue` ignores the order, and the verdict theorem asks for key order, in which a `std::map` iterates.
- Error message texts, and the schema path in a compilation error: a compilation is only accepted or rejected.
- `Validator.ValidationContext.AddValidationError`: leaves out the branch for a zero error bound, which `validate` never reaches.
- `Select.NoLostWakeUp`: the 64-bit generation counter is an unbounded number, so a wrap-around between two looks is not modelled; timers and cancellation operations may fire, and notify the waiter, at any time and carry no wake-up claim of their own.
- `Channels.ShuffleSelectOrder`: the rejection loop that draws an index below the bound is a parameter, so uniformity is not stated.
- `BlobStoreFiles.FileSystemBlobStore.WriteFile`: a failed atomic write leaves the target unchanged; a directory sync that fails after the rename is not modelled.
- `BlobStoreFiles.FileSystemBlobStore.Put`: the store marker, the lock file, symbolic links and path canonicalisation are left out; a key's path is a parameter that need not be injective.
- Times are whole milliseconds, the resolution the metadata file keeps; the memory store keeps finer ones.
- `putFile` staging, streaming reads, `stat`, and both stores' `clearNamespace` (the filesystem one removes a directory subtree, the memory one the exact namespace).
- Blocking sends and receives on the bounded channel, their timeouts and their liveness.
- `Rendezvous.OkMeansReceived`: stated for runs without close, cancellation and timed sends, because it is false otherwise; the exact condition is `Rendezvous.OkMeansReceivedIff`.
- The lifecycle manager's timing arithmetic: a deadline may pass at any moment.  `waitIdle` only reads and is a step that changes nothing.
- `LifecycleManager.Manager.Start`: the sweep of one thread without interference; `LifecycleRuns.StartIsRun` makes it a run of the machine, and interleavings are in `Lifecycle`.
- `Ulid.IdsIncrease`: stated between exhaustion errors, because order is lost after one; the exact condition for ids issued one after the other is `Ulid.ConsecutiveIdsIff`.
- `MemoryCache.Cache.Get`: the second expiry test in `get` is left out because the eviction before it makes it unreachable.
- `MemoryCache.Cache.Discard`: the stored list iterator is modelled as erasing the id, which occurs once.
- Full conformance with section 9.2.6 of the WHATWG HTML standard: the id is reset with each event and an unterminated last event is delivered, as the code does.
- The graph runtime, HTTP client and transport, OpenSSL, zlib, logging, metrics, configuration, executors, the disk cache, examples and fuzz drivers.
