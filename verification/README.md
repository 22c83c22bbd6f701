# TailProduce in Dafny

TailProduce keeps append-only, ordered streams in a sorted key-value store. A publisher appends
entries under growing (primary, secondary) order keys and records the last key in a HEAD record;
listeners tail a stream, from any key and optionally up to another, while it grows; a small class
makes the destructor of an object wait for the threads that still use it.

The project models these parts and proves what holds in every run of them.

- `Lex.dfy`: byte strings in the storages' key order, and ascending listings of sets of keys.
- `FixedSizeSerializer.dfy`, `OrderKeys.dfy`: zero-padded decimal packing, key layout, key ranges.
- `Storage.dfy`: what a storage and its iterators do, and the classes of both storages: LevelDB, whose
  iterators walk the store as it was when they were made, and the in-memory map, whose iterators walk
  the map as it is now. LevelDB itself is taken to be a sorted map with snapshot iterators.
- `Publisher.dfy`: the head, `Stream`, and the publisher class.
- `Listener.dfy`: the cursor machine of a listener, its invariant, and the listener class.
- `System.dfy`: any number of streams and listeners over one store as a state machine. A push is three
  steps (HEAD to storage, head to memory, entry to storage), so a crash between two writes, and the
  exceptions of the serializer and of the storage, are states of it. A push holds its stream's lock
  from the first step to the last; listener calls need that lock.
- `Theorems.dfy`: what every run of that machine guarantees, over either storage.
- `Answers.dfy`: when `HasData` answers false although an entry is stored, over either storage.
- `Projection.dfy`: streams in one store do not interfere.
- `AsyncListener.dfy`: the worker thread of an asynchronous listener, step by step among all others.
- `Fidelity.dfy`: from the arguments of the pushes of a run to what processors are called with.
- `StreamManager.dfy`: creating streams, opening them, and starting the machine from a store.
- `ClientThreadsRespecter.dfy`: the reference count, flag and mutex protocol over the atomic steps of
  any number of threads.

Classes have the fields and methods of the originals. Each method is proved equal to a specification
function of the old state, and the theorems are about those functions and about sequences of them. An
exception is the `Threw` case of a result. A `std::mutex` held for the whole of a method is not a
field of the class: the machine in `System.dfy` decides which methods may interleave. `delivered`,
`log`, `begin`, `handed`, `locks` and `unlocks` are history that no step reads.

Assumptions that appear as preconditions:

- The secondary key does not wrap. The code adds 1 with no check, and the model wraps it as the type
  does; `Publisher.PushRaisesHead` says that a push moves the head up exactly when it does not wrap,
  and `Publisher.WrappingPushFallsBack` what a push that wraps does. Runs of the machine do not wrap.
- The delimiter occurs in no prefix and no stream name, and the two prefixes differ
  (`OrderKeys.ValidConfig`, `OrderKeys.ValidName`). `OrderKeys.RangesMeet` says exactly when two data
  ranges overlap without that.
- Data found at start-up consists of the stream's own keys, at or below HEAD
  (`StreamManager.SoundAtStart`); afterwards only the publisher writes to the stream's range.
- A thread registers with the respecter while it holds a client, or is the owner before it destroys
  the instance. `ClientThreads.RegistrationNeedsAClient` says that another registration can be left
  waiting for ever exactly when it starts without a client before the destructor does.

`HasData` can answer false although an entry is stored. `Answers.HasDataOverRuns` says exactly when, over
any run: the latest call on the listener was an `AdvanceToNextEntry` that passed the last entry its
iterator could see. In memory that is the last entry stored at that call
(`Answers.FirstAnswerAfterPushIsWrong`); a LevelDB iterator also misses what was pushed between the call
that made it and the advance (`Answers.PushUnderTheIteratorIsMissed`). `WaitUntilCurrent` can
return before an entry pushed earlier was processed; `AsyncListener.OneCycleSuffices` and
`AsyncListener.OneCycleFails` say exactly when the single cycle it waits for is enough, and
`AsyncListener.TwoCyclesSuffice` that two always are. A wait that begins after the thread was asked to
stop need not end: `AsyncListener.StopsWhenAsked` says how often the counter still advances.

The comment of `RunClientCode` says that it returns false without running the code
(`src/client_threads_respecter.h:26`). The code also returns false when the client code ran and threw that
exception itself; `ClientThreads.ClientThreadsRespecter.RunClientCode` states what the code does.

## Model

| member | source | states |
|---|---|---|
| FixedSizeSerializer.UnpackFromString | src/fixed_size_serializer.h:26-31 | what is read is the largest value of the type that is not above the number in the text |
| FixedSizeSerializer.PackRoundTrip | src/fixed_size_serializer.h:20-31 | packed text of every value is all digits, has exactly the fixed length and reads back as that value |
| FixedSizeSerializer.PackOrder | src/fixed_size_serializer.h:20-25 | packed texts compare byte by byte exactly as the numbers do, and are equal only for equal numbers |
| FixedSizeSerializer.MaxFits | src/fixed_size_serializer.h:20-20 | the fixed width of digits10 + 1 digits holds every 16, 32 and 64 bit value, and no smaller width does |
| FixedSizeSerializer.MaxIsAllOnes | src/fixed_size_serializer.h:20-20 | the values of the three types are those below two to the power of their bits |
| FixedSizeSerializer.UnpackRoundTrip | src/fixed_size_serializer.h:21-31 | packing what was read from digits of the fixed length gives them back if and only if their number is a value of the type |
| OrderKeys.DecomposeStorageKey | src/order_key.h:53-77 | throws the malformed-key exception exactly for a wrong length, and otherwise gives a key of the stream's types |
| OrderKeys.ComposeRoundTrip | src/order_key.h:46-77 | every composed key has the one expected length and the stream's prefix, and decomposes to the key composed |
| OrderKeys.DecomposeRoundTrip | src/order_key.h:46-77 | composing the decomposition of a key of digits gives the key back if and only if it has the stream's prefix and both numbers are values of their types |
| OrderKeys.ComposeOrder | src/order_key.h:46-51 | composed keys compare lexicographically exactly as the (primary, secondary) pairs, and composition is injective |
| OrderKeys.KnownKeys | test/cpp/stream_managers.cc:190-226 | for a stream named test, the HEAD key, the end key and the storage keys of given order keys are the texts that the tests spell out |
| OrderKeys.RangeIsPrefix | src/config_values.h:28-36 | a string lies between the data prefix and the end data key if and only if it begins with the data prefix |
| OrderKeys.RangesMeet | src/config_values.h:28-36 | two streams share a data range if and only if one delimited name is a prefix of the other |
| OrderKeys.StreamsAreIsolated | src/config_values.h:23-36 | no HEAD key lies in a data range, and streams of different names have different HEAD keys and disjoint data ranges |
| Storage.SetThenGet | src/storage_leveldb.cc:18-71 | a write succeeds exactly for a non-empty key and value and, without overwriting, an absent key; it is read back, changes no other key and keeps empty values out |
| Storage.GetHasSetAgree | src/storage_leveldb.cc:18-71 | which exception each of Get, Has and Set throws, told by the others; key, value and presence are checked in that order |
| Storage.IteratorListsRange | src/storage_leveldb.cc:78-114 | an iterator from start to end visits exactly the stored keys of that half-open range in ascending order, for both kinds of iterator |
| Storage.IteratorEnds | src/storage_leveldb.cc:87-94 | after n calls of Next an iterator over the range stands on its n-th key, is done after the last, and throws out of bounds on the call after that, for both kinds |
| Storage.StorageLevelDB.InternalSet | src/storage_leveldb.cc:47-71 | checks key, value and presence in that order; writes, or throws and leaves the store as it was |
| Storage.StorageLevelDB.Get | src/storage_leveldb.cc:18-34 | the stored value, or the exception for an empty key or for no data |
| Storage.StorageLevelDB.Has | src/storage_leveldb.cc:36-45 | whether the key is stored, or the exception for an empty key |
| Storage.StorageLevelDB.CreateStorageIterator | src/storage_leveldb.h:60-63 | a new iterator that stands on the first key at or after the start |
| Storage.LevelDBIterator.Next | src/storage_leveldb.cc:87-94 | moves to the next key of the snapshot whatever the store holds now, or throws when done |
| Storage.InMemoryTestStorage.Set | test/cpp/helpers/storage_inmemory.h:34-58 | does what LevelDB's set does, although it tests an empty placeholder instead of presence, because no empty value is ever stored |
| Storage.InMemoryTestStorage.Get | test/cpp/helpers/storage_inmemory.h:74-90 | the stored value, or the exception for an empty key or for no data |
| Storage.InMemoryTestStorage.Has | test/cpp/helpers/storage_inmemory.h:64-72 | whether the key is stored, or the exception for an empty key |
| Storage.InMemoryTestStorage.CreateStorageIterator | test/cpp/helpers/storage_inmemory.h:139-142 | a new iterator at the lower bound of its start, bound to this map |
| Storage.InMemoryIterator.Next | test/cpp/helpers/storage_inmemory.h:108-115 | moves to the next key of the map as it is now, or throws when done |
| Publisher.PushRaisesHead | src/publishers.h:45-60 | a primary key is refused exactly when it is below the head's; an accepted one gives a head of the stream's types that is strictly above if and only if the secondary key does not wrap |
| Publisher.PushTakesTheNextKey | src/publishers.h:45-60 | an accepted push takes the least key of the stream's types that has its primary key and is above the head, and wraps if and only if there is none |
| Publisher.WrappingPushFallsBack | src/publishers.h:34-60 | for every stream whose head has the largest secondary key: a push at the same primary moves the head down to (primary, 0), and its entry is refused as an overwrite if and only if it has a value and that key is stored; otherwise it lands below the old head |
| Publisher.OpenExact | src/stream.h:51-62 | a stream opens if and only if its HEAD record is stored with the length of its keys, at the key composed into it; it does not exist exactly without a record, and is malformed exactly for another length |
| Publisher.Stream.Open | src/stream.h:45-63 | opens at the head decomposed from the HEAD record, or throws: no such stream without a record, malformed for a record of a wrong length |
| Publisher.UnsafePublisher.PushHeadUnguarded | src/publishers.h:45-60 | HEAD record and head move together to the next key, or nothing changes and the backwards exception is thrown |
| Publisher.UnsafePublisher.PushHead | src/publishers.h:61-64 | the same, as a locked call |
| Publisher.UnsafePublisher.Push | src/publishers.h:34-43 | moves HEAD, then stores the entry under the new key, or throws at any of the points where the original can |
| Listener.NewListenerInv | src/listeners.h:29-65 | a new listener, bounded or not, satisfies the listener invariant over any store |
| Listener.RangeIsTheCallers | src/listeners.h:29-65 | a new listener is to deliver exactly the entries stored under order keys at or above the begin and, if there is an end, below it |
| Listener.SeekFinds | src/listeners.h:88-90 | an iterator made over either storage stands on the first entry at or after its start, or is done exactly when there is none |
| Listener.NextFinds | src/listeners.h:91-93 | moving an iterator over either storage, after any later pushes, reaches the next stored entry of the stream or is done |
| Listener.StoreGrows | src/listeners.h:83-113 | writes above every entry of the stream or outside its range keep the listener invariant and what was delivered, and after the end was reached leave nothing to deliver |
| Listener.HasDataExact | src/listeners.h:83-113 | the answer is true if and only if an undelivered entry is stored and the iterator is not one that already ran off its end; true leaves the iterator on the smallest such entry, false leaves no iterator |
| Listener.ReachedEndExact | src/listeners.h:102-125 | ReachedEnd answers true if and only if nothing is left to deliver, something at or past the end is stored, and the iterator is not one that already ran off its end |
| Listener.ProcessExact | src/listeners.h:128-159 | hands over the smallest undelivered entry with its key and payload as stored and advances nothing; throws, or returns if data was not required, when HasData answers false |
| Listener.AdvanceExact | src/listeners.h:163-176 | delivers exactly the smallest undelivered entry, or throws that there is none to advance to exactly when HasData would answer false |
| Listener.StaleAfterAdvance | src/listeners.h:163-176 | only a successful advance leaves an iterator that ran off its end, and does so if and only if the iterator sees no entry above the one passed |
| Listener.DeliveredThenUndelivered | src/listeners.h:83-176 | delivered keys followed by the undelivered stored ones are the ascending sequence of all stored keys of [begin, end) |
| Listener.UnsafeListener.constructor | src/listeners.h:29-65 | starts at the composed begin key with no iterator and nothing delivered |
| Listener.UnsafeListener.HasData | src/listeners.h:83-117 | does the specified step over the real iterators of either storage |
| Listener.UnsafeListener.ReachedEnd | src/listeners.h:122-125 | runs HasData and returns the flag |
| Listener.UnsafeListener.ProcessEntrySync | src/listeners.h:128-159 | does the specified step and keeps the decomposed key |
| Listener.UnsafeListener.AdvanceToNextEntry | src/listeners.h:163-176 | does the specified step and moves the iterator in place |
| System.BeginPushKeeps | src/publishers.h:45-58 | storing HEAD, alone, keeps the system invariant |
| System.MoveHeadKeeps | src/publishers.h:59-59 | moving the head in memory, alone, keeps the system invariant |
| System.EntryKeyIsNew | src/publishers.h:38-42 | the key of an entry about to be stored is above every stored entry of its stream, so Set throws only for an empty payload and never for an overwrite |
| System.FinishPushKeeps | src/publishers.h:39-42 | storing the entry, or an exception in its place, keeps the system invariant |
| System.StoreRecoversHead | src/stream.h:51-58 | at every step of every push the store alone gives back the head, exactly when no push is under way, and never one below the head or a stored entry |
| System.CrashKeeps | src/stream.h:45-63 | every stream reopens after a stop at any point, and the invariant holds again |
| System.StepKeeps | src/publishers.h:34-64 | every step of a push, a listener call or a crash keeps the system invariant |
| System.RunKeeps | src/listeners.h:83-176 | every state reached by any interleaving of pushes, listener calls and crashes satisfies the system invariant |
| Theorems.DeliversTheLog | src/listeners.h:83-176 | what a listener delivered followed by what is stored ahead of it is the log, in push order, restricted to its range |
| Theorems.TailsTheLog | src/listeners.h:83-176 | the same in every reachable state: no skip, no repeat, later pushes included |
| Theorems.TailsTheRangeAskedFor | src/listeners.h:29-176 | from the call that makes a listener on, until a crash: delivered followed by ahead are the entries of the log whose order keys are in the [begin, end) of that call, in push order |
| Theorems.StoragesDeliverTheSame | test/cpp/helpers/storage_inmemory.h:92-135 | over the same log, listeners over different storages have delivered prefixes of one sequence, and the same one when both have caught up |
| Theorems.StepMovesUp | src/publishers.h:45-60 | no step, a crash included, lowers the stored head or the head, or takes anything out of the log |
| Theorems.HeadAndLogOnlyGrow | src/publishers.h:45-60 | the same over whole runs |
| Theorems.PushOutcome | src/publishers.h:34-60 | which exception a push throws, if any, from its arguments and the head: it changes something if and only if its primary key is not below the head's, and adds its entry, under a new key, if and only if it returns |
| Theorems.PushIsItsSteps | src/publishers.h:34-43 | the steps of an accepted push add up to Push: the head moves strictly up, the log gains the entry exactly when Push returns, and no overwrite exception is thrown |
| Theorems.PushHeadIsItsSteps | src/publishers.h:61-64 | the steps of an accepted PushHead add up to it: the head moves strictly up and no entry is added |
| Theorems.CrashAnywhereIsSafe | src/publishers.h:34-60 | stopping after any write of any run and reopening gives a head at or above every stored entry, equal to the lost one unless a push had stored its HEAD only |
| Theorems.NextKeyIsAboveAll | src/publishers.h:45-60 | in every reachable state the next accepted key is above every stored entry |
| Theorems.StepAroundListener | src/listeners.h:178-187 | a step that does not call a listener changes none of its fields |
| Answers.HasDataOverRuns | src/listeners.h:83-113 | over every run and either storage: HasData answers false with an entry undelivered if and only if the latest call on the listener advanced past the last entry its iterator could see, which is the last stored when the iterator was made (LevelDB) or at that call (in memory) |
| Answers.ReachedEndOverRuns | src/listeners.h:122-125 | over every run and either storage: ReachedEnd answers true if and only if nothing is left to deliver and an entry at or past the end is stored, but for the calls after which HasData is wrong |
| Answers.FalseThenExact | src/listeners.h:95-99 | after HasData answered false, its next answer is exact, whatever happened in between |
| Answers.PassedTheLast | src/listeners.h:173-175 | advancing past the only entry ahead leaves an iterator that is done |
| Answers.FirstAnswerAfterPushIsWrong | src/listeners.h:88-99 | over either storage, a push after the advance past the last entry is missed by the next HasData and seen by the one after |
| Answers.PushUnderTheIteratorIsMissed | src/storage_leveldb.cc:78-85 | a push between the call that made the iterator and the advance is missed by the next HasData over LevelDB and only there, and seen by the one after |
| Theorems.ReachedEndIsFinal | src/listeners.h:102-106 | once the end was reached, no continuation of the run, crashes included, stores another entry of the range, and all it has were delivered |
| Theorems.ReachedEndStays | src/listeners.h:84-87 | the flag stays set and the listener unchanged until its process crashes |
| Theorems.NewEntriesAreAbove | src/publishers.h:45-60 | whatever a run stores in a stream, through crashes too, lies above everything stored in it before |
| Theorems.AdvancePassesWhatWasProcessed | src/listeners.h:128-176 | advancing passes exactly the entry processed before, whatever was pushed or called in between |
| Theorems.OtherStreamsDoNotMatter | src/config_values.h:22-36 | a run on other streams leaves a stream's head, lock, log, listeners, HEAD record and entries unchanged |
| Projection.OwnStepsDecide | src/config_values.h:22-36 | leaving the steps of all other streams out of any run, crashes included, leaves a stream's head, lock, log, stored keys, deliveries and next answers as they are |
| Theorems.EntriesAreKept | src/storage_leveldb.cc:60-67 | no run removes or changes a stored entry |
| Fidelity.LogIsWhatWasPushed | src/publishers.h:34-43 | over every run, the log grows by exactly the primary keys and payloads of the pushes that returned, in that order, whatever steps fall between those of a push |
| Fidelity.HandsOverTheLog | src/listeners.h:128-159 | a listener from the start has advanced past the first entries of the log, and the pair its ProcessEntrySync hands over is the next one |
| Fidelity.EntriesArriveAsPushed | src/listeners.h:146-158 | given a serializer that restores entries, and the entries a run's callers pushed: a listener from the start passes and hands over those entries, in that order, with their primary keys |
| Fidelity.HandedIsTheLog | src/listeners.h:215-231 | what an asynchronous listener's processor has been called with is a prefix of the log |
| Fidelity.ProcessorGetsWhatWasPushed | src/listeners.h:215-249 | its processor is called with the pushed entries themselves, each once, in push order, and after two cycles with all that were stored |
| AsyncListener.LastHasDataMeansDrained | src/listeners.h:218-225 | when the loop test ends a pass, everything stored at that moment has been delivered |
| AsyncListener.TickKeeps | src/listeners.h:215-231 | every step of the thread keeps the handed pairs equal to the delivered entries, plus the current one between processing and advancing |
| AsyncListener.RunsKeep | src/listeners.h:215-231 | the same over any interleaving with everything else |
| AsyncListener.EventKeepsDrained | src/listeners.h:218-229 | no step undoes that a set of entries is delivered once the counter passes a value |
| AsyncListener.TwoCyclesSuffice | src/listeners.h:234-249 | everything stored when the counter is read has been processed once it has advanced by two and the thread was not asked to stop |
| AsyncListener.OneCycleSuffices | src/listeners.h:234-249 | one advance is enough unless the counter is read between the last HasData of a pass and its increment with something missing |
| AsyncListener.OneCycleFails | src/listeners.h:226-249 | and in exactly that case it is not |
| AsyncListener.WaitForOneCycleCanMiss | src/listeners.h:234-249 | a run in which an entry pushed before the counter was read is not processed when it has advanced once |
| AsyncListener.ThreadIsNeverStuck | src/listeners.h:215-231 | the thread can take its next step unless it has exited or a push holds the lock, and then the push can |
| AsyncListener.EveryStepIsPaidFor | src/listeners.h:218-229 | over any interleaving, the thread's steps are bounded by what was left of its pass, five for each entry stored since and seven for each cycle counted |
| AsyncListener.HandedInTime | src/listeners.h:234-249 | so a wait for the counter ends, and all stored entries are handed over, after a bounded number of the thread's steps |
| AsyncListener.StopsWhenAsked | src/listeners.h:206-229 | once asked to stop, the thread exits within seven steps of its own, over any interleaving, hands over at most one more entry and completes the cycle it is in |
| AsyncListener.ExitsOnlyWhenAsked | src/listeners.h:218-219 | the thread never exits otherwise |
| AsyncListener.NewWorkerInv | src/listeners.h:215-216 | a thread that has just made its listener satisfies the invariant |
| AsyncListener.MoreToProcess | src/listeners.h:219-219 | the loop test answers exactly whether an undelivered entry is stored |
| AsyncListener.ProcessAndAdvance | src/listeners.h:220-224 | the loop body hands over the smallest undelivered entry and advances past it |
| AsyncListener.OnePass | src/listeners.h:219-225 | the inner loop, undisturbed, hands over every undelivered entry once, in order, and leaves none |
| StreamManager.StreamManagerParams.CreateStream | src/stream_manager_params.h:61-76 | lists the stream, or throws and keeps the listing if the name is listed |
| StreamManager.StreamManagerParams.Apply | src/stream_manager_params.h:78-93 | writes the HEAD records in name order up to the first refused one |
| StreamManager.ApplyExact | src/stream_manager_params.h:78-93 | succeeds exactly when no requested stream exists; otherwise throws, having created just those before the first that does; adds exactly the requested records of those it created |
| StreamManager.OnlyCreatedStreamsExist | src/stream.h:59-62 | after Apply a stream has a HEAD record if and only if it had one or was created, and any other stream cannot be opened because it does not exist |
| StreamManager.ApplyChangesNothingOld | src/stream_manager_params.h:78-93 | successful or not, it changes no existing record or entry |
| StreamManager.CreatedStreamsOpenAtTheirStart | src/stream.h:51-58 | every created stream opens at the key that was requested |
| StreamManager.CreatedStreamsAreSound | src/stream_manager_params.h:36-50 | streams created where no entries of theirs are stored meet the start-up assumption |
| StreamManager.StartsSound | src/stream.h:45-63 | opening streams from any sound store starts the system in a state that satisfies its invariant |
| ClientThreads.StepKeeps | src/client_threads_respecter.h:43-91 | every atomic step of every thread keeps the protocol invariant |
| ClientThreads.RunKeeps | src/client_threads_respecter.h:43-91 | every state any run reaches satisfies it |
| ClientThreads.IncrementKeeps | src/client_threads_respecter.h:87-89 | a registration after construction never finds a count of zero |
| ClientThreads.MoveHandsOver | src/client_threads_respecter.h:63-70 | a move gives one client to its new thread, which may then release it; the old thread holds a client only if it had another; nothing else changes |
| ClientThreads.TeardownIsSafe | src/client_threads_respecter.h:46-55 | when the destructor's lock succeeds no client is left, no thread is inside a registration or release, and no step of the protocol can happen again |
| ClientThreads.LockDiscipline | src/client_threads_respecter.h:72-90 | the count is the number of clients, only the base client ever locked the mutex, and exactly one decrement reaches zero and unlocks |
| ClientThreads.StepAfterFlag | src/client_threads_respecter.h:46-90 | with the flag set a registration is refused unchanged, moves keep the count, late registrations use up those past the check, and every other step lowers a measure |
| ClientThreads.WaitIsBounded | src/client_threads_respecter.h:46-90 | from the flag on, successful registrations are at most those past the check, and the steps that make headway are bounded |
| ClientThreads.NoDeadlock | src/client_threads_respecter.h:46-55 | a step that makes headway can be taken until the destructor ends, if and only if the owner does not wait for a client of its own thread; with the last client gone and the mutex unlocked the lock succeeds |
| ClientThreads.RegistrationNeedsAClient | src/client_threads_respecter.h:80-90 | in every state, a thread that starts to register can outlive the instance and wait for ever if and only if it holds no client and the destructor has not started |
| ClientThreads.ClientThreadsRespecter.constructor | src/client_threads_respecter.h:43-44 | leaves a count of one and a locked mutex, held by the base client |
| ClientThreads.ClientThreadsRespecter.RegisterScopedClient | src/client_threads_respecter.h:30-32 | undisturbed: refused during teardown, otherwise one more client and count, without the mutex |
| ClientThreads.ClientThreadsRespecter.RunClientCode | src/client_threads_respecter.h:34-41 | undisturbed: leaves the instance as it was; false if and only if the registration was refused or the code threw the same exception; true if and only if the code ran and returned |
| ClientThreads.ClientThreadsRespecter.DestroyClient | src/client_threads_respecter.h:72-76 | undisturbed: one client and count less, and the last one unlocks |

## Left out

- Listener.UnsafeListener.HasData: the lock is not a field; that calls exclude each other is the step structure of the machine.
- AsyncListener.OnePass: states one pass of the inner loop without interference and without a request to stop; the machine in the same file covers both.
- Listener.UnsafeListener.ProcessEntrySync: returns the pair given to the deserializer; deserializing and the processor are a function in `Fidelity.dfy`, and an exception of theirs is not modelled.
- ClientThreads.ClientThreadsRespecter.RegisterScopedClient: one registration that no other thread interleaves with; the interleaved ones are steps of the machine in the same file.
- ClientThreads.ClientThreadsRespecter.RunClientCode: the same, and the client code does not register clients of its own.
- ClientThreads.ClientThreadsRespecter.DestroyClient: one release that no other thread interleaves with; the interleaved ones are steps of the machine.
- Storage.LevelDBIterator.Next: LevelDB is taken as a sorted map with snapshot iterators; I/O status errors, its files and the unused delete are not modelled.
- OrderKeys.DecomposeStorageKey: text that is not digits is excluded by its precondition; the stream extraction of such text is not modelled.
- The listener's internal-error exceptions (`src/listeners.h:141-144`, `169-172`): they cannot occur, because
  a true `HasData` leaves an iterator (`Listener.HasDataExact`).
- Serialization of entries (`src/serialize.h`, `src/dispatcher.h`): a pair of functions with a round-trip assumption; an exception while serializing is a case, one while deserializing is not.
- `src/byte_order.h` and the arithmetic case of `src/bytes.h`: storage keys do not use them. Converting a key to a value and back is the identity on bytes.
- Publisher constructors and `PushHead` overloads that take a full order key: they pass it where a primary key is expected.
- `SubscriptionsManager` and `Poke`: `Poke` has an empty body.
- A HEAD moved past the end by `PushHead` does not make `ReachedEnd` true: the source marks it as not implemented.
- The width of the cycle counter and its comparison with an `int` in `WaitUntilCurrent`; sleeping and real time.
- Moving a client whose parent is already null throws and changes nothing; it is not a step of the machine. The wrap-around of the reference count is not modelled; it stays at the number of clients.
- TCP server, HTTP handler, exporters, flags and logging.
- `EnsureThereAreNoStreamsWithoutPublishers`: a set difference taken before any stream member exists.
