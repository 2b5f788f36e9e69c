# The state channel of libpsmsgr, verified

A Dafny model of the state channel: a latest-value register in a shared memory file with one
writer and any number of readers, none of which blocks another. It covers the seqlock slot ring,
the election of the writer, the replacement and deletion of the data file, the futex wait loop,
and the Go and Python readers on top of the C handle. `dafny verify dfyconfig.toml` checks
everything.

## What is proved

Over every run (`System.Run`) of any number of processes that open, publish, close, crash,
recreate and unlink, with any number of readers loading one word or one byte at a time in between:

- every OK is one publish, whole, the latest of its file during the call, and it was the latest of
  the whole channel at a moment of the call exactly if its file had not been overtaken before the
  call (`Linearizable`); only an orphan can be, a file that was taken off the path by a process that
  died or failed before it set the RETIRED bit, and `StaleRead` is such a run;
- the same in terms of the channel alone, from any state in which the reader was at rest through any
  continuation (`ReadsAreFresh`);
- a reader never goes back in the channel's publishes or their timestamps, through every reattach
  (`MonotonicReads`); BUSY takes 64 turns of the ring (`BusyBound`);
- every store into a data file is made by the one process that holds the verified lock
  (`WriterExclusion`, `StoresByHolder`), so the single-writer ring argument applies to the system;
- what `latest` names is always the last publish, at most one slot is odd, and a crash at any
  store loses nothing (`ChannelInvariant`, `CrashAtomic`);
- nothing is read from a file retired before the call (`RetireFollowed`), a waiter sleeps through
  a change only while its wake-up is still owed (`NoLostWakeup`), and generations form one chain.

From every state such a run can reach, one party going on alone:

- an open creates, reuses, replaces or refuses as the fields of the file on the path decide, and leaves
  exactly the state that goes with it (`OpensChannel`, `DecidesByFields`); an unlink leaves both paths
  empty and the file retired (`UnlinksChannel`, `UnlinkEmpties`);
- a publish makes its value the last one and wakes every sleeper (`PublishAlone`), who then returns
  exactly that value (`PublishReachesSleeper`);
- a reader follows to the file on the path within three loads (`FollowsPath`), every read and peek
  returns the last value of the file it ends up in, and a wait returns it or sleeps exactly as its
  generation is new or not (`CallEnds`, `SleeperLeaves`).

Beside that: the writer as a class over the mapped bytes and the read loop as a method, both
refining the ring; reuse of a file with arbitrary contents stabilises by itself; the bit
expressions of the layout mean what the arithmetic says; an attach is reported exactly once
through the bindings; a native handle is closed exactly once; waits never time out early; and
cleaning up one channel never touches another.

## How it is built

| module | holds |
|---|---|
| `Api`, `Bits`, `Bytes` | result codes, bit operations on naturals, little-endian words |
| `Layout`, `LayoutBits` | `src/layout.h` as arithmetic and as the bit expressions of the source |
| `Ring`, `RingInvariant`, `RingWriter` | one data file, its writer or retirer store by store, what each store keeps |
| `RingReader`, `RingReading`, `RingQuiet` | a reader load by load, what it knows between loads, reads with nobody storing |
| `Reuse` | taking over a file with arbitrary contents |
| `MappedBytes`, `MappedWriter`, `MappedReader` | the handle over an `array<byte>`, and `read_latest` with others running between its loads |
| `System`, `SystemInvariant`, `SystemLock`, `SystemFiles`, `SystemReaders`, `SystemSafety` | processes, paths, locks, files and readers; the invariant; its proof |
| `SystemChannel`, `SystemClock`, `SystemFresh` | the order of all publishes of the channel, and of their timestamps; what a call goes by against the state its reader was last at rest in |
| `SystemQuiet`, `SystemReading`, `SystemPublishing` | one process, reader or writer going on alone from any reachable state |
| `SystemTheorems`, `SystemCalls`, `SystemOrphan` | the results; the run in which an orphan is overtaken |
| `Handle`, `Bindings`, `GoReader`, `PythonReader`, `Closing` | the C reader handle and the bindings on it |
| `Names` | channel names and the files they stand for |

A data file carries its own history in the model: the publishes (`log`), the commits of each slot,
the increments of `notify`. The system carries the publishes to all files in order (`pubs`) and the
`orphans`. No step reads the history to decide anything. Three hypotheses of the
protocol are history too, so that they appear in the statements that need them and nowhere else:

- `ok` of a read: fewer than 2^27 commits of one slot during one attempt (`spec/state-channel.md`,
  lines 394-395). `VersionCheckExact` says exactly what the version check decides without it.
- `ok` of a sleep: fewer than 2^32 increments of `notify` between its load and the sleep.
- `lost` of a file: a process died between a change and its wake-up, and nobody woke the file's
  waiters since.

`ReadsAreFresh`, `WakeupsAreFresh` and `LostByDeath` say what each comes down to: commits and increments
of the file itself between two states of a run, and the step in which a process dies. A lemma that requires
`SysInv` speaks of every reachable state: `AllRunsSafe` proves it there.

Timestamps are monotone because the clock that `commit_slot` reads is: the machine has one, and
`Stamp` takes any reading not below the previous one of any process.

## Model

| member | source | states |
|---|---|---|
| SystemTheorems.Linearizable | src/state.c:824-863 | In every run, an OK from read, peek or wait carries the generation, timestamp, length and (for read) bytes of one publish of its file, the latest there between the start and the end of the call; it was the latest of the whole channel at a moment of the call if and only if its file was not an orphan that another file had overtaken before the call; TOOSMALL carries that publish's true size, NODATA means its file had no publish, FORMAT cannot happen |
| SystemCalls.ReadsAreFresh | src/state.c:824-885 | The same without reference to a reader's own history: from any reachable state with the reader at rest, through any continuation, a result it has returned since comes from a file not retired in that state and is no older than the file's last publish there; if no slot was committed 2^27 times in between, a value is exactly one publish, TOOSMALL tells its size and FORMAT is never returned; unless the file is an orphan, the value was the channel's latest at a moment in between; NODATA means the file was empty, and BUSY takes 64 * (slot_count - 1) publishes in between |
| SystemTheorems.HistoryIsComplete | src/state.c:448-471 | That order holds every publish of every file, a replacement's after those of the file it replaced, and a file neither retired nor an orphan holds the last one of the channel if it holds any |
| SystemOrphan.StaleRead | src/state.c:464-471 | A run of 1 process and 1 reader: killed between rename and retire, reopened and published to, after which a new call returns the old file's value with OK, no counter wrapped, which was not the channel's latest at any moment of the call |
| SystemChannel.LatestExactly | src/state.c:789-805 | A result is the channel's latest at a moment of its call if and only if its file was not overtaken when the call began |
| SystemChannel.CallBegins | src/state.c:781-805 | When a call begins, every file that is not retired and not overtaken holds the channel's latest publish or none before it |
| SystemChannel.ChannelStep | src/state.c:416-483 | Every action of any process or reader keeps the order of the channel: publishes go to the newest file only, and every other file is retired, about to be, or an orphan |
| SystemTheorems.MonotonicReads | src/state.c:837-857 | Later results of one reader, through every reattach, are the same or later publishes in the order of the whole channel, and their timestamps do not go back |
| SystemTheorems.TimestampsOrdered | src/state.c:623-641 | The publishes of the whole channel, across replacements of the file, carry timestamps in their order, none later than the clock |
| SystemClock.TimeStep | src/state.c:623-641 | Every action keeps that order: a timestamp that is read and not yet published is no older than any publish, and no file was stamped later than now |
| SystemTheorems.BusyBound | src/state.c:828-862 | BUSY implies at least 64 * (slot_count - 1) publishes during the call |
| SystemTheorems.RetireFollowed | src/state.c:789-805 | No result comes from a file whose RETIRED bit was set when the call began |
| SystemCalls.FollowsPath | src/state.c:789-805 | In every reachable state, a reader at the top of reader_sync that is not attached, or attached to a retired file, is inside the file on the path three loads later, detached two loads later if there is none; attached to an unretired file it goes on in it one load later |
| SystemReading.AttachRetries | src/state.c:797-804 | A file retired between being mapped and being checked is given up for the one on the path by then, as long as an attempt is left |
| SystemCalls.CallEnds | src/state.c:824-976 | In every reachable state a read, peek or wait that nobody disturbs ends within a number of loads given by the length of the value: with the last value of the file reader_sync settles on, TOOSMALL exactly if it does not fit, NODATA exactly if there is none, NOTSUP exactly for a wait without notifications, or asleep exactly if the generation is the one the caller knows or there is no value |
| SystemCalls.SleeperLeaves | src/state.c:967-971 | A sleeper whose slice is over ends up in the file on the path and its value, whatever became of the file it slept on |
| SystemReading.WokenFollows | src/state.c:931-975 | A sleeper that was woken settles in the same way, in its file or, if that is retired, in the one on the path |
| SystemReading.AliveFollows | src/state.c:978-997 | writer_alive on a handle whose file has lost its name attaches to the file that has it |
| SystemReading.DescribeFollows | src/state.c:900-920 | describe keeps an unretired attachment and otherwise attaches to the file on the path, or to none |
| SystemReading.DeadlineEnds | src/state.c:957-960 | A deadline ends a polling wait at once and one about to sleep with TIMEOUT |
| SystemFresh.WrapStep | src/state.c:837-857 | Every action keeps it true that a reader distrusts a result only after 2^27 commits of a slot of its file, or 2^32 increments of its futex word, since its call began |
| SystemTheorems.PathNamesCompleteFiles | src/state.c:416-483 | At every moment the data path names no file or a completely initialised, valid, unretired one |
| SystemTheorems.WriterExclusion | src/state.c:222-270 | No two processes are ever between a successful identity check and their close or unlink, and the lock path names the holder's inode throughout |
| SystemTheorems.StoresByHolder | src/state.c:547-596 | Whatever the step, a byte of any data file changes only if the acting process holds the lock the path names |
| SystemTheorems.RefusalJustified | src/state.c:247-261 | WRITER_EXISTS is returned only if another process held the inode that the lock path named at the failed attempt |
| SystemCalls.LockLoopEnds | src/state.c:222-270 | In every reachable state a process in the lock loop, going on alone, is through within 7 system calls: refused exactly if another process holds the lock the path names, or held it at an attempt that has just failed, and else in the section of that lock; a lock file unlinked under it makes it start over, never fail |
| SystemQuiet.OpenRefusedByHolder | src/state.c:222-270 | An open or unlink that finds the lock held changes nothing but its own refusal, which names the holder |
| SystemCalls.DecidesByFields | src/state.c:519-541 | In every run, at open_data's decision: the file is reused if and only if capacity, slot count, payload type, notification and minor version agree; refused if and only if one of the first four differs and RECREATE is clear; replaced otherwise; no file, path or reader changes |
| SystemQuiet.DecidesOther | src/state.c:500-528 | A file with an invalid header or `latest` is replaced with RECREATE and refused without, and retired exactly if it was mapped; a retired file is always replaced |
| SystemCalls.OpensChannel | src/state.c:547-586 | From every reachable state with the lock free, an open that nobody disturbs leaves exactly the state of one of four cases: a new empty file with the caller's geometry on the path; the existing file and a handle that continues it; nothing but a refusal; or a new file on the path, the old one retired and announced and its sleepers woken, the generation carried over |
| SystemCalls.UnlinkEmpties | src/state.c:1016-1050 | In every run, when an unlink reaches its close, neither path names a file, and every file that ever was on the path is retired or an orphan |
| SystemCalls.UnlinksChannel | src/state.c:1002-1050 | From every reachable state with the lock free, an unlink that nobody disturbs leaves both paths empty, the lock released, the file that was on the path retired with its futex word incremented, its sleepers woken and every other file as it was |
| SystemTheorems.LockLoopTerminates | src/state.c:224-269 | Over any stretch of a run in which a process stays in the lock loop, whatever the others do, it makes fewer than 4 * (unlinks of the lock path since its call began + 1) system calls |
| SystemTheorems.NoLostWakeup | src/state.c:923-976 | A waiter asleep on a changed or retired file implies a live process that still has its notify increment or its wake to execute, unless a process died before its wake-up and nobody woke the file's waiters since |
| SystemCalls.WakeupsAreFresh | src/state.c:943-966 | The same with the wrapped counters counted by the channel: if no slot was committed 2^27 times and the futex word not incremented 2^32 times since the reader was at rest, a reader asleep on a changed or retired file has a wake-up coming from a live process |
| SystemCalls.LostByDeath | src/state.c:635-638 | A wake-up is lost only in the step in which the process that owes it dies |
| SystemCalls.OrphanedByDeath | src/state.c:448-471 | A file becomes an orphan only in the step in which the process that took it off the path dies before setting its RETIRED bit, or in which unlink cannot map it |
| SystemTheorems.WakeupMakesGood | src/state.c:635-638 | The wake-up of the next publish makes good for every death before it: after it no reader sleeps on the file, and the exception above is gone |
| SystemPublishing.PublishAlone | src/state.c:610-657 | From any reachable state, a publish that nobody disturbs takes |data| + 7 stores, or + 9 on a notifying channel: the value becomes the last of its file and of the channel with the handle's generation and the time of the commit, the futex word is incremented and every sleeper of the file woken exactly if the channel notifies, and nothing else changes |
| SystemPublishing.CommitAlone | src/state.c:669-681 | A commit publishes in the same way the bytes the application left in the open slot |
| SystemCalls.PublishReachesSleeper | src/state.c:610-976 | In every reachable state: a publish that runs through, and then the loads of a reader that slept on the file, make that reader's wait return exactly the published generation, time and length, unless it is the generation the caller knows |
| SystemTheorems.ChannelInvariant | src/state.c:610-694 | In every reachable state `latest` names an even slot with its tag and the memory decodes to the last publish; the only odd slot is the next one to be written |
| SystemTheorems.CrashAtomic | src/state.c:623-641 | A crash at any point leaves the memory, and the value decoded from it, at exactly the last publish |
| SystemTheorems.GenerationChain | src/state.c:74-77 | The k-th generation of a file is ((g0 - 1 + k) mod (2^32 - 1)) + 1 and never 0, across aborts, crashes and reuse |
| SystemTheorems.GenerationsDistinct | spec/state-channel.md:417-421 | Two publishes of a file share a generation if and only if they are a multiple of 2^32 - 1 apart |
| SystemTheorems.GenerationCarried | src/state.c:389-396 | The handle that replaced a file holding a value publishes first with the successor of that value's generation |
| SystemTheorems.ValueIsLastPublish | src/state.c:623-641 | Decoding the memory of any sound file gives its last publish, or nothing if there is none |
| SystemSafety.AllRunsSafe | src/state.c:547-596 | The invariant of locks, files and readers holds after every run from the empty directory |
| SystemSafety.StepSafe | src/state.c:547-596 | Every action of any process or reader keeps that invariant |
| SystemLock.LockStepKeeps | src/state.c:222-270 | Every system call of the lock loop keeps the lock invariant |
| SystemLock.UnlinkLockKeeps | src/state.c:1043-1047 | Unlinking the lock path while holding it keeps the lock invariant |
| SystemFiles.DecideCreate | src/state.c:389-396 | The generation that a replacement carries follows the file's last value; which files are replaced is `SystemCalls.DecidesByFields` |
| SystemFiles.DecideReuse | src/state.c:517-541 | When open_data decides to reuse the file, the new handle continues it soundly |
| SystemFiles.RenameKeeps | src/state.c:448-471 | The rename makes a complete file reachable while the old one stays readable until it is retired |
| SystemFiles.UnlinkDataKeeps | src/state.c:1026-1030 | The step that empties the data path keeps the invariant, the file not yet being retired; what a whole unlink leaves is `SystemCalls.UnlinkEmpties` |
| SystemSafety.UnmappedSafe | src/state.c:1018-1037 | An unlink that could not map the file, and so never retires it, keeps the invariant |
| SystemFiles.PublishKeeps | src/state.c:610-641 | A writer's action on its file keeps the invariant of all files |
| SystemReaders.LoadStepKeeps | src/state.c:748-805 | Every load or system call of a reader in a read, peek, wait, describe or writer_alive keeps what it knows |
| SystemReaders.SliceKeeps | src/state.c:967-971 | A sleep that ends by itself leads to the orphan check without breaking what a reader knows |
| RingWriter.WriterKeeps | src/state.c:610-694 | Every action on a writer handle (begin, each store, commit, abort) keeps the invariant of the file and of the handle |
| RingWriter.WriterEvolves | src/state.c:610-641 | Every action changes the file only as readers tolerate: an even slot with an unchanged commit count is untouched, only the next slot is written, every change owes a wake-up |
| RingWriter.RetireKeeps | src/state.c:188-193 | The three steps of retire keep the file's invariant |
| RingWriter.RetireEvolves | src/state.c:188-193 | And change it only as readers and waiters tolerate |
| RingWriter.CrashKeeps | src/state.c:588-596 | A crash or close at any store leaves a sound file with no agent |
| RingWriter.ReuseKeeps | src/state.c:523-541 | The handle open_data builds on any sound, unretired file is sound |
| RingWriter.LatestHolds | src/state.c:631-632 | `latest` names the even slot whose bytes begin with the image of the last publish, with its commit count modulo 2^27 as the tag |
| RingReading.ReaderEvolves | src/state.c:824-863 | What a reader knows between two loads survives every step of the writer or retirer |
| RingReading.ReaderKeeps | src/state.c:824-863 | Every load of read_latest and of the wait loop keeps what the reader knows |
| RingReading.LoadLatestKeeps | src/state.c:829-836 | The load of `latest` names the last publish of that moment |
| RingReading.RecheckSound | src/state.c:839-857 | Two equal looks at seq with fewer than 2^27 commits in between: the slot was not touched since `latest` was loaded, and the copy is a prefix of the image of that publish |
| RingReading.CopySound | src/state.c:842-857 | The header fields and the payload copied then are that publish's |
| RingReading.SleepKeeps | src/state.c:950-966 | FUTEX_WAIT's comparison succeeds only if nothing that the waiter must see was announced since its load of notify; BUSY cannot hide a change |
| RingQuiet.QuietRead | src/state.c:828-857 | With nobody storing, the first attempt of every read and peek returns the last publish, or TOOSMALL exactly if it does not fit |
| RingQuiet.QuietWait | src/state.c:931-966 | With nobody storing, a wait on a notifying, unretired file reaches its answer in 21 loads: OK with the last publish if and only if its generation is not the caller's, and the sleep if and only if it is |
| RingQuiet.QuietWaitOther | src/state.c:931-966 | A wait returns NOTSUP at its first load without notifications, starts over at the second on a retired file, and sleeps after the fourth on an empty one |
| RingQuiet.FailedAttempt | src/state.c:610-620 | A failed attempt contains at least slot_count - 1 publishes |
| RingQuiet.VersionCheckExact | src/state.c:837-841 | The version check passes if and only if the slot is even and was committed a multiple of 2^27 times since `latest` was loaded; below 2^27, if and only if it is untouched |
| Reuse.SelfStabilises | src/state.c:499-541 | From any contents open_data accepts, whatever publishes, aborts, crashes, new handles and retires follow: after one publish every read and peek returns the last one, after slot_count publishes the only odd slot is the one after the slot `latest` names |
| Reuse.EventKeeps | src/state.c:523-541 | Each such event keeps the invariant of an adopted file |
| Ring.ImageDecodes | src/layout.h:51-57 | A slot image, or any prefix of it that covers the header, decodes to the record's generation, timestamp and length |
| RingInvariant.SeqMatch | spec/state-channel.md:394-395 | Equal seq words with fewer than 2^27 commits between them mean no commit between them |
| RingInvariant.TagOfCommits | src/layout.h:62-65 | The tag in `latest` is the commit count modulo 2^27, across the wrap of seq |
| MappedWriter.StateWriter.Reuse | src/state.c:523-541 | A handle built from the mapped bytes of any sound file continues it, with the next generation |
| MappedWriter.StateWriter.BeginSlot | src/state.c:610-620 | Opens the slot after `latest` in the mapped bytes: odd, remembered, and a step of the ring |
| MappedWriter.StateWriter.CommitSlot | src/state.c:623-641 | The stores of commit_slot, in order and each a step of the ring, append exactly the record to the publishes; on a notifying channel the futex word goes up by one, modulo 2^32, and FUTEX_WAKE is called once, otherwise neither |
| MappedWriter.StateWriter.Publish | src/state.c:643-657 | OK appends (generation, time, data) to the publishes, advances the generation, and increments the futex word and wakes its waiters exactly if the channel notifies; STATE and TOOBIG exactly when promised, and then no byte changes and nobody is woken |
| MappedWriter.StateWriter.Begin | src/state.c:659-667 | Opens a slot without changing the value; STATE if one is open, and then no byte changes |
| MappedWriter.StateWriter.Fill | src/state.c:659-667 | The application's store changes one payload byte of the open slot and nothing else |
| MappedWriter.StateWriter.Commit | src/state.c:669-681 | OK publishes the first bytes of the open slot as the application left them, with the same notification; STATE and TOOBIG exactly when promised |
| MappedWriter.StateWriter.Abort | src/state.c:683-694 | Changes no byte: the slot stays odd and is the next one to be opened |
| MappedWriter.StateWriter.Announce | src/state.c:635-640 | Increments the futex word in the mapped bytes and wakes once on a notifying channel, does neither on another, and advances the generation |
| MappedBytes.SlotsApart | src/layout.h:105-114 | A store into one slot of the mapping is outside every other slot |
| MappedBytes.SeqStore | src/state.c:613-631 | Four bytes stored at a slot's offset change that slot's seq word and nothing else a reader sees |
| MappedBytes.BodyStore | src/state.c:628-630 | Bytes stored into a slot's fields or payload change that part of the slot and nothing else |
| MappedBytes.LatestStore | src/state.c:632-632 | The store of `latest` changes no slot |
| MappedReader.ReadLatest | src/state.c:824-863 | The loop over the mapped bytes with its copies into the caller's buffer, others publishing, aborting, dying, reopening and retiring before each load: unless a slot was committed 2^27 times between the file before and the file after the call, OK leaves one publish's bytes in the buffer and its fields in info; the other codes mean what they say; a first attempt that ends in TOOSMALL or NODATA leaves the buffer alone |
| MappedReader.Attempt | src/state.c:829-858 | One attempt: decided with an outcome that the reader's steps justify, or to be tried again |
| MappedReader.CopyPayload | src/seqcopy.c:8-12 | The racy copy, byte by byte, puts what was loaded into the buffer and nothing past it |
| MappedReader.CopyAndCheck | src/state.c:841-858 | The two copies and the second look at seq decide the attempt exactly as the reader's steps do |
| MappedReader.EventSeen | src/state.c:610-641 | Whatever others do to the file leaves the reader's knowledge true |
| Layout.LatestDecodes | src/layout.h:62-77 | `psmi_latest` decodes to the slot and the tag, is valid and never NONE |
| Layout.LatestInjective | src/layout.h:62-65 | Two `latest` words are equal if and only if slot and tag are |
| Layout.StrideSound | src/layout.h:105-114 | For a valid header the stride is whole cache lines, holds header and payload with less than a line to spare, and the file size fits 32 bits |
| Layout.SlotsDisjoint | src/layout.h:111-114 | Slots of a valid header never overlap |
| Layout.PayloadAligned | src/layout.h:105-108 | Slots are 64-byte, payloads 32-byte aligned |
| Layout.ReadInsideMapping | src/state.c:163-171 | Whatever `latest` and the length field hold, what a read touches after its checks lies in the mapping |
| LayoutBits.LatestExprMeans | src/layout.h:62-65 | The shift-and-mask expression is the arithmetic |
| LayoutBits.LatestSlotExprMeans | src/layout.h:67-70 | The mask is the remainder by 16 |
| LayoutBits.LatestValidExprMeans | src/layout.h:73-77 | The validity test on bits is the one on numbers |
| LayoutBits.SlotStrideExprMeans | src/layout.h:105-108 | Masking the low six bits, in 32-bit arithmetic, rounds to whole lines |
| Handle.CReader.Sync | src/state.c:789-805 | The result, the handle and the answers of the system it has used are exactly those of the reference `SyncOf`, of which the next four rows speak |
| Handle.SyncStays | src/state.c:789-793 | An attached file that is not retired is kept, with one look at it |
| Handle.SyncFollows | src/state.c:794-801 | An attached file that is retired is given up: if the next open finds a file and that is not retired, the reader is attached to it, not announced yet |
| Handle.SyncFollowsAgain | src/state.c:797-804 | If that one was retired too, the second open decides: attached to what it found, or NODATA and unattached if that is retired as well |
| Handle.SyncFails | src/state.c:789-805 | An open that fails is reported as what it found, and the reader is left unattached |
| Handle.CReader.Read | src/state.c:874-885 | The answer, the bytes, the info and the handle are exactly those of the reference `ReadOf`, of which the next two rows speak |
| Handle.ReadAnswers | src/state.c:874-885 | Once attached, the answer is decided by the look at the ring that comes next: OK exactly if a value was found that fits the capacity and the buffer, with exactly its bytes, generation, timestamp and length; TOOSMALL exactly if it fits only the capacity; NODATA, BUSY and FORMAT exactly for no value, a torn one, and a corrupt or oversized one |
| Handle.ReadDrifts | src/state.c:874-885 | A result carries ATTACHED exactly if it is the first one from its attachment, and no other code announces |
| Handle.CReader.Peek | src/state.c:887-898 | The same reference without the copy: a value never fails to fit |
| Handle.CReader.Identity | src/state.c:808-821 | Detaches exactly if the path no longer names the file; a failing lstat changes nothing |
| Handle.CReader.Describe | src/state.c:900-920 | Returns the attached file's capacity, slot count, payload type and whether it notifies, and fails only unattached |
| Handle.CReader.WaitTurn | src/state.c:931-975 | One turn of the loop answers, looks and sleeps exactly as the reference `TurnOf`, of which the next two rows speak |
| Handle.TurnReports | src/state.c:950-956 | A turn that gets to look returns OK exactly if it finds a fitting value of a generation other than the caller's, and FORMAT exactly if it finds a corrupt or oversized one; what it reports to have seen is what was there |
| Handle.TurnSleeps | src/state.c:957-973 | A turn that finds nothing new returns TIMEOUT exactly if the clock has reached the deadline; otherwise it sleeps once, to the deadline or a second, and is over exactly if a signal or an error ended the sleep; a sleep that ran out detaches exactly if the path names another file |
| Handle.TurnRefuses | src/state.c:939-942 | NOTSUP exactly on an attached channel that does not notify; a failed attach is passed on; without a file it polls until the deadline |
| Handle.CReader.Wait | src/state.c:923-976 | The whole loop answers and sleeps exactly as the reference `NativeWait`, of which the next three rows speak |
| Handle.WaitPromises | src/state.c:923-976 | OK only on finding a generation other than the caller's; TIMEOUT only at or after the deadline and after a last look that found no other; every sleep is positive, at most a second and ends by the deadline; a poll never sleeps |
| Handle.WaitReports | src/state.c:943-956 | A change that is there at the first look is reported, whatever the timeout |
| Handle.PollTimesOut | src/state.c:957-960 | A poll that finds nothing new returns TIMEOUT without sleeping |
| Handle.AliveAnswers | src/state.c:978-997 | writer_alive on a handle whose file is still in place keeps it, and its answer is the lock's state |
| Handle.AliveReattaches | src/state.c:978-997 | writer_alive on a handle whose file has lost its name attaches to the file that has it, and its answer is the lock's state after that |
| GoReader.Session | bindings/go/psmsgr/reader.go:116-165 | For every sequence of calls in every environment, a result is marked attached if and only if it is the first returned from its attachment |
| GoReader.Reader.Read | bindings/go/psmsgr/reader.go:116-145 | One call of up to four native reads is the reference `Fetch`: the outcome is what the last of them said, and the slice returned is dst with the value appended, or dst; a result is marked attached exactly if it is the first from its attachment |
| GoReader.FetchFits | bindings/go/psmsgr/reader.go:116-145 | A value that fits the free room is returned by the first native read |
| GoReader.FetchGrows | bindings/go/psmsgr/reader.go:128-136 | One that does not is returned whole by the second if it is still there |
| GoReader.Reader.ReadValue | bindings/go/psmsgr/value.go:40-62 | The same when a size mismatch swallows a result; otherwise the value is the channel's bytes, of the type's size |
| GoReader.Reader.Peek | bindings/go/psmsgr/reader.go:150-165 | The same of peek |
| GoReader.Reader.Wait | bindings/go/psmsgr/reader.go:174-224 | True only if the native wait found another generation; times out only after the whole rounded-up timeout and a last look that found no other; slices are at most 100 ms, and a poll if and only if nothing remains; DeadlineExceeded only at the context's deadline |
| GoReader.GoWaitPromises | bindings/go/psmsgr/reader.go:174-224 | Of the reference of Wait: the same promises, for every environment |
| GoReader.GoWaitPasses | bindings/go/psmsgr/reader.go:205-211 | What the native wait of a slice reports is passed on: a change at once, an error as itself, the timeout of a poll as the end |
| GoReader.RoundedUp | bindings/go/psmsgr/reader.go:180-183 | Rounding adds less than a millisecond, never overflows and never makes or unmakes a poll |
| PythonReader.Session | bindings/python/src/ps_msgr/_state.py:284-371 | For every sequence of calls in every environment, a result is marked attached if and only if it is the first returned from its attachment |
| PythonReader.StateReader.Read | bindings/python/src/ps_msgr/_state.py:303-331 | The same of one call, also when resizing the buffer re-attaches or raises; the bytes returned are the whole value |
| PythonReader.ReadsFit | bindings/python/src/ps_msgr/_state.py:303-331 | Of the reference of read: a value that fits the buffer is returned whole by the first native read |
| PythonReader.ReadsGrow | bindings/python/src/ps_msgr/_state.py:314-326 | One that does not makes the buffer grow to the channel's capacity, and is returned whole by the next |
| PythonReader.FitPromises | bindings/python/src/ps_msgr/_state.py:289-301 | Making room leaves the buffer at least what was asked for and the capacity of the file attached to, or fails with the handle unattached and the buffer as it was |
| PythonReader.StateReader.ReadInto | bindings/python/src/ps_msgr/_state.py:333-356 | The same when too small a buffer raises; otherwise the whole value is stored, and a reported attach is remembered for the next read |
| PythonReader.StateReader.Peek | bindings/python/src/ps_msgr/_state.py:358-371 | The same of peek |
| PythonReader.StateReader.Fit | bindings/python/src/ps_msgr/_state.py:289-301 | Makes room, or raises with the handle unattached |
| PythonReader.StateReader.Wait | bindings/python/src/ps_msgr/_state.py:373-409 | True only if the native wait found another generation; False only at or after the deadline and after a last look that found no other; slices are at most 100 ms and reach the deadline unless whole, and a poll if and only if it has passed |
| PythonReader.PyWaitPromises | bindings/python/src/ps_msgr/_state.py:373-409 | Of the reference of wait: the same promises, for every environment |
| PythonReader.PyWaitPasses | bindings/python/src/ps_msgr/_state.py:398-409 | What the native wait of a slice reports is passed on: a change at once, an error as itself, the timeout of a poll as the end |
| PythonReader.SliceMs | bindings/python/src/ps_msgr/_state.py:393-397 | The remaining time rounded up to milliseconds, at most a slice, 0 if and only if none remains |
| Closing.GoRun | bindings/go/psmsgr/reader.go:268-302 | In every interleaving of calls and closes: at most one native close, none while a call is inside, and one exactly when a close happened and no call is inside |
| Closing.GoReader.Release | bindings/go/psmsgr/reader.go:295-302 | The last call to leave a closed reader closes the handle, no other does |
| Closing.GoReader.Close | bindings/go/psmsgr/reader.go:268-281 | Closes the handle at once exactly if no call is inside; a second close does nothing |
| Closing.PythonRun | bindings/python/src/ps_msgr/_state.py:269-282 | The same for the Python reader, whose native close follows the release of the lock |
| Closing.PythonReader.Leave | bindings/python/src/ps_msgr/_state.py:277-282 | The last call to leave a closed reader, and no other thread, goes on to close the handle |
| Closing.PythonReader.Close | bindings/python/src/ps_msgr/_state.py:442-451 | Exactly the close that finds the handle and no call inside goes on to close it |
| Names.NameValid | src/state.c:104-117 | Accepts exactly the names of 1 to 64 of the allowed characters not starting with a dot |
| Names.NameSpaces | src/state.c:129-153 | Data and lock files of different channels, and of one channel, have different names |
| Names.StaleSeparates | src/state.c:274-290 | The test for stale temporary files accepts no data or lock file of any channel, and a temporary file only of the channel itself |
| Names.RemoveStaleTmp | src/state.c:274-290 | Removes from any directory listing exactly the channel's own temporary files |

## Left out

- Weak memory: steps interleave with sequential consistency; the fences and orderings of the atomics are not modelled.
- System calls: their results are choices of the environment; errno values collapse to a failure that gives up and closes the lock.
- Files removed, truncated or written behind the library's back, apart from the identity check of a waiter.
- The stores of `created_realtime_ns` and `writer_pid`, which nothing reads back, and the checks of NULL arguments and option structs.
- SystemTheorems.RetireFollowed: speaks of files whose RETIRED bit is set; what readers of an orphan may return is `SystemTheorems.Linearizable`'s condition.
- SystemTheorems.GenerationCarried: a carried generation lives only in the handle until its first publish, so several recreates without a publish do not chain.
- MappedReader.ReadLatest: the buffer may hold bytes of a failed attempt after a later TOOSMALL, NODATA or BUSY, so nothing is promised of it then.
- The lock loop, create_file, unlink and the wake-up protocol are step machines, one step a system call or store, so that every interleaving is a run; they are not also written as loops.
- Handle.CReader.Wait: time is a natural number, without the 64-bit wrap of nanoseconds; what it finds is the environment's choice, since `SystemTheorems` says what it can be.
- GoReader.Reader.Read: slices are values with a capacity, without aliasing of the backing array; `slices.Grow` grows by what is needed.
- Python's conversion of a float timeout to a deadline, signal handlers, and garbage-collected readers.
- The C# binding, the tools, benchmarks, test hooks and the behaviour across fork.
