# xv6-riscv, modelled and proved

A Dafny model of the parts of the xv6-riscv kernel and its user programs that hold its hardest promises, with proofs
over every input, every interleaving and every crash. `dafny verify dfyconfig.toml` checks all of it.

| files | what they model |
|---|---|
| LogImage, LogCode, LogSystem, LogTheorems, LogProgress | the redo log of `log.c`: commit and recovery as code that leaves a trace of disk images, and the whole system of operations, commits, evictions, crashes and recoveries as a state machine that refines an atomic disk |
| Bio, BioProtocol, BioTheorems | the buffer cache of `bio.c`: the LRU ring as code over its links, and any number of concurrent users of the buffers |
| FsImage, FsState, FsCode, FsFile, FsWrite, FsChunks, FsTight | `balloc`, `bfree`, `bmap`, `itrunc`, `readi`, `writei` of `fs.c` and `filewrite` of `file.c`: who owns which block, files as byte sequences, and how many blocks a transaction logs |
| PageTable, PageMap, VmCode, VmUser, VmProc, VmFree, VmCopy | `kalloc.c` and `vm.c`: the three-level Sv39 tree (section 4.4 of the RISC-V Privileged Architecture, version 20211203) as a flat map, and where every physical page is |
| Sched, SchedProofs, SchedCalls, SchedProgress, SleepProofs | the scheduler, `sched`, `yield`, `sleep`, `wakeup` and `kill` of `proc.c`, and how `fork`, `exit` and `wait` take, leave and free a process and its kernel stack: any CPUs, processes, locks and channels, one lock operation, field write or context switch per step |
| SleepLocks, SleepLockCalls | the sleep-locks of `sleeplock.c` as clients of that machine, beside any others |
| ExitWait, ExitWaitProofs, ExitWaitTheorems, ExitWaitCalls, ExitWaitProgress | `fork`, `exit`, `reparent`, `wait` and `kill` of `proc.c` |
| Heap, Umalloc | the Kernighan and Ritchie allocator of `umalloc.c` |
| Virtio, VirtioCode | the virtqueue of `virtio_disk.c` (sections 2.6 and 5.2 of VIRTIO 1.1), driver and device |
| Pipe, PipeReaders, PipeCalls, PipeProgress | `pipewrite`, `piperead` and `pipeclose` of `pipe.c` |
| Common | what several of these share |
| Shell, ShellTokens, ShellGrammar, ShellCode, ShellPrint | the parser of `sh.c`: the parse functions, the grammar they decide, the loops that refine them, `nulterminate`, and printing as the parser's inverse |

The main results:

- Crash atomicity: `LogCode.Log.Commit`, `LogImage.RecoverySurvivesCrashes`; over whole runs `LogTheorems.RunRefines`,
  `CrashRestoresDurable` and `DurableIsWhole`.
- Log reservation: `LogTheorems.LogWriteAppendFits`. That `log_write` never panics for an operation within its reservation is
  false: the space test at `log.c:220` runs before absorption. `AbsorbedWriteCanPanic` is a run from boot that ends in the
  panic, and `PanicsExactlyWhenFull` says exactly when it happens: when the log holds LOGSIZE blocks.
- Commit and the buffer cache: that a commit always finds buffers for the log's blocks is false, since NBUF equals LOGSIZE in
  `param.h` and logged blocks are pinned. `FullCommitPanics` is a run from boot that ends in the panic of `bget`,
  `CommitPanicsExactly` and `PanicsExactly` say when it happens, `RoomOrRecycle` that it does not with one buffer to spare,
  and `FullLogNeverCommits` that a full log is never committed.
- The log goes on: `LogTheorems.SleepersHaveReason`, `LogProgress.SleepsExactly`, `CommitTakes`, `CommitGoesOn` and
  `RecoveryGoesOn`.
- One CPU per kernel stack, over runs in which entries of the process table are freed and taken again:
  `SchedProofs.OneCpuPerStack`, `FreedOffStack`, `SchedNeverPanics`.
- No lost wakeup on any channel, and no sleeper without reason: `SleepProofs.NoLostWakeup`, `WokenStaysUp`,
  `SleepersHaveReason`; for sleep-locks `SleepLocks.MutualExclusion`, `NoSleeperOnFreeLock` and
  `SleepLockCalls.WordExact`; who is asleep, killed or inside a call, exactly: `SchedCalls.SleepEndsExactly`,
  `KilledExactly`, `SchedProgress.InsideExactly`.
- No deadlock, and sections of spin-locks that end: `SchedProgress.NoDeadlock` and `CallsEnd`, `ExitWaitProgress.NoDeadlock`
  and `SectionsEnd`, `PipeProgress.GoesOn` and `SectionsEnd`.
- Exit and wait: `ExitWaitTheorems.FamilyTree`, `NoParentSleepsOnZombie`, `FreedIsGone`, `StatusReapedOnce`;
  `ExitWaitCalls.StatusIsPassedToExit` and `ExitWaitProgress.NoStatusLost`; `ParentIsForker`, `WaitEndsExactly`,
  `SleepsExactly`.
- Kill: that a new process starts unmarked is false: `ExitWaitCalls.BornKilled` is a run in which `kill(0)` marks an unused
  entry, which `allocproc` does not clear, and `KilledExactly` says exactly which entries are marked.
- The heap: `Umalloc.Arena.Malloc` and `Free` with `Heap.UnitsConserved` and `Umalloc.ListIsOneCycle`. That `morecore` books
  what it asks `sbrk` for is false for large requests: `SbrkArgumentWraps` is one, and `SbrkArgument` gives the exact bound.
- Files: `FsWrite.WriteI` and `FsFile.ReadI` refine byte sequences; `FsCode.Fs.ITrunc` frees exactly the inode's blocks;
  `FsFile.ChunkFits` and `FsChunks.FileWrite` give the transaction bound, and `FsTight.TightWrite` with `WorstImage` a write that
  meets it.
- Half-failed copies: that `writei` changes a file by the bytes it counts, and logs what it changes, is false when the source
  becomes unreadable inside a block: `fs.c:522-525` releases the buffer with the bytes that did arrive. `FsTight.TornWrite` is
  such a write, `WriteI` says what it does, `FsWrite.WholeExactly`, `PlainExactly` and `PlainForAll` say exactly when it shows,
  `TornOld` exactly when it goes unlogged, `FsChunks.FileWholeExactly` and `WholeFiled` the same for `filewrite`, and
  `Recycled`, `LogTheorems.UntornRun`, `TornReverts` and `BioTheorems.TornExactly` what it means for log and cache.
- Pipe calls: `PipeCalls.WriteDelivers` and `WriteIsWhole`. That `piperead` takes out what it returns is false when a copy to
  the user fails: `LostByte` is a run, and `ReadTakes` says that one byte more is taken then and in no other case.
- Pipe readers: that nobody sleeps in `piperead` on a pipe with bytes is false: `PipeReaders.StrandedReader` is a run, and
  `StrandsExactly` and `ReaderAsleepMeansEmpty` say exactly which writers break it.
- Memory: `PageTable.PagesConserved`, `VmProc.Alloc` and `CopySpace` with their roll-back, `VmFree.Free`,
  `VmCopy.CopyOut`, `CopyIn` and their `RoundTrip`.
- Cache: `BioTheorems.Transparent` and `HolderSees`: a cache that nobody notices; `BioProtocol.CacheAgreesWithDisk` and
  `PinnedStays`, `BioTheorems.PinsExactly`.
- Pipe, virtqueue, shell: `Pipe.FifoAlways`, `Virtio.DescriptorsConserved` and `VirtioCode.VirtioDisk.Interrupt`,
  `ShellGrammar.ParsesExactly`, `ShellPrint.PrintThenParse` and `ShellCode.ParseCommand`.

Where the source panics, a model either has a result that says so and a contract that says exactly when (`LogWrite`, `BFree`,
`Get`, the parse functions), or requires what the source tests for and panics without (`bmap` beyond MAXFILE, `mappages` over a
mapped page, `uvmunmap` of an unmapped one).

## Model

| member | source | states |
|---|---|---|
| LogImage.InstalledIsOverlay | xv6-riscv/kernel/log.c:68-83 | Copying the first k log blocks home one after the other gives exactly the home blocks with all k replaced at once |
| LogImage.PartialInstallKeepsCommitted | xv6-riscv/kernel/log.c:68-83 | A disk with any number of log blocks already home stands for the same contents: installing may be restarted anywhere |
| LogImage.FullInstallReachesCommitted | xv6-riscv/kernel/log.c:68-83 | With every log block home, the home blocks are the committed contents |
| LogImage.CutRecoveryKeepsCommitted | xv6-riscv/kernel/log.c:116-123 | Recovery cut off after any number of its block writes keeps the committed contents; complete, it leaves them at home and an empty header |
| LogImage.RecoverySurvivesCrashes | xv6-riscv/kernel/log.c:116-123 | After any list of recoveries each cut off anywhere, one complete recovery yields exactly what the first disk stood for: recovery is idempotent |
| LogImage.OverlayIsView | xv6-riscv/kernel/log.c:178-191 | Once the log blocks hold the buffers of the logged blocks, replaying the log gives what readers see |
| LogCode.CommitPoint | xv6-riscv/kernel/log.c:193-203 | With the log blocks written, the one header write makes the disk stand for everything in the cache |
| LogCode.Log.constructor | xv6-riscv/kernel/log.c:54-65 | On any readable disk the log comes up valid and empty, with what the disk stood for at home, through exactly the images of cut-off recoveries |
| LogCode.Log.LogWrite | xv6-riscv/kernel/log.c:214-235 | Panics exactly when the log is full or no operation is outstanding; else the block is in the list once, appended and pinned only if it was not there |
| LogCode.Log.WriteLog | xv6-riscv/kernel/log.c:178-191 | Every log block gets its buffer, and each of the n images a crash could leave still stands for the old home blocks |
| LogCode.Log.WriteHead | xv6-riscv/kernel/log.c:102-114 | The header block lists exactly the in-memory blocks, and nothing else on the disk changes |
| LogCode.Log.ReadHead | xv6-riscv/kernel/log.c:86-97 | The in-memory list is the one in the header block |
| LogCode.Log.InstallBlock | xv6-riscv/kernel/log.c:73-82 | One round: the disk becomes the image of a recovery cut off one write later, and the buffer is unpinned unless recovering |
| LogCode.Log.InstallTrans | xv6-riscv/kernel/log.c:68-83 | The t-th write leaves the image of a recovery cut off after t writes; pins of installed blocks are dropped unless recovering |
| LogCode.Log.CommitTail | xv6-riscv/kernel/log.c:193-203 | From the header write on, every image stands for the new contents, and the log ends empty |
| LogCode.Log.Commit | xv6-riscv/kernel/log.c:193-203 | Crash atomicity: the n images before the header write stand for the old home blocks, the n + 2 from it on for all that readers see |
| LogCode.Log.RecoverFromLog | xv6-riscv/kernel/log.c:116-123 | Ends with the committed contents at home and an empty log, through exactly the images of cut-off recoveries |
| LogSystem.StartInv | xv6-riscv/kernel/log.c:54-65 | A machine just switched on with a readable disk satisfies the invariant and stands for the committed contents |
| LogSystem.BeginOpKeeps | xv6-riscv/kernel/log.c:126-142 | begin_op keeps the invariant and begins an operation of the atomic disk, or sleeps |
| LogSystem.EndOpOps | xv6-riscv/kernel/log.c:146-175 | end_op starts a commit only when it ends the last operation, so a commit cuts no operation in two |
| LogSystem.EndOpKeeps | xv6-riscv/kernel/log.c:146-175 | end_op keeps the invariant and ends an operation of the atomic disk; that it wakes whom it must is LogTheorems.SleepersHaveReason |
| LogSystem.KillKeeps | xv6-riscv/kernel/proc.c:597-616 | Waking a killed sleeper in begin_op keeps the invariant and is invisible |
| LogSystem.BreadKeeps | xv6-riscv/kernel/bio.c:58-103 | A read, inside or outside a transaction, that finds its block cached or gets a buffer, or panics for lack of one, keeps the invariant and is invisible |
| LogSystem.ModifyKeeps | xv6-riscv/kernel/log.c:205-213 | Changing a held buffer is one write of the atomic disk |
| LogSystem.LogWriteBudget | xv6-riscv/kernel/log.c:214-235 | log_write leaves n plus the unused budgets of all operations within LOGSIZE |
| LogSystem.LogWriteKeeps | xv6-riscv/kernel/log.c:214-235 | log_write keeps the invariant, the pins and the reservation; it is invisible, unless the block was torn: then it takes in what was torn |
| LogSystem.BrelseKeeps | xv6-riscv/kernel/bio.c:116-137 | Releasing a logged or unchanged buffer keeps the invariant and is invisible |
| LogSystem.DropKeeps | xv6-riscv/kernel/fs.c:522-525 | Releasing a changed buffer that was not logged, as writei does after a copy that failed half way, keeps the invariant; it tears the block unless the block is in the log |
| LogSystem.TornHome | xv6-riscv/kernel/fs.c:522-525 | What is durable of a torn block is on its home block, whatever the commit is doing |
| LogSystem.EvictKeeps | xv6-riscv/kernel/bio.c:75-87 | Recycling a buffer that is neither held nor pinned is invisible, unless the buffer was torn: then the block goes back to what is durable |
| LogSystem.GetLogKeeps | xv6-riscv/kernel/bio.c:58-103 | Getting a buffer for a log block or the header, or panicking for lack of one, keeps the invariant; a commit that gets its first one has fewer than NBUF logged blocks |
| LogSystem.LogIsBusy | xv6-riscv/kernel/log.c:178-191 | While a log is being written each of its blocks keeps a buffer busy |
| LogSystem.CopyToLogKeeps | xv6-riscv/kernel/log.c:178-191 | Each block write of write_log, into the buffer it got for the log block, keeps the invariant and is invisible |
| LogSystem.WriteHeadKeeps | xv6-riscv/kernel/log.c:193-203 | The header write is the atomic commit: everything in memory but torn blocks becomes durable in that one step, with no operation in progress |
| LogSystem.CopyHomeInvisible | xv6-riscv/kernel/log.c:68-83 | Copying one logged block home changes nothing the disk stands for |
| LogSystem.CopyHomeKeeps | xv6-riscv/kernel/log.c:68-83 | Each install write of a commit keeps the invariant and is invisible |
| LogSystem.EraseHeadKeeps | xv6-riscv/kernel/log.c:200-201 | Emptying the header after the install is invisible |
| LogSystem.FinishKeeps | xv6-riscv/kernel/log.c:166-174 | The end of end_op wakes the sleepers and keeps the invariant |
| LogSystem.ReadHeadKeeps | xv6-riscv/kernel/log.c:116-123 | Reading the header at boot keeps the invariant and is invisible |
| LogSystem.ReplayKeeps | xv6-riscv/kernel/log.c:116-123 | Each install write of a recovery keeps the invariant and is invisible |
| LogSystem.EraseReplayedKeeps | xv6-riscv/kernel/log.c:116-123 | Emptying the header after recovery is invisible |
| LogSystem.CrashKeeps | xv6-riscv/kernel/log.c:116-123 | A crash is the reset of the atomic disk to its last commit |
| LogSystem.Refines | xv6-riscv/kernel/log.c:126-235 | Every step of the system keeps the invariant and is one step of the atomic disk |
| LogTheorems.RunInv | xv6-riscv/kernel/log.c:126-235 | Every state of every run satisfies the invariant |
| LogTheorems.RunRefines | xv6-riscv/kernel/log.c:126-235 | Every interleaving of operations, commit writes, evictions, torn writes, crashes and recoveries is a behaviour of an atomic disk that a crash resets to the last commit, and on which torn blocks are left out of commits and go back to what is durable |
| LogTheorems.CrashRestoresDurable | xv6-riscv/kernel/log.c:116-123 | After a crash, however often recovery crashes too, readers find exactly what was durable at the crash |
| LogTheorems.DurableIsWhole | xv6-riscv/kernel/log.c:146-175 | What is durable is the memory of an earlier moment with no operation in progress, torn blocks aside: no crash exposes part of an operation |
| LogTheorems.UntornRun | xv6-riscv/kernel/log.c:126-235 | As long as no operation releases a changed block that is not logged, every step is one of a plain atomic disk and what is durable is the whole memory of an earlier moment with no operation in progress |
| LogTheorems.TornReverts | xv6-riscv/kernel/fs.c:522-525 | A run from boot in which an operation releases a changed block unlogged and the change is gone again when the buffer is recycled, with no crash |
| LogTheorems.QuietMeansDurable | xv6-riscv/kernel/log.c:146-175 | With nothing outstanding or committing the log is empty, memory is durable but for torn blocks, and nobody sleeps in begin_op |
| LogTheorems.ReasonKept | xv6-riscv/kernel/log.c:126-175 | Every step, the wakeup of an end_op that does not commit included, keeps: whoever sleeps in begin_op has reason to |
| LogTheorems.SleepersHaveReason | xv6-riscv/kernel/log.c:126-175 | In every run, whoever sleeps in begin_op does so while a commit is running, or the log has no room for one operation more: end_op gives up reserved space only together with its wakeup |
| LogTheorems.LogWriteAppendFits | xv6-riscv/kernel/log.c:214-235 | An operation within its MAXOPBLOCKS finds n < LOGSIZE for any block that is not logged yet |
| LogTheorems.PanicsExactlyWhenFull | xv6-riscv/kernel/log.c:214-235 | log_write panics if and only if n == LOGSIZE, and then only for a block already in the log |
| LogTheorems.AbsorbedWriteCanPanic | xv6-riscv/kernel/log.c:214-235 | A run from boot in which three operations fill the log and writing a logged block once more panics: the space test comes before absorption |
| LogTheorems.EndOpNeverPanics | xv6-riscv/kernel/log.c:146-175 | end_op never finds a commit running |
| LogTheorems.PanicsExactly | xv6-riscv/kernel/log.c:126-235 | In any reachable state a step panics if and only if it is a log_write on a full log, or a bread of an uncached block, log blocks and header included, with every buffer pinned or held |
| LogTheorems.RoomOrRecycle | xv6-riscv/kernel/bio.c:75-89 | With fewer than NBUF buffers pinned or held there is a free buffer or one that may be recycled |
| LogTheorems.CommitPanicsExactly | xv6-riscv/kernel/log.c:178-191 | A bread of a log block in write_log panics if and only if the logged blocks and the other held ones make up NBUF buffers |
| LogTheorems.FullLogNeverCommits | xv6-riscv/kernel/log.c:178-203 | Once the log holds LOGSIZE blocks nothing becomes durable until the next crash, whatever runs, since NBUF == LOGSIZE |
| LogTheorems.FullCommitPanics | xv6-riscv/kernel/log.c:146-191 | A run from boot in which three operations within their reservations fill the log and the first bread of the commit panics |
| LogTheorems.LoggedStaysCached | xv6-riscv/kernel/log.c:225-233 | A pinned block loses its pin only to a crash or to the install write that brings its buffer home |
| LogProgress.BuffersBounded | xv6-riscv/kernel/param.h:9-11 | The buffers of home blocks and the one that a commit holds are never more than NBUF |
| LogProgress.CommitCounts | xv6-riscv/kernel/log.c:116-203 | Every step of a commit or a recovery leaves exactly one fewer to do: one for each bread of a log block or the header and one for each block write of a commit, one for each block that a recovery copies |
| LogProgress.OthersWait | xv6-riscv/kernel/log.c:126-203 | Nothing that others do meanwhile adds to it or takes from it |
| LogProgress.CommitTakes | xv6-riscv/kernel/log.c:193-203 | In every run a commit of n blocks, from the end_op that starts it on, makes exactly n writes of log blocks, one of the header, n of home blocks and one more of the header, with a bread before each |
| LogProgress.WaitsForHolder | xv6-riscv/kernel/log.c:178-191 | A commit touches no block that a process holds: it waits for it until the process releases it |
| LogProgress.CommitGoesOn | xv6-riscv/kernel/log.c:178-203 | While a commit runs it has a step to take, or there is a buffer to recycle, or who holds the block that it waits for can release it |
| LogProgress.RecoveryGoesOn | xv6-riscv/kernel/log.c:116-123 | A recovery has a step to take, or a buffer to recycle, and does not panic |
| LogProgress.SleepsExactly | xv6-riscv/kernel/log.c:126-175 | A process sleeps in begin_op if and only if it found a commit running or no room there, and since then no commit and no operation but a last one has ended and it has not been killed |
| SchedProofs.IsThreadStep | xv6-riscv/kernel/proc.c:110-616 | Every step of fork, exit, wait, sleep, wakeup, yield and kill changes only its own process, one other whose lock it holds or takes, and locks that are free or its own |
| SchedProofs.ThreadStepKeeps | xv6-riscv/kernel/proc.c:110-616 | A step of a thread within those limits keeps the scheduling invariant |
| SchedProofs.LeavesNothing | xv6-riscv/kernel/proc.c:490-508 | Around the swtch of sched the CPU holds the lock of the process it leaves and no other |
| SchedProofs.SwitchOutIs | xv6-riscv/kernel/proc.c:490-508 | sched leaves the process's stack for the scheduler context that entered it, and takes its lock along |
| SchedProofs.SwitchInIs | xv6-riscv/kernel/proc.c:444-481 | The scheduler enters only a stack that no CPU is on |
| SchedProofs.LoopIs | xv6-riscv/kernel/proc.c:444-481 | The scheduler loop touches a process only while it holds its lock |
| SchedProofs.LoopStepKeeps | xv6-riscv/kernel/proc.c:444-508 | A step of the scheduler or a context switch within those limits keeps the scheduling invariant |
| SchedProofs.SchedInvKept | xv6-riscv/kernel/proc.c:110-592 | Every step keeps: each lock is held by exactly the CPU whose code holds it, no two CPUs share a kernel stack, and each new table entry has one maker |
| SchedProofs.InitInv | xv6-riscv/kernel/proc.c:48-63 | The state at boot, any processes being unused or runnable, satisfies the scheduling invariant |
| SchedProofs.RunSchedInv | xv6-riscv/kernel/proc.c:110-616 | Every state of every run satisfies it, for any number of CPUs, processes, locks and channels |
| SchedProofs.OneCpuPerStack | xv6-riscv/kernel/proc.c:110-592 | In every run, in which processes exit, are freed and have their entries and stacks taken again: a CPU on a kernel stack sees that process RUNNING or holds its lock, and is the only CPU there |
| SchedProofs.FreedOffStack | xv6-riscv/kernel/proc.c:400-420 | When wait is about to free a zombie, or allocproc to take an unused entry, it holds that lock and no CPU is on that kernel stack or about to enter it |
| SchedProofs.SchedNeverPanics | xv6-riscv/kernel/proc.c:490-508 | In every run sched is entered with p->lock held by this CPU, no other process lock and no other spin-lock held by it, and p not RUNNING |
| SleepProofs.InvKept | xv6-riscv/kernel/proc.c:444-592 | Every step keeps: while a process holds a channel's lock, nobody whom its wakeup on that channel has passed in this section is asleep on the channel or about to be |
| SleepProofs.InitInv | xv6-riscv/kernel/proc.c:444-481 | The state at boot satisfies the invariant |
| SleepProofs.RunInv | xv6-riscv/kernel/proc.c:444-592 | Every state of every run satisfies that invariant |
| SleepProofs.OneHolder | xv6-riscv/kernel/proc.c:547-592 | A lock that guards channels has one holder: sections of one lock exclude each other |
| SleepProofs.WakeStepKeeps | xv6-riscv/kernel/proc.c:547-592 | A step that puts a process to sleep only under its channel's lock keeps that invariant |
| SleepProofs.WakeEndClears | xv6-riscv/kernel/proc.c:578-592 | When wakeup has gone through the table nobody is asleep on the channel or about to be |
| SleepProofs.NoLostWakeup | xv6-riscv/kernel/proc.c:547-592 | For any channel and the lock that guards it, over whole runs: if a process has let go of the lock in its n-th call of sleep, then from the end of any later wakeup on that channel on it is not asleep from that call, nor about to be |
| SleepProofs.WokenStaysUp | xv6-riscv/kernel/proc.c:547-574 | Over whole runs, a call of sleep that has been woken does not go back to sleep |
| SleepProofs.ReasonInvKept | xv6-riscv/kernel/proc.c:547-592 | A step of clients that wake a channel in the section in which they end its sleepers' reason keeps: sleepers have a reason whenever the lock is free |
| SleepProofs.SleepersHaveReason | xv6-riscv/kernel/proc.c:547-592 | In every run of such clients, while the lock of a channel is free, whoever is asleep on it or about to be has reason to be |
| SchedCalls.KilledExactly | xv6-riscv/kernel/proc.c:597-624 | In every run a process is marked killed if and only if a kill has found its entry and the entry has not been freed since |
| SchedCalls.FreesExactly | xv6-riscv/kernel/proc.c:400-420 | In every run the step of wait that has found a zombie, and could copy its status, frees its entry, and nothing else frees one but a fork that finds no memory |
| SchedCalls.SleepEndsExactly | xv6-riscv/kernel/proc.c:547-616 | In every run a sleeping process becomes RUNNABLE in exactly the steps in which a wakeup on its channel, or a kill, comes to it |
| SchedCalls.ChannelsExact | xv6-riscv/kernel/proc.c:547-574 | In every run a process has a channel if and only if it is inside sleep, and then the one it was called with |
| SchedCalls.NewHasMaker | xv6-riscv/kernel/proc.c:110-150 | In every run an entry that is USED is being made by exactly one process |
| SchedCalls.ProcExact | xv6-riscv/kernel/proc.c:444-481 | In every run each CPU has for current process the one it is on, and goes through the process table entry by entry, round and round |
| SchedProgress.InsideExactly | xv6-riscv/kernel/proc.c:547-574 | A thread is inside sleep on a channel if and only if it has called it and has not taken the channel's lock again |
| SchedProgress.TakesExactly | xv6-riscv/kernel/proc.c:114-126 | allocproc takes the entry it looks at if and only if it is unused |
| SchedProgress.CallsEnd | xv6-riscv/kernel/proc.c:110-616 | In every run a thread in the middle of sleep, wakeup, yield, kill, or a section of a process lock in fork, exit or wait, gets out of there in a bounded number of its own steps, at most three for each process that wakeup looks at, whatever the others do |
| SchedProgress.NoDeadlock | xv6-riscv/kernel/proc.c:444-616 | Locks of processes are taken last, so CPUs never wait for each other in a circle: a CPU in its scheduler or in the middle of one of these calls, or the holder of the lock it needs, or the holder of the lock that one needs, has a step to take |
| SleepLocks.SleepLocksKept | xv6-riscv/kernel/sleeplock.c:21-41 | acquiresleep and releasesleep, and anything else that goes on beside them, keep the sleep-lock invariant and the discipline that SleepersHaveReason asks for |
| SleepLocks.CourseInv | xv6-riscv/kernel/sleeplock.c:21-41 | Every state of every course of sleep-lock users satisfies the invariant |
| SleepLocks.MutualExclusion | xv6-riscv/kernel/sleeplock.c:21-41 | A sleep-lock never has two holders, and its locked and pid fields name the one it has |
| SleepLocks.NoSleeperOnFreeLock | xv6-riscv/kernel/sleeplock.c:21-41 | When the inner lock is free, a sleep-lock that somebody sleeps on is taken |
| SleepLockCalls.HeldExactly | xv6-riscv/kernel/sleeplock.c:21-41 | A process holds a sleep-lock if and only if it has left acquiresleep with it and has not cleared it in releasesleep since |
| SleepLockCalls.WordExact | xv6-riscv/kernel/sleeplock.c:21-41 | The locked and pid fields say that p has the sleep-lock if and only if p holds it or is about to leave acquiresleep with it; they say that nobody has it if and only if nobody does |
| SleepLockCalls.GoesOn | xv6-riscv/kernel/sleeplock.c:21-41 | A process in the middle of acquiresleep or releasesleep, in its section and in no call of sleep or wakeup, has a step of that function to take |
| ExitWaitProofs.ForkNextKeeps | xv6-riscv/kernel/proc.c:279-326 | Every step of fork, allocproc, freeproc on failure and kill keeps the invariant |
| ExitWaitProofs.ExitNextKeeps | xv6-riscv/kernel/proc.c:330-386 | Every step of exit and reparent, wakeup and the scheduler's release of the lock after the last swtch included, keeps the invariant |
| ExitWaitProofs.WaitNextKeeps | xv6-riscv/kernel/proc.c:390-435 | Every step of wait and of its sleep keeps the invariant |
| ExitWaitTheorems.StepKeeps | xv6-riscv/kernel/proc.c:279-435 | Every step of every process keeps the invariant |
| ExitWaitTheorems.InitInv | xv6-riscv/kernel/proc.c:232-255 | The state with only init satisfies the invariant |
| ExitWaitTheorems.RunInv | xv6-riscv/kernel/proc.c:279-435 | Every state of every run satisfies the invariant |
| ExitWaitTheorems.RootIsInit | xv6-riscv/kernel/proc.c:330-341 | Following parents from any started process ends at init |
| ExitWaitTheorems.FamilyTree | xv6-riscv/kernel/proc.c:330-386 | When wait_lock is free, started processes form one tree under init, each with a live parent |
| ExitWaitTheorems.ZombieHasNoChildren | xv6-riscv/kernel/proc.c:330-386 | When wait_lock is free, a zombie has no children |
| ExitWaitTheorems.NoParentSleepsOnZombie | xv6-riscv/kernel/proc.c:346-435 | When wait_lock is free, no process sleeps in wait with a zombie child, though exit wakes the parent before it sets ZOMBIE |
| ExitWaitTheorems.FreedIsGone | xv6-riscv/kernel/proc.c:404-420 | wait frees only its own zombie child, and only after that child has left its kernel stack and the scheduler has released its lock |
| ExitWaitTheorems.StatusIsExits | xv6-riscv/kernel/proc.c:346-435 | Every status a wait returns is the one recorded when that process became a zombie |
| ExitWaitTheorems.StatusReapedOnce | xv6-riscv/kernel/proc.c:390-435 | No two waits return the status of the same process |
| ExitWaitTheorems.StatusesStay | xv6-riscv/kernel/proc.c:346-386 | A recorded exit status is never overwritten in the rest of the run |
| ExitWaitTheorems.WaitGivesUp | xv6-riscv/kernel/proc.c:426-430 | After a scan of the whole table wait returns without having been killed only if the caller has no children |
| ExitWaitCalls.StatusIsPassedToExit | xv6-riscv/kernel/proc.c:346-435 | For every status a wait has returned there is an earlier call of exit, by the process with that pid, with exactly that status |
| ExitWaitCalls.ParentIsForker | xv6-riscv/kernel/proc.c:279-386 | The parent of a process is the one that forked it, or init if that one has called exit since |
| ExitWaitCalls.WaitEndsExactly | xv6-riscv/kernel/proc.c:426-433 | After a scan of the whole table wait gives up if and only if the caller was killed or has no children; else it goes to sleep |
| ExitWaitCalls.KilledExactly | xv6-riscv/kernel/proc.c:597-616 | An entry is marked killed if and only if kill has hit it and it has not been freed since |
| ExitWaitCalls.KillWakes | xv6-riscv/kernel/proc.c:597-616 | After a kill its process is marked and not asleep, and in the same state as before if it was not |
| ExitWaitCalls.BornKilled | xv6-riscv/kernel/proc.c:110-150 | A run in which kill(0) marks an unused entry and the process that fork makes of it starts killed, since allocproc does not clear the mark |
| ExitWaitCalls.ChannelsExact | xv6-riscv/kernel/proc.c:426-433 | A process has a channel if and only if it is asleep in wait, or woken and not yet back: its own entry |
| ExitWaitProgress.LocksExact | xv6-riscv/kernel/proc.c:279-435 | wait_lock and every p->lock are held by exactly the process that is in a section of theirs |
| ExitWaitProgress.FreshStatus | xv6-riscv/kernel/proc.c:152-172 | A process that has not exited has exit status 0 in its entry: freeproc leaves none behind |
| ExitWaitProgress.NoDeadlock | xv6-riscv/kernel/proc.c:23-27 | wait_lock is taken before any p->lock, so nobody waits in a circle: whoever is in the middle of fork, exit or wait and not asleep, or the holder of a lock it needs, or the holder of one that one needs, has a step to take |
| ExitWaitProgress.SectionsEnd | xv6-riscv/kernel/proc.c:330-435 | Whoever keeps wait_lock takes at most a number of steps meanwhile that the size of the process table bounds, whatever the others do |
| ExitWaitProgress.SleepsExactly | xv6-riscv/kernel/proc.c:330-435 | A process is asleep if and only if it went to sleep in wait, and since then no kill, no wakeup by a child that exits and, for init, none by one that leaves it children has come to it |
| ExitWaitProgress.NoStatusLost | xv6-riscv/kernel/proc.c:346-435 | What a process passes to exit is in its entry, under its pid, until a wait has returned it |
| Heap.ListInsert | xv6-riscv/user/umalloc.c:24-44 | Linking a block between its neighbours keeps the list one address-ordered cycle |
| Heap.ListRemove | xv6-riscv/user/umalloc.c:63-90 | Unlinking the block after p keeps the list one address-ordered cycle |
| Heap.MergeTiled | xv6-riscv/user/umalloc.c:33-42 | Joining two adjacent blocks keeps every unit in exactly one block |
| Heap.InsertKeeps | xv6-riscv/user/umalloc.c:24-44 | Freeing keeps the heap invariant: ordered cycle, disjoint blocks, no two free blocks adjacent, every unit from sbrk in one block |
| Heap.InsertEffect | xv6-riscv/user/umalloc.c:24-44 | Freeing leaves all other allocations as they were, some free block covers the freed units, and no size overflows |
| Heap.TakeKeeps | xv6-riscv/user/umalloc.c:74-77 | Taking a whole free block keeps the heap invariant |
| Heap.SplitKeeps | xv6-riscv/user/umalloc.c:75-82 | Cutting the tail off a free block keeps the heap invariant |
| Heap.GrowKeeps | xv6-riscv/user/umalloc.c:46-61 | New units from sbrk keep the heap invariant |
| Heap.UnitsConserved | xv6-riscv/user/umalloc.c:24-90 | Free units plus allocated units equal the units obtained from sbrk |
| Umalloc.RequestFits | xv6-riscv/user/umalloc.c:63-69 | The rounded request holds the asked bytes with less than a unit to spare |
| Umalloc.CoreRequestExact | xv6-riscv/user/umalloc.c:52-53 | morecore asks for the fewest units that are both enough and at least 4096 |
| Umalloc.SbrkArgument | xv6-riscv/user/umalloc.c:46-61 | sbrk's int argument equals the bytes booked if and only if the request is at most 0x7fffffe0 bytes |
| Umalloc.SbrkArgumentWraps | xv6-riscv/user/umalloc.c:46-61 | A request of 0xfffffff0 bytes makes morecore ask sbrk for nothing and book 2^28 units |
| Umalloc.NextIsCloser | xv6-riscv/user/umalloc.c:30-32 | Each step along the list comes closer to its target: both search loops terminate |
| Umalloc.ListIsOneCycle | xv6-riscv/user/umalloc.c:24-44 | The list leads from any free block to any other |
| Umalloc.InsertWrites | xv6-riscv/user/umalloc.c:33-43 | The header fields free writes, in 32 bits, give exactly the list with the block inserted and merged |
| Umalloc.Arena.constructor | xv6-riscv/user/umalloc.c:21-22 | The empty arena satisfies the heap invariant |
| Umalloc.Arena.FindPlace | xv6-riscv/user/umalloc.c:29-32 | The loop of free ends at the block after which the freed one belongs |
| Umalloc.Arena.Relink | xv6-riscv/user/umalloc.c:33-43 | The header writes give the list with the block inserted and merged with what it touches |
| Umalloc.Arena.Free | xv6-riscv/user/umalloc.c:24-44 | Exactly the block is no longer live, all other allocations keep their sizes, and a free block covers its units |
| Umalloc.Arena.Morecore | xv6-riscv/user/umalloc.c:46-61 | Fails exactly when sbrk does; else exactly the new units join the heap and a free block is large enough |
| Umalloc.Arena.Carve | xv6-riscv/user/umalloc.c:75-85 | The new allocation is n units at the end of the free block, or all of it, and no other allocation changes |
| Umalloc.Arena.Search | xv6-riscv/user/umalloc.c:74-90 | Succeeds if and only if some free block fits or sbrk succeeds, which is called only if none fits |
| Umalloc.Arena.Malloc | xv6-riscv/user/umalloc.c:63-90 | For any request: succeeds if and only if some free block fits or sbrk does; the result is a new block of exactly the requested units, and all others stay |
| FsImage.ByteOfExact | xv6-riscv/kernel/fs.c:72-76 | Byte and bit of the free map for a block number, block by block, are the bits in order |
| FsImage.MarkOne | xv6-riscv/kernel/fs.c:75-77 | Setting or clearing a bit of the free map changes that block and no other |
| FsImage.WordSet | xv6-riscv/kernel/fs.c:407-414 | Storing entry i of an indirect block reads back, and leaves every other entry |
| FsState.EmptyImage | xv6-riscv/kernel/fs.h:8-25 | An image whose metadata is marked and whose inodes are empty satisfies the invariant |
| FsState.PutLoc | xv6-riscv/kernel/fs.c:382-421 | A block that bmap adds becomes that one position of that one inode |
| FsState.Placed | xv6-riscv/kernel/fs.c:382-421 | A newly claimed block at an empty position keeps the ownership and no-hole invariants and everything that was there |
| FsState.WriteOwned | xv6-riscv/kernel/fs.c:505-539 | Overwriting a data block changes no ownership |
| FsState.DropFrees | xv6-riscv/kernel/fs.c:425-453 | Every block itrunc comes to is allocated and owned by that position: bfree cannot find it free |
| FsState.DropOwned | xv6-riscv/kernel/fs.c:425-453 | After each freed block, ownership and free map agree again |
| FsState.FreedExactly | xv6-riscv/kernel/fs.c:425-453 | The free map loses exactly the truncated inode's blocks |
| FsCode.Fs.Claimed | xv6-riscv/kernel/fs.c:75-81 | The bit is set, the block zeroed, and the free-map block and the block logged |
| FsCode.InodeAt | xv6-riscv/kernel/fs.h:41-45 | Inodes lie in the inode area 64 bytes apart: IBLOCK and the index in it give exactly the block that holds those bytes, and no other block does |
| FsCode.MapBitAt | xv6-riscv/kernel/fs.h:47-51 | BBLOCK and the bit in it count the bits of the free map in order |
| FsCode.Fs.BAlloc | xv6-riscv/kernel/fs.c:65-88 | The lowest free block, marked and zeroed; 0 if and only if none is free, and then nothing changes |
| FsCode.Fs.BFree | xv6-riscv/kernel/fs.c:91-105 | Panics exactly when the block is free; else clears its bit and no other |
| FsCode.Fs.BMapSlot | xv6-riscv/kernel/fs.c:388-406 | The direct or indirect block address, allocated if missing, with at most one free-map block logged for it |
| FsCode.Fs.BMapEntry | xv6-riscv/kernel/fs.c:407-417 | The entry of the indirect block, allocated if missing |
| FsCode.Fs.BMap | xv6-riscv/kernel/fs.c:382-421 | The address of the file block, 0 only if the disk is full; changes nothing if it was there; keeps everything else, logs every block and free-map block that changes, and at most one free-map block per block allocated |
| FsCode.Fs.DropBlock | xv6-riscv/kernel/fs.c:425-453 | One block of the inode is freed: bfree does not panic, and other inodes are untouched |
| FsCode.Fs.TruncDirect | xv6-riscv/kernel/fs.c:432-437 | All direct blocks are freed |
| FsCode.Fs.TruncIndirect | xv6-riscv/kernel/fs.c:439-449 | The blocks listed in the indirect block and the indirect block itself are freed |
| FsCode.Fs.ITrunc | xv6-riscv/kernel/fs.c:425-453 | Frees exactly the inode's blocks, once each; size 0; other inodes and the invariant are kept; every inode that changed lies, by byte address, in a block that was logged |
| FsFile.ProgressWrite | xv6-riscv/kernel/fs.c:516-528 | A block written after the bytes so far is the file's next stretch of bytes |
| FsFile.Finish | xv6-riscv/kernel/fs.c:530-536 | Blocks written, then the size set to what counts: the file is its old bytes overwritten and extended, without the bytes past the old end that do not count; every other file is unchanged |
| FsFile.ChunkFits | xv6-riscv/kernel/file.c:149-156 | A chunk of at most ((MAXOPBLOCKS-4)/2)*BSIZE bytes, at any offset, has a budget of at most MAXOPBLOCKS blocks |
| FsFile.TouchedExact | xv6-riscv/kernel/fs.c:516-521 | The blocks that a budget counts are exactly those that hold one of the bytes |
| FsFile.TallyFits | xv6-riscv/kernel/fs.c:505-539 | Data blocks, free-map blocks, indirect block and inode block together are within the budget |
| FsWrite.WriteBlock | xv6-riscv/kernel/fs.c:516-528 | One round of writei: the block is found or allocated and gets what can be read of its bytes, and is logged if and only if that is all of them |
| FsWrite.WriteLoop | xv6-riscv/kernel/fs.c:516-528 | The loop ends after all bytes, at the block where the readable bytes end, or where there is no block and the disk is full |
| FsWrite.WriteI | xv6-riscv/kernel/fs.c:505-539 | -1 if and only if the range is bad; else how many bytes count and how many more are in the block where a copy failed is a function of the offset, the length and the readable bytes, unless the disk is full; the file is exactly that; other files are unchanged, no file loses a block, all changed blocks but that one are logged, the block of the inode by its byte address among them, and that one needs to be if and only if it is neither new nor logged already nor unchanged; the blocks logged are within the budget |
| FsWrite.WholeExactly | xv6-riscv/kernel/fs.c:516-528 | Bytes get into a block without counting if and only if the first unreadable one lies inside a block |
| FsWrite.TornOld | xv6-riscv/kernel/fs.c:522-525 | After a failed copy into a block that was there, everything is recorded if and only if the block was logged before or holds these bytes already |
| FsWrite.PlainExactly | xv6-riscv/kernel/fs.c:516-539 | The file is overwritten by just the bytes that count if and only if the others do not show in it |
| FsWrite.PlainForAll | xv6-riscv/kernel/fs.c:516-539 | That is so for all files of a size and all source bytes if and only if the first unreadable byte lies at a block boundary, or its block past the end of the file |
| FsWrite.Recycled | xv6-riscv/kernel/fs.c:522-525 | When the buffer of the failed copy is recycled, the file is overwritten by just the bytes that count |
| FsFile.SliceOf | xv6-riscv/kernel/fs.c:471-496 | The bytes of a file inside one block are a slice of an allocated block |
| FsFile.ReadBlock | xv6-riscv/kernel/fs.c:482-494 | One round of readi: the slice of the file, and nothing changes |
| FsFile.ReadLoop | xv6-riscv/kernel/fs.c:482-494 | The slices in order, as far as the destination can be written; -1 if and only if that is not all |
| FsFile.ReadI | xv6-riscv/kernel/fs.c:471-496 | The slice of the file, cut at its end; -1 if and only if the destination cannot be written that far, and then what arrives is the part that can; no state changes and nothing is logged, so bmap never allocates |
| FsChunks.WriteChunk | xv6-riscv/kernel/file.c:157-173 | One transaction: the file is extended by what was written and at most MAXOPBLOCKS distinct blocks are logged |
| FsChunks.FileWrite | xv6-riscv/kernel/file.c:134-181 | How many bytes are written, and how many more are in the block where a copy failed, is a function of offset, length and readable bytes, unless the disk or the largest file is full; the file is exactly that, the offset advances by what counts, the result is n if and only if all does; every transaction logs at most MAXOPBLOCKS blocks, and all that it changes, inodes by byte address included, but for the block where a copy failed |
| FsChunks.FileWholeExactly | xv6-riscv/kernel/file.c:157-173 | Bytes get into a block without counting if and only if the first unreadable one lies inside a block and inside a chunk |
| FsChunks.WholeFiled | xv6-riscv/kernel/file.c:134-181 | If not, the file is overwritten by just the bytes that count, and every transaction logs all that it changes |
| FsTight.WorstImage | xv6-riscv/kernel/file.c:149-156 | A file system image that satisfies the invariant, with one free block per free-map block and a file that ends in its last direct block |
| FsTight.TenBlocks | xv6-riscv/kernel/file.c:149-156 | Whatever wrote a chunk of non-zero bytes at the end of that file has logged at least MAXOPBLOCKS blocks |
| FsTight.TightWrite | xv6-riscv/kernel/file.c:149-173 | writei of one chunk to that file writes all of it and logs exactly MAXOPBLOCKS blocks: the chunk size of filewrite is tight |
| FsTight.TornWrite | xv6-riscv/kernel/fs.c:505-539 | Overwriting a block of that file from a source with 100 readable bytes returns 0, and yet changes the file and logs nothing of that |
| PageTable.LocAfter | xv6-riscv/kernel/vm.c:85-103 | Changing one entry of one table moves the node below it and no other, in any page table |
| PageTable.PagesConserved | xv6-riscv/kernel/kalloc.c:33-82 | The free list, the pages of page tables and user memory, and pages in other hands partition the managed pages, and their numbers add up |
| PageTable.PopInv | xv6-riscv/kernel/kalloc.c:68-82 | Taking a page off the free list keeps the invariant and every translation |
| PageTable.PushInv | xv6-riscv/kernel/kalloc.c:46-63 | Giving a page back keeps the invariant and every translation |
| PageTable.AttachInv | xv6-riscv/kernel/vm.c:161-165 | A new entry keeps the invariant and changes that one node |
| PageTable.DetachInv | xv6-riscv/kernel/vm.c:186-198 | Clearing an entry keeps the invariant and changes that one node |
| PageTable.BuryInv | xv6-riscv/kernel/vm.c:278-294 | Freeing an emptied table keeps the invariant but for the entry that still lists it |
| PageTable.ClearInv | xv6-riscv/kernel/vm.c:284-289 | Clearing that entry restores the invariant |
| PageMap.GrowQuiet | xv6-riscv/kernel/vm.c:92-100 | A new empty table changes no translation |
| PageMap.LeafMap | xv6-riscv/kernel/vm.c:143-172 | An entry of a last-level table is the translation of that one page |
| PageMap.AttachEdit | xv6-riscv/kernel/vm.c:143-172 | Mapping a page is one update of the flat map and leaves every other user page and address space |
| PageMap.DetachEdit | xv6-riscv/kernel/vm.c:177-199 | Unmapping a page is one removal from the flat map |
| VmCode.Vm.constructor | xv6-riscv/kernel/kalloc.c:26-40 | After kinit every managed page is on the free list and the invariant holds |
| VmCode.Vm.Kalloc | xv6-riscv/kernel/kalloc.c:68-82 | 0 if and only if the free list is empty; else its first page, filled with junk |
| VmCode.Vm.Walk | xv6-riscv/kernel/vm.c:85-103 | The table for the page, or 0; no translation changes, and with alloc it fails only when memory is used up |
| VmCode.Vm.Grow | xv6-riscv/kernel/vm.c:95-100 | A missing table is made from a free page, changing no translation |
| VmCode.Vm.MapOne | xv6-riscv/kernel/vm.c:161-165 | One page is mapped as asked and nothing else changes, or memory is used up and no translation changes |
| VmUser.MappingNext | xv6-riscv/kernel/vm.c:160-170 | One more page of the range: all earlier ones stay mapped as asked |
| VmUser.MapPages | xv6-riscv/kernel/vm.c:143-172 | The pages of the range map to consecutive physical pages with the permissions asked; on failure a prefix does, and memory was used up |
| VmUser.UnmapOne | xv6-riscv/kernel/vm.c:186-198 | One page is removed, and freed if asked |
| VmUser.Unmap | xv6-riscv/kernel/vm.c:177-199 | Exactly the pages of the range are removed; nothing else changes |
| VmProc.EditUndone | xv6-riscv/kernel/vm.c:232-256 | A change that left its range as empty as it was is no change of the flat map or of user memory |
| VmProc.PagesUpExact | xv6-riscv/kernel/riscv.h:353-354 | The pages below PGROUNDUP(sz) are those that begin below byte sz |
| VmProc.Dealloc | xv6-riscv/kernel/vm.c:262-274 | By byte addresses: exactly the pages that begin at or above the new size and below the old are gone, and every byte below the new size, all other pages and other address spaces are as before |
| VmProc.AllocOne | xv6-riscv/kernel/vm.c:242-254 | One more page filled and mapped, or the page given back; it fails only with fewer than three free pages |
| VmProc.RolledBack | xv6-riscv/kernel/vm.c:232-256 | After the roll-back the flat map, all user memory and all pages in other hands are as before |
| VmProc.Alloc | xv6-riscv/kernel/vm.c:232-256 | By byte addresses: every byte in a page that begins between the old size and the new reads 0 with the permissions asked, every byte below the old size and everything else is as before; on failure nothing is changed, and there were fewer than three free pages per page asked |
| VmProc.GrownUsable | xv6-riscv/kernel/vm.c:232-256 | After that every byte below the new size can be read by the user, if all below the old size could |
| VmProc.CopySpace | xv6-riscv/kernel/vm.c:312-340 | Every byte in a page that begins below the size reads the same in the target, with the same permissions and from another physical page; on failure nothing is changed, and there were fewer than three free pages per page |
| VmFree.Create | xv6-riscv/kernel/vm.c:203-212 | A root that maps nothing; 0 if and only if no page is free |
| VmFree.FreeWalk | xv6-riscv/kernel/vm.c:278-294 | The table and all tables below it go to the free list, once each; freewalk meets no leaf |
| VmFree.PrunedMap | xv6-riscv/kernel/vm.c:278-304 | All other page tables translate as before |
| VmFree.Free | xv6-riscv/kernel/vm.c:298-304 | Every page of the address space, interior tables included, is on the free list; other address spaces are untouched |
| VmCopy.StorePage | xv6-riscv/kernel/vm.c:358-383 | Bytes put into one physical page are bytes put at those addresses of the flat address space and at no others |
| VmCopy.OutPage | xv6-riscv/kernel/vm.c:364-381 | One round of copyout: succeeds if and only if the page is the user's to write |
| VmCopy.CopyOut | xv6-riscv/kernel/vm.c:358-383 | Stores exactly the bytes across page boundaries; all of them if and only if every page is the user's to write, else those before the first bad page |
| VmCopy.ReadOnlyStays | xv6-riscv/kernel/vm.c:364-381 | copyout changes no byte of another address space, nor one whose page is not mapped, not the user's or not writable |
| VmCopy.WalkAddr | xv6-riscv/kernel/vm.c:108-126 | The physical page if and only if the page is mapped for the user |
| VmCopy.CopyIn | xv6-riscv/kernel/vm.c:388-408 | Exactly the bytes the flat map denotes, up to the first page that is not the user's; fails if and only if there is one in the range |
| VmCopy.ReadableBits | xv6-riscv/kernel/vm.c:388-408 | The bytes copyin gets are those before the first whose entry lacks the valid or the user bit |
| VmCopy.ReadableWithin | xv6-riscv/kernel/vm.c:388-408 | How many bytes of a range copyin gets decides how many it gets of any part of it, copied on its own |
| VmCopy.RoundTrip | xv6-riscv/kernel/vm.c:358-408 | What copyout stored, copyin reads back |
| VmCopy.CopyUntilZero | xv6-riscv/kernel/vm.c:429-442 | The bytes of one page up to the first zero, at most n |
| VmCopy.CopyInStr | xv6-riscv/kernel/vm.c:414-451 | The string up to its first zero, all on the user's pages; fails only if no zero comes within max bytes or before an unusable page |
| Bio.LinksInverse | xv6-riscv/kernel/bio.c:36-53 | prev undoes next, all round the ring |
| Bio.RingReachesAll | xv6-riscv/kernel/bio.c:36-53 | Every buffer is reached from the head: the ring is a permutation of the NBUF buffers |
| Bio.MoveKeeps | xv6-riscv/kernel/bio.c:126-134 | Moving a buffer to the front keeps the ring |
| Bio.InsertKeeps | xv6-riscv/kernel/bio.c:44-52 | Each round of binit keeps the ring |
| Bio.BufCache.constructor | xv6-riscv/kernel/bio.c:36-53 | binit makes a ring of all buffers, none referenced or valid |
| Bio.BufCache.Lookup | xv6-riscv/kernel/bio.c:65-73 | Finds the buffer of the block if and only if there is one |
| Bio.BufCache.Victim | xv6-riscv/kernel/bio.c:75-87 | The least recently released buffer with refcnt 0; none if and only if all are referenced |
| Bio.BufCache.Get | xv6-riscv/kernel/bio.c:58-89 | The cached buffer, or the least recently used unreferenced one made invalid for the block; panics if and only if neither exists; at most one buffer per block |
| Bio.BufCache.Put | xv6-riscv/kernel/bio.c:116-137 | One reference less; a buffer nobody refers to becomes the most recently used |
| BioProtocol.StepKeeps | xv6-riscv/kernel/bio.c:58-151 | Every step of any number of concurrent users keeps the invariant |
| BioProtocol.RunInv | xv6-riscv/kernel/bio.c:58-151 | Every state of every run satisfies the invariant |
| BioProtocol.CacheAgreesWithDisk | xv6-riscv/kernel/bio.c:58-151 | At most one buffer holds a block, and a valid buffer that is neither pinned nor locked nor torn equals its disk block |
| BioProtocol.TornBuffer | xv6-riscv/kernel/fs.c:522-525 | A run that ends with a valid buffer nobody uses or pins and that differs from its disk block |
| BioProtocol.OneHolder | xv6-riscv/kernel/bio.c:92-103 | Two users never hold the same block at once |
| BioProtocol.PinnedStays | xv6-riscv/kernel/log.c:225-233 | While a buffer stays pinned it keeps its block and its valid contents: it is not evicted between log_write and its installation |
| BioTheorems.Transparent | xv6-riscv/kernel/bio.c:58-151 | What a block holds, as anybody who asks the cache can tell, changes in a step by exactly what its holder puts into it, but for a torn buffer that is recycled |
| BioTheorems.HolderSees | xv6-riscv/kernel/bio.c:92-103 | In every run, whoever holds a block finds in it what was last put there, by anybody, or what the disk held at the start, recycled torn buffers aside |
| BioTheorems.HoldsWhatItAsked | xv6-riscv/kernel/bio.c:58-137 | From bget to the end of brelse a call has a buffer of the block it asked for |
| BioTheorems.TornExactly | xv6-riscv/kernel/bio.c:116-137 | A buffer is torn if and only if somebody gave it back changed, with neither a write nor a pin, and it has been neither written nor recycled since |
| BioTheorems.PinsExactly | xv6-riscv/kernel/bio.c:139-151 | A buffer has exactly the pins that bpin gave it and bunpin has not taken back, and refcnt is these and the calls in progress |
| BioTheorems.LockExact | xv6-riscv/kernel/bio.c:92-137 | The sleep-lock of a buffer is held by exactly the call that is inside it |
| BioTheorems.GoesOn | xv6-riscv/kernel/bio.c:58-137 | A call of bread or brelse whose next lock is free has a step to take |
| BioTheorems.Closer | xv6-riscv/kernel/bio.c:58-137 | Every step of a call of bread or brelse brings it closer to returning, and nobody else moves it |
| Pipe.CountersExact | xv6-riscv/kernel/pipe.c:76-130 | The wrapped 32-bit counters tell empty and full exactly, and give the right slot |
| Pipe.PushFifo | xv6-riscv/kernel/pipe.c:88-97 | Storing a byte keeps the order of everything buffered |
| Pipe.PopFifo | xv6-riscv/kernel/pipe.c:120-126 | Taking a byte keeps the order of everything buffered |
| Pipe.WriteKeeps | xv6-riscv/kernel/pipe.c:76-103 | Every step of pipewrite keeps the invariant |
| Pipe.ReadKeeps | xv6-riscv/kernel/pipe.c:105-130 | Every step of piperead keeps the invariant |
| Pipe.TellKeeps | xv6-riscv/kernel/pipe.c:58-130 | Every process that a wakeup of pipewrite, piperead or pipeclose passes keeps the invariant |
| Pipe.OtherKeeps | xv6-riscv/kernel/pipe.c:58-74 | pipeclose and kill keep the invariant |
| Pipe.RunInv | xv6-riscv/kernel/pipe.c:58-130 | Every state of every run satisfies the invariant |
| Pipe.FifoAlways | xv6-riscv/kernel/pipe.c:76-130 | In every run, bytes out followed by bytes buffered are the bytes in, and at most PIPESIZE are buffered |
| Pipe.WriterAsleepMeansFull | xv6-riscv/kernel/pipe.c:76-130 | When the lock is free, a writer asleep in pipewrite means the pipe is full and its read end open |
| PipeCalls.WriteDelivers | xv6-riscv/kernel/pipe.c:76-103 | The bytes that the steps of one call of pipewrite have put into the pipe are, in order, the first i bytes it was given, where i is how far it is and what it returns |
| PipeCalls.WriteIsWhole | xv6-riscv/kernel/pipe.c:76-103 | If no copy fails, a call that comes to its end has put in all of its bytes |
| PipeCalls.ReadTakes | xv6-riscv/kernel/pipe.c:105-130 | The steps of one call of piperead take at most n bytes out, as many as it returns; one more, which is lost, if and only if copying it to the user failed |
| PipeCalls.LostByte | xv6-riscv/kernel/pipe.c:120-126 | A run in which the only byte of the pipe is taken out by a piperead that returns 0, since its copy to the user fails |
| PipeCalls.ReadEnds | xv6-riscv/kernel/pipe.c:113-126 | piperead ends short only when the pipe is empty, and with nothing only when the write end is closed as well |
| PipeCalls.WriteGivesUp | xv6-riscv/kernel/pipe.c:83-87 | pipewrite returns -1 only with bytes left to write, when the read end is closed or its process killed; when the read end is closed it does |
| PipeCalls.ReadGivesUp | xv6-riscv/kernel/pipe.c:113-119 | piperead returns -1 only for a killed process on an empty pipe that somebody may write, and goes on to copy if and only if there are bytes or no writer |
| PipeCalls.OpenExactly | xv6-riscv/kernel/pipe.c:58-74 | An end of the pipe is open if and only if no pipeclose has closed it |
| PipeProgress.LockExact | xv6-riscv/kernel/pipe.c:58-130 | The lock of the pipe is held by exactly the call that is in its section |
| PipeProgress.SleepsForMore | xv6-riscv/kernel/pipe.c:83-90 | A writer sleeps only with bytes left to write |
| PipeProgress.GoesOn | xv6-riscv/kernel/pipe.c:58-130 | Whoever holds the lock, or wants it while it is free, has a step to take |
| PipeProgress.SectionsEnd | xv6-riscv/kernel/pipe.c:58-130 | Whoever keeps the lock takes at most a number of steps meanwhile that the bytes asked for and the processes to wake bound, whatever the others do |
| PipeReaders.ReaderKept | xv6-riscv/kernel/pipe.c:58-130 | Every step keeps: a reader asleep has an empty pipe that somebody may write, or the lock holder has stored bytes or will wake it; but for a pipewrite that returns killed after storing bytes |
| PipeReaders.ReaderAsleepMeansEmpty | xv6-riscv/kernel/pipe.c:76-130 | In every run, when the lock is free, a reader asleep in piperead means that the pipe is empty and its write end open, if no pipewrite has returned killed after storing bytes since the reader was last awake |
| PipeReaders.StrandsExactly | xv6-riscv/kernel/pipe.c:83-87 | A pipewrite that gives up leaves such a reader asleep on a pipe that is not empty if and only if it has stored bytes since it got the lock |
| PipeReaders.StrandedReader | xv6-riscv/kernel/pipe.c:76-103 | A run in which a reader sleeps, a writer stores one of two bytes and is killed, and the reader sleeps on with a byte in the pipe |
| Virtio.IndicesClose | xv6-riscv/kernel/virtio_disk.c:294-327 | The 16-bit indices are never more than NUM apart across wrap-around, and are equal exactly when everything returned has been seen |
| Virtio.DescriptorsConserved | xv6-riscv/kernel/virtio_disk.c:156-213 | Free descriptors plus three per unreleased request are NUM |
| Virtio.BusyMeans | xv6-riscv/kernel/virtio_disk.c:215-292 | b->disk is set exactly while a request for b has not been seen done |
| Virtio.StatusMeans | xv6-riscv/kernel/virtio_disk.c:262-320 | The status byte of a request is 0 if and only if the device has returned it |
| Virtio.ChainsDisjoint | xv6-riscv/kernel/virtio_disk.c:215-292 | Two requests share no descriptor and no buffer |
| Virtio.SubmitInv | xv6-riscv/kernel/virtio_disk.c:215-292 | Publishing a chain keeps the invariant |
| Virtio.TakeInv | xv6-riscv/kernel/virtio_disk.c:271-281 | The device taking the next published head keeps the invariant |
| Virtio.CompleteInv | xv6-riscv/kernel/virtio_disk.c:309-314 | The device returning a head it took keeps the invariant |
| Virtio.SeeInv | xv6-riscv/kernel/virtio_disk.c:312-324 | The next used entry is a completed request whose recorded buffer is the one that asked; marking it done clears that buffer and no other |
| Virtio.ReleaseInv | xv6-riscv/kernel/virtio_disk.c:283-291 | Freeing a seen request keeps the invariant |
| VirtioCode.VirtioDisk.constructor | xv6-riscv/kernel/virtio_disk.c:120-146 | All descriptors free, nothing published |
| VirtioCode.VirtioDisk.AllocDesc | xv6-riscv/kernel/virtio_disk.c:156-166 | The lowest free descriptor, or -1 if and only if there is none |
| VirtioCode.VirtioDisk.Rollback | xv6-riscv/kernel/virtio_disk.c:206-209 | The free set is what it was before |
| VirtioCode.VirtioDisk.Alloc3 | xv6-riscv/kernel/virtio_disk.c:201-213 | Three distinct descriptors that were free, or, with fewer than three free, the same free set |
| VirtioCode.VirtioDisk.FreeChain | xv6-riscv/kernel/virtio_disk.c:185-197 | Frees exactly the three descriptors of the chain |
| VirtioCode.VirtioDisk.Start | xv6-riscv/kernel/virtio_disk.c:215-281 | One new published request for b, or fewer than three free descriptors and nothing changed |
| VirtioCode.VirtioDisk.InterruptOne | xv6-riscv/kernel/virtio_disk.c:312-324 | One returned request is marked done, its status is 0, and no other request changes |
| VirtioCode.VirtioDisk.Interrupt | xv6-riscv/kernel/virtio_disk.c:294-327 | Whatever the device takes and returns between the rounds, when the loop ends exactly the requests it has returned are marked done |
| VirtioCode.VirtioDisk.DeviceActs | xv6-riscv/kernel/virtio_disk.c:294-314 | Any moves of the device keep the invariant: requests move on, what was returned stays so, and none is marked done |
| VirtioCode.VirtioDisk.Finish | xv6-riscv/kernel/virtio_disk.c:283-292 | Woken with b->disk clear, the request has been seen, and exactly its chain is released |
| Shell.GetToken | xv6-riscv/user/sh.c:266-309 | A token is a maximal word or a symbol, inside the text and before the new cursor |
| Shell.WholeLine | xv6-riscv/user/sh.c:328-343 | parsecmd accepts a line if and only if parseline does and nothing but white space is left after what it parsed; the tree is parseline's |
| Shell.LineSpans | xv6-riscv/user/sh.c:345-447 | Every argument and file name of a parsed line is a whole word of the text |
| ShellTokens.ExecIsItsTokens | xv6-riscv/user/sh.c:416-447 | A simple command is its text token by token: the arguments are the words not after an arrow, in order, and the redirections are the arrows with the words after them, in order, wherever among the arguments they stand |
| ShellTokens.WrapOrder | xv6-riscv/user/sh.c:375-398 | The last redirection of the text is the outermost node of the tree |
| ShellGrammar.LineSound | xv6-riscv/user/sh.c:345-447 | What parseline accepts is a line of the grammar (words and redirections, blocks, pipelines, &, ;) over the tokens it has used, with that tree |
| ShellGrammar.LineComplete | xv6-riscv/user/sh.c:345-447 | Every stretch of tokens that the grammar derives for a tree, with the end of the text or a closing parenthesis after it, is what parseline takes, with that tree |
| ShellGrammar.ParsesExactly | xv6-riscv/user/sh.c:328-447 | parsecmd accepts a line with a tree if and only if the grammar derives its tokens for that tree: sound and complete, hence also unambiguous |
| ShellCode.GetTok | xv6-riscv/user/sh.c:266-309 | The loops of gettoken find the token the grammar says |
| ShellCode.PeekTok | xv6-riscv/user/sh.c:311-321 | peek moves past white space and tells whether one of the characters is next |
| ShellCode.RedirsLoop | xv6-riscv/user/sh.c:375-398 | The loop of parseredirs finds the redirections the grammar says, or panics with it |
| ShellCode.ArgsLoop | xv6-riscv/user/sh.c:416-447 | The loop of parseexec finds arguments and redirections the grammar says, or panics with it |
| ShellCode.ExecM | xv6-riscv/user/sh.c:416-447 | parseexec refines the grammar |
| ShellCode.BlockM | xv6-riscv/user/sh.c:400-414 | parseblock refines the grammar |
| ShellCode.PipeM | xv6-riscv/user/sh.c:362-373 | parsepipe refines the grammar |
| ShellCode.LineM | xv6-riscv/user/sh.c:345-360 | parseline refines the grammar; the mutual recursion terminates on the remaining text and a rank |
| ShellCode.NulTerminate | xv6-riscv/user/sh.c:450-494 | Zeros go exactly to the ends of the tokens; no other byte changes |
| ShellCode.TokensSurvive | xv6-riscv/user/sh.c:450-494 | No byte of any token is where a token ends |
| ShellCode.ParseCommand | xv6-riscv/user/sh.c:328-343 | After parsecmd each argument and file name is a C string in the buffer equal to its token |
| ShellPrint.TargetsParsed | xv6-riscv/user/sh.c:375-398 | Printed redirections parse back |
| ShellPrint.ArgsParsed | xv6-riscv/user/sh.c:416-447 | Printed arguments parse back |
| ShellPrint.ExecBack | xv6-riscv/user/sh.c:416-447 | A printed simple command or block parses back |
| ShellPrint.PipeBack | xv6-riscv/user/sh.c:362-373 | A printed pipeline parses back |
| ShellPrint.LineBack | xv6-riscv/user/sh.c:345-360 | A printed line parses back |
| ShellPrint.PrintThenParse | xv6-riscv/user/sh.c:328-447 | Printing any command tree with parentheses where precedence needs them and parsing the text gives the same tree |

## Left out

- Boot, trap entry, PLIC, UART, CSRs and assembly: hardware effects. `swtch` is a transfer of control, and spin-lock acquire and release are atomic steps with an owner; interrupts and memory ordering are not modelled.
- System calls, their arguments, `exec` and most of `sysfile.c`: wrappers over what is modelled.
- Directories, path names, link counts and the inode table (`iget`, `iput`, `ilock`): a law that link counts equal entries needs side conditions that the code does not keep by itself.
- printf, console, string helpers, and the user programs other than the shell's parser and malloc: easier members or I/O. `runcmd` is not modelled.
- Fairness: runs have no fairness condition, so nothing says that a process with a step to take takes it; that there is such a step, and how many are left, is proved.
- Log, block layer: a critical section of `log.lock` is one step, a block write is atomic, logged home blocks lie outside the log region, and the log has at least LOGSIZE blocks after its header. Clients modify a buffer only while they hold it, and log at most MAXOPBLOCKS distinct blocks an operation.
- LogSystem.EvictKeeps: any buffer that is neither held nor pinned may be recycled there, at any time; the choice of the least recently used one is proved in Bio.BufCache.Victim. Buffers of log blocks count while a commit holds them; recovery starts with all buffers free.
- BioProtocol.StepKeeps: a section of `bcache.lock` is one step; any unreferenced buffer may be recycled there, the choice of the least recently used one is proved in Bio.BufCache.Victim; a handle changes a buffer only while it holds it, and unpins it only after writing it.
- SchedProofs.SchedInvKept: parent pointers, `wait_lock`'s sections in `fork` and the choice of the child in `wait` are the subject of ExitWait; here `exit` and `wait` hold some spin-lock k around what they do. A thread may be interrupted where it holds no spin-lock, which is one place for all of user code and the rest of the kernel.
- SleepProofs.SleepersHaveReason: what a lock guards is one integer, and a client's section reads and writes it in single steps; the discipline asked of clients is a hypothesis, proved for sleep-locks in SleepLocks.
- SleepLocks.SleepLocksKept: the two writes of `acquiresleep`, and those of `releasesleep`, to `locked` and `pid` are one step.
- ExitWaitTheorems.StepKeeps: RUNNABLE and RUNNING are one state and the scheduler is part of that machine only where it releases the lock of an exited process, the stacks being the subject of SchedProofs; a section of a process lock that takes no other lock, copies nothing and leaves no stack is one step. Process numbers do not wrap around.
- FsCode.Fs.BMap: free map, inode blocks and data blocks are separate parts of the state; the buffer cache under them is the subject of Bio and LogSystem. One operation runs at a time, as the inode and buffer locks ensure.
- FsWrite.WriteI: how many bytes of the source can be read is a parameter, the same for the whole call, since only the caller changes its own page table; VmCopy.CopyIn and ReadableWithin say what it is.
- FsTight.TightWrite: the image has eleven free-map blocks; one made by `mkfs` with FSSIZE blocks has one.
- FsChunks.FileWrite: only the inode case of `filewrite`, for a non-negative n; pipes and devices are not covered.
- VmCode.Vm.Kalloc: addresses are page numbers and an entry is a record of its fields, so bit positions are not modelled; which junk fills a page is.
- VmUser.MapPages: trampoline and trapframe pages are mapped in address spaces but not owned by them; alignment is implied by page numbers.
- VmProc.Alloc: the new size lies below the trapframe; `growproc` and `exec`, which call it, are not modelled.
- VmCopy.CopyOut: addresses are below 2^64 without wrap-around.
- Umalloc.Arena.Malloc: what `sbrk` returns is a parameter, above everything it returned before; the heap stays below 2^32 header units, a request above the bound of Umalloc.SbrkArgument is covered unless it makes `sbrk` return memory, and the program does not write over block headers.
- VirtioCode.VirtioDisk.Start: the request header's type and sector, the lengths, the notify and acknowledge registers and MMIO initialisation are left out; each section of `vdisk_lock` is one call.
- Virtio.CompleteInv: the device returns only heads it has taken, each once, with status 0.
- Pipe.WriterAsleepMeansFull: `sleep` lets go of the lock and sleeps in one step there, which SleepProofs.NoLostWakeup justifies for any channel; whether a copy faults or a process was killed is a parameter. Freeing the pipe when both ends are closed is not modelled, and a call is made through an end that is open then.
- ShellPrint.PrintThenParse: words contain no white space, symbol or zero, and a command has fewer than MAXARGS arguments, which is what the parser itself accepts; memory for commands never runs out.
- SchedCalls.KilledExactly: which entry `kill` finds for a process number is a choice of the step, and so is `setkilled`, which a process calls on itself.
- ExitWaitCalls.KilledExactly: which entry `kill` finds is a choice of the step; in BornKilled it is the unused one that `kill(0)` finds.
