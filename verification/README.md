# Verified models of an xv6 kernel port

This project models the parts of an xv6 kernel for ARMv8 and of its user land
that carry the most state and concurrency, and proves what they promise. Each
part is a state machine or a set of specification functions with its theorems,
and, beside it, the code as classes and methods proved against them.

- **Redo log and buffer cache** (`Log`, `LogSafety`, `LogTheorems`, `LogReads`,
  `LogSpace`, `LogRuns`, `LogLimits`, `LogCode`, `Bio`, over `Blocks`).
  Operations, readers, commits and crashes interleave in any way; one step per
  block write. Log plus cache refine an atomic disk; a crash anywhere leaves all
  or nothing of a transaction. The cache's least-recently-used ring refines the
  cache of the protocol, step by step.
- **Block layer of the file system** (`Volume`, `FsCode`, `FsLimits`). Free map, block map
  with one indirect block, truncation, byte-range reads and writes, the chunks
  of a file write. Every block has one owner; files are flat byte sequences.
- **Directories and link counts** (`Links`, `LinkSafety`, `LinkLimits`,
  `LinkCode`), with the 16-bit counts and inode numbers of the disk format.
- **virtio block driver** (`Virtio`, `VirtioSafety`, `VirtioTheorems`,
  `VirtioLimits`, `VirtioCode`). Requesters, interrupt handler and device over the
  descriptor table and the two rings of section 2.6 of VIRTIO 1.1, with the three-descriptor
  requests of its section 5.2.
- **Page tables and page allocator** (`Vm`, `VmMaps`, `VmCode`).
- **Processes, scheduler and sleep locks** (`Proc`, `ProcSafety`, `ProcActs`,
  `ProcEffects`, `ProcTheorems`, `ProcLimits`), and **pipes** (`Pipe`).
- **User programs**: the allocator of section 8.7 of *The C Programming
  Language* (`Malloc`, `MallocCode`), the shell's parser (`Shell`,
  `ShellRoundTrip`, `ShellCode`) and grep's matcher (`Grep`).

`Basics` holds what several of them share.

To verify it: `dafny verify dfyconfig.toml`.

Where the code does less than its comments or its callers might hope, the
model keeps the code and the theorem states the exact condition:

- `log_write` tests its guard before it takes the lock and does not test
  again, so two operations can append where one fits. The bound on the log array
  comes from the reservation made in `begin_op` (`LogSpace.ReservationHolds`);
  commit is all or nothing if and only if the layout keeps the copies inside the
  log area (`LogLimits.AllOrNothingIff`). A log area of at least LOGSIZE blocks
  does, and so does one at the end of the disk, where `kernel/fs.h` puts it.
- The guard also panics for a write it would have absorbed
  (`LogSpace.AbsorbedWriteCanPanic`).
- The cache has as many buffers as the log has blocks, so the commit of a full
  log finds no buffer (`LogSpace.FullLogStarvesCommit`); recovery always finds one
  (`LogCode.Log.RecoverFromLog`).
- `writei` sets its unsigned count to -1 after a fault, so it still writes the
  inode back. It releases the buffer of the faulting chunk changed and unlogged:
  unless the log holds the block, the change is lost when the buffer is recycled
  (`LogLimits.AbandonedIsLost`). The theorems about reading say exactly when
  (`LogReads.BreadReturnsLastWrite`, `LogReads.RecyclingLosesNothing`,
  `LogReads.QuietDiskIsCurrent`).
- `virtio_disk_rw` computes the sector in 32 bits, so it moves the right block if
  and only if the block number is below 2^31 (`VirtioLimits.RightBlockIff`).
- `create` and `sys_link` do not ask whether the parent directory is still
  linked, whether an inode number fits the 16 bits of an entry, or whether the
  16-bit count can be raised; link counts stay exact if and only if these hold
  (`LinkSafety.CreateFileKeepsIff`, `LinkSafety.CreateDirKeepsIff`,
  `LinkSafety.LinkKeepsIff`). Every path from a linked directory leads to linked
  directories (`PathNames.ResolveLinked`); the other two fail in reachable states
  (`LinkLimits.WrappedCount`, `LinkLimits.WrappedNumber`). The count of a directory
  cannot wrap, because a directory is a file of at most 17152 entries
  (`LinkSafety.DirCountFits`).
- Removing the last name of a file logs a free-map block for each part of the disk
  the file lies in. It fits the blocks that an operation reserves if and only if
  the free map is small enough (`FsLimits.UnlinkFitsIff`).
- `uvmcopy` returns 0 also when memory ran out and it has undone the copy
  (`VmCode.Kernel.Uvmcopy`).
- `PGD_IDX` keeps two bits, so addresses alias modulo 2^32
  (`PageMaps.Aliases`); since there are fewer pages than page numbers, growing a
  process never meets its own mappings.
- A killed writer leaves `pipewrite` without waking readers
  (`PipeSafety.StrandedReader`, `PipeSafety.GiveUpKeepsIff`).
- `malloc` passes its size to an `int` parameter of `sbrk`
  (`MallocCode.SbrkArgument`).
- init may sleep in wait beside a zombie child, as the comment in `exit` says
  (`ProcLimits.InitMissesExit`): exactly one whose exit woke the parent it had
  before (`ProcTheorems.WaitersHaveNoDeadChild`). No other parent misses an exit
  (`ProcTheorems.OnlyInitMisses`).

## Model

| member | source | states |
|---|---|---|
| LogProtocol.HeadRoundTrip | kernel/log.c:86-113 | what read_head decodes from a block is what write_head encoded into it, whatever the block held before |
| LogSafety.RecycledIsClean | kernel/bio.c:73-85 | a buffer with no references is unpinned and unlocked, and differs from its disk block only if it was changed and never logged |
| LogSafety.GetKeeps | kernel/bio.c:63-71 | a cache hit keeps the invariant and changes neither the committed nor the current view of the disk |
| LogSafety.GetMissKeeps | kernel/bio.c:57-88 | a miss keeps the invariant and the committed view; in the current view the recycled block falls back to its committed content if its last change was never logged, and nothing else changes |
| LogSafety.LockKeeps | kernel/bio.c:91-102 | bread hands its caller the current content of the block |
| LogSafety.ModifyKeeps | kernel/log.c:197-206 | changing a held buffer is a write of that block in the current view and of nothing else |
| LogSafety.ReleaseKeeps | kernel/bio.c:116-136 | brelse changes neither view, also for a buffer changed and not logged, as after the fault in writei (kernel/fs.c:499-503) |
| LogSafety.LogTestKeeps | kernel/log.c:211-214 | the unlocked test of log_write changes nothing but the progress of the process |
| LogSafety.LogWriteKeeps | kernel/log.c:216-226 | the locked section of log_write, absorbing or appending without testing again, keeps block numbers distinct and pinned, the reservation, and both views; the block is no longer loose |
| LogSafety.BeginKeeps | kernel/log.c:126-141 | admission keeps room for everything reserved |
| LogSafety.EndKeeps | kernel/log.c:146-168 | end_op keeps the reservation; the panic on Log.committing is unreachable; the last operation starts the commit |
| LogSafety.FullLogStarves | kernel/param.h:7-8 | NBUF equals LOGSIZE: in the commit of a full log bget finds no buffer for a log block |
| LogSafety.CopyInArea | kernel/log.c:172-183 | in a safe layout write_log writes only inside the log area, whatever the unlocked test let through |
| LogSafety.CopyToLogKeeps | kernel/log.c:172-183 | each copy of write_log changes neither view, but for recycled loose blocks |
| LogSafety.CommitHeadKeeps | kernel/log.c:98-113 | the header write makes the current content of every block that is not loose the committed one, in one step |
| LogSafety.InstallKeeps | kernel/log.c:68-82 | installing one block takes it out of the transaction, changes neither view, and the unpinned buffer equals the disk |
| LogSafety.ClearKeeps | kernel/log.c:186-195 | erasing the header after installation changes neither view |
| LogSafety.CrashKeeps | kernel/log.c:116-122 | a crash at any point makes the current view the committed one |
| LogSafety.ReadHeadKeeps | kernel/log.c:86-96 | loading the header at boot changes neither view |
| LogSafety.ReplayKeeps | kernel/log.c:68-82 | replaying one block changes neither view, however often it is repeated |
| LogSafety.ReplayDoneKeeps | kernel/log.c:116-122 | erasing the header at the end of recovery changes neither view |
| LogTheorems.RunInv | kernel/log.c:126-227 | in a safe layout every state of every interleaving, crashes and abandoned buffers included, satisfies the invariant |
| LogTheorems.RunSpace | kernel/log.c:126-227 | in every layout the reservation holds and the log list, in memory and on disk, names distinct home blocks |
| LogTheorems.RunRefines | kernel/log.c:126-227 | every step of every run is a step of an atomic disk: write, log, commit, settle, crash, and the loss of recycled blocks that were never logged |
| LogTheorems.RecoveryKeepsCommitted | kernel/log.c:116-122 | any number of crashes inside recovery leaves the committed view as it was |
| LogTheorems.CompletedRecovery | kernel/log.c:116-122 | a completed recovery leaves the committed view on the home blocks |
| LogTheorems.CrashAtomicity | kernel/log.c:116-122 | crash, interrupted recoveries, completed recovery: the disk holds exactly what was committed when the crash struck |
| LogTheorems.CommitSegment | kernel/log.c:186-195 | during a commit what it makes durable stands still; the committed view is the old one before the header write and that one from then on |
| LogTheorems.CommitIsAllOrNothing | kernel/log.c:171-195 | a crash after any block write of commit, then recovery: every home block is as before, or once the header is written exactly the logged blocks hold their logged content |
| LogTheorems.CompletedCommit | kernel/log.c:186-195 | a commit that runs to its end leaves on disk exactly the logged blocks changed, to their logged content |
| LogReads.DirtyIff | kernel/bio.c:91-136 | a cached block counts as changed exactly when the run changed it and has since neither logged, installed nor recycled it; then it holds what was written |
| LogReads.RecyclingLosesNothing | kernel/bio.c:73-85 | a recycled buffer equals its disk block if and only if it holds no change that was handed back unlogged, or one that wrote what the disk has |
| LogReads.QuietDiskIsCurrent | kernel/log.c:69-82 | with no operation open and no commit under way the log is empty and the disk is the committed view; it is the logical disk at a block if and only if that block holds no abandoned change, or one that wrote what the disk has |
| LogReads.CurrentStays | kernel/bio.c:91-102 | without a crash or another write of the block, what bread returns changes exactly when its buffer is recycled with the change unlogged, and then to the committed content |
| LogReads.BreadReturnsLastWrite | kernel/bio.c:91-102 | bread returns the latest value written to the block, unless the buffer was recycled with that change unlogged; then the committed value |
| LogReads.HeldStays | kernel/bio.c:56-88 | a locked buffer is not recycled |
| LogReads.LoggedWriteIsRead | kernel/log.c:201-206 | log_write before brelse, the documented use, keeps the change: every later bread returns it until the next write or a crash |
| LogReads.TestedHolds | kernel/log.c:207-227 | between the test and the locked section of log_write the caller still holds the buffer, so only its reservation decides |
| LogSpace.ReservationHolds | kernel/log.c:126-168 | in every reachable state of every layout the log has room for all unused reservations, so the slot of an append is in bounds; block numbers are distinct; commit excludes open operations; with none open and no commit the log is empty |
| LogSpace.ReservedWriteFits | kernel/log.c:207-227 | operations with reservation left never meet the guard of log_write if and only if the log area exceeds LOGSIZE or fewer blocks exist than would fill it |
| LogSpace.PanicMeansExhausted | kernel/log.c:211-212 | the guard fires only on a full log whose reservations are used up, if and only if the same condition holds |
| LogSpace.ListFitsArea | kernel/log.c:211-226 | the log list always fits the log area if and only if the area exceeds LOGSIZE, or holds no block, or fewer blocks exist; otherwise two operations race past the unlocked test |
| LogSpace.AbsorbedWriteCanPanic | kernel/log.c:211-212 | the guard also fires for a write that would be absorbed: a reachable state where it does |
| LogSpace.CopyNeedsBuffer | kernel/log.c:172-183 | write_log can make its next copy if and only if the log area has the block, the home buffer is unlocked and bget finds a buffer |
| LogSpace.FullLogStarvesCommit | kernel/param.h:7-8 | a reachable commit, of a log filled by three operations, that can never read a log block |
| LogRuns.FilledReachable | kernel/log.c:126-227 | any list that fits the log area can be logged by three operations: an explicit run |
| LogRuns.RaceReaches | kernel/log.c:211-226 | two operations pass the test with room for one block and both append: an explicit run |
| LogLimits.AllOrNothingIff | kernel/log.c:171-227 | commit is all or nothing if and only if the layout is safe: at least LOGSIZE blocks of log, or none usable, or too few blocks to overfill it, or nothing behind it on the disk |
| LogLimits.RaceDamages | kernel/log.c:211-226 | in any other layout a racing commit overwrites the block after the log area before the header is written |
| LogLimits.AbandonedIsLost | kernel/fs.c:499-503 | a run in which a buffer changed and released without log_write is recycled, in least-recently-used order, and the next bread returns the old content |
| LogCode.Log.constructor | kernel/log.c:55-65 | power-on state: memory empty, disk as found |
| LogCode.Log.Bread | kernel/bio.c:91-102 | the block is cached and read, or every buffer but the one to keep is referenced, or the disk has no such block |
| LogCode.Log.BeginOp | kernel/log.c:126-141 | admitted if and only if no commit runs and ten more blocks fit, as a Begin step of the protocol |
| LogCode.Log.FindSlot | kernel/log.c:217-220 | the index of the block in the log, or the first free one |
| LogCode.Log.LogTest | kernel/log.c:211-214 | panics exactly on the guard; otherwise it is the protocol step |
| LogCode.Log.Enter | kernel/log.c:217-225 | the block number is added exactly if it is not in the list |
| LogCode.Log.LogWrite | kernel/log.c:216-226 | the locked section is the protocol step; the array write is in bounds by the reservation |
| LogCode.Log.BreadPair | kernel/log.c:73-74 | both blocks of a copy are cached, or a buffer or a log block is lacking |
| LogCode.Log.CopyOneToLog | kernel/log.c:175-182 | one iteration of write_log is one protocol step; it fails only without a buffer or a log block |
| LogCode.Log.WriteLog | kernel/log.c:172-183 | the whole loop: every logged block is in the log area, through copy steps only |
| LogCode.Log.WriteHeader | kernel/log.c:101-113 | the header block on disk becomes the encoding of the in-memory header, the rest of the disk unchanged |
| LogCode.Log.InstallOne | kernel/log.c:72-81 | one iteration of install_trans(0) is one protocol step |
| LogCode.Log.ReplayOne | kernel/log.c:72-81 | one iteration of install_trans(1) is one protocol step, and never lacks a buffer |
| LogCode.Log.InstallTrans | kernel/log.c:68-82 | the whole loop, in both modes; in recovery it cannot fail |
| LogCode.Log.WriteCommit | kernel/log.c:190-190 | the header write is the protocol's commit step, or buffers have run out and nothing changed in the run |
| LogCode.Log.EraseLog | kernel/log.c:192-193 | the header write is the protocol's clearing step, at the end of commit or of recovery |
| LogCode.Log.CommitLogged | kernel/log.c:188-194 | a non-empty commit goes through the header write and ends with an empty log |
| LogCode.Log.CommitSteps | kernel/log.c:186-195 | commit as a run of protocol steps, with a header write if and only if something was logged |
| LogCode.Log.Commit | kernel/log.c:186-195 | on completion exactly the logged blocks have changed on disk, to their logged content; it fails only without a buffer or a log block |
| LogCode.Log.Leave | kernel/log.c:149-159 | the locked section of end_op; its panic is unreachable |
| LogCode.Log.EndOp | kernel/log.c:146-168 | the last operation out leaves exactly the logged blocks changed on disk |
| LogCode.Log.Crash | kernel/log.c:116-122 | memory is lost and the disk stays, as the protocol's crash step |
| LogCode.Log.LoadHeader | kernel/log.c:91-94 | the in-memory header becomes the decoding of the block |
| LogCode.Log.ReadHeader | kernel/log.c:86-96 | read_head is a protocol step and always finds a buffer |
| LogCode.Log.RecoverFromLog | kernel/log.c:115-122 | always completes, and every home block becomes what recovery promises for the disk found |
| Bio.Unlink | kernel/bio.c:127-128 | the ring without one element is again a cycle with prev and next inverse |
| Bio.PushFront | kernel/bio.c:129-132 | a new element right after the head keeps the cycle |
| Bio.TouchAgrees | kernel/bio.c:63-152 | a change of references or validity in the ring is the same change in the cache of the log protocol |
| Bio.MissAgrees | kernel/bio.c:73-85 | a recycling in the ring is the recycling of the log protocol, with the victim it names |
| Bio.Bcache.constructor | kernel/bio.c:35-51 | binit: one cycle through the head and every buffer once |
| Bio.Bcache.Find | kernel/bio.c:63-71 | the buffer that holds the block, or none does |
| Bio.Bcache.FindVictim | kernel/bio.c:73-85 | the unreferenced buffer nearest the tail, the one released longest ago, or none is unreferenced |
| Bio.Bcache.Share | kernel/bio.c:138-144 | the buffer gets one more reference, nothing else changes |
| Bio.Bcache.Assign | kernel/bio.c:76-80 | the victim holds the new block, invalid, with one reference |
| Bio.Bcache.Bget | kernel/bio.c:56-88 | hit, least-recently-used recycling or panic, each exactly when it should; at most one buffer per block of a real device |
| Bio.Bcache.BgetBlock | kernel/bio.c:56-88 | bget keeps agreement with the cache of the log protocol, on a hit, a miss and a panic |
| Bio.Bcache.Bunpin | kernel/bio.c:146-152 | the buffer has one reference less and keeps its place in the ring |
| Bio.Bcache.MoveToFront | kernel/bio.c:127-132 | the six link writes move the buffer to the front of one cycle |
| Bio.Bcache.Promote | kernel/bio.c:125-133 | the ring stays ordered by last use |
| Bio.Bcache.Brelse | kernel/bio.c:115-136 | the last user makes the buffer the most recently used one; otherwise the ring is unchanged |
| Bio.Bcache.Get | kernel/bio.c:56-88 | bget is the Get or GetMiss step of the log protocol, or the protocol cannot fetch either |
| Bio.Bcache.Fill | kernel/bio.c:97-100 | the read of an invalid buffer is the Lock step of the log protocol |
| Bio.Bcache.Release | kernel/bio.c:115-136 | brelse is the Release step of the log protocol |
| Bio.Bcache.Pin | kernel/bio.c:138-144 | bpin is what the appending LogWrite step of the log protocol does to the cache |
| Bio.Bcache.Bread | kernel/bio.c:91-102 | bread by the log code is the Fetch of the protocol plus one reference |
| Bio.Bcache.GiveBack | kernel/log.c:77-80 | bunpin and both brelse take back exactly the references |
| Bio.Bcache.Install | kernel/log.c:73-80 | what one iteration of install_trans does to the ring is what the Install step of the log protocol does to the cache |
| Volume.PutBitGet | kernel/fs.c:77-79 | setting or clearing a bit of a byte changes that bit and no other |
| Volume.MarkGet | kernel/fs.c:98-103 | marking a block changes its bit of the free map and no other block's |
| Volume.NoSharing | kernel/fs.c:379-407 | no block belongs to two slots of any inodes |
| Volume.UsedExactly | kernel/fs.c:66-106 | the used blocks are exactly the metadata and the blocks in some slot |
| Volume.GrowKeeps | kernel/fs.c:385-404 | storing a newly allocated block in an empty slot keeps ownership, the free map and the mapping of every file |
| Volume.GrowRaw | kernel/fs.c:385-404 | allocation changes no byte of any file |
| Volume.PutKeeps | kernel/fs.c:496-506 | overwriting a data block keeps the invariant |
| Volume.PutRaw | kernel/fs.c:496-506 | overwriting a data block changes the bytes of that block of that file only |
| Volume.FreeKeeps | kernel/fs.c:418-435 | freeing the block of a live slot finds its bit set and keeps the rest of the ownership |
| Volume.ClearKeeps | kernel/fs.c:418-423 | forgetting a freed direct address restores the invariant |
| Volume.ClearIndirectKeeps | kernel/fs.c:425-435 | forgetting the freed indirect block restores the invariant |
| Volume.FreshInv | kernel/fs.h:4-24 | a volume whose free map marks the metadata and nothing else, without files, satisfies the invariant |
| FsCode.Fs.constructor | kernel/fs.h:4-24 | a fresh volume is valid |
| FsCode.Fs.Balloc | kernel/fs.c:66-89 | the lowest free block, marked and zeroed; it panics exactly when none is free below 2^31 |
| FsCode.Fs.Bzero | kernel/fs.c:52-62 | the block is zero and logged |
| FsCode.Fs.Bfree | kernel/fs.c:91-106 | the bit is cleared; it panics exactly on a free block |
| FsCode.Fs.Fill | kernel/fs.c:386-400 | an empty slot gets a block nobody owned |
| FsCode.Fs.Bmap | kernel/fs.c:379-407 | the address of the block, allocated if missing, nothing else changed; at most one free-map block logged |
| FsCode.Fs.Iupdate | kernel/fs.c:224-240 | the inode on disk becomes the inode in memory |
| FsCode.Fs.Release | kernel/fs.c:418-435 | bfree of an owned block never panics, gives up that block only and logs its free-map block only |
| FsCode.Fs.TruncDirect | kernel/fs.c:418-423 | the direct blocks are given up, nothing else; exactly their free-map blocks are logged |
| FsCode.Fs.TruncIndirect | kernel/fs.c:425-435 | the indirect block and all it lists are given up, nothing else; exactly their free-map blocks are logged |
| FsCode.Fs.Itrunc | kernel/fs.c:409-439 | exactly the blocks of the file become free; no other file changes; "freeing free block" is unreachable; exactly the inode block and the free-map blocks of the file are logged |
| FsCode.Fs.Readi | kernel/fs.c:453-479 | the slice of the file clipped to its size, or 0 on a bad offset or 32-bit overflow, or -1 on a fault; nothing is allocated |
| FsCode.Fs.ReadChunk | kernel/fs.c:468-477 | the bytes of one block of the file |
| FsCode.Fs.CopyIn | kernel/fs.c:497-505 | bytes into one block of the file, allocating it if needed; unlogged bytes stay exactly if the buffer is kept or the log holds the block; all other bytes of all files unchanged |
| FsCode.Fs.WriteStep | kernel/fs.c:496-506 | one iteration of writei, with or without a fault |
| FsCode.Fs.Iterate | kernel/fs.c:496-506 | one iteration keeps the loop invariant, including the count of logged blocks |
| FsCode.Fs.WriteLoop | kernel/fs.c:496-506 | the bytes written so far, the kept or lost rest of a faulting copy, and a bound on the blocks logged |
| FsCode.Fs.WriteBack | kernel/fs.c:507-515 | the size grows to cover what was written and the inode is written back, also after a fault |
| FsCode.Fs.Writei | kernel/fs.c:481-516 | refused exactly on a bad offset, 32-bit overflow or a file too large; otherwise exactly [off, off+n) is replaced and the size extended; after a fault the completed chunks are there, and the bytes of the last one or none of them; a write inside one mapped block logs exactly that block and the inode block |
| FsCode.Fs.FileWrite | kernel/file.c:146-172 | every chunk logs at most MAXOPBLOCKS distinct blocks, and the return value is n exactly when everything was written |
| FsCode.ChunkCost | kernel/file.c:147-153 | one chunk at any offset costs at most MAXOPBLOCKS blocks |
| FsCode.OverlayContent | kernel/fs.c:481-516 | in terms of the flat file a write replaces the range and extends the file |
| FsCode.OverlayOthers | kernel/fs.c:481-516 | every other file keeps its content |
| FsLimits.UnlinkLast | kernel/sysfile.c:200-211 | removing the last name of a file and freeing its inode logs exactly the block of the entry, the two inode blocks and the free-map blocks of the file |
| FsLimits.UnlinkFitsIff | kernel/param.h:6-6 | every such unlink fits the blocks one operation reserves if and only if data has at most seven free-map blocks, or eight when one block holds all inodes |
| VirtioSafety.FlightBound | kernel/virtio_disk.c:188-201 | at most two requests are in flight |
| VirtioSafety.PrepareKeeps | kernel/virtio_disk.c:216-258 | formatting a chain keeps descriptors partitioned, chains well formed and the ring intact |
| VirtioSafety.PublishKeeps | kernel/virtio_disk.c:260-267 | advancing the available index keeps the ring, wrapped or not |
| VirtioSafety.IntrOneKeeps | kernel/virtio_disk.c:298-310 | handling one used entry keeps the invariant |
| VirtioSafety.FinishesDone | kernel/virtio_disk.c:269-277 | a request that finishes has been acknowledged, and both sides hold what it was to move unless calls for the same sectors met |
| VirtioSafety.FinishKeeps | kernel/virtio_disk.c:269-277 | freeing the chain of a finished request keeps the invariant |
| VirtioSafety.FetchKeeps | kernel/virtio_disk.c:257-267 | a fetch by the device keeps the invariant |
| VirtioSafety.PerformKeeps | kernel/virtio_disk.c:224-251 | a transfer by the device keeps the invariant |
| VirtioSafety.ReportKeeps | kernel/virtio_disk.c:295-300 | a used entry added by the device keeps the invariant |
| VirtioTheorems.RunInv | kernel/virtio_disk.c:142-313 | the invariant holds in every interleaving of requesters, interrupt handler and device |
| VirtioTheorems.DescriptorsPartitioned | kernel/virtio_disk.c:142-201 | each descriptor is free or in exactly one chain, and there are at most two chains |
| VirtioTheorems.IndicesStayClose | kernel/virtio_disk.c:257-263 | avail->idx minus used_idx modulo 2^16 is the number of unseen requests and at most two |
| VirtioTheorems.DeviceSeesRequest | kernel/virtio_disk.c:206-258 | following the descriptors, the device finds the buffer, direction and sectors of the request; the sectors are those of the block asked for if and only if it is below 2^31 |
| VirtioTheorems.IntrNeverPanics | kernel/virtio_disk.c:298-310 | the handler never finds a bad id or status |
| VirtioTheorems.StepMovesOn | kernel/virtio_disk.c:203-313 | each step leaves a request alone or moves it on one stage |
| VirtioTheorems.RwMovesSectorsOnce | kernel/virtio_disk.c:203-278 | a completed call has moved the sectors it computed, whole, exactly once, in the right direction, unless calls for the same sectors were in flight together |
| VirtioTheorems.SmallMovesIts | kernel/virtio_disk.c:203-278 | on a disk of at most 2^31 blocks a completed call has moved the block it was asked to |
| VirtioLimits.WrongBlock | kernel/virtio_disk.c:206-206 | on a larger disk a call to write block 2^31 writes block 0: an explicit run |
| VirtioLimits.RightBlockIff | kernel/virtio_disk.c:203-278 | every completed call moves the block it was asked to if and only if the disk has at most 2^31 blocks |
| VirtioCode.Disk.constructor | kernel/virtio_disk.c:118-136 | the driver starts in an initial state of the protocol |
| VirtioCode.Disk.AllocDesc | kernel/virtio_disk.c:142-153 | the first free descriptor, or none is free |
| VirtioCode.Disk.FreeDesc | kernel/virtio_disk.c:156-169 | panics exactly on a bad index or a free descriptor |
| VirtioCode.Disk.Undo | kernel/virtio_disk.c:195-197 | the descriptors taken so far are free again, nothing else changes |
| VirtioCode.Disk.Alloc3 | kernel/virtio_disk.c:188-201 | three distinct descriptors, or none changed and fewer than three free |
| VirtioCode.Disk.FreeChain | kernel/virtio_disk.c:172-184 | frees exactly the three descriptors of the chain |
| VirtioCode.Disk.Format | kernel/virtio_disk.c:206-258 | the table writes, with the sector computed in 32 bits, are the Prepare step |
| VirtioCode.Disk.Notify | kernel/virtio_disk.c:262-267 | the index write is the Publish step |
| VirtioCode.Disk.RwSubmit | kernel/virtio_disk.c:203-267 | up to the sleep: two protocol steps, or nothing changed |
| VirtioCode.Disk.RwFinish | kernel/virtio_disk.c:274-277 | after the sleep: the Finish step |
| VirtioCode.Disk.IntrOnce | kernel/virtio_disk.c:298-310 | one iteration is one protocol step; its panic is unreachable |
| VirtioCode.Disk.Intr | kernel/virtio_disk.c:280-313 | every reported request is acknowledged, nothing else changes |
| FreeLists.Canonical | user/umalloc.c:33-42 | two lists of maximal free blocks over the same units are equal |
| FreeLists.InsertKeeps | user/umalloc.c:33-43 | freeing keeps the list sorted by address with no two free blocks adjacent |
| FreeLists.InsertCells | user/umalloc.c:33-43 | freeing adds exactly the units of the block |
| FreeLists.TakeKeeps | user/umalloc.c:75-82 | allocating keeps the list sorted and separated |
| FreeLists.TakeCells | user/umalloc.c:75-82 | allocating removes exactly the units handed out |
| FreeLists.TakenApart | user/umalloc.c:75-82 | what is handed out overlaps no block that is left |
| FreeLists.InsertUndoesTake | user/umalloc.c:24-90 | free undoes malloc: the same list comes back, block for block |
| FreeLists.InsertsCommute | user/umalloc.c:24-44 | the order in which two blocks are freed does not matter |
| Holdings.HeldGap | user/umalloc.c:30-32 | a held block lies between the two list elements the search stops at |
| Holdings.FreeTiled | user/umalloc.c:33-43 | after free, free and held blocks still tile the heap without overlap |
| Holdings.TakeTiled | user/umalloc.c:75-85 | after malloc, free and held blocks still tile the heap without overlap |
| Holdings.GrowTiled | user/umalloc.c:46-61 | a chunk above the break extends the tiling |
| MallocCode.SbrkArgument | user/umalloc.c:52-54 | sbrk receives the intended size if and only if the request is at most 2^31 - 32 bytes |
| MallocCode.PayloadFits | user/umalloc.c:69-69 | the units of a request cover its bytes and waste less than one unit |
| MallocCode.RingInsert | user/umalloc.c:33-43 | the pointer writes of free produce the ring of the new list |
| MallocCode.RingTake | user/umalloc.c:75-83 | the pointer writes of malloc produce the ring of the new list |
| MallocCode.FreeSound | user/umalloc.c:24-44 | free conserves the units obtained from sbrk |
| MallocCode.TakeSound | user/umalloc.c:75-85 | malloc conserves the units obtained from sbrk |
| MallocCode.Allocator.constructor | user/umalloc.c:21-22 | no list before the first call |
| MallocCode.Allocator.FindGap | user/umalloc.c:29-32 | the search terminates at the one place where the block belongs |
| MallocCode.Allocator.Splice | user/umalloc.c:33-42 | the four link and size updates, with coalescing on both sides |
| MallocCode.Allocator.Free | user/umalloc.c:24-44 | the units become free, nothing else changes hands, the list stays canonical |
| MallocCode.Allocator.Morecore | user/umalloc.c:46-61 | a chunk of at least 4096 units joins the list, or nothing changes |
| MallocCode.Allocator.TakeOut | user/umalloc.c:75-85 | the block gives up its high end, or leaves the list |
| MallocCode.Allocator.Search | user/umalloc.c:74-89 | the loop terminates; sbrk is asked only when nothing fits and succeeds at most once |
| MallocCode.Allocator.Malloc | user/umalloc.c:63-90 | next fit; null exactly when nothing fits and sbrk fails; free and held units conserved |
| MallocCode.Allocator.Begin | user/umalloc.c:70-73 | the first call makes a list of base alone |
| PageTables.AllocKeeps | kernel/kalloc.c:60-73 | a page taken from the free list disturbs no table |
| PageTables.ReleaseKeeps | kernel/kalloc.c:44-58 | a loose page given back disturbs no table |
| PageTables.LinkKeeps | kernel/vm.c:23-39 | an entry for a loose page in an empty slot keeps tables and page roles in agreement |
| PageTables.UnlinkKeeps | kernel/vm.c:110-115 | clearing a user entry makes its page loose |
| PageTables.DropKeeps | kernel/vm.c:197-214 | giving back a table without children, before its parent entry is gone, keeps the rest |
| PageMaps.Indices | kernel/mmu.h:40-61 | the three table indices are the digits of the page number modulo 2^20 |
| PageMaps.Aliases | kernel/mmu.h:40-61 | two addresses share their slot if and only if their pages agree modulo 2^32 |
| PageMaps.Path | kernel/vm.c:13-41 | the pages on a walk are the ones hung there |
| PageMaps.LinkSame | kernel/vm.c:23-39 | hanging an empty table changes no map of any address space |
| PageMaps.WriteLookup | kernel/vm.c:63-82 | writing the slot a walk found changes that one mapping of that one address space |
| PageMaps.Injective | kernel/vm.c:146-171 | different page numbers, in any address spaces, lead to different pages |
| PageMaps.MapBound | kernel/vm.c:146-171 | there are more pages than mappings |
| VmCode.Kernel.constructor | kernel/kalloc.c:29-33 | every page of the range is free, once, and no tables exist |
| VmCode.Kernel.Freerange | kernel/kalloc.c:35-42 | exactly the pages of the range are on the list, each once |
| VmCode.Kernel.Kfree | kernel/kalloc.c:44-58 | the page is filled and heads the list |
| VmCode.Kernel.Kalloc | kernel/kalloc.c:60-73 | the page last freed, zeroed, or the list is empty |
| VmCode.Kernel.GiveBack | kernel/vm.c:165-165 | a loose page goes back, no map changes |
| VmCode.Kernel.Descend | kernel/vm.c:16-26 | one level of walk: follow, hang a zeroed table, or fail without memory; no map changes |
| VmCode.Kernel.Walk | kernel/vm.c:13-41 | the slot of the address, or unmapped without alloc; with alloc it fails if and only if fewer pages are free than tables are missing, and takes exactly those; no map changes |
| VmCode.Kernel.Walkaddr | kernel/vm.c:43-56 | the page of the address, exactly if it is mapped |
| VmCode.Kernel.MapOne | kernel/vm.c:71-75 | one mapping added, or remap, or out of memory with no map changed, which happens exactly when fewer pages are free than tables are missing |
| VmCode.Kernel.Mappages | kernel/vm.c:63-82 | consecutive pages mapped from the address on; exactly the pages done before a failure stay; for one page it runs out of memory exactly when fewer pages are free than tables are missing |
| VmCode.Kernel.UnmapOne | kernel/vm.c:104-115 | one mapping removed and its page freed |
| VmCode.Kernel.Uvmunmap | kernel/vm.c:91-117 | exactly the range is unmapped, each page freed once; its panics are unreachable on mapped ranges |
| VmCode.Kernel.Uvmdealloc | kernel/vm.c:173-184 | the address space shrinks to the new size |
| VmCode.Kernel.AllocOne | kernel/vm.c:154-168 | one more page if and only if the free pages suffice for it and the missing tables; otherwise no map changed; remap is unreachable |
| VmCode.Kernel.Uvmalloc | kernel/vm.c:146-171 | grows exactly to the new size if and only if the free pages suffice for the pages and the missing tables, and takes exactly those; otherwise it fails leaving every map unchanged and only tables added |
| VmCode.Kernel.Uvmcopy | kernel/vm.c:229-259 | the child maps as many new pages with the parent's permissions if and only if the free pages suffice; otherwise it maps nothing; the result is 0 either way, and no other map changes |
| VmCode.Kernel.Uvmcreate | kernel/vm.c:119-130 | an empty address space |
| VmCode.Kernel.FreeLeafTable | kernel/vm.c:202-211 | an empty leaf table is freed; the panic is unreachable |
| VmCode.Kernel.FreeMidSlot | kernel/vm.c:197-213 | one iteration of the middle loop |
| VmCode.Kernel.FreeMidTable | kernel/vm.c:196-214 | a middle table and its leaf tables are freed, each once |
| VmCode.Kernel.FreeTopSlot | kernel/vm.c:191-216 | one iteration of the outer loop |
| VmCode.Kernel.Freewalk | kernel/vm.c:186-218 | exactly the tables of the root are freed, each once, no other page touched |
| VmCode.Kernel.Uvmfree | kernel/vm.c:220-227 | every page of the address space goes back exactly once; every other page keeps its role |
| VmCode.AllGone | kernel/vm.c:220-227 | the pages left are exactly those that did not belong to the address space |
| VmCode.UserPage | kernel/vm.c:146-171 | a user page belongs to one address space, at the page number that leads to it |
| VmCode.NeedFresh | kernel/vm.c:13-41 | below a new root n pages take n pages and one table for each 512 and each 262144 of them, rounded up |
| VmCode.NeedBound | kernel/vm.c:13-41 | a page never takes more than three |
| ProcSafety.BeginKeeps | kernel/proc.c:370-513 | entering a sleep lock, kill, fork, wait or exit, and a timer interrupt wherever no spinlock is held, keep the invariant |
| ProcSafety.AcquireKeeps | kernel/spinlock.c:20-32 | acquiring any spinlock keeps the invariant |
| ProcSafety.ReleaseKeeps | kernel/spinlock.c:35-47 | releasing any spinlock keeps the invariant |
| ProcActs.FoundTakenKeeps | kernel/sleeplock.c:22-25 | a process that finds a sleep lock taken keeps the invariant: it is now bound to sleep on a held lock |
| ProcActs.SleepSetKeeps | kernel/proc.c:386-389 | setting channel and state under p->lock keeps the invariant |
| ProcActs.SleepResumeKeeps | kernel/proc.c:391-397 | resuming after sched and clearing the channel keeps the invariant |
| ProcActs.YieldSetKeeps | kernel/proc.c:487-494 | becoming runnable under p->lock keeps the invariant |
| ProcActs.WaitScanKeeps | kernel/proc.c:329-366 | wait's scan: the children passed over are not zombies |
| ProcActs.WaitLookKeeps | kernel/proc.c:341-357 | a child seen alive counts as checked; a failed copyout frees nothing |
| ProcActs.WaitSetKeeps | kernel/proc.c:366-366 | sleeping in wait keeps the invariant: no child was a zombie |
| ProcActs.WaitResumeKeeps | kernel/proc.c:366-367 | resuming in wait keeps the invariant, and the scan starts over |
| ProcActs.ExitCopyKeeps | kernel/proc.c:298-300 | the copied parent is not the process itself nor one of its children, so later locks are distinct |
| ProcActs.ReparentKeeps | kernel/proc.c:243-259 | every step of the scan leaves fewer slots that may name the exiting process as parent |
| ProcEffects.LockTakeKeeps | kernel/sleeplock.c:26-27 | taking a free sleep lock keeps every sleeper at a held lock |
| ProcEffects.UnlockKeeps | kernel/sleeplock.c:31-36 | after the lock is freed every sleeper is still ahead of the wakeup scan |
| ProcEffects.WakeLookKeeps | kernel/proc.c:400-412 | one iteration of wakeup's scan: the process looked at no longer sleeps on the lock |
| ProcEffects.KillHitKeeps | kernel/proc.c:496-513 | kill makes a sleeping target runnable |
| ProcEffects.ExitNudgeKeeps | kernel/proc.c:288-290 | waking init keeps the invariant |
| ProcEffects.ForkKeeps | kernel/proc.c:204-241 | a new child, younger than its parent, in a slot that ran nowhere |
| ProcEffects.ForkFailKeeps | kernel/proc.c:103-110 | a failed allocation leaves the slot free |
| ProcEffects.ReapOff | kernel/proc.c:341-356 | a zombie whose lock wait holds is executed by no CPU and current on none |
| ProcEffects.ReapKeeps | kernel/proc.c:343-356 | freeing a dead child keeps the invariant |
| ProcEffects.AdoptKeeps | kernel/proc.c:252-257 | handing a child to init keeps parents alive and counts the slot as cleared |
| ProcEffects.ExitDeadKeeps | kernel/proc.c:308-311 | exit wakes its parent and becomes a zombie without children |
| ProcTheorems.SwitchKeeps | kernel/proc.c:470-485 | switching to the scheduler with p->lock held across keeps the invariant |
| ProcTheorems.SchedMoveKeeps | kernel/proc.c:454-466 | scanning, releasing and returning from a process keep the invariant |
| ProcTheorems.SchedPickKeeps | kernel/proc.c:457-460 | the scheduler picks a runnable process, which runs nowhere else |
| ProcTheorems.SchedSwitchKeeps | kernel/proc.c:461-462 | switching to the picked process keeps the invariant |
| ProcTheorems.RunInv | kernel/proc.c:204-513 | the invariant holds in every interleaving of CPUs |
| ProcTheorems.RunningOnOneCpu | kernel/proc.c:444-468 | a running process is current on exactly one CPU, and none is current on two |
| ProcTheorems.FreedAfterSwitch | kernel/proc.c:343-356 | a zombie is freed only after its CPU has switched away from it |
| ProcTheorems.SleepersFindItHeld | kernel/sleeplock.c:19-38 | whenever the inner spinlock is free, a process asleep on a sleep lock finds it held |
| ProcTheorems.WaitersHaveNoDeadChild | kernel/proc.c:317-368 | a process asleep in wait, init included, its lock free, has no zombie child whose exit woke it; a zombie child it has not seen woke another parent, from which it was taken |
| ProcTheorems.OnlyInitMisses | kernel/proc.c:283-311 | a zombie child of a process asleep in wait, its lock free, is a child of init: no other parent misses an exit |
| ProcTheorems.ParentsAlive | kernel/proc.c:243-259 | a zombie or free slot is nobody's parent |
| ProcTheorems.SchedNeverPanics | kernel/proc.c:474-479 | sched is called with exactly p->lock held and the process not running |
| ProcTheorems.SpinlocksNeverPanic | kernel/spinlock.c:20-47 | no CPU, in a process or in its scheduler, acquires a spinlock it holds or releases one it does not |
| ProcLimits.InitMissesExit | kernel/proc.c:283-311 | there is a run of three processes on three CPUs that ends with init asleep in wait, its lock free, and a zombie child |
| ShellRoundTrip.TokenAt | user/sh.c:265-308 | gettoken returns the next printed token, its text and the position after it |
| ShellRoundTrip.PeekAt | user/sh.c:310-320 | peek tells the first character of the next token |
| ShellRoundTrip.RedirsBack | user/sh.c:374-397 | printed redirections parse back in order |
| ShellRoundTrip.SimpleBack | user/sh.c:415-446 | a printed simple command with its redirections parses back |
| ShellRoundTrip.BlockBack | user/sh.c:399-413 | a printed block parses back |
| ShellRoundTrip.PipeBack | user/sh.c:361-372 | a printed pipeline parses back |
| ShellRoundTrip.LineBack | user/sh.c:344-359 | a printed line parses back, background and lists included |
| ShellRoundTrip.RoundTrip | user/sh.c:327-446 | for every command tree with legal words and at most nine arguments, parsing the printed form gives the tree back |
| ShellCode.LineProper | user/sh.c:344-446 | every parse of any text yields whole words and at most nine arguments |
| ShellCode.ReprintAgrees | user/sh.c:327-446 | whatever a text parses to, printing and parsing again agrees with it |
| ShellCode.SkipBlank | user/sh.c:272-273 | the cursor stops at the first character that is not white space |
| ShellCode.SkipWord | user/sh.c:297-298 | the cursor stops at the end of the word |
| ShellCode.PeekTok | user/sh.c:310-320 | true exactly when the next character that is not white space is among those given; the cursor moves over the white space |
| ShellCode.GetTok | user/sh.c:265-308 | kind, extent and next position of the token, as the grammar defines them |
| ShellCode.Parseredirs | user/sh.c:374-397 | the loop computes the redirections of the grammar |
| ShellCode.Parseargs | user/sh.c:429-445 | the loop computes the command of the grammar, or its errors |
| ShellCode.Parseblock | user/sh.c:399-413 | parseblock, with both syntax errors |
| ShellCode.Parseexec | user/sh.c:415-446 | a block or a simple command, exactly as the grammar defines it |
| ShellCode.Parsepipe | user/sh.c:361-372 | a pipeline, exactly as the grammar defines it |
| ShellCode.Parseline | user/sh.c:344-359 | parseline; the mutual recursion terminates because input is consumed |
| ShellCode.NulTerminate | user/sh.c:448-493 | exactly the end positions of the stored words are overwritten |
| ShellCode.WordsReadBack | user/sh.c:448-493 | after nulterminate every stored word reads back as its token text |
| ShellCode.Parsecmd | user/sh.c:327-342 | the whole text is used or it is an error, and every stored word is a C string |
| LinkSafety.CreateFileKeepsIff | kernel/sysfile.c:223-266 | create of a file keeps every link count exact if and only if the parent is linked and the new inode number fits the 16 bits of an entry; with room in the directory the whole invariant holds again |
| LinkSafety.CreateDirKeepsIff | kernel/sysfile.c:223-266 | mkdir keeps every link count exact if and only if the parent is linked and the new inode number fits 16 bits; with room in the directory the whole invariant holds again |
| LinkSafety.DirCountFits | kernel/fs.h:27-36 | the link count of a linked directory is below its number of entries, which is at most 17152: the count that mkdir raises cannot wrap |
| LinkSafety.LinkKeepsIff | kernel/sysfile.c:103-149 | link keeps every link count exact if and only if the new parent is linked, the count is below 32767 and the inode number fits 16 bits; with room in the directory the whole invariant holds again |
| LinkSafety.EmptyDirOnce | kernel/sysfile.c:151-164 | an empty directory is referred to by its one name only |
| LinkSafety.UnlinkKeeps | kernel/sysfile.c:166-221 | unlink keeps every count exact; "nlink < 1" is unreachable |
| LinkSafety.ReclaimKeeps | kernel/fs.c:336-360 | an inode without links can be freed: nothing linked names it |
| LinkSafety.FreshInv | kernel/fs.h:4-11 | a file system that holds the root directory and nothing else satisfies the invariant |
| LinkSafety.CreateInRemovedDirectory | kernel/sysfile.c:229-261 | a concrete state in which create in a removed, open directory makes a count wrong |
| LinkLimits.LinksOk | kernel/sysfile.c:103-149 | any number of links from 1 to 32767 to one file is reached by link calls in two directories, with exact counts |
| LinkLimits.WrappedCount | kernel/sysfile.c:125-126 | the 32768th link to a file, entered in a linked directory, makes its count -32768 and so wrong, the tree intact |
| LinkLimits.TownOk | kernel/sysfile.c:243-263 | any number of inodes up to 65535 is reached by mkdir and create in four directories, with exact counts |
| LinkLimits.WrappedNumber | kernel/fs.c:576-577 | with 65535 inodes in use create takes inode 65536, whose entry in a linked directory is 0, and a count is wrong |
| LinkCounts.Lookup | kernel/fs.c:528-552 | the first entry in use with that name |
| LinkCounts.FreeSlot | kernel/fs.c:568-574 | the first empty entry, or the end |
| LinkCounts.EnterUnique | kernel/fs.c:554-582 | a new entry keeps names unique |
| PathNames.ElementsJoin | kernel/fs.c:586-621 | the elements of a path joined with a slash are those of its parts |
| PathNames.ElementsOne | kernel/fs.c:586-621 | a name without slashes is one element, cut to 14 characters |
| PathNames.ElementsNone | kernel/fs.c:586-621 | only slashes make no element |
| PathNames.Skipelem | kernel/fs.c:598-621 | the first element and a position at which the rest starts without a slash |
| PathNames.ResolveLinked | kernel/fs.c:627-658 | from a linked directory every path leads to allocated inodes and linked directories |
| PathNames.LinkedStaysOn | kernel/fs.c:627-658 | from a linked directory no path leads to a freed inode |
| LinkCode.Names.constructor | kernel/fs.h:4-24 | a fresh file system is valid |
| LinkCode.Names.Dirlookup | kernel/fs.c:528-552 | the loop finds the entry of the map |
| LinkCode.Names.Dirlink | kernel/fs.c:554-582 | one new entry, its number cut to 16 bits; refused exactly for a name in use; it panics exactly when the name is new and the directory has all the entries a file can hold |
| LinkCode.Names.Isdirempty | kernel/sysfile.c:152-164 | true exactly when no entry behind the dots is in use |
| LinkCode.Names.Ialloc | kernel/fs.c:195-218 | the lowest free inode |
| LinkCode.Names.Namex | kernel/fs.c:623-658 | from the root or the working directory, linked or removed: the inode the elements lead to, or the directory of the last one, or a panic exactly on a freed inode |
| LinkCode.Names.Create | kernel/sysfile.c:223-266 | refused exactly when there is no such directory or the name is taken by what cannot be opened; otherwise an existing file, or a new entry for the lowest free inode; counts stay exact if and only if the directory was linked and the number fits 16 bits; it panics for a full directory, no inode or a freed one, and from a linked start only for the first two |
| LinkCode.Names.Make | kernel/sysfile.c:243-263 | the new inode, its dots and its entry, or a panic exactly for a full directory; counts stay exact if and only if the directory was linked and the number fits 16 bits |
| LinkCode.Names.SysLink | kernel/sysfile.c:103-149 | succeeds exactly when the old path leads to a file and the new one to a new name in a directory, with one more name and link; otherwise everything as before; counts stay exact if and only if the new directory was linked and the count below 32767, and at 32767 the count becomes -32768; from a linked working directory it panics only for a full directory |
| LinkCode.Names.SysUnlink | kernel/sysfile.c:166-221 | also where counts have wrapped: succeeds exactly for a name other than the dots of a file or an empty directory, with one name and link less, and the parent's for a directory; otherwise everything as before; it panics on a count below one exactly where there is one, and never with exact counts |
| LinkCode.Names.IputLast | kernel/fs.c:341-357 | the inode is free, counts stay exact |
| PipeSafety.FullEmpty | kernel/pipe.c:85-118 | the wrapped counters tell full and empty exactly |
| PipeSafety.PushOk | kernel/pipe.c:95-95 | a byte put in extends the ring |
| PipeSafety.PullOk | kernel/pipe.c:120-120 | the byte taken out is the oldest |
| PipeSafety.StepKeeps | kernel/pipe.c:58-127 | every step keeps the ring, the lock and the sleepers' reasons to sleep |
| PipeSafety.GiveUpKeepsIff | kernel/pipe.c:86-89 | a writer that gives up leaves sleeping readers right if and only if there are none |
| PipeSafety.Fifo | kernel/pipe.c:76-127 | for every interleaving the bytes read are a prefix of the bytes written, and 0 to 512 are inside, also after wrap-around |
| PipeSafety.SleepingWriterFindsFull | kernel/pipe.c:84-92 | whenever the lock is free a sleeping writer finds the pipe full and open for reading |
| PipeSafety.SleepingReaderFindsEmpty | kernel/pipe.c:109-116 | without a killed writer, whenever the lock is free a sleeping reader finds the pipe empty and open for writing |
| PipeSafety.StrandedReader | kernel/pipe.c:86-89 | with a killed writer there is a run after which the lock is free and a reader sleeps at a full pipe |
| PipeCode.Pipe.constructor | kernel/pipe.c:33-36 | a new pipe is empty and its ring well formed |
| PipeCode.Pipe.Fill | kernel/pipe.c:84-96 | bytes go in, in order, until none are left or the pipe is full |
| PipeCode.Pipe.Drain | kernel/pipe.c:117-123 | the oldest bytes come out, in order |
| Grep.HereSound | user/grep.c:82-104 | a match is explained by one string per pattern item |
| Grep.HereComplete | user/grep.c:82-104 | every such explanation is found |
| Grep.MatchExact | user/grep.c:70-80 | match is true exactly when the pattern's meaning holds at some start position |
| Grep.Matchhere | user/grep.c:82-94 | true exactly when the meaning of the pattern holds at the start of the text; the mutual recursion terminates |
| Grep.Matchstar | user/grep.c:96-104 | the loop computes the repetition |
| Grep.MatchLine | user/grep.c:70-80 | the loop over start positions decides the meaning |

## Left out

- Boot, traps, timer, interrupt controller, UART and console: device plumbing, and a simpler relative of the pipe.
- Memory ordering: all models are sequentially consistent, and the virtio device reports status 0.
- virtio feature negotiation in `virtio_disk_init`.
- `exec`, system call argument fetching, formatted output and the small user commands.
- File descriptors, the file table (`filealloc`, `filedup`, `fileclose`) and the inode cache (`iget`, `idup`) with their reference counts: freeing an inode takes the absence of references as given.
- Process ids: `pid` and `nextpid` are unbounded, so the 32-bit wrap of `allocpid`, after which two processes can share a pid, is not modelled.
- `uvmunmap` without `do_free`, which nothing calls.
- Where the log lies and how large it is (`sb.logstart`, `sb.nlog`) are parameters: the program that makes a file system is not part of this model. The disk has at most 2^31 blocks, as the driver can address (`VirtioLimits.RightBlockIff`).
- Writes past the end of the disk: the device refuses them and the kernel stops.
- More than one disk: block numbers are those of one device; `Bio` covers device numbers.
- The inode table is typed rather than bytes of inode blocks; the free map, the log header and indirect blocks are bytes.
- LogCode.Log.Commit: the log's own code runs with no buffer held by others and in a safe layout, which the protocol steps (`LogProtocol`) do not assume.
- LogCode.Log.EndOp: the same; it calls commit.
- Bio.Bcache.Install: the same; it runs as one step of commit or recovery.
- LogCode.Log.BeginOp: one pass of its loop; a caller that is not admitted sleeps and tries again.
- FsCode.Fs.FileWrite: `FsCode`, `LinkCode` and `VmCode` are sequential; filewrite drops the inode lock between its chunks, and other writers in between are not modelled.
- FsCode.Fs.Writei: whether the buffer of a faulting chunk is kept or recycled is a parameter, fixed when the call returns.
- FsCode.Fs.Balloc: reads of the free map see current content, as the log and cache provide; a volume of more than 2^31 blocks would overflow its int counter, about which C says nothing, and which is modelled as the panic.
- FsLimits.UnlinkFitsIff: of the operations that change directories only the last unlink has its transaction bounded; create, mkdir and link have not.
- LinkCode.Names.Create: the disk never runs out of blocks for directory entries; what a panic leaves behind is not described, since the kernel stops.
- LinkCode.Names.SysLink: the same.
- LinkCode.Names.Namex: locking.
- MallocCode.Allocator.Malloc: block sizes do not wrap at 32 bits; the addresses sbrk returns only grow; a request that `MallocCode.SbrkArgument` shows sbrk to misread is covered only if a free block fits it.
- VmCode.Kernel.Uvmunmap: ranges of mapped pages that do not wrap past 2^32, as its callers pass.
- VmCode.Kernel.Mappages: the contents of user pages and the memory attributes of an entry other than its permission.
- VmCode.Kernel.Uvmcopy: the bytes it copies, as above; its panics on a page of the parent that is not mapped, which its caller rules out.
- VmCode.Kernel.Kalloc: the free list is a sequence rather than links inside the free pages, and its spinlock is not modelled.
- ProcTheorems.SleepersFindItHeld: of the users of sleep and wakeup only sleep locks and wait are modelled; deadlock between spinlocks is not.
- PipeSafety.Fifo: sleep releases the lock and falls asleep in one step, as proved for sleep locks; the page of a closed pipe is not freed.
- ShellCode.Parsecmd: words are spans of the text; memory for tree nodes is always there.
- Grep.MatchLine: the line buffering of grep itself.
