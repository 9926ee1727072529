# RhythmOS, verified

RhythmOS is a small UNIX-like kernel for the i386. This project models the parts of it whose
correctness is decided by code and state, and proves what they are for.

**The buddy allocator** (`BuddyTiling`, `BuddyAllocator`, `BuddyRuns`). The heap, the table of
block sizes and the free lists are arrays that the methods change in place, the list links lying
in the free blocks themselves. The invariant: aligned power-of-two blocks tile the heap, the table
describes them, each free list is a chain of exactly the free blocks of its size, and no two
buddies are both free. The last clause makes the partition a function of the used blocks, which is
why frees undo allocations in any order. The variant in which exhaustion returns NULL is modelled.

**Physical pages and address spaces** (`PageModel`, `Pages`, `PageContents`, `PageLoops`,
`SpaceLayout`, `AddressSpaces`). Physical memory is an array of frames. Every frame in use has one
role: page directory, table, or mapped page of one directory. Two-level tables (section 4.3 of the
Intel SDM, Volume 3A) refine a flat map for each directory, and start, fork, brk, execve and kill
are proved on whole address spaces. Pages and frames are named by number instead of by address.

**Processes** (`ProcessState` to `CallOutcomes`). The system calls are specified as functions on the
state of the process table, lists, handles and pipes; `ProcessInvariant.Inv` is what every call
keeps, and `Stable` what holds between interrupts. `KernelTable.Kernel` is the kernel's data: the
process table, the two lists linked through it (`ProcessLists`), mailboxes of eight places
(`Mailboxes`), growing pipe buffers (`PipeBuffers`), handles, and the address spaces. `KernelSteps`,
`KernelCalls`, `KernelLives` and `KernelDispatch` carry the calls out on that data, in the order of
the code, and are proved to do what the functions say (`Commuting` shows that the order of closing
and marking makes no difference, `Filing` that processes are on the right lists meanwhile).
`MemoryChanges` says what calls do to memory. `KernelRuns` puts interrupts together to whole runs from
start-up, `Answering` says what calls and switches give back to processes, and `ConsoleRuns` that
processes read what was typed. One interrupt is one step, since gates run with interrupts off.

**Images, paths and arguments** (`ImageFormat`, `ImageBuilder`, `PathLookup`, `ImageRoundTrip`,
`Paths`, `AbsolutePath`, `ArgumentPacking`, `ByteMoves`). The filesystem image builder and the path
resolver are inverse to each other; path normalisation in a bounded buffer computes a fold over the
components; the arguments that execve packs are the ones the new program finds.

Where a property fails of the code, the exact condition is proved: `KillKeepsIff` for killing a
process that sleeps in a read or is dead already, `SendKeepsIff` for sending to a dead process,
`MemMoveRight` for overlapping moves. `HarmfulRuns` gives runs from start-up that reach the first
two.

Reading order: `Powers` and `Bytes` are vocabulary; otherwise each group can be read on its own, in
the order given. `dafny verify dfyconfig.toml` checks everything.

## Model

| member | source | states |
|---|---|---|
| `BuddyAllocator.MForSize` | src/buddy.c:40-47 | the least measure of at least 8 whose power of two is strictly greater than the request; that power is at most 256 or at most twice the request |
| `BuddyAllocator.MeasureUnique` | src/buddy.c:40-47 | only one measure fits a request, so the size of an allocated block is determined |
| `BuddyTiling.BuddyLaws` | src/buddy.c:49-65 | the buddy relation is symmetric and two buddies lie side by side in one aligned block of twice the size |
| `BuddyAllocator.MemArea.GetBuddy` | src/buddy.c:57-65 | the bit manipulation computes the buddy of the recorded size |
| `BuddyAllocator.MemArea.AddToFreelist` | src/buddy.c:74-79 | the block goes to the front of its list through a word in the free block itself; no byte of a used block changes and the assert holds |
| `BuddyAllocator.MemArea.FindInFreelist` | src/buddy.c:87-102 | the search along links in the heap ends and finds a listed block |
| `BuddyAllocator.MemArea.RemoveFromFreelist` | src/buddy.c:87-102 | exactly that block leaves its list, the others keep their order; only links in free blocks are rewritten and `found` is always set |
| `BuddyAllocator.MemArea.FindSize` | src/buddy.c:129-145 | the first non-empty list from the wanted size upwards, or none when all are empty |
| `BuddyAllocator.MemArea.SplitDown` | src/buddy.c:147-176 | repeated halving of the first block of a larger list ends with a block of the wanted size at the same address; used blocks and their bytes stay, and coalescing is lost only around that block |
| `BuddyAllocator.MemArea.TakeFirst` | src/buddy.c:178-188 | the first block of the wanted size becomes used and leaves its list |
| `BuddyAllocator.MemArea.Alloc` | src/buddy.c:122-189 | keeps tiling, table, lists and full coalescing; returns NULL exactly when no aligned window of the rounded size is wholly free, and then changes nothing; otherwise the block was a free window and is the only new used block; bytes of used blocks stay |
| `BuddyAllocator.MemArea.MergeBuddy` | src/buddy.c:235-248 | one round of coalescing replaces a free block and its free buddy by the block of twice the size at the lower address |
| `BuddyAllocator.MemArea.Coalesce` | src/buddy.c:235-248 | the loop ends with no two free buddies anywhere in the heap |
| `BuddyAllocator.MemArea.Free` | src/buddy.c:203-254 | NULL is ignored; a used block becomes free and only that one; the invariant with full coalescing holds again and no byte of a block still used changes |
| `BuddyAllocator.MemArea.constructor` | src/buddy.c:286-300 | one free block of the whole heap, on its list, satisfies the invariant |
| `BuddyAllocator.MemArea.ClientWrite` | src/buddy.c:67-79 | any store inside an allocated block keeps the allocator invariant, although list links live in the same heap |
| `BuddyTiling.Owner` | src/buddy.c:122-189 | in a tiled heap every byte belongs to a block |
| `BuddyTiling.FreeWindowInOneBlock` | src/buddy.c:231-248 | in a coalesced heap an aligned free window lies inside a single free block |
| `BuddyTiling.UsedBlocksDetermineTiling` | src/buddy.c:198-201 | two coalesced partitions of the heap with the same used blocks are equal |
| `BuddyTiling.RoomIffLargeFreeBlock` | src/buddy.c:129-145 | in a coalesced heap an aligned free window of a size exists if and only if a free block at least that large does |
| `BuddyTiling.SplitKeepsTiling` | src/buddy.c:160-168 | halving a block keeps the partition exact, aligned and free of overlap |
| `BuddyTiling.MergeKeepsTiling` | src/buddy.c:238-244 | merging two buddies keeps the partition exact, aligned and free of overlap |
| `BuddyTiling.SplitKeepsCoalescing` | src/buddy.c:151-175 | halving creates no pair of free buddies except around the block being cut |
| `BuddyRuns.Exercise` | src/testbuddy.c:63-106 | any sequence of requests, frees and client stores keeps the allocator invariant, and the blocks handed out and not yet freed are exactly the used ones |
| `BuddyRuns.OutstandingDisjoint` | src/buddy.c:122-189 | outstanding blocks never overlap and lie inside the heap |
| `BuddyRuns.FreeAll` | src/buddy.c:191-202 | whatever the order of the frees, the heap ends up in the one coalesced partition with the remaining used blocks; when none remain it is the initial single block |
| `BuddyRuns.AllocThenFree` | src/buddy.c:191-202 | a free undoes an allocation: the same partition as before, and every used block keeps its bytes |
| `ImageBuilder.Output.Append` | src/fstool.c:59-68 | the growing buffer holds what it held followed by the new bytes |
| `ImageBuilder.ProcessMember` | src/fstool.c:136-147 | a file or directory is appended whole and only behind what was there |
| `ImageBuilder.ProcessDir` | src/fstool.c:91-155 | the directory appended, its entries back-patched at the end, holds the whole subtree; earlier bytes are a prefix of the result |
| `ImageBuilder.PatchedDirectory` | src/fstool.c:132-149 | writing the entry locations over the directory table makes the directory complete and disturbs none of its descendants |
| `ImageBuilder.EntryRoundTrip` | src/fstool.c:119-127 | the fields of an encoded entry, name included, read back as written |
| `ImageBuilder.Build` | src/fstool.c:378-395 | the built image holds the tree behind a root entry |
| `ImageFormat.HoldsFrame` | src/fstool.c:132-149 | whether a region holds a tree depends only on the bytes of that region |
| `PathLookup.Lookup` | src/filesystem.c:24-33 | the first entry with exactly the given name, or none |
| `PathLookup.GetDirectoryEntry` | src/filesystem.c:53-99 | resolving a path in an image agrees with walking the tree: the entry of the member named, -ENOENT when there is none, and a file followed by more path is not there |
| `ImageRoundTrip.EntryReadBack` | src/filesystem.c:57-98 | type, size and bytes found through a resolved entry are those of the member |
| `ImageRoundTrip.BuildAndGet` | src/fstool.c:371-413 | for every well-formed tree and every path, building and then resolving reports the type, size and bytes of what the path names, and -ENOENT for absent paths |
| `Paths.ComponentsSlash` | src/filesystem.c:139-183 | the components of two paths joined by a slash are the components of the first followed by those of the second |
| `Paths.ComponentsRender` | src/filesystem.c:139-183 | the components of a rendered list of names are those names |
| `AbsolutePath.TargetCanonical` | src/filesystem.c:112-184 | the target of a path from a canonical directory is canonical: no empty, "." or ".." components |
| `AbsolutePath.TargetComposes` | src/filesystem.c:112-184 | going to r1 and from there to the relative path r2 is going to r1/r2 |
| `AbsolutePath.AbsoluteAnywhere` | src/filesystem.c:115-119 | a path that begins with '/' leads to the same directory from everywhere |
| `AbsolutePath.TargetRendered` | src/filesystem.c:112-184 | the canonical path of a directory leads to that directory, from everywhere |
| `AbsolutePath.TargetName` | src/filesystem.c:164-176 | a name leads one directory down, to the one of that name |
| `AbsolutePath.TargetDots` | src/filesystem.c:147-163 | ".." leads back up and stays at the root; "." and the empty path stay |
| `AbsolutePath.DownCutOff` | src/filesystem.c:164-176 | without the room a name is cut off exactly where the buffer ends |
| `AbsolutePath.UpCutsOff` | src/filesystem.c:150-163 | whatever the buffer holds, ".." cuts it off at its last slash, and keeps that slash at the root |
| `AbsolutePath.EditsReachTarget` | src/filesystem.c:134-183 | with a canonical base and enough room, the edits of the string compute the rendering of the stack fold over the components |
| `AbsolutePath.GoUp` | src/filesystem.c:150-163 | the ".." branch removes the last component in place, and stops at the root |
| `AbsolutePath.GoDown` | src/filesystem.c:164-176 | a name is added behind a slash, clipped to the room there is |
| `AbsolutePath.RelativeToAbsolute` | src/filesystem.c:112-184 | for any lengths the result is terminated inside the buffer; with enough room a path that begins with '/' gives its target from the root whatever the base is, and any other path its target from a canonical base |
| `ArgumentPacking.Pack` | src/unixproc.c:348-388 | the backward copy with its pointer table fills the whole block with argc, argv, pointers and strings, in that order |
| `ArgumentPacking.StringsTile` | src/unixproc.c:358-377 | the strings lie back to back from the end of the pointer table to the end of the block: no gap and no overlap |
| `ArgumentPacking.ArgumentFound` | src/unixproc.c:365-377 | once the block ends at the top of the stack, pointer i leads to a copy of argument i |
| `ArgumentPacking.PackedArgumentsFound` | src/unixproc.c:424-438 | round trip: following argc and argv from the stack pointer gives back the argument list |
| `ByteMoves.MemMove` | src/libc.c:52-60 | the loop computes the byte-by-byte forward copy in place |
| `ByteMoves.MemMoveRight` | src/libc.c:52-60 | the forward copy moves the bytes as they were if and only if the move is to the left, does not overlap, or the data repeats with the distance of the move |
| `ByteMoves.ForwardEchoes` | src/libc.c:52-60 | after a move to the right every byte equals the one it was copied from, so an overlap smears |
| `ByteMoves.OverlapExample` | src/libc.c:52-60 | a concrete case: moving two bytes one place to the right loses the second |
| `PipeBuffers.PipeBuffer.constructor` | src/pipe.c:18-28 | a new buffer is an empty pipe open at both ends |
| `PipeBuffers.PipeBuffer.Grow` | src/pipe.c:67-80 | doubling reaches the needed size and less than twice it without wrapping, and the bytes are kept |
| `PipeBuffers.PipeBuffer.Write` | src/pipe.c:65-87 | the buffer then holds what it held followed by the new bytes; len stays within alloc; all bytes written equal those read followed by those buffered |
| `PipeBuffers.PipeBuffer.Read` | src/pipe.c:232-243 | hands over the oldest bytes and shifts the rest down in place, as the pipe of the process model does |
| `ProcessLists.ListAdd` | src/include/kernel.h:158-167 | the process becomes the first of a well-formed doubly linked list; links of processes off the list stay |
| `ProcessLists.ListRemove` | src/include/kernel.h:169-180 | the process leaves the list, the rest stays well-formed in order, and its own links are cleared |
| `ProcessLists.Lists.Suspend` | src/process.c:312-319 | both lists stay well-formed and disjoint while a process moves from ready to suspended |
| `ProcessLists.Lists.Resume` | src/process.c:332-339 | both lists stay well-formed and disjoint while a process moves from suspended to ready |
| `ProcessLists.Lists.Drop` | src/process.c:229-232 | a killed process leaves whichever list it was on |
| `ProcessLists.Lists.Choose` | src/process.c:386-389 | following the links gives the successor in the ready list, or the first process |
| `ProcessSteps.WakeReaderKeeps` | src/pipe.c:39-45 | waking the recorded reader of a pipe meets the asserts of resume_process, forgets the reader and keeps the invariant |
| `ProcessSteps.WritePipeKeeps` | src/pipe.c:65-93 | a write to a pipe keeps the invariant and leaves no reader asleep on data |
| `ProcessSteps.DropKeeps` | src/filedesc.c:81-87 | giving up one reference meets every assert on the way, destroys the handle exactly at the last reference, and keeps counts, pipe ends and wake reasons right |
| `ProcessSteps.DropAllKeeps` | src/process.c:234-238 | closing a whole descriptor table keeps the invariant |
| `ProcessSteps.KillKeeps` | src/process.c:220-297 | killing a live process that does not sleep in a read meets all asserts and keeps the invariant |
| `ProcessSteps.KillKeepsIff` | src/process.c:220-297 | the exact condition: killing a process keeps the invariant if and only if it lives and does not sleep in a read, or is dead and had closed all its descriptors, because neither readpid nor filedesc is cleared |
| `AfterDeath.DoKillKeepsIff` | src/syscall.c:226-237 | the same for the call as a whole: asserts, invariant, and what its caller and the others keep |
| `AfterDeath.SendKeepsIff` | src/syscall.c:257-293 | the exact condition: send keeps the invariant if and only if it is refused, or its receiver lives, or the receiver was not blocked in a receive when it died |
| `HarmfulRuns.KilledInRead` | src/process.c:220-297 | a run from start-up: the first process forks and sleeps in a read of the console, and its child would do harm by killing it |
| `HarmfulRuns.KilledTwice` | src/process.c:220-297 | a run from start-up: the first process forks and kills its child; a second kill would close the child's descriptors again |
| `HarmfulRuns.SentAfterDeath` | src/syscall.c:286-290 | a run from start-up: a child waits for a message and is killed; a message would make it ready although it is dead |
| `ProcessCalls.DoWriteKeeps` | src/syscall.c:144-154 | write keeps the invariant and returns to its caller |
| `ProcessCalls.DoReadKeeps` | src/pipe.c:223-256 | read keeps the invariant; if it sleeps, it does so recorded in an empty pipe that is still open for writing |
| `ProcessCalls.DoSendKeeps` | src/syscall.c:257-293 | send keeps the invariant and wakes a blocked receiver, unless the receiver was blocked when it died |
| `ProcessCalls.DoReceiveKeeps` | src/syscall.c:304-323 | receive keeps the invariant; it sleeps only on an empty mailbox |
| `ProcessCalls.DoWaitpidKeeps` | src/unixproc.c:454-484 | waitpid keeps the invariant; it sleeps only for a live child |
| `DescriptorCalls.DoCloseKeeps` | src/filedesc.c:96-105 | close keeps the invariant |
| `DescriptorCalls.DoDup2Keeps` | src/filedesc.c:119-139 | dup2 keeps the invariant |
| `DescriptorCalls.DoOpenKeeps` | src/fscalls.c:94-124 | open keeps the invariant, whether it fails for want of a descriptor, fails for the path or its type, or succeeds |
| `DescriptorCalls.DoPipeKeeps` | src/pipe.c:309-360 | pipe keeps the invariant |
| `DescriptorCalls.DoForkKeeps` | src/unixproc.c:75-160 | fork keeps the invariant: every inherited slot is counted |
| `DescriptorCalls.DoKillKeeps` | src/syscall.c:226-237 | kill keeps the invariant, also when a process kills itself, for every target but a sleeper in a read and a dead process with open descriptors |
| `DescriptorCalls.DoExitKeeps` | src/syscall.c:127-133 | exit keeps the invariant |
| `Scheduler.ExecKeeps` | src/syscall.c:359-438 | whichever call is dispatched, its caller afterwards still runs, sleeps in it, or is dead, and other processes keep their calls and frames |
| `Scheduler.PendingShrinks` | src/process.c:401-402 | a call that puts its caller to sleep leaves one ready process with a pending call fewer |
| `StartUp.BootStable` | src/process.c:138-211 | the state after start-up satisfies the invariant |
| `KernelRuns.NoLostWakeUps` | src/process.c:312-339 | in every stable state a suspended process has exactly one wake reason, and what it awaits has not happened: its pipe is empty and open, its child lives, its mailbox is empty |
| `KernelRuns.HandleIffReferenced` | src/filedesc.c:73-87 | a handle exists if and only if a live process has a descriptor that refers to it |
| `KernelRuns.PipeIffReferenced` | src/pipe.c:95-109 | a pipe exists if and only if a live descriptor is on one of its ends, or it is the console pipe |
| `KernelRuns.RoundRobin` | src/process.c:381-389 | the k-th switch from the i-th process of a ready list reaches process i + k, counted around the list |
| `KernelRuns.Turns` | src/process.c:381-389 | n timer interrupts, n being the number of ready processes, none with a pending call: the processes that run are the ready list, each exactly once |
| `KernelRuns.KeyboardKeeps` | src/keyboard.c:32-44 | a typed character keeps the invariant |
| `KernelRuns.Interrupt` | src/interrupts.c:165-200 | every interrupt leads from a stable state to a stable one and does what it is for: a system call is served, its caller going on with the result in EAX or the next process with its own frame; a typed key goes into the console pipe, a page fault kills the process that ran, and then, as for the timer, the next ready process goes on; memory changes only as the call or the death asks |
| `KernelRuns.KeyArrives` | src/keyboard.c:36-38 | a typed key is appended to the data and to the history of the console pipe, and the process that slept on it becomes the first ready one; nothing else changes |
| `KernelRuns.KeyReaches` | src/keyboard.c:32-44 | after the whole keyboard interrupt that key and nothing else has been written anywhere, nobody has died, and the process that slept on the console is awake |
| `KernelRuns.FaultKills` | src/interrupts.c:191-198 | after a page fault interrupt the process that ran is dead and everybody else lives as before |
| `KernelRuns.TrapAnswered` | src/interrupts.c:188-190 | after a system call interrupt a call that completes has been answered, and one that does not has given way to the next ready process |
| `KernelRuns.Run` | src/process.c:363-411 | every run from start-up goes through its interrupts one by one, each leading to what it is for; every state is stable, the linked lists are well-formed and partition the live processes by their ready flags, pipe buffers hold at most what is allocated, mailboxes at most 8 messages, and exactly the live processes have address spaces |
| `ConsoleRuns.ReadAsTyped` | src/keyboard.c:32-44 | in every run the bytes read from the console followed by those that wait there are exactly the keys typed, in order, but for keys that find 2 GB waiting |
| `ConsoleRuns.CallUntyped` | src/keyboard.c:36-38 | no system call of any process writes to the console pipe |
| `Answering.ErrnoTold` | src/syscall.c:440-464 | asking for the error right after a call gives e and EAX was -1 if the call failed with -e, and 0 if it succeeded; asking again gives the same |
| `Answering.SwitchedUndisturbed` | src/process.c:363-411 | whatever calls a context switch executes again, nobody starts or ends, nothing is opened, closed or written and no message is sent |
| `Answering.WokenStaysAwake` | src/process.c:396-402 | a process woken because there is something to read is still awake after the switch, whichever processes execute their calls again |
| `CallEffects.Fifo` | src/pipe.c:65-93 | bytes read from a pipe followed by those buffered are all bytes written, in order; mailboxes likewise, with at most 8 messages |
| `CallEffects.ReadTakesOldest` | src/pipe.c:232-243 | a read that finds data hands over the oldest bytes, as many as asked for if there are that many, and touches nothing else |
| `CallEffects.ReadEmpty` | src/pipe.c:244-255 | on an empty pipe read reports end of file if and only if no handle can write to it and it is not the console pipe, and sleeps otherwise |
| `CallEffects.WriteAppends` | src/pipe.c:65-93 | a write appends and makes the waiting reader the first ready process |
| `CallEffects.Dup2Shares` | src/filedesc.c:107-139 | both descriptors share one handle and no other descriptor changes |
| `CallEffects.PipeJoinsEnds` | src/pipe.c:314-360 | the two lowest free descriptors are the two ends of a new empty pipe; it fails if and only if fewer than two are free |
| `CallEffects.ForkTwin` | src/unixproc.c:75-160 | the child takes the lowest free slot, shares all descriptors and sees 0 in the parent's registers; it fails if and only if no slot is free |
| `CallEffects.WaitpidReaps` | src/unixproc.c:443-484 | a dead child is reported and its slot freed, a live one is waited for, anything else is an error |
| `CallEffects.KillBuries` | src/process.c:220-297 | a dead process is on no list, keeps its slot only for a parent to collect, loses its children and wakes a waiting parent |
| `CallOutcomes.CloseReleases` | src/filedesc.c:96-105 | close fails if and only if the descriptor is not open, and then changes nothing; otherwise that descriptor of the caller and no other becomes free, and its handle has one reference less or goes with the last one |
| `CallOutcomes.CloseShutsEnd` | src/pipe.c:264-270 | closing the last descriptor on an end of a pipe closes that end, or removes the pipe when the other end is closed; all other pipes stay as they were and a closed writing end leaves no sleeping reader |
| `CallOutcomes.Dup2Fails` | src/filedesc.c:119-131 | dup2 fails if and only if one of the two is no descriptor or the old one is not open, and then changes nothing |
| `CallOutcomes.Dup2OpensNothing` | src/filedesc.c:133-138 | dup2 makes no handle and changes the kind of none |
| `CallOutcomes.PipeTouches` | src/pipe.c:333-357 | pipe changes no handle, pipe or process that was there, but for the descriptors of its caller |
| `CallOutcomes.OpenTakesLowest` | src/fscalls.c:94-124 | open gives the lowest free descriptor a new handle with one reference; it fails if and only if none is free or the path lookup fails, and then changes nothing |
| `CallOutcomes.WriteElsewhere` | src/filedesc.c:18-22 | a write to the screen reports all its bytes; a write to a closed descriptor, a file or a reading end is an error; none of these changes anything |
| `CallOutcomes.WriteTouches` | src/pipe.c:65-93 | a write to a pipe adds exactly its bytes to that pipe and touches no other pipe, no handle and no process but the reader it wakes |
| `CallOutcomes.ReadElsewhere` | src/syscall.c:163-173 | a read of the screen, of a writing end, of a closed descriptor or of a pipe somebody waits for is an error, a file answers for itself, and an empty pipe without writers is at its end; none of these changes anything |
| `CallOutcomes.ReadSleeps` | src/pipe.c:248-255 | a read that has to wait puts its caller to sleep, recorded in the pipe, and does nothing else |
| `CallOutcomes.SendDelivers` | src/syscall.c:257-293 | the message, with its sender, becomes the last in the mailbox, and a receiver that slept the first ready process; send fails for a missing process, a long message or a full mailbox, in this order, and then changes nothing |
| `CallOutcomes.ReceiveTakesOldest` | src/syscall.c:304-323 | receive takes exactly the oldest message; without one it sleeps or fails, as asked |
| `CallOutcomes.WaitpidTouches` | src/unixproc.c:454-484 | waitpid changes nothing but the slot it frees and what its caller waits for |
| `CallOutcomes.ForkCountsTwice` | src/unixproc.c:126-137 | after fork each handle counts as many references more as the parent has descriptors on it, keeps its kind, and none is new |
| `CallOutcomes.KillOutcome` | src/syscall.c:226-237 | kill fails if and only if there is no such process, and then changes nothing; otherwise that process and no other is dead, and the caller goes on unless it was the one |
| `CallOutcomes.ExitLeavesStatus` | src/syscall.c:127-133 | exit ends its caller and no other, leaves the status for the parent and wakes a parent that waits |
| `CallOutcomes.BootStreams` | src/process.c:190-197 | at start-up standard input of the one process is the reading end of the console pipe, standard output and error are two screens, and nothing else is open |
| `Commuting.ClearAfterDrop` | src/filedesc.c:96-105 | closing the handle before the slot is cleared, as the code does, gives the same state as the other order |
| `Commuting.KillInOrder` | src/process.c:220-297 | closing descriptors before the process is marked dead and its children disowned gives the same handles, pipes, lists and ready flags as afterwards |
| `KernelTable.Kernel.SuspendProcess` | src/process.c:312-319 | on the links of the process table: the process is unlinked from the ready list and linked in front of the suspended one, its flag cleared, both lists stay well-formed and disjoint, and nothing else of the state changes |
| `KernelTable.Kernel.ResumeProcess` | src/process.c:332-339 | the reverse move on the links, with the flag set |
| `KernelTable.Kernel.ChooseCurrent` | src/process.c:386-389 | following the links from the current process gives the next one in the ready list, or the first |
| `KernelTable.Kernel.PutMail` | src/syscall.c:268-284 | a new mailbox, one with room or a full one: the message is appended exactly when fewer than 8 are there |
| `KernelTable.Kernel.TakeMail` | src/syscall.c:309-315 | the oldest message is handed over and the mailbox loses it |
| `KernelTable.Kernel.TakePipe` | src/pipe.c:232-243 | the oldest bytes are handed over; no other pipe changes |
| `Mailboxes.ShiftDown` | src/syscall.c:311-313 | the overlapping leftward move: the messages behind the first move down one place in order, other mailboxes stay |
| `PipeBuffers.PipeStore.Write` | src/pipe.c:65-87 | one buffer gets the bytes, possibly in new memory, and every other buffer keeps its contents |
| `KernelSteps.WakeUpReader` | src/pipe.c:39-45 | resumes the recorded reader, which is on the suspended list, and forgets it |
| `KernelSteps.WriteToPipe` | src/pipe.c:65-93 | appends to the buffer and wakes the reader |
| `KernelSteps.CheckBufferFree` | src/pipe.c:102-109 | afterwards a buffer is there if and only if one of its ends was open, and the assert holds |
| `KernelSteps.DestroyHandle` | src/pipe.c:151-158 | a reader closes the reading end; a writer closes the writing end and wakes the reader; the pipe goes with its last end |
| `KernelSteps.CloseFilehandle` | src/filedesc.c:81-87 | one reference fewer, or the handle destroyed |
| `KernelSteps.CloseAll` | src/process.c:234-238 | the loop closes every open descriptor in order, and the lists stay right while readers are woken |
| `KernelSteps.Disown` | src/process.c:269-273 | the loop takes the parent from exactly the children of the process |
| `KernelSteps.KillProc` | src/process.c:220-297 | in the order of the code the state is that of the specification `KillProcess`: buried, descriptors closed, memory given back, parent told |
| `Filing.InvFiled` | src/process.c:208-232 | under the invariant every live process is on the list that its ready flag names and nobody else is on a list, so list_add and list_remove are called rightly |
| `Filing.DropFiled` | src/filedesc.c:81-87 | closing a handle keeps that so, also while a process is being killed |
| `KernelStart.StartFirst` | src/process.c:138-211 | start_process on empty data leads to the start-up state, with an address space that has a zeroed stack and nothing else |
| `KernelCalls.SyscallWrite` | src/syscall.c:144-154 | on the buffers of the kernel the write of the process model, for pipes below 2 GB |
| `KernelCalls.SyscallRead` | src/pipe.c:223-256 | the read of the process model, with its four outcomes; the bytes handed over are those that the pipe records as taken |
| `KernelCalls.SyscallSend` | src/syscall.c:257-293 | on mailboxes and lists the send of the process model |
| `KernelCalls.SyscallReceive` | src/syscall.c:304-323 | on mailboxes and lists the receive of the process model; the message handed over is the one recorded as received |
| `KernelCalls.SyscallWaitpid` | src/unixproc.c:454-484 | the waitpid of the process model, handing over the exit status of the child |
| `KernelCalls.SyscallClose` | src/filedesc.c:96-105 | the close of the process model, although the handle goes before the slot; `CallOutcomes.CloseReleases` says what that close does |
| `KernelCalls.SyscallDup2` | src/filedesc.c:119-139 | the dup2 of the process model |
| `KernelCalls.SyscallOpen` | src/fscalls.c:89-125 | fails without a free descriptor, then for the path or its type, otherwise the lowest free descriptor gets a new handle with one reference |
| `KernelCalls.FindTwoFds` | src/pipe.c:317-331 | the single scan finds the two lowest free descriptors |
| `KernelCalls.SyscallPipe` | src/pipe.c:309-360 | the pipe of the process model, with a new buffer; the two descriptors handed over were free and are on the two ends of one new pipe |
| `KernelCalls.GetFreePid` | src/process.c:112-121 | the lowest unused pid above 0, or -1 when all are used |
| `KernelLives.ShareDescriptors` | src/unixproc.c:126-138 | the loop gives the child every descriptor and each handle as many references more as the parent has slots on it |
| `KernelLives.SyscallFork` | src/unixproc.c:75-160 | the fork of the process model; the child gets an address space with its parent's segments, every page of which is a fresh frame with the contents of its parent's, and everybody else's memory is as it was; without a free slot no memory changes |
| `KernelLives.SyscallKill` | src/syscall.c:226-237 | the kill of the process model; exactly the frames of the process return, and nobody else sees a change in memory |
| `KernelLives.SyscallExit` | src/syscall.c:127-133 | the exit of the process model; exactly the frames of the process return, and nobody else sees a change in memory |
| `KernelLives.SyscallBrk` | src/syscall.c:201-224 | the data segment of the caller grows to whole pages with fresh zeroed frames, its other pages and everybody else's memory are as they were, and nothing of the process model changes |
| `KernelLives.SyscallExecve` | src/unixproc.c:390-422 | text and data of the caller become the pages of the program, its stack and everybody else's memory are as they were, and nothing of the process model changes; a failed execve changes no memory either |
| `KernelDispatch.ExecLives` | src/syscall.c:359-438 | only exit, kill and fork make or end processes |
| `KernelDispatch.Dispatch` | src/syscall.c:359-438 | the switch carries out the call that the frame names, in the process model and in memory, and live processes and address spaces still match |
| `KernelDispatch.Syscall` | src/syscall.c:335-472 | ends, together with context_switch; a call that completes returns at once with its result or -1 in EAX, the error kept for the next question, and execve starts the new program's frame; one that sleeps leads to what the next ready process comes to; memory changes only as the call asks; every surviving process keeps its frame, except that EAX of a completed call shows its result |
| `KernelDispatch.ContextSwitch` | src/process.c:363-411 | ends, as ready processes with a pending call become fewer; goes on with the frame saved by the next process of the ready list, having executed its call again if it was in one, or idle when the list is empty; memory is as it was |
| `PageModel.OneEntry` | src/page.c:143-150 | writing one table entry changes what one page of one directory maps, and no other page of any directory |
| `PageModel.SetMapping` | src/page.c:143-150 | mapping a loose frame keeps every frame in exactly one role |
| `PageModel.ClearMapping` | src/page.c:192-196 | clearing an entry releases exactly the frame it mapped |
| `PageModel.DropDirectory` | src/page.c:233-252 | a directory can go with its tables and leaves all others intact, stranding the frames it maps |
| `Pages.OneKey` | src/page.c:94-151 | changing one entry changes one key of one directory's flat map |
| `Pages.Memory.constructor` | src/page.c:18-34 | nothing is handed out at first |
| `Pages.Memory.AllocPage` | src/page.c:48-77 | a zeroed frame that was in no use; conservation and the acyclic free chain hold; no other frame changes |
| `Pages.Memory.FreePage` | src/page.c:85-92 | exactly that frame returns to the chain; conservation holds and the assert cannot fail |
| `Pages.Memory.LookupPage` | src/page.c:153-174 | agrees with the flat map: found if and only if the page is mapped, and then its frame |
| `Pages.Memory.NeedTable` | src/page.c:131-149 | the table for a page, made empty if missing: no mapping of any directory changes |
| `Pages.Memory.MapPage` | src/page.c:121-151 | the flat map of the directory gets exactly one key changed, to the frame with its permission bits, and no other directory's changes; a frame of the allocator's that the page mapped before is lost, otherwise every data frame stays; at most one frame is spent |
| `Pages.Memory.UnmapAndFreePage` | src/page.c:176-197 | exactly one key leaves the flat map and its frame returns to the allocator; an unmapped page changes nothing |
| `Pages.Memory.FreePageDir` | src/page.c:233-252 | the directory and exactly its own tables return to the allocator; frames that it still maps stay in use and belong to nobody |
| `PageLoops.IdentityMap` | src/page.c:207-214 | the pages of the range map to themselves with the given bits, all others as before; frames are spent only on tables that are missing |
| `PageLoops.MapNewPages` | src/page.c:222-231 | every page of the range gets a fresh zeroed frame and no other page changes |
| `PageLoops.MapAndCopy` | src/unixproc.c:31-53 | every page of the range gets a fresh frame with the source's contents; the lookup assert holds; the source is unchanged |
| `PageLoops.LoadFile` | src/unixproc.c:406-422 | the pages of the file, the last one padded with zeros, in fresh frames; returns the page-aligned end |
| `PageLoops.FilePageBytes` | src/unixproc.c:410-418 | byte by byte the loaded page is the file from that position on |
| `PageContents.SeparateFrames` | src/page.c:94-120 | two mapped pages, in one directory or two, never share an allocator frame |
| `SpaceLayout.FramesApart` | src/unixproc.c:97-124 | distinct pages of live processes have distinct frames |
| `SpaceLayout.BackedExactly` | src/syscall.c:201-224 | the pages of a live process backed by allocator frames are exactly those of its text, data and stack |
| `SpaceLayout.AllGivenBack` | src/process.c:240-258 | when no process lives, no frame is in use |
| `AddressSpaces.Spaces.Start` | src/process.c:155-185 | a new process has exactly a zeroed stack and the identity-mapped low memory; everybody else sees what they saw |
| `AddressSpaces.Spaces.Brk` | src/syscall.c:201-224 | the data segment grows to whole pages with fresh zeroed frames, never shrinks, and existing pages keep frame and contents |
| `AddressSpaces.Spaces.Fork` | src/unixproc.c:90-124 | every text, data and stack page of the child has a fresh frame with the parent's contents; translations and contents of the parent and all others are unchanged |
| `AddressSpaces.Spaces.Exec` | src/unixproc.c:390-422 | text and data are given back and the file loaded; the stack and all other processes keep frames and contents |
| `AddressSpaces.Spaces.Kill` | src/process.c:240-258 | exactly the frames, tables and directory of the process return; nobody else sees a change; after the last process everything is back |
| `AddressSpaces.Spaces.Run` | src/unixproc.c:97-124 | over any sequence of start, fork, brk, execve and kill the layout invariant holds, and with no process left every frame is free |

## Left out

- Run assumptions of the process model, checked by `MayTrap` before a call: no message is delivered to a process after it has exited, none is killed after it has exited or while it sleeps in a read, and pipes stay below 2 GB (a key that would make the console pipe longer is dropped). `KillKeepsIff` and `SendKeepsIff` say exactly when kill and send would break the invariant of the process table. Some of the other cases keep it (killing a dead process without open descriptors, sending to a dead process that was not blocked), but they touch memory that has been given back: kill_process frees the pages and the mailbox a second time (src/process.c:243-261), and syscall_send writes into the freed mailbox or makes one that nobody frees (src/syscall.c:268-284).
- KernelLives.SyscallKill: asks that the target live and not sleep in a read, for the reasons above.
- KernelCalls.SyscallSend: asks that a receiver that the message reaches live, for the reasons above.
- A NULL `current_process` at src/process.c:378 is read as staying NULL; the code dereferences it.
- The copying of results into user memory: the bytes of read, the message of receive and the status of waitpid are results of the methods, and `valid_pointer` and `valid_string` are not modelled. Calls with bad pointers, and calls that touch none of the modelled state, appear as `Other` with their result. What the path lookup says to open and execve, what file_read returns, and the frame that init_regs sets up are parameters of the calls.
- Permissions in page tables are recorded but not enforced, and the copying of the argument block into stack pages, the last step of execve, is not part of it here; `ArgumentPacking` has the block itself.
- Physical memory is bounded: start, fork, brk and execve are only made when the frames left suffice, which the code does not check.
- AddressSpaces.Spaces.Brk: asks for an end below the stack; above it the code would replace the stack's pages.
- AddressSpaces.Spaces.Exec: asks for a program that fits between the bases of text and data, 256 MB; the image is smaller.
- Pages.Memory.UnmapAndFreePage: asks that the page not be one of the identity-mapped ones below 6 MB; the code would put such a frame, which it does not own, on the free list.
- PageLoops.IdentityMap: asks for a range below 6 MB in a directory that maps nothing else yet, as its callers have it; above 6 MB it would map frames of the allocator's a second time.
- PageLoops.MapNewPages: asks for pages that are not mapped yet; `Pages.Memory.MapPage` says what becomes of the frames otherwise.
- PageLoops.MapAndCopy: asks the same of the destination.
- Kernel code start and end are parameters of `Start`; they are set by the linker.
- BuddyAllocator.MemArea.Alloc: requests are below 2^31 bytes; from there on the loop of mforsize does not end.
- BuddyAllocator.MemArea.Free: takes the start of a block in use or NULL, as the asserts demand as far as they can.
- ImageBuilder.Build: the host directory is an input tree whose recorded file sizes match the contents; mode, time and name tail of the root entry are parameters because the builder leaves them unset, and its size field is the 0 that is written.
- AbsolutePath.RelativeToAbsolute: the base path is not empty; with an empty one the code reads before the buffer.
- ArgumentPacking.Pack: the block fits below the top of the stack; the pointer table has no NULL at its end, as in the code.
- PipeBuffers.PipeBuffer.Write: buffered bytes and new bytes together stay below 2^31, where doubling the 32-bit size cannot wrap.
- Mailboxes are kept in one table with eight places for each process instead of being allocated with the first message; the NULL test remains. Messages are moved whole instead of byte by byte.
- vfork, which leaves the child's working directory empty; chdir, stat, getdent and file positions. File and directory handles are one kind.
- Zombies whose parent has died, and fairness while processes suspend: the code promises neither.
- vsnprintf and the other formatting and string functions of src/libc.c, realloc and the malloc wrappers of src/buddy.c.
- Interrupt and segment set-up, exceptions that halt the system, assembly, paging hardware, screen, keyboard tables and the user programs.
