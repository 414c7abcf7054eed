# haloOS in Dafny

haloOS is a small RISC-V kernel in the style of xv6, with a host tool `mkfs` that builds its disk image and a
user-space allocator. This project models the parts of it whose correctness is hard to see from the code, each in the
form the code has: classes whose methods follow the C functions statement by statement, and one step relation where
the code is concurrent. Numbers of pages, processes, CPUs, buffers, descriptors and files are symbolic throughout.

* **Page tables and pages** (`src/kernel/vm.c`; `Sv39Bits`, `PageTree`, `PageSteps`, `PageAlloc`, `PageFree`,
  `PageViews`, `PageLife`, `PageAccess`, `Vm`, `PageRun`). Physical memory is a map from page addresses to 512 words of 64 bits;
  tables live in the same pages `kalloc` hands out, and the free list is the linked list in the first words of the free
  pages. Class `Vm.Kmem` performs the writes. A ghost state says who owns every page. `PhysOk` is the invariant; `At` is
  the flat view of a tree, and the hardware's own walk is proved to see it. `PageRun` runs the methods one after the
  other, from `freerange` to the end of two processes.
* **exec** (`src/kernel/exec.c`; `PageExec`, `Exec`, `ExecChecks`, `ExecBytes`): an address space built beside the old one,
  which is then released, which programs are accepted, and whether the process has the bytes of its file.
* **Processes and locks** (`src/kernel/proc.c`, `spinlock.c`, `sleeplock.c`, `trap.c`; `ProcState` to `ProcProgress`,
  `ProcLost`). The program text is a table from program counters to instructions (an acquire, a release, one write to a
  shared field, a `swtch`, a jump); one step of a run is one instruction of one CPU, or an interrupt that it takes, at
  any counter where it has them on. The invariants of `ProcInv` hold in every state of every run (`ProcRuns`); `ProcTheorems`,
  `ProcCalls`, `ProcTurns` and `ProcProgress` say what follows for locks, calls, turns and progress.
* **Allocator** (`src/user/umem.c`; `Arena`, `ArenaFacts`, `Umem`): memory is counted in units of one header; every
  unit obtained from `sbrk` is owned by one free block or one block handed out.
* **Disk driver** (`src/kernel/virt.c`; `VirtRing`, `Virt`, `VirtSpin`): driver, device and interrupt handler on
  shared descriptors and two rings with 16-bit indices (section 2.6 of VIRTIO 1.1). Its sleep and wakeup are part of the
  runs of `ProcModel`.
* **Buffer cache** (`src/kernel/fs.c`; `BufList`, `Bio`): the doubly linked list, least recently used order, and
  agreement with the plain disk.
* **Disk image** (`src/mkfs.c` and `fs.c`; `LittleEndian`, `Bitmap`, `DiskInode`, `ImageFile`, `Directory`, `Mkfs`,
  `MkfsMain`, `DiskFormat`, `FileRead`, `KernelFs`, `FileName`): what `mkfs` writes, byte for byte, and what the kernel reads back.
* **Open files** (`src/kernel/file.c`, `sysfile.c`; `FileRefs`): reference counts against the descriptors of all processes.

`Numbers` holds arithmetic and counting. `dafny verify dfyconfig.toml` checks everything.

## Where the code departs from what it is meant to do

These are modelled as written; the lemmas say exactly when the outcome is the intended one.

* `readi` never advances `off` (src/kernel/fs.c:167): `FileRead.ReadiRight`. `exec` loads its segments through the
  same `readi`, page by page: `ExecBytes.SegBytesRight`, `ExecBytes.ImageRight`.
* `inodeByName` (src/kernel/fs.c:233) reaches past the entries when their number is a multiple of 64, because
  src/mkfs.c:166 then rounds the size one block too far; the lookup of an absent name then allocates a
  block, marks it in a buffer that is not written back, and reports the absence, or panics when there is none:
  `FileName.InodeByName`, `FileName.LostBlock`.
* `virtio_disk_isr` takes no lock (src/kernel/virt.c:238): `ProcLost.LostIffManyCpus`.
* `virt_disk_rw` spins with `disklock` held when descriptors run out (src/kernel/virt.c:98), for ever:
  `Virt.Disk.Submit`, `VirtSpin.Spin`.
* `virt_disk_rw` does not pass the device on (src/kernel/virt.c:92): a block that is cached under one device number
  only agrees with the disk (`Bio.Cache.Fill`), one that is cached under two need not (`Bio.StaleRun`).
* `virt_disk_rw` computes the sector in 32 bits (src/kernel/virt.c:94): `Virt.SectorIs`.
* `uvmdealloc` passes its page count through an int (src/kernel/vm.c:335): `Vm.DeallocCountIs`.
* `sys_open` calls `fileclose(0)` when the file table is full (src/kernel/sysfile.c:197): `FileRefs.FillTable`.
* `morecore` passes an unsigned count to `sbrk(int)` (src/user/umem.c:51): `Umem.SbrkArgumentExact`.

## Model

| member | source | states |
|---|---|---|
| `Vm.Kmem.constructor` | src/kernel/vm.c:38-45 | freerange frees every whole page of [end, PHYSTOP), and nothing else: all pages are on the free list, there is no table |
| `Vm.Kmem.Kfree` | src/kernel/vm.c:23-35 | panics exactly for an unaligned or foreign address (one that owns no page); otherwise the page becomes the head of the linked list, filled with 1s, and nothing else changes. It needs only the free list in order, because uvmunmap and freewalk call it while a tree is half torn down |
| `Vm.Kmem.Kalloc` | src/kernel/vm.c:47-62 | 0 exactly when the free list is empty; else the head of the list, filled with 5s, now on no list, every tree untouched |
| `Vm.Kmem.Hold` | src/kernel/proc.c:302 | a page from kalloc may be kept as a trapframe, which tables may then map: no tree and no other owner changes; Kmem.LetGo gives it back once no table maps it |
| `Vm.Kmem.Walk` | src/kernel/vm.c:65-81 | panics exactly above MAXVA; gives the slot of the page in the flat view, or null when its leaf table is missing (with alloc: only when memory ran out); it never changes a translation and only adds zeroed tables of this tree |
| `Vm.Kmem.Mappages` | src/kernel/vm.c:84-106 | from any well-formed forest, under any wrap of va + size: exactly k new leaves in order from va, with the frames and flags asked for, every other translation of every tree unchanged; success means the last page was reached, -1 that memory ran out, panic a zero size, a page mapped already or the end of the address space |
| `Vm.Kmem.Uvmunmap` | src/kernel/vm.c:304-325 | removes exactly the leaves of its range (with the 64-bit wrap of its bound), frees exactly their frames, last one first, when asked; on a panic k says how far it got and why |
| `Vm.Kmem.Uvmalloc` | src/kernel/vm.c:280-302 | adds exactly the zeroed user pages between the two sizes, or is rolled back: every translation, owner and data page as before, and then fewer than three pages for each page asked for were free before the call |
| `Vm.Kmem.Uvmdealloc` | src/kernel/vm.c:329-339 | removes and frees exactly the pages between the two sizes; the page count passes through a 32-bit int (DeallocCount) |
| `Vm.DeallocCountIs` | src/kernel/vm.c:329-339 | that int, with the wrapping bound of uvmunmap after it, gives the exact number of pages if and only if there are fewer than 2^31 or at least 2^52 - 2^31; none are unmapped when rounding up the old size wraps. DeallocCountExact: below MAXVA it is always exact |
| `Vm.FillBytes` | src/kernel/vm.c:28 | every byte of a page that kfree fills is 1, and of one that kalloc fills 5 |
| `Vm.Kmem.Uvmcopy` | src/kernel/vm.c:199-228 | copies exactly the pages of [0, sz) with their flags into frames that were free, or rolls the child back entirely, and then fewer than three pages for each page to copy were free before the call |
| `Vm.Kmem.Walkaddr` | src/kernel/vm.c:239-266 | the frame of a page that is present with its user bit; 0 exactly above MAXVA; panics otherwise, changing nothing |
| `Vm.Kmem.Copyoutpg` | src/kernel/spaceswap.c:8-26 | the bytes appear at dst of this tree and no other byte of any tree changes; stops with -1 exactly when it runs past MAXVA |
| `Vm.Kmem.Uvmclear` | src/kernel/vm.c:138-145 | the user bit of one leaf is cleared; its frame and every other entry stay |
| `Vm.Kmem.Freewalk` | src/kernel/vm.c:155-169 | panics exactly when a leaf is left in the tree; otherwise frees every table below once and leaves every other tree alone. Its recursion is bounded by the place of a table in the tree |
| `Vm.Kmem.Uvmcreate` | src/kernel/vm.c:352-361 | a free page becomes the root of an empty tree; panics exactly when there is none |
| `Vm.Kmem.ProcPagetable` | src/kernel/proc.c:271-290 | a new tree with exactly the trampoline and the trapframe mapped, neither owned by it: the leaf of the trampoline is readable and executable and not writable, that of the trapframe readable and writable and not executable, neither open to user code; panics only for want of memory |
| `PageAccess.KernelReach` | src/kernel/riscv.h:15-19 | the access checks of section 4.3.2 of the RISC-V Privileged Architecture on that tree: the kernel may fetch and load at TRAMPOLINE and load and store at TRAPFRAME, and finds their bytes there; any other access, and any by user code, faults |
| `PageAccess.GrownReach` | src/kernel/vm.c:280-302 | the same checks on pages from uvmalloc: user code may fetch, load and store there and finds zeros, the kernel faults |
| `Vm.Kmem.Uvmfree` | src/kernel/vm.c:147-153 | finishes exactly when precisely the pages of [0, sz) are mapped; then they and all tables are free |
| `Vm.Kmem.ProcFreepagetable` | src/kernel/vm.c:232-237 | a tree that maps precisely [0, PGROUNDUP(sz)) and the two kernel pages is released without a panic: each of its tables and user pages goes to the free list once, the trampoline and trapframe pages and all other pages keep their owners |
| `PageTree.SlotUnique` | src/kernel/vm.h:7-9 | distinct pages below MAXVA, or distinct trees, have distinct leaf slots |
| `PageTree.PteRoundTrip` | src/kernel/riscv.h:9-10 | PTE2PA undoes PA2PTE under any flags, and the flag tests see through the address |
| `PageAlloc.RollBack` | src/kernel/vm.c:199-228 | unmapping what a failed growth or copy has mapped restores every translation, owner and data page |
| `PageViews.HardwareSeesView` | src/kernel/vm.c:65-81 | the translation process of the RISC-V Privileged Architecture 20211203, sections 4.3.2 and 4.4, with its faults for reserved bits, for links that carry D, A or U and for misaligned superpages, run on the memory alone, finds exactly the flat view, as long as page addresses fit 56 bits |
| `PageViews.ForkSnapshot` | src/kernel/vm.c:199-228 | after uvmcopy the child reads at every address of [0, sz) what the parent reads and read before, with the same flags |
| `PageViews.ForkDisjoint` | src/kernel/vm.c:199-228 | the frames of the copy are mapped nowhere else |
| `PageViews.ForkIsolation` | src/kernel/spaceswap.c:8-26 | after a fork, any sequence of copyoutpg calls through the two trees: each tree reads the snapshot with its own writes put over it and none of the other one's |
| `PageViews.PagePartition` | src/kernel/vm.c:23-62 | every page of [end, PHYSTOP) is a free-list entry (listed once), a table, a user page, a loose page or a held page, and the numbers add up |
| `PageRun.Allocproc` | src/kernel/proc.c:292-323 | a trapframe and a page table for one more process: all processes so far keep their tables and frames, six free pages are enough, and the new tree maps trampoline and trapframe with their rights |
| `PageRun.LifeCycle` | src/kernel/proc.c:381-403 | from freerange on, with pages enough and a sound program, none of these steps fails: two processes get trapframes and page tables, one grows, fork copies it, the copy execs, and both are released; at the end every page is free again |
| `Sv39Bits.PxIs` | src/kernel/vm.h:7-9 | PX(level, va) of the bit vectors is the arithmetic Px the model uses |
| `Sv39Bits.FlagsIs` | src/kernel/vm.h:10 | PTE_FLAGS likewise |
| `Sv39Bits.Pte2PaIs` | src/kernel/riscv.h:10 | PTE2PA likewise, the shift into 64 bits included |
| `Sv39Bits.Pa2PteIs` | src/kernel/riscv.h:9 | PA2PTE(pa) | flags likewise |
| `Sv39Bits.TestsAre` | src/kernel/riscv.h:15-19 | the masks with PTE_V, PTE_U and PTE_R|PTE_W|PTE_X likewise |
| `Sv39Bits.ClearUserIs` | src/kernel/vm.c:144 | *pte & ~PTE_U likewise |
| `Sv39Bits.RoundDownIs` | src/kernel/riscv.h:7 | PGROUNDDOWN likewise |
| `Sv39Bits.RoundUpIs` | src/kernel/riscv.h:6 | PGROUNDUP likewise, wrap-around included |
| `Exec.Exec` | src/kernel/exec.c:29-133 | on success the new tree maps exactly the program image over zeros, a guard page user code cannot touch and a stack page; user code has every right to its other pages, and the kernel its trampoline and trapframe; every page of the old address space is free; every other process, tree and page is as it was. It panics over the file only if the program is not ProgramOk, and over memory only when before the call fewer pages were free than five and three for each page of the program |
| `ExecChecks.ProgramOkIs` | src/kernel/exec.c:52-85 | which programs exec accepts, in numbers: every header to load has filesz <= memsz, a page-aligned address, room for itself and two pages below the trapframe and its file part within the file, and the first of them is not empty |
| `ExecChecks.ReadableIs` | src/kernel/exec.c:10-27 | a stretch of a file is readable in full if and only if it lies in the file, the offset cut to 32 bits |
| `ExecChecks.PagesNeededIs` | src/kernel/exec.c:66-85 | the pages for which exec may panic over memory: those up to the end of the last segment, none in vain, and two for the stack |
| `Exec.LoadHeader` | src/kernel/exec.c:52-76 | one program header: sizes and contents of the image, or the reason for the panic |
| `Exec.Loadseg` | src/kernel/exec.c:10-27 | -1 exactly when a page of the segment cannot be read in full; else exactly the bytes readi returns are put over the image, page by page |
| `ExecBytes.SegBytesRight` | src/kernel/exec.c:10-27 | a segment is loaded as it lies in the file, whatever the file holds, if and only if it lies within one block |
| `ExecBytes.ImageRight` | src/kernel/exec.c:52-76 | the process gets the bytes of its file, whatever they are, if and only if every address that shows a byte of a segment shows one from the first block of a page of that segment |
| `Exec.Stack` | src/kernel/exec.c:80-117 | two zeroed pages on top, the lower one without user access, a null argument vector at the top |
| `PageExec.TakeOver` | src/kernel/exec.c:127-132 | a tree built beside the others takes the place of the released one: no page leaked, no other process disturbed |
| `PageExec.SproutPages` | src/kernel/vm.c:280-302 | growing one tree changes no byte any other process sees and only takes free pages |
| `ProcRuns.InitInv` | src/kernel/proc.c:325-340 | the invariants hold after userinit |
| `ProcRuns.InvNext` | src/kernel/proc.c:210-416 | every instruction of every CPU keeps the invariants, whatever the interleaving, with interrupts at every counter where they are on, in system calls and in the scheduler too, and kerneltrap's yield |
| `ProcRuns.Reachable` | src/kernel/proc.c:210-416 | the invariants hold in every state of every run, for any number of processes, CPUs and objects |
| `ProcTheorems.NeverPanics` | src/kernel/spinlock.c:22-65 | no panic of acquire, release, pop_off, sched or exit is reachable, although slock is acquired in one thread of control and released in another |
| `ProcTheorems.OneCpuPerProcess` | src/kernel/proc.c:243-260 | a process is in the registers of at most one CPU, and c->p names it there |
| `ProcTheorems.ResumedOnlyWhenSaved` | src/kernel/proc.c:249-256 | the scheduler switches only to a context that was completely saved and that no CPU is running |
| `ProcTheorems.NoffCountsLocks` | src/kernel/spinlock.c:47-65 | noff is the number of spin locks the CPU holds, and interrupts are off while it holds one |
| `ProcTheorems.SettingRestored` | src/kernel/proc.c:222-224 | the interrupt setting of the outermost acquire is back after the last release, even on another CPU |
| `ProcTheorems.InterruptPlaces` | src/kernel/trap.c:77-100 | interrupts are on only in user mode or kernel code without locks, between the scheduler's slots, in fork between its locks, and before sleep takes its caller's lock again: a trap never interrupts a holder of a lock or another trap |
| `ProcTheorems.LockOrder` | src/kernel/proc.c:119-401 | locks nest in one order: an object's lock or wait_lock, then a process lock, then pid_lock, kmem.lk, filecache.slock, inodecache.slock or another innermost lock |
| `ProcTheorems.HoldersGoOn` | src/kernel/spinlock.c:22-30 | waiting for spin locks has depth at most three: the holder at the end of a chain of three is one of an innermost lock and goes on |
| `ProcTheorems.NoDeadlock` | src/kernel/spinlock.c:22-30 | in every reachable state some CPU can execute its next instruction, whatever each CPU chooses to do |
| `ProcTheorems.NoLostWakeup` | src/kernel/proc.c:228-241 | a process that sleeps on an object, or is on its way there, while the object is ready will still be reached by the wakeup of whoever holds the object's lock; the objects of the disk, which are made ready without a lock, are the exception |
| `ProcTheorems.OneCpuWakes` | src/kernel/virt.c:238-261 | on one CPU the same holds of those objects too: whoever sleeps on a ready object will still be reached by the wakeup the CPU is in |
| `ProcLost.LostIffManyCpus` | src/kernel/virt.c:151-153 | a completion of the disk can be missed, and the process sleep on, if and only if there is a second CPU |
| `ProcLost.LossyReachable` | src/kernel/virt.c:238-261 | the run of two CPUs that misses one: the handler answers between the test of b->disk and the acquire in sleep |
| `ProcTheorems.SleepingIsAsleep` | src/kernel/proc.c:54-65 | every process the table calls SLEEPING is one the theorem speaks of |
| `ProcTheorems.ParentAlive` | src/kernel/proc.c:342-350 | a parent is never ZOMBIE, UNUSED or USED (whether or not wait_lock is free) |
| `ProcTheorems.NoZombieOfSleeper` | src/kernel/proc.c:194-205 | while wait_lock is free no parent asleep in wait has a ZOMBIE child |
| `ProcCalls.SleeperHasChild` | src/kernel/proc.c:200-204 | whoever is asleep in wait, or about to be, is the parent of some process |
| `ProcCalls.WaitDecides` | src/kernel/proc.c:200-204 | at the end of its scan wait goes on to return -1 if and only if it was killed or no process has it as parent, and otherwise goes to sleep on itself; none of its children is ZOMBIE then |
| `ProcCalls.WaitTests` | src/kernel/proc.c:179-196 | the slot under test is a child; a ZOMBIE is freed and counted as reaped once, any other state is left as it is and the scan goes on |
| `ProcCalls.WaitEnds` | src/kernel/proc.c:193-203 | wait ends only with a child it has freed, or killed, or without children |
| `ProcCalls.ForkedRunnable` | src/kernel/proc.c:406-415 | at its end fork has a RUNNABLE child of its own, with a context to resume and on no CPU |
| `ProcCalls.ForkTests` | src/kernel/proc.c:295-320 | allocproc takes the slot it is at if and only if it is UNUSED |
| `ProcCalls.ForkCopies` | src/kernel/proc.c:387-391 | when uvmcopy fails the slot is UNUSED again, otherwise fork keeps it |
| `ProcCalls.ForkEnds` | src/kernel/proc.c:383-416 | fork returns with its child, after a failed copy, or past the last slot |
| `ProcCalls.ForkGivesUp` | src/kernel/proc.c:295-322 | over any run: a fork that is past the last slot has found each slot taken since it was called |
| `ProcTurns.StateEdges` | src/kernel/proc.c:210-416 | a process changes its state along seven edges only, each made by the thread entitled to it: taken, given back and started by its forker, run by a scheduler, given up by itself, woken from its own channel, freed by its parent |
| `ProcTurns.ParentEdges` | src/kernel/proc.c:342-350 | a parent is written by the forker, changed to init by a parent that is exiting, or cleared when the parent frees the zombie |
| `ProcTurns.TakesTurns` | src/kernel/sleeplock.c:15-31 | over any run: an object is given between any two takes, so that a sleep lock has one holder at a time |
| `ProcTurns.AnsweredFirst` | src/kernel/virt.c:136-153 | over any run: between a request to the disk and the end of the wait for it the handler has answered |
| `ProcTurns.SchedulerRounds` | src/kernel/proc.c:247-259 | over any run: from one start of its round to the next a scheduler runs each process or sees that it is not RUNNABLE |
| `ProcTurns.SchedulerMoves` | src/kernel/proc.c:247-259 | a scheduler that is not interrupted never stays at an instruction |
| `ProcProgress.CallsStart` | src/kernel/proc.c:169-416 | from where it may choose, a process that calls exit or wait holds wait_lock at its first slot, one that calls fork is at the first slot, and one that waits for or gives an object holds its lock |
| `ProcProgress.CallsEnd` | src/kernel/proc.c:119-416 | every instruction brings a process nearer to the end of its call, of its sleep, or of itself: a measure of its counter alone, which falls at every instruction except at a choice, an interrupt, or the acquire of an innermost lock |
| `ProcProgress.LeftBound` | src/kernel/proc.c:342-379 | that measure is below 3n^2 + 8n + 20 in a system with n slots |
| `ProcProgress.ExitNeverReturns` | src/kernel/proc.c:352-379 | a process in exit stays there until its slot is taken again |
| `ProcProgress.TrapTaken` | src/kernel/trap.c:77-100 | an interrupt can be taken at every counter where interrupts are on, and turns them off |
| `ProcProgress.TrapServes` | src/kernel/trap.c:77-100 | a trap lets a process yield, makes an object of the disk ready and wakes for it, and goes back to where the interrupt came with interrupts on |
| `ProcProgress.YieldGives` | src/kernel/proc.c:263-269 | yield makes the process RUNNABLE before it gives up its CPU |
| `ProcProgress.SchedGives` | src/kernel/proc.c:210-226 | sched leaves the CPU to its scheduler, with a context that can be resumed unless the process is dead |
| `ProcTheorems.ReapedOnce` | src/kernel/proc.c:181-193 | wait reaps its own child, exactly once per exit, and only after the dead process has left its CPU for good |
| `ProcText.LocksText` | src/kernel/proc.c:210-416 | what each instruction of the text does to the set of locks its thread holds |
| `Umem.Heap.Free` | src/user/umem.c:21-41 | for every block handed out the scan finds its only insertion point, and block and neighbours are joined on both sides: the free units are exactly the old ones and the block |
| `Umem.Heap.Malloc` | src/user/umem.c:60-87 | the first block after freep that fits, cut at its end; morecore is called exactly when no block fits, at most once, and after it the search succeeds even if the new block was joined to freep itself; 0 exactly when sbrk refuses |
| `Umem.Heap.Morecore` | src/user/umem.c:43-58 | the region from sbrk becomes free units; some block then holds what was asked for |
| `Umem.ScanStops` | src/user/umem.c:27-29 | the two stop tests of free hold at the insertion point and nowhere else |
| `Umem.Units` | src/user/umem.c:66 | the fewest header-sized units that hold the header and nbytes |
| `Umem.RequestBytes` | src/user/umem.c:49-51 | sbrk is asked for 64 KiB, or for the block with its header when they take more |
| `Umem.FreeUndoesMalloc` | src/user/umem.c:21-87 | freeing what malloc just returned restores the free list block for block |
| `Umem.FreeOrder` | src/user/umem.c:21-41 | two frees commute |
| `Umem.AllFreedIsOneBlock` | src/user/umem.c:30-39 | when everything is freed, a heap obtained as one region is one block |
| `Umem.ClientWrite` | src/user/umem.c:60-87 | a client may write anything into its block, header excluded, without disturbing the heap |
| `Umem.BlocksApart` | src/user/umem.c:60-87 | no unit is in two blocks handed out, or in one and free |
| `Umem.SbrkArgumentExact` | src/user/umem.c:51 | sbrk is asked for the bytes morecore counts as its own if and only if nbytes <= 0x7fffffe0 (sbrk takes an int) |
| `Umem.SbrkArgumentCut` | src/user/umem.c:51 | malloc(0xffffffff) asks for 16 bytes and would count 2^28 + 1 units |
| `ArenaFacts.Canonical` | src/user/umem.c:30-39 | the free units determine the free list: full coalescing and address order leave no choice |
| `ArenaFacts.Conservation` | src/user/umem.c:21-87 | free units and units handed out add up to the units obtained from sbrk |
| `ArenaFacts.SizesFit` | src/user/umem.c:11 | block sizes fit the 32-bit size field when the heap does |
| `Arena.FreedOk` | src/user/umem.c:21-41 | free keeps the list one cycle through base, in address order, with disjoint, never adjacent blocks, disjoint from all blocks handed out |
| `Arena.TakenOk` | src/user/umem.c:71-82 | malloc keeps it too, whether it takes a whole block or the tail of one |
| `Virt.Disk.AllocDesc` | src/kernel/virt.c:35-43 | the first free descriptor, or -1 and nothing changed |
| `Virt.Disk.Alloc3` | src/kernel/virt.c:65-77 | three distinct free descriptors, or none taken at all, and then fewer than three were free |
| `Virt.Disk.FreeChain` | src/kernel/virt.c:79-90 | frees exactly the descriptors of the chain |
| `Virt.Disk.Submit` | src/kernel/virt.c:92-150 | a new well-formed chain of three that spells out the request, its first sector the one at which the block lies (exactly for block numbers below 2^31), its head appended to the avail ring; or the endless loop of lines 98-102, exactly when fewer than three descriptors are free |
| `VirtSpin.Spin` | src/kernel/virt.c:98-102 | once fewer than three descriptors are free no round of the loop finds three, however many rounds there are and whatever device and handler do between them: only Finish frees, and it needs disklock |
| `VirtSpin.RunOut` | src/kernel/virt.c:92-102 | a state with fewer than three free descriptors is reached by submitting requests, from any number of descriptors |
| `Virt.SectorIs` | src/kernel/virt.c:94 | the sector number is the one of the block, 1024 bytes a block and 512 a sector, if and only if the block number is below 2^31; beyond, the product wraps |
| `Virt.SectorsApart` | src/kernel/virt.c:94 | different blocks below 2^31 have no sector in common |
| `Virt.Disk.DeviceTake` | src/kernel/virt.c:139-150 | the device finds in the slot its own 16-bit index points to the oldest unread head, and follows from it three buffers: the header of 16 bytes with the request it stands for, the 1024 bytes of the buffer, writable exactly for a read, and one writable status byte |
| `VirtRing.LinkedFollows` | src/kernel/virt.c:104-137 | that is what a linked chain says to a device that goes by flags and next alone, in the layout of section 5.2.6 of VIRTIO 1.1 |
| `Virt.Disk.DevicePost` | src/kernel/virt.c:245-247 | a head appended to the used ring overwrites no unread one |
| `Virt.Disk.Isr` | src/kernel/virt.c:238-261 | never panics; answers exactly the posted requests and clears the disk flag of exactly their buffers |
| `Virt.Disk.Finish` | src/kernel/virt.c:151-159 | exactly the three descriptors of the request are free again |
| `VirtRing.Conservation` | src/kernel/virt.c:35-90 | free descriptors, those in a caller's hands and three per request outstanding are all of them |
| `VirtRing.ListBound` | src/kernel/virt.c:139-145 | neither ring can be full |
| `VirtRing.SameSlot` | src/kernel/virt.c:140 | a 16-bit index that wraps picks the same slot as the running count |
| `VirtRing.SlotsApart` | src/kernel/virt.c:140 | unread entries lie in different slots |
| `Bio.Cache.constructor` | src/kernel/fs.c:52-65 | one circular list with each buffer once |
| `Bio.Cache.Bget` | src/kernel/fs.c:76-101 | for any device number: the buffer that caches the block, else the least recently released unreferenced one, given to the block and not valid; panics exactly when there is neither |
| `Bio.Cache.Fill` | src/kernel/fs.c:104-112 | bread returns exactly what the plain disk holds, under any eviction pattern before, unless the block has been in two buffers at once |
| `Bio.Cache.Bwrite` | src/kernel/fs.c:268-273 | the disk has the data of the buffer; panics exactly without the lock |
| `Bio.Cache.Unlock` | src/kernel/fs.c:247-251 | first half of brelease; panics exactly without the lock |
| `Bio.Cache.Decref` | src/kernel/fs.c:253-266 | one reference fewer; the last one moves the buffer to the front of the list, as the most recently released |
| `Bio.HeldIsReferenced` | src/kernel/sleeplock.c:15-39 | a held sleep lock means refcnt >= 1 |
| `Bio.TwiceTwoDevices` | src/kernel/fs.c:76-96 | a block comes to be in two buffers at once only by being asked for under two device numbers |
| `Bio.Diverge` | src/kernel/fs.c:104-112 | the converse: from every state with a block in two filled, unlocked buffers, one bread, bwrite and brelease leaves the other buffer stale, because virt_disk_rw is told no device |
| `Bio.StaleRun` | src/kernel/fs.c:76-112 | and such a state is reached from the start, for any two device numbers, any block and any two buffers or more |
| `BufList.UnlinkCircle` | src/kernel/fs.c:257-258 | unlinking keeps one circle, without the buffer |
| `BufList.PushCircle` | src/kernel/fs.c:259-262 | pushing keeps one circle, with the buffer first |
| `BufList.OldestIs` | src/kernel/fs.c:87-96 | the first unreferenced buffer from the back was released longest ago |
| `MkfsMain.Build` | src/mkfs.c:69-173 | every list of arguments: main ends well if and only if the files and the directory are within MAXFILE blocks and the blocks within one bitmap block; then each file holds exactly what was read, inode numbers run from 1, the directory lists ".", ".." and the files in order, its size is rounded as written, the bitmap marks exactly the blocks below freeblock, inode 1 is a directory, every argument has a file inode with one link, and boot block, log and unused inodes are zero |
| `MkfsMain.ShortNameIs` | src/mkfs.c:131-148 | what a path is called in the image: "src/user/" in front goes, then one underscore, and nothing else |
| `DiskFormat.BuiltFile` | src/mkfs.c:150-172 | the image in raw bytes: inode i + 2 says type 2, one link and the length of argument i, and byte o of that argument lies in the block whose number its inode, or its index block, has for o / 1024 |
| `DiskFormat.FileByte` | src/mkfs.c:252-294 | byte o of any file of the image lies at o % 1024 of the block whose number stands in the bytes of its inode or index block |
| `DiskFormat.InodeFields` | src/kernel/fs.h:92-99 | inode i starts at byte 64 * (i % 16) of block inodestart + i / 16: four 16-bit fields, the size, thirteen block numbers, all little-endian |
| `DiskFormat.BitmapBit` | src/kernel/fs.h:111-112 | the bit of block b is bit b % 8 of byte b / 8 of the bitmap |
| `DiskFormat.EntryBytes` | src/kernel/fs.h:104-107 | directory entry k: two bytes of inode number, then fourteen of the name, zeros after it |
| `MkfsMain.AddFile` | src/mkfs.c:150-158 | one argument: a new inode of type 2 with one link and no device numbers, a directory entry with its short name, and all its bytes; every other inode keeps its kind, and the unused ones stay as they are |
| `Mkfs.Image.Ialloc` | src/mkfs.c:220-232 | the next inode number, an empty file of one link; every other inode and file untouched |
| `Mkfs.Image.Iappend` | src/mkfs.c:252-294 | the file's contents grow by exactly these bytes, through direct and indirect blocks; every other file and inode untouched; the program stops exactly beyond MAXFILE blocks; exactly the blocks needed are taken |
| `Mkfs.Image.FixSize` | src/mkfs.c:163-168 | only the size of the directory inode changes, to the next whole number of blocks and one more if it is one |
| `Mkfs.Image.Balloc` | src/mkfs.c:234-248 | stops exactly for 8192 blocks or more; else bit b of the bitmap is set if and only if b is below the count, and no other sector changes |
| `ImageFile.BlocksApart` | src/mkfs.c:268-283 | no block belongs to two files, twice to one file, to a file and an index, or to the metadata |
| `ImageFile.FileFrame` | src/mkfs.c:252-294 | a file does not notice changes outside its own blocks |
| `DiskInode.DecodeEncode` | src/kernel/fs.h:92-99 | an inode read back is the inode written |
| `DiskInode.PutInodeView` | src/mkfs.c:184-196 | winode replaces one of the sixteen inodes of a block |
| `DiskInode.PutIndexView` | src/mkfs.c:277-282 | an index block with one number replaced |
| `LittleEndian.UnpackPack` | src/mkfs.c:57-67 | 32-bit numbers read back as written, in little-endian bytes |
| `Bitmap.OrBitIs` | src/mkfs.c:244 | x | (1 << k) sets bit k and no other |
| `KernelFs.FileSystem.Balloc` | src/kernel/fs.c:115-130 | the first block whose bit is clear, whose bit is then set in the buffer; panics exactly when all are set |
| `KernelFs.FileSystem.Bmap` | src/kernel/fs.c:132-155 | what Mapped says: the block, allocated with its index block when missing, or a panic past MAXFILE or without free blocks |
| `KernelFs.MapNext` | src/kernel/fs.c:132-155 | the block after the last one of a file: on a disk as mkfs leaves it the file is then a block of zeros longer, one free block is used, or two for the first indirect one, and bmap panics if and only if there are not so many or the file is as long as it can be |
| `KernelFs.FileSystem.Readi` | src/kernel/fs.c:158-178 | as written: off never advances, so the result is the rest of one block over and over, the block being allocated when it is missing; none for offsets past the end or sums past 32 bits, otherwise as many bytes as asked for, or those up to the end of the file when that is nearer |
| `KernelFs.ReadInode` | src/kernel/fs.c:158-178 | what readi returns for a file mkfs wrote, in terms of its contents, and how many bytes |
| `FileRead.ReadiRight` | src/kernel/fs.c:167 | readi returns the bytes asked for, whatever the file holds, if and only if the request, cut at the end of the file, stays within one block |
| `FileName.InodeByName` | src/kernel/fs.c:233-245 | the inode of the first entry with that non-empty name; an absent name is reported if and only if 64 does not divide the number of entries, or it does and the directory can take the block its size reaches into; then that block, or two of them, has been taken, in the buffers and the in-core inode only |
| `FileName.RootSub` | src/kernel/fs.c:212-218 | on an image main of mkfs built: the inode of the first argument with that short name, and for absent names the condition and the blocks taken; the bitmap on disk does not show them |
| `FileName.LostBlock` | src/kernel/fs.c:212-245 | with 62 files the lookup of an absent name takes block 12, which the disk goes on calling free |
| `Directory.StrncmpIs` | src/kernel/util.c:37-45 | on names of this form strncmp compares the first 14 characters |
| `Directory.DataAt` | src/kernel/fs.h:104-107 | the k-th entry lies at 16k |
| `FileName.EntriesAre` | src/mkfs.c:131-155 | which entry has which name and number: 1 for "." and "..", then the short names with 2, 3 and so on |
| `FileRefs.FileTable.Filealloc` | src/kernel/file.c:25-37 | the first file without references, or null exactly when there is none |
| `FileRefs.FileTable.Fileclose` | src/kernel/file.c:39-58 | one reference fewer; the inode is put exactly with the last one |
| `FileRefs.FileTable.SysDup` | src/kernel/sysfile.c:96-107 | the lowest free descriptor points to the same file, whose count goes up; -1 and nothing changed otherwise |
| `FileRefs.FileTable.SysClose` | src/kernel/sysfile.c:85-94 | the descriptor is empty, and the inode is put exactly when no descriptor of any process points to the file any more |
| `FileRefs.FileTable.SysOpen` | src/kernel/sysfile.c:196-213 | the lowest free descriptor and the first unreferenced file; nothing changed when no descriptor is free; fileclose(0) exactly when the file table is full |
| `FileRefs.FillTable` | src/kernel/sysfile.c:196-199 | the file table can be filled: processes that can hold as many descriptors reach the call of fileclose(0) |
| `FileRefs.FileTable.Fork` | src/kernel/proc.c:396-400 | the child has the parent's descriptors, and all counts are right again |
| `FileRefs.FileTable.Exit` | src/kernel/proc.c:357-362 | no descriptor left, and all counts are right again |
| `FileRefs.Referenced` | src/kernel/file.c:41-43 | a file that a descriptor points to has a reference: the panics of filedup and fileclose are unreachable from system calls |
| `FileRefs.ExactSet` | src/kernel/file.c:39-58 | moving one descriptor and one count keeps every count equal to the number of descriptors |

## Left out

- Kernel address space: kvmmake, kvmmap and proc_mapstacks map pages of the kernel directly, free ones included; kernel stacks are not in the page model.
- Vm.Kmem.Mappages: the frames are loose, held, or outside the allocator, as all callers but kvmmap's have them; kvmmap maps free pages.
- Vm.Kmem.Kalloc: the spin lock of the free list is not modelled; calls are atomic.
- Vm.Kmem.Kfree: likewise.
- Vm.Kmem.ProcPagetable: after a panic nothing is said about the state; the same holds for every panic after which the machine stops (Kfree, Kalloc and Walk, which change nothing then, excepted).
- Vm.Kmem.Uvmcopy: asks that the parent owns its pages of [0, sz), which is how every process is built (MapsExactly).
- Vm.Kmem.Copyoutpg: asks that the pages mapped in reach belong to the tree, as user pages do.
- copyin (the sum in src/kernel/vm.c:372 is not a page offset), copyinstr, uvmcpy and uvminit.
- growproc (src/kernel/proc.c:126-138) compares where it should assign and calls uvmalloc to shrink; sbrk is a parameter (Grant) of Umem.
- freeproc (src/kernel/proc.c:141-153) does not free the page table, so pages are conserved up to the reaping of a process, not beyond it.
- TLB, memory ordering and CSR access: memory is sequentially consistent, swtch and the atomic swap are single steps.
- Exec.Exec: program headers are given as read; argv is null, as in sys_exec (src/kernel/sysfile.c:72); the ELF header checks, names, registers and the inode lock are not modelled, and a page of a segment is put in place in one step.
- Exec.Loadseg: its int counter is unbounded here; a file is too short for it to overflow.
- ProcRuns.Reachable: acquire with its push_off, release with its pop_off, and each write are one step each; so is the change of the interrupt setting at a trap's entry and end. myproc's push_off and pop_off, the choice of handler, and a trap from user mode as against one from the kernel are not told apart. A process outside the kernel may do anything the model has a name for, in any order; innermost locks are taken by choice wherever the code can take one, any number of times.
- ProcTheorems.LockOrder: the branch of iput for a file without links (src/kernel/fs.c:349), which would sleep with inodecache.slock held, is not modelled; no code lowers nlink.
- ProcTheorems.NoLostWakeup: the objects slept on are conditions with a lock each; sleep locks, console and UART queues and the ticks counter are instances of them. disklock, which all buffers share, is one lock for each buffer here. wakeup(&disk.free[0]) (src/kernel/virt.c:61), for which nobody sleeps, is left out.
- ProcTheorems.NeverPanics: the panics "init proc exit" (init never exits here), copyout failure in wait, and the out-of-memory panics of allocproc are not part of the run; killed and failure of uvmcopy are free choices.
- ProcTheorems.NoDeadlock: spin locks only; that a CPU which can go on does so is not part of a run, so no call is proved to return.
- ProcTheorems.ReapedOnce: pids, exit status, trapframes and names are not modelled.
- Umem.Heap.Malloc: addresses are counts of header-sized units; sbrk returns fresh memory with any contents, or refuses.
- Virt.Disk.Isr: clears flags and wakes in one step; the window this hides is a subject of ProcLost.
- Virt.Disk.Submit: methods are atomic with respect to each other and to the device; notification, virtio_disk_init and progress with more than num / 3 requests are not modelled.
- Virt.Disk.DeviceTake: the device posts each submitted chain at most once and in any order, as the standard asks of it; what it transfers is not modelled.
- Bio.Cache.Bget: device numbers are positive, as ROOTDEV is; 0 marks a buffer that has never been used. Waiting for the sleep lock is not a step, only its success is (Cache.Lock).
- Bio.Cache.Unlock: a holder that has changed the data has called bwrite, which balloc, bmap and bfree (src/kernel/fs.c:121, 148, 305) do not.
- Mkfs.Image.Iappend: the image has blocks enough (the tool does not check).
- MkfsMain.Build: the image has inodes and blocks enough (the tool does not check); opening and reading host files and I/O errors are not modelled; the super block is given as bytes.
- KernelFs.FileSystem.Balloc: the blocks are those the buffers hold, none of which is evicted meanwhile; when a changed buffer is, its change is lost.
- KernelFs.FileSystem.Readi: copies to user memory, which can fail, are left to Copyoutpg.
- FileName.InodeByName: names are bytes without a terminator; locks and the inode cache (iget, iput, ilock) are left out, so the result is the inode number.
- writei, itrunc, iupdate, dirlink, create and the O_CREATE path: the written code does not keep the intended property.
- FileRefs.FileTable.SysOpen: the inode is found and locked before; the lock and the inode reference that stay behind on failure are not modelled.
- FileRefs.FileTable.Exit: the inode of the working directory is not modelled.
- FileRefs.FileTable.Fork: system calls are atomic; inode reference counts are not modelled.
- Console and UART, PLIC, trap entry, system-call dispatch, shell and tools: user interface and plumbing.
