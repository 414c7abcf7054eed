/** The invariants of the machine. */
module ProcInv {
  import opened ProcState
  import opened ProcModel
  import opened ProcText

  // ----- CPUs and locks

  predicate CpuOk(s: State, c: nat)
    requires Shape(s) && c < |s.cpus|
  {
    var cpu := s.cpus[c];
    if cpu.on >= 0 then s.procs[cpu.on].at == c && cpu.pc == InSched(PAway, cpu.on) && cpu.cur == cpu.on
    else
      && (cpu.pc.InSched? ==> !cpu.pc.p.PAway?)
      && cpu.cur == if cpu.pc.InSched? && (cpu.pc.p.PGo? || cpu.pc.p.PBack?) then cpu.pc.j else -1
  }

  /** A process is in the registers of at most one CPU. */
  ghost predicate OnInv(s: State)
    requires Shape(s)
  {
    && (forall c | 0 <= c < |s.cpus| :: CpuOk(s, c))
    && (forall i | 0 <= i < |s.procs| && s.procs[i].at >= 0 :: s.cpus[s.procs[i].at].on == i)
  }

  /** A lock's cpu field names the CPU whose thread is inside. */
  ghost predicate LockInv(s: State)
    requires Shape(s)
  {
    && (forall c: nat, l | c < |s.cpus| :: Holds(s.cpus[c].on, ThreadPc(s, c), l) <==> l in s.held && s.held[l] == c)
    && (forall l | l in s.held :: s.held[l] < |s.cpus|)
  }

  /** noff counts the locks held, and interrupts are off while there are any. */
  ghost predicate DepthInv(s: State)
    requires Shape(s)
  {
    forall c: nat | c < |s.cpus| :: s.cpus[c].noff == Depth(ThreadPc(s, c)) && (s.cpus[c].noff > 0 ==> !s.cpus[c].sie)
  }

  // ----- Traps

  predicate Yielded(pc: Pc) { pc.InYield? && pc.y.YBack? }

  /** A trap is handled with interrupts off, and the setting saved under its locks is off too. */
  predicate HandlerOk(s: State, c: nat)
    requires Shape(s) && c < |s.cpus|
  {
    var cpu, pc := s.cpus[c], ThreadPc(s, c);
    InHandler(pc) && !Yielded(pc) ==> !cpu.sie && (cpu.noff > 0 ==> !cpu.intena)
  }

  ghost predicate HandlerInv(s: State)
    requires Shape(s)
  {
    && (forall c: nat | c < |s.cpus| :: HandlerOk(s, c))
    && forall i: nat | i < |s.procs| :: Yielded(s.procs[i].pc) ==> !s.procs[i].pc.v
  }

  /** An interrupt finds a thread that holds no lock and is not handling one. */
  lemma QuietIs(s: State, c: nat)
    requires Shape(s) && DepthInv(s) && HandlerInv(s) && c < |s.cpus|
    ensures Quiet(s, c)
  {
    hide PcOk;
    assert HandlerOk(s, c);
  }

  // ----- States of processes

  /** The state of a process that is in the registers of a CPU. */
  function RunState(pc: Pc): PState
  {
    match pc
    case InYield(y, _, _) => if y.YSched? then RUNNABLE else RUNNING
    case InSleep(z, _, _) => if z.ZSched? then SLEEPING else RUNNING
    case InExit(e, _) => if e.EDrop? || e.ESched? then ZOMBIE else RUNNING
    case _ => RUNNING
  }

  predicate IsDead(pc: Pc) { pc.InExit? && pc.e.EDead? }

  /** A context saved by swtch, or set up by allocproc. */
  predicate Saved(pc: Pc) { pc.Fresh? || (pc.InYield? && pc.y.YBack?) || (pc.InSleep? && pc.z.ZBack?) }

  /** The scheduler that has made process i RUNNING and is about to switch to it. */
  predicate Starting(s: State, i: nat)
    requires Shape(s)
  {
    S(i) in s.held && s.held[S(i)] < |s.cpus|
    && var cpu := s.cpus[s.held[S(i)]]; cpu.on < 0 && cpu.pc.InSched? && (cpu.pc.p.PSet? || cpu.pc.p.PGo?) && cpu.pc.j == i
  }

  predicate ProcOk(s: State, i: nat)
    requires Shape(s) && i < |s.procs|
  {
    var p := s.procs[i];
    if p.at >= 0 then p.st == RunState(p.pc) && !IsDead(p.pc)
    else
      match p.st
      case UNUSED => p.pc.Fresh? || IsDead(p.pc)
      case USED => p.pc.Fresh?
      case RUNNABLE => Saved(p.pc)
      case SLEEPING => p.pc.InSleep? && p.pc.z.ZBack?
      case ZOMBIE => IsDead(p.pc)
      case RUNNING => Saved(p.pc) && Starting(s, i)
  }

  predicate ChanAt(pc: Pc, ch: Chan)
  {
    if pc.InSleep? && (pc.z.ZState? || pc.z.ZSched? || pc.z.ZBack? || pc.z.ZClear?) then ch == pc.ch else ch == NoChan
  }

  ghost predicate StatusInv(s: State)
    requires Shape(s)
  {
    forall i | 0 <= i < |s.procs| :: ProcOk(s, i) && ChanAt(s.procs[i].pc, s.procs[i].chan)
  }

  /** What a scheduler between its test and swtch has in hand. */
  predicate SchedOk(s: State, c: nat)
    requires Shape(s) && c < |s.cpus|
  {
    var cpu := s.cpus[c];
    cpu.on < 0 && cpu.pc.InSched? && (cpu.pc.p.PSet? || cpu.pc.p.PGo?) ==>
      s.procs[cpu.pc.j].st == RUNNING && s.procs[cpu.pc.j].at < 0
  }

  ghost predicate SchedInv(s: State)
    requires Shape(s)
  {
    forall c: nat | c < |s.cpus| :: SchedOk(s, c)
  }

  // ----- fork

  /** fork has a new slot in hand that is not runnable yet. */
  predicate Forking(pc: Pc)
  {
    pc.InFork? && (pc.f.FCopy? || pc.f.FWait? || pc.f.FParent? || pc.f.FDrop? || pc.f.FLock? || pc.f.FReady?)
  }

  /** Where a thread goes on after the trap or the lock it is in. */
  function Under(pc: Pc): Pc
  {
    match pc
    case InTrap(b) => b
    case InYield(_, _, b) => b
    case InGive(_, _, b) => Off(b)
    case InLeaf(_, b) => Off(b)
    case InWake(_, _, _, ret) => if ret.ToGive? then Off(ret.b) else if ret.ToIsr? then ret.b else pc
    case _ => pc
  }

  function Off(b: Pc): Pc { if b.InTrap? then b.b else b }

  predicate Adopted(f: ForkAt) { f.FDrop? || f.FLock? || f.FReady? }

  /** The slot stays as fork left it while no lock is held, and nobody else is forking it; fork may be interrupted, and lose
      its CPU, meanwhile. */
  predicate ForkOk(s: State, i: nat)
    requires Shape(s) && i < |s.procs|
  {
    var pc := Under(s.procs[i].pc);
    Forking(pc) && pc.j < |s.procs| ==>
      var q := s.procs[pc.j];
      q.st == USED && q.at < 0 && q.maker == i && q.parent == if Adopted(pc.f) then i else -1
  }

  ghost predicate ForkInv(s: State)
    requires Shape(s)
  {
    forall i: nat | i < |s.procs| :: ForkOk(s, i)
  }

  // ----- Parents

  predicate Alive(st: PState) { st == RUNNABLE || st == RUNNING || st == SLEEPING }

  /** How far an exiting process has given its children away. */
  function Stripped(n: nat, pc: Pc): nat
  {
    match pc
    case InExit(e, j) => if e.EReparent? then j else n
    case InWake(_, _, _, ret) => if ret.ToReparent? then ret.j else if ret.ToExit? then n else 0
    case _ => 0
  }

  /** A parent is alive and, if it is exiting, has not come to this child yet; every live process but init has one. */
  predicate ParentOk(s: State, j: nat)
    requires Shape(s) && j < |s.procs|
  {
    var p := s.procs[j];
    && (p.parent >= 0 ==> p.parent != j && Alive(s.procs[p.parent].st) && j >= Stripped(|s.procs|, s.procs[p.parent].pc))
    && (p.st == UNUSED ==> p.parent == -1)
    && (Alive(p.st) || p.st == ZOMBIE ==> (p.parent >= 0 <==> j != s.init))
    && (j == s.init ==> Alive(p.st) && p.parent == -1 && Stripped(|s.procs|, p.pc) == 0 && !IsExit(p.pc))
  }

  predicate IsExit(pc: Pc) { pc.InExit? || (pc.InWake? && (pc.ret.ToReparent? || pc.ret.ToExit?)) }

  ghost predicate ParentInv(s: State)
    requires Shape(s)
  {
    forall j: nat | j < |s.procs| :: ParentOk(s, j)
  }

  // ----- Sleep and wakeup

  /** Going to sleep on ch, or asleep: from the release of the condition's lock until woken. */
  predicate Asleep(p: Proc, ch: Chan)
  {
    && p.pc.InSleep? && p.pc.ch == ch
    && (p.pc.z.ZChan? || p.pc.z.ZState? || p.pc.z.ZSched? || (p.pc.z.ZBack? && p.st == SLEEPING))
  }

  /** About to sleep on ch, with the condition's lock still held since the condition was found false. */
  predicate Doomed(pc: Pc, ch: Chan) { pc.InSleep? && pc.ch == ch && (pc.z.ZLock? || pc.z.ZDrop?) }

  /** A thread in wakeup(ch) that still has slot i before it. */
  predicate Nears(pc: Pc, ch: Chan, i: nat)
  {
    pc.InWake? && pc.ch == ch && (pc.j < i || (pc.j == i && !pc.w.KRel?))
  }

  /** One that holds the channel's lock. */
  predicate Reaches(pc: Pc, ch: Chan, i: nat) { Nears(pc, ch, i) && !pc.ret.ToIsr? }

  /** The holder of lock l is such a thread. */
  predicate Coming(s: State, l: Lock, ch: Chan, i: nat)
    requires Shape(s)
  {
    l in s.held && s.held[l] < |s.cpus| && Reaches(ThreadPc(s, s.held[l]), ch, i)
  }

  /** No lost wakeup, objects: whoever sleeps on an object that is ready will be reached by its waker. */
  predicate ObjectOk(s: State, i: nat, k: nat)
    requires Shape(s) && i < |s.procs| && k < |s.ready|
  {
    k !in s.bare ==>
      && (Doomed(s.procs[i].pc, Obj(k)) ==> !s.ready[k])
      && (Asleep(s.procs[i], Obj(k)) && s.ready[k] ==> Coming(s, O(k), Obj(k), i))
  }

  ghost predicate ObjectInv(s: State)
    requires Shape(s)
  {
    forall i: nat, k: nat | i < |s.procs| && k < |s.ready| :: ObjectOk(s, i, k)
  }

  /** The same on one CPU, where nobody else runs from the test to the switch: with or without a lock. */
  predicate LoneOk(s: State, i: nat, k: nat)
    requires Shape(s) && i < |s.procs| && k < |s.ready|
  {
    |s.cpus| == 1 ==>
      && (Doomed(s.procs[i].pc, Obj(k)) ==> !s.ready[k])
      && (Asleep(s.procs[i], Obj(k)) && s.ready[k] ==> Nears(ThreadPc(s, 0), Obj(k), i))
  }

  ghost predicate LoneInv(s: State)
    requires Shape(s)
  {
    forall i: nat, k: nat | i < |s.procs| && k < |s.ready| :: LoneOk(s, i, k)
  }

  /** Without the lock that freeproc holds for a moment. */
  function Top(pc: Pc): Pc { if pc.InLeaf? then pc.b else pc }

  /** The slots wait has found to be no zombie child. */
  function Scanned(n: nat, pc: Pc): nat
  {
    match Top(pc)
    case InWait(t, j, _) => if t.TNext? || t.TTest? then j else if t.TSkip? then j + 1 else 0
    case InSleep(z, ch, _) => if (z.ZLock? || z.ZDrop?) && ch.Kid? then n else 0
    case _ => 0
  }

  predicate ZombieOf(s: State, q: nat, j: nat)
    requires j < |s.procs|
  {
    s.procs[j].parent == q && s.procs[j].st == ZOMBIE
  }

  /** wait has found slot j to be its child and is about to look at its state. */
  predicate Tests(pc: Pc, j: nat) { Top(pc).InWait? && Top(pc).t.TTest? && Top(pc).j == j }

  /** No lost wakeup, children: a parent asleep in wait with a zombie child will be reached by the exit's wakeup. */
  predicate ChildOk(s: State, q: nat, j: nat)
    requires Shape(s) && q < |s.procs| && j < |s.procs|
  {
    && (j < Scanned(|s.procs|, s.procs[q].pc) ==> !ZombieOf(s, q, j))
    && (Asleep(s.procs[q], Kid(q)) && ZombieOf(s, q, j) ==> Coming(s, W, Kid(q), q))
    && (Tests(s.procs[q].pc, j) ==> s.procs[j].parent == q)
  }

  ghost predicate ChildInv(s: State)
    requires Shape(s)
  {
    forall q: nat, j: nat | q < |s.procs| && j < |s.procs| :: ChildOk(s, q, j)
  }

  ghost predicate HasChild(s: State, q: nat, m: nat)
  {
    exists i: nat :: i < m && i < |s.procs| && s.procs[i].parent == q
  }

  /** wait's havekids says whether a slot it has passed is a child; it goes to sleep, and is asleep, only when one is. */
  predicate Scanning(pc: Pc) { Top(pc).InWait? && !Top(pc).t.TFreed? && !Top(pc).t.TRel? }

  function ScanEnd(pc: Pc): nat
    requires Scanning(pc)
  {
    if Top(pc).t.TNext? then Top(pc).j else Top(pc).j + 1
  }

  predicate Dozes(pc: Pc) { pc.InSleep? && pc.ch.Kid? && !pc.z.ZAgain? }

  ghost predicate KidOk(s: State, q: nat)
    requires q < |s.procs|
  {
    var pc := s.procs[q].pc;
    && (Scanning(pc) ==> (Top(pc).kids <==> HasChild(s, q, ScanEnd(pc))))
    && (Dozes(pc) ==> HasChild(s, q, |s.procs|))
  }

  ghost predicate KidInv(s: State)
  {
    forall q: nat | q < |s.procs| :: KidOk(s, q)
  }

  /** At its end fork holds the lock of a runnable child. */
  predicate BornOk(s: State, i: nat)
    requires i < |s.procs|
  {
    var pc := s.procs[i].pc;
    pc.InFork? && pc.f.FRel? && pc.j < |s.procs| ==>
      var q := s.procs[pc.j]; q.st == RUNNABLE && q.at < 0 && q.parent == i && q.maker == i
  }

  ghost predicate BornInv(s: State)
  {
    forall i: nat | i < |s.procs| :: BornOk(s, i)
  }

  /** An exiting process that is past waking its parent. */
  predicate Passed(pc: Pc, q: nat)
  {
    || (pc.InWake? && pc.ret.ToExit? && (pc.j > q || (pc.j == q && pc.w.KRel?)))
    || (pc.InExit? && (pc.e.ELock? || pc.e.EZombie?))
  }

  predicate LeavingOk(s: State, e: nat)
    requires Shape(s) && e < |s.procs|
  {
    var p := s.procs[e];
    && (p.pc.InWake? && p.pc.ret.ToExit? ==> p.parent >= 0 && p.pc.ch == Kid(p.parent))
    && (p.parent >= 0 && Passed(p.pc, p.parent) ==> !Asleep(s.procs[p.parent], Kid(p.parent)))
  }

  ghost predicate LeavingInv(s: State)
    requires Shape(s)
  {
    forall e: nat | e < |s.procs| :: LeavingOk(s, e)
  }

  // ----- Interrupt settings, exits and reaps

  /** sched's saved intena, or the CPU's while locks are held, is the setting at the outermost acquire. */
  predicate EntryOk(s: State, i: nat)
    requires Shape(s) && i < |s.procs|
  {
    var p := s.procs[i];
    if Yielded(p.pc) || (p.pc.InSleep? && p.pc.z.ZBack?) then p.pc.v == p.entry
    else p.at >= 0 && Depth(p.pc) > 0 && !p.pc.Fresh? ==> s.cpus[p.at].intena == p.entry
  }

  ghost predicate EntryInv(s: State)
    requires Shape(s)
  {
    forall i: nat | i < |s.procs| :: EntryOk(s, i)
  }

  predicate CountOk(p: Proc) { p.exits == p.reaps + if p.st == ZOMBIE then 1 else 0 }

  ghost predicate CountInv(s: State)
  {
    forall i: nat | i < |s.procs| :: CountOk(s.procs[i])
  }

  // ----- Instructions as seen by the tables

  ghost predicate LockSteps(me: int, pc: Pc, d: Todo)
  {
    forall x :: LockStep(me, pc, d, x)
  }

  /** d is what the text prescribes for the thread on CPU c, and the CPU does not have to wait. */
  ghost predicate Legal(s: State, c: nat, d: Todo)
    requires Shape(s)
  {
    && c < |s.cpus| && Enabled(s, c, d.ins) && Fits(|s.procs|, |s.ready|, s.cpus[c].on, d.ins, d.next)
    && Guard(ViewOf(s, c), ThreadPc(s, c), d) && LockSteps(s.cpus[c].on, ThreadPc(s, c), d)
  }

  lemma TextLegal(s: State, c: nat, op: Op, flip: bool)
    requires Shape(s) && c < |s.cpus| && Quiet(s, c) && Enabled(s, c, Text(s, c, op, flip).ins)
    ensures Legal(s, c, Text(s, c, op, flip))
  {
    hide Text, Guard, LockStep, Fits, PcOk;
    TextFits(s, c, op, flip);
    GuardText(s, c, op, flip);
    forall x
      ensures LockStep(s.cpus[c].on, ThreadPc(s, c), Text(s, c, op, flip), x)
    {
      LocksText(s, c, op, flip, x);
    }
  }

  /** CPUs, locks, interrupts and process states. */
  ghost predicate Base(s: State)
  {
    Shape(s) && !s.panic && OnInv(s) && LockInv(s) && DepthInv(s) && HandlerInv(s) && StatusInv(s) && SchedInv(s)
  }

  /** All that concerns the life of processes. */
  ghost predicate LifeInv(s: State)
  {
    Base(s) && ForkInv(s) && ParentInv(s)
  }

  ghost predicate Inv(s: State)
  {
    LifeInv(s) && ObjectInv(s) && LoneInv(s) && ChildInv(s) && KidInv(s) && BornInv(s) && LeavingInv(s) && EntryInv(s) && CountInv(s)
  }
}
