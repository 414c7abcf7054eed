/** Processes, CPUs and locks of proc.c, spinlock.c and sleeplock.c: the state of the interleaving machine. */
module ProcState {

  datatype PState = UNUSED | USED | SLEEPING | RUNNABLE | RUNNING | ZOMBIE

  /** What a process sleeps on: some kernel object, or (in wait) itself. */
  datatype Chan = NoChan | Obj(k: nat) | Kid(q: nat)

  /** proc.slock, wait_lock, the lock of an object, and the locks under which nothing else is locked: pid_lock, kmem.lk,
      filecache.slock, inodecache.slock, bcache.slock and the like. */
  datatype Lock = S(i: nat) | W | O(k: nat) | L(k: nat)

  /** Where wakeup returns to: the giver of an object, reparent, exit, or the disk's interrupt handler, which holds no
      lock.  b is where the giver or the interrupted thread goes on. */
  datatype Ret = ToGive(k: nat, b: Pc) | ToReparent(j: nat) | ToExit | ToIsr(b: Pc)

  datatype YieldAt = YHold | YSched | YBack | YRel
  datatype UseAt = UArm | UTest | URel
  datatype SleepAt = ZLock | ZDrop | ZChan | ZState | ZSched | ZBack | ZClear | ZRel | ZAgain
  datatype GiveAt = GSet | GRel
  datatype WakeAt = KNext | KTest | KRel
  datatype ExitAt = EReparent | ELock | EZombie | EDrop | ESched | EDead
  datatype WaitAt = TNext | TTest | TSkip | TFreed | TRel
  datatype ForkAt = FNext | FTest | FSkip | FCopy | FFail | FWait | FParent | FDrop | FLock | FReady | FRel
  datatype SchedAt = PNext | PTest | PSet | PGo | PAway | PBack | PRel

  /** A thread's program counter, with its local variables. */
  datatype Pc =
    | Idle                                            // user mode, or kernel code that holds no lock
    | Fresh                                           // forkret
    | InTrap(b: Pc)                                   // kerneltrap or usertrap, between the handlers; b was interrupted
    | InYield(y: YieldAt, v: bool, b: Pc)             // called by the trap; v is sched's local intena
    | InUse(u: UseAt, k: nat)                         // wait until object k is ready, and take it
    | InSleep(z: SleepAt, ch: Chan, v: bool)
    | InGive(g: GiveAt, k: nat, b: Pc)                // make object k ready, then go on at b
    | InLeaf(k: nat, b: Pc)                           // between acquire and release of L(k), then go on at b
    | InWake(w: WakeAt, ch: Chan, j: nat, ret: Ret)   // wakeup(ch), at slot j
    | InExit(e: ExitAt, j: nat)
    | InWait(t: WaitAt, j: nat, kids: bool)
    | InFork(f: ForkAt, j: nat)
    | InSched(p: SchedAt, j: nat)

  /** at is the CPU whose registers hold the process, -1 when its context is saved.  The last four fields are
      bookkeeping that no instruction reads: the interrupt setting at the outermost acquire, who is forking the
      slot, and how often the slot was exited and reaped. */
  datatype Proc = Proc(st: PState, chan: Chan, parent: int, pc: Pc, at: int,
                       entry: bool, maker: int, exits: nat, reaps: nat)

  /** on is the process in the registers, -1 for the scheduler; cur is c->p; pc is the scheduler's counter. */
  datatype Cpu = Cpu(on: int, cur: int, pc: Pc, noff: int, intena: bool, sie: bool)

  /** held maps a locked lock to the CPU in its cpu field.  The objects in bare are made ready by an interrupt handler that
      takes no lock. */
  datatype State = State(procs: seq<Proc>, cpus: seq<Cpu>, held: map<Lock, nat>, ready: seq<bool>, bare: set<nat>,
                         init: nat, panic: bool)

  datatype Write =
    | Status(i: nat, st: PState) | Channel(i: nat, ch: Chan) | Parent(i: nat, q: int) | Ready(k: nat, b: bool)
    | Birth(i: nat) | Unborn(i: nat) | Reap(i: nat) | Exited(i: nat)
    | Intena(v: bool) | Current(p: int) | Interrupts(b: bool)

  datatype Instr = Acquire(l: Lock) | Release(l: Lock) | Do(w: Write) | Goto | Switch | Resume(j: nat) | Panics

  function LockOf(ch: Chan): Lock { if ch.Obj? then O(ch.k) else W }
  function RetLock(ret: Ret): Lock { if ret.ToGive? then O(ret.k) else W }

  function RetPc(ret: Ret): Pc
  {
    match ret
    case ToGive(k, b) => InGive(GRel, k, b)
    case ToReparent(j) => InExit(EReparent, j)
    case ToExit => InExit(ELock, 0)
    case ToIsr(b) => InTrap(b)
  }

  /** How many locks a thread holds at a counter; a scheduler that has switched away still counts the process's lock. */
  function Depth(pc: Pc): nat
  {
    match pc
    case Idle => 0
    case Fresh => 1
    case InTrap(_) => 0
    case InYield(_, _, _) => 1
    case InUse(_, _) => 1
    case InSleep(z, _, _) => if z.ZDrop? then 2 else if z.ZAgain? then 0 else 1
    case InGive(_, _, _) => 1
    case InLeaf(_, b) => 1 + Depth(b)
    case InWake(w, _, _, ret) => (if ret.ToIsr? then 0 else 1) + if w.KNext? then 0 else 1
    case InExit(e, _) => if e.EZombie? || e.EDrop? then 2 else 1
    case InWait(t, _, _) => if t.TNext? || t.TRel? then 1 else 2
    case InFork(f, _) => if f.FNext? || f.FWait? || f.FLock? then 0 else 1
    case InSched(p, _) => if p.PNext? then 0 else 1
  }

  /** In a trap, or in what a trap has called. */
  predicate InHandler(pc: Pc)
  {
    match pc
    case InTrap(_) => true
    case InYield(_, _, _) => true
    case InGive(_, _, b) => b.InTrap?
    case InLeaf(_, b) => b.InTrap?
    case InWake(_, _, _, ret) => ret.ToIsr? || (ret.ToGive? && ret.b.InTrap?)
    case _ => false
  }

  /** Where interrupts find a thread: no lock held, and not handling one already. */
  predicate Resting(pc: Pc) { Depth(pc) == 0 && !InHandler(pc) }

  /** Where an object is given away from: a process's own code, or a trap. */
  predicate Giving(b: Pc) { b.Idle? || (b.InTrap? && Resting(b.b)) }

  /** Where the innermost locks are taken: also in allocproc and fork with the new slot's lock, and in wait's freeproc. */
  predicate LeafPlace(b: Pc)
  {
    Giving(b) || (b.InFork? && (b.f.FTest? || b.f.FCopy?)) || (b.InWait? && b.t.TTest?)
  }

  /** The places to go on at make sense. */
  predicate Backed(pc: Pc)
  {
    match pc
    case InTrap(b) => Resting(b)
    case InYield(_, _, b) => Resting(b)
    case InGive(_, _, b) => Giving(b)
    case InLeaf(_, b) => LeafPlace(b)
    case InWake(_, _, _, ret) => (ret.ToGive? ==> Giving(ret.b)) && (ret.ToIsr? ==> Resting(ret.b))
    case _ => true
  }

  function ThreadPc(s: State, c: nat): Pc
    requires c < |s.cpus| && s.cpus[c].on < |s.procs|
  {
    if s.cpus[c].on < 0 then s.cpus[c].pc else s.procs[s.cpus[c].on].pc
  }

  // ----- Counters that make sense.  me is -1 for a scheduler, n the number of slots, ko the number of objects.

  predicate SleepChan(ko: nat, me: int, ch: Chan)
  {
    match ch
    case Obj(k) => k < ko
    case Kid(q) => q == me
    case NoChan => false
  }

  predicate PcOk(n: nat, ko: nat, me: int, pc: Pc)
  {
    && Backed(pc)
    && match pc
       case Idle => me >= 0
       case Fresh => me >= 0
       case InTrap(b) => PcOk(n, ko, me, b)
       case InYield(_, _, b) => me >= 0 && PcOk(n, ko, me, b)
       case InUse(_, k) => me >= 0 && k < ko
       case InSleep(_, ch, _) => me >= 0 && SleepChan(ko, me, ch)
       case InGive(_, k, b) => k < ko && PcOk(n, ko, me, b)
       case InLeaf(_, b) => PcOk(n, ko, me, b)
       case InWake(w, ch, j, ret) =>
         && (if w.KNext? then j <= n else j < n)
         && (match ret
             case ToGive(k, b) => ch == Obj(k) && k < ko && PcOk(n, ko, me, b)
             case ToIsr(b) => ch.Obj? && ch.k < ko && PcOk(n, ko, me, b)
             case ToReparent(i) => ch.Kid? && ch.q < n && me >= 0 && i <= n
             case ToExit => ch.Kid? && ch.q < n && me >= 0)
       case InExit(_, j) => me >= 0 && j <= n
       case InWait(t, j, _) => me >= 0 && (if t.TNext? || t.TRel? then j <= n else j < n)
       case InFork(f, j) => me >= 0 && (if f.FNext? then j <= n else j < n)
       case InSched(p, j) => me < 0 && (if p.PNext? then j <= n else j < n)
  }

  predicate Shape(s: State)
  {
    && s.init < |s.procs|
    && (forall i | 0 <= i < |s.procs| ::
          && -1 <= s.procs[i].at < |s.cpus| && -1 <= s.procs[i].parent < |s.procs|
          && PcOk(|s.procs|, |s.ready|, i, s.procs[i].pc))
    && (forall c | 0 <= c < |s.cpus| :: -1 <= s.cpus[c].on < |s.procs| && PcOk(|s.procs|, |s.ready|, -1, s.cpus[c].pc))
  }

  predicate WriteOk(n: nat, ko: nat, w: Write)
  {
    match w
    case Status(i, _) => i < n
    case Channel(i, _) => i < n
    case Parent(i, q) => i < n && 0 <= q < n
    case Ready(k, _) => k < ko
    case Birth(i) => i < n
    case Unborn(i) => i < n
    case Reap(i) => i < n
    case Exited(i) => i < n
    case Intena(_) => true
    case Current(_) => true
    case Interrupts(_) => true
  }

  /** An instruction that can be carried out, and a counter that makes sense for the thread. */
  predicate Fits(n: nat, ko: nat, me: int, ins: Instr, next: Pc)
  {
    && PcOk(n, ko, me, next)
    && match ins
       case Do(w) => WriteOk(n, ko, w)
       case Switch => me >= 0
       case Resume(j) => j < n && me < 0
       case _ => true
  }
}
