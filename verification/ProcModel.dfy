/** The program text of proc.c, spinlock.c and sleeplock.c, and the runs of the machine.

    Every CPU runs one thread: its scheduler, or the process it switched to.  For a program counter, Text gives
    the next instruction and the counter after it.  One step of a run lets one CPU execute one instruction: an
    acquire, a release, one write to shared fields, a swtch, or a jump that depends on what is read; or take an interrupt,
    at any counter, if it has them on. */
module ProcModel {
  import opened ProcState

  /** What a thread does next where the text leaves it open. */
  datatype Op = Trap | Yield | Take(k: nat) | Give(k: nat) | Bare(k: nat) | Leaf(k: nat) | Exit | Wait | Fork | Intr(b: bool) | Nothing

  datatype Todo = Todo(ins: Instr, next: Pc)

  function TextGiveFrom(ko: nat, bare: set<nat>, k: nat, b: Pc): Todo
  {
    if k < ko && k !in bare then Todo(Acquire(O(k)), InGive(GSet, k, b)) else Todo(Goto, b)
  }

  /** A process in user mode or in kernel code that holds no lock. */
  function TextIdle(ko: nat, bare: set<nat>, me: nat, init: nat, op: Op): Todo
  {
    match op
    case Take(k) => if k < ko then Todo(Acquire(O(k)), InUse(UArm, k)) else Todo(Goto, Idle)
    case Give(k) => TextGiveFrom(ko, bare, k, Idle)
    case Leaf(k) => Todo(Acquire(L(k)), InLeaf(k, Idle))
    case Exit => if me == init then Todo(Goto, Idle) else Todo(Acquire(W), InExit(EReparent, 0))
    case Wait => Todo(Acquire(W), InWait(TNext, 0, false))
    case Fork => Todo(Goto, InFork(FNext, 0))
    case Intr(b) => Todo(Do(Interrupts(b)), Idle)
    case _ => Todo(Goto, Idle)
  }

  /** The trap's handlers: a clock tick or a key wakes under a lock, the disk without one; a process may give up its CPU. */
  function TextTrap(ko: nat, bare: set<nat>, me: int, b: Pc, op: Op): Todo
  {
    match op
    case Yield => if me >= 0 then Todo(Acquire(S(me)), InYield(YHold, false, b)) else Todo(Goto, InTrap(b))
    case Give(k) => TextGiveFrom(ko, bare, k, InTrap(b))
    case Bare(k) =>
      if k < ko && k in bare then Todo(Do(Ready(k, true)), InWake(KNext, Obj(k), 0, ToIsr(b))) else Todo(Goto, InTrap(b))
    case Leaf(k) => Todo(Acquire(L(k)), InLeaf(k, InTrap(b)))
    case _ => Todo(Do(Interrupts(true)), b)
  }

  function TextYield(me: nat, y: YieldAt, v: bool, b: Pc, intena: bool): Todo
  {
    match y
    case YHold => Todo(Do(Status(me, RUNNABLE)), InYield(YSched, v, b))
    case YSched => Todo(Switch, InYield(YBack, intena, b))
    case YBack => Todo(Do(Intena(v)), InYield(YRel, v, b))
    case YRel => Todo(Release(S(me)), InTrap(b))
  }

  /** acquire(lk); while (!ready) sleep(k, lk); ready = 0; release(lk).  A request to the disk clears ready first instead:
      ready is that b->disk is 0. */
  function TextUse(u: UseAt, k: nat, ready: bool, bare: set<nat>): Todo
  {
    match u
    case UArm => if k in bare then Todo(Do(Ready(k, false)), InUse(UTest, k)) else Todo(Goto, InUse(UTest, k))
    case UTest =>
      if !ready then Todo(Goto, InSleep(ZLock, Obj(k), false))
      else if k in bare then Todo(Goto, InUse(URel, k))
      else Todo(Do(Ready(k, false)), InUse(URel, k))
    case URel => Todo(Release(O(k)), Idle)
  }

  function TextSleep(me: nat, z: SleepAt, ch: Chan, v: bool, intena: bool): Todo
  {
    match z
    case ZLock => Todo(Acquire(S(me)), InSleep(ZDrop, ch, v))
    case ZDrop => Todo(Release(LockOf(ch)), InSleep(ZChan, ch, v))
    case ZChan => Todo(Do(Channel(me, ch)), InSleep(ZState, ch, v))
    case ZState => Todo(Do(Status(me, SLEEPING)), InSleep(ZSched, ch, v))
    case ZSched => Todo(Switch, InSleep(ZBack, ch, intena))
    case ZBack => Todo(Do(Intena(v)), InSleep(ZClear, ch, v))
    case ZClear => Todo(Do(Channel(me, NoChan)), InSleep(ZRel, ch, v))
    case ZRel => Todo(Release(S(me)), InSleep(ZAgain, ch, v))
    case ZAgain => Todo(Acquire(LockOf(ch)), if ch.Obj? then InUse(UTest, ch.k) else InWait(TNext, 0, false))
  }

  /** acquire(lk); ready = 1; wakeup(k); release(lk) */
  function TextGive(g: GiveAt, k: nat, b: Pc): Todo
  {
    match g
    case GSet => Todo(Do(Ready(k, true)), InWake(KNext, Obj(k), 0, ToGive(k, b)))
    case GRel => Todo(Release(O(k)), b)
  }

  /** cur is myproc(), -1 when null; st and chan are slot j's, when there is a slot j. */
  function TextWake(n: nat, cur: int, w: WakeAt, ch: Chan, j: nat, ret: Ret, st: PState, chan: Chan): Todo
  {
    match w
    case KNext =>
      if j == n then Todo(Goto, RetPc(ret))
      else if j == cur then Todo(Goto, InWake(KNext, ch, j + 1, ret))
      else Todo(Acquire(S(j)), InWake(KTest, ch, j, ret))
    case KTest => Todo(if st == SLEEPING && chan == ch then Do(Status(j, RUNNABLE)) else Goto, InWake(KRel, ch, j, ret))
    case KRel => Todo(Release(S(j)), InWake(KNext, ch, j + 1, ret))
  }

  /** parent is the process's own, theirs that of slot j. */
  function TextExit(n: nat, me: nat, init: nat, e: ExitAt, j: nat, parent: int, theirs: int): Todo
  {
    match e
    case EReparent =>
      if j == n then
        if parent < 0 then Todo(Panics, InExit(ELock, 0))  // never: see ParentInv
        else Todo(Goto, InWake(KNext, Kid(parent), 0, ToExit))
      else if theirs == me then Todo(Do(Parent(j, init)), InWake(KNext, Kid(init), 0, ToReparent(j + 1)))
      else Todo(Goto, InExit(EReparent, j + 1))
    case ELock => Todo(Acquire(S(me)), InExit(EZombie, 0))
    case EZombie => Todo(Do(Exited(me)), InExit(EDrop, 0))
    case EDrop => Todo(Release(W), InExit(ESched, 0))
    case ESched => Todo(Switch, InExit(EDead, 0))
    case EDead => Todo(Panics, InExit(EDead, 0))
  }

  /** theirs and st are slot j's; killed is p->killed.  freeproc takes its locks before it clears the state; what TTest has
      found stays as it is under the lock of slot j. */
  function TextWait(n: nat, me: nat, t: WaitAt, j: nat, kids: bool, theirs: int, st: PState, killed: bool, op: Op): Todo
  {
    match t
    case TNext =>
      if j == n then Todo(Goto, if !kids || killed then InWait(TRel, 0, kids) else InSleep(ZLock, Kid(me), false))
      else if theirs == me then Todo(Acquire(S(j)), InWait(TTest, j, true))
      else Todo(Goto, InWait(TNext, j + 1, kids))
    case TTest =>
      if op.Leaf? then Todo(Acquire(L(op.k)), InLeaf(op.k, InWait(TTest, j, kids)))
      else if st == ZOMBIE then Todo(Do(Reap(j)), InWait(TFreed, j, kids)) else Todo(Goto, InWait(TSkip, j, kids))
    case TSkip => Todo(Release(S(j)), InWait(TNext, j + 1, kids))
    case TFreed => Todo(Release(S(j)), InWait(TRel, 0, kids))
    case TRel => Todo(Release(W), Idle)
  }

  /** st is slot j's; full says that uvmcopy ran out of memory.  allocpid takes its lock at FTest, where the state that has
      been found stays as it is; kalloc, kfree, filedup and idup take theirs at FCopy. */
  function TextFork(n: nat, me: nat, f: ForkAt, j: nat, st: PState, full: bool, op: Op): Todo
  {
    match f
    case FNext => if j == n then Todo(Goto, Idle) else Todo(Acquire(S(j)), InFork(FTest, j))
    case FTest =>
      if op.Leaf? then Todo(Acquire(L(op.k)), InLeaf(op.k, InFork(FTest, j)))
      else if st == UNUSED then Todo(Do(Birth(j)), InFork(FCopy, j)) else Todo(Goto, InFork(FSkip, j))
    case FSkip => Todo(Release(S(j)), InFork(FNext, j + 1))
    case FCopy =>
      if op.Leaf? then Todo(Acquire(L(op.k)), InLeaf(op.k, InFork(FCopy, j)))
      else if full then Todo(Do(Unborn(j)), InFork(FFail, j)) else Todo(Release(S(j)), InFork(FWait, j))
    case FFail => Todo(Release(S(j)), Idle)
    case FWait => Todo(Acquire(W), InFork(FParent, j))
    case FParent => Todo(Do(Parent(j, me)), InFork(FDrop, j))
    case FDrop => Todo(Release(W), InFork(FLock, j))
    case FLock => Todo(Acquire(S(j)), InFork(FReady, j))
    case FReady => Todo(Do(Status(j, RUNNABLE)), InFork(FRel, j))
    case FRel => Todo(Release(S(j)), Idle)
  }

  /** st is slot j's. */
  function TextSched(n: nat, p: SchedAt, j: nat, st: PState): Todo
  {
    match p
    case PNext =>
      if j == n then Todo(Do(Interrupts(true)), InSched(PNext, 0))
      else Todo(Acquire(S(j)), InSched(PTest, j))
    case PTest => if st == RUNNABLE then Todo(Do(Status(j, RUNNING)), InSched(PSet, j)) else Todo(Goto, InSched(PRel, j))
    case PSet => Todo(Do(Current(j)), InSched(PGo, j))
    case PGo => Todo(Resume(j), InSched(PAway, j))
    case PAway => Todo(Panics, InSched(PAway, j))
    case PBack => Todo(Do(Current(-1)), InSched(PRel, j))
    case PRel => Todo(Release(S(j)), InSched(PNext, j + 1))
  }

  function StateOf(s: State, j: nat): PState { if j < |s.procs| then s.procs[j].st else UNUSED }
  function ChanOf(s: State, j: nat): Chan { if j < |s.procs| then s.procs[j].chan else NoChan }
  function ParentOf(s: State, j: nat): int { if j < |s.procs| then s.procs[j].parent else -1 }

  /** The next instruction of the thread on CPU c, and its counter afterwards.  op is what the thread does where the text
      leaves it open, Trap that an interrupt comes; flip is the answer of what is not modelled (killed in wait, out of
      memory in fork). */
  function Text(s: State, c: nat, op: Op, flip: bool): Todo
    requires c < |s.cpus| && -1 <= s.cpus[c].on < |s.procs| && PcOk(|s.procs|, |s.ready|, s.cpus[c].on, ThreadPc(s, c))
  {
    if op.Trap? && s.cpus[c].sie then Todo(Do(Interrupts(false)), InTrap(ThreadPc(s, c))) else TextOwn(s, c, op, flip)
  }

  function TextOwn(s: State, c: nat, op: Op, flip: bool): Todo
    requires c < |s.cpus| && -1 <= s.cpus[c].on < |s.procs| && PcOk(|s.procs|, |s.ready|, s.cpus[c].on, ThreadPc(s, c))
  {
    var n, ko, me, cpu := |s.procs|, |s.ready|, s.cpus[c].on, s.cpus[c];
    match ThreadPc(s, c)
    case Idle => TextIdle(ko, s.bare, me, s.init, op)
    case Fresh => Todo(Release(S(me)), Idle)
    case InTrap(b) => TextTrap(ko, s.bare, me, b, op)
    case InYield(y, v, b) => TextYield(me, y, v, b, cpu.intena)
    case InUse(u, k) => TextUse(u, k, s.ready[k], s.bare)
    case InSleep(z, ch, v) => TextSleep(me, z, ch, v, cpu.intena)
    case InGive(g, k, b) => TextGive(g, k, b)
    case InLeaf(k, b) => Todo(Release(L(k)), b)
    case InWake(w, ch, j, ret) => TextWake(n, cpu.cur, w, ch, j, ret, StateOf(s, j), ChanOf(s, j))
    case InExit(e, j) => TextExit(n, me, s.init, e, j, s.procs[me].parent, ParentOf(s, j))
    case InWait(t, j, kids) => TextWait(n, me, t, j, kids, ParentOf(s, j), StateOf(s, j), flip, op)
    case InFork(f, j) => TextFork(n, me, f, j, StateOf(s, j), flip, op)
    case InSched(p, j) => TextSched(n, p, j, StateOf(s, j))
  }

  // ----- Instructions

  function SetPc(s: State, c: nat, pc: Pc): State
    requires c < |s.cpus| && s.cpus[c].on < |s.procs|
  {
    var me := s.cpus[c].on;
    if me < 0 then s.(cpus := s.cpus[c := s.cpus[c].(pc := pc)]) else s.(procs := s.procs[me := s.procs[me].(pc := pc)])
  }

  /** acquire: push_off, then the lock.  A CPU waits while another one holds the lock. */
  function DoAcquire(s: State, c: nat, l: Lock): State
    requires c < |s.cpus| && s.cpus[c].on < |s.procs|
  {
    var cpu, me := s.cpus[c], s.cpus[c].on;
    if l in s.held && s.held[l] == c then s.(panic := true)
    else
      var procs := if me >= 0 && cpu.noff == 0 then s.procs[me := s.procs[me].(entry := cpu.sie)] else s.procs;
      var intena := if cpu.noff == 0 then cpu.sie else cpu.intena;
      s.(procs := procs, held := s.held[l := c],
         cpus := s.cpus[c := cpu.(noff := cpu.noff + 1, intena := intena, sie := false)])
  }

  /** release: the holder test, the lock, then pop_off with its two tests. */
  function DoRelease(s: State, c: nat, l: Lock): State
    requires c < |s.cpus|
  {
    var cpu := s.cpus[c];
    if l !in s.held || s.held[l] != c || cpu.sie || cpu.noff < 1 then s.(panic := true)
    else
      s.(held := s.held - {l},
         cpus := s.cpus[c := cpu.(noff := cpu.noff - 1, sie := cpu.noff == 1 && cpu.intena)])
  }

  function DoWrite(s: State, c: nat, w: Write): State
    requires c < |s.cpus| && WriteOk(|s.procs|, |s.ready|, w)
  {
    match w
    case Status(i, st) => s.(procs := s.procs[i := s.procs[i].(st := st)])
    case Channel(i, ch) => s.(procs := s.procs[i := s.procs[i].(chan := ch)])
    case Parent(i, q) => s.(procs := s.procs[i := s.procs[i].(parent := q)])
    case Ready(k, b) => s.(ready := s.ready[k := b])
    case Birth(i) => s.(procs := s.procs[i := s.procs[i].(st := USED, pc := Fresh, maker := s.cpus[c].on)])
    case Unborn(i) => s.(procs := s.procs[i := s.procs[i].(st := UNUSED, chan := NoChan, parent := -1)])
    case Reap(i) =>
      s.(procs := s.procs[i := s.procs[i].(st := UNUSED, chan := NoChan, parent := -1, reaps := s.procs[i].reaps + 1)])
    case Exited(i) => s.(procs := s.procs[i := s.procs[i].(st := ZOMBIE, exits := s.procs[i].exits + 1)])
    case Intena(v) => s.(cpus := s.cpus[c := s.cpus[c].(intena := v)])
    case Current(p) => s.(cpus := s.cpus[c := s.cpus[c].(cur := p)])
    case Interrupts(b) => s.(cpus := s.cpus[c := s.cpus[c].(sie := b)])
  }

  /** sched: its three tests, then swtch to this CPU's scheduler. */
  function DoSwitch(s: State, c: nat, next: Pc): State
    requires c < |s.cpus| && 0 <= s.cpus[c].on < |s.procs|
  {
    var cpu, me := s.cpus[c], s.cpus[c].on;
    if S(me) !in s.held || s.held[S(me)] != c || s.procs[me].st == RUNNING || cpu.sie || !cpu.pc.InSched? then
      s.(panic := true)
    else
      s.(procs := s.procs[me := s.procs[me].(pc := next, at := -1)],
         cpus := s.cpus[c := cpu.(on := -1, pc := InSched(PBack, cpu.pc.j))])
  }

  /** swtch from the scheduler to process j's saved context. */
  function DoResume(s: State, c: nat, j: nat): State
    requires c < |s.cpus| && j < |s.procs|
  {
    s.(procs := s.procs[j := s.procs[j].(at := c)], cpus := s.cpus[c := s.cpus[c].(on := j, pc := InSched(PAway, j))])
  }

  // ----- Runs

  /** A CPU whose next instruction is an acquire waits while another CPU holds the lock. */
  predicate Enabled(s: State, c: nat, ins: Instr)
  {
    ins.Acquire? && ins.l in s.held ==> s.held[ins.l] == c
  }

  function Apply(s: State, c: nat, ins: Instr, next: Pc): State
    requires c < |s.cpus| && s.cpus[c].on < |s.procs| && Fits(|s.procs|, |s.ready|, s.cpus[c].on, ins, next)
  {
    match ins
    case Acquire(l) => var t := DoAcquire(s, c, l); if t.panic then t else SetPc(t, c, next)
    case Release(l) => var t := DoRelease(s, c, l); if t.panic then t else SetPc(t, c, next)
    case Do(w) => SetPc(DoWrite(s, c, w), c, next)
    case Goto => SetPc(s, c, next)
    case Switch => DoSwitch(s, c, next)
    case Resume(j) => DoResume(s, c, j)
    case Panics => s.(panic := true)
  }

  /** CPU c executes one instruction. */
  ghost predicate Step(s: State, t: State, c: nat, op: Op, flip: bool)
  {
    && Shape(s) && !s.panic && c < |s.cpus|
    && var d := Text(s, c, op, flip);
       Enabled(s, c, d.ins) && Fits(|s.procs|, |s.ready|, s.cpus[c].on, d.ins, d.next) && t == Apply(s, c, d.ins, d.next)
  }

  ghost predicate Next(s: State, t: State)
  {
    exists c: nat, op, flip :: Step(s, t, c, op, flip)
  }

  /** After userinit, before any scheduler has started: the first process is RUNNABLE, every other slot UNUSED. */
  ghost predicate Init(s: State)
  {
    && s.init < |s.procs| && s.held == map[] && !s.panic
    && (forall i | 0 <= i < |s.procs| ::
          s.procs[i] == Proc(if i == s.init then RUNNABLE else UNUSED, NoChan, -1, Fresh, -1, false, -1, 0, 0))
    && (forall c | 0 <= c < |s.cpus| :: s.cpus[c] == Cpu(-1, -1, InSched(PNext, |s.procs|), 0, false, s.cpus[c].sie))
  }

  ghost predicate Run(states: seq<State>)
  {
    && states != [] && Init(states[0])
    && forall i | 0 <= i < |states| - 1 :: Next(states[i], states[i + 1])
  }
}
