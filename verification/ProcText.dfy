/** What the program text keeps, read off instruction by instruction: which locks a thread holds at each counter. */
module ProcText {
  import opened ProcState
  import opened ProcModel

  function Own(me: int): Lock { S(if me < 0 then 0 else me) }

  /** The locks a thread holds at a counter. */
  predicate Holds(me: int, pc: Pc, l: Lock)
  {
    match pc
    case Idle => false
    case Fresh => l == Own(me)
    case InTrap(_) => false
    case InYield(_, _, _) => l == Own(me)
    case InUse(_, k) => l == O(k)
    case InSleep(z, ch, _) => (l == LockOf(ch) && (z.ZLock? || z.ZDrop?)) || (l == Own(me) && !z.ZLock? && !z.ZAgain?)
    case InGive(_, k, _) => l == O(k)
    case InLeaf(k, b) => l == L(k) || Holds(me, b, l)
    case InWake(w, _, j, ret) => (l == RetLock(ret) && !ret.ToIsr?) || (l == S(j) && !w.KNext?)
    case InExit(e, _) => (l == W && !e.ESched? && !e.EDead?) || (l == Own(me) && !e.EReparent? && !e.ELock?)
    case InWait(t, j, _) => l == W || (l == S(j) && !t.TNext? && !t.TRel?)
    case InFork(f, j) =>
      (l == W && (f.FParent? || f.FDrop?))
      || (l == S(j) && (f.FTest? || f.FSkip? || f.FCopy? || f.FFail? || f.FReady? || f.FRel?))
    case InSched(p, j) => l == S(j) && !p.PNext?
  }

  /** Instruction by instruction, lock x is gained and lost by acquire and release only. */
  predicate LockStep(me: int, pc: Pc, d: Todo, x: Lock)
  {
    match d.ins
    case Acquire(l) => !Holds(me, pc, l) && (Holds(me, d.next, x) <==> Holds(me, pc, x) || x == l) && Depth(d.next) == Depth(pc) + 1
    case Release(l) => Holds(me, pc, l) && (Holds(me, d.next, x) <==> Holds(me, pc, x) && x != l) && Depth(d.next) + 1 == Depth(pc)
    case Do(_) => (Holds(me, d.next, x) <==> Holds(me, pc, x)) && Depth(d.next) == Depth(pc)
    case Goto => (Holds(me, d.next, x) <==> Holds(me, pc, x)) && Depth(d.next) == Depth(pc)
    case Switch =>
      && me >= 0 && (Holds(me, pc, x) <==> x == S(me)) && (Holds(me, d.next, x) <==> x == S(me))
      && Depth(pc) == Depth(d.next) == 1
    case Resume(j) => me < 0 && d.next == InSched(PAway, j) && (Holds(me, pc, x) <==> x == S(j)) && Depth(pc) == 1
    case Panics => true
  }

  lemma LocksIdle(ko: nat, bare: set<nat>, me: nat, init: nat, op: Op, x: Lock)
    ensures LockStep(me, Idle, TextIdle(ko, bare, me, init, op), x)
  {
  }

  lemma LocksTrap(ko: nat, bare: set<nat>, me: int, b: Pc, op: Op, x: Lock)
    requires Backed(InTrap(b))
    ensures LockStep(me, InTrap(b), TextTrap(ko, bare, me, b, op), x)
  {
    RestLocks(me, b, x);
  }

  /** At rest a thread holds nothing. */
  lemma RestLocks(me: int, pc: Pc, x: Lock)
    requires Depth(pc) == 0
    ensures !Holds(me, pc, x)
  {
  }

  /** Where the innermost locks are taken, none is held. */
  lemma LeafLocks(me: int, b: Pc, k: nat)
    requires LeafPlace(b)
    ensures !Holds(me, b, L(k)) && !b.InLeaf?
  {
  }

  lemma LocksLeaf(me: int, k: nat, b: Pc, x: Lock)
    requires LeafPlace(b)
    ensures LockStep(me, InLeaf(k, b), Todo(Release(L(k)), b), x)
  {
    LeafLocks(me, b, k);
  }

  lemma LocksYield(me: nat, y: YieldAt, v: bool, b: Pc, intena: bool, x: Lock)
    ensures LockStep(me, InYield(y, v, b), TextYield(me, y, v, b, intena), x)
  {
  }

  lemma LocksUse(me: nat, u: UseAt, k: nat, ready: bool, bare: set<nat>, x: Lock)
    ensures LockStep(me, InUse(u, k), TextUse(u, k, ready, bare), x)
  {
  }

  lemma LocksSleep(me: nat, z: SleepAt, ch: Chan, v: bool, intena: bool, x: Lock)
    requires ch != NoChan
    ensures LockStep(me, InSleep(z, ch, v), TextSleep(me, z, ch, v, intena), x)
  {
    hide LockStep, TextSleep;
    if z.ZLock? || z.ZDrop? || z.ZAgain? {
      LocksSleepEnds(me, z, ch, v, intena, x);
    } else {
      LocksSleepOwn(me, z, ch, v, intena, x);
    }
  }

  lemma LocksSleepEnds(me: nat, z: SleepAt, ch: Chan, v: bool, intena: bool, x: Lock)
    requires ch != NoChan && (z.ZLock? || z.ZDrop? || z.ZAgain?)
    ensures LockStep(me, InSleep(z, ch, v), TextSleep(me, z, ch, v, intena), x)
  {
  }

  lemma LocksSleepOwn(me: nat, z: SleepAt, ch: Chan, v: bool, intena: bool, x: Lock)
    requires ch != NoChan && !z.ZLock? && !z.ZDrop? && !z.ZAgain?
    ensures LockStep(me, InSleep(z, ch, v), TextSleep(me, z, ch, v, intena), x)
  {
  }

  lemma LocksGive(me: int, g: GiveAt, k: nat, b: Pc, x: Lock)
    requires Giving(b)
    ensures LockStep(me, InGive(g, k, b), TextGive(g, k, b), x)
  {
  }

  lemma LocksWake(me: int, n: nat, cur: int, w: WakeAt, ch: Chan, j: nat, ret: Ret, st: PState, chan: Chan, x: Lock)
    requires Backed(InWake(w, ch, j, ret))
    ensures LockStep(me, InWake(w, ch, j, ret), TextWake(n, cur, w, ch, j, ret, st, chan), x)
  {
  }

  lemma LocksExit(n: nat, me: nat, init: nat, e: ExitAt, j: nat, parent: int, theirs: int, x: Lock)
    ensures LockStep(me, InExit(e, j), TextExit(n, me, init, e, j, parent, theirs), x)
  {
  }

  lemma LocksWait(n: nat, me: nat, t: WaitAt, j: nat, kids: bool, theirs: int, st: PState, killed: bool, op: Op, x: Lock)
    ensures LockStep(me, InWait(t, j, kids), TextWait(n, me, t, j, kids, theirs, st, killed, op), x)
  {
  }

  lemma LocksFork(n: nat, me: nat, f: ForkAt, j: nat, st: PState, full: bool, op: Op, x: Lock)
    ensures LockStep(me, InFork(f, j), TextFork(n, me, f, j, st, full, op), x)
  {
    hide LockStep, TextFork;
    if (f.FTest? || f.FCopy?) && op.Leaf? {
      LocksForkLeaf(n, me, f, j, st, full, op, x);
    } else if f.FWait? || f.FParent? || f.FDrop? || f.FLock? || f.FReady? || f.FRel? {
      LocksForkEnd(n, me, f, j, st, full, op, x);
    } else {
      LocksForkStart(n, me, f, j, st, full, op, x);
    }
  }

  lemma LocksForkLeaf(n: nat, me: nat, f: ForkAt, j: nat, st: PState, full: bool, op: Op, x: Lock)
    requires (f.FTest? || f.FCopy?) && op.Leaf?
    ensures LockStep(me, InFork(f, j), TextFork(n, me, f, j, st, full, op), x)
  {
  }

  lemma LocksForkEnd(n: nat, me: nat, f: ForkAt, j: nat, st: PState, full: bool, op: Op, x: Lock)
    requires f.FWait? || f.FParent? || f.FDrop? || f.FLock? || f.FReady? || f.FRel?
    ensures LockStep(me, InFork(f, j), TextFork(n, me, f, j, st, full, op), x)
  {
  }

  lemma LocksForkStart(n: nat, me: nat, f: ForkAt, j: nat, st: PState, full: bool, op: Op, x: Lock)
    requires !((f.FTest? || f.FCopy?) && op.Leaf?) && (f.FNext? || f.FTest? || f.FSkip? || f.FCopy? || f.FFail?)
    ensures LockStep(me, InFork(f, j), TextFork(n, me, f, j, st, full, op), x)
  {
  }

  lemma LocksSched(n: nat, p: SchedAt, j: nat, st: PState, x: Lock)
    ensures LockStep(-1, InSched(p, j), TextSched(n, p, j, st), x)
  {
  }

  /** Interrupts are off wherever a lock is held or a trap is being handled. */
  predicate Quiet(s: State, c: nat)
    requires Shape(s) && c < |s.cpus|
  {
    s.cpus[c].sie ==> Resting(ThreadPc(s, c))
  }

  /** The table of locks agrees with the program text. */
  lemma LocksText(s: State, c: nat, op: Op, flip: bool, x: Lock)
    requires Shape(s) && c < |s.cpus| && Quiet(s, c)
    ensures LockStep(s.cpus[c].on, ThreadPc(s, c), Text(s, c, op, flip), x)
  {
    hide LockStep, Holds, Depth, TextOwn;
    if op.Trap? && s.cpus[c].sie {
      LocksTaken(s.cpus[c].on, ThreadPc(s, c), x);
    } else {
      LocksOwn(s, c, op, flip, x);
    }
  }

  lemma LocksTaken(me: int, pc: Pc, x: Lock)
    requires Resting(pc)
    ensures LockStep(me, pc, Todo(Do(Interrupts(false)), InTrap(pc)), x)
  {
    RestLocks(me, pc, x);
  }

  lemma LocksOwn(s: State, c: nat, op: Op, flip: bool, x: Lock)
    requires Shape(s) && c < |s.cpus|
    ensures LockStep(s.cpus[c].on, ThreadPc(s, c), TextOwn(s, c, op, flip), x)
  {
    hide LockStep, Holds, Depth, TextIdle, TextTrap, TextYield, TextUse, TextSleep, TextGive, TextWake, TextExit,
      TextWait, TextFork, TextSched;
    var n, ko, me, cpu := |s.procs|, |s.ready|, s.cpus[c].on, s.cpus[c];
    match ThreadPc(s, c)
    case Idle => LocksIdle(ko, s.bare, me, s.init, op, x);
    case Fresh => LocksFresh(me, x);
    case InTrap(b) => LocksTrap(ko, s.bare, me, b, op, x);
    case InYield(y, v, b) => LocksYield(me, y, v, b, cpu.intena, x);
    case InUse(u, k) => LocksUse(me, u, k, s.ready[k], s.bare, x);
    case InSleep(z, ch, v) => LocksSleep(me, z, ch, v, cpu.intena, x);
    case InGive(g, k, b) => LocksGive(me, g, k, b, x);
    case InLeaf(k, b) => LocksLeaf(me, k, b, x);
    case InWake(w, ch, j, ret) => LocksWake(me, n, cpu.cur, w, ch, j, ret, StateOf(s, j), ChanOf(s, j), x);
    case InExit(e, j) => LocksExit(n, me, s.init, e, j, s.procs[me].parent, ParentOf(s, j), x);
    case InWait(t, j, kids) => LocksWait(n, me, t, j, kids, ParentOf(s, j), StateOf(s, j), flip, op, x);
    case InFork(f, j) => LocksFork(n, me, f, j, StateOf(s, j), flip, op, x);
    case InSched(p, j) => LocksSched(n, p, j, StateOf(s, j), x);
  }

  lemma LocksFresh(me: nat, x: Lock)
    ensures LockStep(me, Fresh, Todo(Release(S(me)), Idle), x)
  {
  }

  // ----- Where each write, swtch and panic stands in the text

  /** The counter from which instruction d comes, and what was read there.  me is the thread, n the number of
      slots; st, chan and theirs are the fields of the slot the instruction is about, parent the thread's own. */
  predicate StatusGuard(me: int, pc: Pc, i: nat, st: PState, next: Pc, was: PState, chan: Chan)
  {
    || (me == i && pc.InYield? && pc.y.YHold? && st == RUNNABLE && next == InYield(YSched, pc.v, pc.b))
    || (me == i && pc.InSleep? && pc.z.ZState? && st == SLEEPING && next == InSleep(ZSched, pc.ch, pc.v))
    || (pc.InWake? && pc.w.KTest? && pc.j == i && was == SLEEPING && chan == pc.ch && st == RUNNABLE
        && next == InWake(KRel, pc.ch, i, pc.ret))
    || (me >= 0 && pc == InFork(FReady, i) && st == RUNNABLE && next == InFork(FRel, i))
    || (me < 0 && pc == InSched(PTest, i) && was == RUNNABLE && st == RUNNING && next == InSched(PSet, i))
  }

  predicate ChannelGuard(me: int, pc: Pc, i: nat, ch: Chan, next: Pc)
  {
    && me == i && pc.InSleep?
    && ((pc.z.ZChan? && ch == pc.ch && next == InSleep(ZState, ch, pc.v))
        || (pc.z.ZClear? && ch == NoChan && next == InSleep(ZRel, pc.ch, pc.v)))
  }

  predicate ParentGuard(me: int, init: nat, pc: Pc, i: nat, q: int, next: Pc, theirs: int)
  {
    && me >= 0
    && ((pc == InExit(EReparent, i) && theirs == me && q == init && next == InWake(KNext, Kid(init), 0, ToReparent(i + 1)))
        || (pc == InFork(FParent, i) && q == me && next == InFork(FDrop, i)))
  }

  predicate ReadyGuard(pc: Pc, k: nat, b: bool, next: Pc, was: bool, bare: set<nat>)
  {
    || (pc == InUse(UArm, k) && !b && next == InUse(UTest, k))
    || (pc == InUse(UTest, k) && !b && was && next == InUse(URel, k))
    || (pc.InGive? && pc.g.GSet? && pc.k == k && b && next == InWake(KNext, Obj(k), 0, ToGive(k, pc.b)))
    || (pc.InTrap? && k in bare && b && next == InWake(KNext, Obj(k), 0, ToIsr(pc.b)))
  }

  predicate CpuGuard(n: nat, me: int, pc: Pc, w: Write, next: Pc)
    requires w.Intena? || w.Current? || w.Interrupts?
  {
    match w
    case Intena(v) =>
      && me >= 0
      && ((pc.InYield? && pc.y.YBack? && pc.v == v && next == InYield(YRel, v, pc.b))
          || (pc.InSleep? && pc.z.ZBack? && pc.v == v && next == InSleep(ZClear, pc.ch, v)))
    case Current(p) =>
      && me < 0 && pc.InSched?
      && ((pc.p.PSet? && p == pc.j && next == InSched(PGo, pc.j)) || (pc.p.PBack? && p == -1 && next == InSched(PRel, pc.j)))
    case Interrupts(b) =>
      || (me >= 0 && pc == Idle == next) || (me < 0 && pc == InSched(PNext, n) && b && next == InSched(PNext, 0))
      || (Resting(pc) && !b && next == InTrap(pc)) || (pc.InTrap? && b && next == pc.b)
  }

  predicate SwitchGuard(pc: Pc, next: Pc, intena: bool)
  {
    || (pc.InYield? && pc.y.YSched? && next == InYield(YBack, intena, pc.b))
    || (pc.InSleep? && pc.z.ZSched? && next == InSleep(ZBack, pc.ch, intena))
    || (pc.InExit? && pc.e.ESched? && next == InExit(EDead, 0))
  }

  predicate PanicGuard(n: nat, pc: Pc, parent: int)
  {
    || (pc.InSched? && pc.p.PAway?)
    || (pc.InExit? && pc.e.EDead?)
    || (pc == InExit(EReparent, n) && parent < 0)
  }

  /** What the thread reads: its own fields are me's, slot fields those of the slot its counter is at. */
  datatype View = View(n: nat, me: int, init: nat, st: PState, chan: Chan, theirs: int, parent: int, ready: bool, intena: bool, cur: int,
                       bare: set<nat>)

  /** The counter changes without a write: what such a move may be. */
  predicate Move(u: View, pc: Pc, next: Pc)
  {
    match pc
    case Idle => next == Idle || (next.InUse? && next.u.UArm?) || (next.InGive? && next.g.GSet? && next.b == Idle)
                 || (next.InLeaf? && next.b == Idle) || (next == InExit(EReparent, 0) && u.me != u.init)
                 || next == InWait(TNext, 0, false) || next == InFork(FNext, 0)
    case Fresh => next == Idle
    case InTrap(b) => next == pc || (u.me >= 0 && next == InYield(YHold, false, b)) || (next.InGive? && next.g.GSet? && next.b == pc)
                      || (next.InLeaf? && next.b == pc)
    case InYield(y, v, b) => y.YRel? && next == InTrap(b)
    case InUse(at, k) =>
      || (at.UArm? && next == InUse(UTest, k)) || (at.UTest? && !u.ready && next == InSleep(ZLock, Obj(k), false))
      || (at.UTest? && u.ready && next == InUse(URel, k)) || (at.URel? && next == Idle)
    case InSleep(z, ch, v) =>
      || (z.ZLock? && next == InSleep(ZDrop, ch, v)) || (z.ZDrop? && next == InSleep(ZChan, ch, v))
      || (z.ZRel? && next == InSleep(ZAgain, ch, v))
      || (z.ZAgain? && next == if ch.Obj? then InUse(UTest, ch.k) else InWait(TNext, 0, false))
    case InGive(g, k, b) => g.GRel? && next == b
    case InLeaf(k, b) => next == b
    case InWake(w, ch, j, ret) =>
      || (w.KNext? && j == u.n && next == RetPc(ret)) || (w.KNext? && j != u.n && next == InWake(KTest, ch, j, ret))
      || (w.KNext? && j != u.n && j == u.cur && next == InWake(KNext, ch, j + 1, ret))
      || (w.KTest? && !(u.st == SLEEPING && u.chan == ch) && next == InWake(KRel, ch, j, ret))
      || (w.KRel? && next == InWake(KNext, ch, j + 1, ret))
    case InExit(e, j) =>
      || (e.EReparent? && j == u.n && u.parent >= 0 && next == InWake(KNext, Kid(u.parent), 0, ToExit))
      || (e.EReparent? && j != u.n && u.theirs != u.me && next == InExit(EReparent, j + 1))
      || (e.ELock? && next == InExit(EZombie, 0)) || (e.EDrop? && next == InExit(ESched, 0))
    case InWait(t, j, kids) =>
      || (t.TNext? && j == u.n && (next == InWait(TRel, 0, kids) || (kids && next == InSleep(ZLock, Kid(if u.me < 0 then 0 else u.me), false))))
      || (t.TNext? && j != u.n && u.theirs == u.me && next == InWait(TTest, j, true))
      || (t.TNext? && j != u.n && u.theirs != u.me && next == InWait(TNext, j + 1, kids))
      || (t.TTest? && u.st != ZOMBIE && next == InWait(TSkip, j, kids)) || (t.TSkip? && next == InWait(TNext, j + 1, kids))
      || (t.TFreed? && next == InWait(TRel, 0, kids)) || (t.TRel? && next == Idle) || (t.TTest? && next.InLeaf? && next.b == pc)
    case InFork(f, j) =>
      || (f.FNext? && next == if j == u.n then Idle else InFork(FTest, j)) || (f.FTest? && u.st != UNUSED && next == InFork(FSkip, j))
      || (f.FSkip? && next == InFork(FNext, j + 1)) || (f.FCopy? && next == InFork(FWait, j)) || (f.FFail? && next == Idle)
      || (f.FWait? && next == InFork(FParent, j)) || (f.FDrop? && next == InFork(FLock, j))
      || (f.FLock? && next == InFork(FReady, j)) || (f.FRel? && next == Idle)
      || ((f.FTest? || f.FCopy?) && next.InLeaf? && next.b == pc)
    case InSched(p, j) =>
      || (p.PNext? && j != u.n && next == InSched(PTest, j))
      || (p.PTest? && u.st != RUNNABLE && next == InSched(PRel, j)) || (p.PRel? && next == InSched(PNext, j + 1))
  }

  predicate Guard(u: View, pc: Pc, d: Todo)
  {
    Backed(pc) && Backed(d.next) &&
    match d.ins
    case Acquire(_) => Move(u, pc, d.next)
    case Release(_) => Move(u, pc, d.next)
    case Goto => Move(u, pc, d.next)
    case Switch => SwitchGuard(pc, d.next, u.intena)
    case Resume(j) => pc == InSched(PGo, j) && d.next == InSched(PAway, j)
    case Panics => PanicGuard(u.n, pc, u.parent)
    case Do(w) =>
      match w
      case Status(i, st) => StatusGuard(u.me, pc, i, st, d.next, u.st, u.chan)
      case Channel(i, ch) => ChannelGuard(u.me, pc, i, ch, d.next)
      case Parent(i, q) => ParentGuard(u.me, u.init, pc, i, q, d.next, u.theirs)
      case Ready(k, b) => ReadyGuard(pc, k, b, d.next, u.ready, u.bare)
      case Birth(i) => u.me >= 0 && pc == InFork(FTest, i) && u.st == UNUSED && d.next == InFork(FCopy, i)
      case Unborn(i) => u.me >= 0 && pc == InFork(FCopy, i) && d.next == InFork(FFail, i)
      case Reap(i) => u.me >= 0 && pc.InWait? && pc.t.TTest? && pc.j == i && u.st == ZOMBIE && d.next == InWait(TFreed, i, pc.kids)
      case Exited(i) => u.me == i && pc.InExit? && pc.e.EZombie? && d.next == InExit(EDrop, 0)
      case Intena(_) => CpuGuard(u.n, u.me, pc, w, d.next)
      case Current(_) => CpuGuard(u.n, u.me, pc, w, d.next)
      case Interrupts(_) => CpuGuard(u.n, u.me, pc, w, d.next)
  }

  lemma GuardIdle(ko: nat, u: View, op: Op)
    requires u.me >= 0
    ensures Guard(u, Idle, TextIdle(ko, u.bare, u.me, u.init, op))
  {
  }

  lemma GuardTrap(ko: nat, u: View, b: Pc, op: Op)
    requires Backed(InTrap(b))
    ensures Guard(u, InTrap(b), TextTrap(ko, u.bare, u.me, b, op))
  {
  }

  lemma GuardYield(u: View, y: YieldAt, v: bool, b: Pc)
    requires u.me >= 0 && Backed(InYield(y, v, b))
    ensures Guard(u, InYield(y, v, b), TextYield(u.me, y, v, b, u.intena))
  {
  }

  lemma GuardUse(u: View, at: UseAt, k: nat)
    requires u.me >= 0
    ensures Guard(u, InUse(at, k), TextUse(at, k, u.ready, u.bare))
  {
  }

  lemma GuardSleep(u: View, z: SleepAt, ch: Chan, v: bool)
    requires u.me >= 0
    ensures Guard(u, InSleep(z, ch, v), TextSleep(u.me, z, ch, v, u.intena))
  {
  }

  lemma GuardGive(u: View, g: GiveAt, k: nat, b: Pc)
    requires Backed(InGive(g, k, b))
    ensures Guard(u, InGive(g, k, b), TextGive(g, k, b))
  {
  }

  lemma GuardLeaf(u: View, k: nat, b: Pc)
    requires Backed(InLeaf(k, b))
    ensures Guard(u, InLeaf(k, b), Todo(Release(L(k)), b))
  {
  }

  lemma GuardWake(u: View, w: WakeAt, ch: Chan, j: nat, ret: Ret)
    requires Backed(InWake(w, ch, j, ret))
    ensures Guard(u, InWake(w, ch, j, ret), TextWake(u.n, u.cur, w, ch, j, ret, u.st, u.chan))
  {
  }

  lemma GuardExit(u: View, e: ExitAt, j: nat)
    requires u.me >= 0
    ensures Guard(u, InExit(e, j), TextExit(u.n, u.me, u.init, e, j, u.parent, u.theirs))
  {
  }

  lemma GuardWait(u: View, t: WaitAt, j: nat, kids: bool, killed: bool, op: Op)
    requires u.me >= 0
    ensures Guard(u, InWait(t, j, kids), TextWait(u.n, u.me, t, j, kids, u.theirs, u.st, killed, op))
  {
  }

  lemma GuardFork(u: View, f: ForkAt, j: nat, full: bool, op: Op)
    requires u.me >= 0
    ensures Guard(u, InFork(f, j), TextFork(u.n, u.me, f, j, u.st, full, op))
  {
  }

  lemma GuardSched(u: View, p: SchedAt, j: nat)
    requires u.me < 0
    ensures Guard(u, InSched(p, j), TextSched(u.n, p, j, u.st))
  {
  }

  function SlotOf(pc: Pc): nat
  {
    match pc
    case InWake(_, _, j, _) => j
    case InExit(_, j) => j
    case InWait(_, j, _) => j
    case InFork(_, j) => j
    case InSched(_, j) => j
    case InLeaf(_, b) => SlotOf(b)
    case _ => 0
  }

  function ObjectOf(pc: Pc): nat { if pc.InUse? then pc.k else 0 }

  function ViewOf(s: State, c: nat): View
    requires Shape(s) && c < |s.cpus|
  {
    var me, pc := s.cpus[c].on, ThreadPc(s, c);
    var j, k := SlotOf(pc), ObjectOf(pc);
    View(|s.procs|, me, s.init, StateOf(s, j), ChanOf(s, j), ParentOf(s, j), if me < 0 then -1 else s.procs[me].parent,
         k < |s.ready| && s.ready[k], s.cpus[c].intena, s.cpus[c].cur, s.bare)
  }

  lemma GuardText(s: State, c: nat, op: Op, flip: bool)
    requires Shape(s) && c < |s.cpus| && Quiet(s, c)
    ensures Guard(ViewOf(s, c), ThreadPc(s, c), Text(s, c, op, flip))
  {
    hide Guard, TextOwn, PcOk;
    if op.Trap? && s.cpus[c].sie {
      GuardTaken(ViewOf(s, c), ThreadPc(s, c));
    } else {
      GuardOwn(s, c, op, flip);
    }
  }

  lemma GuardTaken(u: View, pc: Pc)
    requires Resting(pc)
    ensures Guard(u, pc, Todo(Do(Interrupts(false)), InTrap(pc)))
  {
  }

  lemma GuardOwn(s: State, c: nat, op: Op, flip: bool)
    requires Shape(s) && c < |s.cpus|
    ensures Guard(ViewOf(s, c), ThreadPc(s, c), TextOwn(s, c, op, flip))
  {
    hide Guard, TextIdle, TextTrap, TextYield, TextUse, TextSleep, TextGive, TextWake, TextExit, TextWait, TextFork,
      TextSched;
    var n, ko, me, cpu := |s.procs|, |s.ready|, s.cpus[c].on, s.cpus[c];
    var u := ViewOf(s, c);
    match ThreadPc(s, c)
    case Idle => GuardIdle(ko, u, op);
    case Fresh => GuardFresh(u);
    case InTrap(b) => GuardTrap(ko, u, b, op);
    case InYield(y, v, b) => GuardYield(u, y, v, b);
    case InUse(at, k) => GuardUse(u, at, k);
    case InSleep(z, ch, v) => GuardSleep(u, z, ch, v);
    case InGive(g, k, b) => GuardGive(u, g, k, b);
    case InLeaf(k, b) => GuardLeaf(u, k, b);
    case InWake(w, ch, j, ret) => GuardWake(u, w, ch, j, ret);
    case InExit(e, j) => GuardExit(u, e, j);
    case InWait(t, j, kids) => GuardWait(u, t, j, kids, flip, op);
    case InFork(f, j) => GuardFork(u, f, j, flip, op);
    case InSched(p, j) => GuardSched(u, p, j);
  }

  lemma GuardFresh(u: View)
    requires u.me >= 0
    ensures Guard(u, Fresh, Todo(Release(S(u.me)), Idle))
  {
  }

  // ----- Every instruction of the text can be carried out

  lemma FitsIdle(n: nat, ko: nat, bare: set<nat>, me: nat, init: nat, op: Op)
    requires PcOk(n, ko, me, Idle) && me < n && init < n
    ensures var d := TextIdle(ko, bare, me, init, op); Fits(n, ko, me, d.ins, d.next)
  {
  }

  lemma FitsTrap(n: nat, ko: nat, bare: set<nat>, me: int, b: Pc, op: Op)
    requires PcOk(n, ko, me, InTrap(b)) && me < n
    ensures var d := TextTrap(ko, bare, me, b, op); Fits(n, ko, me, d.ins, d.next)
  {
  }

  lemma FitsYield(n: nat, ko: nat, me: nat, y: YieldAt, v: bool, b: Pc, intena: bool)
    requires PcOk(n, ko, me, InYield(y, v, b)) && me < n
    ensures var d := TextYield(me, y, v, b, intena); Fits(n, ko, me, d.ins, d.next)
  {
  }

  lemma FitsUse(n: nat, ko: nat, me: nat, u: UseAt, k: nat, ready: bool, bare: set<nat>)
    requires PcOk(n, ko, me, InUse(u, k)) && me < n
    ensures var d := TextUse(u, k, ready, bare); Fits(n, ko, me, d.ins, d.next)
  {
  }

  lemma FitsSleep(n: nat, ko: nat, me: nat, z: SleepAt, ch: Chan, v: bool, intena: bool)
    requires PcOk(n, ko, me, InSleep(z, ch, v)) && me < n
    ensures var d := TextSleep(me, z, ch, v, intena); Fits(n, ko, me, d.ins, d.next)
  {
  }

  lemma FitsLeaf(n: nat, ko: nat, me: int, k: nat, b: Pc)
    requires PcOk(n, ko, me, InLeaf(k, b))
    ensures Fits(n, ko, me, Release(L(k)), b)
  {
  }

  lemma FitsGive(n: nat, ko: nat, me: int, g: GiveAt, k: nat, b: Pc)
    requires PcOk(n, ko, me, InGive(g, k, b)) && me < n
    ensures var d := TextGive(g, k, b); Fits(n, ko, me, d.ins, d.next)
  {
  }

  lemma FitsWake(n: nat, ko: nat, me: int, cur: int, w: WakeAt, ch: Chan, j: nat, ret: Ret, st: PState, chan: Chan)
    requires PcOk(n, ko, me, InWake(w, ch, j, ret)) && me < n
    ensures var d := TextWake(n, cur, w, ch, j, ret, st, chan); Fits(n, ko, me, d.ins, d.next)
  {
  }

  lemma FitsExit(n: nat, ko: nat, me: nat, init: nat, e: ExitAt, j: nat, parent: int, theirs: int)
    requires PcOk(n, ko, me, InExit(e, j)) && me < n && init < n && parent < n
    ensures var d := TextExit(n, me, init, e, j, parent, theirs); Fits(n, ko, me, d.ins, d.next)
  {
  }

  lemma FitsWait(n: nat, ko: nat, me: nat, t: WaitAt, j: nat, kids: bool, theirs: int, st: PState, killed: bool, op: Op)
    requires PcOk(n, ko, me, InWait(t, j, kids)) && me < n
    ensures var d := TextWait(n, me, t, j, kids, theirs, st, killed, op); Fits(n, ko, me, d.ins, d.next)
  {
  }

  lemma FitsFork(n: nat, ko: nat, me: nat, f: ForkAt, j: nat, st: PState, full: bool, op: Op)
    requires PcOk(n, ko, me, InFork(f, j)) && me < n
    ensures var d := TextFork(n, me, f, j, st, full, op); Fits(n, ko, me, d.ins, d.next)
  {
  }

  lemma FitsSched(n: nat, ko: nat, p: SchedAt, j: nat, st: PState)
    requires PcOk(n, ko, -1, InSched(p, j))
    ensures var d := TextSched(n, p, j, st); Fits(n, ko, -1, d.ins, d.next)
  {
  }

  lemma TextFits(s: State, c: nat, op: Op, flip: bool)
    requires Shape(s) && c < |s.cpus| && Quiet(s, c)
    ensures var d := Text(s, c, op, flip); Fits(|s.procs|, |s.ready|, s.cpus[c].on, d.ins, d.next)
  {
    hide TextOwn, Depth, InHandler;
    if !(op.Trap? && s.cpus[c].sie) {
      FitsOwn(s, c, op, flip);
    }
  }

  lemma FitsOwn(s: State, c: nat, op: Op, flip: bool)
    requires Shape(s) && c < |s.cpus|
    ensures var d := TextOwn(s, c, op, flip); Fits(|s.procs|, |s.ready|, s.cpus[c].on, d.ins, d.next)
  {
    hide Fits, TextIdle, TextTrap, TextYield, TextUse, TextSleep, TextGive, TextWake, TextExit, TextWait, TextFork,
      TextSched;
    var n, ko, me, cpu := |s.procs|, |s.ready|, s.cpus[c].on, s.cpus[c];
    match ThreadPc(s, c)
    case Idle => FitsIdle(n, ko, s.bare, me, s.init, op);
    case Fresh => FitsFresh(n, ko, me);
    case InTrap(b) => FitsTrap(n, ko, s.bare, me, b, op);
    case InYield(y, v, b) => FitsYield(n, ko, me, y, v, b, cpu.intena);
    case InUse(u, k) => FitsUse(n, ko, me, u, k, s.ready[k], s.bare);
    case InSleep(z, ch, v) => FitsSleep(n, ko, me, z, ch, v, cpu.intena);
    case InGive(g, k, b) => FitsGive(n, ko, me, g, k, b);
    case InLeaf(k, b) => FitsLeaf(n, ko, me, k, b);
    case InWake(w, ch, j, ret) => FitsWake(n, ko, me, cpu.cur, w, ch, j, ret, StateOf(s, j), ChanOf(s, j));
    case InExit(e, j) => FitsExit(n, ko, me, s.init, e, j, s.procs[me].parent, ParentOf(s, j));
    case InWait(t, j, kids) => FitsWait(n, ko, me, t, j, kids, ParentOf(s, j), StateOf(s, j), flip, op);
    case InFork(f, j) => FitsFork(n, ko, me, f, j, StateOf(s, j), flip, op);
    case InSched(p, j) => FitsSched(n, ko, p, j, StateOf(s, j));
  }

  lemma FitsFresh(n: nat, ko: nat, me: nat)
    requires me < n
    ensures Fits(n, ko, me, Release(S(me)), Idle)
  {
  }
}
