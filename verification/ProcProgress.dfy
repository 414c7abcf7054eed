/** Calls start, go on and end: how many instructions of its own a thread is from the end of what it does. */
module ProcProgress {
  import opened ProcState
  import opened ProcModel
  import opened ProcText
  import opened ProcInv
  import opened ProcLock
  import opened ProcFields
  import opened ProcStatus
  import opened ProcRuns
  import opened ProcTheorems
  import opened ProcCalls

  // ----- A measure

  /** The instructions of wakeup from slot j on. */
  function WakeLeft(n: nat, j: nat): nat { if j < n then 3 * (n - j) + 1 else 1 }

  /** Those of exit, from the slot that reparent is at. */
  function ExitLeft(n: nat, j: nat): nat
    decreases n - j
  {
    1 + WakeLeft(n, 0) + if j < n then ExitLeft(n, j + 1) else 4
  }

  function AfterWake(n: nat, ret: Ret): nat
  {
    match ret
    case ToGive(_, _) => 1
    case ToReparent(j) => ExitLeft(n, j)
    case ToExit => 4
    case ToIsr(_) => 0
  }

  /** At most how many instructions a thread executes until it is back where it may do what it likes, asleep, or dead: in a
      system with n slots. */
  function Left(n: nat, pc: Pc): nat
  {
    match pc
    case Idle => 0
    case Fresh => 1
    case InTrap(_) => 0
    case InYield(y, _, _) => if y.YHold? then 4 else if y.YSched? then 3 else if y.YBack? then 2 else 1
    case InUse(u, _) => if u.UArm? then 10 else if u.UTest? then 9 else 1
    case InSleep(z, _, _) =>
      if z.ZLock? then 8 else if z.ZDrop? then 7 else if z.ZChan? then 6 else if z.ZState? then 5 else if z.ZSched? then 4
      else if z.ZBack? then 3 else if z.ZClear? then 2 else if z.ZRel? then 1 else 0
    case InGive(g, _, _) => if g.GSet? then 2 + WakeLeft(n, 0) else 1
    case InLeaf(_, b) => 1 + Left(n, b)
    case InWake(w, _, j, ret) =>
      AfterWake(n, ret) + if w.KNext? then WakeLeft(n, j) else (if w.KTest? then 2 else 1) + WakeLeft(n, j + 1)
    case InExit(e, j) =>
      if e.EReparent? then ExitLeft(n, j) else if e.ELock? then 4 else if e.EZombie? then 3 else if e.EDrop? then 2
      else if e.ESched? then 1 else 0
    case InWait(t, j, _) =>
      if t.TNext? then WakeLeft(n, j) + 8 else if t.TTest? then WakeLeft(n, j + 1) + 10
      else if t.TSkip? then WakeLeft(n, j + 1) + 9 else if t.TFreed? then 2 else 1
    case InFork(f, j) =>
      if f.FNext? then WakeLeft(n, j) + 7 else if f.FTest? then WakeLeft(n, j + 1) + 9
      else if f.FSkip? then WakeLeft(n, j + 1) + 8 else if f.FCopy? then 7 else if f.FWait? then 6
      else if f.FParent? then 5 else if f.FDrop? then 4 else if f.FLock? then 3 else if f.FReady? then 2 else 1
    case InSched(p, j) =>
      if p.PNext? then 2 * WakeLeft(n, j) else if p.PRel? then 2 * WakeLeft(n, j + 1) + 1
      else if p.PTest? then 2 * WakeLeft(n, j + 1) + 5 else if p.PSet? then 2 * WakeLeft(n, j + 1) + 4
      else if p.PGo? then 2 * WakeLeft(n, j + 1) + 3 else 2 * WakeLeft(n, j + 1) + 2
  }

  /** Where the thread may choose, where sleep goes back to its caller's loop, and where the scheduler starts over. */
  predicate Chooses(n: nat, pc: Pc)
  {
    pc.Idle? || pc.InTrap? || (pc.InSleep? && pc.z.ZAgain?) || pc == InSched(PNext, n)
  }

  /** The instruction enters a trap, or one of the innermost locks. */
  predicate Enters(pc: Pc, next: Pc) { (next.InTrap? && next.b == pc) || (next.InLeaf? && next.b == pc) }

  lemma LeftMoves(u: View, pc: Pc, d: Todo, ko: nat)
    requires Guard(u, pc, d) && !d.ins.Panics? && !d.ins.Resume? && PcOk(u.n, ko, u.me, pc)
    requires !Chooses(u.n, pc) && !Enters(pc, d.next) && (d.ins.Do? && d.ins.w.Parent? ==> d.ins.w.i < u.n)
    ensures Left(u.n, d.next) < Left(u.n, pc)
  {
    hide Guard, Left, PcOk;
    match pc
    case InSleep(_, _, _) => LeftSleep(u, pc, d);
    case InWake(_, _, _, _) => LeftWake(u, pc, d, ko);
    case InExit(_, _) => LeftExit(u, pc, d, ko);
    case InWait(_, _, _) => LeftWait(u, pc, d, ko);
    case InFork(_, _) => LeftFork(u, pc, d, ko);
    case InSched(_, _) => LeftSched(u, pc, d, ko);
    case InLeaf(_, _) => LeftLeaf(u, pc, d);
    case _ => LeftOther(u, pc, d);
  }

  lemma LeftSleep(u: View, pc: Pc, d: Todo)
    requires Guard(u, pc, d) && !d.ins.Panics? && !d.ins.Resume? && pc.InSleep? && !pc.z.ZAgain? && !Enters(pc, d.next)
    ensures Left(u.n, d.next) < Left(u.n, pc)
  {
  }

  lemma LeftWake(u: View, pc: Pc, d: Todo, ko: nat)
    requires Guard(u, pc, d) && !d.ins.Panics? && !d.ins.Resume? && pc.InWake? && !Enters(pc, d.next) && PcOk(u.n, ko, u.me, pc)
    ensures Left(u.n, d.next) < Left(u.n, pc)
  {
  }

  lemma LeftExit(u: View, pc: Pc, d: Todo, ko: nat)
    requires Guard(u, pc, d) && !d.ins.Panics? && !d.ins.Resume? && pc.InExit? && !Enters(pc, d.next) && PcOk(u.n, ko, u.me, pc)
    requires d.ins.Do? && d.ins.w.Parent? ==> d.ins.w.i < u.n
    ensures Left(u.n, d.next) < Left(u.n, pc)
  {
  }

  lemma LeftWait(u: View, pc: Pc, d: Todo, ko: nat)
    requires Guard(u, pc, d) && !d.ins.Panics? && !d.ins.Resume? && pc.InWait? && !Enters(pc, d.next) && PcOk(u.n, ko, u.me, pc)
    ensures Left(u.n, d.next) < Left(u.n, pc)
  {
  }

  lemma LeftFork(u: View, pc: Pc, d: Todo, ko: nat)
    requires Guard(u, pc, d) && !d.ins.Panics? && !d.ins.Resume? && pc.InFork? && !Enters(pc, d.next) && PcOk(u.n, ko, u.me, pc)
    ensures Left(u.n, d.next) < Left(u.n, pc)
  {
  }

  lemma LeftSched(u: View, pc: Pc, d: Todo, ko: nat)
    requires Guard(u, pc, d) && !d.ins.Panics? && !d.ins.Resume? && pc.InSched? && pc != InSched(PNext, u.n)
    requires !Enters(pc, d.next) && PcOk(u.n, ko, u.me, pc)
    ensures Left(u.n, d.next) < Left(u.n, pc)
  {
  }

  lemma LeftLeaf(u: View, pc: Pc, d: Todo)
    requires Guard(u, pc, d) && !d.ins.Panics? && !d.ins.Resume? && pc.InLeaf? && !Enters(pc, d.next)
    ensures Left(u.n, d.next) < Left(u.n, pc)
  {
  }

  lemma LeftOther(u: View, pc: Pc, d: Todo)
    requires Guard(u, pc, d) && !d.ins.Panics? && !d.ins.Resume? && !Enters(pc, d.next) && !pc.Idle? && !pc.InTrap?
    requires !pc.InSleep? && !pc.InWake? && !pc.InExit? && !pc.InWait? && !pc.InFork? && !pc.InSched? && !pc.InLeaf?
    ensures Left(u.n, d.next) < Left(u.n, pc)
  {
  }

  // ----- What that means for the threads of a run

  /** Every instruction brings a process nearer to where it may choose again, to the end of its sleep, or to its death: by
      LeftBound a call takes fewer than 3n^2 + 8n + 20 instructions from choice to choice in a system with n slots. */
  lemma CallsEnd(s: State, t: State, c: nat, op: Op, flip: bool, me: nat)
    requires IsReachable(s) && Step(s, t, c, op, flip) && s.cpus[c].on == me && me < |t.procs|
    ensures var n, pc, next := |s.procs|, s.procs[me].pc, t.procs[me].pc;
            Chooses(n, pc) || Enters(pc, next) || Left(n, next) < Left(n, pc)
  {
    hide IsReachable, Base, ForkInv, ParentInv, ObjectInv, LoneInv, ChildInv, KidInv, BornInv, LeavingInv, EntryInv,
      CountInv, Apply, Fits, PcOk, CpuAfter, SameElsewhere, Onward, Text, Guard, LockSteps, Left, Chooses, Enters;
    Stepped(s, t, c, op, flip);
    InvShape(s);
    var d, pc := Text(s, c, op, flip), s.procs[me].pc;
    assert t.procs[me] == Proc1(s, c, d, me);
    ResumeSched(ViewOf(s, c), pc, d);
    ProcNotSched(|s.procs|, |s.ready|, me, pc);
    if !Chooses(|s.procs|, pc) && !Enters(pc, d.next) {
      FitsParent(|s.procs|, |s.ready|, me, d);
      LeftMoves(ViewOf(s, c), pc, d, |s.ready|);
    }
  }

  lemma FitsParent(n: nat, ko: nat, me: int, d: Todo)
    requires Fits(n, ko, me, d.ins, d.next)
    ensures d.ins.Do? && d.ins.w.Parent? ==> d.ins.w.i < n
  {
  }

  /** The bound: no counter of a process is further from a choice. */
  lemma LeftBound(n: nat, ko: nat, me: int, pc: Pc)
    requires PcOk(n, ko, me, pc) && me >= 0
    ensures Left(n, pc) < 3 * n * n + 8 * n + 20
  {
    hide ExitLeft;
    assert 3 * n * n >= 0;
    match pc
    case InExit(_, j) => ExitBound(n, j);
    case InWake(_, _, _, ret) =>
      if ret.ToReparent? {
        ExitBound(n, ret.j);
      }
    case _ =>
  }

  lemma {:induction false} ExitBound(n: nat, j: nat)
    requires j <= n
    ensures ExitLeft(n, j) <= 3 * n * n + 5 * n + 6
    decreases n - j
  {
    ExitSum(n, j);
    assert (n - j + 1) * (3 * n + 2) <= (n + 1) * (3 * n + 2);
    assert (n + 1) * (3 * n + 2) == 3 * n * n + 5 * n + 2;
  }

  lemma {:induction false} ExitSum(n: nat, j: nat)
    requires j <= n
    ensures ExitLeft(n, j) <= (n - j + 1) * (3 * n + 2) + 4
    decreases n - j
  {
    if j < n {
      ExitSum(n, j + 1);
      assert (n - j + 1) * (3 * n + 2) == (n - j) * (3 * n + 2) + (3 * n + 2);
    } else {
      assert (n - j + 1) * (3 * n + 2) == 3 * n + 2;
    }
  }

  /** Who exits never comes back: its counter stays in exit until the slot is taken again. */
  lemma ExitNeverReturns(s: State, t: State, c: nat, op: Op, flip: bool, q: nat)
    requires IsReachable(s) && Step(s, t, c, op, flip) && q < |s.procs| && q < |t.procs| && IsExit(s.procs[q].pc)
    ensures IsExit(t.procs[q].pc) || (s.procs[q].st == UNUSED && t.procs[q].st == USED && t.procs[q].pc.Fresh?)
  {
    hide IsReachable, Base, ForkInv, ParentInv, ObjectInv, LoneInv, ChildInv, KidInv, BornInv, LeavingInv, EntryInv,
      CountInv, Apply, Fits, PcOk, CpuAfter, SameElsewhere, Onward, Text, Guard, LockSteps;
    Stepped(s, t, c, op, flip);
    InvShape(s);
    var d := Text(s, c, op, flip);
    assert t.procs[q] == Proc1(s, c, d, q);
    if q == s.cpus[c].on {
      ResumeSched(ViewOf(s, c), s.procs[q].pc, d);
      ProcNotSched(|s.procs|, |s.ready|, q, s.procs[q].pc);
      ExitMoves(ViewOf(s, c), s.procs[q].pc, d);
    } else if d.ins.Do? && d.ins.w == Birth(q) {
      BirthMoves(ViewOf(s, c), ThreadPc(s, c), d, q);
    }
  }

  lemma ExitMoves(u: View, pc: Pc, d: Todo)
    requires Guard(u, pc, d) && !d.ins.Panics? && !d.ins.Resume? && IsExit(pc)
    ensures IsExit(d.next)
  {
  }

  lemma BirthMoves(u: View, pc: Pc, d: Todo, q: nat)
    requires Guard(u, pc, d) && d.ins == Do(Birth(q))
    ensures u.st == UNUSED && SlotOf(pc) == q
  {
  }

  // ----- Where calls start

  /** A process that calls exit, wait or fork is in it, and one that waits for an object or gives it has its lock. */
  lemma CallsStart(s: State, t: State, c: nat, op: Op, flip: bool, me: nat)
    requires IsReachable(s) && Step(s, t, c, op, flip) && s.cpus[c].on == me && me < |t.procs| && s.procs[me].pc.Idle?
    ensures op.Exit? && me != s.init ==> t.procs[me].pc == InExit(EReparent, 0) && W in t.held && t.held[W] == c
    ensures op.Wait? ==> t.procs[me].pc == InWait(TNext, 0, false) && W in t.held && t.held[W] == c
    ensures op.Fork? ==> t.procs[me].pc == InFork(FNext, 0)
    ensures op.Take? && op.k < |s.ready| ==> t.procs[me].pc == InUse(UArm, op.k) && O(op.k) in t.held && t.held[O(op.k)] == c
    ensures op.Give? && op.k < |s.ready| && op.k !in s.bare ==>
              t.procs[me].pc == InGive(GSet, op.k, Idle) && O(op.k) in t.held && t.held[O(op.k)] == c
  {
    hide IsReachable, Base, ForkInv, ParentInv, ObjectInv, LoneInv, ChildInv, KidInv, BornInv, LeavingInv, EntryInv,
      CountInv, Fits, PcOk, CpuAfter, SameElsewhere, Guard, LockSteps;
    Stepped(s, t, c, op, flip);
    InvShape(s);
    assert t.procs[me] == Proc1(s, c, Text(s, c, op, flip), me);
  }

  /** An interrupt is taken wherever interrupts are on, and they are off then. */
  lemma TrapTaken(s: State, t: State, c: nat, op: Op, flip: bool)
    requires IsReachable(s) && Step(s, t, c, op, flip) && op.Trap? && s.cpus[c].sie && Shape(t) && c < |t.cpus|
    ensures t.cpus[c].on == s.cpus[c].on && ThreadPc(t, c) == InTrap(ThreadPc(s, c)) && !t.cpus[c].sie
  {
    hide IsReachable, Base, ForkInv, ParentInv, ObjectInv, LoneInv, ChildInv, KidInv, BornInv, LeavingInv, EntryInv,
      CountInv, Fits, PcOk, Guard, LockSteps, SameElsewhere, Apply;
    Stepped(s, t, c, op, flip);
  }

  /** What the handlers do: a process may give up its CPU, the disk makes its object ready and wakes for it, and the end of the
      trap goes on where the interrupt came, with interrupts on. */
  lemma TrapServes(s: State, t: State, c: nat, op: Op, flip: bool, b: Pc)
    requires IsReachable(s) && Step(s, t, c, op, flip) && Shape(t) && c < |t.cpus| && ThreadPc(s, c) == InTrap(b)
    ensures op.Yield? && s.cpus[c].on >= 0 ==> ThreadPc(t, c) == InYield(YHold, false, b)
    ensures op.Bare? && op.k < |s.ready| && op.k in s.bare ==>
              |t.ready| == |s.ready| && t.ready[op.k] && ThreadPc(t, c) == InWake(KNext, Obj(op.k), 0, ToIsr(b))
    ensures op.Give? && op.k < |s.ready| && op.k !in s.bare ==> ThreadPc(t, c) == InGive(GSet, op.k, InTrap(b))
    ensures op.Nothing? ==> ThreadPc(t, c) == b && t.cpus[c].sie
  {
    hide IsReachable, Base, ForkInv, ParentInv, ObjectInv, LoneInv, ChildInv, KidInv, BornInv, LeavingInv, EntryInv,
      CountInv, Fits, PcOk, Guard, LockSteps, SameElsewhere, Apply;
    Stepped(s, t, c, op, flip);
  }

  /** yield makes the process RUNNABLE. */
  lemma YieldGives(s: State, t: State, c: nat, op: Op, flip: bool, me: nat, v: bool, b: Pc)
    requires IsReachable(s) && Step(s, t, c, op, flip) && s.cpus[c].on == me && me < |t.procs|
    requires s.procs[me].pc == InYield(YHold, v, b)
    ensures t.procs[me].st == RUNNABLE && t.procs[me].pc == InYield(YSched, v, b)
  {
    hide IsReachable, Base, ForkInv, ParentInv, ObjectInv, LoneInv, ChildInv, KidInv, BornInv, LeavingInv, EntryInv,
      CountInv, Fits, PcOk, Guard, LockSteps, SameElsewhere, Apply;
    Stepped(s, t, c, op, flip);
    InvShape(s);
    BaseQuiet(s, c);
    assert t.procs[me] == Proc1(s, c, Text(s, c, op, flip), me);
  }

  /** sched gives the CPU to its scheduler, with the process's context saved. */
  lemma SchedGives(s: State, t: State, c: nat, op: Op, flip: bool, me: nat)
    requires IsReachable(s) && Step(s, t, c, op, flip) && s.cpus[c].on == me && me < |t.procs| && c < |t.cpus|
    requires Text(s, c, op, flip).ins == Switch
    ensures t.cpus[c].on == -1 && t.procs[me].at == -1 && t.procs[me].st == s.procs[me].st != RUNNING
    ensures t.procs[me].st == ZOMBIE || Saved(t.procs[me].pc)
  {
    hide IsReachable, LockInv, DepthInv, HandlerInv, SchedInv, ForkInv, ParentInv, ObjectInv, LoneInv, ChildInv, KidInv,
      BornInv, LeavingInv, EntryInv, CountInv, Fits, PcOk, Guard, LockSteps, SameElsewhere, Apply, Text, Onward;
    Stepped(s, t, c, op, flip);
    InvShape(s);
    var d := Text(s, c, op, flip);
    assert CpuOk(s, c) && ProcOk(s, me) && ChanAt(s.procs[me].pc, s.procs[me].chan);
    assert t.procs[me] == Proc1(s, c, d, me);
    AwayMoves(ViewOf(s, c), s.procs[me].pc, d, s.procs[me]);
  }
}
