/** Interrupt settings, counts, and what holds in every state of every run. */
module ProcRuns {
  import opened ProcState
  import opened ProcModel
  import opened ProcText
  import opened ProcInv
  import opened ProcLock
  import opened ProcFields
  import opened ProcStatus
  import opened ProcFamily
  import opened ProcWakeup
  import opened ProcKids

  // ----- Traps

  /** Only an interrupt leads into a trap; no setting but sched's own is written there. */
  predicate HandlerStep(u: View, pc: Pc, d: Todo)
  {
    && (InHandler(d.next) && !InHandler(pc) ==> d.ins == Do(Interrupts(false)) && d.next.InTrap?)
    && (InHandler(d.next) && InHandler(pc) ==> !(d.ins.Do? && d.ins.w.Interrupts?))
    && (InHandler(d.next) && InHandler(pc) && d.ins.Do? && d.ins.w.Intena? ==> Yielded(pc))
    && (Yielded(d.next) ==> d.ins.Switch? && d.next.v == u.intena && InHandler(pc) && !Yielded(pc) && Depth(pc) > 0)
    && (Yielded(pc) ==> d.ins == Do(Intena(pc.v)))
    && (d.ins.Switch? ==> Depth(pc) > 0)
  }

  lemma HandlerMoves(u: View, pc: Pc, d: Todo)
    requires Guard(u, pc, d) && !d.ins.Panics? && !d.ins.Resume?
    ensures HandlerStep(u, pc, d)
  {
    hide HandlerStep, Guard;
    match pc
    case InSleep(_, _, _) => HandlerSleep(u, pc, d);
    case InWake(_, _, _, _) => HandlerWake(u, pc, d);
    case InFork(_, _) => HandlerFork(u, pc, d);
    case InSched(_, _) => HandlerSched(u, pc, d);
    case _ => HandlerOther(u, pc, d);
  }

  lemma HandlerSleep(u: View, pc: Pc, d: Todo)
    requires Guard(u, pc, d) && !d.ins.Panics? && !d.ins.Resume? && pc.InSleep?
    ensures HandlerStep(u, pc, d)
  {
  }

  lemma HandlerWake(u: View, pc: Pc, d: Todo)
    requires Guard(u, pc, d) && !d.ins.Panics? && !d.ins.Resume? && pc.InWake?
    ensures HandlerStep(u, pc, d)
  {
  }

  lemma HandlerFork(u: View, pc: Pc, d: Todo)
    requires Guard(u, pc, d) && !d.ins.Panics? && !d.ins.Resume? && pc.InFork?
    ensures HandlerStep(u, pc, d)
  {
  }

  lemma HandlerSched(u: View, pc: Pc, d: Todo)
    requires Guard(u, pc, d) && !d.ins.Panics? && !d.ins.Resume? && pc.InSched?
    ensures HandlerStep(u, pc, d)
  {
  }

  lemma HandlerOther(u: View, pc: Pc, d: Todo)
    requires Guard(u, pc, d) && !d.ins.Panics? && !d.ins.Resume?
    requires !pc.InSleep? && !pc.InWake? && !pc.InFork? && !pc.InSched?
    ensures HandlerStep(u, pc, d)
  {
  }

  lemma HandlerMine(s: State, c: nat, d: Todo, t: State)
    requires Base(s) && Legal(s, c, d) && Becomes(s, c, d, t) && Shape(t) && DepthInv(t) && !d.ins.Panics?
    ensures HandlerOk(t, c)
  {
    hide LockInv, OnInv, SchedInv, PcOk, Guard, Holds, SameElsewhere, Fits, StatusInv, LockSteps, Proc1, Depth,
      InHandler;
    assert HandlerOk(s, c);
    if d.ins.Resume? {
      BirthAndResume(s, c, d);
      SavedHandler(s.procs[d.ins.j].pc);
    } else if d.ins.Switch? {
      SchedNoHandler(s.cpus[c].on);
    } else {
      HandlerMoves(ViewOf(s, c), ThreadPc(s, c), d);
      TrapDepth(d.next);
      TrapDepth(ThreadPc(s, c));
      YieldMine(|s.procs|, |s.ready|, s.cpus[c].on, ThreadPc(s, c));
    }
  }

  lemma SavedHandler(pc: Pc)
    requires Saved(pc)
    ensures InHandler(pc) ==> Yielded(pc)
  {
  }

  lemma SchedNoHandler(j: int)
    ensures j >= 0 ==> !InHandler(InSched(PBack, j))
  {
  }

  lemma YieldMine(n: nat, ko: nat, me: int, pc: Pc)
    requires PcOk(n, ko, me, pc)
    ensures Yielded(pc) ==> me >= 0
  {
  }

  lemma TrapDepth(pc: Pc)
    ensures pc.InTrap? ==> Depth(pc) == 0
    ensures Yielded(pc) ==> Depth(pc) == 1
  {
  }

  lemma HandlerSaved(s: State, c: nat, d: Todo, t: State, i: nat)
    requires Base(s) && Legal(s, c, d) && Becomes(s, c, d, t) && Shape(t) && !d.ins.Panics? && i < |s.procs|
    ensures Yielded(t.procs[i].pc) ==> !t.procs[i].pc.v
  {
    hide LockInv, SchedInv, PcOk, Guard, Holds, SameElsewhere, Fits, StatusInv, LockSteps, Depth, InHandler, CpuAfter,
      Onward, OnInv, StAfter, ChanAfter, ParentAfter;
    assert HandlerOk(s, c);
    assert t.procs[i] == Proc1(s, c, d, i);
    if i == s.cpus[c].on && !d.ins.Resume? {
      HandlerMoves(ViewOf(s, c), ThreadPc(s, c), d);
    }
  }

  lemma HandlerKept(s: State, c: nat, d: Todo, t: State)
    requires Base(s) && Legal(s, c, d) && Becomes(s, c, d, t) && Shape(t) && DepthInv(t) && !d.ins.Panics?
    ensures HandlerInv(t)
  {
    hide LockInv, SchedInv, PcOk, Guard, Holds, Fits, StatusInv, LockSteps, Depth, DepthInv, InHandler, CpuAfter,
      Onward, OnInv, Proc1;
    HandlerMine(s, c, d, t);
    forall e: nat | e < |t.cpus|
      ensures HandlerOk(t, e)
    {
      if e != c {
        Elsewhere1(s, t, c, e);
        assert HandlerOk(s, e);
      }
    }
    forall i: nat | i < |t.procs|
      ensures Yielded(t.procs[i].pc) ==> !t.procs[i].pc.v
    {
      HandlerSaved(s, c, d, t, i);
    }
  }

  // ----- Interrupt settings

  predicate Switched(pc: Pc) { Yielded(pc) || (pc.InSleep? && pc.z.ZBack?) }

  predicate EntryStep(u: View, pc: Pc, d: Todo)
  {
    && (d.ins.Switch? && !IsDead(d.next) ==> Switched(d.next) && d.next.v == u.intena && Depth(pc) > 0 && !pc.Fresh? && !Switched(pc))
    && (!d.ins.Switch? ==> !Switched(d.next) && !d.next.Fresh?)
    && (pc.Fresh? ==> Depth(d.next) == 0)
    && (Switched(pc) ==> d.ins == Do(Intena(pc.v)))
    && (d.ins.Do? && d.ins.w.Intena? ==> Switched(pc))
  }

  lemma EntryMoves(u: View, pc: Pc, d: Todo)
    requires Guard(u, pc, d) && !d.ins.Panics? && !d.ins.Resume? && u.me >= 0
    ensures EntryStep(u, pc, d)
  {
    hide EntryStep, Guard;
    match pc
    case InSleep(_, _, _) => EntrySleep(u, pc, d);
    case InWake(_, _, _, _) => EntryWake(u, pc, d);
    case InFork(_, _) => EntryFork(u, pc, d);
    case _ => EntryOther(u, pc, d);
  }

  lemma EntrySleep(u: View, pc: Pc, d: Todo)
    requires Guard(u, pc, d) && !d.ins.Panics? && !d.ins.Resume? && u.me >= 0 && pc.InSleep?
    ensures EntryStep(u, pc, d)
  {
  }

  lemma EntryWake(u: View, pc: Pc, d: Todo)
    requires Guard(u, pc, d) && !d.ins.Panics? && !d.ins.Resume? && u.me >= 0 && pc.InWake?
    ensures EntryStep(u, pc, d)
  {
  }

  lemma EntryFork(u: View, pc: Pc, d: Todo)
    requires Guard(u, pc, d) && !d.ins.Panics? && !d.ins.Resume? && u.me >= 0 && pc.InFork?
    ensures EntryStep(u, pc, d)
  {
  }

  lemma EntryOther(u: View, pc: Pc, d: Todo)
    requires Guard(u, pc, d) && !d.ins.Panics? && !d.ins.Resume? && u.me >= 0
    requires !pc.InSleep? && !pc.InWake? && !pc.InFork?
    ensures EntryStep(u, pc, d)
  {
  }

  lemma EntryMine(s: State, c: nat, d: Todo, t: State)
    requires LifeInv(s) && EntryInv(s) && Legal(s, c, d) && Becomes(s, c, d, t) && Shape(t) && !d.ins.Panics? && s.cpus[c].on >= 0
    ensures EntryOk(t, s.cpus[c].on)
  {
    hide LockInv, SchedInv, PcOk, Guard, Holds, SameElsewhere, Fits, StAfter, ChanAfter, StatusInv, ForkInv,
      ParentInv, Depth;
    var me, pc := s.cpus[c].on, ThreadPc(s, c);
    assert t.procs[me] == Proc1(s, c, d, me) && CpuOk(s, c) && EntryOk(s, me);
    ResumeSched(ViewOf(s, c), pc, d);
    ProcNotSched(|s.procs|, |s.ready|, me, pc);
    EntryMoves(ViewOf(s, c), pc, d);
    assert LockStep(me, pc, d, W);
  }

  lemma EntryTheirs(s: State, c: nat, d: Todo, t: State, i: nat)
    requires LifeInv(s) && EntryInv(s) && Legal(s, c, d) && Becomes(s, c, d, t) && Shape(t) && !d.ins.Panics?
    requires i < |s.procs| && s.cpus[c].on != i
    ensures EntryOk(t, i)
  {
    hide LockSteps, LockInv, SchedInv, PcOk, Guard, Holds, Fits, StAfter, ChanAfter, ForkInv, ParentInv, Depth,
      CpuAfter, Onward;
    assert t.procs[i] == Proc1(s, c, d, i) && EntryOk(s, i) && CpuOk(s, c);
    BirthAndResume(s, c, d);
    if s.procs[i].at >= 0 {
      NotTouched(s, c, d, i);
      NotAt(s, c, i);
      Elsewhere1(s, t, c, s.procs[i].at);
    }
  }

  lemma NotAt(s: State, c: nat, i: nat)
    requires Base(s) && c < |s.cpus| && i < |s.procs| && s.cpus[c].on != i && s.procs[i].at >= 0
    ensures s.procs[i].at != c
  {
    hide LockInv, SchedInv, PcOk, DepthInv, HandlerInv, StatusInv;
  }

  lemma EntryKept(s: State, c: nat, d: Todo, t: State)
    requires LifeInv(s) && EntryInv(s) && Legal(s, c, d) && Becomes(s, c, d, t) && Shape(t) && !d.ins.Panics?
    ensures EntryInv(t)
  {
    hide EntryOk, Depth, DepthInv, HandlerInv, LockSteps, LockInv, OnInv, SchedInv, PcOk, Guard, Holds, SameElsewhere,
      Fits, CpuAfter, StAfter, ChanAfter, StatusInv, ForkInv, ParentInv, Proc1, Onward;
    forall i: nat | i < |t.procs|
      ensures EntryOk(t, i)
    {
      if i == s.cpus[c].on {
        EntryMine(s, c, d, t);
      } else {
        EntryTheirs(s, c, d, t, i);
      }
    }
  }

  // ----- Exits and reaps

  lemma CountMoves(u: View, pc: Pc, d: Todo, i: nat, p: Proc)
    requires Guard(u, pc, d) && !d.ins.Panics? && (SlotOf(pc) == i ==> u.st == p.st) && (Forking(pc) ==> u.st == USED)
    requires u.me == i ==> p.st == RunState(pc)
    ensures d.ins.Do? && d.ins.w == Exited(i) ==> p.st != ZOMBIE
    ensures d.ins.Do? && d.ins.w == Reap(i) ==> p.st == ZOMBIE
    ensures !(d.ins.Do? && (d.ins.w == Exited(i) || d.ins.w == Reap(i))) ==> (StAfter(p, d.ins, i) == ZOMBIE <==> p.st == ZOMBIE)
  {
  }

  lemma CountKept(s: State, c: nat, d: Todo, t: State)
    requires LifeInv(s) && CountInv(s) && Legal(s, c, d) && Becomes(s, c, d, t) && !d.ins.Panics?
    ensures CountInv(t)
  {
    hide Depth, DepthInv, HandlerInv, LockSteps, LockInv, SchedInv, PcOk, Guard, Holds, SameElsewhere, Fits, CpuAfter,
      ForkInv, ParentInv, Onward, Proc1;
    forall i: nat | i < |t.procs|
      ensures CountOk(t.procs[i])
    {
      CountAt(s, c, d, t, i);
    }
  }

  lemma CountAt(s: State, c: nat, d: Todo, t: State, i: nat)
    requires LifeInv(s) && CountInv(s) && Legal(s, c, d) && Becomes(s, c, d, t) && !d.ins.Panics? && i < |s.procs|
    ensures CountOk(t.procs[i])
  {
    hide Depth, DepthInv, HandlerInv, LockSteps, LockInv, SchedInv, PcOk, Guard, Holds, SameElsewhere, Fits, CpuAfter,
      ForkInv, ParentInv, Onward, ChanAfter, ParentAfter;
    assert t.procs[i] == Proc1(s, c, d, i) && CountOk(s.procs[i]) && CpuOk(s, c) && ProcOk(s, i);
    ForkSees(s, c);
    CountMoves(ViewOf(s, c), ThreadPc(s, c), d, i, s.procs[i]);
  }

  // ----- All together

  /** No instruction panics. */
  lemma NoPanicStep(s: State, c: nat, d: Todo)
    requires LifeInv(s) && Legal(s, c, d)
    ensures !Apply(s, c, d.ins, d.next).panic
  {
    hide Depth, DepthInv, HandlerInv, LockSteps, LockInv, SchedInv, PcOk, Guard, Holds, ForkInv, Apply;
    BasePanic(s, c, d);
    if s.cpus[c].on >= 0 {
      var me := s.cpus[c].on;
      assert ParentOk(s, me) && CpuOk(s, c) && ProcOk(s, me);
    }
  }

  lemma InvStep(s: State, c: nat, d: Todo)
    requires Inv(s) && Legal(s, c, d)
    ensures Inv(Apply(s, c, d.ins, d.next))
  {
    hide Apply, Depth, DepthInv, HandlerInv, LockSteps, LockInv, OnInv, SchedInv, StatusInv, PcOk, Guard, Holds,
      ForkInv, ParentInv, ObjectInv, LoneInv, ChildInv, KidInv, BornInv, LeavingInv, EntryInv, CountInv,
      SameElsewhere, Onward, CpuAfter, Proc1, Fits;
    var t := Apply(s, c, d.ins, d.next);
    NoPanicStep(s, c, d);
    ApplyBecomes(s, c, d);
    StepFacts(s, c, d);
    ShapeKept(s, c, d, t);
    OnKept(s, c, d, t);
    LockKept(s, c, d);
    DepthKept(s, c, d);
    HandlerKept(s, c, d, t);
    StatusKept(s, c, d, t);
    SchedKept(s, c, d, t);
    ForkKept(s, c, d, t);
    ParentKept(s, c, d, t);
    ObjectKept(s, c, d, t);
    LoneKept(s, c, d, t);
    ChildKept(s, c, d, t);
    KidKept(s, c, d, t);
    BornKept(s, c, d, t);
    LeavingKept(s, c, d, t);
    EntryKept(s, c, d, t);
    CountKept(s, c, d, t);
  }

  lemma InvNext(s: State, t: State)
    requires Inv(s) && Next(s, t)
    ensures Inv(t)
  {
    hide Inv, Text, Apply, Legal, Fits, PcOk;
    var c: nat, op, flip :| Step(s, t, c, op, flip);
    InvShape(s);
    BaseQuiet(s, c);
    TextLegal(s, c, op, flip);
    InvStep(s, c, Text(s, c, op, flip));
  }

  lemma BaseQuiet(s: State, c: nat)
    requires Base(s) && c < |s.cpus|
    ensures Quiet(s, c)
  {
    hide OnInv, LockInv, DepthInv, HandlerInv, StatusInv, SchedInv, Quiet;
    QuietIs(s, c);
  }

  lemma InvShape(s: State)
    requires Inv(s)
    ensures Shape(s) && Base(s) && !s.panic
  {
    hide Shape, OnInv, LockInv, DepthInv, HandlerInv, StatusInv, SchedInv;
  }

  lemma InitInv(s: State)
    requires Init(s)
    ensures Inv(s)
  {
    InitBase(s);
    InitRest(s);
  }

  lemma InitBase(s: State)
    requires Init(s)
    ensures Base(s)
  {
    forall c: nat, l | c < |s.cpus|
      ensures Holds(s.cpus[c].on, ThreadPc(s, c), l) <==> l in s.held && s.held[l] == c
    {
      assert s.cpus[c].pc == InSched(PNext, |s.procs|);
    }
  }

  lemma InitRest(s: State)
    requires Init(s) && Base(s)
    ensures Inv(s)
  {
    hide OnInv, LockInv, DepthInv, HandlerInv, StatusInv, SchedInv;
    assert ForkInv(s) && CountInv(s) && EntryInv(s);
    assert ObjectInv(s) && LeavingInv(s) && LoneInv(s);
    assert ChildInv(s) && BornInv(s);
    assert KidInv(s);
    assert ParentInv(s);
  }

  /** The invariants hold in every state of every run, for any number of processes, CPUs and objects. */
  lemma {:induction false} Reachable(states: seq<State>, k: nat)
    requires Run(states) && k < |states|
    ensures Inv(states[k])
  {
    hide Inv, Init, Next;
    if k == 0 {
      InitInv(states[0]);
    } else {
      Reachable(states, k - 1);
      assert Next(states[k - 1], states[k - 1 + 1]);
      InvNext(states[k - 1], states[k]);
    }
  }
}
