/** fork and parents: what every instruction keeps. */
module ProcFamily {
  import opened ProcState
  import opened ProcModel
  import opened ProcText
  import opened ProcInv
  import opened ProcLock
  import opened ProcFields
  import opened ProcStatus

  // ----- fork

  /** How a thread comes to have slot j in hand, and keeps it: p is the slot. */
  predicate ForkStep(u: View, pc: Pc, d: Todo, j: nat, p: Proc)
  {
    var f, g := Under(pc), Under(d.next);
    Forking(g) && g.j == j ==>
      || (d.ins == Do(Birth(j)) && !Adopted(g.f) && SlotOf(pc) == j && u.st == UNUSED)
      || (Forking(f) && f.j == j && d.ins == Do(Parent(j, u.me)) && Adopted(g.f))
      || (Forking(f) && f.j == j && Adopted(f.f) == Adopted(g.f)
          && (u.me != j && p.st == USED ==>
                StAfter(p, d.ins, j) == USED && ParentAfter(p, d.ins, j) == p.parent && MakerAfter(p, u.me, d.ins, j) == p.maker))
  }

  lemma ForkMoves(u: View, pc: Pc, d: Todo, j: nat, p: Proc)
    requires Guard(u, pc, d) && !d.ins.Panics? && !d.ins.Resume? && u.me >= 0 && (SlotOf(pc) == j ==> u.st == p.st)
    ensures ForkStep(u, pc, d, j, p)
  {
    hide ForkStep, StAfter, ParentAfter, MakerAfter, Guard;
    match pc
    case InFork(_, _) => ForkFork(u, pc, d, j, p);
    case InWake(_, _, _, _) => ForkWake(u, pc, d, j, p);
    case InTrap(_) => ForkTrap(u, pc, d, j, p);
    case InYield(_, _, _) => ForkTrap(u, pc, d, j, p);
    case InGive(_, _, _) => ForkTrap(u, pc, d, j, p);
    case InLeaf(_, _) => ForkTrap(u, pc, d, j, p);
    case _ => ForkNone(u, pc, d, j, p);
  }

  lemma ForkFork(u: View, pc: Pc, d: Todo, j: nat, p: Proc)
    requires Guard(u, pc, d) && !d.ins.Panics? && !d.ins.Resume? && u.me >= 0 && (SlotOf(pc) == j ==> u.st == p.st) && pc.InFork?
    ensures ForkStep(u, pc, d, j, p)
  {
  }

  lemma ForkWake(u: View, pc: Pc, d: Todo, j: nat, p: Proc)
    requires Guard(u, pc, d) && !d.ins.Panics? && !d.ins.Resume? && u.me >= 0 && (SlotOf(pc) == j ==> u.st == p.st) && pc.InWake?
    ensures ForkStep(u, pc, d, j, p)
  {
  }

  lemma ForkTrap(u: View, pc: Pc, d: Todo, j: nat, p: Proc)
    requires Guard(u, pc, d) && !d.ins.Panics? && !d.ins.Resume? && u.me >= 0 && (SlotOf(pc) == j ==> u.st == p.st)
    requires pc.InTrap? || pc.InYield? || pc.InGive? || pc.InLeaf?
    ensures ForkStep(u, pc, d, j, p)
  {
  }

  lemma ForkNone(u: View, pc: Pc, d: Todo, j: nat, p: Proc)
    requires Guard(u, pc, d) && !d.ins.Panics? && !d.ins.Resume? && u.me >= 0
    requires !pc.InFork? && !pc.InWake? && !pc.InTrap? && !pc.InYield? && !pc.InGive? && !pc.InLeaf?
    ensures ForkStep(u, pc, d, j, p)
  {
  }

  lemma ForkMine(s: State, c: nat, d: Todo, t: State)
    requires LifeInv(s) && Legal(s, c, d) && Becomes(s, c, d, t) && Shape(t) && !d.ins.Panics?
    requires s.cpus[c].on >= 0
    ensures ForkOk(t, s.cpus[c].on)
  {
    hide Depth, DepthInv, HandlerInv, LockSteps, LockInv, PcOk, Guard, SchedInv, SameElsewhere, Fits, Holds,
      StatusInv, Onward, CpuAfter, StAfter, ParentAfter, MakerAfter, Under;
    var me := s.cpus[c].on;
    assert CpuOk(s, c);
    assert ForkOk(s, me);
    assert t.procs[me] == Proc1(s, c, d, me);
    ForkedNext(s, c, d);
    if Forking(Under(d.next)) && Under(d.next).j < |s.procs| {
      var j := Under(d.next).j;
      ForkMoves(ViewOf(s, c), ThreadPc(s, c), d, j, s.procs[j]);
      BirthAndResume(s, c, d);
      assert ParentOk(s, j);
      assert t.procs[j] == Proc1(s, c, d, j);
      BirthFields(s.procs[j], me, d.ins, j);
    }
  }

  lemma BirthFields(p: Proc, me: int, ins: Instr, j: nat)
    ensures ins == Do(Birth(j)) ==>
              StAfter(p, ins, j) == USED && MakerAfter(p, me, ins, j) == me && ParentAfter(p, ins, j) == p.parent
    ensures ins.Do? && ins.w.Parent? && ins.w.i == j ==>
              StAfter(p, ins, j) == p.st && MakerAfter(p, me, ins, j) == p.maker && ParentAfter(p, ins, j) == ins.w.q
  {
  }

  lemma ForkedNext(s: State, c: nat, d: Todo)
    requires Shape(s) && Legal(s, c, d) && s.cpus[c].on >= 0
    ensures !d.ins.Resume?
  {
    hide Depth, LockSteps, Guard, Holds;
  }

  /** What other threads may do to a slot that is being forked: nothing. */
  lemma ForkTheirs(s: State, c: nat, d: Todo, i: nat)
    requires LifeInv(s) && Legal(s, c, d) && !d.ins.Panics? && i < |s.procs| && s.cpus[c].on != i
    requires Forking(Under(s.procs[i].pc)) && Under(s.procs[i].pc).j < |s.procs|
    ensures var j := Under(s.procs[i].pc).j; var p, q := s.procs[j], Proc1(s, c, d, j);
            q.st == USED && q.at < 0 && q.maker == p.maker && q.parent == p.parent
  {
    hide Depth, DepthInv, HandlerInv, LockSteps, LockInv, PcOk, Guard, SchedInv, Fits, Holds, StAfter, ChanAfter,
      PcAfter, StatusInv, ParentInv, ParentAfter, MakerAfter;
    var me, pc, j := s.cpus[c].on, ThreadPc(s, c), Under(s.procs[i].pc).j;
    assert CpuOk(s, c);
    assert ForkOk(s, i);
    if me >= 0 {
      assert ForkOk(s, me);
    }
    NotMine(s, c, j);
    BirthAndResume(s, c, d);
    ForkSees(s, c);
    Handles(ViewOf(s, c), pc, d, j, s.procs[j]);
    Inherits(ViewOf(s, c), pc, d, j, s.procs[j]);
  }

  /** Who writes parent and maker fields. */
  lemma Inherits(u: View, pc: Pc, d: Todo, j: nat, p: Proc)
    requires Guard(u, pc, d) && !d.ins.Panics?
    requires SlotOf(pc) == j ==> u.st == p.st && u.theirs == p.parent
    ensures ParentAfter(p, d.ins, j) != p.parent ==>
              || (pc == InExit(EReparent, j) && p.parent == u.me && u.me >= 0 && ParentAfter(p, d.ins, j) == u.init
                  && d.next == InWake(KNext, Kid(u.init), 0, ToReparent(j + 1)))
              || (pc == InFork(FParent, j) && u.me >= 0 && ParentAfter(p, d.ins, j) == u.me && d.next == InFork(FDrop, j))
              || (u.me >= 0 && ParentAfter(p, d.ins, j) == -1 && StAfter(p, d.ins, j) == UNUSED
                  && (pc == InFork(FCopy, j) || (pc.InWait? && SlotOf(pc) == j && p.st == ZOMBIE)))
    ensures MakerAfter(p, u.me, d.ins, j) != p.maker ==> p.st == UNUSED
    ensures StAfter(p, d.ins, j) == UNUSED && p.st != UNUSED ==> ParentAfter(p, d.ins, j) == -1
  {
  }

  lemma ForkKept(s: State, c: nat, d: Todo, t: State)
    requires LifeInv(s) && Legal(s, c, d) && Becomes(s, c, d, t) && Shape(t) && !d.ins.Panics?
    ensures ForkInv(t)
  {
    hide ForkOk, Depth, DepthInv, HandlerInv, LockSteps, LockInv, PcOk, Guard, SchedInv, SameElsewhere, Fits, Holds,
      Onward, CpuAfter, ParentInv, Proc1, StatusInv;
    forall i: nat | i < |t.procs|
      ensures ForkOk(t, i)
    {
      if i == s.cpus[c].on {
        ForkMine(s, c, d, t);
      } else {
        ForkOther(s, c, d, t, i);
      }
    }
  }

  lemma ForkOther(s: State, c: nat, d: Todo, t: State, i: nat)
    requires LifeInv(s) && Legal(s, c, d) && Becomes(s, c, d, t) && Shape(t) && !d.ins.Panics? && i < |s.procs| && i != s.cpus[c].on
    ensures ForkOk(t, i)
  {
    hide Depth, DepthInv, HandlerInv, LockSteps, LockInv, PcOk, Guard, SchedInv, SameElsewhere, Fits, Holds, Onward,
      CpuAfter, ParentInv, StAfter, ChanAfter, ParentAfter, MakerAfter, Under, StatusInv, OnInv;
    assert ForkOk(s, i);
    assert t.procs[i] == Proc1(s, c, d, i);
    if t.procs[i].pc == s.procs[i].pc {
      if Forking(Under(s.procs[i].pc)) && Under(s.procs[i].pc).j < |s.procs| {
        ForkTheirs(s, c, d, i);
        assert t.procs[Under(s.procs[i].pc).j] == Proc1(s, c, d, Under(s.procs[i].pc).j);
      }
    } else {
      NothingUnder();
    }
  }

  lemma NothingUnder()
    ensures !Forking(Under(Fresh))
  {
  }

  // ----- Parents

  /** How far a thread has given its children away, before and after. */
  predicate StripStep(u: View, pc: Pc, d: Todo)
  {
    && (|| Stripped(u.n, d.next) <= Stripped(u.n, pc)
        || (pc.InExit? && pc.e.EReparent? && Stripped(u.n, d.next) == pc.j + 1
            && (u.theirs != u.me || d.ins == Do(Parent(pc.j, u.init))))
        || (pc.InExit? && pc.e.EReparent? && pc.j == u.n))
    && (d.ins.Do? && d.ins.w.Exited? ==> d.ins.w.i == u.me && Stripped(u.n, pc) == u.n && IsExit(pc))
    && (u.me == u.init && !IsExit(pc) ==> !IsExit(d.next) && Stripped(u.n, d.next) == 0)
  }

  lemma StripMoves(u: View, pc: Pc, d: Todo)
    requires Guard(u, pc, d) && u.me >= 0 && !d.ins.Panics?
    ensures StripStep(u, pc, d)
  {
    match pc
    case InExit(_, _) => StripExit(u, pc, d);
    case InWake(_, _, _, _) => StripWake(u, pc, d);
    case Idle => StripIdle(u, pc, d);
    case _ => StripOther(u, pc, d);
  }

  lemma StripExit(u: View, pc: Pc, d: Todo)
    requires Guard(u, pc, d) && u.me >= 0 && !d.ins.Panics? && pc.InExit?
    ensures StripStep(u, pc, d)
  {
  }

  lemma StripWake(u: View, pc: Pc, d: Todo)
    requires Guard(u, pc, d) && u.me >= 0 && !d.ins.Panics? && pc.InWake?
    ensures StripStep(u, pc, d)
  {
  }

  lemma StripIdle(u: View, pc: Pc, d: Todo)
    requires Guard(u, pc, d) && u.me >= 0 && !d.ins.Panics? && pc.Idle?
    ensures StripStep(u, pc, d)
  {
  }

  lemma StripOther(u: View, pc: Pc, d: Todo)
    requires Guard(u, pc, d) && u.me >= 0 && !d.ins.Panics? && !pc.InExit? && !pc.InWake? && !pc.Idle?
    ensures StripStep(u, pc, d)
  {
  }

  /** The state of the process that executes the instruction, when it is a parent. */
  lemma AliveMine(u: View, pc: Pc, d: Todo, p: Proc)
    requires Guard(u, pc, d) && u.me >= 0 && !d.ins.Panics? && p.pc == pc && Alive(p.st)
    requires p.st == RunState(pc) && (SlotOf(pc) == u.me ==> u.st == p.st) && (Forking(pc) ==> u.st == USED)
    ensures Alive(StAfter(p, d.ins, u.me)) || (d.ins.Do? && d.ins.w == Exited(u.me))
  {
  }

  /** A live parent stays alive, and does not come to this child without giving it away. */
  lemma ParentStays(s: State, c: nat, d: Todo, t: State, q: nat, j: nat)
    requires LifeInv(s) && Legal(s, c, d) && Becomes(s, c, d, t) && Shape(t) && !d.ins.Panics? && q < |s.procs| && j < |s.procs|
    requires s.procs[j].parent == q && t.procs[j].parent == q
    ensures q != j && Alive(t.procs[q].st) && j >= Stripped(|s.procs|, t.procs[q].pc)
  {
    hide Depth, DepthInv, HandlerInv, LockSteps, LockInv, PcOk, Guard, SchedInv, SameElsewhere, Fits, Holds, Onward,
      CpuAfter, ForkInv, StAfter, ChanAfter, ParentAfter, MakerAfter;
    var me, pc, p := s.cpus[c].on, ThreadPc(s, c), s.procs[q];
    assert ParentOk(s, j) && CpuOk(s, c) && ProcOk(s, q);
    assert t.procs[q] == Proc1(s, c, d, q) && t.procs[j] == Proc1(s, c, d, j);
    ForkSees(s, c);
    if me != q {
      Handles(ViewOf(s, c), pc, d, q, p);
    } else {
      ResumeSched(ViewOf(s, c), pc, d);
      ProcNotSched(|s.procs|, |s.ready|, me, pc);
      AliveMine(ViewOf(s, c), pc, d, p);
      StripMoves(ViewOf(s, c), pc, d);
      GivenAway(s, d, j, q);
    }
  }

  /** A child given to init is no longer the parent's. */
  lemma GivenAway(s: State, d: Todo, j: nat, q: nat)
    requires LifeInv(s) && j < |s.procs| && q < |s.procs| && s.procs[j].parent == q
    ensures d.ins == Do(Parent(j, s.init)) && ParentAfter(s.procs[j], d.ins, j) == q ==> q == s.init
    ensures j < |s.procs| && q == s.init ==> Stripped(|s.procs|, s.procs[q].pc) == 0 && !IsExit(s.procs[q].pc)
  {
    hide Depth, DepthInv, HandlerInv, LockInv, OnInv, StatusInv, ForkInv, SchedInv, PcOk;
    assert ParentOk(s, q);
  }

  lemma ParentKept(s: State, c: nat, d: Todo, t: State)
    requires LifeInv(s) && Legal(s, c, d) && Becomes(s, c, d, t) && Shape(t) && !d.ins.Panics?
    ensures ParentInv(t)
  {
    hide ParentOk, Depth, DepthInv, HandlerInv, LockSteps, LockInv, PcOk, Guard, SchedInv, SameElsewhere, Fits, Holds,
      Onward, CpuAfter, ForkInv, Proc1, StatusInv;
    forall j: nat | j < |t.procs|
      ensures ParentOk(t, j)
    {
      InitKept(s, c, d, t);
      NewParent(s, c, d, t, j);
      ParentStates(s, c, d, t, j);
      ParentAt(s, t, j);
      if t.procs[j].parent >= 0 && t.procs[j].parent == s.procs[j].parent {
        ParentStays(s, c, d, t, t.procs[j].parent, j);
      }
    }
  }

  /** init never exits. */
  lemma InitKept(s: State, c: nat, d: Todo, t: State)
    requires LifeInv(s) && Legal(s, c, d) && Becomes(s, c, d, t) && Shape(t) && !d.ins.Panics?
    ensures var p := t.procs[s.init]; Alive(p.st) && p.parent == -1 && Stripped(|s.procs|, p.pc) == 0 && !IsExit(p.pc)
  {
    hide Depth, DepthInv, HandlerInv, LockSteps, LockInv, PcOk, Guard, SchedInv, SameElsewhere, Fits, Holds, Onward,
      CpuAfter, StAfter, ChanAfter, ParentAfter, MakerAfter;
    var q := s.init;
    var me, pc, p := s.cpus[c].on, ThreadPc(s, c), s.procs[q];
    assert ParentOk(s, q) && CpuOk(s, c) && ProcOk(s, q);
    assert t.procs[q] == Proc1(s, c, d, q);
    ForkSees(s, c);
    Inherits(ViewOf(s, c), pc, d, q, p);
    if me != q {
      Handles(ViewOf(s, c), pc, d, q, p);
    } else {
      ResumeSched(ViewOf(s, c), pc, d);
      ProcNotSched(|s.procs|, |s.ready|, me, pc);
      AliveMine(ViewOf(s, c), pc, d, p);
      StripMoves(ViewOf(s, c), pc, d);
    }
  }

  /** A parent newly written is init, or the process that is forking. */
  lemma NewParent(s: State, c: nat, d: Todo, t: State, j: nat)
    requires LifeInv(s) && Legal(s, c, d) && Becomes(s, c, d, t) && Shape(t) && !d.ins.Panics? && j < |s.procs|
    ensures var q := t.procs[j].parent;
            q >= 0 && q != s.procs[j].parent ==>
              && q != j && (q == s.init || (Alive(t.procs[q].st) && j >= Stripped(|s.procs|, t.procs[q].pc)))
              && j != s.init && (s.procs[j].parent >= 0 || s.procs[j].st == USED)
              && t.procs[j].st == s.procs[j].st
  {
    hide Depth, DepthInv, HandlerInv, LockSteps, LockInv, PcOk, Guard, SchedInv, SameElsewhere, Fits, Holds, Onward,
      CpuAfter, ParentAfter, MakerAfter, ChanAfter;
    var me, pc, p := s.cpus[c].on, ThreadPc(s, c), s.procs[j];
    assert ParentOk(s, j) && CpuOk(s, c) && ParentOk(s, s.init);
    assert t.procs[j] == Proc1(s, c, d, j);
    ForkSees(s, c);
    Inherits(ViewOf(s, c), pc, d, j, p);
    ParentWrite(ViewOf(s, c), pc, d, j, p);
    if t.procs[j].parent >= 0 && t.procs[j].parent != p.parent && pc.InFork? {
      assert ForkOk(s, me) && ProcOk(s, me);
      assert t.procs[me] == Proc1(s, c, d, me);
    }
  }

  /** The instruction that writes a parent writes nothing else. */
  lemma ParentWrite(u: View, pc: Pc, d: Todo, j: nat, p: Proc)
    requires Guard(u, pc, d)
    ensures ParentAfter(p, d.ins, j) >= 0 && ParentAfter(p, d.ins, j) != p.parent ==>
              d.ins.Do? && d.ins.w.Parent? && StAfter(p, d.ins, j) == p.st
  {
  }

  /** Who has a parent. */
  lemma ParentStates(s: State, c: nat, d: Todo, t: State, j: nat)
    requires LifeInv(s) && Legal(s, c, d) && Becomes(s, c, d, t) && Shape(t) && !d.ins.Panics? && j < |s.procs|
    ensures var p := t.procs[j];
            && (p.st == UNUSED ==> p.parent == -1)
            && (Alive(p.st) || p.st == ZOMBIE ==> (p.parent >= 0 <==> j != s.init))
  {
    hide Depth, DepthInv, HandlerInv, LockSteps, LockInv, PcOk, Guard, SchedInv, SameElsewhere, Fits, Holds, Onward,
      CpuAfter, ParentAfter, MakerAfter, ChanAfter, StAfter;
    var me, pc, p := s.cpus[c].on, ThreadPc(s, c), s.procs[j];
    assert ParentOk(s, j) && CpuOk(s, c) && ProcOk(s, j);
    assert t.procs[j] == Proc1(s, c, d, j);
    ForkSees(s, c);
    InitKept(s, c, d, t);
    NewParent(s, c, d, t, j);
    Inherits(ViewOf(s, c), pc, d, j, p);
    if me != j {
      Handles(ViewOf(s, c), pc, d, j, p);
      if p.st == USED && me >= 0 {
        assert ForkOk(s, me);
      }
    } else {
      OwnStates(ViewOf(s, c), pc, d, p);
    }
  }

  /** A running process stays among those that have a parent. */
  lemma OwnStates(u: View, pc: Pc, d: Todo, p: Proc)
    requires Guard(u, pc, d) && u.me >= 0 && !d.ins.Panics? && p.pc == pc && p.st == RunState(pc)
    requires (SlotOf(pc) == u.me ==> u.st == p.st) && (Forking(pc) ==> u.st == USED)
    ensures Alive(p.st) || p.st == ZOMBIE
    ensures StAfter(p, d.ins, u.me) != UNUSED && StAfter(p, d.ins, u.me) != USED
  {
  }

  lemma ParentAt(s: State, t: State, j: nat)
    requires Shape(t) && j < |t.procs| && t.init == s.init && |s.procs| == |t.procs|
    ensures ParentOk(t, j) <==>
              && (t.procs[j].parent >= 0 ==> t.procs[j].parent != j && Alive(t.procs[t.procs[j].parent].st)
                                              && j >= Stripped(|s.procs|, t.procs[t.procs[j].parent].pc))
              && (t.procs[j].st == UNUSED ==> t.procs[j].parent == -1)
              && (Alive(t.procs[j].st) || t.procs[j].st == ZOMBIE ==> (t.procs[j].parent >= 0 <==> j != s.init))
              && (j == s.init ==> Alive(t.procs[j].st) && t.procs[j].parent == -1
                                  && Stripped(|s.procs|, t.procs[j].pc) == 0 && !IsExit(t.procs[j].pc))
  {
  }
}
