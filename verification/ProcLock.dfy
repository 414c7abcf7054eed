/** CPUs, locks and interrupts: what every instruction keeps. */
module ProcLock {
  import opened ProcState
  import opened ProcModel
  import opened ProcText
  import opened ProcInv

  /** The thread of another CPU is where it was. */
  ghost predicate SameElsewhere(s: State, t: State, c: nat)
    requires Shape(s)
  {
    && |t.cpus| == |s.cpus| && |t.procs| == |s.procs|
    && forall d: nat | d < |s.cpus| && d != c :: t.cpus[d] == s.cpus[d] && ThreadPc(t, d) == ThreadPc(s, d)
  }

  lemma NotThere(s: State, c: nat, d: nat)
    requires Shape(s) && OnInv(s) && c < |s.cpus| && d < |s.cpus| && d != c && s.cpus[d].on >= 0
    ensures s.cpus[d].on != s.cpus[c].on && s.procs[s.cpus[d].on].at == d
  {
    assert CpuOk(s, c) && CpuOk(s, d);
  }

  lemma ElsewhereWrite(s: State, c: nat, w: Write)
    requires Shape(s) && OnInv(s) && c < |s.cpus| && WriteOk(|s.procs|, |s.ready|, w)
    requires w.Birth? ==> s.procs[w.i].at < 0
    ensures SameElsewhere(s, DoWrite(s, c, w), c)
    ensures s.cpus[c].on == DoWrite(s, c, w).cpus[c].on
  {
    hide OnInv, PcOk;
    forall d: nat | d < |s.cpus| && d != c
      ensures DoWrite(s, c, w).cpus[d] == s.cpus[d] && ThreadPc(DoWrite(s, c, w), d) == ThreadPc(s, d)
    {
      if s.cpus[d].on >= 0 {
        NotThere(s, c, d);
      }
    }
  }

  lemma ElsewhereSetPc(s: State, t: State, c: nat, pc: Pc)
    requires Shape(s) && OnInv(s) && c < |s.cpus| && SameElsewhere(s, t, c) && t.cpus[c].on == s.cpus[c].on
    ensures SameElsewhere(s, SetPc(t, c, pc), c)
  {
    hide OnInv, PcOk;
    forall d: nat | d < |s.cpus| && d != c
      ensures SetPc(t, c, pc).cpus[d] == s.cpus[d] && ThreadPc(SetPc(t, c, pc), d) == ThreadPc(s, d)
    {
      if s.cpus[d].on >= 0 {
        NotThere(s, c, d);
      }
    }
  }

  /** A new process gets its context while no CPU has it. */
  predicate BirthOk(s: State, ins: Instr)
  {
    ins.Do? && ins.w.Birth? && ins.w.i < |s.procs| ==> s.procs[ins.w.i].at < 0
  }

  predicate ResumeOk(s: State, ins: Instr)
  {
    ins.Resume? && ins.j < |s.procs| ==> s.procs[ins.j].at < 0
  }

  lemma Elsewhere(s: State, c: nat, d: Todo)
    requires Shape(s) && OnInv(s) && c < |s.cpus| && Fits(|s.procs|, |s.ready|, s.cpus[c].on, d.ins, d.next) && BirthOk(s, d.ins)
    ensures SameElsewhere(s, Apply(s, c, d.ins, d.next), c)
  {
    hide OnInv, PcOk;
    match d.ins
    case Do(w) =>
      ElsewhereWrite(s, c, w);
      ElsewhereSetPc(s, DoWrite(s, c, w), c, d.next);
    case Acquire(l) =>
      ElsewhereLock(s, c, l);
      ElsewhereSetPc(s, DoAcquire(s, c, l), c, d.next);
    case Release(l) =>
      ElsewhereLock(s, c, l);
      ElsewhereSetPc(s, DoRelease(s, c, l), c, d.next);
    case Goto =>
      ElsewhereSetPc(s, s, c, d.next);
    case Switch => ElsewhereSwitch(s, c, d.next);
    case Resume(j) => ElsewhereResume(s, c, j);
    case Panics =>
  }

  lemma ElsewhereLock(s: State, c: nat, l: Lock)
    requires Shape(s) && OnInv(s) && c < |s.cpus|
    ensures SameElsewhere(s, DoAcquire(s, c, l), c) && SameElsewhere(s, DoRelease(s, c, l), c)
    ensures DoAcquire(s, c, l).cpus[c].on == DoRelease(s, c, l).cpus[c].on == s.cpus[c].on
  {
    hide OnInv, PcOk;
    forall d: nat | d < |s.cpus| && d != c
      ensures ThreadPc(DoAcquire(s, c, l), d) == ThreadPc(s, d)
    {
      if s.cpus[d].on >= 0 {
        NotThere(s, c, d);
      }
    }
  }

  lemma ElsewhereSwitch(s: State, c: nat, next: Pc)
    requires Shape(s) && OnInv(s) && c < |s.cpus| && s.cpus[c].on >= 0
    ensures SameElsewhere(s, DoSwitch(s, c, next), c)
  {
    hide OnInv, PcOk;
    forall d: nat | d < |s.cpus| && d != c
      ensures ThreadPc(DoSwitch(s, c, next), d) == ThreadPc(s, d)
    {
      if s.cpus[d].on >= 0 {
        NotThere(s, c, d);
      }
    }
  }

  lemma ElsewhereResume(s: State, c: nat, j: nat)
    requires Shape(s) && OnInv(s) && c < |s.cpus| && s.cpus[c].on < 0 && j < |s.procs|
    ensures SameElsewhere(s, DoResume(s, c, j), c)
  {
    hide OnInv, PcOk;
  }

  // ----- No panic

  lemma LockNoPanic(s: State, c: nat, d: Todo)
    requires Base(s) && Legal(s, c, d)
    ensures d.ins.Acquire? ==> d.ins.l !in s.held
    ensures d.ins.Release? ==> d.ins.l in s.held && s.held[d.ins.l] == c && !s.cpus[c].sie && s.cpus[c].noff >= 1
    ensures d.ins.Switch? ==> s.cpus[c].on >= 0 && S(s.cpus[c].on) in s.held && s.held[S(s.cpus[c].on)] == c
                              && !s.cpus[c].sie && s.cpus[c].noff == 1
  {
    hide Holds, Depth, PcOk, OnInv, Guard, StatusInv, SchedInv;
    var me, pc := s.cpus[c].on, ThreadPc(s, c);
    match d.ins
    case Acquire(l) => assert LockStep(me, pc, d, l);
    case Release(l) => assert LockStep(me, pc, d, l);
    case Switch =>
      assert LockStep(me, pc, d, S(0));
      assert LockStep(me, pc, d, S(me));
    case _ =>
  }

  /** sched's test of the state: a process that gives up its CPU has left RUNNING. */
  lemma SwitchState(s: State, c: nat, d: Todo)
    requires Base(s) && Legal(s, c, d) && d.ins.Switch?
    ensures s.cpus[c].on >= 0 && s.procs[s.cpus[c].on].st != RUNNING && s.cpus[c].pc == InSched(PAway, s.cpus[c].on)
    ensures s.procs[s.cpus[c].on].at == c
  {
    hide Holds, Depth, PcOk, LockInv, DepthInv, HandlerInv, SchedInv, LockSteps;
    assert CpuOk(s, c);
    assert ProcOk(s, s.cpus[c].on);
  }

  lemma BirthAndResume(s: State, c: nat, d: Todo)
    requires Base(s) && Legal(s, c, d)
    ensures BirthOk(s, d.ins) && ResumeOk(s, d.ins)
    ensures d.ins.Resume? && d.ins.j < |s.procs| ==> s.procs[d.ins.j].st == RUNNING && Saved(s.procs[d.ins.j].pc)
  {
    hide Holds, Depth, LockInv, DepthInv, HandlerInv, LockSteps, PcOk;
    if d.ins.Resume? && d.ins.j < |s.procs| {
      assert SchedOk(s, c);
      assert ProcOk(s, d.ins.j);
      assert CpuOk(s, c);
    }
    if d.ins.Do? && d.ins.w.Birth? {
      assert ProcOk(s, d.ins.w.i);
    }
  }

  /** None of the panics of acquire, release, pop_off, sched and exit's end can happen; what is left is exit by a
      process without parent. */
  lemma BasePanic(s: State, c: nat, d: Todo)
    requires Base(s) && Legal(s, c, d)
    ensures Apply(s, c, d.ins, d.next).panic ==>
              d.ins.Panics? && s.cpus[c].on >= 0 && ThreadPc(s, c) == InExit(EReparent, |s.procs|)
              && s.procs[s.cpus[c].on].parent < 0
  {
    hide Holds, Depth, LockInv, DepthInv, HandlerInv, LockSteps, SchedInv;
    LockNoPanic(s, c, d);
    assert CpuOk(s, c);
    if d.ins.Switch? {
      SwitchState(s, c, d);
    } else if d.ins.Panics? && s.cpus[c].on >= 0 {
      assert ProcOk(s, s.cpus[c].on);
    }
  }

  // ----- The thread on CPU c after the instruction

  lemma WriteCpus(s: State, c: nat, w: Write)
    requires c < |s.cpus| && WriteOk(|s.procs|, |s.ready|, w)
    ensures var t := DoWrite(s, c, w);
            |t.cpus| == |s.cpus| && |t.procs| == |s.procs| && t.cpus[c].on == s.cpus[c].on && t.held == s.held
            && t.cpus[c].noff == s.cpus[c].noff && (!w.Interrupts? ==> t.cpus[c].sie == s.cpus[c].sie)
  {
  }

  lemma PcSet(s: State, c: nat, pc: Pc)
    requires c < |s.cpus| && s.cpus[c].on < |s.procs|
    ensures var t := SetPc(s, c, pc);
            |t.cpus| == |s.cpus| && |t.procs| == |s.procs| && t.cpus[c].on == s.cpus[c].on && ThreadPc(t, c) == pc
            && t.held == s.held && t.cpus[c].noff == s.cpus[c].noff && t.cpus[c].sie == s.cpus[c].sie
  {
  }

  lemma AfterWrite(s: State, c: nat, w: Write, pc: Pc)
    requires c < |s.cpus| && s.cpus[c].on < |s.procs| && WriteOk(|s.procs|, |s.ready|, w)
    ensures var t := SetPc(DoWrite(s, c, w), c, pc);
            |t.cpus| == |s.cpus| && |t.procs| == |s.procs| && t.cpus[c].on == s.cpus[c].on && ThreadPc(t, c) == pc
            && t.held == s.held && t.cpus[c].noff == s.cpus[c].noff
            && (!w.Interrupts? ==> t.cpus[c].sie == s.cpus[c].sie)
  {
    hide DoWrite, SetPc, WriteOk, ThreadPc;
    WriteCpus(s, c, w);
    PcSet(DoWrite(s, c, w), c, pc);
  }

  lemma AfterAcquire(s: State, c: nat, l: Lock, pc: Pc)
    requires c < |s.cpus| && s.cpus[c].on < |s.procs| && l !in s.held
    ensures var t := SetPc(DoAcquire(s, c, l), c, pc);
            |t.cpus| == |s.cpus| && |t.procs| == |s.procs| && t.cpus[c].on == s.cpus[c].on && ThreadPc(t, c) == pc
            && t.held == s.held[l := c] && t.cpus[c].noff == s.cpus[c].noff + 1 && !t.cpus[c].sie
  {
  }

  lemma AfterRelease(s: State, c: nat, l: Lock, pc: Pc)
    requires c < |s.cpus| && s.cpus[c].on < |s.procs| && l in s.held && s.held[l] == c && !s.cpus[c].sie && s.cpus[c].noff >= 1
    ensures var t := SetPc(DoRelease(s, c, l), c, pc);
            |t.cpus| == |s.cpus| && |t.procs| == |s.procs| && t.cpus[c].on == s.cpus[c].on && ThreadPc(t, c) == pc
            && t.held == s.held - {l} && t.cpus[c].noff == s.cpus[c].noff - 1
            && (t.cpus[c].noff > 0 ==> !t.cpus[c].sie)
  {
  }

  /** The thread that CPU c runs after the instruction, and the locks then held. */
  ghost predicate Onward(s: State, c: nat, d: Todo, t: State)
    requires Shape(s) && c < |s.cpus|
  {
    && |t.cpus| == |s.cpus| && |t.procs| == |s.procs|
    && match d.ins
       case Switch => s.cpus[c].on >= 0 && t.cpus[c].on == -1 && t.cpus[c].pc == InSched(PBack, s.cpus[c].on) && t.held == s.held
                      && t.cpus[c].noff == s.cpus[c].noff && t.cpus[c].sie == s.cpus[c].sie
       case Resume(j) => j < |s.procs| && t.cpus[c].on == j && ThreadPc(t, c) == s.procs[j].pc && t.held == s.held
                         && t.cpus[c].noff == s.cpus[c].noff && t.cpus[c].sie == s.cpus[c].sie
       case Acquire(l) => t.cpus[c].on == s.cpus[c].on && ThreadPc(t, c) == d.next && t.held == s.held[l := c]
                          && t.cpus[c].noff == s.cpus[c].noff + 1 && !t.cpus[c].sie
       case Release(l) => t.cpus[c].on == s.cpus[c].on && ThreadPc(t, c) == d.next && t.held == s.held - {l}
                          && t.cpus[c].noff == s.cpus[c].noff - 1 && (t.cpus[c].noff > 0 ==> !t.cpus[c].sie)
       case _ => t.cpus[c].on == s.cpus[c].on && ThreadPc(t, c) == d.next && t.held == s.held
                 && t.cpus[c].noff == s.cpus[c].noff
                 && (!(d.ins.Do? && d.ins.w.Interrupts?) ==> t.cpus[c].sie == s.cpus[c].sie)
  }

  lemma GoesOn(s: State, c: nat, d: Todo)
    requires Base(s) && Legal(s, c, d) && !Apply(s, c, d.ins, d.next).panic
    ensures Onward(s, c, d, Apply(s, c, d.ins, d.next))
  {
    hide Holds, Depth, LockInv, DepthInv, HandlerInv, LockSteps, PcOk, SchedInv, Guard, StatusInv, OnInv;
    LockNoPanic(s, c, d);
    match d.ins
    case Do(w) => AfterWrite(s, c, w, d.next);
    case Acquire(l) => AfterAcquire(s, c, l, d.next);
    case Release(l) => AfterRelease(s, c, l, d.next);
    case Switch => SwitchState(s, c, d);
    case _ =>
  }

  // ----- Locks and noff

  /** The facts about one instruction that the invariants below start from. */
  lemma StepFacts(s: State, c: nat, d: Todo)
    requires Base(s) && Legal(s, c, d) && !Apply(s, c, d.ins, d.next).panic
    ensures Onward(s, c, d, Apply(s, c, d.ins, d.next)) && SameElsewhere(s, Apply(s, c, d.ins, d.next), c)
    ensures !d.ins.Panics?
  {
    hide Holds, Depth, LockInv, DepthInv, HandlerInv, LockSteps, PcOk, SchedInv, Guard, StatusInv, OnInv;
    BirthAndResume(s, c, d);
    GoesOn(s, c, d);
    Elsewhere(s, c, d);
  }

  lemma SavedLocks(j: nat, pc: Pc, l: Lock)
    requires Saved(pc)
    ensures (Holds(j, pc, l) <==> l == S(j)) && Depth(pc) == 1
  {
  }

  lemma LockAt(s: State, c: nat, d: Todo, e: nat, l: Lock)
    requires Base(s) && Legal(s, c, d) && !Apply(s, c, d.ins, d.next).panic && e < |s.cpus| && Shape(Apply(s, c, d.ins, d.next))
    ensures var t := Apply(s, c, d.ins, d.next);
            |t.cpus| == |s.cpus| && (Holds(t.cpus[e].on, ThreadPc(t, e), l) <==> l in t.held && t.held[l] == e)
  {
    hide Holds, Depth, DepthInv, HandlerInv, PcOk, SchedInv, Guard, StatusInv, OnInv, Apply, Saved;
    StepFacts(s, c, d);
    LockNoPanic(s, c, d);
    assert LockStep(s.cpus[c].on, ThreadPc(s, c), d, l);
    assert Holds(s.cpus[e].on, ThreadPc(s, e), l) <==> l in s.held && s.held[l] == e;
    match d.ins
    case Acquire(m) => assert LockStep(s.cpus[c].on, ThreadPc(s, c), d, m);
    case Release(m) => assert LockStep(s.cpus[c].on, ThreadPc(s, c), d, m);
    case Resume(j) =>
      BirthAndResume(s, c, d);
      SavedLocks(j, s.procs[j].pc, l);
    case Switch => BackLocks(s.cpus[c].on, l);
    case _ =>
  }

  lemma BackLocks(j: nat, l: Lock)
    ensures (Holds(-1, InSched(PBack, j), l) <==> l == S(j)) && Depth(InSched(PBack, j)) == 1
  {
  }

  lemma LockKept(s: State, c: nat, d: Todo)
    requires Base(s) && Legal(s, c, d) && !Apply(s, c, d.ins, d.next).panic && Shape(Apply(s, c, d.ins, d.next))
    ensures LockInv(Apply(s, c, d.ins, d.next))
  {
    hide Holds, Depth, DepthInv, HandlerInv, LockSteps, PcOk, SchedInv, Guard, StatusInv, OnInv, Apply, SameElsewhere;
    StepFacts(s, c, d);
    var t := Apply(s, c, d.ins, d.next);
    forall e: nat, l | e < |t.cpus|
      ensures Holds(t.cpus[e].on, ThreadPc(t, e), l) <==> l in t.held && t.held[l] == e
    {
      LockAt(s, c, d, e, l);
    }
  }

  lemma DepthKept(s: State, c: nat, d: Todo)
    requires Base(s) && Legal(s, c, d) && !Apply(s, c, d.ins, d.next).panic && Shape(Apply(s, c, d.ins, d.next))
    ensures DepthInv(Apply(s, c, d.ins, d.next))
  {
    hide Holds, Depth, LockInv, PcOk, SchedInv, StatusInv, OnInv, Apply, Saved;
    StepFacts(s, c, d);
    assert LockStep(s.cpus[c].on, ThreadPc(s, c), d, W);
    match d.ins
    case Resume(j) =>
      BirthAndResume(s, c, d);
      SavedLocks(j, s.procs[j].pc, W);
    case Switch => BackLocks(s.cpus[c].on, W);
    case Do(w) =>
      if w.Interrupts? {
        FreeDepth(ViewOf(s, c), ThreadPc(s, c), d);
      }
    case _ =>
  }

  /** Interrupts are switched on and off only where no lock is held. */
  lemma FreeDepth(u: View, pc: Pc, d: Todo)
    requires Guard(u, pc, d) && d.ins.Do? && d.ins.w.Interrupts?
    ensures Depth(d.next) == 0
  {
  }
}
