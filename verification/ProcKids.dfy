/** wait's havekids and fork's child: what every instruction keeps. */
module ProcKids {
  import opened ProcState
  import opened ProcModel
  import opened ProcText
  import opened ProcInv
  import opened ProcLock
  import opened ProcFields
  import opened ProcStatus
  import opened ProcFamily
  import opened ProcWakeup

  // ----- The children of another process

  /** Nobody but the parent takes a child away. */
  lemma ChildStays(s: State, c: nat, d: Todo, t: State, q: nat, i: nat)
    requires LifeInv(s) && ChildInv(s) && Legal(s, c, d) && Becomes(s, c, d, t) && Shape(t) && !d.ins.Panics?
    requires q < |s.procs| && i < |s.procs| && s.cpus[c].on != q && s.procs[i].parent == q
    ensures t.procs[i].parent == q
  {
    hide Depth, DepthInv, HandlerInv, LockSteps, LockInv, OnInv, SchedInv, StatusInv, PcOk, Guard, Holds, SameElsewhere,
      Fits, CpuAfter, Onward, StAfter, ChanAfter, ParentAfter, ParentInv, Forking;
    var me, pc := s.cpus[c].on, ThreadPc(s, c);
    assert t.procs[i] == Proc1(s, c, d, i);
    Inherits(ViewOf(s, c), pc, d, i, s.procs[i]);
    ForkParents(s, c);
    AdoptNone(s, c, i);
    if me >= 0 {
      assert ChildOk(s, me, i);
      ReapTests(ViewOf(s, c), pc, d, i, s.procs[i]);
    }
  }

  /** fork writes a parent where there is none. */
  lemma AdoptNone(s: State, c: nat, i: nat)
    requires LifeInv(s) && c < |s.cpus| && i < |s.procs|
    ensures s.cpus[c].on >= 0 && ThreadPc(s, c) == InFork(FParent, i) ==> s.procs[i].parent == -1
  {
    hide Depth, DepthInv, HandlerInv, LockInv, SchedInv, PcOk, StatusInv, ParentInv;
    if s.cpus[c].on >= 0 {
      assert ForkOk(s, s.cpus[c].on);
    }
  }

  /** wait frees the slot it has tested. */
  lemma ReapTests(u: View, pc: Pc, d: Todo, i: nat, p: Proc)
    requires Guard(u, pc, d)
    ensures pc.InWait? && ParentAfter(p, d.ins, i) != p.parent ==> Tests(pc, i)
  {
  }

  lemma ParentsLocked(s: State, c: nat, d: Todo, t: State, i: nat)
    requires LifeInv(s) && Legal(s, c, d) && Becomes(s, c, d, t) && Shape(t) && !d.ins.Panics? && i < |s.procs|
    ensures t.procs[i].parent != s.procs[i].parent ==> Holds(s.cpus[c].on, ThreadPc(s, c), W)
  {
    hide Depth, DepthInv, HandlerInv, LockSteps, LockInv, OnInv, SchedInv, StatusInv, PcOk, Guard, Holds, SameElsewhere,
      Fits, CpuAfter, Onward, StAfter, ChanAfter, ParentAfter, ParentInv, Forking;
    assert t.procs[i] == Proc1(s, c, d, i);
    Inherits(ViewOf(s, c), ThreadPc(s, c), d, i, s.procs[i]);
    ForkParents(s, c);
    WaitHolds(s.cpus[c].on, ThreadPc(s, c));
  }

  // ----- havekids

  lemma ScanningHolds(me: nat, pc: Pc)
    ensures Scanning(pc) ==> Holds(me, pc, W) && !Saved(pc) && !IsDead(pc)
  {
  }

  lemma KidTheirs(s: State, c: nat, d: Todo, t: State, q: nat)
    requires LifeInv(s) && ChildInv(s) && KidInv(s) && Legal(s, c, d) && Becomes(s, c, d, t) && Shape(t) && !d.ins.Panics?
    requires q < |s.procs| && s.cpus[c].on != q
    ensures KidOk(t, q)
  {
    hide Depth, DepthInv, HandlerInv, LockSteps, LockInv, OnInv, SchedInv, PcOk, Guard, Holds, SameElsewhere, Fits,
      CpuAfter, Onward, StAfter, ChanAfter, ParentAfter, ParentInv, ForkInv, ChildInv, Scanning, ScanEnd, Proc1;
    assert KidOk(s, q);
    KidPc(s, c, d, t, q);
    if Scanning(t.procs[q].pc) {
      var m := ScanEnd(t.procs[q].pc);
      forall i: nat | i < |s.procs|
        ensures t.procs[i].parent == s.procs[i].parent
      {
        ParentsLocked(s, c, d, t, i);
        if Holds(s.cpus[c].on, ThreadPc(s, c), W) {
          WaitLockApart(s, c, q);
        }
      }
      SameChildren(s, t, q, m);
    }
    if Dozes(t.procs[q].pc) {
      forall i: nat | i < |s.procs| && s.procs[i].parent == q
        ensures t.procs[i].parent == q
      {
        ChildStays(s, c, d, t, q, i);
      }
      MoreChildren(s, t, q, |s.procs|);
    }
  }

  lemma SameChildren(s: State, t: State, q: nat, m: nat)
    requires |t.procs| == |s.procs| && forall i: nat | i < |s.procs| :: t.procs[i].parent == s.procs[i].parent
    ensures HasChild(t, q, m) <==> HasChild(s, q, m)
  {
    if HasChild(s, q, m) {
      var i: nat :| i < m && i < |s.procs| && s.procs[i].parent == q;
      assert t.procs[i].parent == q;
    }
  }

  lemma MoreChildren(s: State, t: State, q: nat, m: nat)
    requires |t.procs| == |s.procs| && forall i: nat | i < |s.procs| && s.procs[i].parent == q :: t.procs[i].parent == q
    requires HasChild(s, q, m)
    ensures HasChild(t, q, m)
  {
    var i: nat :| i < m && i < |s.procs| && s.procs[i].parent == q;
    assert t.procs[i].parent == q;
  }

  /** Another process in its scan is where it was, on a CPU and with wait_lock. */
  lemma KidPc(s: State, c: nat, d: Todo, t: State, q: nat)
    requires LifeInv(s) && Legal(s, c, d) && Becomes(s, c, d, t) && Shape(t) && !d.ins.Panics?
    requires q < |s.procs| && s.cpus[c].on != q
    ensures Scanning(t.procs[q].pc) || Dozes(t.procs[q].pc) ==> t.procs[q].pc == s.procs[q].pc
    ensures Scanning(t.procs[q].pc) ==> s.procs[q].at >= 0 && Holds(q, s.procs[q].pc, W)
  {
    hide Depth, DepthInv, HandlerInv, LockSteps, LockInv, OnInv, SchedInv, PcOk, Guard, Holds, SameElsewhere, Fits,
      CpuAfter, Onward, StAfter, ChanAfter, ParentAfter, ParentInv, ForkInv;
    assert t.procs[q] == Proc1(s, c, d, q) && ProcOk(s, q);
    ScanningHolds(q, s.procs[q].pc);
  }

  /** How havekids comes about. */
  predicate KidStep(u: View, pc: Pc, d: Todo)
  {
    && (Scanning(d.next) ==>
          && !d.ins.Do?
          && (|| d.next == InWait(TNext, 0, false)
              || (Scanning(pc) && Top(d.next).kids == Top(pc).kids && ScanEnd(d.next) == ScanEnd(pc))
              || (pc.InWait? && pc.t.TNext? && pc.j < u.n && u.theirs == u.me && d.next == InWait(TTest, pc.j, true))
              || (pc.InWait? && pc.t.TNext? && pc.j < u.n && u.theirs != u.me && d.next == InWait(TNext, pc.j + 1, pc.kids))))
    && (Dozes(d.next) ==>
          && !(d.ins.Do? && (d.ins.w.Parent? || d.ins.w.Reap? || d.ins.w.Unborn?))
          && (Dozes(pc) || pc == InWait(TNext, u.n, true)))
  }

  lemma KidMoves(u: View, pc: Pc, d: Todo, ko: nat)
    requires Guard(u, pc, d) && !d.ins.Panics? && !d.ins.Resume? && u.me >= 0 && PcOk(u.n, ko, u.me, pc)
    ensures KidStep(u, pc, d)
  {
    hide KidStep, Guard, PcOk;
    match pc
    case InWait(_, _, _) => KidWait(u, pc, d, ko);
    case InSleep(_, _, _) => KidSleep(u, pc, d);
    case InWake(_, _, _, _) => KidWake(u, pc, d);
    case InLeaf(_, _) => KidLeaf(u, pc, d);
    case InFork(_, _) => KidFork(u, pc, d);
    case _ => KidOther(u, pc, d);
  }

  lemma KidWait(u: View, pc: Pc, d: Todo, ko: nat)
    requires Guard(u, pc, d) && !d.ins.Panics? && !d.ins.Resume? && u.me >= 0 && pc.InWait? && PcOk(u.n, ko, u.me, pc)
    ensures KidStep(u, pc, d)
  {
  }

  lemma KidSleep(u: View, pc: Pc, d: Todo)
    requires Guard(u, pc, d) && !d.ins.Panics? && !d.ins.Resume? && u.me >= 0 && pc.InSleep?
    ensures KidStep(u, pc, d)
  {
  }

  lemma KidWake(u: View, pc: Pc, d: Todo)
    requires Guard(u, pc, d) && !d.ins.Panics? && !d.ins.Resume? && u.me >= 0 && pc.InWake?
    ensures KidStep(u, pc, d)
  {
  }

  lemma KidLeaf(u: View, pc: Pc, d: Todo)
    requires Guard(u, pc, d) && !d.ins.Panics? && !d.ins.Resume? && u.me >= 0 && pc.InLeaf?
    ensures KidStep(u, pc, d)
  {
  }

  lemma KidFork(u: View, pc: Pc, d: Todo)
    requires Guard(u, pc, d) && !d.ins.Panics? && !d.ins.Resume? && u.me >= 0 && pc.InFork?
    ensures KidStep(u, pc, d)
  {
  }

  lemma KidOther(u: View, pc: Pc, d: Todo)
    requires Guard(u, pc, d) && !d.ins.Panics? && !d.ins.Resume? && u.me >= 0
    requires !pc.InWait? && !pc.InSleep? && !pc.InWake? && !pc.InLeaf? && !pc.InFork?
    ensures KidStep(u, pc, d)
  {
  }

  lemma KidMine(s: State, c: nat, d: Todo, t: State)
    requires LifeInv(s) && KidInv(s) && Legal(s, c, d) && Becomes(s, c, d, t) && Shape(t) && !d.ins.Panics?
    requires s.cpus[c].on >= 0
    ensures KidOk(t, s.cpus[c].on)
  {
    hide Depth, DepthInv, HandlerInv, LockSteps, LockInv, OnInv, SchedInv, StatusInv, PcOk, Guard, Holds, SameElsewhere,
      Fits, CpuAfter, Onward, StAfter, ChanAfter, ParentInv, ForkInv, Scanning, ScanEnd, Dozes, Top, HasChild;
    var me, pc := s.cpus[c].on, ThreadPc(s, c);
    assert t.procs[me] == Proc1(s, c, d, me) && KidOk(s, me);
    ResumeSched(ViewOf(s, c), pc, d);
    ProcNotSched(|s.procs|, |s.ready|, me, pc);
    KidMoves(ViewOf(s, c), pc, d, |s.ready|);
    if Scanning(d.next) || Dozes(d.next) {
      forall i: nat | i < |s.procs|
        ensures t.procs[i].parent == s.procs[i].parent
      {
        assert t.procs[i] == Proc1(s, c, d, i);
      }
      KidScan(s, t, me, pc, d.next);
    }
  }

  /** One more slot. */
  lemma KidScan(s: State, t: State, me: nat, pc: Pc, next: Pc)
    requires |t.procs| == |s.procs| && me < |s.procs| && s.procs[me].pc == pc && t.procs[me].pc == next && KidOk(s, me)
    requires forall i: nat | i < |s.procs| :: t.procs[i].parent == s.procs[i].parent
    requires Scanning(next) ==>
               || next == InWait(TNext, 0, false)
               || (Scanning(pc) && Top(next).kids == Top(pc).kids && ScanEnd(next) == ScanEnd(pc))
               || (pc.InWait? && pc.t.TNext? && pc.j < |s.procs| && s.procs[pc.j].parent == me && next == InWait(TTest, pc.j, true))
               || (pc.InWait? && pc.t.TNext? && pc.j < |s.procs| && s.procs[pc.j].parent != me && next == InWait(TNext, pc.j + 1, pc.kids))
    requires Dozes(next) ==> Dozes(pc) || pc == InWait(TNext, |s.procs|, true)
    ensures KidOk(t, me)
  {
    hide HasChild;
    if Scanning(next) {
      SameChildren(s, t, me, ScanEnd(next));
      if pc.InWait? && pc.t.TNext? {
        OneMore(s, me, pc.j);
      }
      NoneYet(s, me);
    }
    SameChildren(s, t, me, |s.procs|);
  }

  lemma OneMore(s: State, q: nat, j: nat)
    ensures j < |s.procs| ==> (HasChild(s, q, j + 1) <==> HasChild(s, q, j) || s.procs[j].parent == q)
  {
    if j < |s.procs| && HasChild(s, q, j) {
      var i: nat :| i < j && i < |s.procs| && s.procs[i].parent == q;
      assert i < j + 1;
    }
  }

  lemma NoneYet(s: State, q: nat)
    ensures !HasChild(s, q, 0)
  {
  }

  lemma KidKept(s: State, c: nat, d: Todo, t: State)
    requires LifeInv(s) && ChildInv(s) && KidInv(s) && Legal(s, c, d) && Becomes(s, c, d, t) && Shape(t) && !d.ins.Panics?
    ensures KidInv(t)
  {
    hide KidOk, Depth, DepthInv, HandlerInv, LockSteps, LockInv, OnInv, SchedInv, PcOk, Guard, Holds, SameElsewhere, Fits,
      CpuAfter, StAfter, ChanAfter, StatusInv, ForkInv, ParentInv, ChildInv, Proc1, Onward;
    forall q: nat | q < |t.procs|
      ensures KidOk(t, q)
    {
      if q == s.cpus[c].on {
        KidMine(s, c, d, t);
      } else {
        KidTheirs(s, c, d, t, q);
      }
    }
  }

  // ----- fork's child

  /** The slot that the end of fork holds the lock of. */
  predicate Bears(pc: Pc, j: nat) { pc == InFork(FRel, j) }

  lemma BearMoves(u: View, pc: Pc, d: Todo, j: nat)
    requires Guard(u, pc, d) && !d.ins.Panics? && !d.ins.Resume? && u.me >= 0 && Bears(d.next, j)
    ensures pc == InFork(FReady, j) && d.ins == Do(Status(j, RUNNABLE))
  {
  }

  lemma BornMine(s: State, c: nat, d: Todo, t: State)
    requires LifeInv(s) && Legal(s, c, d) && Becomes(s, c, d, t) && Shape(t) && !d.ins.Panics? && s.cpus[c].on >= 0
    ensures BornOk(t, s.cpus[c].on)
  {
    hide Depth, DepthInv, HandlerInv, LockSteps, LockInv, SchedInv, StatusInv, PcOk, Guard, Holds, SameElsewhere,
      Fits, CpuAfter, Onward, ParentInv;
    var me, pc := s.cpus[c].on, ThreadPc(s, c);
    assert t.procs[me] == Proc1(s, c, d, me) && CpuOk(s, c) && ForkOk(s, me);
    ResumeSched(ViewOf(s, c), pc, d);
    ProcNotSched(|s.procs|, |s.ready|, me, pc);
    if d.next.InFork? && d.next.f.FRel? && d.next.j < |s.procs| {
      BearMoves(ViewOf(s, c), pc, d, d.next.j);
      assert t.procs[d.next.j] == Proc1(s, c, d, d.next.j);
    }
  }

  lemma BearHolds(me: nat, pc: Pc, j: nat)
    requires Bears(pc, j)
    ensures Holds(me, pc, S(j)) && !Saved(pc) && !IsDead(pc)
  {
  }

  lemma ResumeHolds(u: View, pc: Pc, d: Todo)
    requires Guard(u, pc, d) && d.ins.Resume?
    ensures Holds(u.me, pc, S(d.ins.j))
  {
  }

  lemma BornTheirs(s: State, c: nat, d: Todo, t: State, i: nat)
    requires LifeInv(s) && BornInv(s) && Legal(s, c, d) && Becomes(s, c, d, t) && Shape(t) && !d.ins.Panics?
    requires i < |s.procs| && s.cpus[c].on != i
    ensures BornOk(t, i)
  {
    hide Depth, DepthInv, HandlerInv, LockSteps, LockInv, OnInv, SchedInv, PcOk, Guard, Holds, SameElsewhere,
      Fits, CpuAfter, Onward, ParentInv, StAfter, ParentAfter, ChanAfter, MakerAfter, ForkInv;
    var me, pc := s.cpus[c].on, ThreadPc(s, c);
    assert t.procs[i] == Proc1(s, c, d, i) && BornOk(s, i) && ProcOk(s, i);
    if t.procs[i].pc.InFork? && t.procs[i].pc.f.FRel? && t.procs[i].pc.j < |s.procs| {
      var j := t.procs[i].pc.j;
      BearHolds(i, s.procs[i].pc, j);
      BornSlot(s, c, d, i, j);
      assert t.procs[j] == Proc1(s, c, d, j);
    }
  }

  /** Nobody else changes the slot while its lock is held. */
  lemma BornSlot(s: State, c: nat, d: Todo, i: nat, j: nat)
    requires LifeInv(s) && Legal(s, c, d) && !d.ins.Panics? && i < |s.procs| && j < |s.procs| && s.cpus[c].on != i
    requires s.procs[i].at >= 0 && Holds(i, s.procs[i].pc, S(j))
    requires s.procs[j].st == RUNNABLE && s.procs[j].at < 0 && s.procs[j].parent == i
    ensures var p, q := s.procs[j], Proc1(s, c, d, j);
            q.st == p.st && q.at < 0 && q.parent == i && q.maker == p.maker
  {
    hide Depth, DepthInv, HandlerInv, LockSteps, LockInv, SchedInv, PcOk, Guard, Holds, Fits, StatusInv, StAfter,
      ChanAfter, PcAfter, ParentAfter, MakerAfter, ParentInv;
    var me, pc := s.cpus[c].on, ThreadPc(s, c);
    ForkSees(s, c);
    NotMine(s, c, j);
    Handles(ViewOf(s, c), pc, d, j, s.procs[j]);
    Inherits(ViewOf(s, c), pc, d, j, s.procs[j]);
    if d.ins.Resume? {
      ResumeHolds(ViewOf(s, c), pc, d);
    }
    if Holds(me, pc, S(j)) {
      OneHolder(s, c, s.procs[i].at, S(j));
    }
    if me >= 0 {
      assert ForkOk(s, me);
    }
  }

  lemma BornKept(s: State, c: nat, d: Todo, t: State)
    requires LifeInv(s) && BornInv(s) && Legal(s, c, d) && Becomes(s, c, d, t) && Shape(t) && !d.ins.Panics?
    ensures BornInv(t)
  {
    hide BornOk, Depth, DepthInv, HandlerInv, LockSteps, LockInv, OnInv, SchedInv, PcOk, Guard, Holds, SameElsewhere, Fits,
      CpuAfter, StAfter, ChanAfter, StatusInv, ForkInv, ParentInv, Proc1, Onward;
    forall i: nat | i < |t.procs|
      ensures BornOk(t, i)
    {
      if i == s.cpus[c].on {
        BornMine(s, c, d, t);
      } else {
        BornTheirs(s, c, d, t, i);
      }
    }
  }
}
