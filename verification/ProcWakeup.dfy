/** Sleep and wakeup: no wakeup is lost, whatever the interleaving. */
module ProcWakeup {
  import opened ProcState
  import opened ProcModel
  import opened ProcText
  import opened ProcInv
  import opened ProcLock
  import opened ProcFields
  import opened ProcStatus
  import opened ProcFamily

  // ----- A waker on its way

  /** The waker's next instruction either keeps slot i before it or is the test of slot i; no interrupt comes between. */
  lemma ReachMoves(u: View, pc: Pc, d: Todo, ch: Chan, i: nat)
    requires Guard(u, pc, d) && Nears(pc, ch, i) && !d.ins.Panics? && i < u.n
    requires i != u.cur
    ensures Nears(d.next, ch, i) || (pc.j == i && pc.w.KTest? && d.next == InWake(KRel, ch, i, pc.ret))
    ensures Nears(d.next, ch, i) ==> d.next.ret == pc.ret
    ensures !d.ins.Switch? && !d.ins.Resume?
  {
  }

  /** The test: a sleeper on this channel is made runnable. */
  lemma TestWakes(u: View, pc: Pc, d: Todo, ch: Chan, i: nat, p: Proc)
    requires Guard(u, pc, d) && pc.InWake? && pc.w.KTest? && pc.ch == ch && pc.j == i && u.st == p.st && u.chan == p.chan
    requires p.st == SLEEPING && p.chan == ch
    ensures StAfter(p, d.ins, i) == RUNNABLE
  {
  }

  /** A process that is asleep off its CPU sleeps on its channel; one that is going to sleep holds its lock. */
  lemma AsleepHow(s: State, i: nat, ch: Chan)
    requires Base(s) && i < |s.procs| && Asleep(s.procs[i], ch)
    ensures s.procs[i].at >= 0 ==> Holds(i, s.procs[i].pc, S(i))
    ensures s.procs[i].at < 0 ==> s.procs[i].st == SLEEPING && s.procs[i].chan == ch && s.procs[i].pc.z.ZBack?
  {
    hide Depth, DepthInv, HandlerInv, LockInv, OnInv, SchedInv, PcOk;
    assert ProcOk(s, i) && ChanAt(s.procs[i].pc, s.procs[i].chan);
  }

  /** After the waker's test of slot i, process i is not asleep on the channel. */
  lemma TestedAwake(s: State, c: nat, d: Todo, t: State, ch: Chan, i: nat)
    requires LifeInv(s) && Legal(s, c, d) && Becomes(s, c, d, t) && Shape(t) && !d.ins.Panics? && i < |s.procs|
    requires ThreadPc(s, c).InWake? && ThreadPc(s, c).ch == ch && ThreadPc(s, c).w.KTest? && ThreadPc(s, c).j == i
    requires s.cpus[c].on != i
    ensures !Asleep(t.procs[i], ch)
  {
    hide Depth, DepthInv, HandlerInv, LockSteps, LockInv, OnInv, SchedInv, PcOk, Guard, Holds, SameElsewhere, Fits,
      Onward, CpuAfter, StAfter, ChanAfter, StatusInv, ForkInv, ParentInv;
    var p, pc := s.procs[i], ThreadPc(s, c);
    assert t.procs[i] == Proc1(s, c, d, i);
    WakePc(ViewOf(s, c), pc, d, i);
    if Asleep(p, ch) {
      TestExcludes(s, c, i, ch);
      AsleepHow(s, i, ch);
      TestWakes(ViewOf(s, c), pc, d, ch, i, p);
    } else {
      Handles(ViewOf(s, c), pc, d, i, p);
    }
  }

  lemma WakePc(u: View, pc: Pc, d: Todo, i: nat)
    requires Guard(u, pc, d) && pc.InWake? && u.me != i
    ensures forall p: Proc :: PcAfter(p, u.me, d, i) == p.pc
    ensures !Forking(pc)
  {
  }

  /** The lock of slot i keeps a waker's test apart from a process on its way to sleep. */
  lemma TestExcludes(s: State, c: nat, i: nat, ch: Chan)
    requires Base(s) && c < |s.cpus| && i < |s.procs| && s.cpus[c].on != i
    requires ThreadPc(s, c).InWake? && ThreadPc(s, c).w.KTest? && ThreadPc(s, c).j == i
    ensures Asleep(s.procs[i], ch) ==> s.procs[i].at < 0
  {
    hide Depth, DepthInv, HandlerInv, LockInv, SchedInv, PcOk;
    assert ProcOk(s, i);
    assert CpuOk(s, c);
    if Asleep(s.procs[i], ch) && s.procs[i].at >= 0 {
      OneHolder(s, c, s.procs[i].at, S(i));
    }
  }

  /** A thread in wakeup holds the lock of the channel, so that it is the one Coming speaks of. */
  lemma ComesFrom(s: State, c: nat, ch: Chan, i: nat)
    requires Shape(s) && LockInv(s) && c < |s.cpus| && Reaches(ThreadPc(s, c), ch, i)
    ensures Coming(s, LockOf(ch), ch, i)
  {
    hide LockInv;
    WakeHolds(|s.procs|, |s.ready|, s.cpus[c].on, ThreadPc(s, c));
    OneHolder(s, c, c, LockOf(ch));
  }

  lemma WakeHolds(n: nat, ko: nat, me: int, pc: Pc)
    requires PcOk(n, ko, me, pc) && pc.InWake? && !pc.ret.ToIsr?
    ensures Holds(me, pc, LockOf(pc.ch))
  {
  }

  /** A sleeper that a waker was coming to is still asleep and the waker still coming, or it has been woken. */
  lemma StillComing(s: State, c: nat, d: Todo, t: State, ch: Chan, i: nat)
    requires LifeInv(s) && Legal(s, c, d) && Becomes(s, c, d, t) && Shape(t) && LockInv(t) && !d.ins.Panics? && i < |s.procs|
    requires Coming(s, LockOf(ch), ch, i) && Asleep(s.procs[i], ch)
    ensures Asleep(t.procs[i], ch) ==> Coming(t, LockOf(ch), ch, i)
  {
    hide Depth, DepthInv, HandlerInv, LockSteps, LockInv, OnInv, SchedInv, PcOk, Guard, Holds, SameElsewhere, Fits,
      CpuAfter, StAfter, ChanAfter, StatusInv, ForkInv, ParentInv, Proc1;
    var e := s.held[LockOf(ch)];
    if e != c {
      Elsewhere1(s, t, c, e);
      ComesFrom(t, e, ch, i);
    } else {
      NotWaker(s, c, ch, i);
      ReachMoves(ViewOf(s, c), ThreadPc(s, c), d, ch, i);
      if Reaches(d.next, ch, i) {
        ComesFrom(t, c, ch, i);
      } else {
        TestedAwake(s, c, d, t, ch, i);
      }
    }
  }

  /** The waker is not the sleeper. */
  lemma NotWaker(s: State, c: nat, ch: Chan, i: nat)
    requires Base(s) && c < |s.cpus| && i < |s.procs| && Nears(ThreadPc(s, c), ch, i) && Asleep(s.procs[i], ch)
    ensures s.cpus[c].on != i && s.cpus[c].cur != i
  {
    hide Depth, DepthInv, HandlerInv, LockInv, SchedInv, PcOk, StatusInv;
    assert CpuOk(s, c);
  }

  // ----- Going to sleep

  /** How a process comes to sleep: by its own steps, from the check made under the lock. */
  predicate DoomStep(u: View, pc: Pc, next: Pc, ch: Chan)
  {
    || Doomed(pc, ch)
    || (ch.Obj? && pc == InUse(UTest, ch.k) && !u.ready)
    || (pc.InWait? && pc.t.TNext? && pc.j == u.n && ch == Kid(if u.me < 0 then 0 else u.me))
  }

  lemma SleepMoves(u: View, pc: Pc, d: Todo, p: Proc, q: Proc, ch: Chan)
    requires Guard(u, pc, d) && !d.ins.Panics? && u.me >= 0 && !d.ins.Resume? && p.pc == pc && q.pc == d.next && ch != NoChan
    requires p.st == RunState(pc)
    ensures Asleep(q, ch) ==> Asleep(p, ch) || (Doomed(pc, ch) && pc.z.ZDrop?)
    ensures Doomed(d.next, ch) ==> DoomStep(u, pc, d.next, ch)
    ensures Doomed(d.next, ch) || (Asleep(q, ch) && Doomed(pc, ch)) ==> !d.ins.Do?
    ensures Asleep(q, ch) && d.ins.Do? ==> !d.ins.w.Ready? && !d.ins.w.Exited? && !d.ins.w.Parent?
  {
  }

  lemma OthersSleep(s: State, c: nat, d: Todo, t: State, i: nat, ch: Chan)
    requires LifeInv(s) && Legal(s, c, d) && Becomes(s, c, d, t) && Shape(t) && !d.ins.Panics? && i < |s.procs| && s.cpus[c].on != i
    ensures Asleep(t.procs[i], ch) ==> Asleep(s.procs[i], ch)
    ensures Doomed(t.procs[i].pc, ch) ==> t.procs[i].pc == s.procs[i].pc && s.procs[i].at >= 0
  {
    hide Depth, DepthInv, HandlerInv, LockSteps, LockInv, OnInv, SchedInv, PcOk, Guard, Holds, SameElsewhere, Fits,
      CpuAfter, StAfter, ChanAfter, ForkInv, ParentInv, Onward, PcAfter;
    var p := s.procs[i];
    assert t.procs[i] == Proc1(s, c, d, i);
    assert ProcOk(s, i);
    ForkSees(s, c);
    Handles(ViewOf(s, c), ThreadPc(s, c), d, i, p);
  }

  /** The checks of a process that is about to sleep hold the lock that the other side needs. */
  lemma DoomHolds(s: State, i: nat, ch: Chan)
    requires Base(s) && i < |s.procs| && s.procs[i].at >= 0 && Doomed(s.procs[i].pc, ch)
    ensures LockOf(ch) in s.held && s.held[LockOf(ch)] == s.procs[i].at && s.cpus[s.procs[i].at].on == i
  {
    hide Depth, DepthInv, HandlerInv, LockInv, SchedInv, PcOk, StatusInv;
    OneHolder(s, s.procs[i].at, s.procs[i].at, LockOf(ch));
  }

  // ----- Objects

  lemma ObjectKept(s: State, c: nat, d: Todo, t: State)
    requires LifeInv(s) && ObjectInv(s) && Legal(s, c, d) && Becomes(s, c, d, t) && Shape(t) && LockInv(t) && !d.ins.Panics?
    ensures ObjectInv(t)
  {
    hide ObjectOk, Depth, DepthInv, HandlerInv, LockSteps, LockInv, OnInv, SchedInv, PcOk, Guard, Holds,
      SameElsewhere, Fits, CpuAfter, StAfter, ChanAfter, StatusInv, ForkInv, ParentInv, Proc1, Onward;
    forall i: nat, k: nat | i < |t.procs| && k < |t.ready|
      ensures ObjectOk(t, i, k)
    {
      if i == s.cpus[c].on {
        ObjectMine(s, c, d, t, k);
      } else {
        ObjectTheirs(s, c, d, t, i, k);
      }
    }
  }

  lemma ObjectMine(s: State, c: nat, d: Todo, t: State, k: nat)
    requires LifeInv(s) && ObjectInv(s) && Legal(s, c, d) && Becomes(s, c, d, t) && Shape(t) && LockInv(t) && !d.ins.Panics?
    requires s.cpus[c].on >= 0 && k < |s.ready|
    ensures ObjectOk(t, s.cpus[c].on, k)
  {
    hide Depth, DepthInv, HandlerInv, LockSteps, LockInv, SchedInv, PcOk, Guard, Holds, SameElsewhere, Fits, CpuAfter,
      StAfter, ChanAfter, ForkInv, ParentInv, Onward, Asleep, Doomed, Coming;
    var me, pc := s.cpus[c].on, ThreadPc(s, c);
    var p, q := s.procs[me], t.procs[me];
    assert q == Proc1(s, c, d, me) && CpuOk(s, c) && ProcOk(s, me);
    assert ObjectOk(s, me, k);
    ResumeSched(ViewOf(s, c), pc, d);
    ProcNotSched(|s.procs|, |s.ready|, me, pc);
    SleepMoves(ViewOf(s, c), pc, d, p, q, Obj(k));
    if Asleep(q, Obj(k)) && Asleep(p, Obj(k)) && s.ready[k] && k !in s.bare {
      StillComing(s, c, d, t, Obj(k), me);
    }
  }

  lemma ObjectTheirs(s: State, c: nat, d: Todo, t: State, i: nat, k: nat)
    requires LifeInv(s) && ObjectInv(s) && Legal(s, c, d) && Becomes(s, c, d, t) && Shape(t) && LockInv(t) && !d.ins.Panics?
    requires i < |s.procs| && k < |s.ready| && s.cpus[c].on != i
    ensures ObjectOk(t, i, k)
  {
    hide Depth, DepthInv, HandlerInv, LockSteps, LockInv, SchedInv, PcOk, Guard, Holds, SameElsewhere, Fits, CpuAfter,
      StAfter, ChanAfter, StatusInv, ForkInv, ParentInv, Asleep, Doomed, Coming, Proc1, OnInv, Reaches;
    assert ObjectOk(s, i, k);
    OthersSleep(s, c, d, t, i, Obj(k));
    if Asleep(t.procs[i], Obj(k)) && t.ready[k] && k !in s.bare {
      if s.ready[k] {
        StillComing(s, c, d, t, Obj(k), i);
      } else {
        GiveMoves(ViewOf(s, c), ThreadPc(s, c), d, k, i);
        ComesFrom(t, c, Obj(k), i);
      }
    }
    if Doomed(t.procs[i].pc, Obj(k)) && t.ready[k] && k !in s.bare {
      DoomHolds(s, i, Obj(k));
      GiveMoves(ViewOf(s, c), ThreadPc(s, c), d, k, i);
      OneHolder(s, c, c, O(k));
    }
  }

  /** An object becomes ready in the hands of a thread that holds its lock and goes on to wakeup. */
  lemma GiveMoves(u: View, pc: Pc, d: Todo, k: nat, i: nat)
    requires Guard(u, pc, d)
    ensures d.ins.Do? && d.ins.w == Ready(k, true) ==> Nears(d.next, Obj(k), i)
    ensures d.ins.Do? && d.ins.w == Ready(k, true) && k !in u.bare ==> Holds(u.me, pc, O(k)) && Reaches(d.next, Obj(k), i)
  {
  }

  // ----- One CPU

  lemma LoneKept(s: State, c: nat, d: Todo, t: State)
    requires LifeInv(s) && LoneInv(s) && Legal(s, c, d) && Becomes(s, c, d, t) && Shape(t) && !d.ins.Panics?
    ensures LoneInv(t)
  {
    hide LoneOk, Depth, DepthInv, HandlerInv, LockSteps, LockInv, OnInv, SchedInv, PcOk, Guard, Holds, SameElsewhere,
      Fits, CpuAfter, StAfter, ChanAfter, StatusInv, ForkInv, ParentInv, Proc1, Onward;
    forall i: nat, k: nat | i < |t.procs| && k < |t.ready|
      ensures LoneOk(t, i, k)
    {
      if |s.cpus| != 1 {
        LoneNot(t, i, k);
      } else if i == s.cpus[c].on {
        LoneMine(s, c, d, t, k);
      } else {
        LoneTheirs(s, c, d, t, i, k);
      }
    }
  }

  lemma LoneNot(t: State, i: nat, k: nat)
    requires Shape(t) && i < |t.procs| && k < |t.ready| && |t.cpus| != 1
    ensures LoneOk(t, i, k)
  {
  }

  lemma LoneMine(s: State, c: nat, d: Todo, t: State, k: nat)
    requires LifeInv(s) && LoneInv(s) && Legal(s, c, d) && Becomes(s, c, d, t) && Shape(t) && !d.ins.Panics?
    requires |s.cpus| == 1 && s.cpus[c].on >= 0 && k < |s.ready|
    ensures LoneOk(t, s.cpus[c].on, k)
  {
    hide Depth, DepthInv, HandlerInv, LockSteps, LockInv, SchedInv, PcOk, Guard, Holds, SameElsewhere, Fits, CpuAfter,
      StAfter, ChanAfter, ForkInv, ParentInv, Onward, Doomed;
    var me, pc := s.cpus[c].on, ThreadPc(s, c);
    var p, q := s.procs[me], t.procs[me];
    assert q == Proc1(s, c, d, me) && CpuOk(s, c) && ProcOk(s, me);
    assert LoneOk(s, me, k);
    ResumeSched(ViewOf(s, c), pc, d);
    ProcNotSched(|s.procs|, |s.ready|, me, pc);
    SleepMoves(ViewOf(s, c), pc, d, p, q, Obj(k));
  }

  lemma LoneTheirs(s: State, c: nat, d: Todo, t: State, i: nat, k: nat)
    requires LifeInv(s) && LoneInv(s) && Legal(s, c, d) && Becomes(s, c, d, t) && Shape(t) && !d.ins.Panics?
    requires |s.cpus| == 1 && i < |s.procs| && k < |s.ready| && s.cpus[c].on != i
    ensures LoneOk(t, i, k)
  {
    hide Depth, DepthInv, HandlerInv, LockSteps, LockInv, SchedInv, PcOk, Guard, Holds, SameElsewhere, Fits, CpuAfter,
      StAfter, ChanAfter, StatusInv, ForkInv, ParentInv, Asleep, Doomed, Proc1, Nears;
    assert LoneOk(s, i, k);
    OthersSleep(s, c, d, t, i, Obj(k));
    if Asleep(t.procs[i], Obj(k)) && t.ready[k] {
      if s.ready[k] {
        StillNear(s, c, d, t, Obj(k), i);
      } else {
        GiveMoves(ViewOf(s, c), ThreadPc(s, c), d, k, i);
      }
    }
  }

  lemma StillNear(s: State, c: nat, d: Todo, t: State, ch: Chan, i: nat)
    requires LifeInv(s) && Legal(s, c, d) && Becomes(s, c, d, t) && Shape(t) && !d.ins.Panics? && i < |s.procs|
    requires Nears(ThreadPc(s, c), ch, i) && Asleep(s.procs[i], ch)
    ensures Asleep(t.procs[i], ch) ==> Nears(ThreadPc(t, c), ch, i)
  {
    hide Depth, DepthInv, HandlerInv, LockSteps, LockInv, OnInv, SchedInv, PcOk, Guard, Holds, SameElsewhere, Fits,
      CpuAfter, StAfter, ChanAfter, StatusInv, ForkInv, ParentInv, Proc1;
    NotWaker(s, c, ch, i);
    ReachMoves(ViewOf(s, c), ThreadPc(s, c), d, ch, i);
    if !Nears(d.next, ch, i) {
      TestedAwake(s, c, d, t, ch, i);
    }
  }

  // ----- Children

  /** How wait's scan advances. */
  predicate ScanStep(u: View, pc: Pc, d: Todo, j: nat)
  {
    && (j < Scanned(u.n, d.next) ==>
          !d.ins.Do? && (j < Scanned(u.n, pc) || (j == SlotOf(pc) && (u.theirs != u.me || u.st != ZOMBIE))))
    && (Tests(d.next, j) ==> !d.ins.Do? && (Tests(pc, j) || (j == SlotOf(pc) && u.theirs == u.me)))
  }

  lemma ScanMoves(u: View, pc: Pc, d: Todo, j: nat)
    requires Guard(u, pc, d) && !d.ins.Panics? && !d.ins.Resume? && j < u.n
    ensures ScanStep(u, pc, d, j)
  {
    hide ScanStep, Guard;
    match pc
    case InWait(_, _, _) => ScanWait(u, pc, d, j);
    case InLeaf(_, _) => ScanLeaf(u, pc, d, j);
    case InSleep(_, _, _) => ScanSleep(u, pc, d, j);
    case InFork(_, _) => ScanFork(u, pc, d, j);
    case InWake(_, _, _, _) => ScanWake(u, pc, d, j);
    case InExit(_, _) => ScanExit(u, pc, d, j);
    case _ => ScanOther(u, pc, d, j);
  }

  lemma ScanWait(u: View, pc: Pc, d: Todo, j: nat)
    requires Guard(u, pc, d) && !d.ins.Panics? && !d.ins.Resume? && j < u.n && pc.InWait?
    ensures ScanStep(u, pc, d, j)
  {
  }

  lemma ScanLeaf(u: View, pc: Pc, d: Todo, j: nat)
    requires Guard(u, pc, d) && !d.ins.Panics? && !d.ins.Resume? && j < u.n && pc.InLeaf?
    ensures ScanStep(u, pc, d, j)
  {
  }

  lemma ScanSleep(u: View, pc: Pc, d: Todo, j: nat)
    requires Guard(u, pc, d) && !d.ins.Panics? && !d.ins.Resume? && j < u.n && pc.InSleep?
    ensures ScanStep(u, pc, d, j)
  {
  }

  lemma ScanFork(u: View, pc: Pc, d: Todo, j: nat)
    requires Guard(u, pc, d) && !d.ins.Panics? && !d.ins.Resume? && j < u.n && pc.InFork?
    ensures ScanStep(u, pc, d, j)
  {
  }

  lemma ScanWake(u: View, pc: Pc, d: Todo, j: nat)
    requires Guard(u, pc, d) && !d.ins.Panics? && !d.ins.Resume? && j < u.n && pc.InWake?
    ensures ScanStep(u, pc, d, j)
  {
  }

  lemma ScanExit(u: View, pc: Pc, d: Todo, j: nat)
    requires Guard(u, pc, d) && !d.ins.Panics? && !d.ins.Resume? && j < u.n && pc.InExit?
    ensures ScanStep(u, pc, d, j)
  {
  }

  lemma ScanOther(u: View, pc: Pc, d: Todo, j: nat)
    requires Guard(u, pc, d) && !d.ins.Panics? && !d.ins.Resume? && j < u.n
    requires !pc.InWait? && !pc.InLeaf? && !pc.InSleep? && !pc.InFork? && !pc.InWake? && !pc.InExit?
    ensures ScanStep(u, pc, d, j)
  {
  }

  /** How a zombie child comes about: its exit, or the exit of its parent; both under wait_lock. */
  lemma ZombieMoves(u: View, pc: Pc, d: Todo, j: nat, p: Proc, q: int)
    requires Guard(u, pc, d) && !d.ins.Panics? && (SlotOf(pc) == j ==> u.st == p.st)
    requires StAfter(p, d.ins, j) == ZOMBIE && ParentAfter(p, d.ins, j) == q && q >= 0 && (Forking(pc) ==> u.st == USED)
    requires !(p.st == ZOMBIE && p.parent == q)
    ensures Holds(u.me, pc, W) && u.me >= 0
    ensures (u.me == j && pc.InExit? && pc.e.EZombie? && p.parent == q) || (q == u.init && Reaches(d.next, Kid(u.init), u.init))
  {
  }

  lemma ScanHolds(n: nat, me: nat, pc: Pc)
    ensures Scanned(n, pc) > 0 ==> Holds(me, pc, W) && !Saved(pc) && !IsDead(pc)
  {
  }

  /** Two processes cannot both be where wait_lock is held. */
  lemma WaitLockApart(s: State, c: nat, i: nat)
    requires Base(s) && c < |s.cpus| && i < |s.procs| && s.cpus[c].on != i && s.procs[i].at >= 0
    requires Holds(s.cpus[c].on, ThreadPc(s, c), W)
    ensures !Holds(i, s.procs[i].pc, W)
  {
    hide Holds, Depth, DepthInv, HandlerInv, LockInv, SchedInv, PcOk, StatusInv;
    if Holds(i, s.procs[i].pc, W) {
      OneHolder(s, c, s.procs[i].at, W);
    }
  }

  lemma ChildKept(s: State, c: nat, d: Todo, t: State)
    requires LifeInv(s) && ChildInv(s) && LeavingInv(s) && Legal(s, c, d) && Becomes(s, c, d, t) && Shape(t) && LockInv(t)
    requires !d.ins.Panics?
    ensures ChildInv(t)
  {
    hide ChildOk, Depth, DepthInv, HandlerInv, LockSteps, LockInv, OnInv, SchedInv, PcOk, Guard, Holds, SameElsewhere,
      Fits, CpuAfter, StAfter, ChanAfter, StatusInv, ForkInv, ParentInv, Proc1, Onward, LeavingInv;
    forall q: nat, j: nat | q < |t.procs| && j < |t.procs|
      ensures ChildOk(t, q, j)
    {
      if q == s.cpus[c].on {
        ChildMine(s, c, d, t, j);
      } else {
        ChildTheirs(s, c, d, t, q, j);
      }
    }
  }

  lemma ChildMine(s: State, c: nat, d: Todo, t: State, j: nat)
    requires LifeInv(s) && ChildInv(s) && Legal(s, c, d) && Becomes(s, c, d, t) && Shape(t) && LockInv(t) && !d.ins.Panics?
    requires s.cpus[c].on >= 0 && j < |s.procs|
    ensures ChildOk(t, s.cpus[c].on, j)
  {
    hide Depth, DepthInv, HandlerInv, LockSteps, LockInv, SchedInv, PcOk, Guard, Holds, SameElsewhere, Fits, CpuAfter,
      ForkInv, Onward, Asleep, Coming, Scanned;
    var me, pc := s.cpus[c].on, ThreadPc(s, c);
    var p, q := s.procs[me], t.procs[me];
    assert q == Proc1(s, c, d, me) && CpuOk(s, c) && ProcOk(s, me);
    assert t.procs[j] == Proc1(s, c, d, j);
    assert ChildOk(s, me, j);
    ResumeSched(ViewOf(s, c), pc, d);
    ProcNotSched(|s.procs|, |s.ready|, me, pc);
    SleepMoves(ViewOf(s, c), pc, d, p, q, Kid(me));
    ScanMoves(ViewOf(s, c), pc, d, j);
    DoomScanned(|s.procs|, pc, me);
    if Asleep(q, Kid(me)) && Asleep(p, Kid(me)) && ZombieOf(s, me, j) {
      StillComing(s, c, d, t, Kid(me), me);
    }
    if ZombieOf(t, me, j) && !ZombieOf(s, me, j) {
      ForkSees(s, c);
      ZombieMoves(ViewOf(s, c), pc, d, j, s.procs[j], me);
      assert ParentOk(s, me);
      AsleepPc(q, Kid(me));
      WriteParent(s.procs[j], d, j, me);
    }
  }

  lemma AsleepPc(p: Proc, ch: Chan)
    ensures Asleep(p, ch) ==> p.pc.InSleep?
  {
  }

  lemma WriteParent(p: Proc, d: Todo, j: nat, q: nat)
    ensures !d.ins.Do? ==> StAfter(p, d.ins, j) == p.st && ParentAfter(p, d.ins, j) == p.parent
  {
  }

  lemma DoomScanned(n: nat, pc: Pc, q: nat)
    ensures Doomed(pc, Kid(q)) ==> Scanned(n, pc) == n
  {
  }

  lemma ChildTheirs(s: State, c: nat, d: Todo, t: State, q: nat, j: nat)
    requires LifeInv(s) && ChildInv(s) && LeavingInv(s) && Legal(s, c, d) && Becomes(s, c, d, t) && Shape(t) && LockInv(t)
    requires !d.ins.Panics? && q < |s.procs| && j < |s.procs| && s.cpus[c].on != q
    ensures ChildOk(t, q, j)
  {
    hide Depth, DepthInv, HandlerInv, LockSteps, LockInv, SchedInv, PcOk, Guard, Holds, SameElsewhere, Fits, CpuAfter,
      ForkInv, ParentInv, Onward, Asleep, Coming, Scanned, StAfter, ParentAfter, StatusInv, OnInv, PcAfter, Reaches,
      Tests;
    assert ChildOk(s, q, j);
    assert t.procs[j] == Proc1(s, c, d, j);
    OthersSleep(s, c, d, t, q, Kid(q));
    TestStays(s, c, d, t, q, j);
    if ZombieOf(t, q, j) && ZombieOf(s, q, j) {
      if Asleep(t.procs[q], Kid(q)) {
        StillComing(s, c, d, t, Kid(q), q);
      }
      ScanStays(s, c, d, t, q);
    } else if ZombieOf(t, q, j) {
      ForkSees(s, c);
      ZombieMoves(ViewOf(s, c), ThreadPc(s, c), d, j, s.procs[j], q);
      NoScan(s, c, d, t, q);
      if Asleep(t.procs[q], Kid(q)) {
        NewZombie(s, c, d, t, q, j);
      }
    }
  }

  /** The child under another wait's hands stays its child. */
  lemma TestStays(s: State, c: nat, d: Todo, t: State, q: nat, j: nat)
    requires LifeInv(s) && Legal(s, c, d) && Becomes(s, c, d, t) && Shape(t) && !d.ins.Panics?
    requires q < |s.procs| && j < |s.procs| && s.cpus[c].on != q
    ensures Tests(t.procs[q].pc, j) ==>
              Tests(s.procs[q].pc, j) && (s.procs[j].parent == q ==> t.procs[j].parent == q)
  {
    hide Depth, DepthInv, HandlerInv, LockSteps, LockInv, SchedInv, PcOk, Guard, Holds, SameElsewhere, Fits, CpuAfter,
      ParentInv, Onward, StAfter, ParentAfter, OnInv, ChanAfter;
    assert t.procs[q] == Proc1(s, c, d, q) && t.procs[j] == Proc1(s, c, d, j);
    assert ProcOk(s, q);
    TestHolds(q, s.procs[q].pc, j);
    Inherits(ViewOf(s, c), ThreadPc(s, c), d, j, s.procs[j]);
    ForkParents(s, c);
    WaitHolds(s.cpus[c].on, ThreadPc(s, c));
    if s.procs[q].at >= 0 {
      NotTouched(s, c, d, q);
      if Tests(s.procs[q].pc, j) && Holds(s.cpus[c].on, ThreadPc(s, c), W) {
        WaitLockApart(s, c, q);
      }
    }
  }

  lemma TestHolds(me: nat, pc: Pc, j: nat)
    ensures Tests(pc, j) ==> Holds(me, pc, W) && !Saved(pc) && !IsDead(pc)
  {
  }

  lemma WaitHolds(me: int, pc: Pc)
    ensures pc.InWait? || (pc.InExit? && pc.e.EReparent?) || (pc.InFork? && pc.f.FParent?) ==> Holds(me, pc, W)
  {
  }

  /** The slot in fork's hands before the parent is written has none. */
  lemma ForkParents(s: State, c: nat)
    requires LifeInv(s) && c < |s.cpus|
    ensures ThreadPc(s, c).InFork? && ThreadPc(s, c).f.FCopy? && s.cpus[c].on >= 0 && ThreadPc(s, c).j < |s.procs| ==>
              s.procs[ThreadPc(s, c).j].parent == -1
  {
    hide Depth, DepthInv, HandlerInv, LockInv, SchedInv, PcOk, StatusInv, ParentInv;
    assert CpuOk(s, c);
    if s.cpus[c].on >= 0 {
      assert ForkOk(s, s.cpus[c].on);
    }
  }

  /** A scan by another process goes on as it was. */
  lemma ScanStays(s: State, c: nat, d: Todo, t: State, q: nat)
    requires LifeInv(s) && Legal(s, c, d) && Becomes(s, c, d, t) && Shape(t) && !d.ins.Panics? && q < |s.procs| && s.cpus[c].on != q
    ensures Scanned(|s.procs|, t.procs[q].pc) > 0 ==> t.procs[q].pc == s.procs[q].pc && s.procs[q].at >= 0
  {
    hide Depth, DepthInv, HandlerInv, LockSteps, LockInv, SchedInv, PcOk, Guard, Holds, SameElsewhere, Fits, CpuAfter,
      ForkInv, ParentInv, Onward, StAfter, ParentAfter, OnInv;
    assert t.procs[q] == Proc1(s, c, d, q);
    assert ProcOk(s, q);
    ScanHolds(|s.procs|, q, s.procs[q].pc);
    if s.procs[q].at >= 0 {
      NotTouched(s, c, d, q);
    }
  }

  /** While this thread holds wait_lock, no other process is scanning. */
  lemma NoScan(s: State, c: nat, d: Todo, t: State, q: nat)
    requires LifeInv(s) && Legal(s, c, d) && Becomes(s, c, d, t) && Shape(t) && !d.ins.Panics? && q < |s.procs| && s.cpus[c].on != q
    requires Holds(s.cpus[c].on, ThreadPc(s, c), W)
    ensures Scanned(|s.procs|, t.procs[q].pc) == 0
  {
    hide Depth, DepthInv, HandlerInv, LockSteps, LockInv, SchedInv, PcOk, Guard, Holds, SameElsewhere, Fits, CpuAfter,
      ForkInv, ParentInv, Onward, StAfter, ParentAfter, OnInv, StatusInv, Scanned;
    ScanStays(s, c, d, t, q);
    ScanHolds(|s.procs|, q, s.procs[q].pc);
    if s.procs[q].at >= 0 {
      WaitLockApart(s, c, q);
    }
  }

  /** A child becomes a zombie only when its parent is awake; a zombie is given to init just before init is woken. */
  lemma NewZombie(s: State, c: nat, d: Todo, t: State, q: nat, j: nat)
    requires LifeInv(s) && LeavingInv(s) && Legal(s, c, d) && Becomes(s, c, d, t) && Shape(t) && LockInv(t) && !d.ins.Panics?
    requires q < |s.procs| && j < |s.procs| && s.cpus[c].on != q && ZombieOf(t, q, j) && !ZombieOf(s, q, j)
    requires Asleep(s.procs[q], Kid(q))
    ensures Coming(t, W, Kid(q), q)
  {
    hide Depth, DepthInv, HandlerInv, LockSteps, LockInv, SchedInv, PcOk, Guard, Holds, SameElsewhere, Fits, CpuAfter,
      ForkInv, ParentInv, Asleep, Coming, Scanned, StAfter, ParentAfter, StatusInv, OnInv, PcAfter, Reaches;
    assert t.procs[j] == Proc1(s, c, d, j);
    ForkSees(s, c);
    ZombieMoves(ViewOf(s, c), ThreadPc(s, c), d, j, s.procs[j], q);
    assert LeavingOk(s, j);
    if q == s.init && Reaches(d.next, Kid(s.init), s.init) {
      ReachNext(ViewOf(s, c), ThreadPc(s, c), d, Kid(q), q);
      ComesFrom(t, c, Kid(q), q);
    }
  }

  lemma ReachNext(u: View, pc: Pc, d: Todo, ch: Chan, i: nat)
    requires Guard(u, pc, d) && Reaches(d.next, ch, i) && !d.ins.Panics?
    ensures !d.ins.Switch? && !d.ins.Resume?
  {
  }

  // ----- Exit

  lemma PassMoves(u: View, pc: Pc, d: Todo, q: nat)
    requires Guard(u, pc, d) && !d.ins.Panics? && q < u.n && u.me >= 0
    ensures Passed(d.next, q) ==>
              || Passed(pc, q)
              || (pc.InWake? && pc.ret.ToExit? && pc.j == q && (pc.w.KTest? || q == u.cur))
    ensures d.next.InWake? && d.next.ret.ToExit? ==>
              || (pc.InWake? && pc.ret.ToExit? && pc.ch == d.next.ch)
              || (d.next.ch == Kid(if u.parent < 0 then 0 else u.parent) && u.parent >= 0)
    ensures (d.next.InWake? && d.next.ret.ToExit?) || Passed(d.next, q) ==> !(d.ins.Do? && d.ins.w.Parent?)
  {
  }

  lemma LeavingKept(s: State, c: nat, d: Todo, t: State)
    requires LifeInv(s) && LeavingInv(s) && Legal(s, c, d) && Becomes(s, c, d, t) && Shape(t) && !d.ins.Panics?
    ensures LeavingInv(t)
  {
    hide LeavingOk, Depth, DepthInv, HandlerInv, LockSteps, LockInv, OnInv, SchedInv, PcOk, Guard, Holds,
      SameElsewhere, Fits, CpuAfter, StAfter, ChanAfter, StatusInv, ForkInv, ParentInv, Proc1, Onward;
    forall e: nat | e < |t.procs|
      ensures LeavingOk(t, e)
    {
      if e == s.cpus[c].on {
        LeavingMine(s, c, d, t);
      } else {
        LeavingTheirs(s, c, d, t, e);
      }
    }
  }

  lemma LeavingMine(s: State, c: nat, d: Todo, t: State)
    requires LifeInv(s) && LeavingInv(s) && Legal(s, c, d) && Becomes(s, c, d, t) && Shape(t) && !d.ins.Panics?
    requires s.cpus[c].on >= 0
    ensures LeavingOk(t, s.cpus[c].on)
  {
    hide Depth, DepthInv, HandlerInv, LockSteps, LockInv, SchedInv, PcOk, Guard, Holds, SameElsewhere, Fits, CpuAfter,
      ForkInv, Onward, Asleep, StAfter, ParentAfter;
    var me, pc := s.cpus[c].on, ThreadPc(s, c);
    assert t.procs[me] == Proc1(s, c, d, me) && CpuOk(s, c) && ProcOk(s, me) && ParentOk(s, me);
    assert LeavingOk(s, me);
    ResumeSched(ViewOf(s, c), pc, d);
    ProcNotSched(|s.procs|, |s.ready|, me, pc);
    ForkSees(s, c);
    OwnStates(ViewOf(s, c), pc, d, s.procs[me]);
    KeepsParent(d, s.procs[me], me);
    var q := s.procs[me].parent;
    if q >= 0 {
      PassMoves(ViewOf(s, c), pc, d, q);
      OthersSleep(s, c, d, t, q, Kid(q));
      if pc.InWake? && pc.ret.ToExit? && pc.j == q && pc.w.KTest? {
        TestedAwake(s, c, d, t, Kid(q), q);
      }
    } else {
      PassMoves(ViewOf(s, c), pc, d, 0);
    }
  }

  lemma KeepsParent(d: Todo, p: Proc, i: nat)
    requires StAfter(p, d.ins, i) != UNUSED
    ensures ParentAfter(p, d.ins, i) == p.parent || (d.ins.Do? && d.ins.w.Parent?)
  {
  }

  lemma LeavingTheirs(s: State, c: nat, d: Todo, t: State, e: nat)
    requires LifeInv(s) && LeavingInv(s) && Legal(s, c, d) && Becomes(s, c, d, t) && Shape(t) && !d.ins.Panics?
    requires e < |s.procs| && s.cpus[c].on != e
    ensures LeavingOk(t, e)
  {
    hide Depth, DepthInv, HandlerInv, LockSteps, LockInv, SchedInv, PcOk, Guard, Holds, SameElsewhere, Fits, CpuAfter,
      ForkInv, ParentInv, Onward, Asleep, StAfter, ParentAfter, PcAfter, Passed, OnInv, StatusInv;
    assert t.procs[e] == Proc1(s, c, d, e);
    assert LeavingOk(s, e);
    LeaveStays(s, c, d, t, e);
    var q := s.procs[e].parent;
    if q >= 0 && Passed(t.procs[e].pc, q) {
      StaysAwake(s, c, d, t, e, q);
    }
  }

  predicate Leaving(pc: Pc)
  {
    (pc.InWake? && pc.ret.ToExit?) || (pc.InExit? && (pc.e.ELock? || pc.e.EZombie?))
  }

  lemma LeaveHolds(me: nat, pc: Pc, q: nat)
    ensures Passed(pc, q) ==> Leaving(pc)
    ensures Leaving(pc) ==> Holds(me, pc, W) && !Saved(pc) && !IsDead(pc) && RunState(pc) == RUNNING
  {
  }

  /** Another process on its way out keeps its counter and its parent. */
  lemma LeaveStays(s: State, c: nat, d: Todo, t: State, e: nat)
    requires LifeInv(s) && Legal(s, c, d) && Becomes(s, c, d, t) && Shape(t) && !d.ins.Panics?
    requires e < |s.procs| && s.cpus[c].on != e
    ensures Leaving(t.procs[e].pc) || (t.procs[e].pc.InWake? && t.procs[e].pc.ret.ToExit?) ==>
              t.procs[e].pc == s.procs[e].pc && s.procs[e].at >= 0 && t.procs[e].parent == s.procs[e].parent
    ensures forall q: nat :: Passed(t.procs[e].pc, q) ==> Leaving(t.procs[e].pc)
  {
    hide Depth, DepthInv, HandlerInv, LockSteps, LockInv, SchedInv, PcOk, Guard, Holds, SameElsewhere, Fits, CpuAfter,
      ForkInv, Onward, StAfter, ParentAfter, OnInv, ChanAfter;
    var p := s.procs[e];
    assert t.procs[e] == Proc1(s, c, d, e);
    assert ProcOk(s, e) && ParentOk(s, e);
    LeaveHolds(e, p.pc, 0);
    Inherits(ViewOf(s, c), ThreadPc(s, c), d, e, p);
    ParentLocked(ViewOf(s, c), ThreadPc(s, c), d, e, p);
    RunStates(p.pc);
    if p.at >= 0 {
      NotTouched(s, c, d, e);
      if Leaving(p.pc) && Holds(s.cpus[c].on, ThreadPc(s, c), W) {
        WaitLockApart(s, c, e);
      }
    }
  }

  /** A parent is written under wait_lock, or cleared with the slot. */
  lemma ParentLocked(u: View, pc: Pc, d: Todo, j: nat, p: Proc)
    requires Guard(u, pc, d) && !d.ins.Panics?
    ensures ParentAfter(p, d.ins, j) != p.parent ==> Holds(u.me, pc, W) || StAfter(p, d.ins, j) == UNUSED
  {
  }

  /** Nobody goes to sleep in wait while an exiting process holds wait_lock. */
  lemma StaysAwake(s: State, c: nat, d: Todo, t: State, e: nat, q: nat)
    requires LifeInv(s) && LeavingInv(s) && Legal(s, c, d) && Becomes(s, c, d, t) && Shape(t) && !d.ins.Panics?
    requires e < |s.procs| && s.cpus[c].on != e && q < |s.procs| && s.procs[e].at >= 0 && s.procs[e].parent == q
    requires Leaving(s.procs[e].pc) && !Asleep(s.procs[q], Kid(q))
    ensures !Asleep(t.procs[q], Kid(q))
  {
    hide Depth, DepthInv, HandlerInv, LockSteps, LockInv, SchedInv, PcOk, Guard, Holds, SameElsewhere, Fits, CpuAfter,
      ForkInv, ParentInv, Onward, StAfter, ParentAfter, LeavingInv;
    if q != s.cpus[c].on {
      OthersSleep(s, c, d, t, q, Kid(q));
    } else {
      var pc := ThreadPc(s, c);
      assert t.procs[q] == Proc1(s, c, d, q) && CpuOk(s, c) && ProcOk(s, q);
      ResumeSched(ViewOf(s, c), pc, d);
      ProcNotSched(|s.procs|, |s.ready|, q, pc);
      SleepMoves(ViewOf(s, c), pc, d, s.procs[q], t.procs[q], Kid(q));
      LeaveHolds(e, s.procs[e].pc, q);
      DoomLock(q, pc, Kid(q));
      if Doomed(pc, Kid(q)) {
        WaitLockApart(s, c, e);
      }
    }
  }

  lemma DoomLock(me: nat, pc: Pc, ch: Chan)
    ensures Doomed(pc, ch) ==> Holds(me, pc, LockOf(ch))
  {
  }
}
