/** Shapes, CPUs and process states: what every instruction keeps. */
module ProcStatus {
  import opened ProcState
  import opened ProcModel
  import opened ProcText
  import opened ProcInv
  import opened ProcLock
  import opened ProcFields

  /** Process i after the instruction of the thread on CPU c. */
  function Proc1(s: State, c: nat, d: Todo, i: nat): Proc
    requires c < |s.cpus| && i < |s.procs|
  {
    var p, me := s.procs[i], s.cpus[c].on;
    Proc(StAfter(p, d.ins, i), ChanAfter(p, d.ins, i), ParentAfter(p, d.ins, i), PcAfter(p, me, d, i),
         AtAfter(p, me, c, d.ins, i), EntryAfter(s, c, d.ins, i), MakerAfter(p, me, d.ins, i),
         ExitsAfter(p, d.ins, i), ReapsAfter(p, d.ins, i))
  }

  /** The state after a legal instruction, field by field. */
  ghost predicate Becomes(s: State, c: nat, d: Todo, t: State)
    requires Shape(s) && c < |s.cpus|
  {
    && SameSizes(s, t) && SameElsewhere(s, t, c) && Onward(s, c, d, t) && CpuAfter(s, c, d, t.cpus[c])
    && (forall i: nat | i < |s.procs| :: t.procs[i] == Proc1(s, c, d, i))
    && t.ready == (if d.ins.Do? && d.ins.w.Ready? && d.ins.w.k < |s.ready| then s.ready[d.ins.w.k := d.ins.w.b] else s.ready)
  }

  lemma ReadyAfter(s: State, c: nat, d: Todo)
    requires c < |s.cpus| && s.cpus[c].on < |s.procs| && Fits(|s.procs|, |s.ready|, s.cpus[c].on, d.ins, d.next)
    ensures Apply(s, c, d.ins, d.next).ready
            == if d.ins.Do? && d.ins.w.Ready? && d.ins.w.k < |s.ready| then s.ready[d.ins.w.k := d.ins.w.b] else s.ready
  {
    hide PcOk;
  }

  lemma ApplyBecomes(s: State, c: nat, d: Todo)
    requires Base(s) && Legal(s, c, d) && !Apply(s, c, d.ins, d.next).panic
    ensures Becomes(s, c, d, Apply(s, c, d.ins, d.next))
  {
    hide Apply, Holds, Depth, LockInv, DepthInv, HandlerInv, LockSteps, PcOk, SchedInv, Guard, StatusInv, OnInv,
      CpuAfter, SameElsewhere, Onward, StAfter, ChanAfter, ParentAfter, PcAfter, AtAfter, EntryAfter, MakerAfter,
      ExitsAfter, ReapsAfter, Fits;
    StepFacts(s, c, d);
    CpuFields(s, c, d);
    ReadyAfter(s, c, d);
    Sizes(s, c, d);
    forall i: nat | i < |s.procs|
      ensures Apply(s, c, d.ins, d.next).procs[i] == Proc1(s, c, d, i)
    {
      Fields(s, c, d, i);
    }
  }

  // ----- Shape

  lemma ShapeProc(s: State, c: nat, d: Todo, i: nat)
    requires Shape(s) && c < |s.cpus| && i < |s.procs| && Fits(|s.procs|, |s.ready|, s.cpus[c].on, d.ins, d.next)
    ensures var p := Proc1(s, c, d, i);
            -1 <= p.at < |s.cpus| && -1 <= p.parent < |s.procs| && PcOk(|s.procs|, |s.ready|, i, p.pc)
  {
    FreshOk(|s.procs|, |s.ready|, i);
    hide PcOk;
  }

  lemma FreshOk(n: nat, ko: nat, i: nat)
    ensures PcOk(n, ko, i, Fresh)
  {
  }

  lemma ShapeKept(s: State, c: nat, d: Todo, t: State)
    requires Base(s) && Legal(s, c, d) && Becomes(s, c, d, t)
    ensures Shape(t)
  {
    hide Holds, Depth, LockInv, DepthInv, HandlerInv, LockSteps, PcOk, SchedInv, Guard, StatusInv, Onward,
      SameElsewhere, Proc1, CpuAfter;
    forall i: nat | i < |s.procs|
      ensures -1 <= t.procs[i].at < |s.cpus| && -1 <= t.procs[i].parent < |s.procs|
      ensures PcOk(|s.procs|, |s.ready|, i, t.procs[i].pc)
    {
      ShapeProc(s, c, d, i);
    }
    ShapeCpu(s, c, d, t.cpus[c]);
    forall e: nat | e < |s.cpus|
      ensures -1 <= t.cpus[e].on < |s.procs| && PcOk(|s.procs|, |s.ready|, -1, t.cpus[e].pc)
    {
      if e != c {
        Elsewhere1(s, t, c, e);
      }
    }
  }

  lemma Elsewhere1(s: State, t: State, c: nat, e: nat)
    requires Shape(s) && SameElsewhere(s, t, c) && e < |s.cpus| && e != c
    ensures t.cpus[e] == s.cpus[e] && ThreadPc(t, e) == ThreadPc(s, e)
  {
  }

  lemma ShapeCpu(s: State, c: nat, d: Todo, b: Cpu)
    requires Shape(s) && OnInv(s) && c < |s.cpus| && CpuAfter(s, c, d, b) && Fits(|s.procs|, |s.ready|, s.cpus[c].on, d.ins, d.next)
    ensures -1 <= b.on < |s.procs| && PcOk(|s.procs|, |s.ready|, -1, b.pc)
  {
    assert CpuOk(s, c);
  }

  // ----- CPUs

  lemma CpuKept(s: State, c: nat, d: Todo, t: State)
    requires Base(s) && Legal(s, c, d) && Becomes(s, c, d, t) && Shape(t)
    ensures CpuOk(t, c)
  {
    hide Holds, Depth, LockInv, DepthInv, HandlerInv, LockSteps, SchedInv, StatusInv, Onward, SameElsewhere;
    assert CpuOk(s, c);
    if s.cpus[c].on < 0 && !d.ins.Resume? {
      SchedMoves(ViewOf(s, c), ThreadPc(s, c), d, s.cpus[c].cur);
    } else if d.ins.Resume? {
      assert t.procs[d.ins.j] == Proc1(s, c, d, d.ins.j);
    } else {
      assert t.procs[s.cpus[c].on] == Proc1(s, c, d, s.cpus[c].on);
    }
  }

  /** c->p is set exactly while a scheduler is about to switch to a process or has just come back from it. */
  lemma SchedMoves(u: View, pc: Pc, d: Todo, cur: int)
    requires Guard(u, pc, d) && u.me < 0 && !d.ins.Resume? && !d.ins.Panics? && !d.ins.Switch?
    requires pc.InSched? ==> !pc.p.PAway?
    requires pc.InWake? ==> pc.ret.ToGive? || pc.ret.ToIsr?
    requires cur == if pc.InSched? && (pc.p.PGo? || pc.p.PBack?) then pc.j else -1
    ensures var now := if d.ins.Do? && d.ins.w.Current? then d.ins.w.p else cur;
            && (d.next.InSched? ==> !d.next.p.PAway?)
            && now == if d.next.InSched? && (d.next.p.PGo? || d.next.p.PBack?) then d.next.j else -1
  {
  }

  lemma OnKept(s: State, c: nat, d: Todo, t: State)
    requires Base(s) && Legal(s, c, d) && Becomes(s, c, d, t) && Shape(t)
    ensures OnInv(t)
  {
    hide Holds, Depth, LockInv, DepthInv, HandlerInv, LockSteps, SchedInv, StatusInv, Guard, Fits, PcOk;
    CpuKept(s, c, d, t);
    BirthAndResume(s, c, d);
    assert CpuOk(s, c);
    forall e: nat | e < |s.cpus|
      ensures CpuOk(t, e)
    {
      if e != c {
        Elsewhere1(s, t, c, e);
        assert CpuOk(s, e);
        if s.cpus[e].on >= 0 {
          assert t.procs[s.cpus[e].on] == Proc1(s, c, d, s.cpus[e].on);
        }
      }
    }
    forall i: nat | i < |s.procs| && t.procs[i].at >= 0
      ensures t.cpus[t.procs[i].at].on == i
    {
      assert t.procs[i] == Proc1(s, c, d, i);
    }
  }

  // ----- The running process

  /** The process that executes the instruction: its state follows its counter. */
  lemma RunMoves(u: View, pc: Pc, d: Todo, p: Proc)
    requires Guard(u, pc, d) && u.me >= 0 && !d.ins.Resume? && !d.ins.Panics? && !d.ins.Switch?
    requires p.pc == pc && p.st == RunState(pc) && !IsDead(pc) && ChanAt(pc, p.chan)
    requires SlotOf(pc) == u.me ==> u.st == p.st
    requires Forking(pc) ==> u.st == USED
    ensures !IsDead(d.next) && StAfter(p, d.ins, u.me) == RunState(d.next) && ChanAt(d.next, ChanAfter(p, d.ins, u.me))
  {
    match pc
    case InWake(_, _, _, _) => RunWake(u, pc, d, p);
    case InExit(_, _) => RunExit(u, pc, d, p);
    case InWait(_, _, _) => RunWait(u, pc, d, p);
    case InFork(_, _) => RunFork(u, pc, d, p);
    case _ => RunOther(u, pc, d, p);
  }

  lemma RunWake(u: View, pc: Pc, d: Todo, p: Proc)
    requires Guard(u, pc, d) && u.me >= 0 && !d.ins.Resume? && !d.ins.Panics? && !d.ins.Switch? && pc.InWake?
    requires p.pc == pc && p.st == RunState(pc) && !IsDead(pc) && ChanAt(pc, p.chan)
    requires SlotOf(pc) == u.me ==> u.st == p.st
    requires Forking(pc) ==> u.st == USED
    ensures !IsDead(d.next) && StAfter(p, d.ins, u.me) == RunState(d.next) && ChanAt(d.next, ChanAfter(p, d.ins, u.me))
  {
  }

  lemma RunExit(u: View, pc: Pc, d: Todo, p: Proc)
    requires Guard(u, pc, d) && u.me >= 0 && !d.ins.Resume? && !d.ins.Panics? && !d.ins.Switch? && pc.InExit?
    requires p.pc == pc && p.st == RunState(pc) && !IsDead(pc) && ChanAt(pc, p.chan)
    requires SlotOf(pc) == u.me ==> u.st == p.st
    requires Forking(pc) ==> u.st == USED
    ensures !IsDead(d.next) && StAfter(p, d.ins, u.me) == RunState(d.next) && ChanAt(d.next, ChanAfter(p, d.ins, u.me))
  {
  }

  lemma RunWait(u: View, pc: Pc, d: Todo, p: Proc)
    requires Guard(u, pc, d) && u.me >= 0 && !d.ins.Resume? && !d.ins.Panics? && !d.ins.Switch? && pc.InWait?
    requires p.pc == pc && p.st == RunState(pc) && !IsDead(pc) && ChanAt(pc, p.chan)
    requires SlotOf(pc) == u.me ==> u.st == p.st
    requires Forking(pc) ==> u.st == USED
    ensures !IsDead(d.next) && StAfter(p, d.ins, u.me) == RunState(d.next) && ChanAt(d.next, ChanAfter(p, d.ins, u.me))
  {
  }

  lemma RunFork(u: View, pc: Pc, d: Todo, p: Proc)
    requires Guard(u, pc, d) && u.me >= 0 && !d.ins.Resume? && !d.ins.Panics? && !d.ins.Switch? && pc.InFork?
    requires p.pc == pc && p.st == RunState(pc) && !IsDead(pc) && ChanAt(pc, p.chan)
    requires SlotOf(pc) == u.me ==> u.st == p.st
    requires Forking(pc) ==> u.st == USED
    ensures !IsDead(d.next) && StAfter(p, d.ins, u.me) == RunState(d.next) && ChanAt(d.next, ChanAfter(p, d.ins, u.me))
  {
  }

  lemma RunOther(u: View, pc: Pc, d: Todo, p: Proc)
    requires Guard(u, pc, d) && u.me >= 0 && !d.ins.Resume? && !d.ins.Panics? && !d.ins.Switch?
    requires !pc.InWake? && !pc.InExit? && !pc.InWait? && !pc.InFork?
    requires p.pc == pc && p.st == RunState(pc) && !IsDead(pc) && ChanAt(pc, p.chan)
    requires SlotOf(pc) == u.me ==> u.st == p.st
    requires Forking(pc) ==> u.st == USED
    ensures !IsDead(d.next) && StAfter(p, d.ins, u.me) == RunState(d.next) && ChanAt(d.next, ChanAfter(p, d.ins, u.me))
  {
  }

  /** swtch away: what sched leaves in the state is a context the scheduler may resume, or a zombie's. */
  lemma AwayMoves(u: View, pc: Pc, d: Todo, p: Proc)
    requires Guard(u, pc, d) && d.ins.Switch? && p.st == RunState(pc) && ChanAt(pc, p.chan)
    ensures match p.st
            case RUNNABLE => Saved(d.next)
            case SLEEPING => d.next.InSleep? && d.next.z.ZBack?
            case ZOMBIE => IsDead(d.next)
            case _ => false
    ensures ChanAt(d.next, p.chan)
  {
  }

  // ----- The other processes

  /** What a thread may do to the state of a process that is not itself. */
  predicate Handled(me: int, pc: Pc, d: Todo, i: nat, p: Proc, q: Proc)
  {
    || (q.st == p.st && q.chan == p.chan && q.pc == p.pc)
    || (p.st == SLEEPING && q.st == RUNNABLE && q.chan == p.chan && q.pc == p.pc && pc.InWake? && p.chan == pc.ch)
    || (p.st == RUNNABLE && q.st == RUNNING && q.chan == p.chan && q.pc == p.pc && me < 0 && d.next == InSched(PSet, i))
    || (p.st == USED && q.st == RUNNABLE && q.chan == p.chan && q.pc == p.pc && me >= 0 && pc == InFork(FReady, i))
    || (p.st == UNUSED && q.st == USED && q.chan == p.chan && q.pc == Fresh && d.next == InFork(FCopy, i))
    || (p.st == USED && q.st == UNUSED && q.chan == NoChan && q.pc == p.pc && me >= 0 && pc == InFork(FCopy, i))
    || (p.st == ZOMBIE && q.st == UNUSED && q.chan == NoChan && q.pc == p.pc && pc.InWait?)
  }

  lemma Handles(u: View, pc: Pc, d: Todo, i: nat, p: Proc)
    requires Guard(u, pc, d) && u.me != i && !d.ins.Panics?
    requires SlotOf(pc) == i ==> u.st == p.st && u.chan == p.chan
    requires Forking(pc) ==> u.st == USED
    ensures var q := p.(st := StAfter(p, d.ins, i), chan := ChanAfter(p, d.ins, i), pc := PcAfter(p, u.me, d, i));
            && Handled(u.me, pc, d, i, p, q)
            && (q.st != p.st || q.chan != p.chan || q.pc != p.pc ==> Holds(u.me, pc, S(i)) && SlotOf(pc) == i)
  {
  }

  /** Two CPUs never hold the same lock. */
  lemma OneHolder(s: State, c: nat, e: nat, l: Lock)
    requires Shape(s) && LockInv(s) && c < |s.cpus| && e < |s.cpus|
    requires Holds(s.cpus[c].on, ThreadPc(s, c), l) && Holds(s.cpus[e].on, ThreadPc(s, e), l)
    ensures c == e && l in s.held && s.held[l] == c
  {
    hide Holds, PcOk;
    assert Holds(s.cpus[c].on, ThreadPc(s, c), l) <==> l in s.held && s.held[l] == c;
    assert Holds(s.cpus[e].on, ThreadPc(s, e), l) <==> l in s.held && s.held[l] == e;
  }

  /** A process that has left RUNNING but is still on its CPU holds its own lock. */
  lemma LeavingHolds(i: nat, pc: Pc)
    requires RunState(pc) != RUNNING
    ensures Holds(i, pc, S(i))
  {
  }

  lemma RunStates(pc: Pc)
    ensures RunState(pc) != USED && RunState(pc) != UNUSED
  {
  }

  /** Nobody else changes the state of a process that is on a CPU. */
  lemma NotTouched(s: State, c: nat, d: Todo, i: nat)
    requires LifeInv(s) && Legal(s, c, d) && !d.ins.Panics? && i < |s.procs| && s.cpus[c].on != i && s.procs[i].at >= 0
    ensures var q := Proc1(s, c, d, i); q.st == s.procs[i].st && q.chan == s.procs[i].chan && q.pc == s.procs[i].pc
  {
    hide Holds, Depth, DepthInv, HandlerInv, LockSteps, SchedInv, PcOk, Guard, StAfter, ChanAfter, PcAfter, LockInv,
      ParentInv, Fits;
    var pc, p := ThreadPc(s, c), s.procs[i];
    assert ProcOk(s, i);
    ForkSees(s, c);
    Handles(ViewOf(s, c), pc, d, i, p);
    RunStates(p.pc);
    if p.st != RUNNING {
      LeavingHolds(i, p.pc);
      if Holds(s.cpus[c].on, pc, S(i)) {
        OneHolder(s, c, p.at, S(i));
      }
    }
  }

  /** The fork that has a slot in hand sees it USED. */
  lemma ForkSees(s: State, c: nat)
    requires LifeInv(s) && c < |s.cpus|
    ensures Forking(ThreadPc(s, c)) ==>
              SlotOf(ThreadPc(s, c)) < |s.procs| && ViewOf(s, c).st == USED && s.procs[SlotOf(ThreadPc(s, c))].at < 0
  {
    hide Holds, Depth, LockInv, DepthInv, HandlerInv, SchedInv, StatusInv, ParentInv;
    assert CpuOk(s, c);
    if Forking(ThreadPc(s, c)) {
      assert ForkOk(s, s.cpus[c].on);
    }
  }

  lemma StatusRunning(s: State, c: nat, d: Todo, t: State, i: nat)
    requires LifeInv(s) && Legal(s, c, d) && Becomes(s, c, d, t) && Shape(t) && !d.ins.Panics?
    requires i < |s.procs| && s.procs[i].at >= 0
    ensures ProcOk(t, i) && ChanAt(t.procs[i].pc, t.procs[i].chan)
  {
    hide Holds, Depth, DepthInv, HandlerInv, LockSteps, LockInv, SchedInv, PcOk, Guard, StAfter, ChanAfter, ParentInv,
      ForkInv, Onward, SameElsewhere, CpuAfter, Fits;
    var p := s.procs[i];
    assert ProcOk(s, i) && ChanAt(p.pc, p.chan);
    assert t.procs[i] == Proc1(s, c, d, i);
    assert CpuOk(s, c);
    if s.cpus[c].on != i {
      NotTouched(s, c, d, i);
      NotResumed(s, c, d, i);
    } else if d.ins.Switch? {
      AwayMoves(ViewOf(s, c), p.pc, d, p);
      StSame(p, d.ins, i);
    } else {
      ForkSees(s, c);
      assert PcOk(|s.procs|, |s.ready|, i, p.pc);
      ProcNotSched(|s.procs|, |s.ready|, i, p.pc);
      ResumeSched(ViewOf(s, c), p.pc, d);
      RunMoves(ViewOf(s, c), p.pc, d, p);
    }
  }

  lemma ResumeSched(u: View, pc: Pc, d: Todo)
    requires Guard(u, pc, d)
    ensures d.ins.Resume? ==> pc.InSched?
  {
  }

  lemma ProcNotSched(n: nat, ko: nat, i: nat, pc: Pc)
    requires PcOk(n, ko, i, pc)
    ensures !pc.InSched?
  {
  }

  lemma StSame(p: Proc, ins: Instr, i: nat)
    requires !ins.Do?
    ensures StAfter(p, ins, i) == p.st && ChanAfter(p, ins, i) == p.chan
  {
  }

  lemma NotResumed(s: State, c: nat, d: Todo, i: nat)
    requires Base(s) && Legal(s, c, d) && i < |s.procs| && s.procs[i].at >= 0 && s.cpus[c].on != i
    ensures AtAfter(s.procs[i], s.cpus[c].on, c, d.ins, i) == s.procs[i].at
  {
    hide Holds, Depth, DepthInv, HandlerInv, LockSteps, LockInv, SchedInv, PcOk, Guard;
    BirthAndResume(s, c, d);
  }

  /** Which scheduler is starting process i does not change, unless it goes on to swtch. */
  lemma StartingKept(s: State, c: nat, d: Todo, t: State, i: nat)
    requires Base(s) && Legal(s, c, d) && Becomes(s, c, d, t) && Shape(t) && !d.ins.Panics?
    requires i < |s.procs| && Starting(s, i) && !(d.ins.Resume? && d.ins.j == i)
    ensures Starting(t, i)
  {
    hide Holds, Depth, DepthInv, HandlerInv, SchedInv, PcOk, LockInv, StatusInv, Fits, Proc1;
    var e := s.held[S(i)];
    LockNoPanic(s, c, d);
    if e != c {
      Elsewhere1(s, t, c, e);
    } else {
      StartMoves(ViewOf(s, c), ThreadPc(s, c), d);
    }
  }

  lemma StartMoves(u: View, pc: Pc, d: Todo)
    requires Guard(u, pc, d) && pc.InSched? && (pc.p.PSet? || pc.p.PGo?) && !d.ins.Panics?
    ensures (d.ins.Resume? && d.ins.j == pc.j) || (d.ins.Do? && d.next == InSched(PGo, pc.j))
  {
  }

  /** The state of a process that waits, as others leave it; what makes it RUNNING is settled elsewhere. */
  lemma HandledOk(s: State, c: nat, d: Todo, i: nat, q: Proc)
    requires Base(s) && Legal(s, c, d) && i < |s.procs| && s.procs[i].at < 0
    requires Handled(s.cpus[c].on, ThreadPc(s, c), d, i, s.procs[i], q)
    ensures ChanAt(q.pc, q.chan)
    ensures q.st != RUNNING ==>
              match q.st
              case UNUSED => q.pc.Fresh? || IsDead(q.pc)
              case USED => q.pc.Fresh?
              case RUNNABLE => Saved(q.pc)
              case SLEEPING => q.pc.InSleep? && q.pc.z.ZBack?
              case ZOMBIE => IsDead(q.pc)
    ensures q.st == RUNNING ==> Saved(q.pc) && (s.procs[i].st == RUNNING || (s.cpus[c].on < 0 && d.next == InSched(PSet, i)))
  {
    hide Holds, Depth, DepthInv, HandlerInv, LockSteps, LockInv, SchedInv, PcOk, Guard, Fits, OnInv, Starting;
    assert ProcOk(s, i) && ChanAt(s.procs[i].pc, s.procs[i].chan);
  }

  lemma StatusWaiting(s: State, c: nat, d: Todo, t: State, i: nat)
    requires LifeInv(s) && Legal(s, c, d) && Becomes(s, c, d, t) && Shape(t) && !d.ins.Panics?
    requires i < |s.procs| && s.procs[i].at < 0
    ensures ProcOk(t, i) && ChanAt(t.procs[i].pc, t.procs[i].chan)
  {
    hide Holds, Depth, DepthInv, HandlerInv, LockSteps, LockInv, SchedInv, PcOk, Guard, StAfter, ChanAfter, PcAfter,
      ParentInv, ForkInv, SameElsewhere, CpuAfter, Fits, OnInv, StatusInv, Handled, ChanAt, Starting;
    var p, pc := s.procs[i], ThreadPc(s, c);
    assert t.procs[i] == Proc1(s, c, d, i);
    NotMine(s, c, i);
    ForkSees(s, c);
    Handles(ViewOf(s, c), pc, d, i, p);
    HandledOk(s, c, d, i, p.(st := t.procs[i].st, chan := t.procs[i].chan, pc := t.procs[i].pc));
    if d.ins.Resume? && d.ins.j == i {
      BirthAndResume(s, c, d);
      StSame(p, d.ins, i);
      SavedRuns(p.pc);
    } else if p.st == RUNNING {
      StartingKeeps(s, c, d, t, i);
    } else if t.procs[i].st == RUNNING {
      if !d.ins.Do? {
        StSame(p, d.ins, i);
      }
      NowStarting(s, c, d, t, i);
    }
  }

  lemma SavedRuns(pc: Pc)
    requires Saved(pc)
    ensures RunState(pc) == RUNNING && !IsDead(pc)
  {
  }

  lemma StartingKeeps(s: State, c: nat, d: Todo, t: State, i: nat)
    requires LifeInv(s) && Legal(s, c, d) && Becomes(s, c, d, t) && Shape(t) && !d.ins.Panics?
    requires i < |s.procs| && s.procs[i].at < 0 && s.procs[i].st == RUNNING && !(d.ins.Resume? && d.ins.j == i)
    ensures Starting(t, i)
  {
    hide Holds, Depth, DepthInv, HandlerInv, LockSteps, LockInv, SchedInv, PcOk, Guard, ParentInv, ForkInv,
      SameElsewhere, CpuAfter, Fits, OnInv, Onward, Proc1, Starting;
    assert ProcOk(s, i);
    StartingKept(s, c, d, t, i);
  }

  /** The scheduler that has just made process i RUNNING holds its lock. */
  lemma NowStarting(s: State, c: nat, d: Todo, t: State, i: nat)
    requires Base(s) && Legal(s, c, d) && Becomes(s, c, d, t) && Shape(t) && i < |s.procs|
    requires Holds(s.cpus[c].on, ThreadPc(s, c), S(i)) && s.cpus[c].on < 0 && d.next == InSched(PSet, i) && d.ins.Do?
    ensures Starting(t, i)
  {
    hide Holds, Depth, DepthInv, HandlerInv, LockSteps, SchedInv, PcOk, Guard, SameElsewhere, Fits, OnInv, StatusInv,
      Proc1;
    OneHolder(s, c, c, S(i));
  }

  lemma StatusKept(s: State, c: nat, d: Todo, t: State)
    requires LifeInv(s) && Legal(s, c, d) && Becomes(s, c, d, t) && Shape(t) && !d.ins.Panics?
    ensures StatusInv(t)
  {
    hide ProcOk, ChanAt, Holds, Depth, Guard, PcOk, LockInv, OnInv, DepthInv, HandlerInv, SchedInv, ForkInv,
      ParentInv, LockSteps, Fits, Proc1, Onward, SameElsewhere, CpuAfter;
    SizeIs(s, c, d, t);
    forall i: nat | i < |t.procs|
      ensures ProcOk(t, i) && ChanAt(t.procs[i].pc, t.procs[i].chan)
    {
      if s.procs[i].at >= 0 {
        StatusRunning(s, c, d, t, i);
      } else {
        StatusWaiting(s, c, d, t, i);
      }
    }
  }

  lemma SizeIs(s: State, c: nat, d: Todo, t: State)
    requires Shape(s) && c < |s.cpus| && Becomes(s, c, d, t)
    ensures SameSizes(s, t) && |t.procs| == |s.procs| && |t.cpus| == |s.cpus|
  {
    hide Shape, SameElsewhere, Onward, CpuAfter, Proc1;
  }

  // ----- Schedulers

  lemma SchedKept(s: State, c: nat, d: Todo, t: State)
    requires LifeInv(s) && Legal(s, c, d) && Becomes(s, c, d, t) && Shape(t) && !d.ins.Panics?
    ensures SchedInv(t)
  {
    hide SchedOk, Holds, Depth, Guard, PcOk, LockInv, OnInv, DepthInv, HandlerInv, StatusInv, ForkInv, ParentInv,
      LockSteps, Fits, Proc1, Onward, SameElsewhere, CpuAfter;
    SizeIs(s, c, d, t);
    forall e: nat | e < |t.cpus|
      ensures SchedOk(t, e)
    {
      SchedAt(s, c, d, t, e);
    }
  }

  lemma SchedAt(s: State, c: nat, d: Todo, t: State, e: nat)
    requires LifeInv(s) && Legal(s, c, d) && Becomes(s, c, d, t) && Shape(t) && !d.ins.Panics? && e < |s.cpus|
    ensures SchedOk(t, e)
  {
    hide Depth, DepthInv, HandlerInv, LockSteps, LockInv, PcOk, Guard, StAfter, ChanAfter, PcAfter, ParentInv,
      ForkInv, StatusInv, Holds, Fits;
    assert SchedOk(s, e);
    if e != c {
      Elsewhere1(s, t, c, e);
      if s.cpus[e].on < 0 && s.cpus[e].pc.InSched? && (s.cpus[e].pc.p.PSet? || s.cpus[e].pc.p.PGo?) {
        SlotRange(|s.procs|, |s.ready|, s.cpus[e].pc);
        Undisturbed(s, c, d, e, s.cpus[e].pc.j);
        assert t.procs[s.cpus[e].pc.j] == Proc1(s, c, d, s.cpus[e].pc.j);
      }
    } else {
      SchedMine(s, c, d, t);
    }
  }

  /** While a scheduler has a process in hand, nobody else touches it. */
  lemma Undisturbed(s: State, c: nat, d: Todo, e: nat, i: nat)
    requires LifeInv(s) && Legal(s, c, d) && !d.ins.Panics? && e < |s.cpus| && e != c && i < |s.procs|
    requires s.cpus[e].on < 0 && s.cpus[e].pc.InSched? && (s.cpus[e].pc.p.PSet? || s.cpus[e].pc.p.PGo?) && s.cpus[e].pc.j == i
    ensures Proc1(s, c, d, i).st == RUNNING && Proc1(s, c, d, i).at < 0
  {
    hide Depth, DepthInv, HandlerInv, LockSteps, PcOk, Guard, StAfter, ChanAfter, PcAfter, ParentInv, ForkInv,
      StatusInv, LockInv, Fits;
    var p := s.procs[i];
    assert SchedOk(s, e);
    NotMine(s, c, i);
    ForkSees(s, c);
    Handles(ViewOf(s, c), ThreadPc(s, c), d, i, p);
    if d.ins.Resume? && d.ins.j == i {
      GoHolds(ViewOf(s, c), ThreadPc(s, c), d);
      OneHolder(s, c, e, S(i));
    }
  }

  lemma SlotRange(n: nat, ko: nat, pc: Pc)
    requires PcOk(n, ko, -1, pc) && pc.InSched? && !pc.p.PNext?
    ensures pc.j < n
  {
  }

  lemma GoHolds(u: View, pc: Pc, d: Todo)
    requires Guard(u, pc, d)
    ensures d.ins.Resume? ==> Holds(u.me, pc, S(d.ins.j))
  {
  }

  lemma SchedMine(s: State, c: nat, d: Todo, t: State)
    requires LifeInv(s) && Legal(s, c, d) && Becomes(s, c, d, t) && Shape(t) && !d.ins.Panics?
    ensures SchedOk(t, c)
  {
    hide Depth, DepthInv, HandlerInv, LockSteps, LockInv, PcOk, Guard, ChanAfter, PcAfter, StAfter, ParentInv,
      ForkInv, SameElsewhere, Holds, OnInv, StatusInv;
    assert SchedOk(s, c);
    if s.cpus[c].on < 0 && d.next.InSched? && (d.next.p.PSet? || d.next.p.PGo?) {
      var i := d.next.j;
      SlotRange(|s.procs|, |s.ready|, d.next);
      SchedWake(|s.procs|, |s.ready|, ThreadPc(s, c));
      assert t.procs[i] == Proc1(s, c, d, i);
      SetMoves(ViewOf(s, c), ThreadPc(s, c), d, s.procs[i]);
      if d.next.p.PSet? {
        NotRunnableElsewhere(s, c, i);
      }
    }
  }

  lemma SchedWake(n: nat, ko: nat, pc: Pc)
    requires PcOk(n, ko, -1, pc)
    ensures pc.InWake? ==> pc.ret.ToGive? || pc.ret.ToIsr?
  {
  }

  /** The scheduler comes to its switch by finding the process RUNNABLE and making it RUNNING. */
  predicate SetStep(pc: Pc, d: Todo, p: Proc)
    requires d.next.InSched?
  {
    && !d.ins.Resume?
    && ((pc == InSched(PTest, d.next.j) && p.st == RUNNABLE && StAfter(p, d.ins, d.next.j) == RUNNING && d.next.p.PSet?)
        || (pc == InSched(PSet, d.next.j) && StAfter(p, d.ins, d.next.j) == p.st && d.next.p.PGo?))
  }

  lemma SetMoves(u: View, pc: Pc, d: Todo, p: Proc)
    requires Guard(u, pc, d) && u.me < 0 && !d.ins.Panics? && d.next.InSched? && (d.next.p.PSet? || d.next.p.PGo?)
    requires pc.InSched? && SlotOf(pc) == d.next.j ==> u.st == p.st
    requires pc.InWake? ==> pc.ret.ToGive? || pc.ret.ToIsr?
    ensures SetStep(pc, d, p)
  {
    hide SetStep, Guard;
    match pc
    case InSched(_, _) => SetSched(u, pc, d, p);
    case InWake(_, _, _, _) => SetWake(u, pc, d);
    case _ => SetOther(u, pc, d);
  }

  lemma SetSched(u: View, pc: Pc, d: Todo, p: Proc)
    requires Guard(u, pc, d) && u.me < 0 && !d.ins.Panics? && d.next.InSched? && (d.next.p.PSet? || d.next.p.PGo?)
    requires pc.InSched? && (SlotOf(pc) == d.next.j ==> u.st == p.st)
    ensures SetStep(pc, d, p)
  {
  }

  lemma SetWake(u: View, pc: Pc, d: Todo)
    requires Guard(u, pc, d) && !d.ins.Panics? && pc.InWake? && (pc.ret.ToGive? || pc.ret.ToIsr?)
    ensures !d.next.InSched?
  {
  }

  lemma SetOther(u: View, pc: Pc, d: Todo)
    requires Guard(u, pc, d) && u.me < 0 && !d.ins.Panics? && !pc.InSched? && !pc.InWake?
    ensures d.next.InSched? ==> !d.next.p.PSet? && !d.next.p.PGo?
  {
  }

  /** A process found RUNNABLE under its lock is on no CPU. */
  lemma NotRunnableElsewhere(s: State, c: nat, i: nat)
    requires Base(s) && c < |s.cpus| && i < |s.procs| && s.cpus[c].on < 0 && ThreadPc(s, c) == InSched(PTest, i)
    ensures s.procs[i].st == RUNNABLE ==> s.procs[i].at < 0
  {
    hide Depth, DepthInv, HandlerInv, LockSteps, LockInv, PcOk, SchedInv;
    assert ProcOk(s, i);
    if s.procs[i].st == RUNNABLE && s.procs[i].at >= 0 {
      LeavingHolds(i, s.procs[i].pc);
      OneHolder(s, c, s.procs[i].at, S(i));
    }
  }
}
