/** Who changes the state and the parent of a process, who takes an object, and whom the scheduler runs: in every reachable
    state and over every run. */
module ProcTurns {
  import opened ProcState
  import opened ProcModel
  import opened ProcText
  import opened ProcInv
  import opened ProcLock
  import opened ProcFields
  import opened ProcStatus
  import opened ProcFamily
  import opened ProcWakeup
  import opened ProcKids
  import opened ProcRuns
  import opened ProcTheorems
  import opened ProcCalls

  // ----- States and parents

  /** The life of a slot: each change of state, and the thread that makes it.  me is that thread, pc its counter. */
  predicate Edge(i: nat, p: Proc, q: Proc, me: int, pc: Pc)
  {
    || (p.st == UNUSED && q.st == USED && me >= 0 && q.maker == me)
    || (p.st == USED && q.st == UNUSED && me >= 0 && p.maker == me)
    || (p.st == USED && q.st == RUNNABLE && me >= 0 && p.maker == me == p.parent)
    || (p.st == RUNNABLE && q.st == RUNNING && me < 0)
    || (p.st == RUNNING && (q.st == RUNNABLE || q.st == SLEEPING || q.st == ZOMBIE) && me == i)
    || (p.st == SLEEPING && q.st == RUNNABLE && me != i && pc.InWake? && pc.ch == p.chan)
    || (p.st == ZOMBIE && q.st == UNUSED && me >= 0 && p.parent == me)
  }

  /** A process changes its state along these edges only: nobody but its parent frees it, nobody but its forker starts it,
      nobody wakes it from another channel than its own. */
  lemma StateEdges(s: State, t: State, c: nat, op: Op, flip: bool, i: nat)
    requires IsReachable(s) && Step(s, t, c, op, flip) && i < |s.procs| && i < |t.procs|
    requires t.procs[i].st != s.procs[i].st
    ensures Edge(i, s.procs[i], t.procs[i], s.cpus[c].on, ThreadPc(s, c))
  {
    hide IsReachable, LockInv, DepthInv, HandlerInv, SchedInv, ObjectInv, LoneInv, KidInv, BornInv, LeavingInv, EntryInv,
      CountInv, Apply, Fits, PcOk, CpuAfter, SameElsewhere, Onward, Text, Guard, LockSteps, StAfter, ParentAfter, ChanAfter,
      PcAfter, MakerAfter, ParentInv, ForkInv, Edge;
    Stepped(s, t, c, op, flip);
    InvShape(s);
    var d, me, p := Text(s, c, op, flip), s.cpus[c].on, s.procs[i];
    assert t.procs[i] == Proc1(s, c, d, i) && CpuOk(s, c) && ProcOk(s, i);
    if me >= 0 {
      ForkHas(s, c, i);
      assert ChildOk(s, me, i);
    }
    if me == i {
      ForkSees(s, c);
      ResumeSched(ViewOf(s, c), p.pc, d);
      ProcNotSched(|s.procs|, |s.ready|, i, p.pc);
      EdgeMine(ViewOf(s, c), p.pc, d, p, t.procs[i]);
    } else {
      EdgeTheirs(ViewOf(s, c), ThreadPc(s, c), d, i, p, t.procs[i]);
    }
  }

  /** What fork has in hand. */
  lemma ForkHas(s: State, c: nat, i: nat)
    requires LifeInv(s) && c < |s.cpus| && s.cpus[c].on >= 0 && i < |s.procs|
    ensures var me, pc, p := s.cpus[c].on, ThreadPc(s, c), s.procs[i];
            Forking(pc) && SlotOf(pc) == i ==>
              p.st == USED && p.maker == me && p.parent == if Adopted(pc.f) then me else -1
  {
    hide Depth, DepthInv, HandlerInv, LockInv, SchedInv, PcOk, StatusInv, ParentInv;
    assert ForkOk(s, s.cpus[c].on);
  }

  lemma EdgeMine(u: View, pc: Pc, d: Todo, p: Proc, q: Proc)
    requires Guard(u, pc, d) && !d.ins.Panics? && !d.ins.Resume? && u.me >= 0 && p.pc == pc && p.st == RunState(pc)
    requires (SlotOf(pc) == u.me ==> u.st == p.st) && (Forking(pc) ==> u.st == USED)
    requires q.st == StAfter(p, d.ins, u.me) && q.st != p.st
    ensures Edge(u.me, p, q, u.me, pc)
  {
  }

  lemma EdgeTheirs(u: View, pc: Pc, d: Todo, i: nat, p: Proc, q: Proc)
    requires Guard(u, pc, d) && !d.ins.Panics? && u.me != i && (SlotOf(pc) == i ==> u.st == p.st && u.chan == p.chan)
    requires u.me >= 0 && Forking(pc) && SlotOf(pc) == i ==>
               p.st == USED && p.maker == u.me && p.parent == if Adopted(pc.f) then u.me else -1
    requires u.me >= 0 && Tests(pc, i) ==> p.parent == u.me
    requires q.st == StAfter(p, d.ins, i) && q.maker == MakerAfter(p, u.me, d.ins, i) && q.st != p.st
    ensures Edge(i, p, q, u.me, pc)
  {
  }

  /** A parent is written by the child's forker, by a parent that is exiting, which leaves the child to init, or when the
      parent frees the zombie. */
  lemma ParentEdges(s: State, t: State, c: nat, op: Op, flip: bool, i: nat)
    requires IsReachable(s) && Step(s, t, c, op, flip) && i < |s.procs| && i < |t.procs|
    requires t.procs[i].parent != s.procs[i].parent
    ensures var p, q, me := s.procs[i], t.procs[i], s.cpus[c].on;
            && me >= 0
            && (|| (p.parent == -1 && q.parent == me == p.maker && p.st == USED)
                || (p.parent == me && q.parent == s.init && IsExit(ThreadPc(s, c)))
                || (p.parent == me && q.parent == -1 && p.st == ZOMBIE && q.st == UNUSED))
  {
    hide IsReachable, LockInv, DepthInv, HandlerInv, SchedInv, ObjectInv, LoneInv, KidInv, BornInv, LeavingInv, EntryInv,
      CountInv, Apply, Fits, PcOk, CpuAfter, SameElsewhere, Onward, Text, Guard, LockSteps, StAfter, ParentAfter, ChanAfter,
      PcAfter, MakerAfter, ParentInv;
    Stepped(s, t, c, op, flip);
    InvShape(s);
    var d, me := Text(s, c, op, flip), s.cpus[c].on;
    assert t.procs[i] == Proc1(s, c, d, i);
    Inherits(ViewOf(s, c), ThreadPc(s, c), d, i, s.procs[i]);
    ForkParents(s, c);
    ReapTests(ViewOf(s, c), ThreadPc(s, c), d, i, s.procs[i]);
    if me >= 0 {
      assert ForkOk(s, me) && ChildOk(s, me, i);
    }
  }

  // ----- Objects

  /** Process p gets through its wait for object k. */
  predicate Takes(s: State, t: State, p: nat, k: nat)
  {
    p < |s.procs| && p < |t.procs| && s.procs[p].pc != InUse(URel, k) && t.procs[p].pc == InUse(URel, k)
  }

  /** Object k becomes ready: a thread that holds its lock gives it, or the disk's handler does, without one. */
  ghost predicate Given(s: State, t: State, k: nat)
  {
    && Shape(s) && k < |s.ready| && k < |t.ready| && !s.ready[k] && t.ready[k]
    && exists c: nat :: c < |s.cpus| && GivesAt(s.bare, ThreadPc(s, c), k)
  }

  predicate GivesAt(bare: set<nat>, pc: Pc, k: nat)
  {
    (pc.InGive? && pc.g.GSet? && pc.k == k) || (k in bare && pc.InTrap?)
  }

  lemma TakeMoves(u: View, pc: Pc, d: Todo, k: nat)
    requires Guard(u, pc, d) && !d.ins.Panics? && !d.ins.Resume? && d.next == InUse(URel, k)
    ensures pc == InUse(UTest, k) && u.ready && (d.ins == Do(Ready(k, false)) || !d.ins.Do?)
  {
  }

  /** Whoever gets through found the object ready; unless it is one that a handler makes ready without a lock, it is ready
      no more. */
  lemma TakesReady(s: State, t: State, c: nat, op: Op, flip: bool, p: nat, k: nat)
    requires Inv(s) && Step(s, t, c, op, flip) && Takes(s, t, p, k)
    ensures k < |s.ready| == |t.ready| && s.ready[k] && (k !in s.bare ==> !t.ready[k])
  {
    hide Base, ForkInv, ParentInv, ObjectInv, LoneInv, ChildInv, KidInv, BornInv, LeavingInv, EntryInv, CountInv, Apply,
      Fits, PcOk, CpuAfter, SameElsewhere, Onward, Guard, LockSteps, Quiet;
    SteppedFrom(s, t, c, op, flip);
    InvShape(s);
    BaseQuiet(s, c);
    var d := Text(s, c, op, flip);
    assert t.procs[p] == Proc1(s, c, d, p);
    TakeMoves(ViewOf(s, c), ThreadPc(s, c), d, k);
  }

  lemma MakeMoves(u: View, pc: Pc, d: Todo, k: nat)
    requires Guard(u, pc, d) && d.ins == Do(Ready(k, true))
    ensures GivesAt(u.bare, pc, k)
  {
  }

  /** An object that becomes ready is given. */
  lemma ReadyGiven(s: State, t: State, k: nat)
    requires Inv(s) && Next(s, t) && k < |s.ready|
    ensures |t.ready| == |s.ready| && t.bare == s.bare
    ensures !s.ready[k] && t.ready[k] ==> Given(s, t, k)
  {
    hide Base, ForkInv, ParentInv, ObjectInv, LoneInv, ChildInv, KidInv, BornInv, LeavingInv, EntryInv, CountInv, Apply,
      Fits, PcOk, CpuAfter, SameElsewhere, Onward, Text, Guard, LockSteps;
    var c: nat, op, flip :| Step(s, t, c, op, flip);
    SteppedFrom(s, t, c, op, flip);
    InvShape(s);
    if !s.ready[k] && t.ready[k] {
      MakeMoves(ViewOf(s, c), ThreadPc(s, c), Text(s, c, op, flip), k);
    }
  }

  lemma {:induction false} GivenBefore(states: seq<State>, a: nat, b: nat, k: nat)
    requires Run(states) && a <= b < |states| && k < |states[a].ready|
    ensures |states[b].ready| == |states[a].ready| && states[b].bare == states[a].bare
    ensures !states[a].ready[k] && states[b].ready[k] ==> exists m: nat :: a <= m < b && Given(states[m], states[m + 1], k)
    decreases b
  {
    hide Init, Next, Inv, Given;
    if a < b {
      GivenBefore(states, a, b - 1, k);
      assert Next(states[b - 1], states[b - 1 + 1]);
      Reachable(states, b - 1);
      ReadyGiven(states[b - 1], states[b], k);
      if !states[b - 1].ready[k] && states[b].ready[k] {
        assert a <= b - 1 < b && Given(states[b - 1], states[b - 1 + 1], k);
      }
    }
  }

  /** An object is given between any two takes: a sleeplock has one holder at a time. */
  lemma TakesTurns(states: seq<State>, a: nat, b: nat, p: nat, q: nat, k: nat)
    requires Run(states) && a < b && b + 1 < |states| && k !in states[a].bare
    requires Takes(states[a], states[a + 1], p, k) && Takes(states[b], states[b + 1], q, k)
    ensures exists m: nat :: a < m < b && Given(states[m], states[m + 1], k)
  {
    hide Inv, Takes, Given, Init, Next;
    assert Next(states[a], states[a + 1]) && Next(states[b], states[b + 1]);
    Reachable(states, a);
    Reachable(states, b);
    TakesAt(states[a], states[a + 1], p, k);
    ReadyGiven(states[a], states[a + 1], k);
    GivenBefore(states, a + 1, b, k);
    TakesAt(states[b], states[b + 1], q, k);
  }

  lemma TakesAt(s: State, t: State, p: nat, k: nat)
    requires Inv(s) && Next(s, t) && Takes(s, t, p, k)
    ensures k < |s.ready| == |t.ready| && s.ready[k] && (k !in s.bare ==> !t.ready[k])
  {
    hide Inv, Takes, Step;
    var c: nat, op, flip :| Step(s, t, c, op, flip);
    TakesReady(s, t, c, op, flip, p, k);
  }

  /** Process p sends its request for object k. */
  predicate Arms(s: State, t: State, p: nat, k: nat)
  {
    p < |s.procs| && p < |t.procs| && s.procs[p].pc == InUse(UArm, k) && t.procs[p].pc == InUse(UTest, k)
  }

  /** A request to the disk is not through before the disk's handler has answered it. */
  lemma AnsweredFirst(states: seq<State>, a: nat, b: nat, p: nat, q: nat, k: nat)
    requires Run(states) && a < b && b + 1 < |states| && k in states[a].bare
    requires Arms(states[a], states[a + 1], p, k) && Takes(states[b], states[b + 1], q, k)
    ensures exists m: nat :: a < m < b && Given(states[m], states[m + 1], k)
  {
    hide Inv, Takes, Arms, Given, Init, Next;
    assert Next(states[a], states[a + 1]) && Next(states[b], states[b + 1]);
    Reachable(states, a);
    Reachable(states, b);
    ArmsAt(states[a], states[a + 1], p, k);
    GivenBefore(states, a + 1, b, k);
    TakesAt(states[b], states[b + 1], q, k);
  }

  lemma ArmsAt(s: State, t: State, p: nat, k: nat)
    requires Inv(s) && Next(s, t) && Arms(s, t, p, k) && k in s.bare
    ensures k < |s.ready| == |t.ready| && !t.ready[k]
  {
    hide Base, ForkInv, ParentInv, ObjectInv, LoneInv, ChildInv, KidInv, BornInv, LeavingInv, EntryInv, CountInv, Apply,
      Fits, CpuAfter, SameElsewhere, Onward, Guard, LockSteps, Quiet;
    var c: nat, op, flip :| Step(s, t, c, op, flip);
    SteppedFrom(s, t, c, op, flip);
    InvShape(s);
    BaseQuiet(s, c);
    assert PcOk(|s.procs|, |s.ready|, p, s.procs[p].pc);
    assert t.procs[p] == Proc1(s, c, Text(s, c, op, flip), p);
  }

  // ----- The scheduler

  /** The slots that a scheduler has been through in this round; its trap, if it is in one, aside. */
  function RoundTo(pc: Pc): nat
  {
    var b := Under(pc);
    if !b.InSched? then 0 else if b.p.PNext? || b.p.PTest? || b.p.PSet? || b.p.PGo? then b.j else b.j + 1
  }

  /** CPU c runs process j, or its scheduler sees that it need not. */
  predicate Offered(s: State, c: nat, j: nat)
  {
    && c < |s.cpus| && j < |s.procs|
    && (s.cpus[c].on == j || (s.cpus[c].on < 0 && s.cpus[c].pc == InSched(PTest, j) && s.procs[j].st != RUNNABLE))
  }

  /** The scheduler goes on by one slot at a time and starts again past the last one. */
  predicate RoundStep(u: View, pc: Pc, d: Todo)
  {
    && (|| RoundTo(d.next) <= RoundTo(pc)
        || (pc.InSched? && pc.p.PTest? && u.st != RUNNABLE && RoundTo(d.next) == RoundTo(pc) + 1 == pc.j + 1))
    && (RoundTo(d.next) < RoundTo(pc) ==> pc == InSched(PNext, u.n) && d.next == InSched(PNext, 0))
  }

  lemma RoundMoves(u: View, pc: Pc, d: Todo)
    requires Guard(u, pc, d) && !d.ins.Panics? && !d.ins.Resume? && !d.ins.Switch? && u.me < 0
    requires pc.InSched? || pc.InTrap? || pc.InGive? || pc.InLeaf? || pc.InWake?
    ensures RoundStep(u, pc, d)
  {
    hide Guard, RoundStep;
    if pc.InSched? {
      RoundSched(u, pc, d);
    } else if pc.InWake? {
      RoundWake(u, pc, d);
    } else {
      RoundTrap(u, pc, d);
    }
  }

  lemma RoundSched(u: View, pc: Pc, d: Todo)
    requires Guard(u, pc, d) && !d.ins.Panics? && !d.ins.Resume? && !d.ins.Switch? && u.me < 0 && pc.InSched?
    ensures RoundStep(u, pc, d)
  {
  }

  lemma RoundWake(u: View, pc: Pc, d: Todo)
    requires Guard(u, pc, d) && !d.ins.Panics? && !d.ins.Resume? && !d.ins.Switch? && u.me < 0 && pc.InWake?
    ensures RoundStep(u, pc, d)
  {
  }

  lemma RoundTrap(u: View, pc: Pc, d: Todo)
    requires Guard(u, pc, d) && !d.ins.Panics? && !d.ins.Resume? && !d.ins.Switch? && u.me < 0
    requires pc.InTrap? || pc.InGive? || pc.InLeaf?
    ensures RoundStep(u, pc, d)
  {
  }

  /** Where a scheduler can be. */
  lemma SchedPlaces(n: nat, ko: nat, pc: Pc)
    requires PcOk(n, ko, -1, pc)
    ensures pc.InSched? || pc.InTrap? || pc.InGive? || pc.InLeaf? || pc.InWake?
    ensures pc.InSched? && !pc.p.PNext? ==> pc.j < n
  {
  }

  lemma SwitchAway(u: View, pc: Pc, d: Todo)
    requires Guard(u, pc, d) && u.me < 0 && (pc.InSched? || pc.InTrap? || pc.InGive? || pc.InLeaf? || pc.InWake?)
    ensures !d.ins.Switch?
  {
  }

  lemma Round1(s: State, t: State, c: nat)
    requires Inv(s) && Next(s, t) && c < |s.cpus|
    ensures |t.cpus| == |s.cpus| && |t.procs| == |s.procs|
    ensures var x, y := RoundTo(s.cpus[c].pc), RoundTo(t.cpus[c].pc);
            && (y <= x || (y == x + 1 && (Offered(s, c, x) || Offered(t, c, x))))
            && (y < x ==> s.cpus[c].pc == InSched(PNext, |s.procs|) && y == 0)
  {
    hide Inv, Apply, Fits, PcOk, Text, Legal, RoundTo, Offered;
    var e: nat, op, flip :| Step(s, t, e, op, flip);
    SteppedFrom(s, t, e, op, flip);
    InvShape(s);
    if e == c {
      RoundMine(s, t, c, Text(s, c, op, flip));
    } else {
      Elsewhere1(s, t, e, c);
    }
  }

  lemma RoundMine(s: State, t: State, c: nat, d: Todo)
    requires Base(s) && c < |s.cpus| && Legal(s, c, d) && Becomes(s, c, d, t) && Shape(t) && !d.ins.Panics?
    ensures var x, y := RoundTo(s.cpus[c].pc), RoundTo(t.cpus[c].pc);
            && (y <= x || (y == x + 1 && (Offered(s, c, x) || Offered(t, c, x))))
            && (y < x ==> s.cpus[c].pc == InSched(PNext, |s.procs|) && y == 0)
  {
    hide LockInv, DepthInv, HandlerInv, StatusInv, SchedInv, SameElsewhere, Onward, LockSteps, Guard, Holds, Depth,
      PcOk;
    assert CpuOk(s, c);
    var u, pc := ViewOf(s, c), ThreadPc(s, c);
    if s.cpus[c].on < 0 {
      SchedPlaces(|s.procs|, |s.ready|, pc);
      SwitchAway(u, pc, d);
      if d.ins.Resume? {
        ResumePc(u, pc, d);
      } else {
        RoundMoves(u, pc, d);
      }
    } else {
      ResumeSched(u, pc, d);
      ProcNotSched(|s.procs|, |s.ready|, s.cpus[c].on, pc);
    }
  }

  lemma ResumePc(u: View, pc: Pc, d: Todo)
    requires Guard(u, pc, d) && d.ins.Resume?
    ensures pc == InSched(PGo, d.ins.j)
  {
  }

  /** The scheduler of CPU c starts over. */
  predicate StartsOver(s: State, t: State, c: nat)
  {
    c < |s.cpus| && c < |t.cpus| && RoundTo(t.cpus[c].pc) < RoundTo(s.cpus[c].pc)
  }

  lemma {:induction false} RoundSoFar(states: seq<State>, c: nat, a: nat, b: nat, j: nat)
    requires Run(states) && a <= b < |states| && c < |states[a].cpus| && RoundTo(states[a].cpus[c].pc) == 0
    ensures |states[b].cpus| == |states[a].cpus|
    ensures j < RoundTo(states[b].cpus[c].pc) ==> exists m: nat :: a <= m <= b && Offered(states[m], c, j)
    decreases b
  {
    hide Init, Next, Inv, RoundTo, Offered;
    if a < b {
      RoundSoFar(states, c, a, b - 1, j);
      assert Next(states[b - 1], states[b - 1 + 1]);
      Reachable(states, b - 1);
      Round1(states[b - 1], states[b], c);
      if RoundTo(states[b - 1].cpus[c].pc) == j < RoundTo(states[b].cpus[c].pc) {
        assert Offered(states[b - 1], c, j) || Offered(states[b], c, j);
      }
    }
  }

  /** Between two starts of its round a scheduler passes no process over: it runs each, or sees that it is not RUNNABLE. */
  lemma SchedulerRounds(states: seq<State>, c: nat, a: nat, b: nat, j: nat)
    requires Run(states) && a < b && b + 1 < |states| && j < |states[b].procs|
    requires StartsOver(states[a], states[a + 1], c) && StartsOver(states[b], states[b + 1], c)
    ensures exists m: nat :: a < m <= b && Offered(states[m], c, j)
  {
    hide Init, Next, Inv, RoundTo, Offered;
    Reachable(states, a);
    Reachable(states, b);
    assert Next(states[a], states[a + 1]) && Next(states[b], states[b + 1]);
    Round1(states[a], states[a + 1], c);
    Round1(states[b], states[b + 1], c);
    RoundAtEnd(|states[b].procs|);
    RoundSoFar(states, c, a + 1, b, j);
  }

  lemma RoundAtEnd(n: nat)
    ensures RoundTo(InSched(PNext, n)) == n
  {
  }

  /** A scheduler that is not interrupted does not stay where it is. */
  lemma SchedulerMoves(s: State, t: State, c: nat, op: Op, flip: bool)
    requires IsReachable(s) && Step(s, t, c, op, flip) && !op.Trap? && c < |t.cpus|
    requires |s.procs| > 0 && s.cpus[c].on < 0 && s.cpus[c].pc.InSched?
    ensures t.cpus[c].pc != s.cpus[c].pc
  {
    hide IsReachable, Base, ForkInv, ParentInv, ObjectInv, LoneInv, ChildInv, KidInv, BornInv, LeavingInv, EntryInv,
      CountInv, Apply, Fits, PcOk, SameElsewhere, Onward, Guard, LockSteps;
    Stepped(s, t, c, op, flip);
  }
}
