/** How calls end: what wait, fork and the scheduler decide, and how states and parents of processes change, in every
    reachable state and over every run. */
module ProcCalls {
  import opened ProcState
  import opened ProcModel
  import opened ProcText
  import opened ProcInv
  import opened ProcLock
  import opened ProcFields
  import opened ProcStatus
  import opened ProcRuns
  import opened ProcTheorems

  /** What the lemmas about instructions ask for. */
  ghost predicate Stepping(s: State, t: State, c: nat, op: Op, flip: bool)
  {
    && Inv(s) && Shape(t) && c < |s.cpus|
    && var d := Text(s, c, op, flip); Legal(s, c, d) && Becomes(s, c, d, t) && !d.ins.Panics?
  }

  lemma Stepped(s: State, t: State, c: nat, op: Op, flip: bool)
    requires IsReachable(s) && Step(s, t, c, op, flip)
    ensures Stepping(s, t, c, op, flip)
  {
    hide Inv, IsReachable, Text, Fits, PcOk, Stepping;
    ReachableInv(s);
    SteppedFrom(s, t, c, op, flip);
  }

  lemma SteppedFrom(s: State, t: State, c: nat, op: Op, flip: bool)
    requires Inv(s) && Step(s, t, c, op, flip)
    ensures Stepping(s, t, c, op, flip)
  {
    hide Base, ForkInv, ParentInv, ObjectInv, LoneInv, ChildInv, KidInv, BornInv, LeavingInv, EntryInv, CountInv, Text,
      Legal, Fits, PcOk, Becomes, Apply;
    var d := Text(s, c, op, flip);
    InvShape(s);
    BaseQuiet(s, c);
    TextLegal(s, c, op, flip);
    NoPanicStep(s, c, d);
    PanicsPanic(s, c, d);
    ApplyBecomes(s, c, d);
    ShapeKept(s, c, d, t);
  }

  lemma PanicsPanic(s: State, c: nat, d: Todo)
    requires Shape(s) && c < |s.cpus| && Fits(|s.procs|, |s.ready|, s.cpus[c].on, d.ins, d.next)
    ensures d.ins.Panics? ==> Apply(s, c, d.ins, d.next).panic
  {
  }

  // ----- wait

  /** Whoever sleeps in wait, or is about to, has a child to wait for. */
  lemma SleeperHasChild(s: State, q: nat)
    requires IsReachable(s) && q < |s.procs|
    requires (s.procs[q].st == SLEEPING && s.procs[q].chan == Kid(q)) || Doomed(s.procs[q].pc, Kid(q))
    ensures exists j: nat :: j < |s.procs| && s.procs[j].parent == q
  {
    hide IsReachable, Base, ForkInv, ParentInv, ObjectInv, LoneInv, ChildInv, BornInv, LeavingInv, EntryInv, CountInv;
    ReachableInv(s);
    if s.procs[q].st == SLEEPING {
      SleepingIsAsleep(s, q);
    }
    assert KidOk(s, q);
  }

  /** After its scan wait returns -1 exactly when it was killed or nobody has it as parent, and otherwise goes to sleep on
      itself; no child is a zombie then. */
  lemma WaitDecides(s: State, t: State, c: nat, op: Op, flip: bool, me: nat, kids: bool)
    requires IsReachable(s) && Step(s, t, c, op, flip) && s.cpus[c].on == me && me < |t.procs|
    requires s.procs[me].pc == InWait(TNext, |s.procs|, kids)
    ensures t.procs[me].pc == InWait(TRel, 0, kids) <==> flip || forall j: nat | j < |s.procs| :: s.procs[j].parent != me
    ensures t.procs[me].pc == InSleep(ZLock, Kid(me), false) <==> !flip && exists j: nat :: j < |s.procs| && s.procs[j].parent == me
    ensures forall j: nat | j < |s.procs| && s.procs[j].parent == me :: s.procs[j].st != ZOMBIE
  {
    hide IsReachable, Base, ForkInv, ParentInv, ObjectInv, LoneInv, BornInv, LeavingInv, EntryInv, CountInv, Legal, Apply,
      Fits, PcOk, CpuAfter, SameElsewhere, Onward;
    Stepped(s, t, c, op, flip);
    InvShape(s);
    BaseQuiet(s, c);
    assert KidOk(s, me);
    assert t.procs[me] == Proc1(s, c, Text(s, c, op, flip), me);
    forall j: nat | j < |s.procs| && s.procs[j].parent == me
      ensures s.procs[j].st != ZOMBIE
    {
      assert ChildOk(s, me, j);
    }
  }

  /** What wait finds in a child's slot: a zombie is freed, once, and anything else left as it is. */
  lemma WaitTests(s: State, t: State, c: nat, op: Op, flip: bool, me: nat, j: nat, kids: bool)
    requires IsReachable(s) && Step(s, t, c, op, flip) && s.cpus[c].on == me && me < |t.procs| && !op.Leaf?
    requires s.procs[me].pc == InWait(TTest, j, kids)
    ensures j < |s.procs| && j < |t.procs| && s.procs[j].parent == me != j
    ensures s.procs[j].st == ZOMBIE ==>
              && t.procs[me].pc == InWait(TFreed, j, kids) && t.procs[j].st == UNUSED && t.procs[j].parent == -1
              && t.procs[j].reaps == s.procs[j].reaps + 1
    ensures s.procs[j].st != ZOMBIE ==> t.procs[me].pc == InWait(TSkip, j, kids) && t.procs[j] == s.procs[j]
  {
    hide IsReachable, Base, ForkInv, ObjectInv, LoneInv, KidInv, BornInv, LeavingInv, EntryInv, CountInv, Legal, Apply,
      Fits, PcOk, CpuAfter, SameElsewhere, Onward;
    Stepped(s, t, c, op, flip);
    InvShape(s);
    BaseQuiet(s, c);
    assert PcOk(|s.procs|, |s.ready|, me, InWait(TTest, j, kids));
    WaitSlot(|s.procs|, |s.ready|, me, j, kids);
    assert ChildOk(s, me, j) && ParentOk(s, j);
    assert t.procs[me] == Proc1(s, c, Text(s, c, op, flip), me);
    assert t.procs[j] == Proc1(s, c, Text(s, c, op, flip), j);
  }

  lemma WaitSlot(n: nat, ko: nat, me: nat, j: nat, kids: bool)
    requires PcOk(n, ko, me, InWait(TTest, j, kids))
    ensures j < n
  {
  }

  /** wait comes to its end only from a child it has freed, or from a scan that found none or found it killed. */
  lemma WaitEnds(s: State, t: State, c: nat, op: Op, flip: bool, me: nat)
    requires IsReachable(s) && Step(s, t, c, op, flip) && s.cpus[c].on == me && me < |t.procs|
    requires t.procs[me].pc.InWait? && t.procs[me].pc.t.TRel? && !(s.procs[me].pc.InWait? && s.procs[me].pc.t.TRel?)
    ensures var pc := s.procs[me].pc;
            && pc.InWait?
            && (pc.t.TFreed?
                || (pc.t.TNext? && pc.j == |s.procs| && (flip || forall j: nat | j < |s.procs| :: s.procs[j].parent != me)))
  {
    hide IsReachable, Base, ForkInv, ParentInv, ObjectInv, LoneInv, ChildInv, KidInv, BornInv, LeavingInv, EntryInv,
      CountInv, Apply, Fits, PcOk, CpuAfter, SameElsewhere, Onward, Text, Guard, LockSteps;
    Stepped(s, t, c, op, flip);
    InvShape(s);
    var d := Text(s, c, op, flip);
    assert t.procs[me] == Proc1(s, c, d, me);
    ResumeSched(ViewOf(s, c), s.procs[me].pc, d);
    ProcNotSched(|s.procs|, |s.ready|, me, s.procs[me].pc);
    EndMoves(ViewOf(s, c), s.procs[me].pc, d);
    if s.procs[me].pc.InWait? && s.procs[me].pc.t.TNext? {
      WaitDecides(s, t, c, op, flip, me, s.procs[me].pc.kids);
    }
  }

  lemma EndMoves(u: View, pc: Pc, d: Todo)
    requires Guard(u, pc, d) && !d.ins.Panics? && u.me >= 0 && !d.ins.Resume?
    requires d.next.InWait? && d.next.t.TRel?
    ensures pc.InWait? && (pc.t.TFreed? || (pc.t.TNext? && pc.j == u.n && d.next == InWait(TRel, 0, pc.kids)))
  {
  }

  // ----- fork

  /** At its end fork leaves a runnable child with a context to resume, its own and on no CPU. */
  lemma ForkedRunnable(s: State, i: nat, j: nat)
    requires IsReachable(s) && i < |s.procs| && s.procs[i].pc == InFork(FRel, j)
    ensures j < |s.procs| && j != i
    ensures var q := s.procs[j]; q.st == RUNNABLE && q.at == -1 && Saved(q.pc) && q.parent == i && q.maker == i
  {
    hide IsReachable, OnInv, LockInv, DepthInv, HandlerInv, SchedInv, ForkInv, ObjectInv, LoneInv, ChildInv,
      KidInv, LeavingInv, EntryInv, CountInv;
    ReachableInv(s);
    InvShape(s);
    assert PcOk(|s.procs|, |s.ready|, i, s.procs[i].pc);
    assert BornOk(s, i) && ProcOk(s, j) && ParentOk(s, j);
  }

  /** fork takes the first slot it finds UNUSED, and passes every other one over. */
  lemma ForkTests(s: State, t: State, c: nat, op: Op, flip: bool, me: nat, j: nat)
    requires IsReachable(s) && Step(s, t, c, op, flip) && s.cpus[c].on == me && me < |t.procs| && !op.Leaf?
    requires s.procs[me].pc == InFork(FTest, j)
    ensures j < |s.procs| && j < |t.procs|
    ensures s.procs[j].st == UNUSED ==>
              t.procs[me].pc == InFork(FCopy, j) && t.procs[j] == s.procs[j].(st := USED, pc := Fresh, maker := me)
    ensures s.procs[j].st != UNUSED ==> t.procs[me].pc == InFork(FSkip, j) && (j != me ==> t.procs[j] == s.procs[j])
  {
    hide IsReachable, LockInv, DepthInv, HandlerInv, SchedInv, ForkInv, ParentInv, ObjectInv, LoneInv, ChildInv, KidInv,
      BornInv, LeavingInv, EntryInv, CountInv, Apply, Fits, CpuAfter, SameElsewhere, Onward, Guard, LockSteps;
    Stepped(s, t, c, op, flip);
    InvShape(s);
    BaseQuiet(s, c);
    assert PcOk(|s.procs|, |s.ready|, me, InFork(FTest, j));
    assert CpuOk(s, c) && ProcOk(s, me);
    assert t.procs[me] == Proc1(s, c, Text(s, c, op, flip), me);
    assert t.procs[j] == Proc1(s, c, Text(s, c, op, flip), j);
  }

  /** Out of memory, the slot is UNUSED again; otherwise fork goes on with it. */
  lemma ForkCopies(s: State, t: State, c: nat, op: Op, flip: bool, me: nat, j: nat)
    requires IsReachable(s) && Step(s, t, c, op, flip) && s.cpus[c].on == me && me < |t.procs| && !op.Leaf?
    requires s.procs[me].pc == InFork(FCopy, j)
    ensures j < |s.procs| && j < |t.procs| && j != me && s.procs[j].st == USED && s.procs[j].parent == -1
    ensures flip ==> t.procs[me].pc == InFork(FFail, j) && t.procs[j] == s.procs[j].(st := UNUSED, chan := NoChan)
    ensures !flip ==> t.procs[me].pc == InFork(FWait, j) && t.procs[j] == s.procs[j]
  {
    hide IsReachable, LockInv, DepthInv, HandlerInv, SchedInv, ParentInv, ObjectInv, LoneInv, ChildInv, KidInv,
      BornInv, LeavingInv, EntryInv, CountInv, Apply, Fits, CpuAfter, SameElsewhere, Onward, Guard, LockSteps, StatusInv;
    Stepped(s, t, c, op, flip);
    InvShape(s);
    BaseQuiet(s, c);
    assert PcOk(|s.procs|, |s.ready|, me, InFork(FCopy, j));
    assert CpuOk(s, c) && ForkOk(s, me);
    assert t.procs[me] == Proc1(s, c, Text(s, c, op, flip), me);
    assert t.procs[j] == Proc1(s, c, Text(s, c, op, flip), j);
  }

  /** fork returns with a child, or after failing to copy into one, or past the last slot. */
  lemma ForkEnds(s: State, t: State, c: nat, op: Op, flip: bool, me: nat)
    requires IsReachable(s) && Step(s, t, c, op, flip) && s.cpus[c].on == me && me < |t.procs|
    requires s.procs[me].pc.InFork? && t.procs[me].pc.Idle?
    ensures var pc := s.procs[me].pc; pc.f.FRel? || pc.f.FFail? || pc == InFork(FNext, |s.procs|)
  {
    hide IsReachable, Base, ForkInv, ParentInv, ObjectInv, LoneInv, ChildInv, KidInv, BornInv, LeavingInv, EntryInv,
      CountInv, Apply, Fits, PcOk, CpuAfter, SameElsewhere, Onward, Text, Guard, LockSteps;
    Stepped(s, t, c, op, flip);
    InvShape(s);
    var d := Text(s, c, op, flip);
    assert t.procs[me] == Proc1(s, c, d, me);
    ResumeSched(ViewOf(s, c), s.procs[me].pc, d);
    ReturnMoves(ViewOf(s, c), s.procs[me].pc, d);
  }

  lemma ReturnMoves(u: View, pc: Pc, d: Todo)
    requires Guard(u, pc, d) && !d.ins.Panics? && pc.InFork? && d.next.Idle?
    ensures pc.f.FRel? || pc.f.FFail? || pc == InFork(FNext, u.n)
  {
  }

  /** The slots that a fork has passed over. */
  function PassedOver(pc: Pc): nat
  {
    var b := Under(pc);
    if !b.InFork? then 0 else if b.f.FNext? || b.f.FTest? then b.j else if b.f.FSkip? then b.j + 1 else 0
  }

  lemma PassesOver(u: View, pc: Pc, d: Todo)
    requires Guard(u, pc, d) && !d.ins.Panics? && !d.ins.Resume? && u.me >= 0
    ensures || PassedOver(d.next) <= PassedOver(pc)
            || (pc.InFork? && pc.f.FTest? && u.st != UNUSED && PassedOver(d.next) == PassedOver(pc) + 1 == pc.j + 1)
  {
    hide Guard, PassedOver;
    match pc
    case InFork(_, _) => PassesFork(u, pc, d);
    case InWake(_, _, _, _) => PassesWake(u, pc, d);
    case InTrap(_) => PassesTrap(u, pc, d);
    case InYield(_, _, _) => PassesTrap(u, pc, d);
    case InGive(_, _, _) => PassesTrap(u, pc, d);
    case InLeaf(_, _) => PassesTrap(u, pc, d);
    case _ => PassesNone(u, pc, d);
  }

  lemma PassesFork(u: View, pc: Pc, d: Todo)
    requires Guard(u, pc, d) && !d.ins.Panics? && !d.ins.Resume? && u.me >= 0 && pc.InFork?
    ensures || PassedOver(d.next) <= PassedOver(pc)
            || (pc.InFork? && pc.f.FTest? && u.st != UNUSED && PassedOver(d.next) == PassedOver(pc) + 1 == pc.j + 1)
  {
  }

  lemma PassesWake(u: View, pc: Pc, d: Todo)
    requires Guard(u, pc, d) && !d.ins.Panics? && !d.ins.Resume? && u.me >= 0 && pc.InWake?
    ensures PassedOver(d.next) <= PassedOver(pc)
  {
  }

  lemma PassesTrap(u: View, pc: Pc, d: Todo)
    requires Guard(u, pc, d) && !d.ins.Panics? && !d.ins.Resume? && u.me >= 0
    requires pc.InTrap? || pc.InYield? || pc.InGive? || pc.InLeaf?
    ensures PassedOver(d.next) <= PassedOver(pc)
  {
  }

  lemma PassesNone(u: View, pc: Pc, d: Todo)
    requires Guard(u, pc, d) && !d.ins.Panics? && !d.ins.Resume? && u.me >= 0
    requires !pc.InFork? && !pc.InWake? && !pc.InTrap? && !pc.InYield? && !pc.InGive? && !pc.InLeaf?
    ensures PassedOver(d.next) <= PassedOver(pc)
  {
  }

  /** Process p's fork is at slot j and finds it taken. */
  predicate FindsTaken(s: State, p: nat, j: nat)
  {
    p < |s.procs| && j < |s.procs| && s.procs[p].pc == InFork(FTest, j) && s.procs[j].st != UNUSED
  }

  lemma PassStep(s: State, t: State, p: nat)
    requires Inv(s) && Next(s, t) && p < |s.procs|
    ensures |t.procs| == |s.procs|
    ensures || PassedOver(t.procs[p].pc) <= PassedOver(s.procs[p].pc)
            || (FindsTaken(s, p, PassedOver(s.procs[p].pc)) && PassedOver(t.procs[p].pc) == PassedOver(s.procs[p].pc) + 1)
  {
    hide Base, ForkInv, ParentInv, ObjectInv, LoneInv, ChildInv, KidInv, BornInv, LeavingInv, EntryInv, CountInv, Apply,
      Fits, PcOk, CpuAfter, SameElsewhere, Onward, Text, Guard, LockSteps, PassedOver;
    var c: nat, op, flip :| Step(s, t, c, op, flip);
    SteppedFrom(s, t, c, op, flip);
    InvShape(s);
    var d := Text(s, c, op, flip);
    assert t.procs[p] == Proc1(s, c, d, p);
    FreshPasses();
    if p == s.cpus[c].on {
      ResumeSched(ViewOf(s, c), s.procs[p].pc, d);
      ProcNotSched(|s.procs|, |s.ready|, p, s.procs[p].pc);
      PassesOver(ViewOf(s, c), s.procs[p].pc, d);
    }
  }

  lemma FreshPasses()
    ensures PassedOver(Fresh) == 0
  {
  }

  /** fork gives up only past the last slot, having found every slot taken since it was called. */
  lemma ForkGivesUp(states: seq<State>, p: nat, a: nat, b: nat, j: nat)
    requires Run(states) && a <= b < |states| && p < |states[a].procs| == |states[b].procs| && j < |states[b].procs|
    requires states[a].procs[p].pc.Idle? && states[b].procs[p].pc == InFork(FNext, |states[b].procs|)
    ensures exists m: nat :: a <= m < b && FindsTaken(states[m], p, j)
  {
    PassedTaken(states, p, a, b, j);
  }

  lemma {:induction false} PassedTaken(states: seq<State>, p: nat, a: nat, b: nat, j: nat)
    requires Run(states) && a <= b < |states| && p < |states[a].procs| && PassedOver(states[a].procs[p].pc) == 0
    ensures |states[b].procs| == |states[a].procs|
    ensures j < PassedOver(states[b].procs[p].pc) ==> exists m: nat :: a <= m < b && FindsTaken(states[m], p, j)
    decreases b
  {
    hide Init, Next, Inv, PassedOver, FindsTaken;
    if a < b {
      PassedTaken(states, p, a, b - 1, j);
      assert Next(states[b - 1], states[b - 1 + 1]);
      Reachable(states, b - 1);
      PassStep(states[b - 1], states[b], p);
      if PassedOver(states[b - 1].procs[p].pc) == j < PassedOver(states[b].procs[p].pc) {
        assert a <= b - 1 < b && FindsTaken(states[b - 1], p, j);
      }
    }
  }
}
