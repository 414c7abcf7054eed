/** What the invariants of ProcInv mean for the kernel: hand-off, locks, sleep and wakeup, exit and wait. */
module ProcTheorems {
  import opened ProcState
  import opened ProcModel
  import opened ProcText
  import opened ProcInv
  import opened ProcLock
  import opened ProcFields
  import opened ProcStatus
  import opened ProcRuns

  /** s is a state of some run. */
  ghost predicate IsReachable(s: State)
  {
    exists states: seq<State>, k: nat :: Run(states) && k < |states| && states[k] == s
  }

  lemma ReachableInv(s: State)
    requires IsReachable(s)
    ensures Inv(s)
  {
    hide Inv, Run;
    var states: seq<State>, k: nat :| Run(states) && k < |states| && states[k] == s;
    Reachable(states, k);
  }

  // ----- Scheduler hand-off

  /** No panic of acquire, release, pop_off, sched or exit is reachable. */
  lemma NeverPanics(s: State)
    requires IsReachable(s)
    ensures !s.panic
  {
    hide IsReachable;
    ReachableInv(s);
    InvShape(s);
  }

  /** A process is in the registers of at most one CPU, and c->p names it there. */
  lemma OneCpuPerProcess(s: State, c: nat, d: nat)
    requires IsReachable(s) && c < |s.cpus| && d < |s.cpus|
    ensures s.cpus[c].on >= 0 ==> s.cpus[c].cur == s.cpus[c].on
    ensures s.cpus[c].on >= 0 && s.cpus[c].on == s.cpus[d].on ==> c == d
  {
    hide IsReachable, LockInv, DepthInv, HandlerInv, StatusInv, SchedInv, ForkInv, ParentInv, ObjectInv, LoneInv,
      ChildInv, KidInv, BornInv, LeavingInv, EntryInv, CountInv;
    ReachableInv(s);
    assert CpuOk(s, c) && CpuOk(s, d);
  }

  /** The scheduler resumes a process only after its context was saved (or set up by fork), and no other CPU has it. */
  lemma ResumedOnlyWhenSaved(s: State, c: nat, op: Op, flip: bool, j: nat)
    requires IsReachable(s) && Shape(s) && c < |s.cpus| && Text(s, c, op, flip).ins == Resume(j)
    ensures j < |s.procs| && s.procs[j].at == -1 && Saved(s.procs[j].pc) && s.procs[j].st == RUNNING
  {
    hide IsReachable, Text, LockInv, DepthInv, HandlerInv, StatusInv, SchedInv, ForkInv, ParentInv, ObjectInv,
      LoneInv, ChildInv, KidInv, BornInv, LeavingInv, EntryInv, CountInv, Guard;
    ReachableInv(s);
    InvShape(s);
    BaseQuiet(s, c);
    TextLegal(s, c, op, flip);
    BirthAndResume(s, c, Text(s, c, op, flip));
  }

  /** The locks a CPU holds, by the cpu fields. */
  ghost function HeldBy(s: State, c: nat): set<Lock>
  {
    set l | l in s.held && s.held[l] == c
  }

  /** noff is the number of locks the CPU holds, and interrupts are off while it holds any. */
  lemma NoffCountsLocks(s: State, c: nat)
    requires IsReachable(s) && c < |s.cpus|
    ensures s.cpus[c].noff == |HeldBy(s, c)| && (s.cpus[c].noff > 0 ==> !s.cpus[c].sie)
  {
    hide IsReachable, OnInv, StatusInv, SchedInv, ForkInv, ParentInv, ObjectInv, LoneInv, ChildInv, KidInv, BornInv,
      LeavingInv, EntryInv, CountInv, Holds, Depth, PcOk, LocksAt;
    ReachableInv(s);
    var me, pc := s.cpus[c].on, ThreadPc(s, c);
    var locks := LocksAt(|s.procs|, |s.ready|, me, pc);
    forall l
      ensures l in locks <==> l in HeldBy(s, c)
    {
      assert Holds(me, pc, l) <==> l in s.held && s.held[l] == c;
    }
    assert locks == HeldBy(s, c);
  }

  /** The table of held locks as a set, with as many elements as Depth says. */
  ghost function LocksAt(n: nat, ko: nat, me: int, pc: Pc): (r: set<Lock>)
    requires PcOk(n, ko, me, pc)
    ensures forall l :: l in r <==> Holds(me, pc, l)
    ensures |r| == Depth(pc)
  {
    match pc
    case InSleep(_, _, _) => LocksOfSleep(n, ko, me, pc)
    case InWake(_, _, _, _) => LocksOfWake(n, ko, me, pc)
    case InExit(_, _) => LocksOfCall(n, ko, me, pc)
    case InWait(_, _, _) => LocksOfCall(n, ko, me, pc)
    case InFork(_, _) => LocksOfCall(n, ko, me, pc)
    case InLeaf(k, b) => WithLeaf(n, ko, me, k, b)
    case _ => LocksOfOther(n, ko, me, pc)
  }

  ghost function LocksOfSleep(n: nat, ko: nat, me: int, pc: Pc): (r: set<Lock>)
    requires PcOk(n, ko, me, pc) && pc.InSleep?
    ensures forall l :: l in r <==> Holds(me, pc, l)
    ensures |r| == Depth(pc)
  {
    var z, ch := pc.z, pc.ch;
    if z.ZLock? then {LockOf(ch)} else if z.ZDrop? then {LockOf(ch), Own(me)} else if z.ZAgain? then {} else {Own(me)}
  }

  ghost function LocksOfWake(n: nat, ko: nat, me: int, pc: Pc): (r: set<Lock>)
    requires PcOk(n, ko, me, pc) && pc.InWake?
    ensures forall l :: l in r <==> Holds(me, pc, l)
    ensures |r| == Depth(pc)
  {
    var w, j, ret := pc.w, pc.j, pc.ret;
    if ret.ToIsr? then (if w.KNext? then {} else {S(j)}) else if w.KNext? then {RetLock(ret)} else {RetLock(ret), S(j)}
  }

  ghost function LocksOfCall(n: nat, ko: nat, me: int, pc: Pc): (r: set<Lock>)
    requires PcOk(n, ko, me, pc) && (pc.InExit? || pc.InWait? || pc.InFork?)
    ensures forall l :: l in r <==> Holds(me, pc, l)
    ensures |r| == Depth(pc)
  {
    match pc
    case InExit(e, _) =>
      if e.EReparent? || e.ELock? then {W} else if e.EZombie? || e.EDrop? then {W, Own(me)} else {Own(me)}
    case InWait(t, j, _) => if t.TNext? || t.TRel? then {W} else {W, S(j)}
    case InFork(f, j) =>
      if f.FNext? || f.FWait? || f.FLock? then {} else if f.FParent? || f.FDrop? then {W} else {S(j)}
  }

  ghost function LocksOfOther(n: nat, ko: nat, me: int, pc: Pc): (r: set<Lock>)
    requires PcOk(n, ko, me, pc) && !pc.InSleep? && !pc.InWake? && !pc.InExit? && !pc.InWait? && !pc.InFork? && !pc.InLeaf?
    ensures forall l :: l in r <==> Holds(me, pc, l)
    ensures |r| == Depth(pc)
  {
    match pc
    case Idle => {}
    case Fresh => {Own(me)}
    case InTrap(_) => {}
    case InYield(_, _, _) => {Own(me)}
    case InUse(_, k) => {O(k)}
    case InGive(_, k, _) => {O(k)}
    case InSched(p, j) => if p.PNext? then {} else {S(j)}
  }

  /** An innermost lock and those of the place it is taken at. */
  ghost function WithLeaf(n: nat, ko: nat, me: int, k: nat, b: Pc): (r: set<Lock>)
    requires PcOk(n, ko, me, InLeaf(k, b))
    ensures forall l :: l in r <==> Holds(me, InLeaf(k, b), l)
    ensures |r| == Depth(InLeaf(k, b))
  {
    LeafLocks(me, b, k);
    {L(k)} + if b.InWait? || b.InFork? then LocksOfCall(n, ko, me, b) else LocksOfOther(n, ko, me, b)
  }

  /** Where an interrupt can find a thread.  In fork and in sleep's return too, interrupts may be on. */
  lemma InterruptPlaces(s: State, c: nat)
    requires IsReachable(s) && Shape(s) && c < |s.cpus| && s.cpus[c].sie
    ensures var pc := ThreadPc(s, c);
            || pc.Idle? || (pc.InSleep? && pc.z.ZAgain?) || (pc.InFork? && (pc.f.FNext? || pc.f.FWait? || pc.f.FLock?))
            || (pc.InSched? && pc.p.PNext?)
  {
    hide IsReachable, Inv, PcOk;
    ReachableInv(s);
    InvShape(s);
    BaseQuiet(s, c);
  }

  /** The interrupt setting a process had when it took its first lock is back when it drops the last one, even if
      sched moved it to another CPU in between; only a process's first return, through forkret, has none. */
  lemma SettingRestored(s: State, c: nat, op: Op, flip: bool)
    requires IsReachable(s) && Shape(s) && c < |s.cpus| && s.cpus[c].on >= 0
    requires Text(s, c, op, flip).ins.Release? && s.cpus[c].noff == 1 && !ThreadPc(s, c).Fresh?
    ensures var d := Text(s, c, op, flip);
            && Fits(|s.procs|, |s.ready|, s.cpus[c].on, d.ins, d.next)
            && var t := Apply(s, c, d.ins, d.next);
               c < |t.cpus| && t.cpus[c].noff == 0 && t.cpus[c].sie == s.procs[s.cpus[c].on].entry
  {
    hide IsReachable, Text, LockInv, StatusInv, SchedInv, ForkInv, ParentInv, ObjectInv, LoneInv, ChildInv,
      KidInv, BornInv, LeavingInv, CountInv, Guard, Depth, Holds, Apply, PcOk, SameElsewhere;
    ReachableInv(s);
    InvShape(s);
    BaseQuiet(s, c);
    TextLegal(s, c, op, flip);
    var d := Text(s, c, op, flip);
    NoPanicStep(s, c, d);
    CpuFields(s, c, d);
    StepFacts(s, c, d);
    assert CpuOk(s, c) && EntryOk(s, s.cpus[c].on);
    EntryMoves(ViewOf(s, c), ThreadPc(s, c), d);
  }

  // ----- No deadlock

  /** The order in which locks nest: an object's lock or wait_lock, then a process lock, then one of the innermost locks. */
  function Rank(l: Lock): nat { if l.S? then 1 else if l.L? then 2 else 0 }

  /** A thread takes locks in that order. */
  lemma LockOrder(u: View, pc: Pc, d: Todo, l: Lock)
    requires Guard(u, pc, d) && d.ins.Acquire? && LockStep(u.me, pc, d, d.ins.l) && Holds(u.me, pc, l)
    ensures Rank(l) < Rank(d.ins.l)
  {
    hide Guard, LockStep, Rank;
    match pc
    case InFork(_, _) => OrderFork(u, pc, d, l);
    case InWait(_, _, _) => OrderWait(u, pc, d, l);
    case InSleep(_, _, _) => OrderSleep(u, pc, d, l);
    case InWake(_, _, _, _) => OrderWake(u, pc, d, l);
    case _ => OrderOther(u, pc, d, l);
  }

  lemma OrderFork(u: View, pc: Pc, d: Todo, l: Lock)
    requires Guard(u, pc, d) && d.ins.Acquire? && LockStep(u.me, pc, d, d.ins.l) && Holds(u.me, pc, l) && pc.InFork?
    ensures Rank(l) < Rank(d.ins.l)
  {
  }

  lemma OrderWait(u: View, pc: Pc, d: Todo, l: Lock)
    requires Guard(u, pc, d) && d.ins.Acquire? && LockStep(u.me, pc, d, d.ins.l) && Holds(u.me, pc, l) && pc.InWait?
    ensures Rank(l) < Rank(d.ins.l)
  {
  }

  lemma OrderSleep(u: View, pc: Pc, d: Todo, l: Lock)
    requires Guard(u, pc, d) && d.ins.Acquire? && LockStep(u.me, pc, d, d.ins.l) && Holds(u.me, pc, l) && pc.InSleep?
    ensures Rank(l) < Rank(d.ins.l)
  {
  }

  lemma OrderWake(u: View, pc: Pc, d: Todo, l: Lock)
    requires Guard(u, pc, d) && d.ins.Acquire? && LockStep(u.me, pc, d, d.ins.l) && Holds(u.me, pc, l) && pc.InWake?
    ensures Rank(l) < Rank(d.ins.l)
  {
  }

  lemma OrderOther(u: View, pc: Pc, d: Todo, l: Lock)
    requires Guard(u, pc, d) && d.ins.Acquire? && LockStep(u.me, pc, d, d.ins.l) && Holds(u.me, pc, l)
    requires !pc.InFork? && !pc.InWait? && !pc.InSleep? && !pc.InWake?
    ensures Rank(l) < Rank(d.ins.l)
  {
  }

  /** What each CPU does next where the text leaves it open. */
  datatype Choice = Choice(op: nat -> Op, flip: nat -> bool)

  function NextOf(s: State, c: nat, x: Choice): Instr
    requires Shape(s) && c < |s.cpus|
  {
    Text(s, c, x.op(c), x.flip(c)).ins
  }

  /** CPU c waits for a lock that CPU e holds. */
  ghost predicate Waits(s: State, c: nat, x: Choice, e: nat)
    requires Shape(s) && c < |s.cpus|
  {
    var ins := NextOf(s, c, x);
    ins.Acquire? && ins.l in s.held && s.held[ins.l] == e
  }

  /** Waiting has depth at most three: the holder at the end of a chain of three is one of an innermost lock and goes on. */
  lemma HoldersGoOn(s: State, x: Choice, c: nat, e: nat, f: nat, g: nat)
    requires IsReachable(s) && Shape(s) && c < |s.cpus| && e < |s.cpus| && f < |s.cpus| && g < |s.cpus|
    requires Waits(s, c, x, e) && Waits(s, e, x, f) && Waits(s, f, x, g)
    ensures NextOf(s, f, x).l.L? && Enabled(s, g, NextOf(s, g, x))
  {
    hide IsReachable, Inv, Text, Guard, Holds, Depth, PcOk, LockStep, OnInv, StatusInv, SchedInv, HandlerInv;
    ReachableInv(s);
    InvShape(s);
    HolderThere(s, e, NextOf(s, c, x).l);
    WaiterHolds(s, e, x, NextOf(s, c, x).l);
    HolderThere(s, f, NextOf(s, e, x).l);
    WaiterHolds(s, f, x, NextOf(s, e, x).l);
    HolderThere(s, g, NextOf(s, f, x).l);
    WaiterHolds(s, g, x, NextOf(s, f, x).l);
  }

  lemma HolderThere(s: State, e: nat, l: Lock)
    requires Base(s) && e < |s.cpus| && l in s.held && s.held[l] == e
    ensures Holds(s.cpus[e].on, ThreadPc(s, e), l)
  {
    hide Holds, Depth, PcOk, OnInv, StatusInv, SchedInv, DepthInv, HandlerInv;
    assert Holds(s.cpus[e].on, ThreadPc(s, e), l) <==> l in s.held && s.held[l] == e;
  }

  /** A thread that holds l takes only locks that come after it. */
  lemma WaiterHolds(s: State, e: nat, x: Choice, l: Lock)
    requires Base(s) && e < |s.cpus| && Holds(s.cpus[e].on, ThreadPc(s, e), l)
    ensures NextOf(s, e, x).Acquire? ==> Rank(l) < Rank(NextOf(s, e, x).l)
  {
    hide Text, Guard, Holds, Depth, PcOk, LockStep, OnInv, LockInv, DepthInv, StatusInv, SchedInv, HandlerInv, Quiet;
    var d := Text(s, e, x.op(e), x.flip(e));
    BaseQuiet(s, e);
    GuardText(s, e, x.op(e), x.flip(e));
    if d.ins.Acquire? {
      LocksText(s, e, x.op(e), x.flip(e), d.ins.l);
      LockOrder(ViewOf(s, e), ThreadPc(s, e), d, l);
    }
  }

  /** In every reachable state some CPU can execute its next instruction, whatever each one does where the text leaves it
      open: waiting for locks never closes a circle. */
  lemma NoDeadlock(s: State, x: Choice)
    requires IsReachable(s) && Shape(s) && |s.cpus| > 0
    ensures exists c: nat :: c < |s.cpus| && Enabled(s, c, NextOf(s, c, x))
  {
    hide IsReachable, Inv, NextOf, PcOk;
    ReachableInv(s);
    InvShape(s);
    var c: nat := 0;
    if !Enabled(s, c, NextOf(s, c, x)) {
      var e := Holder(s, c, x);
      if !Enabled(s, e, NextOf(s, e, x)) {
        var f := Holder(s, e, x);
        if !Enabled(s, f, NextOf(s, f, x)) {
          HoldersGoOn(s, x, c, e, f, Holder(s, f, x));
        }
      }
    }
  }

  /** The CPU that CPU c waits for. */
  ghost function Holder(s: State, c: nat, x: Choice): (e: nat)
    requires Base(s) && c < |s.cpus| && !Enabled(s, c, NextOf(s, c, x))
    ensures e < |s.cpus| && Waits(s, c, x, e)
  {
    HeldInRange(s, NextOf(s, c, x).l);
    s.held[NextOf(s, c, x).l]
  }

  lemma HeldInRange(s: State, l: Lock)
    requires Base(s) && l in s.held
    ensures s.held[l] < |s.cpus|
  {
    hide Holds, Depth, PcOk, OnInv, StatusInv, SchedInv, DepthInv, HandlerInv;
  }

  // ----- No lost wakeup

  /** While nobody holds an object's lock, a process that sleeps on it, or is on its way there, finds it not ready:
      no wakeup was missed.  While somebody does, a missing wakeup is still to come from the holder. */
  lemma NoLostWakeup(s: State, i: nat, k: nat)
    requires IsReachable(s) && i < |s.procs| && k < |s.ready| && k !in s.bare && Asleep(s.procs[i], Obj(k)) && s.ready[k]
    ensures O(k) in s.held && Shape(s) && Coming(s, O(k), Obj(k), i)
  {
    hide IsReachable, Base, ForkInv, ParentInv, ChildInv, LoneInv, KidInv, BornInv, LeavingInv, EntryInv, CountInv, Asleep, Coming;
    ReachableInv(s);
    InvShape(s);
    assert ObjectOk(s, i, k);
    ComingHeld(s, O(k), Obj(k), i);
  }

  /** On one CPU the same holds of every object, also of those that the disk's handler makes ready without a lock: whoever is
      asleep on a ready object will be reached by the wakeup that the CPU is in. */
  lemma OneCpuWakes(s: State, i: nat, k: nat)
    requires IsReachable(s) && |s.cpus| == 1 && i < |s.procs| && k < |s.ready| && Asleep(s.procs[i], Obj(k)) && s.ready[k]
    ensures Shape(s) && Nears(ThreadPc(s, 0), Obj(k), i)
  {
    hide IsReachable, Base, ForkInv, ParentInv, ObjectInv, ChildInv, KidInv, BornInv, LeavingInv, EntryInv, CountInv, Asleep, Nears;
    ReachableInv(s);
    InvShape(s);
    assert LoneOk(s, i, k);
  }

  lemma ComingHeld(s: State, l: Lock, ch: Chan, i: nat)
    requires Shape(s) && Coming(s, l, ch, i)
    ensures l in s.held
  {
  }

  /** The processes that the table calls SLEEPING are the ones the theorem speaks of. */
  lemma SleepingIsAsleep(s: State, i: nat)
    requires IsReachable(s) && i < |s.procs| && s.procs[i].st == SLEEPING
    ensures Asleep(s.procs[i], s.procs[i].chan)
  {
    hide IsReachable, OnInv, LockInv, DepthInv, HandlerInv, SchedInv, ForkInv, ParentInv, ObjectInv, LoneInv,
      ChildInv, KidInv, BornInv, LeavingInv, EntryInv, CountInv;
    ReachableInv(s);
    assert ProcOk(s, i) && ChanAt(s.procs[i].pc, s.procs[i].chan);
  }

  // ----- Exit and wait

  /** A parent is never ZOMBIE or UNUSED, in whatever state wait_lock is. */
  lemma ParentAlive(s: State, j: nat)
    requires IsReachable(s) && j < |s.procs| && s.procs[j].parent >= 0
    ensures s.procs[j].parent < |s.procs| && s.procs[j].parent != j
    ensures var q := s.procs[s.procs[j].parent]; q.st != ZOMBIE && q.st != UNUSED && q.st != USED
  {
    hide IsReachable, OnInv, LockInv, DepthInv, HandlerInv, SchedInv, ForkInv, StatusInv, ObjectInv, LoneInv,
      ChildInv, KidInv, BornInv, LeavingInv, EntryInv, CountInv, PcOk;
    ReachableInv(s);
    assert ParentOk(s, j);
  }

  /** While wait_lock is free, no parent asleep in wait has a zombie child. */
  lemma NoZombieOfSleeper(s: State, q: nat, j: nat)
    requires IsReachable(s) && q < |s.procs| && j < |s.procs| && W !in s.held
    requires s.procs[q].st == SLEEPING && s.procs[q].chan == Kid(q)
    ensures !(s.procs[j].parent == q && s.procs[j].st == ZOMBIE)
  {
    hide IsReachable, Base, ForkInv, ParentInv, ObjectInv, LoneInv, KidInv, BornInv, LeavingInv, EntryInv, CountInv, Asleep, Coming;
    ReachableInv(s);
    InvShape(s);
    SleepingIsAsleep(s, q);
    assert ChildOk(s, q, j);
    if ZombieOf(s, q, j) {
      ComingHeld(s, W, Kid(q), q);
    }
  }

  /** wait reaps its own child, once per exit, and only after the dead process has left its CPU for good. */
  lemma ReapedOnce(s: State, c: nat, op: Op, flip: bool, j: nat)
    requires IsReachable(s) && Shape(s) && c < |s.cpus| && Text(s, c, op, flip).ins == Do(Reap(j))
    ensures j < |s.procs| && s.cpus[c].on >= 0 && s.procs[j].parent == s.cpus[c].on
    ensures s.procs[j].st == ZOMBIE && s.procs[j].at == -1 && IsDead(s.procs[j].pc)
    ensures s.procs[j].exits == s.procs[j].reaps + 1
  {
    hide IsReachable, LockInv, DepthInv, HandlerInv, SchedInv, ForkInv, ObjectInv, LoneInv, KidInv, BornInv, LeavingInv, EntryInv,
      Text, Holds, PcOk, Guard;
    ReachableInv(s);
    InvShape(s);
    BaseQuiet(s, c);
    TextLegal(s, c, op, flip);
    var d := Text(s, c, op, flip);
    assert ProcOk(s, j) && CountOk(s.procs[j]) && CpuOk(s, c);
    ReapHolds(ViewOf(s, c), ThreadPc(s, c), d, j);
    assert ChildOk(s, s.cpus[c].on, j) && ParentOk(s, j);
    ZombieElsewhere(s, c, j);
  }

  lemma ReapHolds(u: View, pc: Pc, d: Todo, j: nat)
    requires Guard(u, pc, d) && d.ins == Do(Reap(j))
    ensures Holds(u.me, pc, S(j)) && u.me >= 0 && Tests(pc, j) && SlotOf(pc) == j && u.st == ZOMBIE
  {
  }

  /** The zombie under wait's hands is on no CPU: one that still is holds its own lock. */
  lemma ZombieElsewhere(s: State, c: nat, j: nat)
    requires Base(s) && c < |s.cpus| && j < |s.procs| && s.procs[j].st == ZOMBIE && s.cpus[c].on != j
    requires Holds(s.cpus[c].on, ThreadPc(s, c), S(j))
    ensures s.procs[j].at < 0
  {
    hide Depth, DepthInv, HandlerInv, LockInv, PcOk, SchedInv, Holds;
    assert ProcOk(s, j);
    if s.procs[j].at >= 0 {
      LeavingHolds(j, s.procs[j].pc);
      OneHolder(s, c, s.procs[j].at, S(j));
    }
  }
}
