/** The completion that a second CPU lets the kernel miss: virtio_disk_isr wakes without the lock that sleep is called under. */
module ProcLost {
  import opened ProcState
  import opened ProcModel
  import opened ProcTheorems

  /** Process i is SLEEPING on object k, which is ready, and no CPU is in a wakeup for it. */
  ghost predicate Lost(s: State, i: nat, k: nat)
  {
    && Shape(s) && i < |s.procs| && k < |s.ready| && s.procs[i].st == SLEEPING && s.procs[i].chan == Obj(k) && s.ready[k]
    && forall c: nat | c < |s.cpus| :: !(ThreadPc(s, c).InWake? && ThreadPc(s, c).ch == Obj(k))
  }

  ghost predicate LosesOn(s: State, m: nat)
  {
    IsReachable(s) && |s.cpus| == m && exists i: nat, k: nat :: Lost(s, i, k)
  }

  // ----- Runs, and idle CPUs beside them

  lemma Leads(s: State, t: State)
    requires IsReachable(s) && Next(s, t)
    ensures IsReachable(t)
  {
    hide Next, Init;
    var states: seq<State>, k: nat :| Run(states) && k < |states| && states[k] == s;
    var more := states[..k + 1] + [t];
    forall i | 0 <= i < |more| - 1
      ensures Next(more[i], more[i + 1])
    {
      if i < k {
        assert Next(states[i], states[i + 1]);
      }
    }
    assert Run(more) && more[k + 1] == t;
  }

  function Idling(n: nat): Cpu { Cpu(-1, -1, InSched(PNext, n), 0, false, false) }

  /** The same with more CPUs, which do nothing. */
  function Pad(s: State, m: nat): State
    requires |s.cpus| <= m
  {
    s.(cpus := s.cpus + seq(m - |s.cpus|, _ => Idling(|s.procs|)))
  }

  lemma PadAt(s: State, m: nat, c: nat)
    requires |s.cpus| <= m && c < |s.cpus|
    ensures |Pad(s, m).cpus| == m && Pad(s, m).cpus[c] == s.cpus[c]
  {
  }

  lemma PadShape(s: State, m: nat)
    requires Shape(s) && |s.cpus| <= m
    ensures Shape(Pad(s, m))
  {
    hide PcOk;
    IdlingOk(|s.procs|, |s.ready|);
  }

  lemma IdlingOk(n: nat, ko: nat)
    ensures PcOk(n, ko, -1, Idling(n).pc)
  {
  }

  lemma PadSetPc(s: State, m: nat, c: nat, pc: Pc)
    requires |s.cpus| <= m && c < |s.cpus| && s.cpus[c].on < |s.procs|
    ensures |Pad(s, m).cpus| == m && Pad(s, m).cpus[c] == s.cpus[c]
    ensures SetPc(Pad(s, m), c, pc) == Pad(SetPc(s, c, pc), m)
  {
    PadAt(s, m, c);
  }

  lemma PadLock(s: State, m: nat, c: nat, l: Lock)
    requires |s.cpus| <= m && c < |s.cpus| && s.cpus[c].on < |s.procs|
    ensures |Pad(s, m).cpus| == m && Pad(s, m).cpus[c] == s.cpus[c]
    ensures DoAcquire(Pad(s, m), c, l) == Pad(DoAcquire(s, c, l), m) && DoRelease(Pad(s, m), c, l) == Pad(DoRelease(s, c, l), m)
  {
    PadAt(s, m, c);
  }

  lemma PadWrite(s: State, m: nat, c: nat, w: Write)
    requires |s.cpus| <= m && c < |s.cpus| && WriteOk(|s.procs|, |s.ready|, w)
    ensures |Pad(s, m).cpus| == m && |DoWrite(s, c, w).cpus| == |s.cpus|
    ensures DoWrite(Pad(s, m), c, w) == Pad(DoWrite(s, c, w), m)
  {
    PadAt(s, m, c);
  }

  lemma PadSwitch(s: State, m: nat, c: nat, next: Pc, j: nat)
    requires |s.cpus| <= m && c < |s.cpus| && s.cpus[c].on < |s.procs| && j < |s.procs|
    ensures |Pad(s, m).cpus| == m && Pad(s, m).cpus[c] == s.cpus[c]
    ensures s.cpus[c].on >= 0 ==> |DoSwitch(s, c, next).cpus| == |s.cpus| && DoSwitch(Pad(s, m), c, next) == Pad(DoSwitch(s, c, next), m)
    ensures |DoResume(s, c, j).cpus| == |s.cpus| && DoResume(Pad(s, m), c, j) == Pad(DoResume(s, c, j), m)
  {
    PadAt(s, m, c);
  }

  lemma PadApply(s: State, m: nat, c: nat, ins: Instr, next: Pc)
    requires |s.cpus| <= m && c < |s.cpus| && s.cpus[c].on < |s.procs| && Fits(|s.procs|, |s.ready|, s.cpus[c].on, ins, next)
    ensures |Apply(s, c, ins, next).cpus| == |s.cpus| && |Pad(s, m).cpus| == m && Pad(s, m).cpus[c] == s.cpus[c]
    ensures Apply(Pad(s, m), c, ins, next) == Pad(Apply(s, c, ins, next), m)
  {
    hide PcOk, SetPc, DoWrite, DoAcquire, DoRelease, DoSwitch, DoResume, WriteOk;
    PadAt(s, m, c);
    ProcFields.Sizes(s, c, Todo(ins, next));
    match ins
    case Acquire(l) =>
      PadLock(s, m, c, l);
      ProcFields.SizesLock(s, c, l);
      PadSetPc(DoAcquire(s, c, l), m, c, next);
    case Release(l) =>
      PadLock(s, m, c, l);
      ProcFields.SizesLock(s, c, l);
      PadSetPc(DoRelease(s, c, l), m, c, next);
    case Do(w) =>
      PadWrite(s, m, c, w);
      ProcFields.SizesWrite(s, c, w);
      PadSetPc(DoWrite(s, c, w), m, c, next);
    case Goto => PadSetPc(s, m, c, next);
    case Switch => PadSwitch(s, m, c, next, s.cpus[c].on);
    case Resume(j) => PadSwitch(s, m, c, next, j);
    case Panics =>
  }

  /** The text looks at nothing but the CPU itself and the processes. */
  lemma SameText(s: State, t: State, c: nat, op: Op, flip: bool)
    requires Shape(s) && Shape(t) && c < |s.cpus| && c < |t.cpus| && t.cpus[c] == s.cpus[c]
    requires t.procs == s.procs && t.ready == s.ready && t.bare == s.bare && t.init == s.init
    ensures Text(t, c, op, flip) == Text(s, c, op, flip)
  {
    hide PcOk, TextIdle, TextTrap, TextYield, TextUse, TextSleep, TextGive, TextWake, TextExit, TextWait, TextFork,
      TextSched;
  }

  lemma PadText(s: State, m: nat, c: nat, op: Op, flip: bool)
    requires Shape(s) && |s.cpus| <= m && c < |s.cpus|
    ensures Shape(Pad(s, m)) && |Pad(s, m).cpus| == m && Pad(s, m).cpus[c] == s.cpus[c]
    ensures Text(Pad(s, m), c, op, flip) == Text(s, c, op, flip)
  {
    hide PcOk, Text;
    PadAt(s, m, c);
    PadShape(s, m);
    SameText(s, Pad(s, m), c, op, flip);
  }

  lemma PadStep(s: State, t: State, m: nat, c: nat, op: Op, flip: bool)
    requires Step(s, t, c, op, flip) && |s.cpus| <= m
    ensures |t.cpus| == |s.cpus| && Step(Pad(s, m), Pad(t, m), c, op, flip)
  {
    hide PcOk, Text, Apply, Fits;
    PadText(s, m, c, op, flip);
    PadApply(s, m, c, Text(s, c, op, flip).ins, Text(s, c, op, flip).next);
  }

  lemma {:induction false} PadRun(states: seq<State>, k: nat, m: nat)
    requires Run(states) && k < |states| && |states[0].cpus| <= m
    ensures |states[k].cpus| == |states[0].cpus| && IsReachable(Pad(states[k], m))
  {
    hide IsReachable, Next, Init, Pad;
    if k == 0 {
      PadInit(states[0], m);
    } else {
      PadRun(states, k - 1, m);
      assert Next(states[k - 1], states[k - 1 + 1]);
      PadNext(states[k - 1], states[k], m);
      Leads(Pad(states[k - 1], m), Pad(states[k], m));
    }
  }

  lemma PadNext(s: State, t: State, m: nat)
    requires Next(s, t) && |s.cpus| <= m
    ensures |t.cpus| == |s.cpus| && Next(Pad(s, m), Pad(t, m))
  {
    hide Step, Pad;
    var c: nat, op, flip :| Step(s, t, c, op, flip);
    PadStep(s, t, m, c, op, flip);
  }

  lemma PadInit(s: State, m: nat)
    requires Init(s) && |s.cpus| <= m
    ensures IsReachable(Pad(s, m))
  {
    assert Init(Pad(s, m));
    Starts(Pad(s, m));
  }

  lemma Starts(s: State)
    requires Init(s)
    ensures IsReachable(s)
  {
    hide Init;
    assert Run([s]) && [s][0] == s;
  }

  lemma {:induction false} CpusKept(states: seq<State>, k: nat)
    requires Run(states) && k < |states|
    ensures |states[k].cpus| == |states[0].cpus|
  {
    hide Next, Init;
    if k > 0 {
      CpusKept(states, k - 1);
      assert Next(states[k - 1], states[k - 1 + 1]);
      PadNext(states[k - 1], states[k], |states[0].cpus|);
    }
  }

  /** What can be lost on some CPUs can be lost on more. */
  lemma PadLost(s: State, m: nat, i: nat, k: nat)
    requires IsReachable(s) && Lost(s, i, k) && |s.cpus| <= m
    ensures LosesOn(Pad(s, m), m)
  {
    PadReachable(s, m);
    StillLost(s, m, i, k);
  }

  lemma PadReachable(s: State, m: nat)
    requires IsReachable(s) && |s.cpus| <= m
    ensures IsReachable(Pad(s, m))
  {
    hide Run, Init, Pad;
    var states: seq<State>, e: nat :| Run(states) && e < |states| && states[e] == s;
    CpusKept(states, e);
    PadRun(states, e, m);
  }

  lemma StillLost(s: State, m: nat, i: nat, k: nat)
    requires Lost(s, i, k) && |s.cpus| <= m
    ensures Lost(Pad(s, m), i, k)
  {
    hide PcOk;
    PadShape(s, m);
    forall c: nat | c < m
      ensures !(ThreadPc(Pad(s, m), c).InWake? && ThreadPc(Pad(s, m), c).ch == Obj(k))
    {
      if c < |s.cpus| {
        PadAt(s, m, c);
        assert ThreadPc(Pad(s, m), c) == ThreadPc(s, c);
      }
    }
  }

  // ----- A run that loses

  function P(st: PState, chan: Chan, pc: Pc, at: int, entry: bool): Proc { Proc(st, chan, -1, pc, at, entry, -1, 0, 0) }
  function Awake(pc: Pc, noff: int, intena: bool, sie: bool): Cpu { Cpu(-1, -1, pc, noff, intena, sie) }
  function Runs(noff: int, intena: bool, sie: bool): Cpu { Cpu(0, 0, InSched(PAway, 0), noff, intena, sie) }
  function Two(p: Proc, a: Cpu, b: Cpu, held: map<Lock, nat>, ready: bool): State { State([p], [a, b], held, [ready], {0}, 0, false) }

  /** The second scheduler, with interrupts on before it has started its loop. */
  function Other(): Cpu { Awake(InSched(PNext, 1), 0, false, true) }
  function Trapped(): Cpu { Awake(InTrap(InSched(PNext, 1)), 0, false, false) }
  function Handling(w: WakeAt, j: nat, noff: int): Cpu { Awake(InWake(w, Obj(0), j, ToIsr(InSched(PNext, 1))), noff, false, false) }

  function Dozing(z: SleepAt, st: PState, chan: Chan): Proc { P(st, chan, InSleep(z, Obj(0), false), 0, true) }

  ghost predicate Goes(s: State, t: State, c: nat, op: Op, ins: Instr, next: Pc)
  {
    && Shape(s) && !s.panic && c < |s.cpus|
    && Text(s, c, op, false) == Todo(ins, next) && Enabled(s, c, ins) && Fits(|s.procs|, |s.ready|, s.cpus[c].on, ins, next)
    && t == Apply(s, c, ins, next)
  }

  lemma Go(s: State, t: State, c: nat, op: Op, ins: Instr, next: Pc)
    requires IsReachable(s) && Goes(s, t, c, op, ins, next)
    ensures IsReachable(t)
  {
    hide IsReachable, Shape, Text, Apply, Fits;
    assert Step(s, t, c, op, false);
    Leads(s, t);
  }

  // The first CPU starts the process, which finds the object not ready (Lossy9); the second one takes the interrupt, makes it
  // ready and finds nobody to wake (Lossy15); then the process goes to sleep.
  function Lossy0(): State { Two(P(RUNNABLE, NoChan, Fresh, -1, false), Awake(InSched(PNext, 1), 0, false, false), Other(), map[], false) }
  function Lossy1(): State { Two(P(RUNNABLE, NoChan, Fresh, -1, false), Awake(InSched(PNext, 0), 0, false, true), Other(), map[], false) }
  function Lossy2(): State { Two(P(RUNNABLE, NoChan, Fresh, -1, false), Awake(InSched(PTest, 0), 1, true, false), Other(), map[S(0) := 0], false) }
  function Lossy3(): State { Two(P(RUNNING, NoChan, Fresh, -1, false), Awake(InSched(PSet, 0), 1, true, false), Other(), map[S(0) := 0], false) }
  function Lossy4(): State { Two(P(RUNNING, NoChan, Fresh, -1, false), Cpu(-1, 0, InSched(PGo, 0), 1, true, false), Other(), map[S(0) := 0], false) }
  function Lossy5(): State { Two(P(RUNNING, NoChan, Fresh, 0, false), Runs(1, true, false), Other(), map[S(0) := 0], false) }
  function Lossy6(): State { Two(P(RUNNING, NoChan, Idle, 0, false), Runs(0, true, true), Other(), map[], false) }
  function Lossy7(): State { Two(P(RUNNING, NoChan, InUse(UArm, 0), 0, true), Runs(1, true, false), Other(), map[O(0) := 0], false) }
  function Lossy8(): State { Two(P(RUNNING, NoChan, InUse(UTest, 0), 0, true), Runs(1, true, false), Other(), map[O(0) := 0], false) }
  function Lossy9(): State { Two(Dozing(ZLock, RUNNING, NoChan), Runs(1, true, false), Other(), map[O(0) := 0], false) }
  function Lossy10(): State { Two(Dozing(ZLock, RUNNING, NoChan), Runs(1, true, false), Trapped(), map[O(0) := 0], false) }
  function Lossy11(): State { Two(Dozing(ZLock, RUNNING, NoChan), Runs(1, true, false), Handling(KNext, 0, 0), map[O(0) := 0], true) }
  function Lossy12(): State { Two(Dozing(ZLock, RUNNING, NoChan), Runs(1, true, false), Handling(KTest, 0, 1), map[O(0) := 0, S(0) := 1], true) }
  function Lossy13(): State { Two(Dozing(ZLock, RUNNING, NoChan), Runs(1, true, false), Handling(KRel, 0, 1), map[O(0) := 0, S(0) := 1], true) }
  function Lossy14(): State { Two(Dozing(ZLock, RUNNING, NoChan), Runs(1, true, false), Handling(KNext, 1, 0), map[O(0) := 0], true) }
  function Lossy15(): State { Two(Dozing(ZLock, RUNNING, NoChan), Runs(1, true, false), Trapped(), map[O(0) := 0], true) }
  function Lossy16(): State { Two(Dozing(ZDrop, RUNNING, NoChan), Runs(2, true, false), Trapped(), map[O(0) := 0, S(0) := 0], true) }
  function Lossy17(): State { Two(Dozing(ZChan, RUNNING, NoChan), Runs(1, true, false), Trapped(), map[S(0) := 0], true) }
  function Lossy18(): State { Two(Dozing(ZState, RUNNING, Obj(0)), Runs(1, true, false), Trapped(), map[S(0) := 0], true) }
  function Lossy19(): State { Two(Dozing(ZSched, SLEEPING, Obj(0)), Runs(1, true, false), Trapped(), map[S(0) := 0], true) }

  lemma Begins()
    ensures Init(Lossy0())
  {
  }

  lemma Goes0()
    ensures Goes(Lossy0(), Lossy1(), 0, Nothing, Do(Interrupts(true)), InSched(PNext, 0))
  {
  }

  lemma Goes1()
    ensures Goes(Lossy1(), Lossy2(), 0, Nothing, Acquire(S(0)), InSched(PTest, 0))
  {
  }

  lemma Goes2()
    ensures Goes(Lossy2(), Lossy3(), 0, Nothing, Do(Status(0, RUNNING)), InSched(PSet, 0))
  {
  }

  lemma Goes3()
    ensures Goes(Lossy3(), Lossy4(), 0, Nothing, Do(Current(0)), InSched(PGo, 0))
  {
  }

  lemma Goes4()
    ensures Goes(Lossy4(), Lossy5(), 0, Nothing, Resume(0), InSched(PAway, 0))
  {
  }

  lemma Goes5()
    ensures Goes(Lossy5(), Lossy6(), 0, Nothing, Release(S(0)), Idle)
  {
    assert Lossy5().held - {S(0)} == Lossy6().held;
  }

  lemma Goes6()
    ensures Goes(Lossy6(), Lossy7(), 0, Take(0), Acquire(O(0)), InUse(UArm, 0))
  {
  }

  lemma Goes7()
    ensures Goes(Lossy7(), Lossy8(), 0, Nothing, Do(Ready(0, false)), InUse(UTest, 0))
  {
  }

  lemma Goes8()
    ensures Goes(Lossy8(), Lossy9(), 0, Nothing, Goto, InSleep(ZLock, Obj(0), false))
  {
  }

  lemma Goes9()
    ensures Goes(Lossy9(), Lossy10(), 1, Trap, Do(Interrupts(false)), InTrap(InSched(PNext, 1)))
  {
  }

  lemma Goes10()
    ensures Goes(Lossy10(), Lossy11(), 1, Bare(0), Do(Ready(0, true)), InWake(KNext, Obj(0), 0, ToIsr(InSched(PNext, 1))))
  {
  }

  lemma Goes11()
    ensures Goes(Lossy11(), Lossy12(), 1, Nothing, Acquire(S(0)), InWake(KTest, Obj(0), 0, ToIsr(InSched(PNext, 1))))
  {
  }

  lemma Goes12()
    ensures Goes(Lossy12(), Lossy13(), 1, Nothing, Goto, InWake(KRel, Obj(0), 0, ToIsr(InSched(PNext, 1))))
  {
  }

  lemma Goes13()
    ensures Goes(Lossy13(), Lossy14(), 1, Nothing, Release(S(0)), InWake(KNext, Obj(0), 1, ToIsr(InSched(PNext, 1))))
  {
    assert Lossy13().held - {S(0)} == Lossy14().held;
  }

  lemma Goes14()
    ensures Goes(Lossy14(), Lossy15(), 1, Nothing, Goto, InTrap(InSched(PNext, 1)))
  {
  }

  lemma Goes15()
    ensures Goes(Lossy15(), Lossy16(), 0, Nothing, Acquire(S(0)), InSleep(ZDrop, Obj(0), false))
  {
  }

  lemma Goes16()
    ensures Goes(Lossy16(), Lossy17(), 0, Nothing, Release(O(0)), InSleep(ZChan, Obj(0), false))
  {
    assert Lossy16().held - {O(0)} == Lossy17().held;
  }

  lemma Goes17()
    ensures Goes(Lossy17(), Lossy18(), 0, Nothing, Do(Channel(0, Obj(0))), InSleep(ZState, Obj(0), false))
  {
  }

  lemma Goes18()
    ensures Goes(Lossy18(), Lossy19(), 0, Nothing, Do(Status(0, SLEEPING)), InSleep(ZSched, Obj(0), false))
  {
  }

  lemma LossyReachable()
    ensures IsReachable(Lossy19())
  {
    hide *;
    Begins();
    Starts(Lossy0());
    Goes0();
    Go(Lossy0(), Lossy1(), 0, Nothing, Do(Interrupts(true)), InSched(PNext, 0));
    Goes1();
    Go(Lossy1(), Lossy2(), 0, Nothing, Acquire(S(0)), InSched(PTest, 0));
    Goes2();
    Go(Lossy2(), Lossy3(), 0, Nothing, Do(Status(0, RUNNING)), InSched(PSet, 0));
    Goes3();
    Go(Lossy3(), Lossy4(), 0, Nothing, Do(Current(0)), InSched(PGo, 0));
    Goes4();
    Go(Lossy4(), Lossy5(), 0, Nothing, Resume(0), InSched(PAway, 0));
    Goes5();
    Go(Lossy5(), Lossy6(), 0, Nothing, Release(S(0)), Idle);
    Goes6();
    Go(Lossy6(), Lossy7(), 0, Take(0), Acquire(O(0)), InUse(UArm, 0));
    Goes7();
    Go(Lossy7(), Lossy8(), 0, Nothing, Do(Ready(0, false)), InUse(UTest, 0));
    Goes8();
    Go(Lossy8(), Lossy9(), 0, Nothing, Goto, InSleep(ZLock, Obj(0), false));
    Goes9();
    Go(Lossy9(), Lossy10(), 1, Trap, Do(Interrupts(false)), InTrap(InSched(PNext, 1)));
    Goes10();
    Go(Lossy10(), Lossy11(), 1, Bare(0), Do(Ready(0, true)), InWake(KNext, Obj(0), 0, ToIsr(InSched(PNext, 1))));
    Goes11();
    Go(Lossy11(), Lossy12(), 1, Nothing, Acquire(S(0)), InWake(KTest, Obj(0), 0, ToIsr(InSched(PNext, 1))));
    Goes12();
    Go(Lossy12(), Lossy13(), 1, Nothing, Goto, InWake(KRel, Obj(0), 0, ToIsr(InSched(PNext, 1))));
    Goes13();
    Go(Lossy13(), Lossy14(), 1, Nothing, Release(S(0)), InWake(KNext, Obj(0), 1, ToIsr(InSched(PNext, 1))));
    Goes14();
    Go(Lossy14(), Lossy15(), 1, Nothing, Goto, InTrap(InSched(PNext, 1)));
    Goes15();
    Go(Lossy15(), Lossy16(), 0, Nothing, Acquire(S(0)), InSleep(ZDrop, Obj(0), false));
    Goes16();
    Go(Lossy16(), Lossy17(), 0, Nothing, Release(O(0)), InSleep(ZChan, Obj(0), false));
    Goes17();
    Go(Lossy17(), Lossy18(), 0, Nothing, Do(Channel(0, Obj(0))), InSleep(ZState, Obj(0), false));
    Goes18();
    Go(Lossy18(), Lossy19(), 0, Nothing, Do(Status(0, SLEEPING)), InSleep(ZSched, Obj(0), false));
  }

  lemma LossyLost()
    ensures Lost(Lossy19(), 0, 0) && |Lossy19().cpus| == 2
  {
  }

  /** A completion can be missed, and the process sleep on, exactly when there is a second CPU: on one, whatever the processes
      and the handlers do, the wakeup still comes.  The kernel is run with one (Makefile:95). */
  lemma LostIffManyCpus(m: nat)
    requires m >= 1
    ensures (exists s: State :: LosesOn(s, m)) <==> m >= 2
  {
    hide IsReachable, Lost, Pad, Lossy19;
    if m >= 2 {
      LossyReachable();
      LossyLost();
      PadLost(Lossy19(), m, 0, 0);
    } else {
      forall s: State | IsReachable(s) && |s.cpus| == 1
        ensures !LosesOn(s, 1)
      {
        forall i: nat, k: nat
          ensures !Lost(s, i, k)
        {
          NeverLost(s, i, k);
        }
      }
    }
  }

  lemma NeverLost(s: State, i: nat, k: nat)
    requires IsReachable(s) && |s.cpus| == 1
    ensures !Lost(s, i, k)
  {
    hide IsReachable, PcOk;
    if Lost(s, i, k) {
      SleepingIsAsleep(s, i);
      OneCpuWakes(s, i, k);
    }
  }
}
