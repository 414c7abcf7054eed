/** The fields of processes after an instruction, one by one. */
module ProcFields {
  import opened ProcState
  import opened ProcModel
  import opened ProcText
  import opened ProcInv
  import opened ProcLock

  function StAfter(p: Proc, ins: Instr, i: nat): PState
  {
    if !ins.Do? then p.st
    else
      match ins.w
      case Status(x, st) => if x == i then st else p.st
      case Birth(x) => if x == i then USED else p.st
      case Unborn(x) => if x == i then UNUSED else p.st
      case Reap(x) => if x == i then UNUSED else p.st
      case Exited(x) => if x == i then ZOMBIE else p.st
      case _ => p.st
  }

  function ChanAfter(p: Proc, ins: Instr, i: nat): Chan
  {
    if !ins.Do? then p.chan
    else
      match ins.w
      case Channel(x, ch) => if x == i then ch else p.chan
      case Unborn(x) => if x == i then NoChan else p.chan
      case Reap(x) => if x == i then NoChan else p.chan
      case _ => p.chan
  }

  function ParentAfter(p: Proc, ins: Instr, i: nat): int
  {
    if !ins.Do? then p.parent
    else
      match ins.w
      case Parent(x, q) => if x == i then q else p.parent
      case Unborn(x) => if x == i then -1 else p.parent
      case Reap(x) => if x == i then -1 else p.parent
      case _ => p.parent
  }

  function PcAfter(p: Proc, me: int, d: Todo, i: nat): Pc
  {
    if i == me && !d.ins.Resume? then d.next
    else if d.ins.Do? && d.ins.w.Birth? && d.ins.w.i == i then Fresh
    else p.pc
  }

  function AtAfter(p: Proc, me: int, c: nat, ins: Instr, i: nat): int
  {
    if ins.Switch? && i == me then -1 else if ins.Resume? && ins.j == i then c else p.at
  }

  function MakerAfter(p: Proc, me: int, ins: Instr, i: nat): int
  {
    if ins.Do? && ins.w.Birth? && ins.w.i == i then me else p.maker
  }

  function EntryAfter(s: State, c: nat, ins: Instr, i: nat): bool
    requires c < |s.cpus| && i < |s.procs|
  {
    if ins.Acquire? && i == s.cpus[c].on && s.cpus[c].noff == 0 then s.cpus[c].sie else s.procs[i].entry
  }

  function ExitsAfter(p: Proc, ins: Instr, i: nat): nat
  {
    p.exits + if ins.Do? && ins.w.Exited? && ins.w.i == i then 1 else 0
  }

  function ReapsAfter(p: Proc, ins: Instr, i: nat): nat
  {
    p.reaps + if ins.Do? && ins.w.Reap? && ins.w.i == i then 1 else 0
  }

  /** Process i after the instruction. */
  ghost predicate FieldsAfter(s: State, c: nat, d: Todo, i: nat, q: Proc)
    requires c < |s.cpus| && i < |s.procs|
  {
    var p, me := s.procs[i], s.cpus[c].on;
    && q.st == StAfter(p, d.ins, i) && q.chan == ChanAfter(p, d.ins, i) && q.parent == ParentAfter(p, d.ins, i)
    && q.pc == PcAfter(p, me, d, i) && q.at == AtAfter(p, me, c, d.ins, i) && q.maker == MakerAfter(p, me, d.ins, i)
    && q.entry == EntryAfter(s, c, d.ins, i) && q.exits == ExitsAfter(p, d.ins, i) && q.reaps == ReapsAfter(p, d.ins, i)
  }

  lemma DoWriteFields(s: State, c: nat, w: Write, i: nat)
    requires c < |s.cpus| && s.cpus[c].on < |s.procs| && WriteOk(|s.procs|, |s.ready|, w) && i < |s.procs|
    ensures var t, p := DoWrite(s, c, w), s.procs[i];
            && |t.procs| == |s.procs| && |t.cpus| == |s.cpus| && t.cpus[c].on == s.cpus[c].on
            && t.procs[i] == Proc(StAfter(p, Do(w), i), ChanAfter(p, Do(w), i), ParentAfter(p, Do(w), i),
                                  if w.Birth? && w.i == i then Fresh else p.pc, p.at, p.entry,
                                  MakerAfter(p, s.cpus[c].on, Do(w), i), ExitsAfter(p, Do(w), i), ReapsAfter(p, Do(w), i))
  {
  }

  lemma SetPcFields(s: State, c: nat, next: Pc, i: nat)
    requires c < |s.cpus| && s.cpus[c].on < |s.procs| && i < |s.procs|
    ensures var t := SetPc(s, c, next);
            |t.procs| == |s.procs| && t.procs[i] == if i == s.cpus[c].on then s.procs[i].(pc := next) else s.procs[i]
  {
  }

  lemma WriteFields(s: State, c: nat, w: Write, next: Pc, i: nat)
    requires c < |s.cpus| && s.cpus[c].on < |s.procs| && WriteOk(|s.procs|, |s.ready|, w) && i < |s.procs|
    requires w.Birth? ==> w.i != s.cpus[c].on
    ensures i < |SetPc(DoWrite(s, c, w), c, next).procs|
    ensures FieldsAfter(s, c, Todo(Do(w), next), i, SetPc(DoWrite(s, c, w), c, next).procs[i])
  {
    hide DoWrite, SetPc, StAfter, ChanAfter, ParentAfter, MakerAfter, ExitsAfter, ReapsAfter;
    DoWriteFields(s, c, w, i);
    SetPcFields(DoWrite(s, c, w), c, next, i);
  }

  lemma LockFields(s: State, c: nat, l: Lock, next: Pc, i: nat)
    requires c < |s.cpus| && s.cpus[c].on < |s.procs| && i < |s.procs|
    ensures l !in s.held ==> FieldsAfter(s, c, Todo(Acquire(l), next), i, SetPc(DoAcquire(s, c, l), c, next).procs[i])
    ensures !DoRelease(s, c, l).panic ==>
              FieldsAfter(s, c, Todo(Release(l), next), i, SetPc(DoRelease(s, c, l), c, next).procs[i])
  {
  }

  lemma SwitchFields(s: State, c: nat, next: Pc, i: nat)
    requires c < |s.cpus| && 0 <= s.cpus[c].on < |s.procs| && i < |s.procs| && !DoSwitch(s, c, next).panic
    ensures FieldsAfter(s, c, Todo(Switch, next), i, DoSwitch(s, c, next).procs[i])
  {
  }

  lemma ResumeFields(s: State, c: nat, j: nat, next: Pc, i: nat)
    requires c < |s.cpus| && s.cpus[c].on < 0 && j < |s.procs| && i < |s.procs|
    ensures FieldsAfter(s, c, Todo(Resume(j), next), i, DoResume(s, c, j).procs[i])
  {
  }

  /** What keeps an instruction from panicking. */
  predicate Smooth(s: State, c: nat, d: Todo)
    requires c < |s.cpus| && s.cpus[c].on < |s.procs|
  {
    && Fits(|s.procs|, |s.ready|, s.cpus[c].on, d.ins, d.next) && !s.panic
    && match d.ins
       case Acquire(l) => l !in s.held
       case Release(l) => !DoRelease(s, c, l).panic
       case Switch => !DoSwitch(s, c, d.next).panic
       case Panics => false
       case Do(w) => w.Birth? ==> w.i != s.cpus[c].on
       case _ => true
  }

  lemma LegalSmooth(s: State, c: nat, d: Todo)
    requires Base(s) && Legal(s, c, d) && !Apply(s, c, d.ins, d.next).panic
    ensures Smooth(s, c, d)
  {
    hide Holds, Depth, LockInv, DepthInv, HandlerInv, LockSteps, PcOk, SchedInv, Guard, StatusInv, OnInv, SetPc;
    LockNoPanic(s, c, d);
    BirthAndResume(s, c, d);
    if d.ins.Do? && d.ins.w.Birth? {
      NotMine(s, c, d.ins.w.i);
    }
  }

  lemma SmoothFields(s: State, c: nat, d: Todo, i: nat)
    requires c < |s.cpus| && s.cpus[c].on < |s.procs| && Smooth(s, c, d) && i < |s.procs|
    ensures var t := Apply(s, c, d.ins, d.next); i < |t.procs| && FieldsAfter(s, c, d, i, t.procs[i])
  {
    hide FieldsAfter, PcOk, WriteOk, SetPc, DoWrite;
    Sizes(s, c, d);
    match d.ins
    case Do(w) => WriteFields(s, c, w, d.next, i);
    case Acquire(l) => LockFields(s, c, l, d.next, i);
    case Release(l) => LockFields(s, c, l, d.next, i);
    case Switch => SwitchFields(s, c, d.next, i);
    case Resume(j) => ResumeFields(s, c, j, d.next, i);
    case Goto => GotoFields(s, c, d.next, i);
    case Panics =>
  }

  ghost predicate SameSizes(s: State, t: State)
  {
    |t.procs| == |s.procs| && |t.cpus| == |s.cpus| && |t.ready| == |s.ready| && t.init == s.init && t.bare == s.bare
  }

  lemma SizesSetPc(s: State, c: nat, pc: Pc)
    requires c < |s.cpus| && s.cpus[c].on < |s.procs|
    ensures SameSizes(s, SetPc(s, c, pc)) && SetPc(s, c, pc).panic == s.panic
  {
  }

  lemma SizesWrite(s: State, c: nat, w: Write)
    requires c < |s.cpus| && WriteOk(|s.procs|, |s.ready|, w)
    ensures var t := DoWrite(s, c, w); SameSizes(s, t) && t.cpus[c].on == s.cpus[c].on
  {
  }

  lemma SizesLock(s: State, c: nat, l: Lock)
    requires c < |s.cpus| && s.cpus[c].on < |s.procs|
    ensures SameSizes(s, DoAcquire(s, c, l)) && SameSizes(s, DoRelease(s, c, l))
    ensures DoAcquire(s, c, l).cpus[c].on == s.cpus[c].on == DoRelease(s, c, l).cpus[c].on
  {
  }

  lemma SizesSwitch(s: State, c: nat, next: Pc, j: nat)
    requires c < |s.cpus|
    ensures 0 <= s.cpus[c].on < |s.procs| ==> SameSizes(s, DoSwitch(s, c, next))
    ensures j < |s.procs| ==> SameSizes(s, DoResume(s, c, j))
  {
  }

  lemma Sizes(s: State, c: nat, d: Todo)
    requires c < |s.cpus| && s.cpus[c].on < |s.procs| && Fits(|s.procs|, |s.ready|, s.cpus[c].on, d.ins, d.next)
    ensures SameSizes(s, Apply(s, c, d.ins, d.next))
  {
    hide PcOk, SetPc, DoWrite, DoAcquire, DoRelease, DoSwitch, DoResume, WriteOk;
    match d.ins
    case Do(w) =>
      SizesWrite(s, c, w);
      SizesSetPc(DoWrite(s, c, w), c, d.next);
    case Acquire(l) =>
      SizesLock(s, c, l);
      SizesSetPc(DoAcquire(s, c, l), c, d.next);
    case Release(l) =>
      SizesLock(s, c, l);
      SizesSetPc(DoRelease(s, c, l), c, d.next);
    case Goto => SizesSetPc(s, c, d.next);
    case Switch => SizesSwitch(s, c, d.next, 0);
    case Resume(j) => SizesSwitch(s, c, d.next, j);
    case Panics =>
  }

  lemma Fields(s: State, c: nat, d: Todo, i: nat)
    requires Base(s) && Legal(s, c, d) && !Apply(s, c, d.ins, d.next).panic && i < |s.procs|
    ensures var t := Apply(s, c, d.ins, d.next);
            |t.procs| == |s.procs| && |t.cpus| == |s.cpus| && |t.ready| == |s.ready| && t.init == s.init && t.bare == s.bare
            && FieldsAfter(s, c, d, i, t.procs[i])
  {
    hide FieldsAfter, Apply, Holds, Depth, LockInv, DepthInv, HandlerInv, LockSteps, PcOk, SchedInv, Guard, StatusInv,
      OnInv, Smooth;
    LegalSmooth(s, c, d);
    SmoothFields(s, c, d, i);
    Sizes(s, c, d);
  }

  lemma GotoFields(s: State, c: nat, next: Pc, i: nat)
    requires c < |s.cpus| && s.cpus[c].on < |s.procs| && i < |s.procs|
    ensures FieldsAfter(s, c, Todo(Goto, next), i, SetPc(s, c, next).procs[i])
  {
  }

  lemma NotMine(s: State, c: nat, i: nat)
    requires Base(s) && c < |s.cpus| && i < |s.procs| && s.procs[i].at < 0
    ensures s.cpus[c].on != i
  {
    hide Holds, Depth, LockInv, DepthInv, HandlerInv, LockSteps, PcOk, SchedInv, Guard, StatusInv;
    assert CpuOk(s, c);
  }

  /** The CPU's own fields. */
  ghost predicate CpuAfter(s: State, c: nat, d: Todo, b: Cpu)
    requires c < |s.cpus|
  {
    var a := s.cpus[c];
    && b.cur == (if d.ins.Do? && d.ins.w.Current? then d.ins.w.p else a.cur)
    && (if d.ins.Switch? then b.on == -1 && b.pc == InSched(PBack, if a.pc.InSched? then a.pc.j else 0)
        else if d.ins.Resume? then b.on == d.ins.j && b.pc == InSched(PAway, d.ins.j)
        else b.on == a.on && b.pc == if a.on < 0 then d.next else a.pc)
    && b.intena == (if d.ins.Do? && d.ins.w.Intena? then d.ins.w.v
                    else if d.ins.Acquire? && a.noff == 0 then a.sie else a.intena)
    && (d.ins.Release? ==> b.sie == (a.noff == 1 && a.intena))
    && (d.ins.Do? && d.ins.w.Interrupts? ==> b.sie == d.ins.w.b)
  }

  lemma WriteCpu(s: State, c: nat, w: Write, next: Pc)
    requires c < |s.cpus| && s.cpus[c].on < |s.procs| && WriteOk(|s.procs|, |s.ready|, w)
    ensures var t := SetPc(DoWrite(s, c, w), c, next); c < |t.cpus| && CpuAfter(s, c, Todo(Do(w), next), t.cpus[c])
  {
  }

  lemma LockCpu(s: State, c: nat, l: Lock, next: Pc)
    requires c < |s.cpus| && s.cpus[c].on < |s.procs|
    ensures l !in s.held ==> CpuAfter(s, c, Todo(Acquire(l), next), SetPc(DoAcquire(s, c, l), c, next).cpus[c])
    ensures !DoRelease(s, c, l).panic ==>
              CpuAfter(s, c, Todo(Release(l), next), SetPc(DoRelease(s, c, l), c, next).cpus[c])
  {
  }

  lemma SmoothCpu(s: State, c: nat, d: Todo)
    requires c < |s.cpus| && s.cpus[c].on < |s.procs| && Smooth(s, c, d)
    ensures var t := Apply(s, c, d.ins, d.next); |t.cpus| == |s.cpus| && CpuAfter(s, c, d, t.cpus[c])
  {
    hide PcOk, SetPc, DoWrite;
    Sizes(s, c, d);
    match d.ins
    case Do(w) => WriteCpu(s, c, w, d.next);
    case Acquire(l) => LockCpu(s, c, l, d.next);
    case Release(l) => LockCpu(s, c, l, d.next);
    case Goto => GotoCpu(s, c, d.next);
    case Switch =>
    case Resume(j) =>
    case Panics =>
  }

  lemma GotoCpu(s: State, c: nat, next: Pc)
    requires c < |s.cpus| && s.cpus[c].on < |s.procs|
    ensures CpuAfter(s, c, Todo(Goto, next), SetPc(s, c, next).cpus[c])
  {
  }

  lemma CpuFields(s: State, c: nat, d: Todo)
    requires Base(s) && Legal(s, c, d) && !Apply(s, c, d.ins, d.next).panic
    ensures var t := Apply(s, c, d.ins, d.next); |t.cpus| == |s.cpus| && CpuAfter(s, c, d, t.cpus[c])
  {
    hide CpuAfter, Apply, Holds, Depth, LockInv, DepthInv, HandlerInv, LockSteps, PcOk, SchedInv, Guard, StatusInv,
      OnInv, Smooth;
    LegalSmooth(s, c, d);
    SmoothCpu(s, c, d);
  }
}
