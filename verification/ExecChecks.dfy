/** Which program files exec accepts, header by header, in numbers. */
module ExecChecks {
  import opened Exec
  import opened LittleEndian

  /** A stretch of a file can be read in full exactly when it lies in the file; readi takes 32 bits of the offset. */
  lemma {:induction false} ReadableIs(file: seq<Byte>, off: nat, n: nat)
    requires |file| < 0x1_0000_0000
    ensures Readable(file, off, n) <==> n == 0 || off % 0x1_0000_0000 + n <= |file|
    decreases n
  {
    if n > 0 {
      var i := LastStart(n);
      ReadableIs(file, off, i);
      if off % 0x1_0000_0000 + i < 0x1_0000_0000 {
        Offset(off, i);
      }
    }
  }

  lemma Offset(off: nat, i: nat)
    requires off % 0x1_0000_0000 + i < 0x1_0000_0000
    ensures (off + i) % 0x1_0000_0000 == off % 0x1_0000_0000 + i
  {
  }

  function End(seg: Segment): nat { seg.vaddr + seg.memsz }

  /** The pages up to n bytes and two more lie below the trapframe. */
  predicate Below(n: nat) { (n + 4095) / 4096 * 4096 + 8192 <= 0x3f_ffff_e000 }

  /** One header on its own: file part no larger than the memory part, page-aligned address, room below stack and trapframe,
      and the file part within the file. */
  predicate Sound(file: seq<Byte>, seg: Segment)
  {
    && seg.filesz <= seg.memsz && seg.vaddr % 4096 == 0 && Below(End(seg))
    && (seg.filesz == 0 || seg.off % 0x1_0000_0000 + seg.filesz <= |file|)
  }

  /** Some header up to the i-th gives the process memory; until then uvmalloc returns the new size 0, which reads as failure. */
  predicate Started(segs: seq<Segment>, i: nat)
  {
    exists j | 0 <= j < |segs| && j <= i :: segs[j].load && End(segs[j]) > 0
  }

  predicate SoundAt(file: seq<Byte>, segs: seq<Segment>, i: nat)
    requires i < |segs|
  {
    segs[i].load ==> Sound(file, segs[i]) && Started(segs, i)
  }

  /** exec accepts a program exactly when every header to load is sound and the first of them is not empty. */
  lemma ProgramOkIs(file: seq<Byte>, segs: seq<Segment>)
    requires |file| < 0x1_0000_0000
    ensures ProgramOk(file, segs) <==> forall i: nat | i < |segs| :: SoundAt(file, segs, i)
  {
    hide Readable, HeadersOk, Size, Started, Sound;
    Headers(file, segs);
    SizeIs(segs);
    if forall i: nat | i < |segs| :: SoundAt(file, segs, i) {
      forall i: nat | i < |segs|
        ensures HeaderSound(file, segs, i)
      {
        assert SoundAt(file, segs, i);
        if segs[i].load {
          SoundBelow(file, segs[i]);
        }
      }
      if Size(segs) > 0 {
        var j: nat :| j < |segs| && segs[j].load && End(segs[j]) == Size(segs);
        assert SoundAt(file, segs, j);
        SoundBelow(file, segs[j]);
      }
    } else if ProgramOk(file, segs) {
      var i: nat :| i < |segs| && !SoundAt(file, segs, i);
      assert End(segs[i]) <= Size(segs);
      Monotone(End(segs[i]), Size(segs));
      assert HeaderSound(file, segs, i);
      SoundIf(file, segs[i]);
    }
  }

  lemma SoundBelow(file: seq<Byte>, seg: Segment)
    requires Sound(file, seg)
    ensures Up(End(seg)) + 8192 <= 0x3f_ffff_e000 && seg.filesz <= seg.memsz && seg.vaddr % 4096 == 0
    ensures seg.filesz == 0 || seg.off % 0x1_0000_0000 + seg.filesz <= |file|
  {
  }

  lemma Monotone(a: nat, b: nat)
    requires a <= b && Up(b) + 8192 <= 0x3f_ffff_e000
    ensures Below(a)
  {
  }

  /** The same but for the room for the stack. */
  predicate HeaderSound(file: seq<Byte>, segs: seq<Segment>, i: nat)
    requires i < |segs|
  {
    segs[i].load ==>
      && segs[i].filesz <= segs[i].memsz && segs[i].vaddr % 4096 == 0 && Up(End(segs[i])) <= 0x3f_ffff_e000
      && (segs[i].filesz == 0 || segs[i].off % 0x1_0000_0000 + segs[i].filesz <= |file|) && Started(segs, i)
  }

  lemma SoundIf(file: seq<Byte>, seg: Segment)
    requires seg.filesz <= seg.memsz && seg.vaddr % 4096 == 0 && Below(End(seg))
    requires seg.filesz == 0 || seg.off % 0x1_0000_0000 + seg.filesz <= |file|
    ensures Sound(file, seg)
  {
  }

  /** The size of the process is where the last of its segments ends. */
  lemma {:induction false} SizeIs(segs: seq<Segment>)
    ensures forall i: nat | i < |segs| && segs[i].load :: End(segs[i]) <= Size(segs)
    ensures Size(segs) > 0 ==> exists j: nat :: j < |segs| && segs[j].load && End(segs[j]) == Size(segs)
    decreases |segs|
  {
    if segs != [] {
      var last := |segs| - 1;
      SizeIs(segs[..last]);
      if Size(segs) == Size(segs[..last]) && Size(segs) > 0 {
        var j: nat :| j < last && segs[..last][j].load && End(segs[..last][j]) == Size(segs[..last]);
        assert segs[j].load && End(segs[j]) == Size(segs);
      } else if Size(segs) > 0 {
        assert segs[last].load && End(segs[last]) == Size(segs);
      }
    }
  }

  /** The pages exec asks for: those up to the end of the last segment, none of them in vain, and two for the stack. */
  lemma PagesNeededIs(segs: seq<Segment>)
    ensures PagesNeeded(segs) >= 2
    ensures forall i: nat | i < |segs| && segs[i].load :: End(segs[i]) <= (PagesNeeded(segs) - 2) * 4096
    ensures PagesNeeded(segs) > 2 ==>
              exists i: nat :: i < |segs| && segs[i].load && (PagesNeeded(segs) - 3) * 4096 < End(segs[i])
  {
    hide Size;
    SizeIs(segs);
  }

  lemma {:induction false} Headers(file: seq<Byte>, segs: seq<Segment>)
    requires |file| < 0x1_0000_0000
    ensures HeadersOk(file, segs) <==> forall i: nat | i < |segs| :: HeaderSound(file, segs, i)
    decreases |segs|
  {
    hide Readable, Up, Size, Started;
    if segs != [] {
      var last := |segs| - 1;
      Headers(file, segs[..last]);
      forall i: nat | i < last
        ensures HeaderSound(file, segs, i) <==> HeaderSound(file, segs[..last], i)
      {
        StartedSame(segs, last, i);
      }
      LastHeader(file, segs);
    }
  }

  lemma StartedSame(segs: seq<Segment>, n: nat, i: nat)
    requires i < n <= |segs|
    ensures Started(segs, i) <==> Started(segs[..n], i)
  {
    if Started(segs, i) {
      var j :| 0 <= j < |segs| && j <= i && segs[j].load && End(segs[j]) > 0;
      assert segs[..n][j].load;
    }
    if Started(segs[..n], i) {
      var j :| 0 <= j < |segs[..n]| && j <= i && segs[..n][j].load && End(segs[..n][j]) > 0;
      assert segs[j].load;
    }
  }

  lemma LastHeader(file: seq<Byte>, segs: seq<Segment>)
    requires segs != [] && |file| < 0x1_0000_0000
    ensures HeaderOk(file, segs[|segs| - 1], Size(segs[..|segs| - 1])) <==> HeaderSound(file, segs, |segs| - 1)
  {
    hide Readable, Up, Size;
    var last := |segs| - 1;
    ReadableIs(file, segs[last].off, segs[last].filesz);
    SizeIs(segs[..last]);
    if Size(segs[..last]) > 0 {
      var j: nat :| j < last && segs[..last][j].load && End(segs[..last][j]) == Size(segs[..last]);
      assert segs[j].load && End(segs[j]) > 0;
    }
    if Started(segs, last) && End(segs[last]) == 0 {
      var j :| 0 <= j < |segs| && j <= last && segs[j].load && End(segs[j]) > 0;
      assert segs[..last][j].load;
    }
  }
}
