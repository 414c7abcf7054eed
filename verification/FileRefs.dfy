/** Open files: the reference counts of file.c, and the descriptors of sysfile.c, fork and exit that they count. */
module FileRefs {
  import opened Numbers

  /** A descriptor slot: a null pointer, or a file of the table. */
  datatype Slot = Empty | Open(f: nat)

  datatype FileType = FdNone | FdInode | FdDevice

  type Slots = seq<Slot>

  /** How many of these slots point to file f. */
  function Count(s: Slots, f: nat): nat
  {
    if s == [] then 0 else Count(s[..|s| - 1], f) + (if s[|s| - 1] == Open(f) then 1 else 0)
  }

  /** The same over the slots of all processes. */
  function Pointers(all: seq<Slots>, f: nat): nat
  {
    if all == [] then 0 else Pointers(all[..|all| - 1], f) + Count(all[|all| - 1], f)
  }

  function One(s: Slot, f: nat): nat { if s == Open(f) then 1 else 0 }

  lemma {:induction false} CountUpdate(s: Slots, i: nat, v: Slot, f: nat)
    requires i < |s|
    ensures Count(s[i := v], f) == Count(s, f) - One(s[i], f) + One(v, f)
  {
    var last := |s| - 1;
    if i < last {
      CountUpdate(s[..last], i, v, f);
      assert s[i := v][..last] == s[..last][i := v];
    } else {
      assert s[i := v][..last] == s[..last];
    }
  }

  lemma {:induction false} PointersUpdate(all: seq<Slots>, p: nat, s: Slots, f: nat)
    requires p < |all|
    ensures Pointers(all[p := s], f) == Pointers(all, f) - Count(all[p], f) + Count(s, f)
  {
    var last := |all| - 1;
    if p < last {
      PointersUpdate(all[..last], p, s, f);
      assert all[p := s][..last] == all[..last][p := s];
    } else {
      assert all[p := s][..last] == all[..last];
    }
  }

  /** Setting one slot: one pointer fewer to what was there, one more to what is there now. */
  lemma SlotSet(all: seq<Slots>, p: nat, fd: nat, v: Slot, f: nat)
    requires p < |all| && fd < |all[p]|
    ensures Pointers(all[p := all[p][fd := v]], f) == Pointers(all, f) - One(all[p][fd], f) + One(v, f)
  {
    PointersUpdate(all, p, all[p][fd := v], f);
    CountUpdate(all[p], fd, v, f);
  }

  /** Each file's count is the number of slots that point to it. */
  ghost predicate Exact(ref: seq<nat>, all: seq<Slots>)
  {
    forall f | 0 <= f < |ref| :: ref[f] == Pointers(all, f)
  }

  lemma ExactSet(ref: seq<nat>, ref': seq<nat>, all: seq<Slots>, p: nat, fd: nat, v: Slot)
    requires Exact(ref, all) && |ref'| == |ref| && p < |all| && fd < |all[p]|
    requires forall f | 0 <= f < |ref| :: ref'[f] == ref[f] - One(all[p][fd], f) + One(v, f)
    ensures Exact(ref', all[p := all[p][fd := v]])
  {
    forall f | 0 <= f < |ref'|
      ensures ref'[f] == Pointers(all[p := all[p][fd := v]], f)
    {
      SlotSet(all, p, fd, v, f);
    }
  }

  lemma {:induction false} NoneCounted(s: Slots, f: nat)
    requires forall i | 0 <= i < |s| :: s[i] == Empty
    ensures Count(s, f) == 0
  {
    if s != [] {
      NoneCounted(s[..|s| - 1], f);
    }
  }

  lemma {:induction false} NoPointers(all: seq<Slots>, f: nat)
    requires forall p | 0 <= p < |all| :: forall i | 0 <= i < |all[p]| :: all[p][i] == Empty
    ensures Pointers(all, f) == 0
  {
    if all != [] {
      NoneCounted(all[|all| - 1], f);
      NoPointers(all[..|all| - 1], f);
    }
  }

  /** The first empty slot, or the number of slots. */
  predicate LowestFree(s: Slots, fd: nat)
  {
    fd <= |s| && (forall i | 0 <= i < fd :: s[i] != Empty) && (fd < |s| ==> s[fd] == Empty)
  }

  /** The first file without references. */
  predicate FirstUnused(ref: seq<nat>, f: int)
  {
    0 <= f < |ref| && ref[f] == 0 && forall g | 0 <= g < f :: ref[g] != 0
  }

  datatype OpenResult = Fd(fd: nat) | NoFd | NullFile

  class FileTable {
    const nfile: nat
    const openfile: nat
    var ref: seq<nat>
    var typ: seq<FileType>
    var openfs: seq<Slots>   // of every process
    var live: set<nat>       // processes from fork to exit

    /** The tables have their sizes; processes that are not running have nothing open. */
    ghost predicate Shape()
      reads this
    {
      && |ref| == |typ| == nfile
      && (forall p | 0 <= p < |openfs| :: |openfs[p]| == openfile)
      && (forall p, i | 0 <= p < |openfs| && 0 <= i < openfile && openfs[p][i].Open? :: openfs[p][i].f < nfile)
      && (forall p, i | 0 <= p < |openfs| && 0 <= i < openfile && p !in live :: openfs[p][i] == Empty)
      && (forall p | p in live :: p < |openfs|)
    }

    /** Every count is the number of descriptors that point to the file; just the files with none are marked free. */
    ghost predicate Valid()
      reads this
    {
      && Shape()
      && Exact(ref, openfs)
      && (forall f | 0 <= f < nfile :: typ[f] == FdNone <==> ref[f] == 0)
    }

    /** init_filecache, and no process with anything open. */
    constructor (nproc: nat, nfile: nat, openfile: nat)
      ensures Valid() && live == {} && |openfs| == nproc && this.nfile == nfile && this.openfile == openfile
    {
      this.nfile, this.openfile, live := nfile, openfile, {};
      ref, typ, openfs := seq(nfile, _ => 0), seq(nfile, _ => FdNone), seq(nproc, _ => seq(openfile, _ => Empty));
      new;
      forall f: nat { NoPointers(openfs, f); }
    }

    /** userinit: the first process, with nothing open. */
    method Userinit(p: nat)
      requires Valid() && p < |openfs|
      modifies this`live
      ensures Valid() && live == old(live) + {p}
    {
      live := live + {p};
    }

    /** filealloc: the first file without references gets one. */
    method Filealloc() returns (f: Slot)
      requires Shape()
      modifies this`ref
      ensures f == Empty ==> ref == old(ref) && forall g | 0 <= g < nfile :: ref[g] != 0
      ensures f.Open? ==> f.f < nfile && old(ref)[f.f] == 0 && ref == old(ref)[f.f := 1]
      ensures f.Open? ==> forall g | 0 <= g < f.f :: old(ref)[g] != 0
    {
      for i := 0 to nfile
        invariant forall g | 0 <= g < i :: ref[g] != 0
        invariant ref == old(ref)
      {
        if ref[i] == 0 {
          ref := ref[i := 1];
          return Open(i);
        }
      }
      return Empty;
    }

    /** filedup; its panic is for a file without references. */
    method Filedup(f: nat)
      requires Shape() && f < nfile && ref[f] >= 1
      modifies this`ref
      ensures ref == old(ref)[f := old(ref)[f] + 1]
    {
      ref := ref[f := ref[f] + 1];
    }

    /** fileclose; its panic is for a file without references.  True when the inode is put: with the last reference to a file in use. */
    method Fileclose(f: nat) returns (put: bool)
      requires Shape() && f < nfile && ref[f] >= 1
      modifies this`ref, this`typ
      ensures ref == old(ref)[f := old(ref)[f] - 1]
      ensures typ == if old(ref)[f] == 1 then old(typ)[f := FdNone] else old(typ)
      ensures put <==> old(ref)[f] == 1 && old(typ)[f] != FdNone
    {
      ref := ref[f := ref[f] - 1];
      if ref[f] > 0 {
        return false;
      }
      var was := typ[f];
      ref, typ := ref[f := 0], typ[f := FdNone];
      return was == FdInode || was == FdDevice;
    }

    /** fdalloc: the lowest free descriptor, or the number of descriptors for -1. */
    method Fdalloc(p: nat, f: nat) returns (fd: nat)
      requires Shape() && p < |openfs|
      modifies this`openfs
      ensures LowestFree(old(openfs)[p], fd)
      ensures openfs == if fd < openfile then old(openfs)[p := old(openfs)[p][fd := Open(f)]] else old(openfs)
    {
      fd := 0;
      while fd < openfile
        invariant 0 <= fd <= openfile && openfs == old(openfs)
        invariant forall i | 0 <= i < fd :: openfs[p][i] != Empty
      {
        if openfs[p][fd] == Empty {
          openfs := openfs[p := openfs[p][fd := Open(f)]];
          return;
        }
        fd := fd + 1;
      }
    }

    /** argfd */
    method Argfd(p: nat, fd: int) returns (f: Slot)
      requires Shape() && p < |openfs|
      ensures f == if 0 <= fd < openfile then openfs[p][fd] else Empty
    {
      f := if fd < 0 || fd >= openfile then Empty else openfs[p][fd];
    }

    /** sys_dup: -1 for a descriptor that is not open, or when none is free. */
    method SysDup(p: nat, fd: int) returns (r: int)
      requires Valid() && p in live
      modifies this`ref, this`openfs
      ensures Valid()
      ensures if !(0 <= fd < openfile) || old(openfs)[p][fd] == Empty then r == -1 && openfs == old(openfs) && ref == old(ref)
              else if r == -1 then openfs == old(openfs) && ref == old(ref) && forall i | 0 <= i < openfile :: openfs[p][i] != Empty
              else && 0 <= r < openfile && LowestFree(old(openfs)[p], r)
                   && openfs == old(openfs)[p := old(openfs)[p][r := old(openfs)[p][fd]]]
                   && ref == old(ref)[openfs[p][fd].f := old(ref)[openfs[p][fd].f] + 1]
    {
      hide Pointers, Count, Exact;
      var f := Argfd(p, fd);
      if f == Empty {
        return -1;
      }
      Referenced(ref, openfs, p, fd);
      var newfd := Fdalloc(p, f.f);
      if newfd == openfile {
        return -1;
      }
      Filedup(f.f);
      ExactSet(old(ref), ref, old(openfs), p, newfd, f);
      return newfd;
    }

    /** sys_close: the inode is put exactly with the last descriptor of the file, in whatever process. */
    method SysClose(p: nat, fd: int) returns (r: int, put: bool)
      requires Valid() && p in live
      modifies this`ref, this`openfs, this`typ
      ensures Valid()
      ensures if !(0 <= fd < openfile) || old(openfs)[p][fd] == Empty then r == -1 && openfs == old(openfs) && !put
              else && r == 0 && openfs == old(openfs)[p := old(openfs)[p][fd := Empty]]
                   && (put <==> Pointers(openfs, old(openfs)[p][fd].f) == 0)
    {
      hide Pointers, Count;
      var f := Argfd(p, fd);
      if f == Empty {
        return -1, false;
      }
      Referenced(ref, openfs, p, fd);
      openfs := openfs[p := openfs[p][fd := Empty]];
      put := Fileclose(f.f);
      ExactSet(old(ref), ref, old(openfs), p, fd, Empty);
      return 0, put;
    }

    /**
     * sys_open once the inode is found and locked, without O_CREATE.  NullFile is what it comes to when the file table is full:
     * fileclose gets the null pointer.
     */
    method SysOpen(p: nat, device: bool) returns (r: OpenResult)
      requires Valid() && p in live
      modifies this`ref, this`openfs, this`typ
      ensures Valid()
      ensures r == NullFile <==> forall f | 0 <= f < nfile :: Pointers(old(openfs), f) != 0
      ensures r.Fd? ==> && r.fd < openfile && LowestFree(old(openfs)[p], r.fd)
                        && exists f :: FirstUnused(old(ref), f) && ref == old(ref)[f := 1]
                                       && openfs == old(openfs)[p := old(openfs)[p][r.fd := Open(f)]]
                                       && typ == old(typ)[f := if device then FdDevice else FdInode]
      ensures !r.Fd? ==> openfs == old(openfs) && ref == old(ref) && typ == old(typ)
      ensures r == NoFd ==> (exists f | 0 <= f < nfile :: ref[f] == 0) && forall i | 0 <= i < openfile :: openfs[p][i] != Empty
    {
      hide Pointers, Count;
      var f := Filealloc();
      if f == Empty {
        return NullFile;
      }
      assert Pointers(old(openfs), f.f) == 0;
      assert FirstUnused(old(ref), f.f);
      var fd := Fdalloc(p, f.f);
      if fd == openfile {
        var put := Fileclose(f.f);
        return NoFd;
      }
      ExactSet(old(ref), ref, old(openfs), p, fd, f);
      typ := typ[f.f := if device then FdDevice else FdInode];
      return Fd(fd);
    }

    /** The loop of fork over the descriptors; allocproc has found a process that is not in use. */
    method Fork(now: nat, child: nat)
      requires Valid() && now in live && child < |openfs| && child !in live
      modifies this`ref, this`openfs, this`live
      ensures Valid() && openfs == old(openfs)[child := old(openfs)[now]] && live == old(live) + {child}
    {
      hide Pointers, Count, Exact;
      live := live + {child};
      ghost var mine := openfs[now];
      var i := 0;
      while i < openfile
        invariant 0 <= i <= openfile && Valid() && live == old(live) + {child}
        invariant |openfs| == |old(openfs)| && openfs[now] == mine && |openfs[child]| == openfile
        invariant openfs == old(openfs)[child := openfs[child]]
        invariant forall j | 0 <= j < openfile :: openfs[child][j] == if j < i then mine[j] else Empty
      {
        var f := openfs[now][i];
        if f != Empty {
          Referenced(ref, openfs, now, i);
          ghost var ref0 := ref;
          Filedup(f.f);
          ExactSet(ref0, ref, openfs, child, i, f);
          openfs := openfs[child := openfs[child][i := f]];
        }
        i := i + 1;
      }
      assert openfs[child] == mine;
    }

    /** The loop of exit over the descriptors. */
    method Exit(p: nat)
      requires Valid() && p in live
      modifies this`ref, this`openfs, this`live, this`typ
      ensures Valid() && openfs == old(openfs)[p := seq(openfile, _ => Empty)] && live == old(live) - {p}
    {
      hide Pointers, Count, Exact;
      var fd := 0;
      while fd < openfile
        invariant 0 <= fd <= openfile && Valid() && live == old(live)
        invariant |openfs| == |old(openfs)| && |openfs[p]| == openfile && openfs == old(openfs)[p := openfs[p]]
        invariant forall j | 0 <= j < fd :: openfs[p][j] == Empty
      {
        var f := openfs[p][fd];
        if f != Empty {
          Referenced(ref, openfs, p, fd);
          ghost var ref0 := ref;
          var put := Fileclose(f.f);
          ExactSet(ref0, ref, openfs, p, fd, Empty);
          openfs := openfs[p := openfs[p][fd := Empty]];
        }
        fd := fd + 1;
      }
      live := live - {p};
      assert openfs[p] == seq(openfile, _ => Empty);
    }
  }

  /** A file that a descriptor points to has a reference: neither panic of file.c is reached. */
  lemma Referenced(ref: seq<nat>, all: seq<Slots>, p: nat, fd: nat)
    requires p < |all| && fd < |all[p]| && all[p][fd].Open? && all[p][fd].f < |ref|
    requires Exact(ref, all)
    ensures ref[all[p][fd].f] >= 1
  {
    SlotSet(all, p, fd, Empty, all[p][fd].f);
  }

  /** The slots in use: all those of the processes before p, and the first fd of process p. */
  ghost predicate FilledTo(all: seq<Slots>, openfile: nat, p: nat, fd: nat)
  {
    forall q, i | 0 <= q < |all| && 0 <= i < |all[q]| :: all[q][i] != Empty <==> q < p || (q == p && i < fd)
  }

  /** A full file table is reached, and the next open passes a null pointer on: processes enough to hold nfile
      descriptors, each opening files one after the other. */
  method FillTable(nproc: nat, nfile: nat, openfile: nat) returns (t: FileTable, r: OpenResult)
    requires nproc > 0 && nproc * openfile >= nfile
    ensures fresh(t) && t.Valid() && t.nfile == nfile && r == NullFile
  {
    hide Pointers, Count, Exact, FilledTo, Index;
    IndexIs(0, openfile, 0);
    t := new FileTable(nproc, nfile, openfile);
    Processes(t, nproc);
    var p, fd := 0, 0;
    for i := 0 to nfile
      invariant t.Valid() && t.nfile == nfile && t.openfile == openfile && fresh(t) && |t.openfs| == nproc
      invariant p <= nproc && fd <= openfile && i == Index(p, openfile, fd)
      invariant FilledTo(t.openfs, openfile, p, fd) && forall q: nat :: q in t.live <==> q < nproc
      invariant forall g | 0 <= g < nfile :: t.ref[g] != 0 <==> g < i
    {
      RowsAre(t);
      if fd == openfile {
        NextProcess(t.openfs, openfile, p);
        IndexIs(p, openfile, 0);
        p, fd := p + 1, 0;
      }
      StillRoom(p, nproc, openfile, fd, nfile);
      r := OpenOne(t, p, fd, i);
      IndexIs(p, openfile, fd);
      fd := fd + 1;
    }
    AllUsed(t);
    assert 0 in t.live;
    r := t.SysOpen(0, false);
  }

  lemma RowsAre(t: FileTable)
    requires t.Valid()
    ensures forall q | 0 <= q < |t.openfs| :: |t.openfs[q]| == t.openfile
  {
  }

  lemma NextProcess(all: seq<Slots>, openfile: nat, p: nat)
    requires FilledTo(all, openfile, p, openfile) && forall q | 0 <= q < |all| :: |all[q]| == openfile
    ensures FilledTo(all, openfile, p + 1, 0)
  {
  }

  /** How many descriptors are in use. */
  function Index(p: nat, openfile: nat, fd: nat): nat { p * openfile + fd }

  lemma IndexIs(p: nat, openfile: nat, fd: nat)
    ensures Index(0, openfile, 0) == 0 && Index(p, openfile, fd + 1) == Index(p, openfile, fd) + 1
    ensures Index(p + 1, openfile, 0) == Index(p, openfile, openfile)
  {
  }

  lemma StillRoom(p: nat, nproc: nat, openfile: nat, fd: nat, nfile: nat)
    requires Index(p, openfile, fd) < nfile <= nproc * openfile
    ensures p < nproc
  {
    if p >= nproc {
      QuotientOrder(openfile, nproc, p);
    }
  }

  lemma AllUsed(t: FileTable)
    requires t.Valid() && forall g | 0 <= g < t.nfile :: t.ref[g] != 0
    ensures forall f | 0 <= f < t.nfile :: Pointers(t.openfs, f) != 0
  {
  }

  /** The first process, and forks of it while nothing is open. */
  method Processes(t: FileTable, nproc: nat)
    requires t.Valid() && t.live == {} && |t.openfs| == nproc > 0
    modifies t
    ensures t.Valid() && |t.openfs| == nproc && (forall q: nat :: q in t.live <==> q < nproc)
    ensures FilledTo(t.openfs, t.openfile, 0, 0) && forall g | 0 <= g < t.nfile :: t.ref[g] == 0
  {
    hide Pointers, Count;
    t.Userinit(0);
    ghost var all := t.openfs;
    for p := 1 to nproc
      invariant t.Valid() && t.openfs == all && forall q: nat :: q in t.live <==> q < p
    {
      t.Fork(0, p);
      assert all[p] == all[0];
    }
    NothingOpen(t.ref, t.openfs, t.nfile);
  }

  lemma NothingOpen(ref: seq<nat>, all: seq<Slots>, nfile: nat)
    requires Exact(ref, all) && |ref| == nfile && forall p, i | 0 <= p < |all| && 0 <= i < |all[p]| :: all[p][i] == Empty
    ensures forall g | 0 <= g < nfile :: ref[g] == 0
  {
    forall g: nat { NoPointers(all, g); }
  }

  /** One open, with file i the first unused and descriptor fd the first free. */
  method OpenOne(t: FileTable, p: nat, fd: nat, i: nat) returns (r: OpenResult)
    requires t.Valid() && p in t.live && fd < t.openfile && i < t.nfile
    requires FilledTo(t.openfs, t.openfile, p, fd) && forall g | 0 <= g < t.nfile :: t.ref[g] != 0 <==> g < i
    modifies t
    ensures t.Valid() && |t.openfs| == |old(t.openfs)| && t.live == old(t.live)
    ensures FilledTo(t.openfs, t.openfile, p, fd + 1) && forall g | 0 <= g < t.nfile :: t.ref[g] != 0 <==> g < i + 1
  {
    hide Pointers, Count;
    ghost var all, ref := t.openfs, t.ref;
    assert Pointers(all, i) == 0 && all[p][fd] == Empty;
    r := t.SysOpen(p, false);
    assert r != NullFile;
    ghost var f :| FirstUnused(ref, f) && t.ref == ref[f := 1] && t.openfs == all[p := all[p][r.fd := Open(f)]];
    assert f == i && r.fd == fd;
  }
}
