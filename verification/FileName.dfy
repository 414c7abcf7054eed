/** Looking names up in a directory: inodeByName of fs.c, and the directory that mkfs builds. */
module FileName {
  import opened Directory
  import opened DiskInode
  import opened FileRead
  import opened ImageFile
  import opened KernelFs
  import opened LittleEndian
  import opened Mkfs
  import opened MkfsMain
  import opened Numbers

  /** The inode number for iget; or no such name; or a panic, be it balloc's, bmap's or its own. */
  datatype Lookup = Found(inum: nat) | Absent | Halted

  ghost predicate First(es: seq<Entry>, name: seq<Byte>, k: int)
  {
    0 <= k < |es| && Matches(es[k], name) && forall j | 0 <= j < k :: !Matches(es[j], name)
  }

  ghost predicate Unlisted(es: seq<Entry>, name: seq<Byte>) { forall j | 0 <= j < |es| :: !Matches(es[j], name) }

  /** The directory with these entries, in nb blocks. */
  ghost predicate Dir(sec: Sectors, use: Uses, inum: nat, d: Dinode, nb: nat, es: seq<Entry>)
  {
    && FileOk(sec, use, inum, d, nb, Data(es)) && d.size == (16 * |es| / 1024 + 1) * 1024
    && forall i | 0 <= i < |es| :: EntryOk(es[i])
  }

  /** A directory as mkfs leaves it: its size is a whole number of blocks, and more than the entries take. */
  ghost predicate Fresh(sec: Sectors, lay: Layout, use: Uses, freeblock: nat, inum: nat, d: Dinode, es: seq<Entry>)
  {
    && Mounted(sec, lay, use, freeblock) && Dir(sec, use, inum, d, Blocks(16 * |es|), es) && Tight(d, Blocks(16 * |es|))
  }

  /** The directory's size takes in a block it does not have; a lookup that gets there allocates one. */
  predicate Short(es: seq<Entry>) { |es| % 64 == 0 }

  /** That can be done. */
  predicate Allocatable(lay: Layout, freeblock: nat, es: seq<Entry>)
  {
    |es| / 64 < 268 && freeblock + Need(|es| / 64) <= lay.fssize
  }

  /** Where a lookup stands that has read the first off bytes. */
  ghost predicate Reading(lay: Layout, sec0: Sectors, d0: Dinode, use: Uses, freeblock: nat, inum: nat, es: seq<Entry>, off: nat,
                          sec: Sectors, d: Dinode)
  {
    var nb := Blocks(16 * |es|);
    if off <= nb * 1024 then sec == sec0 && d == d0
    else Short(es) && Allocatable(lay, freeblock, es)
         && Mounted(sec, lay, GrownUse(use, inum, nb, freeblock), freeblock + Need(nb))
         && Dir(sec, GrownUse(use, inum, nb, freeblock), inum, d, nb + 1, es)
  }

  /**
   * inodeByName: the first entry with the name.  An absent name is reported, and when 64 divides the number of entries
   * the directory has then taken a block, in the buffers and the in-core inode alone; or there was none to take.
   */
  method InodeByName(fs: FileSystem, ip: Inode, name: seq<Byte>, ghost use: Uses, ghost freeblock: nat, ghost inum: nat, ghost es: seq<Entry>)
    returns (l: Lookup)
    requires Fresh(fs.sec, fs.lay, use, freeblock, inum, ip.d, es) && IsText(name) && name != []
    modifies fs`sec, ip
    ensures forall k | First(es, name, k) :: l == Found(es[k].inum)
    ensures !Unlisted(es, name) || !Short(es) ==> fs.sec == old(fs.sec) && ip.d == old(ip.d)
    ensures Unlisted(es, name) ==> l == if Short(es) && !Allocatable(fs.lay, freeblock, es) then Halted else Absent
    ensures l == Absent && Short(es) ==>
              var nb := |es| / 64;
              && Mounted(fs.sec, fs.lay, GrownUse(use, inum, nb, freeblock), freeblock + Need(nb))
              && Dir(fs.sec, GrownUse(use, inum, nb, freeblock), inum, ip.d, nb + 1, es)
  {
    hide Reading, Fresh, Mounted, Dir, SameAgain, Strncmp, Value, Matches, Addr, Mapped, Readable, Allocatable, LayoutOk;
    ghost var sec0, d0 := fs.sec, ip.d;
    ReadingStarts(fs.lay, sec0, d0, use, freeblock, inum, es);
    var off := 0;
    while off < ip.d.size
      invariant 0 <= off <= ip.d.size == d0.size && off % 16 == 0 && fs.Valid()
      invariant Reading(fs.lay, sec0, d0, use, freeblock, inum, es, off, fs.sec, ip.d)
      invariant forall j | 0 <= j < |es| && 16 * j < off :: !Matches(es[j], name)
    {
      Step(fs.lay, sec0, d0, use, freeblock, inum, es, off, fs.sec, ip.d);
      var r := fs.Readi(ip, off, 16);
      if r.Panicked? {
        return Halted;
      }
      if |r.data| != 16 {
        return Halted;
      }
      EntryHere(fs.lay, sec0, d0, use, freeblock, inum, es, off, fs.sec, ip.d, r.data, name);
      if Strncmp(name, r.data[2..], 14) == 0 {
        return Found(Value(r.data[..2]));
      }
      off := off + 16;
    }
    Done(fs.lay, sec0, d0, use, freeblock, inum, es, off, fs.sec, ip.d);
    return Absent;
  }

  lemma ReadingStarts(lay: Layout, sec0: Sectors, d0: Dinode, use: Uses, freeblock: nat, inum: nat, es: seq<Entry>)
    requires Fresh(sec0, lay, use, freeblock, inum, d0, es)
    ensures Reading(lay, sec0, d0, use, freeblock, inum, es, 0, sec0, d0) && LayoutOk(lay) && |sec0| == lay.fssize
  {
    hide InUse, FileOk, Dir;
  }

  /** One more entry to read: it is there, or the block for it can be had, or this is the end. */
  lemma Step(lay: Layout, sec0: Sectors, d0: Dinode, use: Uses, freeblock: nat, inum: nat, es: seq<Entry>, off: nat, sec: Sectors, d: Dinode)
    requires Fresh(sec0, lay, use, freeblock, inum, d0, es) && Reading(lay, sec0, d0, use, freeblock, inum, es, off, sec, d)
    requires off % 16 == 0 && off < d0.size && d.size == d0.size
    ensures Readable(sec, lay, d, off / 1024) && off + 16 <= d.size < 0x1_0000_0000
    ensures LayoutOk(lay) && |sec| == lay.fssize && |d.addrs| == 13 && d.addrs[12] < |sec|
    ensures var m := Mapped(lay, sec, d, off / 1024);
            if m.w.InBlock? then m.d.size == d0.size && Reading(lay, sec0, d0, use, freeblock, inum, es, off + 16, m.sec, m.d)
            else off == 16 * |es| && Short(es) && !Allocatable(lay, freeblock, es)
  {
    hide Mounted, EntryOk, Data, FileOk, Mapped, Readable, Addr, GrownUse, Tight, LayoutOk;
    var nb := Blocks(16 * |es|);
    Sizes(es);
    if off < nb * 1024 {
      InPlace(lay, sec0, use, freeblock, inum, d0, nb, es, off);
    } else if off == nb * 1024 {
      AtEnd(lay, sec0, use, freeblock, inum, d0, nb, es);
    } else {
      InPlace(lay, sec, GrownUse(use, inum, nb, freeblock), freeblock + Need(nb), inum, d, nb + 1, es, off);
    }
  }

  lemma Sizes(es: seq<Entry>)
    ensures var nb := Blocks(16 * |es|);
            if Short(es) then nb == |es| / 64 && 16 * |es| == nb * 1024 && (16 * |es| / 1024 + 1) * 1024 == (nb + 1) * 1024
            else (16 * |es| / 1024 + 1) * 1024 == nb * 1024
  {
    var q, r := |es| / 64, |es| % 64;
    assert 16 * |es| == q * 1024 + 16 * r;
    QuotientIs(16 * |es|, 1024, q, 16 * r);
    if r == 0 {
      QuotientIs(16 * |es| + 1023, 1024, q, 1023);
    } else {
      QuotientIs(16 * |es| + 1023, 1024, q + 1, 16 * r - 1);
    }
  }

  lemma InPlace(lay: Layout, sec: Sectors, use: Uses, freeblock: nat, inum: nat, d: Dinode, nb: nat, es: seq<Entry>, off: nat)
    requires Mounted(sec, lay, use, freeblock) && Dir(sec, use, inum, d, nb, es) && off < nb * 1024
    ensures LayoutOk(lay) && |sec| == lay.fssize && |d.addrs| == 13 && d.addrs[12] < |sec| && d.size < 0x1_0000_0000
    ensures off / 1024 < 268 && Readable(sec, lay, d, off / 1024)
    ensures Mapped(lay, sec, d, off / 1024) == Mapping(sec, d, InBlock(Addr(sec, d, off / 1024)))
  {
    hide InUse, FileOk, Addr, Data, Mapped;
    MountedFacts(sec, lay, use, freeblock);
    FileFacts(sec, use, inum, d, nb, Data(es));
    AddrFacts(sec, lay, use, freeblock, inum, d, nb, Data(es), off / 1024);
    FoundAgain(lay, sec, d, off / 1024);
  }

  lemma AtEnd(lay: Layout, sec: Sectors, use: Uses, freeblock: nat, inum: nat, d: Dinode, nb: nat, es: seq<Entry>)
    requires Mounted(sec, lay, use, freeblock) && Dir(sec, use, inum, d, nb, es) && Tight(d, nb)
    ensures LayoutOk(lay) && |sec| == lay.fssize && |d.addrs| == 13 && d.addrs[12] < |sec| && d.size < 0x1_0000_0000 && Readable(sec, lay, d, nb)
    ensures var m := Mapped(lay, sec, d, nb);
            if nb < 268 && freeblock + Need(nb) <= lay.fssize
            then m.w.InBlock? && m.d.size == d.size
                 && Mounted(m.sec, lay, GrownUse(use, inum, nb, freeblock), freeblock + Need(nb))
                 && Dir(m.sec, GrownUse(use, inum, nb, freeblock), inum, m.d, nb + 1, es)
            else m.w.Panics?
  {
    hide InUse, FileOk, Addr, Data, Mapped, UsesOk, EntryOk;
    MountedFacts(sec, lay, use, freeblock);
    FileFacts(sec, use, inum, d, nb, Data(es));
    if nb < 268 {
      NoBlock(sec, use, inum, d, nb, Data(es));
    }
    MapNext(sec, lay, use, freeblock, inum, d, nb, Data(es));
  }

  lemma EntryHere(lay: Layout, sec0: Sectors, d0: Dinode, use: Uses, freeblock: nat, inum: nat, es: seq<Entry>, off: nat, sec: Sectors, d: Dinode,
                  data: seq<Byte>, name: seq<Byte>)
    requires Fresh(sec0, lay, use, freeblock, inum, d0, es) && Reading(lay, sec0, d0, use, freeblock, inum, es, off + 16, sec, d)
    requires off % 16 == 0 && off < d0.size && IsText(name) && name != []
    requires |d.addrs| == 13 && d.addrs[12] < |sec| && |data| == 16 && forall i | 0 <= i < 16 :: SameAgain(sec, d, off, data, i)
    ensures Strncmp(name, data[2..], 14) == 0 <==> off / 16 < |es| && Matches(es[off / 16], name)
    ensures off / 16 < |es| ==> Value(data[..2]) == es[off / 16].inum
    ensures Strncmp(name, data[2..], 14) == 0 ==> sec == sec0 && d == d0
  {
    hide Mounted, FileOk, SameAgain, Strncmp, Value, Matches, Data, EntryOk;
    var nb := Blocks(16 * |es|);
    Sizes(es);
    if off < nb * 1024 {
      EntryAt(sec, use, inum, d, nb, es, off, data, name);
    } else {
      EntryAt(sec, GrownUse(use, inum, nb, freeblock), inum, d, nb + 1, es, off, data, name);
    }
  }

  lemma Done(lay: Layout, sec0: Sectors, d0: Dinode, use: Uses, freeblock: nat, inum: nat, es: seq<Entry>, off: nat, sec: Sectors, d: Dinode)
    requires Fresh(sec0, lay, use, freeblock, inum, d0, es) && Reading(lay, sec0, d0, use, freeblock, inum, es, off, sec, d)
    requires off == d0.size
    ensures 16 * |es| < off
    ensures if Short(es) then
              var nb := |es| / 64;
              && Allocatable(lay, freeblock, es) && Mounted(sec, lay, GrownUse(use, inum, nb, freeblock), freeblock + Need(nb))
              && Dir(sec, GrownUse(use, inum, nb, freeblock), inum, d, nb + 1, es)
            else sec == sec0 && d == d0
  {
    hide Mounted, FileOk, Data, EntryOk;
    Sizes(es);
  }

  /** Sixteen bytes at a time: the entries one by one, then zeros, which no name matches. */
  lemma EntryAt(sec: Sectors, use: Uses, inum: nat, d: Dinode, nb: nat, es: seq<Entry>, off: nat, data: seq<Byte>, name: seq<Byte>)
    requires Dir(sec, use, inum, d, nb, es) && IsText(name) && name != [] && off % 16 == 0 && off < nb * 1024
    requires |d.addrs| == 13 && d.addrs[12] < |sec| && |data| == 16 && forall i | 0 <= i < 16 :: SameAgain(sec, d, off, data, i)
    ensures Strncmp(name, data[2..], 14) == 0 <==> off / 16 < |es| && Matches(es[off / 16], name)
    ensures off / 16 < |es| ==> Value(data[..2]) == es[off / 16].inum
  {
    hide FileOk, Addr, ByteOf, Strncmp, Value, Matches, Dirent;
    var k := off / 16;
    forall i: nat | i < 16 { EntryByte(sec, use, inum, d, nb, es, off, data, i); }
    if k < |es| {
      DataAt(es, k);
      assert data == Data(es)[16 * k..16 * k + 16];
      EntryRead(es[k], name);
    } else {
      ZeroEntry(data[2..], name);
    }
  }

  lemma EntryByte(sec: Sectors, use: Uses, inum: nat, d: Dinode, nb: nat, es: seq<Entry>, off: nat, data: seq<Byte>, i: nat)
    requires Dir(sec, use, inum, d, nb, es) && off % 16 == 0 && off < nb * 1024 && i < 16
    requires |d.addrs| == 13 && d.addrs[12] < |sec| && |data| == 16 && SameAgain(sec, d, off, data, i)
    ensures data[i] == if off + i < 16 * |es| then Data(es)[off + i] else 0
  {
    hide FileOk, Addr, ByteOf, Data, SameAgain, Blocks;
    Aligned(off, i, nb);
    FirstRound(sec, d, off, data, i);
    ByteIs(sec, use, inum, d, nb, Data(es), off + i);
  }

  lemma Aligned(off: nat, i: nat, nb: nat)
    requires off % 16 == 0 && i < 16 && off < nb * 1024
    ensures i < 1024 - off % 1024 && off + i < nb * 1024
  {
    var k := off / 16;
    assert off == 16 * k && k < nb * 64;
    assert k % 64 < 64 && off % 1024 == 16 * (k % 64);
  }

  /**
   * rootsub: the root directory of an image that main of mkfs has built, looked up through buffers that hold what the image holds.
   * Nothing is written back: a block that the lookup takes is in use for the kernel, and free on the disk.
   */
  method RootSub(img: Image, name: seq<Byte>, ghost args: seq<Arg>) returns (l: Lookup, fs: FileSystem)
    requires Built(img, args) && IsText(name) && name != [] && |args| + 2 <= 0x1_0000
    requires forall i | 0 <= i < |args| :: IsText(args[i].path)
    ensures fs.lay == img.lay && forall k | First(Entries(args), name, k) :: l == Found(if k < 2 then 1 else k as nat)
    ensures Unlisted(Entries(args), name) ==>
              l == if Short(Entries(args)) && !Allocatable(img.lay, img.freeblock, Entries(args)) then Halted else Absent
    ensures forall b: nat | b < img.lay.fssize :: InUse(img.sec, img.lay, b) <==> b < img.freeblock
    ensures Unlisted(Entries(args), name) && l == Absent ==>
              var taken := if Short(Entries(args)) then Need((|args| + 2) / 64) else 0;
              forall b: nat | b < img.lay.fssize :: InUse(fs.sec, img.lay, b) <==> b < img.freeblock + taken
  {
    hide Fresh, Built, InUse, LayoutOk, Entries, Mounted, Dir, Matches, Allocatable, Short, Need, GrownUse, Unlisted, InodeAt,
      IsText;
    RootFresh(img, args);
    EntriesAre(args);
    var d := img.Rinode(1);
    fs := new FileSystem(img.lay, img.sec);
    var ip := new Inode(d);
    l := InodeByName(fs, ip, name, img.use, img.freeblock, 1, Entries(args));
    if l == Absent && Short(Entries(args)) {
      MountedBits(fs.sec, img.lay, GrownUse(img.use, 1, (|args| + 2) / 64, img.freeblock), img.freeblock + Need((|args| + 2) / 64));
    }
  }

  /** An image of 62 empty files, and a name that is not in it: the lookup takes block 12 for good, and the disk does not know. */
  method LostBlock(sb: Sector) returns (img: Image, fs: FileSystem)
    ensures img.lay == fs.lay && InUse(fs.sec, fs.lay, 12) && !InUse(img.sec, img.lay, 12)
  {
    hide Built, InUse, Content, Entries, Needs, Matches, Total;
    var lay := Layout(200, 2, 10, 11);
    var args := seq(62, _ => Arg([97], []));
    EmptyFiles(args);
    NotThere(args, [98]);
    assert IsText([97]) && IsText([98]);
    var ok, l;
    ok, img := Build(lay, sb, args);
    BuiltSize(img, args);
    l, fs := RootSub(img, [98], args);
  }

  lemma BuiltSize(img: Image, args: seq<Arg>)
    requires Built(img, args)
    ensures img.freeblock == img.lay.nmeta + Total(16 * (|args| + 2)) + Needs(args)
  {
    hide Total, Needs;
  }

  lemma {:induction false} EmptyFiles(args: seq<Arg>)
    requires forall i | 0 <= i < |args| :: args[i].chunks == []
    ensures Needs(args) == 0 && Content([]) == [] && Total(0) == 0 && Total(1024) == 1
  {
    if args != [] {
      EmptyFiles(args[..|args| - 1]);
    }
  }

  lemma {:induction false} NotThere(args: seq<Arg>, name: seq<Byte>)
    requires name == [98] && forall i | 0 <= i < |args| :: args[i].path == [97]
    ensures Unlisted(Entries(args), name)
  {
    hide Matches;
    assert ShortName([97]) == [97];
    OtherName([46], name);
    OtherName([46, 46], name);
    OtherName([97], name);
    if args != [] {
      NotThere(args[..|args| - 1], name);
    }
  }

  lemma OtherName(s: seq<Byte>, t: seq<Byte>)
    requires t == [98] && 0 < |s| <= 14 && s[0] != 98
    ensures forall n: nat :: !Matches(Entry(n, s), t)
  {
  }

  lemma MountedBits(sec: Sectors, lay: Layout, use: Uses, freeblock: nat)
    requires Mounted(sec, lay, use, freeblock)
    ensures forall b: nat | b < lay.fssize :: InUse(sec, lay, b) <==> b < freeblock
  {
    hide InUse;
  }

  lemma RootFresh(img: Image, args: seq<Arg>)
    requires Built(img, args) && |args| + 2 <= 0x1_0000 && forall i | 0 <= i < |args| :: IsText(args[i].path)
    ensures LayoutOk(img.lay) && |img.sec| == img.lay.fssize && img.lay.inodestart < |img.sec|
    ensures Fresh(img.sec, img.lay, img.use, img.freeblock, 1, InodeAt(img.sec, img.lay, 1), Entries(args))
    ensures forall b: nat | b < img.lay.fssize :: InUse(img.sec, img.lay, b) <==> b < img.freeblock
  {
    hide FileOk, InodeAt, Entries, Data, EntryOk, Blocks, Built, IsText, InUse;
    BuiltFacts(img, args);
    EntriesAre(args);
    UsesFacts(img.sec, img.lay, img.use, img.freeblock);
  }

  lemma BuiltFacts(img: Image, args: seq<Arg>)
    requires Built(img, args)
    ensures UsesOk(img.sec, img.lay, img.use, img.freeblock)
    ensures forall b: nat | b < img.lay.fssize :: InUse(img.sec, img.lay, b) <==> b < img.freeblock
    ensures img.lay.inodestart < |img.sec| && 1 in img.files && img.files[1] == Data(Entries(args))
    ensures var d := InodeAt(img.sec, img.lay, 1);
            && d.size == (16 * (|args| + 2) / 1024 + 1) * 1024 && Tight(d, Blocks(|img.files[1]|))
            && FileOk(img.sec, img.use, 1, d, Blocks(|img.files[1]|), img.files[1])
  {
    hide FileOk, InodeAt, Entries, Data, UsesOk, Others, Blocks, InUse;
    UsesFacts(img.sec, img.lay, img.use, img.freeblock);
    FileThere(img.sec, img.lay, img.use, img.files, 1);
  }

  lemma FileThere(sec: Sectors, lay: Layout, use: Uses, files: Files, inum: nat)
    requires Others(sec, lay, use, files, 0) && inum in files && inum > 0
    ensures lay.inodestart + inum / 16 < lay.bmapstart <= |sec|
    ensures FileOk(sec, use, inum, InodeAt(sec, lay, inum), Blocks(|files[inum]|), files[inum])
    ensures Tight(InodeAt(sec, lay, inum), Blocks(|files[inum]|))
  {
    assert FileHere(sec, lay, use, inum, files[inum]);
  }

  lemma {:induction false} EntriesAre(args: seq<Arg>)
    requires |args| + 2 <= 0x1_0000 && forall i | 0 <= i < |args| :: IsText(args[i].path)
    ensures forall k | 0 <= k < |args| + 2 :: EntryOk(Entries(args)[k]) && Entries(args)[k].inum == if k < 2 then 1 else k
    ensures Entries(args)[0].name == Ascii(".") && Entries(args)[1].name == Ascii("..")
    ensures forall k | 2 <= k < |args| + 2 :: Entries(args)[k].name == ShortName(args[k - 2].path)
  {
    hide IsText;
    if args != [] {
      var last := |args| - 1;
      EntriesAre(args[..last]);
      ShortText(args[last].path);
    } else {
      DotText();
    }
  }

  lemma DotText()
    ensures IsText([46]) && IsText([46, 46]) && [46] == Ascii(".") && [46, 46] == Ascii("..")
  {
  }

  lemma ShortText(path: seq<Byte>)
    requires IsText(path)
    ensures IsText(ShortName(path))
  {
  }
}
