/** main of mkfs.c: an image of a root directory and the files named on the command line. */
module MkfsMain {
  import opened Bitmap
  import opened Directory
  import opened DiskInode
  import opened ImageFile
  import opened LittleEndian
  import opened Mkfs

  /** A command-line argument, and what the reads of that file gave. */
  datatype Arg = Arg(path: seq<Byte>, chunks: seq<seq<Byte>>)

  predicate ArgOk(a: Arg) { IsText(a.path) && forall i | 0 <= i < |a.chunks| :: 0 < |a.chunks[i]| <= 1024 }

  /** "src/user/" */
  const SRC_USER: seq<Byte> := [115, 114, 99, 47, 117, 115, 101, 114, 47]

  /** The name without directory and without one leading '_'. */
  function ShortName(path: seq<Byte>): seq<Byte>
  {
    var s := if SRC_USER <= path then path[9..] else path;
    if s != [] && s[0] == 95 then s[1..] else s
  }

  /** The bytes of a string literal. */
  function Ascii(t: string): (b: seq<Byte>)
    requires forall i | 0 <= i < |t| :: t[i] as int < 128
    ensures |b| == |t| && forall i | 0 <= i < |t| :: b[i] == t[i] as int
  {
    seq(|t|, i requires 0 <= i < |t| => t[i] as int)
  }

  /** Every path: one "src/user/" in front goes, then one '_', and nothing else. */
  lemma ShortNameIs(s: seq<Byte>)
    ensures ShortName(Ascii("src/user/_") + s) == s && ShortName(Ascii("_") + s) == s
    ensures !(Ascii("_") <= s) ==> ShortName(Ascii("src/user/") + s) == s
    ensures !(Ascii("_") <= s) && !(Ascii("src/user/") <= s) ==> ShortName(s) == s
  {
    assert Ascii("src/user/") == SRC_USER && Ascii("src/user/_") == SRC_USER + [95] && Ascii("_") == [95];
    assert (SRC_USER + ([95] + s))[9..] == [95] + s && SRC_USER + [95] + s == SRC_USER + ([95] + s) && ([95] + s)[1..] == s;
    assert (SRC_USER + s)[9..] == s;
    assert ([95] + s)[0] == 95;
    assert s != [] && s[0] == 95 ==> Ascii("_") <= s;
  }

  /** All the bytes of the file. */
  function Content(chunks: seq<seq<Byte>>): seq<Byte>
  {
    if chunks == [] then [] else Content(chunks[..|chunks| - 1]) + chunks[|chunks| - 1]
  }

  /** The entries of the root directory, once n arguments are done: ".", "..", and the files. */
  function Entries(args: seq<Arg>): (es: seq<Entry>)
    ensures |es| == |args| + 2
  {
    if args == [] then [Entry(1, [46]), Entry(1, [46, 46])]
    else Entries(args[..|args| - 1]) + [Entry(|args| + 1, ShortName(args[|args| - 1].path))]
  }

  /** Blocks that the files take. */
  function Needs(args: seq<Arg>): nat
  {
    if args == [] then 0 else Needs(args[..|args| - 1]) + Total(|Content(args[|args| - 1].chunks)|)
  }

  /** The files that inodes 1, 2, 3 and so on hold. */
  ghost predicate Holds(files: Files, args: seq<Arg>)
  {
    && (forall n: nat :: n in files <==> 1 <= n < |args| + 2)
    && files[1] == Data(Entries(args))
    && forall i | 0 <= i < |args| :: files[i + 2] == Content(args[i].chunks)
  }

  const LARGEST: nat := 268 * 1024

  lemma {:induction false} ContentGrows(chunks: seq<seq<Byte>>, k: nat)
    requires k <= |chunks|
    ensures |Content(chunks[..k])| <= |Content(chunks)| && (k < |chunks| ==> Content(chunks[..k + 1]) == Content(chunks[..k]) + chunks[k])
    decreases |chunks| - k
  {
    assert chunks[..|chunks|] == chunks;
    if k < |chunks| {
      ContentGrows(chunks, k + 1);
      assert chunks[..k + 1][..k] == chunks[..k];
    }
  }

  lemma NoContent(chunks: seq<seq<Byte>>)
    ensures Content(chunks[..0]) == [] && Total(0) == 0
  {
  }

  lemma {:induction false} EntriesGrow(args: seq<Arg>, k: nat)
    requires k <= |args|
    ensures Needs(args[..k]) <= Needs(args)
    ensures k < |args| ==> Needs(args[..k + 1]) == Needs(args[..k]) + Total(|Content(args[k].chunks)|)
    ensures k < |args| ==> Entries(args[..k + 1]) == Entries(args[..k]) + [Entry(k + 2, ShortName(args[k].path))]
    decreases |args| - k
  {
    assert args[..|args|] == args;
    if k < |args| {
      EntriesGrow(args, k + 1);
      assert args[..k + 1][..k] == args[..k];
    }
  }

  /** All is in order, and every inode has its size. */
  ghost predicate Sound(img: Image)
    reads img
  {
    img.Valid() && forall n | n in img.files :: img.Sized(n)
  }

  ghost function InodeOf(img: Image, n: nat): Dinode
    requires img.Valid() && n in img.files
    reads img
  {
    Known(img.sec, img.lay, img.use, img.files, n);
    InodeAt(img.sec, img.lay, n)
  }

  /** Type, device numbers and link count of an inode that ialloc has set up. */
  predicate KindIs(d: Dinode, typ: nat) { d.typ == typ && d.major == 0 && d.minor == 0 && d.nlink == 1 }

  /** The loop of main that appends what it reads of one file to an empty inode. */
  method Copy(img: Image, inum: nat, chunks: seq<seq<Byte>>) returns (ok: bool)
    requires Sound(img) && inum in img.files && img.files[inum] == []
    requires forall i | 0 <= i < |chunks| :: 0 < |chunks[i]| <= 1024
    requires img.freeblock + Total(|Content(chunks)|) <= img.lay.fssize
    modifies img
    ensures ok <==> |Content(chunks)| <= LARGEST
    ensures ok ==> Sound(img) && img.freeinode == old(img.freeinode) && img.files == old(img.files)[inum := Content(chunks)]
    ensures ok ==> img.freeblock == old(img.freeblock) + Total(|Content(chunks)|)
    ensures ok ==> SameKind(InodeOf(img, inum), old(InodeOf(img, inum))) && SameFront(img.sec, old(img.sec), img.lay)
    ensures ok ==> forall n | n in old(img.files) && n != inum :: InodeOf(img, n) == old(InodeOf(img, n))
    ensures ok ==> forall n: nat | InumOk(img.lay, n) && n != inum ::
                     InodeAt(img.sec, img.lay, n) == old(InodeAt(img.sec, img.lay, n))
  {
    hide UsesOk, Others, Owned, InodeAt, Total, Content;
    var i := 0;
    NoContent(chunks);
    SectorCount(img);
    while i < |chunks|
      invariant |img.sec| == |old(img.sec)| > img.lay.bmapstart
      invariant 0 <= i <= |chunks| && Sound(img) && img.freeinode == old(img.freeinode)
      invariant img.files == old(img.files)[inum := Content(chunks[..i])] && |Content(chunks[..i])| <= LARGEST
      invariant img.freeblock == old(img.freeblock) + Total(|Content(chunks[..i])|)
      invariant SameKind(InodeOf(img, inum), old(InodeOf(img, inum))) && SameFront(img.sec, old(img.sec), img.lay)
      invariant forall n | n in old(img.files) && n != inum :: InodeOf(img, n) == old(InodeOf(img, n))
      invariant forall n: nat | InumOk(img.lay, n) && n != inum ::
                  InodeAt(img.sec, img.lay, n) == old(InodeAt(img.sec, img.lay, n))
    {
      ContentGrows(chunks, i);
      ContentGrows(chunks, i + 1);
      TotalGrows(|Content(chunks[..i + 1])|, |Content(chunks)|);
      AllKnown(img.sec, img.lay, img.use, img.files);
      ok := img.Iappend(inum, chunks[i]);
      if !ok {
        return;
      }
      i := i + 1;
    }
    assert chunks[..i] == chunks;
    return true;
  }

  /** ialloc and the appends for one argument.  False when iappend stops the program. */
  method AddFile(img: Image, arg: Arg, rootino: nat) returns (ok: bool)
    requires Sound(img) && rootino in img.files && img.freeinode < 0x1_0000 && InumOk(img.lay, img.freeinode) && ArgOk(arg)
    requires img.freeblock + Total(|img.files[rootino]| + 16) - Total(|img.files[rootino]|) + Total(|Content(arg.chunks)|) <= img.lay.fssize
    modifies img
    ensures ok <==> |old(img.files)[rootino]| + 16 <= LARGEST && |Content(arg.chunks)| <= LARGEST
    ensures ok ==> Sound(img) && img.freeinode == old(img.freeinode) + 1
    ensures ok ==> img.files == old(img.files)[rootino := old(img.files)[rootino] + Dirent(Entry(old(img.freeinode), ShortName(arg.path)))]
                                  [old(img.freeinode) := Content(arg.chunks)]
    ensures ok ==> img.freeblock == old(img.freeblock) + Total(|old(img.files)[rootino]| + 16) - Total(|old(img.files)[rootino]|)
                                    + Total(|Content(arg.chunks)|)
    ensures ok ==> KindIs(InodeOf(img, old(img.freeinode)), 2) && SameFront(img.sec, old(img.sec), img.lay)
    ensures ok ==> forall n | n in old(img.files) :: SameKind(InodeOf(img, n), old(InodeOf(img, n)))
    ensures ok ==> forall n: nat | InumOk(img.lay, n) && n !in img.files ::
                     InodeAt(img.sec, img.lay, n) == old(InodeAt(img.sec, img.lay, n))
  {
    hide UsesOk, Others, Owned, InodeAt, Total, Dirent, Content;
    var inum := img.Ialloc(T_FILE);
    ok := img.Iappend(rootino, Dirent(Entry(inum, ShortName(arg.path))));
    if !ok {
      return;
    }
    AllKnown(img.sec, img.lay, img.use, img.files);
    ok := Copy(img, inum, arg.chunks);
  }

  /** The image of these files can be made: directory and files within the largest size, the blocks within one bitmap block. */
  predicate Fits(lay: Layout, args: seq<Arg>)
  {
    && 16 * (|args| + 2) <= LARGEST && (forall i | 0 <= i < |args| :: |Content(args[i].chunks)| <= LARGEST)
    && lay.nmeta + Total(16 * (|args| + 2)) + Needs(args) < 8192
  }

  const BLANK: Dinode := Dinode(0, 0, 0, 0, 0, seq(13, _ => 0))

  /** What main has not given out is still zero: the boot block, the blocks up to the inodes, and the other inodes. */
  ghost predicate Untouched(img: Image)
    requires img.Valid()
    reads img
  {
    && |img.sec| > img.lay.bmapstart
    && (forall b: nat | b < img.lay.inodestart && b != 1 :: IsZero(img.sec[b]))
    && forall n: nat | InumOk(img.lay, n) && n !in img.files :: InodeAt(img.sec, img.lay, n) == BLANK
  }

  /** What main has written when it ends well. */
  ghost predicate Built(img: Image, args: seq<Arg>)
    reads img
  {
    && img.Valid() && Holds(img.files, args) && Untouched(img)
    && img.freeblock == img.lay.nmeta + Total(16 * (|args| + 2)) + Needs(args)
    && (forall b: nat | b < img.lay.fssize :: InUse(img.sec, img.lay, b) <==> b < img.freeblock)
    && KindIs(InodeOf(img, 1), 1) && InodeOf(img, 1).size == (16 * (|args| + 2) / 1024 + 1) * 1024
    && forall n: nat | 1 < n < |args| + 2 :: img.Sized(n) && KindIs(InodeOf(img, n), 2)
  }

  lemma StartRoom(args: seq<Arg>)
    ensures Total(0) == 0 && Total(16) == 1 == Total(32) && 1 <= Total(16 * (|args| + 2)) && Needs(args[..0]) == 0
    ensures Data(Entries(args[..0])) == Dirent(Entry(1, [46])) + Dirent(Entry(1, [46, 46]))
  {
    hide Total, Data, Dirent;
    SmallTotals();
    TotalGrows(16, 16 * (|args| + 2));
    TwoEntries();
  }

  lemma SmallTotals()
    ensures Total(0) == 0 && Total(16) == 1 == Total(32)
  {
  }

  lemma TwoEntries()
    ensures var a, b := Entry(1, [46]), Entry(1, [46, 46]); Data([a, b]) == Dirent(a) + Dirent(b)
  {
    hide Data, Dirent;
    var a, b := Entry(1, [46]), Entry(1, [46, 46]);
    assert [] + [a] == [a] && [a] + [b] == [a, b];
    DataSnoc([], a);
    DataSnoc([a], b);
    NoData();
  }

  lemma NoData()
    ensures Data([]) == [] && forall d: seq<Byte> :: [] + d == d
  {
  }

  /** One more entry in the directory. */
  lemma DataSnoc(es: seq<Entry>, e: Entry)
    ensures Data(es + [e]) == Data(es) + Dirent(e)
  {
    assert (es + [e])[..|es|] == es;
  }

  /** Where main stands when the first arguments are done. */
  ghost predicate Underway(img: Image, done: seq<Arg>, sb: Sector)
    reads img
  {
    && Sound(img) && Holds(img.files, done) && Untouched(img) && img.freeinode == |done| + 2 && 16 * (|done| + 2) <= LARGEST
    && img.freeblock == img.lay.nmeta + Total(16 * (|done| + 2)) + Needs(done)
    && KindIs(InodeOf(img, 1), 1) && (forall n: nat | 1 < n < |done| + 2 :: KindIs(InodeOf(img, n), 2))
    && |img.sec| == img.lay.fssize > 1 && img.sec[1] == sb
    && (forall b: nat | img.lay.bmapstart <= b < img.lay.nmeta && b < |img.sec| :: IsZero(img.sec[b]))
    && forall i | 0 <= i < |done| :: |Content(done[i].chunks)| <= LARGEST
  }

  /** main up to its loop: the root directory with "." and "..". */
  method Begin(lay: Layout, sb: Sector) returns (img: Image, rootino: nat)
    requires LayoutOk(lay) && lay.nmeta < lay.fssize
    ensures fresh(img) && img.lay == lay && Underway(img, [], sb) && rootino == 1
  {
    hide UsesOk, Others, Owned, InodeAt, Total, Dirent, Content, Entries, Needs, Data;
    img := new Image(lay, sb);
    BlankInodes(img);
    rootino := img.Ialloc(T_DIR);
    assert rootino == 1;
    StartRoom([]);
    var ok := img.Iappend(rootino, Dirent(Entry(rootino, [46])));
    ok := img.Iappend(rootino, Dirent(Entry(rootino, [46, 46])));
    SectorCount(img);
  }

  lemma BlankInodes(img: Image)
    requires img.Valid() && forall b: nat | b < img.lay.fssize && b != 1 :: IsZero(img.sec[b])
    ensures |img.sec| > img.lay.bmapstart && forall n: nat | InumOk(img.lay, n) :: InodeAt(img.sec, img.lay, n) == BLANK
  {
    hide Others, Owned, Decode;
    forall n: nat | InumOk(img.lay, n)
      ensures InodeAt(img.sec, img.lay, n) == BLANK
    {
      ZeroInode(img.sec[img.lay.inodestart + n / 16][n % 16 * 64..n % 16 * 64 + 64]);
    }
  }

  lemma ZeroInode(b: seq<Byte>)
    requires |b| == 64 && forall i | 0 <= i < 64 :: b[i] == 0
    ensures Decode(b) == BLANK
  {
    hide Value, Unpack;
    UnpackZero(b[12..], 13);
    ZeroValue();
    ZeroPair();
    assert b[0..2] == [0, 0] && b[2..4] == [0, 0] && b[4..6] == [0, 0] && b[6..8] == [0, 0] && b[8..12] == [0, 0, 0, 0];
    assert Unpack(b[12..], 13) == seq(13, _ => 0);
  }

  lemma ZeroPair()
    ensures Value([0, 0]) == 0
  {
    assert [0, 0][1..] == [0] && [0][1..] == [];
    assert Value([0]) == 0;
  }

  lemma SectorCount(img: Image)
    requires img.Valid()
    ensures |img.sec| == img.lay.fssize > img.lay.bmapstart > img.lay.inodestart > 1 && LayoutOk(img.lay)
  {
  }

  /** main.  False when one of the program's assertions stops it.  The image has inodes and blocks enough. */
  method Build(lay: Layout, sb: Sector, args: seq<Arg>) returns (ok: bool, img: Image)
    requires LayoutOk(lay) && (forall i | 0 <= i < |args| :: ArgOk(args[i]))
    requires |args| + 2 <= 16 * (lay.bmapstart - lay.inodestart) && |args| + 2 <= 0x1_0000
    requires lay.nmeta + Total(16 * (|args| + 2)) + Needs(args) <= lay.fssize
    ensures fresh(img) && img.lay == lay && (ok <==> Fits(lay, args))
    ensures ok ==> Built(img, args) && img.sec[1] == sb
  {
    hide UsesOk, Others, Owned, InodeAt, Total, Dirent, Content, Entries, Needs, Data, Marked, Holds;
    StartRoom(args);
    var rootino: nat;
    img, rootino := Begin(lay, sb);
    var i := 0;
    assert args[..0] == [];
    while i < |args|
      invariant 0 <= i <= |args| && fresh(img) && img.lay == lay && Underway(img, args[..i], sb)
    {
      ok := Next(img, args, i, rootino, sb);
      if !ok {
        return;
      }
      i := i + 1;
    }
    assert args[..i] == args;
    ok := Finish(img, args, rootino, sb);
  }

  /** One round of main's loop. */
  method Next(img: Image, args: seq<Arg>, i: nat, rootino: nat, ghost sb: Sector) returns (ok: bool)
    requires i < |args| && ArgOk(args[i]) && Underway(img, args[..i], sb) && rootino == 1
    requires |args| + 2 <= 16 * (img.lay.bmapstart - img.lay.inodestart) && |args| + 2 <= 0x1_0000
    requires img.lay.nmeta + Total(16 * (|args| + 2)) + Needs(args) <= img.lay.fssize
    modifies img
    ensures ok ==> Underway(img, args[..i + 1], sb)
    ensures !ok ==> 16 * (|args| + 2) > LARGEST || |Content(args[i].chunks)| > LARGEST
  {
    hide UsesOk, Others, Owned, InodeAt, Total, Dirent, Content, Entries, Needs, Data, Untouched, ShortName, IsZero;
    SectorCount(img);
    ghost var was := img.sec;
    UntouchedParts(img);
    EntriesGrow(args, i);
    EntriesGrow(args, i + 1);
    DataSnoc(Entries(args[..i]), Entry(i + 2, ShortName(args[i].path)));
    TotalGrows(16 * (i + 3), 16 * (|args| + 2));
    ok := AddFile(img, args[i], rootino);
    if ok {
      StillUntouched(img, was);
    }
  }

  /** What a state with the same front and fewer unused inodes has kept. */
  lemma StillUntouched(img: Image, was: Sectors)
    requires img.Valid() && SameFront(img.sec, was, img.lay) && |was| > img.lay.bmapstart
    requires forall b: nat | b < img.lay.inodestart && b != 1 && b < |was| :: IsZero(was[b])
    requires forall n: nat | InumOk(img.lay, n) && n !in img.files :: InodeAt(was, img.lay, n) == BLANK
    requires forall n: nat | InumOk(img.lay, n) && n !in img.files :: InodeAt(img.sec, img.lay, n) == InodeAt(was, img.lay, n)
    ensures Untouched(img)
  {
    hide UsesOk, Others, Owned, InodeAt;
    SectorCount(img);
  }

  /** In a state before, taken apart. */
  lemma UntouchedParts(img: Image)
    requires img.Valid() && Untouched(img)
    ensures |img.sec| > img.lay.bmapstart
    ensures forall b: nat | b < img.lay.inodestart && b != 1 && b < |img.sec| :: IsZero(img.sec[b])
    ensures forall n: nat | InumOk(img.lay, n) && n !in img.files :: InodeAt(img.sec, img.lay, n) == BLANK
  {
  }

  /** balloc writes the first bitmap block; the others were zero and stay so. */
  lemma BitmapIs(was: Sectors, sec: Sectors, lay: Layout, freeblock: nat)
    requires LayoutOk(lay) && |was| == |sec| == lay.fssize && freeblock < 8192
    requires forall b: nat | lay.bmapstart <= b < lay.nmeta :: IsZero(was[b])
    requires forall b: nat | b < |sec| && b != lay.bmapstart :: sec[b] == was[b]
    requires forall b: nat | b < 8192 :: Marked(sec[lay.bmapstart], b) <==> b < freeblock
    ensures forall b: nat | b < lay.fssize :: InUse(sec, lay, b) <==> b < freeblock
  {
    hide Marked;
    forall b: nat | b < lay.fssize
      ensures InUse(sec, lay, b) <==> b < freeblock
    {
      if b >= 8192 {
        LaterBlock(lay, b);
        Unmarked(sec[BitmapBlock(lay, b)]);
      }
    }
  }

  lemma LaterBlock(lay: Layout, b: nat)
    requires LayoutOk(lay) && 8192 <= b < lay.fssize
    ensures lay.bmapstart < BitmapBlock(lay, b) < lay.nmeta
  {
    assert b / 8192 <= lay.fssize / 8192;
  }

  /** The end of main. */
  method Finish(img: Image, args: seq<Arg>, rootino: nat, ghost sb: Sector) returns (ok: bool)
    requires Underway(img, args, sb) && rootino == 1
    modifies img
    ensures ok <==> img.lay.nmeta + Total(16 * (|args| + 2)) + Needs(args) < 8192
    ensures ok ==> Built(img, args) && img.sec[1] == sb
  {
    hide UsesOk, Others, Owned, InodeAt, Total, Dirent, Content, Entries, Needs, Data, Marked;
    SectorCount(img);
    AllKnown(img.sec, img.lay, img.use, img.files);
    assert |img.files[1]| == 16 * (|args| + 2);
    img.FixSize(rootino);
    ghost var was := img.sec;
    ok := img.Balloc(img.freeblock);
    if ok {
      SectorCount(img);
      BitmapIs(was, img.sec, img.lay, img.freeblock);
      forall n: nat | 1 < n < |args| + 2
        ensures KindIs(InodeOf(img, n), 2)
      {
        assert n in img.files && InumOk(img.lay, n) && old(KindIs(InodeOf(img, n), 2));
      }
    }
  }
}
