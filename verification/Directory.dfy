/** Directory entries: a 16-bit inode number and a 14-byte name, padded with zeros (fs.h), and the C string functions on them. */
module Directory {
  import opened LittleEndian

  /** A C string, without its terminating zero. */
  predicate IsText(s: seq<Byte>) { forall i | 0 <= i < |s| :: s[i] != 0 }

  /** At most n characters of it. */
  function Cut(s: seq<Byte>, n: nat): seq<Byte> { if |s| <= n then s else s[..n] }

  /** What strncpy(field, s, n) leaves in the field. */
  function Field(s: seq<Byte>, n: nat): (f: seq<Byte>)
    ensures |f| == n
  {
    Cut(s, n) + seq(n - |Cut(s, n)|, _ => 0)
  }

  /** strncmp, for a string p and a field q that may lack a terminator. */
  function Strncmp(p: seq<Byte>, q: seq<Byte>, n: nat): int
    requires |q| == n
    decreases n
  {
    if n > 0 && p != [] && p[0] == q[0] then Strncmp(p[1..], q[1..], n - 1)
    else if n == 0 then 0
    else (if p != [] then p[0] as int else 0) - q[0] as int
  }

  /** It finds two names equal exactly when their first n characters are. */
  lemma {:induction false} StrncmpIs(p: seq<Byte>, s: seq<Byte>, n: nat)
    requires IsText(p) && IsText(s)
    ensures Strncmp(p, Field(s, n), n) == 0 <==> Cut(p, n) == Cut(s, n)
    decreases n
  {
    if n > 0 && p != [] && s != [] {
      CutStep(p, s, n);
      if p[0] == s[0] {
        StrncmpIs(p[1..], s[1..], n - 1);
        assert Field(s, n)[1..] == Field(s[1..], n - 1);
      }
    }
  }

  lemma CutStep(p: seq<Byte>, s: seq<Byte>, n: nat)
    requires n > 0 && p != [] && s != []
    ensures Cut(p, n) == Cut(s, n) <==> p[0] == s[0] && Cut(p[1..], n - 1) == Cut(s[1..], n - 1)
  {
    assert Cut(p, n) == [p[0]] + Cut(p[1..], n - 1) && Cut(s, n) == [s[0]] + Cut(s[1..], n - 1);
    assert Cut(p, n)[0] == p[0] && Cut(s, n)[0] == s[0];
    assert Cut(p, n)[1..] == Cut(p[1..], n - 1) && Cut(s, n)[1..] == Cut(s[1..], n - 1);
  }

  datatype Entry = Entry(inum: nat, name: seq<Byte>)

  predicate EntryOk(e: Entry) { e.inum < 0x1_0000 && IsText(e.name) }

  function Dirent(e: Entry): (d: seq<Byte>)
    ensures |d| == 16
  {
    Bytes(e.inum, 2) + Field(e.name, 14)
  }

  /** The content of a directory with these entries. */
  function Data(es: seq<Entry>): (d: seq<Byte>)
    ensures |d| == 16 * |es|
  {
    if es == [] then [] else Data(es[..|es| - 1]) + Dirent(es[|es| - 1])
  }

  lemma {:induction false} DataAt(es: seq<Entry>, k: nat)
    requires k < |es|
    ensures Data(es)[16 * k..16 * k + 16] == Dirent(es[k])
  {
    hide Dirent;
    var last := |es| - 1;
    DataLast(es);
    if k < last {
      DataAt(es[..last], k);
      assert Data(es)[16 * k..16 * k + 16] == Data(es[..last])[16 * k..16 * k + 16];
    }
  }

  lemma DataLast(es: seq<Entry>)
    requires es != []
    ensures Data(es) == Data(es[..|es| - 1]) + Dirent(es[|es| - 1]) && |Data(es[..|es| - 1])| == 16 * (|es| - 1)
  {
  }

  /** The two parts of an entry are read back as they were written. */
  lemma DirentParts(e: Entry)
    requires EntryOk(e)
    ensures Value(Dirent(e)[..2]) == e.inum && Dirent(e)[2..] == Field(e.name, 14)
  {
    Limits();
    ValueOfBytes(e.inum, 2);
    assert Dirent(e)[..2] == Bytes(e.inum, 2);
  }

  /** The entry is the one a lookup of this name means: names count up to 14 characters. */
  predicate Matches(e: Entry, name: seq<Byte>) { Cut(e.name, 14) == Cut(name, 14) }

  lemma EntryRead(e: Entry, name: seq<Byte>)
    requires EntryOk(e) && IsText(name)
    ensures Strncmp(name, Dirent(e)[2..], 14) == 0 <==> Matches(e, name)
    ensures Value(Dirent(e)[..2]) == e.inum
  {
    hide Strncmp, Cut, Field, Value;
    DirentParts(e);
    StrncmpIs(name, e.name, 14);
  }

  /** No name but the empty one matches an entry of zeros. */
  lemma ZeroEntry(d: seq<Byte>, name: seq<Byte>)
    requires |d| == 14 && (forall i | 0 <= i < 14 :: d[i] == 0) && IsText(name)
    ensures Strncmp(name, d, 14) == 0 <==> name == []
  {
  }
}
