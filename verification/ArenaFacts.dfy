/** What the order of the heap amounts to: the free list is determined by which units are free, and every unit
    obtained from sbrk is in exactly one block. */
module ArenaFacts {
  import opened Arena

  ghost function SpareUnitsOf(s: Arena): set<nat>
  {
    set u | u in s.own && s.own[u].Spare?
  }

  // ----- What free and malloc do to the free units

  lemma FreedUnits(s: Arena, k: nat, a: nat)
    requires Ok(s) && a in s.live && Before(s.list, k, a)
    ensures InMemory(s.mem, s.list) && SpareUnitsOf(Freed(s, k, a)) == SpareUnitsOf(s) + Range(a, s.live[a])
    ensures Freed(s, k, a).own.Keys == s.own.Keys
  {
    hide Ok, Freed, Low, Length, TouchesNext, TouchesPrev;
    OkMemory(s);
    FreedKeys(s, k, a);
    forall u: nat
      ensures u in SpareUnitsOf(Freed(s, k, a)) <==> u in SpareUnitsOf(s) + Range(a, s.live[a])
    {
      MergedUnits(s, k, a, u);
      LentUnits(s, a, u);
    }
  }

  lemma TakenUnits(s: Arena, i: nat, n: nat)
    requires Ok(s) && 0 < i < |s.list| && InMemory(s.mem, s.list) && n >= 1 && s.mem[s.list[i]].size >= n
    requires Cut(s, i, n) in s.mem
    ensures Range(Cut(s, i, n), n) <= SpareUnitsOf(s)
    ensures SpareUnitsOf(Taken(s, i, n)) == SpareUnitsOf(s) - Range(Cut(s, i, n), n)
    ensures Taken(s, i, n).own.Keys == s.own.Keys
  {
    hide Ok, Splice;
    forall u | u in Range(Cut(s, i, n), n)
      ensures u in SpareUnitsOf(s)
    {
      SpareUnits(s, i, u);
    }
  }

  lemma GrownUnits(s: Arena, at: nat, content: seq<Header>)
    requires content != [] && Fresh(s, at, content)
    ensures SpareUnitsOf(Grown(s, at, content)) == SpareUnitsOf(s)
    ensures Grown(s, at, content).own.Keys == s.own.Keys + Range(at, |content|)
  {
    hide Paint;
  }

  // ----- The free list is a function of the free units

  /** A block of the list starts exactly where a run of free units starts. */
  lemma StartsRun(s: Arena, u: nat)
    requires Ok(s) && u > 0
    ensures u in s.list && u != s.base <==> u in SpareUnitsOf(s) && u - 1 !in SpareUnitsOf(s)
  {
    hide Linked, LiveOk, LentOwned, Spaced, Sized;
    if u in s.list && u != s.base {
      var i :| 0 <= i < |s.list| && s.list[i] == u;
      HeadOwned(s, i);
      if u - 1 in SpareUnitsOf(s) {
        RunGoesOn(s, u - 1);
      }
    } else if u in SpareUnitsOf(s) && u - 1 !in SpareUnitsOf(s) {
      var i :| 0 <= i < |s.list| && s.list[i] == s.own[u].at;
      SpareUnits(s, i, u);
      SpareUnits(s, i, u - 1);
    }
  }

  /** Two free units side by side are in the same block. */
  lemma RunGoesOn(s: Arena, u: nat)
    requires Ok(s) && u in SpareUnitsOf(s) && u + 1 in SpareUnitsOf(s)
    ensures s.own[u] == s.own[u + 1]
  {
    hide Linked, LiveOk, LentOwned, Sized;
    var i :| 0 <= i < |s.list| && s.list[i] == s.own[u].at;
    var j :| 0 <= j < |s.list| && s.list[j] == s.own[u + 1].at;
    SpareUnits(s, i, u);
    SpareUnits(s, i, u + 1);
    SpareUnits(s, j, u + 1);
    SpareUnits(s, j, u);
  }

  ghost predicate Ascending(f: seq<nat>)
  {
    forall i, j | 0 <= i < j < |f| :: f[i] < f[j]
  }

  lemma {:induction false} SameElements(f: seq<nat>, g: seq<nat>)
    requires Ascending(f) && Ascending(g) && forall x :: x in f <==> x in g
    ensures f == g
  {
    assert g != [] ==> g[0] in g;
    if f != [] {
      assert f[0] in g;
      var m, n := |f| - 1, |g| - 1;
      LastIsGreatest(f, g);
      forall x
        ensures x in f[..m] <==> x in g[..n]
      {
        assert x in f[..m] <==> x in f && x != f[m];
        assert x in g[..n] <==> x in g && x != g[n];
      }
      SameElements(f[..m], g[..n]);
      assert f == f[..m] + [f[m]] && g == g[..n] + [g[n]];
    }
  }

  lemma LastIsGreatest(f: seq<nat>, g: seq<nat>)
    requires Ascending(f) && Ascending(g) && f != [] && g != [] && forall x :: x in f <==> x in g
    ensures f[|f| - 1] == g[|g| - 1]
  {
    var m, n := |f| - 1, |g| - 1;
    assert f[m] in g && g[n] in f;
    var i :| 0 <= i < |g| && g[i] == f[m];
    var j :| 0 <= j < |f| && f[j] == g[n];
  }

  /** Two heaps with the same free units have the same free list, block by block: coalescing leaves no choice. */
  lemma Canonical(s: Arena, t: Arena)
    requires Ok(s) && Ok(t) && s.base == t.base && SpareUnitsOf(s) == SpareUnitsOf(t)
    ensures s.list == t.list && InMemory(s.mem, s.list) && InMemory(t.mem, t.list)
    ensures forall i | 0 <= i < |s.list| :: s.mem[s.list[i]] == t.mem[s.list[i]]
  {
    hide Ok, SpareUnitsOf, Linked, Spaced, Sized;
    OkMemory(s);
    OkMemory(t);
    ListAscends(s);
    ListAscends(t);
    forall u
      ensures u in s.list <==> u in t.list
    {
      if u > 0 {
        StartsRun(s, u);
        StartsRun(t, u);
      }
      BaseFirst(s, u);
      BaseFirst(t, u);
    }
    SameElements(s.list, t.list);
    forall i | 0 <= i < |s.list|
      ensures s.mem[s.list[i]] == t.mem[s.list[i]]
    {
      SameHeader(s, t, i);
    }
  }

  lemma BaseFirst(s: Arena, u: nat)
    requires Ok(s)
    ensures s.base in s.list && (u in s.list ==> u >= s.base)
    ensures u == 0 && u in s.list ==> s.base == 0
  {
    hide Linked, LiveOk, Housed, SpareOwned, LentOwned;
    assert s.list[0] == s.base;
  }

  lemma ListAscends(s: Arena)
    requires Ok(s)
    ensures Ascending(s.list)
  {
    hide Linked, LiveOk, Housed, SpareOwned, LentOwned;
  }

  lemma SameHeader(s: Arena, t: Arena, i: nat)
    requires Ok(s) && Ok(t) && s.base == t.base && SpareUnitsOf(s) == SpareUnitsOf(t) && s.list == t.list && i < |s.list|
    ensures s.list[i] in s.mem && s.list[i] in t.mem && s.mem[s.list[i]] == t.mem[s.list[i]]
  {
    hide Ok, SpareUnitsOf;
    LinkHere(s, i);
    LinkHere(t, i);
    SizeAtMost(s, t, i);
    SizeAtMost(t, s, i);
  }

  lemma SizeAtMost(s: Arena, t: Arena, i: nat)
    requires Ok(s) && Ok(t) && SpareUnitsOf(s) == SpareUnitsOf(t) && s.list == t.list && i < |s.list|
    ensures s.list[i] in s.mem && s.list[i] in t.mem && s.mem[s.list[i]].size <= t.mem[s.list[i]].size
  {
    hide Linked, Spaced, LiveOk, LentOwned, Housed, SpareOwned;
    var a := s.list[i];
    if t.mem[a].size < s.mem[a].size && i > 0 {
      var u := a + t.mem[a].size;
      SpareUnits(s, i, u);
      SpareUnits(s, i, u - 1);
      SpareUnits(t, i, u - 1);
      SpareUnits(t, i, u);
      RunGoesOn(t, u - 1);
    }
  }

  // ----- Conservation

  ghost function FreeTotal(mem: Memory, list: seq<nat>): nat
    requires InMemory(mem, list)
  {
    if list == [] then 0 else FreeTotal(mem, list[..|list| - 1]) + mem[list[|list| - 1]].size
  }

  ghost function LentTotal(live: map<nat, nat>, blocks: seq<nat>): nat
    requires forall x | x in blocks :: x in live
  {
    if blocks == [] then 0 else LentTotal(live, blocks[..|blocks| - 1]) + live[blocks[|blocks| - 1]]
  }

  /** The units of the first blocks of the list. */
  ghost function UnitsOfFree(s: Arena, n: nat): set<nat>
    requires n <= |s.list|
  {
    set u | u in s.own && s.own[u].Spare? && s.own[u].at in s.list[..n]
  }

  ghost function UnitsOfLent(s: Arena, blocks: seq<nat>): set<nat>
  {
    set u | u in s.own && s.own[u].Lent? && s.own[u].at in blocks
  }

  lemma {:induction false} RangeSize(at: nat, n: nat)
    ensures |Range(at, n)| == n
  {
    if n > 0 {
      RangeSize(at, n - 1);
      assert Range(at, n) == Range(at, n - 1) + {at + n - 1};
    } else {
      assert Range(at, n) == {};
    }
  }

  ghost function UnitsAt(s: Arena, o: Owner): set<nat>
  {
    set u | u in s.own && s.own[u] == o
  }

  lemma FreeLast(s: Arena, n: nat)
    requires n < |s.list| && s.list[n] !in s.list[..n]
    ensures |UnitsOfFree(s, n + 1)| == |UnitsOfFree(s, n)| + |UnitsAt(s, Spare(s.list[n]))|
  {
    assert s.list[..n + 1] == s.list[..n] + [s.list[n]];
    assert UnitsOfFree(s, n + 1) == UnitsOfFree(s, n) + UnitsAt(s, Spare(s.list[n]));
  }

  lemma LentLast(s: Arena, rest: seq<nat>, a: nat)
    requires a !in rest
    ensures |UnitsOfLent(s, rest + [a])| == |UnitsOfLent(s, rest)| + |UnitsAt(s, Lent(a))|
  {
    assert UnitsOfLent(s, rest + [a]) == UnitsOfLent(s, rest) + UnitsAt(s, Lent(a));
  }

  lemma SpareCount(s: Arena, i: nat)
    requires Ok(s) && i < |s.list|
    ensures s.list[i] in s.mem && |UnitsAt(s, Spare(s.list[i]))| == s.mem[s.list[i]].size
  {
    hide Ok;
    OkMemory(s);
    var a := s.list[i];
    forall u: nat
      ensures u in Range(a, s.mem[a].size) <==> u in UnitsAt(s, Spare(a))
    {
      SpareUnits(s, i, u);
    }
    assert Range(a, s.mem[a].size) == UnitsAt(s, Spare(a));
    RangeSize(a, s.mem[a].size);
  }

  lemma LentCount(s: Arena, a: nat)
    requires Ok(s) && a in s.live
    ensures |UnitsAt(s, Lent(a))| == s.live[a]
  {
    hide Ok;
    forall u: nat
      ensures u in Range(a, s.live[a]) <==> u in UnitsAt(s, Lent(a))
    {
      LentUnits(s, a, u);
    }
    assert Range(a, s.live[a]) == UnitsAt(s, Lent(a));
    RangeSize(a, s.live[a]);
  }

  lemma {:induction false} CountFree(s: Arena, n: nat)
    requires Ok(s) && n <= |s.list|
    ensures InMemory(s.mem, s.list[..n]) && |UnitsOfFree(s, n)| == FreeTotal(s.mem, s.list[..n])
  {
    hide Ok, UnitsAt;
    OkMemory(s);
    if n == 0 {
      assert UnitsOfFree(s, 0) == {};
    } else {
      CountFree(s, n - 1);
      ListAscends(s);
      assert s.list[n - 1] !in s.list[..n - 1];
      FreeLast(s, n - 1);
      SpareCount(s, n - 1);
      assert s.list[..n][..n - 1] == s.list[..n - 1];
    }
  }

  lemma {:induction false} CountLent(s: Arena, blocks: seq<nat>)
    requires Ok(s) && (forall x | x in blocks :: x in s.live)
    requires forall i, j | 0 <= i < j < |blocks| :: blocks[i] != blocks[j]
    ensures |UnitsOfLent(s, blocks)| == LentTotal(s.live, blocks)
  {
    hide Ok, UnitsAt;
    if blocks == [] {
      assert UnitsOfLent(s, blocks) == {};
    } else {
      var n := |blocks| - 1;
      CountLent(s, blocks[..n]);
      LentLast(s, blocks[..n], blocks[n]);
      LentCount(s, blocks[n]);
      assert blocks == blocks[..n] + [blocks[n]];
    }
  }

  /** Free plus lent units are exactly the units obtained, in whatever order the lent blocks are listed. */
  lemma Conservation(s: Arena, blocks: seq<nat>)
    requires Ok(s) && (forall x :: x in blocks <==> x in s.live)
    requires forall i, j | 0 <= i < j < |blocks| :: blocks[i] != blocks[j]
    ensures InMemory(s.mem, s.list) && |s.own| == FreeTotal(s.mem, s.list) + LentTotal(s.live, blocks)
  {
    hide ListOk, LiveOk, SpareOwned, LentOwned;
    OkMemory(s);
    CountFree(s, |s.list|);
    CountLent(s, blocks);
    assert s.list[..|s.list|] == s.list;
    assert s.own.Keys == UnitsOfFree(s, |s.list|) + UnitsOfLent(s, blocks);
    assert |s.own.Keys| == |s.own|;
  }

  /** Sizes fit the 32-bit size field when addresses have 32 bits. */
  lemma SizesFit(s: Arena, i: nat)
    requires Ok(s) && (forall u | u in s.own :: u < 0x1000_0000) && i < |s.list|
    ensures s.list[i] in s.mem && s.mem[s.list[i]].size <= 0x1000_0000
  {
    hide Linked, Spaced, LiveOk, LentOwned, Housed, SpareOwned;
    if s.mem[s.list[i]].size > 0 {
      SpareUnits(s, i, s.list[i] + s.mem[s.list[i]].size - 1);
    }
  }
}
