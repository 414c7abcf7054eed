/** The user-space allocator of umem.c: malloc, free and morecore on the heap of Arena. */
module Umem {
  import opened Arena
  import opened ArenaFacts

  /** sbrk's answer to one request: the region it added, with whatever it holds, or -1. */
  datatype Grant = Refused | Region(at: nat, content: seq<Header>)

  /** nunits: the header, and nbytes rounded up to whole headers. */
  function Units(nbytes: nat): (n: nat)
    ensures n >= 1 && (n - 1) * 16 >= nbytes && (n - 1) * 16 < nbytes + 16
  {
    (nbytes + 15) / 16 + 1
  }

  /** morecore asks for at least 4096 units. */
  function Request(nu: nat): nat
  {
    if nu < 4096 then 4096 else nu
  }

  /** sbrk is asked for 64 KiB, or for the block and its header when they take more. */
  lemma RequestBytes(nbytes: nat)
    ensures nbytes <= 0xfff0 ==> Request(Units(nbytes)) * 16 == 0x1_0000
    ensures nbytes > 0xfff0 ==> nbytes + 16 <= Request(Units(nbytes)) * 16 < nbytes + 32
  {
  }

  /** sbrk takes an int: the byte count is cut to 32 bits and read as signed. */
  function ToInt32(n: nat): int
  {
    var low := n % 0x1_0000_0000;
    if low < 0x8000_0000 then low else low - 0x1_0000_0000
  }

  /** morecore asks sbrk for the bytes it then counts as its own exactly when they are fewer than 2^31. */
  lemma SbrkArgumentExact(nbytes: nat)
    requires nbytes < 0x1_0000_0000
    ensures ToInt32(Request(Units(nbytes)) * 16) == Request(Units(nbytes)) * 16 <==> nbytes <= 0x7fff_ffe0
  {
    var n := Units(nbytes);
    assert n == (nbytes + 15) / 16 + 1;
    assert n <= 0x1000_0001;
    assert n < 0x800_0000 <==> nbytes <= 0x7fff_ffe0;
    if n == 0x1000_0001 {
      assert n * 16 % 0x1_0000_0000 == 16;
    } else if n == 0x1000_0000 {
      assert n * 16 % 0x1_0000_0000 == 0;
    }
  }

  /** malloc(0xffffffff) asks sbrk for 16 bytes, and would then count 2^28 + 1 headers as its own. */
  lemma SbrkArgumentCut()
    ensures Units(0xffff_ffff) == 0x1000_0001 && ToInt32(Request(Units(0xffff_ffff)) * 16) == 16
  {
  }

  /** The index after i in the circle. */
  function Next(list: seq<nat>, i: nat): nat
  {
    if i + 1 < |list| then i + 1 else 0
  }

  /** How far i is after k0 in the circle, the block after k0 first and k0 itself last. */
  function Turn(list: seq<nat>, k0: nat, i: nat): int
  {
    if i > k0 then i - k0 - 1 else |list| + i - k0 - 1
  }

  predicate Fits(s: Arena, i: nat, n: nat)
  {
    i < |s.list| && s.list[i] in s.mem && s.mem[s.list[i]].size >= n
  }

  /** The blocks the search from block k0 has passed, all too small. */
  ghost predicate Passed(s: Arena, k0: nat, i: nat, n: nat)
  {
    forall h | 0 <= h < |s.list| && Turn(s.list, k0, h) < Turn(s.list, k0, i) :: !Fits(s, h, n)
  }

  ghost predicate NoneFits(s: Arena, n: nat)
  {
    forall h | 0 <= h < |s.list| :: !Fits(s, h, n)
  }

  lemma PassOn(s: Arena, k0: nat, i: nat, n: nat)
    requires Passed(s, k0, i, n) && !Fits(s, i, n) && k0 < |s.list| && i < |s.list|
    ensures i != k0 ==> Passed(s, k0, Next(s.list, i), n) && Turn(s.list, k0, Next(s.list, i)) == Turn(s.list, k0, i) + 1
    ensures i == k0 ==> NoneFits(s, n)
  {
  }

  /** A block found by the search is the first one after k0 that fits. */
  ghost predicate FirstFit(s: Arena, k0: nat, i: nat, n: nat)
  {
    Fits(s, i, n) && Passed(s, k0, i, n)
  }

  lemma Follow(s: Arena, i: nat)
    requires Ok(s) && i < |s.list|
    ensures s.list[i] in s.mem && s.mem[s.list[i]].ptr == s.list[Next(s.list, i)]
  {
    hide Spaced, Sized, LiveOk, Housed, SpareOwned, LentOwned;
    LinkHere(s, i);
  }

  /** The list as malloc makes it the first time. */
  ghost function Initial(mem: Memory, base: nat): Arena
  {
    Arena(mem[base := Header(base, 0)], base, [base], map[], map[])
  }

  lemma InitialOk(mem: Memory, base: nat)
    ensures Ok(Initial(mem, base)) && SpareUnitsOf(Initial(mem, base)) == {}
  {
    var s := Initial(mem, base);
    assert LinkAt(s.mem, s.list, 0);
  }

  /** Some free block holds the whole of the block just freed. */
  lemma MergedFits(s: Arena, k: nat, a: nat) returns (i: nat)
    requires Ok(s) && a in s.live && Before(s.list, k, a)
    ensures InMemory(s.mem, s.list) && Fits(Freed(s, k, a), i, s.live[a])
  {
    hide Ok, Freed, TouchesNext, TouchesPrev;
    OkMemory(s);
    FreedHeaders(s, k, a);
    var t := Freed(s, k, a);
    i :| 0 <= i < |t.list| && t.list[i] == Low(s, k, a);
    LongEnough(s, k, a);
  }

  lemma LongEnough(s: Arena, k: nat, a: nat)
    requires Ok(s) && a in s.live && Before(s.list, k, a)
    ensures InMemory(s.mem, s.list) && Length(s, k, a) >= s.live[a]
  {
    hide Linked, Spaced, Sized, LiveOk, Housed, SpareOwned, LentOwned;
  }

  lemma FreedKeepsFirst(s: Arena, k: nat, a: nat)
    requires Ok(s) && a in s.live && Before(s.list, k, a)
    ensures InMemory(s.mem, s.list)
    ensures var t := Freed(s, k, a);
            k < |t.list| && t.list[k] == s.list[k] && t.base == s.base && t.live == Without(s.live, a)
  {
    hide Linked, Spaced, Sized, LiveOk, Housed, SpareOwned, LentOwned, Splice, Without;
  }

  /** The two stop tests of free's scan hold at the insertion point and nowhere else. */
  lemma ScanStops(s: Arena, k: nat, a: nat, i: nat)
    requires Ok(s) && a in s.live && Before(s.list, k, a) && i < |s.list|
    ensures InMemory(s.mem, s.list)
    ensures var p := s.list[i]; var next := s.mem[p].ptr;
            (a > p && a < next) || (p >= next && (a > p || a < next)) <==> i == k
  {
    hide Linked, Spaced, Sized, LiveOk, Housed, SpareOwned, LentOwned;
    LinkHere(s, i);
    ListAscends(s);
    LiveApart(s, a);
    BaseFirst(s, s.base);
  }

  /** What free reads at the insertion point. */
  lemma FreeReads(s: Arena, k: nat, a: nat)
    requires Ok(s) && a in s.live && Before(s.list, k, a)
    ensures InMemory(s.mem, s.list) && a in s.mem && s.mem[a].size == s.live[a]
    ensures var p := s.list[k]; var next := s.mem[p].ptr;
            && p != a && next != a && next in s.mem && next == NextAt(s.list, k + 1)
            && (a + s.mem[a].size == next <==> TouchesNext(s, k, a))
            && (TouchesNext(s, k, a) ==> s.mem[next].ptr == NextAt(s.list, k + 2) && next == s.list[k + 1])
  {
    hide Linked, Spaced, Sized, Housed, SpareOwned, LentOwned;
    LinkHere(s, k);
    LiveApart(s, a);
    Gap(s, k, a);
    if k + 1 < |s.list| {
      LinkHere(s, k + 1);
    }
  }

  /** What free writes at the insertion point p, next being the block after it. */
  lemma FreeWrites(s: Arena, k: nat, a: nat)
    requires Ok(s) && a in s.live && Before(s.list, k, a)
    ensures InMemory(s.mem, s.list) && a in s.mem && s.mem[s.list[k]].ptr in s.mem
    ensures var p := s.list[k]; var next := s.mem[p].ptr;
            var m := s.mem[a := if a + s.mem[a].size == next
                                then Header(s.mem[next].ptr, s.mem[a].size + s.mem[next].size)
                                else Header(next, s.mem[a].size)];
            Freed(s, k, a).mem == m[p := if p + m[p].size == a then Header(m[a].ptr, m[p].size + m[a].size)
                                         else Header(a, m[p].size)]
  {
    hide Linked, Spaced, Sized, LiveOk, Housed, SpareOwned, LentOwned, Splice, Assigned, Without;
    FreeReads(s, k, a);
  }

  /** Block r of n units came out of block i of s, the first after k0 that fits; the arena is now t, and the next
      search starts from the block before i. */
  ghost predicate CutFrom(s: Arena, k0: nat, i: nat, n: nat, t: Arena, freep: nat, r: nat)
  {
    && Ok(s) && k0 < |s.list| && 0 < i < |s.list| && InMemory(s.mem, s.list) && FirstFit(s, k0, i, n)
    && r == Cut(s, i, n) && r in s.mem && t == Taken(s, i, n) && freep == s.list[i - 1]
  }

  /** The units malloc can draw on. */
  ghost function Supply(s: Arena, calls: nat, grant: Grant): set<nat>
  {
    SpareUnitsOf(s) + if calls > 0 && grant.Region? then Range(grant.at, |grant.content|) else {}
  }

  predicate GrantOk(s: Arena, n: nat, grant: Grant)
  {
    grant.Region? ==> |grant.content| == Request(n) && Fresh(s, grant.at, grant.content)
  }

  lemma TurnBound(list: seq<nat>, k0: nat, i: nat)
    requires k0 < |list| && i < |list|
    ensures 0 <= Turn(list, k0, i) < |list|
  {
  }

  lemma Ahead(s: Arena, k0: nat, n: nat)
    requires k0 < |s.list|
    ensures Turn(s.list, k0, Next(s.list, k0)) == 0 && Passed(s, k0, Next(s.list, k0), n)
  {
  }

  lemma SameIndex(s: Arena, i: nat, j: nat)
    requires Ok(s) && i < |s.list| && j < |s.list| && s.list[i] == s.list[j]
    ensures i == j
  {
    hide Ok;
    ListAscends(s);
  }

  lemma NotAllPassed(s: Arena, i: nat, n: nat)
    requires Fits(s, i, n)
    ensures !NoneFits(s, n)
  {
  }

  lemma FitNotBase(s: Arena, i: nat, n: nat)
    requires Ok(s) && Fits(s, i, n) && n >= 1
    ensures i > 0
  {
    hide Linked, Spaced, LiveOk, Housed, SpareOwned, LentOwned;
  }

  lemma FitsIs(s: Arena, i: nat, n: nat)
    requires i < |s.list| && s.list[i] in s.mem
    ensures Fits(s, i, n) <==> s.mem[s.list[i]].size >= n
  {
  }

  /** What malloc writes when it takes n units of block i. */
  lemma MallocWrites(s: Arena, k0: nat, i: nat, n: nat)
    requires Ok(s) && Fits(s, i, n) && n >= 1 && k0 < |s.list| && Passed(s, k0, i, n)
    ensures i > 0 && InMemory(s.mem, s.list) && Cut(s, i, n) in s.mem
    ensures Ok(Taken(s, i, n)) && s.list[i - 1] in Taken(s, i, n).list && s.list[i - 1] >= s.base
    ensures Taken(s, i, n).base == s.base && Taken(s, i, n).live == s.live[Cut(s, i, n) := n]
    ensures CutFrom(s, k0, i, n, Taken(s, i, n), s.list[i - 1], Cut(s, i, n))
    ensures var p, r := s.list[i], Cut(s, i, n);
            Taken(s, i, n).mem == if s.mem[p].size == n then s.mem[s.list[i - 1] := s.mem[s.list[i - 1]].(ptr := s.mem[p].ptr)]
                                  else var m := s.mem[p := s.mem[p].(size := s.mem[p].size - n)]; m[r := m[r].(size := n)]
  {
    hide Ok, Splice, Assigned, Passed;
    OkMemory(s);
    TakenOk(s, i, n);
    CutInMemory(s, i, n);
    TakenHeaders(s, i, n);
    BaseFirst(s, s.list[i - 1]);
    ListAscends(s);
  }

  class Heap {
    var mem: Memory
    const base: nat   // the static header
    var freep: nat    // 0 until the first malloc
    ghost var st: Arena

    ghost predicate Valid()
      reads this
    {
      && st.mem == mem && st.base == base && base > 0
      && if freep == 0 then base in mem && st.list == [] && st.live == map[] && st.own == map[]
         else Ok(st) && freep in st.list
    }

    /** The list the next search runs on. */
    ghost function Ready(): Arena
      reads this
    {
      if freep == 0 then Initial(mem, base) else st
    }

    constructor (base: nat)
      requires base > 0
      ensures Valid() && this.base == base && freep == 0 && st.own == map[]
    {
      this.base := base;
      mem := map[base := Header(0, 0)];
      freep := 0;
      st := Arena(map[base := Header(0, 0)], base, [], map[], map[]);
    }

    /** free: ap is a pointer malloc returned and that was not freed since. */
    method Free(ap: nat) returns (ghost k: nat)
      requires Valid() && ap > 0 && ap - 1 in st.live
      modifies this
      ensures Valid() && freep > 0
      ensures Before(old(st.list), k, ap - 1) && freep == old(st.list)[k]
      ensures InMemory(old(st).mem, old(st).list) && st == Freed(old(st), k, ap - 1)
      ensures SpareUnitsOf(st) == SpareUnitsOf(old(st)) + Range(ap - 1, old(st.live)[ap - 1])
      ensures st.live == Without(old(st.live), ap - 1) && st.own.Keys == old(st.own.Keys)
    {
      hide Ok, SpareUnitsOf, Without, Splice, Assigned, Freed, TouchesNext, TouchesPrev, NextAt;
      var bp := ap - 1;
      OkMemory(st);
      LiveApart(st, bp);
      ListHead(st);
      k := BeforeExists(st.list, bp, |st.list|);
      var p := freep;
      ghost var i :| 0 <= i < |st.list| && st.list[i] == p;
      while !(bp > p && bp < mem[p].ptr)
        modifies {}
        invariant 0 <= i < |st.list| && st.list[i] == p
        decreases if i <= k then k - i else |st.list| - i + k
      {
        ScanStops(st, k, bp, i);
        if p >= mem[p].ptr && (bp > p || bp < mem[p].ptr) {
          break;
        }
        Follow(st, i);
        p := mem[p].ptr;
        i := Next(st.list, i);
      }
      ScanStops(st, k, bp, i);
      FreedUnits(st, k, bp);
      FreedKeepsFirst(st, k, bp);
      Join(p, bp, k);
    }

    /** The two joins of free, at the insertion point p: with the block above, then with the block below. */
    method Join(p: nat, bp: nat, ghost k: nat)
      requires Valid() && freep != 0 && bp in st.live && Before(st.list, k, bp) && p == st.list[k]
      modifies this
      ensures Valid() && freep == p > 0
      ensures InMemory(old(st).mem, old(st).list) && st == Freed(old(st), k, bp)
    {
      hide Ok, SpareUnitsOf, Without, Splice, Assigned, Freed, TouchesNext, TouchesPrev, NextAt;
      OkMemory(st);
      FreeReads(st, k, bp);
      BaseFirst(st, p);
      if bp + mem[bp].size == mem[p].ptr {
        mem := mem[bp := Header(mem[mem[p].ptr].ptr, mem[bp].size + mem[mem[p].ptr].size)];
      } else {
        mem := mem[bp := Header(mem[p].ptr, mem[bp].size)];
      }
      if p + mem[p].size == bp {
        mem := mem[p := Header(mem[bp].ptr, mem[p].size + mem[bp].size)];
      } else {
        mem := mem[p := Header(bp, mem[p].size)];
      }
      freep := p;
      FreeWrites(st, k, bp);
      FreedOk(st, k, bp);
      FreedKeepsFirst(st, k, bp);
      st := Freed(st, k, bp);
    }

    /** morecore: at least nu units from sbrk, put on the free list through free. */
    method Morecore(nu: nat, grant: Grant) returns (r: nat, ghost k: nat)
      requires Valid() && freep != 0 && nu >= 1
      requires grant.Region? ==> |grant.content| == Request(nu) && Fresh(st, grant.at, grant.content)
      modifies this
      ensures Valid()
      ensures grant.Refused? ==> r == 0 && st == old(st) && freep == old(freep)
      ensures k < |st.list| && (grant.Region? ==> r == freep == st.list[k] > 0)
      ensures grant.Region? ==> !NoneFits(st, nu) && st.live == old(st.live)
      ensures grant.Region? ==> SpareUnitsOf(st) == SpareUnitsOf(old(st)) + Range(grant.at, Request(nu))
      ensures grant.Region? ==> st.own.Keys == old(st.own.Keys) + Range(grant.at, Request(nu))
    {
      hide Ok, SpareUnitsOf, Splice, Assigned, Paint;
      k := 0;
      ListHead(st);
      var n := nu;
      if n < 4096 {
        n := 4096;
      }
      match grant
      case Refused =>
        return 0, 0;
      case Region(at, content) =>
        GrownOk(st, at, content);
        GrownUnits(st, at, content);
        LentNotFresh(st, at, content);
        mem := Paint(mem, at, content);
        mem := mem[at := mem[at].(size := n)];
        st := Grown(st, at, content);
        ghost var s := st;
        k := Free(at + 1);
        FreedKeepsFirst(s, k, at);
        ghost var i := MergedFits(s, k, at);
        assert Fits(st, i, nu);
        RestoreLive(old(st).live, at, n);
        r := freep;
    }

    /** The part of malloc that takes nunits from the block p, prevp being the one before it. */
    method Carve(prevp: nat, p: nat, nunits: nat, ghost k0: nat, ghost i: nat) returns (r: nat)
      requires Valid() && freep != 0 && nunits >= 1 && k0 < |st.list| && 0 < i < |st.list|
      requires Fits(st, i, nunits) && Passed(st, k0, i, nunits) && p == st.list[i] && prevp == st.list[i - 1]
      modifies this
      ensures Valid() && freep != 0 && r > 0 && CutFrom(old(st), k0, i, nunits, st, freep, r - 1)
    {
      hide Ok, Splice, Assigned, Passed, Taken;
      MallocWrites(st, k0, i, nunits);
      r := p;
      if mem[p].size == nunits {
        mem := mem[prevp := mem[prevp].(ptr := mem[p].ptr)];
      } else {
        mem := mem[p := mem[p].(size := mem[p].size - nunits)];
        r := p + mem[p].size;
        mem := mem[r := mem[r].(size := nunits)];
      }
      freep := prevp;
      st := Taken(st, i, nunits);
      r := r + 1;
    }

    /** malloc: the first block after freep that fits, cut at its end; morecore is called at most once, when none fits
        (calls counts), and after it the search always succeeds.  s is the arena the block came out of, k0 the index of
        freep in it and i the index of the block. */
    method Malloc(nbytes: nat, grant: Grant) returns (r: nat, ghost calls: nat, ghost s: Arena, ghost k0: nat, ghost i: nat)
      requires Valid() && GrantOk(Ready(), Units(nbytes), grant)
      modifies this
      ensures Valid()
      ensures calls == if NoneFits(old(Ready()), Units(nbytes)) then 1 else 0
      ensures r == 0 <==> calls == 1 && grant.Refused?
      ensures r == 0 ==> st == old(Ready())
      ensures r > 0 ==> CutFrom(s, k0, i, Units(nbytes), st, freep, r - 1)
      ensures k0 < |s.list| && s.live == old(Ready()).live && SpareUnitsOf(s) == Supply(old(Ready()), calls, grant)
      ensures calls == 0 ==> s == old(Ready()) && s.list[k0] == (if old(freep) == 0 then base else old(freep))
    {
      hide Ok, SpareUnitsOf, Splice, Assigned, Paint, Passed, NoneFits, Taken, Initial, Fresh, Turn, Fits, CutFrom;
      var nunits := (nbytes + 15) / 16 + 1;
      var prevp := freep;
      if prevp == 0 {
        InitialOk(mem, base);
        st := Initial(mem, base);
        InitialIs(mem, base);
        mem := mem[base := Header(base, 0)];
        freep := base;
        prevp := base;
      }
      k0 :| 0 <= k0 < |st.list| && st.list[k0] == freep;
      calls := 0;
      s := st;
      Follow(st, k0);
      Ahead(st, k0, nunits);
      var p := mem[prevp].ptr;
      ghost var before: nat := k0;
      i := Next(st.list, k0);
      while true
        invariant Valid() && freep != 0 && s == st
        invariant k0 < |st.list| && st.list[k0] == freep
        invariant before < |st.list| && st.list[before] == prevp && i == Next(st.list, before) && st.list[i] == p
        invariant Passed(st, k0, i, nunits) && (grant.Region? && calls == 0 ==> Fresh(st, grant.at, grant.content))
        invariant st.live == old(Ready()).live
        invariant calls == 0 ==> st == old(Ready()) && freep == (if old(freep) == 0 then base else old(freep))
        invariant calls <= 1 && (calls == 1 ==> grant.Region? && NoneFits(old(Ready()), nunits) && !NoneFits(st, nunits))
        invariant SpareUnitsOf(st) == Supply(old(Ready()), calls, grant)
        decreases 1 - calls, |st.list| - Turn(st.list, k0, i)
      {
        Follow(st, i);
        FitsIs(st, i, nunits);
        if mem[p].size >= nunits {
          NotAllPassed(st, i, nunits);
          FitNotBase(st, i, nunits);
          r := Carve(prevp, p, nunits, k0, i);
          return;
        }
        PassOn(st, k0, i, nunits);
        TurnBound(st.list, k0, i);
        if p == freep {
          SameIndex(st, i, k0);
          assert calls == 0;
          p, k0 := Morecore(nunits, grant);
          calls := calls + 1;
          s := st;
          if p == 0 {
            r := 0;
            return;
          }
          i := k0;
          Ahead(st, k0, nunits);
        }
        prevp := p;
        before := i;
        Follow(st, i);
        p := mem[p].ptr;
        i := Next(st.list, i);
      }
    }
  }

  lemma InitialIs(mem: Memory, base: nat)
    ensures var s := Initial(mem, base);
            s.list == [base] && s.mem == mem[base := Header(base, 0)] && s.base == base && s.live == map[] && s.own == map[]
  {
  }

  lemma ListHead(s: Arena)
    requires Ok(s)
    ensures |s.list| > 0 && s.list[0] == s.base
  {
    hide Linked, Spaced, Sized, LiveOk, Housed, SpareOwned, LentOwned;
  }

  lemma RestoreLive(live: map<nat, nat>, a: nat, n: nat)
    requires a !in live
    ensures Without(live[a := n], a) == live
  {
  }

  // ----- What clients may rely on

  /** Freeing the block malloc just returned puts the free list back block for block, wherever it was cut from. */
  lemma FreeUndoesMalloc(s: Arena, k0: nat, i: nat, n: nat, t: Arena, freep: nat, r: nat, k: nat)
    requires n >= 1 && r !in s.live && CutFrom(s, k0, i, n, t, freep, r)
    requires Before(t.list, k, r)
    ensures Ok(t) && r in t.live && InMemory(t.mem, t.list) && InMemory(s.mem, s.list)
    ensures var u := Freed(t, k, r);
            && u.list == s.list && u.live == s.live
            && forall h | 0 <= h < |s.list| :: s.list[h] in u.mem && u.mem[s.list[h]] == s.mem[s.list[h]]
  {
    hide Ok, SpareUnitsOf, Splice, Assigned, Passed, Freed, Without;
    TakenOk(s, i, n);
    TakenUnits(s, i, n);
    OkMemory(t);
    FreedOk(t, k, r);
    FreedUnits(t, k, r);
    FreedKeys(t, k, r);
    var u := Freed(t, k, r);
    assert SpareUnitsOf(u) == SpareUnitsOf(s);
    Canonical(u, s);
    RestoreLive(s.live, r, n);
  }

  /** Freeing two blocks in either order leaves the same free list. */
  lemma FreeOrder(s: Arena, a: nat, b: nat, ka: nat, kb: nat, ja: nat, jb: nat)
    requires Ok(s) && a in s.live && b in s.live && a != b && Before(s.list, ka, a) && Before(s.list, kb, b)
    requires InMemory(s.mem, s.list) && Before(Freed(s, ka, a).list, jb, b) && Before(Freed(s, kb, b).list, ja, a)
    ensures var x, y := Freed(s, ka, a), Freed(s, kb, b);
            && Ok(x) && Ok(y) && b in x.live && a in y.live && InMemory(x.mem, x.list) && InMemory(y.mem, y.list)
            && Freed(x, jb, b).list == Freed(y, ja, a).list && Freed(x, jb, b).live == Freed(y, ja, a).live
  {
    hide Ok, SpareUnitsOf, Freed, Assigned;
    var x, y := Freed(s, ka, a), Freed(s, kb, b);
    FreedOk(s, ka, a);
    FreedOk(s, kb, b);
    FreedKeys(s, ka, a);
    FreedKeys(s, kb, b);
    FreedUnits(s, ka, a);
    FreedUnits(s, kb, b);
    OkMemory(x);
    OkMemory(y);
    FreedOk(x, jb, b);
    FreedOk(y, ja, a);
    FreedUnits(x, jb, b);
    FreedUnits(y, ja, a);
    FreedKeys(x, jb, b);
    FreedKeys(y, ja, a);
    assert SpareUnitsOf(Freed(x, jb, b)) == SpareUnitsOf(Freed(y, ja, a));
    Canonical(Freed(x, jb, b), Freed(y, ja, a));
    assert Freed(x, jb, b).live == Freed(y, ja, a).live;
  }

  /** Once everything is freed, a heap obtained as one region is one block again. */
  lemma AllFreedIsOneBlock(s: Arena, lo: nat, hi: nat)
    requires Ok(s) && s.live == map[] && lo < hi && forall u :: u in s.own <==> lo <= u < hi
    ensures InMemory(s.mem, s.list) && s.list == [s.base, lo] && s.mem[lo].size == hi - lo
  {
    hide Linked, Spaced, Sized, LiveOk, SpareOwned, LentOwned;
    OkMemory(s);
    ListAscends(s);
    assert forall u :: u in SpareUnitsOf(s) <==> lo <= u < hi;
    assert lo in s.own;
    forall u
      ensures u in s.list <==> u in [s.base, lo]
    {
      assert u in [s.base, lo] <==> u == s.base || u == lo;
      if u > 0 {
        StartsRun(s, u);
      }
      BaseFirst(s, u);
    }
    SameElements(s.list, [s.base, lo]);
    HeadOwned(s, 1);
    SpareUnits(s, 1, hi - 1);
    SpareUnits(s, 1, hi);
    OneRun(s, lo, hi, hi - 1);
  }

  lemma {:induction false} OneRun(s: Arena, lo: nat, hi: nat, u: nat)
    requires Ok(s) && lo <= u < hi && forall v :: v in SpareUnitsOf(s) <==> lo <= v < hi
    requires lo in s.own && s.own[lo] == Spare(lo)
    ensures u in s.own && s.own[u] == Spare(lo)
    decreases u
  {
    hide Ok;
    if u > lo {
      OneRun(s, lo, hi, u - 1);
      RunGoesOn(s, u - 1);
    }
  }

  /** A client that writes inside its block, header excluded, does not disturb the allocator. */
  lemma ClientWrite(s: Arena, a: nat, u: nat, h: Header)
    requires Ok(s) && a in s.live && a < u < a + s.live[a]
    ensures Ok(s.(mem := s.mem[u := h]))
  {
    hide ListOk, LiveOk, Housed, SpareOwned, LentOwned;
    OkMemory(s);
    WriteApart(s, a, u);
    WriteList(s, u, h);
    WriteBlocks(s, u, h);
    WriteHoused(s, u, h);
  }

  lemma WriteBlocks(s: Arena, u: nat, h: Header)
    requires Ok(s) && u !in s.list && u !in s.live && u in s.mem
    ensures var t := s.(mem := s.mem[u := h]);
            InMemory(t.mem, t.list) && LiveOk(t.mem, t.live) && SpareOwned(t) && LentOwned(t)
  {
    hide Linked, Spaced, Sized, Housed;
  }

  lemma WriteHoused(s: Arena, u: nat, h: Header)
    requires Ok(s) && u !in s.list && u !in s.live && u in s.mem
    ensures Housed(s.(mem := s.mem[u := h]))
  {
    hide ListOk, LiveOk, SpareOwned, LentOwned;
  }

  lemma WriteApart(s: Arena, a: nat, u: nat)
    requires Ok(s) && a in s.live && a < u < a + s.live[a]
    ensures u !in s.list && u !in s.live && u in s.mem
  {
    hide Spaced, Linked;
    assert s.own[u] == Lent(a);
    if u in s.list {
      var i :| 0 <= i < |s.list| && s.list[i] == u;
      HeadOwned(s, i);
    }
    if u in s.live {
      LentHead(s, u);
    }
  }

  lemma WriteList(s: Arena, u: nat, h: Header)
    requires Ok(s) && u !in s.list
    ensures ListOk(s.mem[u := h], s.base, s.list)
  {
    hide LiveOk, Housed, SpareOwned, LentOwned;
    forall i | 0 <= i < |s.list|
      ensures s.list[i] in s.mem && LinkAt(s.mem[u := h], s.list, i)
    {
      assert LinkAt(s.mem, s.list, i);
    }
  }

  /** Two blocks handed out never share a unit, and none of their units is free. */
  lemma BlocksApart(s: Arena, a: nat, b: nat, u: nat)
    requires Ok(s) && a in s.live && b in s.live && a <= u < a + s.live[a] && b <= u < b + s.live[b]
    ensures a == b && u !in SpareUnitsOf(s)
  {
    hide ListOk, LiveOk, SpareOwned;
    LentUnits(s, a, u);
    LentUnits(s, b, u);
  }
}
