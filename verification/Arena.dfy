/** The heap of umem.c as values: headers in memory, the circular free list, the blocks lent out.

    Addresses count headers (16 bytes each), as the C pointer arithmetic on Header* does.  The list is kept as
    the sequence of its blocks in address order, starting with the static header base; own says for every unit
    obtained from sbrk which one block it lies in. */
module Arena {

  datatype Header = Header(ptr: nat, size: nat)

  /** The block a unit belongs to: one on the free list, or one handed out by malloc. */
  datatype Owner = Spare(at: nat) | Lent(at: nat)

  type Memory = map<nat, Header>

  datatype Arena = Arena(mem: Memory, base: nat, list: seq<nat>, live: map<nat, nat>, own: map<nat, Owner>)

  function NextAt(list: seq<nat>, j: nat): nat
    requires |list| > 0
  {
    if j < |list| then list[j] else list[0]
  }

  ghost predicate InMemory(mem: Memory, list: seq<nat>)
  {
    forall i | 0 <= i < |list| :: list[i] in mem
  }

  /** Each block points to the next and the last one back to the first. */
  ghost predicate Linked(mem: Memory, list: seq<nat>)
    requires InMemory(mem, list)
  {
    forall i | 0 <= i < |list| :: LinkAt(mem, list, i)
  }

  predicate LinkAt(mem: Memory, list: seq<nat>, i: nat)
    requires i < |list| && list[i] in mem
  {
    mem[list[i]].ptr == NextAt(list, i + 1)
  }

  /** In address order, with at least one unit between a block and any later one: fully coalesced. */
  ghost predicate Spaced(mem: Memory, list: seq<nat>)
    requires InMemory(mem, list)
  {
    forall i, j | 0 <= i < j < |list| :: list[i] + mem[list[i]].size < list[j]
  }

  /** Only base is empty. */
  ghost predicate Sized(mem: Memory, list: seq<nat>)
    requires InMemory(mem, list)
  {
    forall i | 0 <= i < |list| :: if i == 0 then mem[list[i]].size == 0 else mem[list[i]].size >= 1
  }

  ghost predicate ListOk(mem: Memory, base: nat, list: seq<nat>)
  {
    |list| > 0 && list[0] == base && InMemory(mem, list) && Linked(mem, list) && Spaced(mem, list) && Sized(mem, list)
  }

  /** The list with mid in place of what was between blocks k and j. */
  function Splice(list: seq<nat>, k: nat, mid: seq<nat>, j: nat): (f: seq<nat>)
    requires k < |list| && k < j <= |list| && |mid| <= 1
    ensures |f| == k + 1 + |mid| + |list| - j
    ensures forall i | 0 <= i <= k :: f[i] == list[i]
    ensures mid != [] ==> f[k + 1] == mid[0]
    ensures forall i | k < i - |mid| < |f| - |mid| :: f[i] == list[i - k - 1 - |mid| + j]
  {
    list[..k + 1] + mid + list[j..]
  }

  lemma Increasing(mem: Memory, list: seq<nat>)
    requires InMemory(mem, list) && Spaced(mem, list)
    ensures forall i, j | 0 <= i < j < |list| :: list[i] < list[j]
  {
  }

  /** Memory m differs from mem in what a splice has to change: the header of block k and of the inserted block. */
  ghost predicate Rewired(mem: Memory, m: Memory, list: seq<nat>, k: nat, mid: seq<nat>, j: nat)
    requires InMemory(mem, list) && k < j <= |list| && |mid| <= 1
  {
    && (forall i | 0 <= i < k || j <= i < |list| :: list[i] in m && m[list[i]] == mem[list[i]])
    && list[k] in m && m[list[k]].ptr == (if mid == [] then NextAt(list, j) else mid[0])
    && (mid != [] ==> mid[0] in m && m[mid[0]].ptr == NextAt(list, j))
  }

  ghost predicate Resized(m: Memory, list: seq<nat>, k: nat, mid: seq<nat>, j: nat)
    requires k < j <= |list| && |mid| <= 1 && list[k] in m && (mid != [] ==> mid[0] in m)
  {
    && (if k == 0 then m[list[k]].size == 0 else m[list[k]].size >= 1)
    && (mid == [] && j < |list| ==> list[k] + m[list[k]].size < list[j])
    && (mid != [] ==> list[k] + m[list[k]].size < mid[0] && m[mid[0]].size >= 1)
    && (mid != [] && j < |list| ==> mid[0] + m[mid[0]].size < list[j])
  }

  /** Replacing the blocks between k and j by at most one keeps the list in order. */
  lemma Spliced(mem: Memory, m: Memory, base: nat, list: seq<nat>, k: nat, mid: seq<nat>, j: nat)
    requires ListOk(mem, base, list) && k < j <= |list| && |mid| <= 1
    requires Rewired(mem, m, list, k, mid, j) && Resized(m, list, k, mid, j)
    ensures ListOk(m, base, Splice(list, k, mid, j))
  {
    hide Splice, Linked, Spaced, Sized;
    SplicedLinked(mem, m, list, k, mid, j);
    SplicedSpaced(mem, m, list, k, mid, j);
    SplicedSized(mem, m, list, k, mid, j);
  }

  lemma SplicedLinked(mem: Memory, m: Memory, list: seq<nat>, k: nat, mid: seq<nat>, j: nat)
    requires InMemory(mem, list) && Linked(mem, list) && k < j <= |list| && |mid| <= 1
    requires Rewired(mem, m, list, k, mid, j)
    ensures InMemory(m, Splice(list, k, mid, j)) && Linked(m, Splice(list, k, mid, j))
  {
    hide Splice;
    var f := Splice(list, k, mid, j);
    forall i | 0 <= i < |f|
      ensures f[i] in m && LinkAt(m, f, i)
    {
      if i < k {
        assert LinkAt(mem, list, i);
      } else if i > k + |mid| {
        assert LinkAt(mem, list, i - k - 1 - |mid| + j);
      }
    }
  }

  lemma SplicedSpaced(mem: Memory, m: Memory, list: seq<nat>, k: nat, mid: seq<nat>, j: nat)
    requires InMemory(mem, list) && Spaced(mem, list) && k < j <= |list| && |mid| <= 1
    requires Rewired(mem, m, list, k, mid, j) && Resized(m, list, k, mid, j)
    ensures InMemory(m, Splice(list, k, mid, j)) && Spaced(m, Splice(list, k, mid, j))
  {
    hide Splice;
  }

  lemma SplicedSized(mem: Memory, m: Memory, list: seq<nat>, k: nat, mid: seq<nat>, j: nat)
    requires InMemory(mem, list) && Sized(mem, list) && k < j <= |list| && |mid| <= 1
    requires Rewired(mem, m, list, k, mid, j) && Resized(m, list, k, mid, j)
    ensures InMemory(m, Splice(list, k, mid, j)) && Sized(m, Splice(list, k, mid, j))
  {
    hide Splice;
  }

  // ----- Blocks and units

  ghost predicate LiveOk(mem: Memory, live: map<nat, nat>)
  {
    forall a | a in live :: a in mem && mem[a].size == live[a] >= 1
  }

  ghost predicate InBlock(s: Arena, u: nat, o: Owner)
  {
    match o
    case Spare(a) => a in s.list && a in s.mem && a <= u < a + s.mem[a].size
    case Lent(a) => a in s.live && a <= u < a + s.live[a]
  }

  /** Every unit lies in the block that own names. */
  ghost predicate Housed(s: Arena)
  {
    forall u | u in s.own :: u > s.base && u in s.mem && InBlock(s, u, s.own[u])
  }

  /** Every unit of a free block is known as such, and every unit of a lent block. */
  ghost predicate SpareOwned(s: Arena)
    requires InMemory(s.mem, s.list)
  {
    forall i, u | 0 <= i < |s.list| && s.list[i] <= u < s.list[i] + s.mem[s.list[i]].size ::
      u in s.own && s.own[u] == Spare(s.list[i])
  }

  ghost predicate LentOwned(s: Arena)
  {
    forall a, u | a in s.live && a <= u < a + s.live[a] :: u in s.own && s.own[u] == Lent(a)
  }

  ghost predicate Ok(s: Arena)
  {
    ListOk(s.mem, s.base, s.list) && LiveOk(s.mem, s.live) && Housed(s) && SpareOwned(s) && LentOwned(s)
  }

  // ----- free

  /** free's scan is looking for the last block below a. */
  ghost predicate Before(list: seq<nat>, k: nat, a: nat)
  {
    k < |list| && list[k] < a && (k + 1 < |list| ==> a < list[k + 1])
  }

  lemma {:induction false} BeforeExists(list: seq<nat>, a: nat, n: nat) returns (k: nat)
    requires 0 < n <= |list| && list[0] < a && a !in list && (n < |list| ==> a < list[n])
    ensures Before(list, k, a)
  {
    if list[n - 1] < a {
      k := n - 1;
    } else {
      k := BeforeExists(list, a, n - 1);
    }
  }

  /** The freed block lies between its neighbours without overlapping either. */
  lemma Gap(s: Arena, k: nat, a: nat)
    requires Ok(s) && a in s.live && Before(s.list, k, a)
    ensures s.live[a] >= 1 && s.mem[a].size == s.live[a]
    ensures s.list[k] + s.mem[s.list[k]].size <= a
    ensures k + 1 < |s.list| ==> a + s.live[a] <= s.list[k + 1]
  {
    hide Linked, Spaced, Housed;
    assert s.own[a] == Lent(a);
    if k + 1 < |s.list| {
      assert s.own[s.list[k + 1]] == Spare(s.list[k + 1]);
    }
  }

  lemma LiveApart(s: Arena, a: nat)
    requires Ok(s) && a in s.live
    ensures s.base < a && a !in s.list && a in s.mem
  {
    hide Linked, Spaced;
    assert s.own[a] == Lent(a);
  }

  predicate TouchesNext(s: Arena, k: nat, a: nat)
    requires a in s.live && k < |s.list|
  {
    k + 1 < |s.list| && a + s.live[a] == s.list[k + 1]
  }

  predicate TouchesPrev(s: Arena, k: nat, a: nat)
    requires k < |s.list| && s.list[k] in s.mem
  {
    s.list[k] + s.mem[s.list[k]].size == a
  }

  /** The block after the freed one once the two are merged. */
  function After(s: Arena, k: nat, a: nat): nat
    requires a in s.live && k < |s.list|
  {
    if TouchesNext(s, k, a) then k + 2 else k + 1
  }

  /** The size of the freed block with the one it touches above. */
  function Above(s: Arena, k: nat, a: nat): nat
    requires a in s.live && k < |s.list| && InMemory(s.mem, s.list)
  {
    s.live[a] + if TouchesNext(s, k, a) then s.mem[s.list[k + 1]].size else 0
  }

  /** Units lo to lo+len belong to o, the others as before. */
  ghost function Assigned(own: map<nat, Owner>, lo: nat, len: nat, o: Owner): map<nat, Owner>
  {
    map u | u in own :: if lo <= u < lo + len then o else own[u]
  }

  ghost function Without(live: map<nat, nat>, a: nat): map<nat, nat>
  {
    map x | x in live && x != a :: live[x]
  }

  /** What free leaves behind: block a merged with the neighbours it touches. */
  ghost function Freed(s: Arena, k: nat, a: nat): Arena
    requires a in s.live && k < |s.list| && InMemory(s.mem, s.list)
  {
    var p, j, len := s.list[k], After(s, k, a), Above(s, k, a);
    var mem := s.mem[a := Header(NextAt(s.list, j), len)];
    if TouchesPrev(s, k, a) then
      Arena(mem[p := Header(NextAt(s.list, j), s.mem[p].size + len)], s.base, Splice(s.list, k, [], j),
            Without(s.live, a), Assigned(s.own, p, s.mem[p].size + len, Spare(p)))
    else
      Arena(mem[p := Header(a, s.mem[p].size)], s.base, Splice(s.list, k, [a], j),
            Without(s.live, a), Assigned(s.own, a, len, Spare(a)))
  }

  lemma FreedList(s: Arena, k: nat, a: nat)
    requires Ok(s) && a in s.live && Before(s.list, k, a)
    ensures ListOk(Freed(s, k, a).mem, s.base, Freed(s, k, a).list)
  {
    hide Splice, Linked, Housed, SpareOwned, LentOwned, LiveOk;
    Gap(s, k, a);
    LiveApart(s, a);
    Increasing(s.mem, s.list);
    Spliced(s.mem, Freed(s, k, a).mem, s.base, s.list, k, if TouchesPrev(s, k, a) then [] else [a], After(s, k, a));
  }

  lemma FreedLive(s: Arena, k: nat, a: nat)
    requires Ok(s) && a in s.live && Before(s.list, k, a)
    ensures LiveOk(Freed(s, k, a).mem, Freed(s, k, a).live)
  {
    hide Splice, Linked, Spaced, Sized, Housed, SpareOwned, Above, After;
    forall x | x in s.live
      ensures x !in s.list
    {
      LiveApart(s, x);
    }
  }

  /** Where the merged block starts, and its size. */
  function Low(s: Arena, k: nat, a: nat): nat
    requires a in s.live && k < |s.list| && InMemory(s.mem, s.list)
  {
    if TouchesPrev(s, k, a) then s.list[k] else a
  }

  function Length(s: Arena, k: nat, a: nat): nat
    requires a in s.live && k < |s.list| && InMemory(s.mem, s.list)
  {
    Above(s, k, a) + if TouchesPrev(s, k, a) then s.mem[s.list[k]].size else 0
  }

  /** The merged range in the old arena: the freed block and the free blocks it touches, and nothing else. */
  lemma MergedUnits(s: Arena, k: nat, a: nat, u: nat)
    requires Ok(s) && a in s.live && Before(s.list, k, a)
    ensures Low(s, k, a) <= u < Low(s, k, a) + Length(s, k, a) <==>
              u in s.own && (s.own[u] == Lent(a)
                             || (TouchesPrev(s, k, a) && s.own[u] == Spare(s.list[k]))
                             || (TouchesNext(s, k, a) && s.own[u] == Spare(s.list[k + 1])))
  {
    hide Ok;
    OkMemory(s);
    Gap(s, k, a);
    LentUnits(s, a, u);
    SpareUnits(s, k, u);
    if k + 1 < |s.list| {
      SpareUnits(s, k + 1, u);
    }
  }

  lemma OkMemory(s: Arena)
    requires Ok(s)
    ensures InMemory(s.mem, s.list)
  {
  }

  lemma ListMemory(s: Arena)
    requires ListOk(s.mem, s.base, s.list)
    ensures InMemory(s.mem, s.list)
  {
  }

  lemma SpareUnits(s: Arena, i: nat, u: nat)
    requires Ok(s) && i < |s.list|
    ensures s.list[i] in s.mem
    ensures s.list[i] <= u < s.list[i] + s.mem[s.list[i]].size <==> u in s.own && s.own[u] == Spare(s.list[i])
  {
    hide Linked, Spaced, Sized, LiveOk, LentOwned;
  }

  lemma LentUnits(s: Arena, a: nat, u: nat)
    requires Ok(s) && a in s.live
    ensures a <= u < a + s.live[a] <==> u in s.own && s.own[u] == Lent(a)
  {
    hide ListOk, LiveOk, SpareOwned;
  }

  lemma SpliceKeeps(list: seq<nat>, k: nat, mid: seq<nat>, j: nat, i: nat)
    requires k < |list| && k < j <= |list| && |mid| <= 1 && i < |list| && (i <= k || j <= i)
    ensures list[i] in Splice(list, k, mid, j)
  {
    hide Splice;
    var f := Splice(list, k, mid, j);
    if i <= k {
      assert f[i] == list[i];
    } else {
      assert f[i - j + k + 1 + |mid|] == list[i];
    }
  }

  lemma FreedHoused(s: Arena, k: nat, a: nat)
    requires Ok(s) && a in s.live && Before(s.list, k, a)
    ensures Housed(Freed(s, k, a))
  {
    hide Ok, Freed;
    OkMemory(s);
    FreedKeys(s, k, a);
    forall u | u in s.own
      ensures u > s.base && u in Freed(s, k, a).mem && InBlock(Freed(s, k, a), u, Freed(s, k, a).own[u])
    {
      FreedHouse(s, k, a, u);
    }
  }

  lemma FreedKeys(s: Arena, k: nat, a: nat)
    requires Ok(s) && a in s.live && Before(s.list, k, a)
    ensures Freed(s, k, a).own == Assigned(s.own, Low(s, k, a), Length(s, k, a), Spare(Low(s, k, a)))
    ensures Freed(s, k, a).base == s.base && Freed(s, k, a).live == Without(s.live, a)
  {
    hide Linked, Spaced, Sized, Housed, SpareOwned, LentOwned, LiveOk, Splice, Assigned, Without;
  }

  /** The merged block is on the list with its size; every block but it, and the absorbed ones, is as before. */
  lemma FreedHeaders(s: Arena, k: nat, a: nat)
    requires Ok(s) && a in s.live && Before(s.list, k, a)
    ensures var t := Freed(s, k, a);
            && Low(s, k, a) in t.list && Low(s, k, a) in t.mem && t.mem[Low(s, k, a)].size == Length(s, k, a)
            && (forall x | x in s.mem :: x in t.mem)
            && (forall x | x in s.list && x != Low(s, k, a) :: t.mem[x].size == s.mem[x].size)
            && (forall x | x in s.list && !(TouchesNext(s, k, a) && x == s.list[k + 1]) :: x in t.list)
  {
    hide Linked, Spaced, Sized, Housed, SpareOwned, LentOwned, LiveOk, Splice, Assigned, Without;
    LiveApart(s, a);
    var mid := if TouchesPrev(s, k, a) then [] else [a];
    SpliceKeeps(s.list, k, mid, After(s, k, a), k);
    forall x | x in s.list && !(TouchesNext(s, k, a) && x == s.list[k + 1])
      ensures x in Freed(s, k, a).list
    {
      var i :| 0 <= i < |s.list| && s.list[i] == x;
      SpliceKeeps(s.list, k, mid, After(s, k, a), i);
    }
  }

  lemma FreedHouse(s: Arena, k: nat, a: nat, u: nat)
    requires Ok(s) && a in s.live && Before(s.list, k, a) && u in s.own
    ensures u in Freed(s, k, a).own
    ensures u > s.base && u in Freed(s, k, a).mem && InBlock(Freed(s, k, a), u, Freed(s, k, a).own[u])
  {
    hide Linked, Spaced, Sized, SpareOwned, LentOwned, LiveOk, Freed, Length, TouchesNext, TouchesPrev;
    FreedKeys(s, k, a);
    FreedHeaders(s, k, a);
    MergedUnits(s, k, a, u);
    LiveApart(s, a);
  }

  lemma FreedOwned(s: Arena, k: nat, a: nat)
    requires Ok(s) && a in s.live && Before(s.list, k, a)
    requires InMemory(Freed(s, k, a).mem, Freed(s, k, a).list)
    ensures SpareOwned(Freed(s, k, a))
  {
    hide Ok, Freed;
    OkMemory(s);
    FreedKeys(s, k, a);
    var t := Freed(s, k, a);
    forall i, u: nat | 0 <= i < |t.list| && t.list[i] <= u < t.list[i] + t.mem[t.list[i]].size
      ensures u in t.own && t.own[u] == Spare(t.list[i])
    {
      FreedOwns(s, k, a, t.list[i], u);
    }
  }

  lemma FreedOwns(s: Arena, k: nat, a: nat, x: nat, u: nat)
    requires Ok(s) && a in s.live && Before(s.list, k, a)
    requires x in Freed(s, k, a).list && x in Freed(s, k, a).mem && x <= u < x + Freed(s, k, a).mem[x].size
    ensures u in Freed(s, k, a).own && Freed(s, k, a).own[u] == Spare(x)
  {
    hide Ok, Freed, Low, Length, TouchesNext, TouchesPrev;
    OkMemory(s);
    FreedKeys(s, k, a);
    FreedHeaders(s, k, a);
    FreedMembers(s, k, a);
    MergedUnits(s, k, a, u);
    if x != Low(s, k, a) {
      var i :| 0 <= i < |s.list| && s.list[i] == x;
      SpareUnits(s, i, u);
      LowIs(s, k, a);
    }
  }

  lemma LowIs(s: Arena, k: nat, a: nat)
    requires Ok(s) && a in s.live && Before(s.list, k, a)
    ensures TouchesPrev(s, k, a) ==> Low(s, k, a) == s.list[k]
  {
  }

  /** The new list has the merged block and old blocks other than the freed and the absorbed ones. */
  lemma FreedMembers(s: Arena, k: nat, a: nat)
    requires Ok(s) && a in s.live && Before(s.list, k, a)
    ensures forall x | x in Freed(s, k, a).list ::
              x == Low(s, k, a) || (x in s.list && !(TouchesNext(s, k, a) && x == s.list[k + 1]))
  {
    hide Linked, Sized, Housed, SpareOwned, LentOwned, LiveOk, Splice, Assigned, Without;
    Increasing(s.mem, s.list);
  }

  lemma FreedLent(s: Arena, k: nat, a: nat)
    requires Ok(s) && a in s.live && Before(s.list, k, a)
    ensures LentOwned(Freed(s, k, a))
  {
    hide ListOk, Housed, SpareOwned, LiveOk, Freed, Low, Length, TouchesNext, TouchesPrev;
    OkMemory(s);
    FreedKeys(s, k, a);
    forall u: nat
      ensures Low(s, k, a) <= u < Low(s, k, a) + Length(s, k, a) ==> u in s.own && (s.own[u].Spare? || s.own[u] == Lent(a))
    {
      MergedUnits(s, k, a, u);
    }
  }

  /** free keeps the heap in order. */
  lemma FreedOk(s: Arena, k: nat, a: nat)
    requires Ok(s) && a in s.live && Before(s.list, k, a)
    ensures Ok(Freed(s, k, a))
  {
    hide ListOk, LiveOk, Housed, SpareOwned, LentOwned, Freed;
    OkMemory(s);
    FreedList(s, k, a);
    FreedKeys(s, k, a);
    ListMemory(Freed(s, k, a));
    FreedLive(s, k, a);
    FreedHoused(s, k, a);
    FreedOwned(s, k, a);
    FreedLent(s, k, a);
  }

  // ----- malloc

  /** The block malloc hands out of free block i: all of it, or its tail. */
  function Cut(s: Arena, i: nat, n: nat): nat
    requires i < |s.list| && s.list[i] in s.mem && s.mem[s.list[i]].size >= n
  {
    s.list[i] + s.mem[s.list[i]].size - n
  }

  ghost function Taken(s: Arena, i: nat, n: nat): Arena
    requires 0 < i < |s.list| && InMemory(s.mem, s.list) && s.mem[s.list[i]].size >= n && Cut(s, i, n) in s.mem
  {
    var p, r := s.list[i], Cut(s, i, n);
    var live, own := s.live[r := n], Assigned(s.own, r, n, Lent(r));
    if s.mem[p].size == n then
      Arena(s.mem[s.list[i - 1] := Header(s.mem[p].ptr, s.mem[s.list[i - 1]].size)], s.base,
            Splice(s.list, i - 1, [], i + 1), live, own)
    else
      Arena(s.mem[p := Header(s.mem[p].ptr, s.mem[p].size - n)][r := Header(s.mem[r].ptr, n)], s.base, s.list, live, own)
  }

  /** A block that is large enough is never base, and the unit malloc cuts it at is known memory. */
  lemma CutInMemory(s: Arena, i: nat, n: nat)
    requires Ok(s) && i < |s.list| && n >= 1 && s.list[i] in s.mem && s.mem[s.list[i]].size >= n
    ensures i > 0 && InMemory(s.mem, s.list) && Cut(s, i, n) in s.mem
    ensures Cut(s, i, n) > s.base
    ensures s.mem[s.list[i]].size > n ==> Cut(s, i, n) !in s.list
    ensures Cut(s, i, n) !in s.live
  {
    hide Linked, Spaced, LiveOk;
    var r := Cut(s, i, n);
    assert r in s.own && s.own[r] == Spare(s.list[i]);
    if r in s.list {
      var h :| 0 <= h < |s.list| && s.list[h] == r;
      HeadOwned(s, h);
    }
    if r in s.live {
      LentHead(s, r);
    }
  }

  lemma HeadOwned(s: Arena, i: nat)
    requires Ok(s) && i < |s.list|
    ensures if i == 0 then s.list[i] !in s.own else s.list[i] in s.own && s.own[s.list[i]] == Spare(s.list[i])
  {
    hide Linked, Spaced, LiveOk;
  }

  lemma LentHead(s: Arena, a: nat)
    requires Ok(s) && a in s.live
    ensures a in s.own && s.own[a] == Lent(a)
  {
    hide ListOk, Housed;
  }

  lemma LinkHere(s: Arena, i: nat)
    requires Ok(s) && i < |s.list|
    ensures InMemory(s.mem, s.list) && LinkAt(s.mem, s.list, i)
  {
    hide Spaced, Sized, Housed, SpareOwned, LentOwned, LiveOk;
  }

  lemma TakenList(s: Arena, i: nat, n: nat)
    requires Ok(s) && i < |s.list| && n >= 1 && s.list[i] in s.mem && s.mem[s.list[i]].size >= n
    ensures i > 0 && InMemory(s.mem, s.list) && Cut(s, i, n) in s.mem
    ensures ListOk(Taken(s, i, n).mem, s.base, Taken(s, i, n).list)
  {
    hide Splice, Linked, Spaced, Sized, Housed, SpareOwned, LentOwned, LiveOk;
    CutInMemory(s, i, n);
    LinkHere(s, i);
    LinkHere(s, i - 1);
    if s.mem[s.list[i]].size == n {
      TakenWhole(s, i, n);
    } else {
      TakenTail(s, i, n);
    }
  }

  lemma TakenWhole(s: Arena, i: nat, n: nat)
    requires ListOk(s.mem, s.base, s.list) && 0 < i < |s.list| && s.mem[s.list[i]].size == n >= 1
    requires LinkAt(s.mem, s.list, i) && Cut(s, i, n) in s.mem
    ensures ListOk(Taken(s, i, n).mem, s.base, Taken(s, i, n).list)
  {
    hide Splice, Linked;
    Increasing(s.mem, s.list);
    Spliced(s.mem, Taken(s, i, n).mem, s.base, s.list, i - 1, [], i + 1);
  }

  lemma TakenTail(s: Arena, i: nat, n: nat)
    requires ListOk(s.mem, s.base, s.list) && 0 < i < |s.list| && s.mem[s.list[i]].size > n >= 1
    requires LinkAt(s.mem, s.list, i) && LinkAt(s.mem, s.list, i - 1)
    requires Cut(s, i, n) in s.mem && Cut(s, i, n) !in s.list
    ensures ListOk(Taken(s, i, n).mem, s.base, Taken(s, i, n).list)
  {
    hide Splice, Linked;
    Increasing(s.mem, s.list);
    Spliced(s.mem, Taken(s, i, n).mem, s.base, s.list, i - 1, [s.list[i]], i + 1);
    assert Splice(s.list, i - 1, [s.list[i]], i + 1) == s.list;
  }

  lemma TakenLive(s: Arena, i: nat, n: nat)
    requires Ok(s) && 0 < i < |s.list| && InMemory(s.mem, s.list) && n >= 1 && s.mem[s.list[i]].size >= n
    requires Cut(s, i, n) in s.mem
    ensures LiveOk(Taken(s, i, n).mem, Taken(s, i, n).live)
  {
    hide Splice, Linked, Spaced, Sized, Housed, SpareOwned, LentOwned;
    CutInMemory(s, i, n);
    forall x | x in s.live
      ensures x !in s.list
    {
      LiveApart(s, x);
    }
  }

  /** The headers and the list after malloc, without the splice. */
  lemma TakenHeaders(s: Arena, i: nat, n: nat)
    requires Ok(s) && 0 < i < |s.list| && InMemory(s.mem, s.list) && n >= 1 && s.mem[s.list[i]].size >= n
    requires Cut(s, i, n) in s.mem
    ensures var t, p := Taken(s, i, n), s.list[i];
            && (forall x | x in s.mem :: x in t.mem)
            && (forall x | x in s.list && x != p :: x in t.list && t.mem[x].size == s.mem[x].size)
            && (forall x | x in t.list :: x in s.list && (x == p ==> s.mem[p].size > n))
            && (s.mem[p].size > n ==> p in t.list && t.mem[p].size == s.mem[p].size - n)
  {
    hide Linked, Sized, Housed, SpareOwned, LentOwned, LiveOk, Splice, Assigned;
    CutInMemory(s, i, n);
    Increasing(s.mem, s.list);
    if s.mem[s.list[i]].size == n {
      forall x | x in s.list && x != s.list[i]
        ensures x in Splice(s.list, i - 1, [], i + 1)
      {
        var h :| 0 <= h < |s.list| && s.list[h] == x;
        SpliceKeeps(s.list, i - 1, [], i + 1, h);
      }
    }
  }

  lemma TakenHoused(s: Arena, i: nat, n: nat)
    requires Ok(s) && 0 < i < |s.list| && InMemory(s.mem, s.list) && n >= 1 && s.mem[s.list[i]].size >= n
    requires Cut(s, i, n) in s.mem
    ensures Housed(Taken(s, i, n))
  {
    hide Linked, Spaced, Sized, LiveOk, Splice;
    TakenHeaders(s, i, n);
    CutInMemory(s, i, n);
  }

  lemma TakenOwned(s: Arena, i: nat, n: nat)
    requires Ok(s) && 0 < i < |s.list| && InMemory(s.mem, s.list) && n >= 1 && s.mem[s.list[i]].size >= n
    requires Cut(s, i, n) in s.mem && InMemory(Taken(s, i, n).mem, Taken(s, i, n).list)
    ensures SpareOwned(Taken(s, i, n))
  {
    hide Ok, Taken;
    var t := Taken(s, i, n);
    forall h, u: nat | 0 <= h < |t.list| && t.list[h] <= u < t.list[h] + t.mem[t.list[h]].size
      ensures u in t.own && t.own[u] == Spare(t.list[h])
    {
      TakenOwns(s, i, n, t.list[h], u);
    }
  }

  lemma TakenOwns(s: Arena, i: nat, n: nat, x: nat, u: nat)
    requires Ok(s) && 0 < i < |s.list| && InMemory(s.mem, s.list) && n >= 1 && s.mem[s.list[i]].size >= n
    requires Cut(s, i, n) in s.mem
    requires x in Taken(s, i, n).list && x in Taken(s, i, n).mem && x <= u < x + Taken(s, i, n).mem[x].size
    ensures u in Taken(s, i, n).own && Taken(s, i, n).own[u] == Spare(x)
  {
    hide Ok, Splice;
    TakenHeaders(s, i, n);
    SpareUnits(s, i, u);
    if x != s.list[i] {
      var h :| 0 <= h < |s.list| && s.list[h] == x;
      SpareUnits(s, h, u);
    }
  }

  lemma TakenLent(s: Arena, i: nat, n: nat)
    requires Ok(s) && 0 < i < |s.list| && InMemory(s.mem, s.list) && n >= 1 && s.mem[s.list[i]].size >= n
    requires Cut(s, i, n) in s.mem
    ensures LentOwned(Taken(s, i, n))
  {
    hide Linked, Spaced, Sized, Housed, LiveOk, Splice;
    CutInMemory(s, i, n);
  }

  /** malloc keeps the heap in order. */
  lemma TakenOk(s: Arena, i: nat, n: nat)
    requires Ok(s) && i < |s.list| && n >= 1 && s.list[i] in s.mem && s.mem[s.list[i]].size >= n
    ensures i > 0 && InMemory(s.mem, s.list) && Cut(s, i, n) in s.mem && Ok(Taken(s, i, n))
  {
    hide ListOk, LiveOk, Housed, SpareOwned, LentOwned, Splice;
    TakenList(s, i, n);
    ListMemory(Taken(s, i, n));
    TakenLive(s, i, n);
    TakenHoused(s, i, n);
    TakenOwned(s, i, n);
    TakenLent(s, i, n);
  }

  // ----- sbrk

  /** Units from sbrk that the heap does not have yet. */
  predicate Fresh(s: Arena, at: nat, content: seq<Header>)
  {
    at > s.base && forall u | at <= u < at + |content| :: u !in s.own
  }

  predicate Within(u: nat, at: nat, n: nat) { at <= u < at + n }

  function Range(at: nat, n: nat): (r: set<nat>)
    ensures forall u :: u in r <==> at <= u < at + n
  {
    set u: nat | u < at + n && Within(u, at, n)
  }

  function Paint(mem: Memory, at: nat, content: seq<Header>): (m: Memory)
    ensures m.Keys == Range(at, |content|) + mem.Keys
  {
    map u | u in Range(at, |content|) + mem.Keys ::
      if at <= u < at + |content| then content[u - at] else mem[u]
  }

  /** morecore before it calls free: the new region looks like one lent block. */
  ghost function Grown(s: Arena, at: nat, content: seq<Header>): Arena
    requires content != []
  {
    var mem := Paint(s.mem, at, content);
    Arena(mem[at := Header(mem[at].ptr, |content|)], s.base, s.list, s.live[at := |content|],
          map u | u in Range(at, |content|) + s.own.Keys ::
            if at <= u < at + |content| then Lent(at) else s.own[u])
  }

  /** Headers of the heap lie in units it has, except base's. */
  lemma HeadersKept(s: Arena, at: nat, content: seq<Header>)
    requires Ok(s) && content != [] && Fresh(s, at, content)
    ensures forall x | x in s.list || x in s.live :: x in s.mem && x in Grown(s, at, content).mem
                                                      && Grown(s, at, content).mem[x] == s.mem[x]
  {
    hide Linked, Spaced, Housed;
    forall x | x in s.list || x in s.live
      ensures x in s.mem && !(at <= x < at + |content|)
    {
      if x in s.list {
        var h :| 0 <= h < |s.list| && s.list[h] == x;
        HeadOwned(s, h);
      } else {
        LentHead(s, x);
      }
    }
  }

  lemma GrownOk(s: Arena, at: nat, content: seq<Header>)
    requires Ok(s) && content != [] && Fresh(s, at, content)
    ensures Ok(Grown(s, at, content))
  {
    hide ListOk, Housed, SpareOwned, LentOwned, LiveOk, Paint;
    OkMemory(s);
    HeadersKept(s, at, content);
    GrownList(s, at, content);
    GrownBlocks(s, at, content);
    GrownLent(s, at, content);
    GrownHoused(s, at, content);
  }

  lemma GrownList(s: Arena, at: nat, content: seq<Header>)
    requires Ok(s) && content != []
    requires forall x | x in s.list || x in s.live :: x in s.mem && x in Grown(s, at, content).mem
                                                      && Grown(s, at, content).mem[x] == s.mem[x]
    ensures ListOk(Grown(s, at, content).mem, s.base, s.list)
  {
    hide Paint, Housed, SpareOwned, LentOwned, LiveOk;
    forall i | 0 <= i < |s.list|
      ensures LinkAt(Grown(s, at, content).mem, s.list, i)
    {
      assert LinkAt(s.mem, s.list, i);
    }
  }

  lemma GrownBlocks(s: Arena, at: nat, content: seq<Header>)
    requires Ok(s) && content != [] && Fresh(s, at, content)
    requires forall x | x in s.list || x in s.live :: x in s.mem && x in Grown(s, at, content).mem
                                                      && Grown(s, at, content).mem[x] == s.mem[x]
    ensures InMemory(Grown(s, at, content).mem, s.list)
    ensures LiveOk(Grown(s, at, content).mem, Grown(s, at, content).live)
    ensures SpareOwned(Grown(s, at, content))
  {
    hide Paint, Linked, Spaced, Sized, Housed;
  }

  lemma GrownLent(s: Arena, at: nat, content: seq<Header>)
    requires Ok(s) && content != [] && Fresh(s, at, content)
    ensures LentOwned(Grown(s, at, content))
  {
    hide Paint, ListOk, SpareOwned, Housed;
    LentNotFresh(s, at, content);
  }

  lemma GrownHoused(s: Arena, at: nat, content: seq<Header>)
    requires Ok(s) && content != [] && Fresh(s, at, content)
    requires forall x | x in s.list || x in s.live :: x in s.mem && x in Grown(s, at, content).mem
                                                      && Grown(s, at, content).mem[x] == s.mem[x]
    ensures Housed(Grown(s, at, content))
  {
    hide Linked, Spaced, Sized, SpareOwned, LentOwned;
    LentNotFresh(s, at, content);
  }

  lemma LentNotFresh(s: Arena, at: nat, content: seq<Header>)
    requires Ok(s) && content != [] && Fresh(s, at, content)
    ensures at !in s.live
  {
    if at in s.live {
      LentHead(s, at);
    }
  }
}
