/** The virtqueue of virt.c (split virtqueue, section 2.6 of VIRTIO 1.1) as values: descriptors, chains, rings. */
module VirtRing {
  import opened Numbers

  /** Where a descriptor points: a request header, a buffer's data, or a status byte. */
  datatype Addr = NoAddr | Header(h: nat) | Data(b: nat) | Status(h: nat)

  datatype Desc = Desc(addr: Addr, len: nat, flags: nat, next: nat)

  const F_NEXT: nat := 1
  const F_WRITE: nat := 2

  /** A request is queued for the device, in its hands, posted by it, or answered and waiting for its caller. */
  datatype Phase = Queued | Taken | Posted | Answered

  datatype Req = Req(mid: nat, tail: nat, buf: nat, write: bool, sector: nat, phase: Phase)

  /** Who has a descriptor: nobody, the caller that is filling or freeing it, or a request, by its head. */
  datatype Owner = Nobody | Caller | Chain(h: nat)

  type Owners = seq<Owner>

  predicate Linked(desc: seq<Desc>, h: nat, q: Req)
  {
    && h < |desc| && q.mid < |desc| && q.tail < |desc| && h != q.mid && h != q.tail && q.mid != q.tail
    && desc[h] == Desc(Header(h), 16, F_NEXT, q.mid)
    && desc[q.mid] == Desc(Data(q.buf), 1024, if q.write then F_NEXT else F_WRITE + F_NEXT, q.tail)
    && desc[q.tail] == Desc(Status(h), 1, F_WRITE, 0)
  }

  /** One buffer of a request as the device sees it. */
  datatype Part = Part(addr: Addr, len: nat, writable: bool)

  /** The chain the device follows from descriptor i, at most n long: bit 0 of the flags says that there is a next one, bit 1
      that the device writes the buffer (section 2.6.5 of VIRTIO 1.1). */
  function Follow(desc: seq<Desc>, i: nat, n: nat): seq<Part>
    decreases n
  {
    if n == 0 || i >= |desc| then []
    else [Part(desc[i].addr, desc[i].len, desc[i].flags / 2 % 2 == 1)]
         + if desc[i].flags % 2 == 1 then Follow(desc, desc[i].next, n - 1) else []
  }

  /** A linked chain spells out header, data and status byte (section 5.2.6 of VIRTIO 1.1): the device reads the header, reads
      the data for a write and writes them for a read, and writes the status; however long it would follow. */
  lemma LinkedFollows(desc: seq<Desc>, h: nat, q: Req, n: nat)
    requires Linked(desc, h, q) && n >= 3
    ensures Follow(desc, h, n) == [Part(Header(h), 16, false), Part(Data(q.buf), 1024, !q.write), Part(Status(h), 1, true)]
  {
    assert Follow(desc, q.tail, n - 2) == [Part(Status(h), 1, true)];
    assert Follow(desc, q.mid, n - 1) == [Part(Data(q.buf), 1024, !q.write)] + Follow(desc, q.tail, n - 2);
  }

  predicate Member(h: nat, q: Req, i: nat) { i == h || i == q.mid || i == q.tail }

  const EMPTY: Desc := Desc(NoAddr, 0, 0, 0)

  ghost predicate DescOk(free: seq<bool>, desc: seq<Desc>, owner: Owners, reqs: map<nat, Req>, i: nat)
    requires i < |free| == |owner| == |desc|
  {
    && (free[i] <==> owner[i] == Nobody) && (free[i] ==> desc[i] == EMPTY)
    && (owner[i].Chain? ==> owner[i].h in reqs && Member(owner[i].h, reqs[owner[i].h], i))
  }

  ghost predicate ChainOk(desc: seq<Desc>, owner: Owners, h: nat, q: Req)
    requires |desc| == |owner|
  {
    Linked(desc, h, q) && owner[h] == owner[q.mid] == owner[q.tail] == Chain(h)
  }

  /** Free descriptors, those in a caller's hands, and disjoint chains of three, one for each request. */
  ghost predicate ChainsOk(num: nat, free: seq<bool>, desc: seq<Desc>, owner: Owners, reqs: map<nat, Req>)
  {
    && |free| == |desc| == |owner| == num
    && (forall i: nat | i < num :: DescOk(free, desc, owner, reqs, i))
    && (forall h | h in reqs :: ChainOk(desc, owner, h, reqs[h]))
  }

  /** What alloc_desc finds: the first free descriptor from i on, or -1. */
  function FirstFree(free: seq<bool>, i: nat): (r: int)
    requires i <= |free|
    ensures r == -1 || i <= r < |free|
    decreases |free| - i
  {
    if i == |free| then -1 else if free[i] then i else FirstFree(free, i + 1)
  }

  lemma {:induction false} FirstFreeIs(free: seq<bool>, i: nat)
    requires i <= |free|
    ensures var r := FirstFree(free, i);
            && (r == -1 ==> forall k: nat :: i <= k < |free| ==> !free[k])
            && (r >= 0 ==> free[r] && forall k: nat :: i <= k < r ==> !free[k])
    decreases |free| - i
  {
    if i < |free| && !free[i] {
      FirstFreeIs(free, i + 1);
    }
  }

  lemma {:induction false} FirstFreeSkips(free: seq<bool>, i: nat, k: nat)
    requires i <= k < |free| && (forall j: nat :: i <= j < k ==> !free[j]) && free[k]
    ensures FirstFree(free, i) == k
    decreases k - i
  {
    if i < k {
      FirstFreeSkips(free, i + 1, k);
    }
  }

  lemma {:induction false} NoFirstFree(free: seq<bool>, i: nat)
    requires i <= |free| && forall j: nat :: i <= j < |free| ==> !free[j]
    ensures FirstFree(free, i) == -1
    decreases |free| - i
  {
    if i < |free| {
      NoFirstFree(free, i + 1);
    }
  }

  /** With at most two descriptors of f taken, alloc_desc finds another one of f, or f had fewer than three. */
  lemma NextFree(f: seq<bool>, g: seq<bool>, taken: set<nat>)
    requires |g| == |f| && |taken| <= 2 && forall k: nat :: k < |f| ==> (g[k] <==> f[k] && k !in taken)
    ensures var r := FirstFree(g, 0); if r < 0 then |FreeUnits(f)| < 3 else f[r] && r !in taken
  {
    FirstFreeIs(g, 0);
    if FirstFree(g, 0) < 0 {
      FewFree(f, taken);
    }
  }

  /** When the only free descriptors are these, there are few. */
  /** Three descriptors taken. */
  lemma ThreeFewer(f: seq<bool>, g: seq<bool>, a: nat, b: nat, c: nat)
    requires a < |f| && b < |f| && c < |f| && a != b && a != c && b != c && f[a] && f[b] && f[c]
    requires g == f[a := false][b := false][c := false]
    ensures |FreeUnits(f)| >= 3 && |FreeUnits(g)| == |FreeUnits(f)| - 3
  {
    var s, w := FreeUnits(f), FreeUnits(g);
    assert a in s && b in s && c in s && a !in w && b !in w && c !in w;
    assert s == w + {a, b, c};
    assert |{a, b, c}| == 3;
  }

  lemma FewFree(free: seq<bool>, taken: set<nat>)
    requires forall k: nat :: k < |free| && k !in taken ==> !free[k]
    ensures |FreeUnits(free)| <= |taken|
  {
    SubsetSize(FreeUnits(free), taken);
  }

  lemma EmptyOk(num: nat)
    requires num >= 3 && 65536 % num == 0
    ensures Books(num, seq(num, _ => true), seq(num, _ => EMPTY), seq(num, _ => Nobody), map[],
                  seq(num, _ => Op(0, 0)), seq(num, _ => -1), {}, [], [])
    ensures RingState(num, seq(num, _ => 0), 0, 0, 0, [])
  {
  }

  // ----- Taking, filling and freeing descriptors

  lemma TakeDesc(num: nat, free: seq<bool>, desc: seq<Desc>, owner: Owners, reqs: map<nat, Req>, i: nat)
    requires ChainsOk(num, free, desc, owner, reqs) && i < num && free[i]
    ensures ChainsOk(num, free[i := false], desc, owner[i := Caller], reqs)
  {
    assert DescOk(free, desc, owner, reqs, i);
    forall h | h in reqs
      ensures ChainOk(desc, owner[i := Caller], h, reqs[h])
    {
      assert ChainOk(desc, owner, h, reqs[h]);
    }
    var freed, owned := free[i := false], owner[i := Caller];
    forall k: nat | k < num
      ensures DescOk(freed, desc, owned, reqs, k)
    {
      assert DescOk(free, desc, owner, reqs, k);
    }
  }

  lemma DropDesc(num: nat, free: seq<bool>, desc: seq<Desc>, owner: Owners, reqs: map<nat, Req>, i: nat)
    requires ChainsOk(num, free, desc, owner, reqs) && i < num && owner[i] == Caller
    ensures ChainsOk(num, free[i := true], desc[i := EMPTY], owner[i := Nobody], reqs)
  {
    forall h | h in reqs
      ensures ChainOk(desc[i := EMPTY], owner[i := Nobody], h, reqs[h])
    {
      assert ChainOk(desc, owner, h, reqs[h]);
    }
    var freed, cleared, owned := free[i := true], desc[i := EMPTY], owner[i := Nobody];
    forall k: nat | k < num
      ensures DescOk(freed, cleared, owned, reqs, k)
    {
      assert DescOk(free, desc, owner, reqs, k);
    }
  }

  /** Three descriptors in the caller's hands, linked into a chain, become a request. */
  lemma NewChain(num: nat, free: seq<bool>, desc: seq<Desc>, owner: Owners, reqs: map<nat, Req>, d: seq<Desc>, h: nat, q: Req)
    requires ChainsOk(num, free, desc, owner, reqs) && |d| == num && h !in reqs && Linked(d, h, q)
    requires owner[h] == owner[q.mid] == owner[q.tail] == Caller
    requires forall k: nat | k < num && !Member(h, q, k) :: d[k] == desc[k]
    ensures ChainsOk(num, free, d, owner[h := Chain(h)][q.mid := Chain(h)][q.tail := Chain(h)], reqs[h := q])
  {
    var now := owner[h := Chain(h)][q.mid := Chain(h)][q.tail := Chain(h)];
    forall g | g in reqs
      ensures ChainOk(d, now, g, reqs[g])
    {
      assert ChainOk(desc, owner, g, reqs[g]);
    }
    var more := reqs[h := q];
    forall k: nat | k < num
      ensures DescOk(free, d, now, more, k)
    {
      assert DescOk(free, desc, owner, reqs, k);
    }
  }

  /** A request given up: its descriptors are in the caller's hands again. */
  lemma GiveUp(num: nat, free: seq<bool>, desc: seq<Desc>, owner: Owners, reqs: map<nat, Req>, h: nat)
    requires ChainsOk(num, free, desc, owner, reqs) && h in reqs
    ensures Linked(desc, h, reqs[h])
    ensures var q := reqs[h];
            ChainsOk(num, free, desc, owner[h := Caller][q.mid := Caller][q.tail := Caller], reqs - {h})
  {
    var q := reqs[h];
    var now := owner[h := Caller][q.mid := Caller][q.tail := Caller];
    assert ChainOk(desc, owner, h, q);
    forall g | g in reqs && g != h
      ensures ChainOk(desc, now, g, reqs[g])
    {
      assert ChainOk(desc, owner, g, reqs[g]);
    }
    var rest := reqs - {h};
    forall k: nat | k < num
      ensures DescOk(free, desc, now, rest, k)
    {
      assert DescOk(free, desc, owner, reqs, k);
    }
  }

  /** Only the phase of a request changes. */
  lemma NewPhase(num: nat, free: seq<bool>, desc: seq<Desc>, owner: Owners, reqs: map<nat, Req>, h: nat, p: Phase)
    requires ChainsOk(num, free, desc, owner, reqs) && h in reqs
    ensures ChainsOk(num, free, desc, owner, reqs[h := reqs[h].(phase := p)])
  {
    var now := reqs[h := reqs[h].(phase := p)];
    forall g | g in now
      ensures ChainOk(desc, owner, g, now[g])
    {
      assert ChainOk(desc, owner, g, reqs[g]);
    }
    forall k: nat | k < num
      ensures DescOk(free, desc, owner, now, k)
    {
      assert DescOk(free, desc, owner, reqs, k);
    }
  }

  // ----- Conservation

  ghost function ChainUnits(owner: Owners, heads: set<nat>): set<nat>
  {
    set i: nat | i < |owner| && owner[i].Chain? && owner[i].h in heads
  }

  ghost function FreeUnits(free: seq<bool>): set<nat>
  {
    set i: nat | i < |free| && free[i]
  }

  ghost function CallerUnits(owner: Owners): set<nat>
  {
    set i: nat | i < |owner| && owner[i] == Caller
  }

  lemma OneChain(num: nat, free: seq<bool>, desc: seq<Desc>, owner: Owners, reqs: map<nat, Req>, h: nat)
    requires ChainsOk(num, free, desc, owner, reqs) && h in reqs
    ensures ChainUnits(owner, {h}) == {h, reqs[h].mid, reqs[h].tail} && |ChainUnits(owner, {h})| == 3
  {
    assert ChainOk(desc, owner, h, reqs[h]);
    forall i: nat
      ensures i in ChainUnits(owner, {h}) <==> i in {h, reqs[h].mid, reqs[h].tail}
    {
      if i < num {
        assert DescOk(free, desc, owner, reqs, i);
      }
    }
  }

  lemma {:induction false} ChainCount(num: nat, free: seq<bool>, desc: seq<Desc>, owner: Owners, reqs: map<nat, Req>, heads: set<nat>)
    requires ChainsOk(num, free, desc, owner, reqs) && heads <= reqs.Keys
    ensures |ChainUnits(owner, heads)| == 3 * |heads|
    decreases |heads|
  {
    hide ChainsOk;
    if heads == {} {
      assert ChainUnits(owner, heads) == {};
    } else {
      var h :| h in heads;
      ChainCount(num, free, desc, owner, reqs, heads - {h});
      OneChain(num, free, desc, owner, reqs, h);
      assert ChainUnits(owner, heads) == ChainUnits(owner, heads - {h}) + ChainUnits(owner, {h});
    }
  }

  lemma {:induction false} RangeSize(n: nat, s: set<nat>)
    requires forall i: nat :: i in s <==> i < n
    ensures |s| == n
  {
    if n == 0 {
      assert s == {};
    } else {
      RangeSize(n - 1, s - {n - 1});
    }
  }

  lemma Kinds(num: nat, free: seq<bool>, desc: seq<Desc>, owner: Owners, reqs: map<nat, Req>, i: nat)
    requires ChainsOk(num, free, desc, owner, reqs)
    ensures i in FreeUnits(free) || i in CallerUnits(owner) || i in ChainUnits(owner, reqs.Keys) <==> i < num
    ensures !(i in FreeUnits(free) && i in CallerUnits(owner))
    ensures !(i in ChainUnits(owner, reqs.Keys) && (i in FreeUnits(free) || i in CallerUnits(owner)))
  {
    if i < num {
      assert DescOk(free, desc, owner, reqs, i);
    }
  }

  /** Every descriptor is free, in a caller's hands, or one of the three of exactly one outstanding request. */
  lemma Conservation(num: nat, free: seq<bool>, desc: seq<Desc>, owner: Owners, reqs: map<nat, Req>)
    requires ChainsOk(num, free, desc, owner, reqs)
    ensures |FreeUnits(free)| + |CallerUnits(owner)| + 3 * |reqs| == num
  {
    hide ChainsOk, FreeUnits, CallerUnits, ChainUnits;
    ChainCount(num, free, desc, owner, reqs, reqs.Keys);
    assert |reqs.Keys| == |reqs|;
    forall i: nat
      ensures i in FreeUnits(free) || i in CallerUnits(owner) || i in ChainUnits(owner, reqs.Keys) <==> i < num
      ensures !(i in FreeUnits(free) && i in CallerUnits(owner))
      ensures !(i in ChainUnits(owner, reqs.Keys) && (i in FreeUnits(free) || i in CallerUnits(owner)))
    {
      Kinds(num, free, desc, owner, reqs, i);
    }
    ThreeParts(FreeUnits(free), CallerUnits(owner), ChainUnits(owner, reqs.Keys), num);
  }

  lemma ThreeParts(a: set<nat>, b: set<nat>, c: set<nat>, num: nat)
    requires forall i: nat :: i in a || i in b || i in c <==> i < num
    requires a !! b && a !! c && b !! c
    ensures |a| + |b| + |c| == num
  {
    var s := a + b + c;
    forall i: nat
      ensures i in s <==> i < num
    {
    }
    RangeSize(num, s);
    assert |a + b| == |a| + |b|;
    assert |(a + b) + c| == |a + b| + |c|;
  }

  // ----- Requests, buffers and the two queues

  predicate Distinct(f: seq<nat>)
  {
    forall i, j | 0 <= i < j < |f| :: f[i] != f[j]
  }

  /** The list holds the heads of exactly the requests in this phase, each once. */
  ghost predicate Lists(reqs: map<nat, Req>, heads: seq<nat>, p: Phase)
  {
    Distinct(heads) && forall h :: h in heads <==> h in reqs && reqs[h].phase == p
  }

  /** The request header in ops: type (0 in, 1 out) and first sector. */
  datatype Op = Op(kind: nat, sector: nat)

  /** Each request has its own buffer, whose disk flag is set until the interrupt handler has seen the answer. */
  ghost predicate BuffersOk(reqs: map<nat, Req>, ops: seq<Op>, info: seq<int>, busy: set<nat>)
  {
    && (forall h | h in reqs :: h < |info| == |ops| && info[h] == reqs[h].buf && ops[h] == Op(if reqs[h].write then 1 else 0, reqs[h].sector)
                                && (reqs[h].buf in busy <==> reqs[h].phase != Answered))
    && (forall h, g | h in reqs && g in reqs && h != g :: reqs[h].buf != reqs[g].buf)
  }

  /** There are at most a third as many requests as descriptors, so neither ring can be full. */
  lemma ListBound(num: nat, free: seq<bool>, desc: seq<Desc>, owner: Owners, reqs: map<nat, Req>, heads: seq<nat>, p: Phase)
    requires ChainsOk(num, free, desc, owner, reqs) && Lists(reqs, heads, p)
    ensures 3 * |heads| <= 3 * |reqs| <= num
  {
    hide ChainsOk;
    Conservation(num, free, desc, owner, reqs);
    DistinctCount(heads);
    assert Elements(heads) <= reqs.Keys;
    SubsetSize(Elements(heads), reqs.Keys);
    assert |reqs.Keys| == |reqs|;
  }

  lemma {:induction false} SubsetSize(a: set<nat>, b: set<nat>)
    requires a <= b
    ensures |a| <= |b|
  {
    if a != {} {
      var x :| x in a;
      SubsetSize(a - {x}, b - {x});
    }
  }

  lemma ListAdd(reqs: map<nat, Req>, heads: seq<nat>, p: Phase, h: nat, q: Req)
    requires Lists(reqs, heads, p) && (h in reqs ==> reqs[h].phase != p)
    ensures q.phase == p ==> Lists(reqs[h := q], heads + [h], p)
    ensures q.phase != p ==> Lists(reqs[h := q], heads, p)
  {
    assert h !in heads;
    if q.phase == p {
      var more := heads + [h];
      forall g
        ensures g in more <==> g in reqs[h := q] && reqs[h := q][g].phase == p
      {
        assert g in more <==> g in heads || g == h;
      }
    }
  }

  lemma ListDrop(reqs: map<nat, Req>, heads: seq<nat>, p: Phase, q: Req)
    requires Lists(reqs, heads, p) && heads != [] && q.phase != p
    ensures Lists(reqs[heads[0] := q], heads[1..], p)
  {
    var rest := heads[1..];
    forall g
      ensures g in rest <==> g in reqs[heads[0] := q] && reqs[heads[0] := q][g].phase == p
    {
      assert heads == [heads[0]] + rest;
      assert g in heads <==> g == heads[0] || g in rest;
    }
  }

  lemma NewBuffer(reqs: map<nat, Req>, ops: seq<Op>, info: seq<int>, busy: set<nat>, h: nat, q: Req)
    requires BuffersOk(reqs, ops, info, busy) && h !in reqs && h < |info| == |ops| && q.phase != Answered
    requires forall g | g in reqs :: reqs[g].buf != q.buf
    ensures BuffersOk(reqs[h := q], ops[h := Op(if q.write then 1 else 0, q.sector)], info[h := q.buf], busy + {q.buf})
  {
  }

  lemma BufferPhase(reqs: map<nat, Req>, ops: seq<Op>, info: seq<int>, busy: set<nat>, h: nat, p: Phase)
    requires BuffersOk(reqs, ops, info, busy) && h in reqs && reqs[h].phase != Answered
    ensures p != Answered ==> BuffersOk(reqs[h := reqs[h].(phase := p)], ops, info, busy)
    ensures p == Answered ==> BuffersOk(reqs[h := reqs[h].(phase := p)], ops, info, busy - {reqs[h].buf})
  {
  }

  lemma BufferDone(reqs: map<nat, Req>, ops: seq<Op>, info: seq<int>, busy: set<nat>, h: nat)
    requires BuffersOk(reqs, ops, info, busy) && h in reqs
    ensures BuffersOk(reqs - {h}, ops, info[h := -1], busy)
  {
  }

  lemma ListRemove(reqs: map<nat, Req>, heads: seq<nat>, p: Phase, h: nat)
    requires Lists(reqs, heads, p) && h in reqs && reqs[h].phase != p
    ensures Lists(reqs - {h}, heads, p)
  {
  }

  lemma BooksTake(num: nat, free: seq<bool>, desc: seq<Desc>, owner: Owners, reqs: map<nat, Req>,
                  ops: seq<Op>, info: seq<int>, busy: set<nat>, queued: seq<nat>, posted: seq<nat>, i: nat)
    requires Books(num, free, desc, owner, reqs, ops, info, busy, queued, posted) && i < num
    ensures |free| == |owner| == |desc| == num
    ensures free[i] ==> Books(num, free[i := false], desc, owner[i := Caller], reqs, ops, info, busy, queued, posted)
    ensures owner[i] == Caller ==>
              Books(num, free[i := true], desc[i := EMPTY], owner[i := Nobody], reqs, ops, info, busy, queued, posted)
  {
    hide ChainsOk, BuffersOk, Lists;
    BooksSizes(num, free, desc, owner, reqs, ops, info, busy, queued, posted);
    if free[i] {
      TakeDesc(num, free, desc, owner, reqs, i);
    }
    if owner[i] == Caller {
      DropDesc(num, free, desc, owner, reqs, i);
    }
  }

  /** The effect of the interrupt handler: what was posted is answered. */
  ghost function Answer(reqs: map<nat, Req>, heads: seq<nat>): map<nat, Req>
  {
    map h | h in reqs :: if h in heads then reqs[h].(phase := Answered) else reqs[h]
  }

  ghost function BuffersOf(reqs: map<nat, Req>, heads: seq<nat>): set<nat>
  {
    set h | h in heads && h in reqs :: reqs[h].buf
  }

  lemma AnswerNext(reqs: map<nat, Req>, heads: seq<nat>, busy: set<nat>)
    requires heads != [] && heads[0] in reqs && Distinct(heads)
    ensures var h := heads[0]; var now := reqs[h := reqs[h].(phase := Answered)];
            && Answer(now, heads[1..]) == Answer(reqs, heads)
            && busy - {reqs[h].buf} - BuffersOf(now, heads[1..]) == busy - BuffersOf(reqs, heads)
  {
    var h, rest := heads[0], heads[1..];
    var now := reqs[h := reqs[h].(phase := Answered)];
    assert heads == [h] + rest;
    assert forall g :: g in heads <==> g == h || g in rest;
    assert BuffersOf(reqs, heads) == {reqs[h].buf} + BuffersOf(now, rest);
  }

  /** A chain the way free_chain walks it: next leads on while the flag says so. */
  ghost predicate Walkable(desc: seq<Desc>, owner: Owners, chain: seq<nat>)
  {
    && chain != [] && Distinct(chain) && |desc| == |owner|
    && (forall k: nat | k < |chain| :: chain[k] < |desc| && owner[chain[k]] == Caller
                                       && desc[chain[k]].flags % 2 == (if k + 1 < |chain| then 1 else 0))
    && (forall k: nat | k < |chain| - 1 :: desc[chain[k]].next == chain[k + 1])
  }

  /** Every position in the list set to v. */
  function SetAll<T>(s: seq<T>, at: seq<nat>, v: T): (r: seq<T>)
    ensures |r| == |s|
  {
    if at == [] then s
    else
      var r, i := SetAll(s, at[..|at| - 1], v), at[|at| - 1];
      if i < |s| then r[i := v] else r
  }

  lemma {:induction false} SetAllAt<T>(s: seq<T>, at: seq<nat>, v: T, k: nat)
    requires k < |s|
    ensures SetAll(s, at, v)[k] == if k in at then v else s[k]
  {
    if at != [] {
      SetAllAt(s, at[..|at| - 1], v, k);
      assert at == at[..|at| - 1] + [at[|at| - 1]];
    }
  }

  lemma SetAllMore<T>(s: seq<T>, at: seq<nat>, v: T, n: nat)
    requires n < |at| && at[n] < |s|
    ensures SetAll(s, at[..n + 1], v) == SetAll(s, at[..n], v)[at[n] := v]
  {
    assert at[..n + 1][..n] == at[..n];
  }

  /** The next descriptor of the chain is as it was when the ones before it have been freed. */
  lemma WalkOn(free: seq<bool>, desc: seq<Desc>, owner: Owners, chain: seq<nat>, n: nat)
    requires Walkable(desc, owner, chain) && n < |chain| && |free| == |desc|
    ensures chain[n] < |desc|
    ensures SetAll(owner, chain[..n], Nobody)[chain[n]] == Caller && SetAll(desc, chain[..n], EMPTY)[chain[n]] == desc[chain[n]]
    ensures SetAll(free, chain[..n], true)[chain[n]] == free[chain[n]]
    ensures desc[chain[n]].flags % 2 == (if n + 1 < |chain| then 1 else 0)
    ensures n + 1 < |chain| ==> desc[chain[n]].next == chain[n + 1]
  {
    hide SetAll;
    assert chain[n] !in chain[..n];
    SetAllAt(owner, chain[..n], Nobody, chain[n]);
    SetAllAt(desc, chain[..n], EMPTY, chain[n]);
    SetAllAt(free, chain[..n], true, chain[n]);
  }

  lemma RequestWalkable(desc: seq<Desc>, owner: Owners, h: nat, q: Req)
    requires |desc| == |owner| && Linked(desc, h, q)
    ensures Walkable(desc, owner[h := Caller][q.mid := Caller][q.tail := Caller], [h, q.mid, q.tail])
  {
  }

  // ----- Rings with 16-bit indices

  /** A 16-bit index picks the same slot as the running count it is cut from. */
  lemma SameSlot(k: nat, num: nat)
    requires num > 0 && 65536 % num == 0
    ensures k % 65536 % num == k % num
  {
    var m, q, r := 65536 / num, k / 65536, k % 65536;
    assert 65536 == m * num;
    assert k == q * (m * num) + r;
    var r' := r % num;
    assert r == r / num * num + r';
    assert k == (q * m + r / num) * num + r' by {
      Regroup(q, m, num, r / num);
    }
    QuotientIs(k, num, q * m + r / num, r');
  }

  lemma Regroup(q: nat, m: nat, num: nat, d: nat)
    ensures q * (m * num) + d * num == (q * m + d) * num
  {
  }

  /** Counts less than num apart fall into different slots. */
  lemma SlotsApart(x: nat, y: nat, num: nat)
    requires x < y < x + num
    ensures x % num != y % num
  {
    var q, r := x / num, x % num;
    assert x == q * num + r;
    if r + (y - x) < num {
      QuotientIs(y, num, q, r + (y - x));
    } else {
      assert y == (q + 1) * num + (r + (y - x) - num);
      QuotientIs(y, num, q + 1, r + (y - x) - num);
    }
  }

  /** The slot of the ring that a running count falls into. */
  function SlotAt(k: nat, num: nat): (r: nat)
    requires num > 0
    ensures r < num
  {
    k % num
  }

  /** The unread part of a ring: from the reader's count on, the slots hold these heads in this order. */
  ghost predicate RingOk(num: nat, ring: seq<nat>, start: nat, heads: seq<nat>)
  {
    && |ring| == num > 0 && |heads| < num
    && forall j: nat | j < |heads| :: RingAt(num, ring, start, heads, j)
  }

  predicate RingAt(num: nat, ring: seq<nat>, start: nat, heads: seq<nat>, j: nat)
    requires |ring| == num > 0 && j < |heads|
  {
    ring[SlotAt(start + j, num)] == heads[j]
  }

  lemma SlotsDiffer(x: nat, y: nat, num: nat)
    requires x < y < x + num
    ensures SlotAt(x, num) != SlotAt(y, num)
  {
    SlotsApart(x, y, num);
  }

  /** Writing the next slot leaves every unread one alone. */
  lemma RingPush(num: nat, ring: seq<nat>, start: nat, heads: seq<nat>, h: nat)
    requires RingOk(num, ring, start, heads) && |heads| + 1 < num
    ensures RingOk(num, ring[SlotAt(start + |heads|, num) := h], start, heads + [h])
  {
    hide SlotAt;
    var k := start + |heads|;
    var now, more := ring[SlotAt(k, num) := h], heads + [h];
    forall j: nat | j < |more|
      ensures RingAt(num, now, start, more, j)
    {
      if j < |heads| {
        assert RingAt(num, ring, start, heads, j);
        SlotsDiffer(start + j, k, num);
      }
    }
  }

  lemma RingPop(num: nat, ring: seq<nat>, start: nat, heads: seq<nat>)
    requires RingOk(num, ring, start, heads) && heads != []
    ensures ring[SlotAt(start, num)] == heads[0] && RingOk(num, ring, start + 1, heads[1..])
  {
    hide SlotAt;
    assert RingAt(num, ring, start, heads, 0);
    var rest, from := heads[1..], start + 1;
    forall j: nat | j < |rest|
      ensures RingAt(num, ring, from, rest, j)
    {
      assert RingAt(num, ring, start, heads, j + 1);
      assert from + j == start + (j + 1);
    }
  }

  /** 16-bit indices that differ by less than the ring size tell an empty ring from a full one. */
  lemma IndicesTell(start: nat, n: nat)
    requires n < 65536
    ensures start % 65536 == (start + n) % 65536 <==> n == 0
  {
    if n > 0 {
      SlotsApart(start, start + n, 65536);
    }
  }

  /** A ring between a writer and a reader: total entries written, of which heads are unread; both ends keep their
      counts in 16 bits. */
  ghost predicate RingState(num: nat, ring: seq<nat>, writer: nat, reader: nat, total: nat, heads: seq<nat>)
  {
    && num > 0 && 65536 % num == 0 && |heads| <= total && RingOk(num, ring, total - |heads|, heads)
    && writer == total % 65536 && reader == (total - |heads|) % 65536
  }

  lemma StatePush(num: nat, ring: seq<nat>, writer: nat, reader: nat, total: nat, heads: seq<nat>, h: nat)
    requires RingState(num, ring, writer, reader, total, heads) && |heads| + 1 < num
    ensures |ring| == num && RingState(num, ring[writer % num := h], (writer + 1) % 65536, reader, total + 1, heads + [h])
  {
    hide RingOk, SlotAt;
    RingSize(num, ring, total - |heads|, heads);
    RingPush(num, ring, total - |heads|, heads, h);
    SameSlot(total, num);
    SlotIs(total, num);
    assert total - |heads| + |heads| == total;
    NextIndex(total);
  }

  lemma StatePop(num: nat, ring: seq<nat>, writer: nat, reader: nat, total: nat, heads: seq<nat>)
    requires RingState(num, ring, writer, reader, total, heads) && heads != []
    ensures |ring| == num && ring[reader % num] == heads[0]
    ensures RingState(num, ring, writer, (reader + 1) % 65536, total, heads[1..])
  {
    hide RingOk, SlotAt;
    var start := total - |heads|;
    RingSize(num, ring, start, heads);
    RingPop(num, ring, start, heads);
    SameSlot(start, num);
    SlotIs(start, num);
    NextIndex(start);
    assert total - |heads[1..]| == start + 1;
  }

  lemma StateEmpty(num: nat, ring: seq<nat>, writer: nat, reader: nat, total: nat, heads: seq<nat>)
    requires RingState(num, ring, writer, reader, total, heads) && |heads| < 65536
    ensures reader == writer <==> heads == []
  {
    hide RingOk;
    IndicesTell(total - |heads|, |heads|);
  }

  lemma RingSize(num: nat, ring: seq<nat>, start: nat, heads: seq<nat>)
    requires RingOk(num, ring, start, heads)
    ensures |ring| == num > 0
  {
  }

  lemma SlotIs(k: nat, num: nat)
    requires num > 0
    ensures SlotAt(k, num) == k % num
  {
  }

  lemma NextIndex(k: nat)
    ensures (k % 65536 + 1) % 65536 == (k + 1) % 65536
  {
  }

  // ----- All the driver's books

  ghost predicate Books(num: nat, free: seq<bool>, desc: seq<Desc>, owner: Owners, reqs: map<nat, Req>,
                        ops: seq<Op>, info: seq<int>, busy: set<nat>, queued: seq<nat>, posted: seq<nat>)
  {
    && num >= 3 && ChainsOk(num, free, desc, owner, reqs) && |ops| == |info| == num && BuffersOk(reqs, ops, info, busy)
    && Lists(reqs, queued, Queued) && Lists(reqs, posted, Posted)
  }

  /** Neither queue can fill its ring, even with one more request in preparation. */
  lemma BooksBound(num: nat, free: seq<bool>, desc: seq<Desc>, owner: Owners, reqs: map<nat, Req>,
                   ops: seq<Op>, info: seq<int>, busy: set<nat>, queued: seq<nat>, posted: seq<nat>)
    requires Books(num, free, desc, owner, reqs, ops, info, busy, queued, posted)
    ensures 3 * |queued| <= num && 3 * |posted| <= num
  {
    hide ChainsOk, BuffersOk, Lists;
    ListBound(num, free, desc, owner, reqs, queued, Queued);
    ListBound(num, free, desc, owner, reqs, posted, Posted);
  }

  lemma BooksSizes(num: nat, free: seq<bool>, desc: seq<Desc>, owner: Owners, reqs: map<nat, Req>,
                   ops: seq<Op>, info: seq<int>, busy: set<nat>, queued: seq<nat>, posted: seq<nat>)
    requires Books(num, free, desc, owner, reqs, ops, info, busy, queued, posted)
    ensures |free| == |desc| == |owner| == |ops| == |info| == num >= 3
    ensures forall i: nat :: i < num && free[i] ==> desc[i] == EMPTY && owner[i] == Nobody
    ensures forall h | h in reqs :: h < num && info[h] == reqs[h].buf && Linked(desc, h, reqs[h])
                                    && (reqs[h].buf in busy <==> reqs[h].phase != Answered)
    ensures queued != [] ==> queued[0] in reqs && reqs[queued[0]].phase == Queued
    ensures posted != [] ==> posted[0] in reqs && reqs[posted[0]].phase == Posted
    ensures Distinct(posted)
  {
    forall i: nat | i < num && free[i]
      ensures desc[i] == EMPTY && owner[i] == Nobody
    {
      assert DescOk(free, desc, owner, reqs, i);
    }
    forall h | h in reqs
      ensures h < num && Linked(desc, h, reqs[h])
    {
      assert ChainOk(desc, owner, h, reqs[h]);
    }
  }

  lemma BooksSubmit(num: nat, free: seq<bool>, desc: seq<Desc>, owner: Owners, reqs: map<nat, Req>,
                    ops: seq<Op>, info: seq<int>, busy: set<nat>, queued: seq<nat>, posted: seq<nat>,
                    d: seq<Desc>, h: nat, q: Req)
    requires Books(num, free, desc, owner, reqs, ops, info, busy, queued, posted)
    requires |d| == num && Linked(d, h, q) && owner[h] == owner[q.mid] == owner[q.tail] == Caller && q.phase == Queued
    requires (forall k: nat | k < num && !Member(h, q, k) :: d[k] == desc[k]) && forall g | g in reqs :: reqs[g].buf != q.buf
    ensures h !in reqs
    ensures Books(num, free, d, owner[h := Chain(h)][q.mid := Chain(h)][q.tail := Chain(h)], reqs[h := q],
                  ops[h := Op(if q.write then 1 else 0, q.sector)], info[h := q.buf], busy + {q.buf}, queued + [h], posted)
  {
    hide ChainsOk, BuffersOk, Lists, Linked;
    CallerNotHead(num, free, desc, owner, reqs, h, q, d);
    NewChain(num, free, desc, owner, reqs, d, h, q);
    NewBuffer(reqs, ops, info, busy, h, q);
    ListAdd(reqs, queued, Queued, h, q);
    ListAdd(reqs, posted, Posted, h, q);
  }

  lemma CallerNotHead(num: nat, free: seq<bool>, desc: seq<Desc>, owner: Owners, reqs: map<nat, Req>, h: nat, q: Req, d: seq<Desc>)
    requires ChainsOk(num, free, desc, owner, reqs) && |d| == num && Linked(d, h, q) && owner[h] == Caller
    ensures h !in reqs && h < num && q.mid < num && q.tail < num
  {
    assert h in reqs ==> ChainOk(desc, owner, h, reqs[h]);
  }

  lemma BooksTaken(num: nat, free: seq<bool>, desc: seq<Desc>, owner: Owners, reqs: map<nat, Req>,
                   ops: seq<Op>, info: seq<int>, busy: set<nat>, queued: seq<nat>, posted: seq<nat>)
    requires Books(num, free, desc, owner, reqs, ops, info, busy, queued, posted) && queued != []
    ensures queued[0] in reqs
    ensures Books(num, free, desc, owner, reqs[queued[0] := reqs[queued[0]].(phase := Taken)], ops, info, busy, queued[1..], posted)
  {
    hide ChainsOk, BuffersOk;
    var h := queued[0];
    NewPhase(num, free, desc, owner, reqs, h, Taken);
    BufferPhase(reqs, ops, info, busy, h, Taken);
    ListDrop(reqs, queued, Queued, reqs[h].(phase := Taken));
    ListAdd(reqs, posted, Posted, h, reqs[h].(phase := Taken));
  }

  lemma BooksPosted(num: nat, free: seq<bool>, desc: seq<Desc>, owner: Owners, reqs: map<nat, Req>,
                    ops: seq<Op>, info: seq<int>, busy: set<nat>, queued: seq<nat>, posted: seq<nat>, h: nat)
    requires Books(num, free, desc, owner, reqs, ops, info, busy, queued, posted) && h in reqs && reqs[h].phase == Taken
    ensures Books(num, free, desc, owner, reqs[h := reqs[h].(phase := Posted)], ops, info, busy, queued, posted + [h])
  {
    hide ChainsOk, BuffersOk, Lists;
    var q := reqs[h].(phase := Posted);
    NewPhase(num, free, desc, owner, reqs, h, Posted);
    BufferPhase(reqs, ops, info, busy, h, Posted);
    ListAdd(reqs, posted, Posted, h, q);
    ListAdd(reqs, queued, Queued, h, q);
  }

  lemma BooksAnswered(num: nat, free: seq<bool>, desc: seq<Desc>, owner: Owners, reqs: map<nat, Req>,
                      ops: seq<Op>, info: seq<int>, busy: set<nat>, queued: seq<nat>, posted: seq<nat>)
    requires Books(num, free, desc, owner, reqs, ops, info, busy, queued, posted) && posted != []
    ensures posted[0] in reqs
    ensures Books(num, free, desc, owner, reqs[posted[0] := reqs[posted[0]].(phase := Answered)], ops, info,
                  busy - {reqs[posted[0]].buf}, queued, posted[1..])
  {
    hide ChainsOk, BuffersOk;
    var h := posted[0];
    NewPhase(num, free, desc, owner, reqs, h, Answered);
    BufferPhase(reqs, ops, info, busy, h, Answered);
    ListDrop(reqs, posted, Posted, reqs[h].(phase := Answered));
    ListAdd(reqs, queued, Queued, h, reqs[h].(phase := Answered));
  }

  lemma BooksFinish(num: nat, free: seq<bool>, desc: seq<Desc>, owner: Owners, reqs: map<nat, Req>,
                    ops: seq<Op>, info: seq<int>, busy: set<nat>, queued: seq<nat>, posted: seq<nat>, h: nat)
    requires Books(num, free, desc, owner, reqs, ops, info, busy, queued, posted) && h in reqs && reqs[h].phase == Answered
    ensures h < |owner| && reqs[h].mid < |owner| && reqs[h].tail < |owner| == |desc|
    ensures h < |info| && var q := reqs[h]; var o := owner[h := Caller][q.mid := Caller][q.tail := Caller];
            && Books(num, free, desc, o, reqs - {h}, ops, info[h := -1], busy, queued, posted)
            && Walkable(desc, o, [h, q.mid, q.tail])
            && forall k: nat :: k < num ==> (owner[k] == Chain(h) <==> k in [h, q.mid, q.tail])
  {
    hide ChainsOk, BuffersOk, Lists, Linked, Walkable;
    BooksSizes(num, free, desc, owner, reqs, ops, info, busy, queued, posted);
    ChainMembers(num, free, desc, owner, reqs, h);
    GiveUp(num, free, desc, owner, reqs, h);
    BufferDone(reqs, ops, info, busy, h);
    ListRemove(reqs, queued, Queued, h);
    ListRemove(reqs, posted, Posted, h);
    RequestWalkable(desc, owner, h, reqs[h]);
  }

  lemma ChainMembers(num: nat, free: seq<bool>, desc: seq<Desc>, owner: Owners, reqs: map<nat, Req>, h: nat)
    requires ChainsOk(num, free, desc, owner, reqs) && h in reqs
    ensures |owner| == num && h < num && reqs[h].mid < num && reqs[h].tail < num
    ensures forall k: nat :: k < num ==> (owner[k] == Chain(h) <==> k in [h, reqs[h].mid, reqs[h].tail])
  {
    assert ChainOk(desc, owner, h, reqs[h]);
    forall k: nat | k < num
      ensures owner[k] == Chain(h) <==> k in [h, reqs[h].mid, reqs[h].tail]
    {
      assert DescOk(free, desc, owner, reqs, k);
    }
  }
}
