/** The disk driver of virt.c, the device it talks to, and the interrupt handler, sharing one virtqueue.

    virt_disk_rw is cut where it sleeps: Submit is the part before, Finish the part after.  DeviceTake and
    DevicePost are what the device may do between any two of the driver's steps. */
module Virt {
  import opened Numbers
  import opened VirtRing

  datatype Sent = Sent(h: nat) | Spins  // Spins: the loop around alloc3_desc, with disklock held

  datatype Handled = Done | Panic

  class Disk {
    const num: nat
    const free: array<bool>
    const desc: array<Desc>
    const ops: array<Op>
    const info: array<int>     // info[i].b, -1 when null
    const status: array<nat>   // info[i].status
    const avail: array<nat>
    const used: array<nat>
    var availIdx: nat          // avail->index, 16 bits
    var takenIdx: nat          // the device's own place in the avail ring, 16 bits
    var doneIdx: nat           // used->idx, 16 bits
    var usedIdx: nat           // disk.used_idx, 16 bits
    var busy: set<nat>         // the buffers whose disk field is 1
    ghost var owner: Owners
    ghost var reqs: map<nat, Req>
    ghost var queued: seq<nat>  // heads in the avail ring that the device has not read
    ghost var posted: seq<nat>  // heads in the used ring that the handler has not read
    ghost var sent: nat         // how many the driver has put into the avail ring
    ghost var done: nat         // how many the device has put into the used ring

    ghost predicate Valid()
      reads this, free, desc, ops, info, avail, used
    {
      && avail != used && avail != status && used != status
      && free.Length == desc.Length == ops.Length == info.Length == status.Length == avail.Length == used.Length == num
      && Books(num, free[..], desc[..], owner, reqs, ops[..], info[..], busy, queued, posted)
      && RingState(num, avail[..], availIdx, takenIdx, sent, queued)
      && RingState(num, used[..], doneIdx, usedIdx, done, posted)
    }

    /** As virtio_disk_init leaves it. */
    constructor (num: nat)
      requires num >= 3 && 65536 % num == 0
      ensures Valid() && this.num == num && reqs == map[] && busy == {} && free[..] == seq(num, _ => true)
      ensures fresh(free) && fresh(desc) && fresh(ops) && fresh(info) && fresh(status) && fresh(avail) && fresh(used)
    {
      this.num := num;
      free := new bool[num](_ => true);
      desc := new Desc[num](_ => EMPTY);
      ops := new Op[num](_ => Op(0, 0));
      info := new int[num](_ => -1);
      status := new nat[num](_ => 0);
      avail := new nat[num](_ => 0);
      used := new nat[num](_ => 0);
      availIdx, takenIdx, doneIdx, usedIdx, busy := 0, 0, 0, 0, {};
      owner := seq(num, _ => Nobody);
      reqs, queued, posted, sent, done := map[], [], [], 0, 0;
      new;
      hide Books, RingState;
      EmptyOk(num);
      assert free[..] == seq(num, _ => true) && desc[..] == seq(num, _ => EMPTY);
      assert ops[..] == seq(num, _ => Op(0, 0)) && info[..] == seq(num, _ => -1);
      assert avail[..] == seq(num, _ => 0) && used[..] == seq(num, _ => 0);
    }

    /** alloc_desc: the first free descriptor, or -1. */
    method AllocDesc() returns (r: int)
      requires Valid()
      modifies this`owner, free
      ensures Valid() && r == FirstFree(old(free[..]), 0) && |owner| == num
      ensures r < 0 ==> free[..] == old(free[..]) && owner == old(owner)
      ensures r >= 0 ==> free[..] == old(free[..])[r := false] && owner == old(owner)[r := Caller]
    {
      hide Books, RingState, FirstFree;
      var i := 0;
      BooksSizes(num, free[..], desc[..], owner, reqs, ops[..], info[..], busy, queued, posted);
      while i < num
        invariant i <= num && Valid() && free[..] == old(free[..]) && owner == old(owner)
        invariant forall k: nat :: k < i ==> !free[..][k]
      {
        if free[i] {
          FirstFreeSkips(free[..], 0, i);
          BooksTake(num, free[..], desc[..], owner, reqs, ops[..], info[..], busy, queued, posted, i);
          free[i] := false;
          owner := owner[i := Caller];
          assert free[..] == old(free[..])[i := false];
          return i;
        }
        i := i + 1;
      }
      NoFirstFree(free[..], 0);
      return -1;
    }

    /** free_desc: out of range or already free, it prints and returns. */
    method FreeDesc(i: nat)
      requires Valid() && (i < num && !free[i] ==> i < |owner| && owner[i] == Caller)
      modifies this`owner, free, desc
      ensures Valid() && |owner| == num
      ensures i >= num || old(free[i]) ==> free[..] == old(free[..]) && desc[..] == old(desc[..]) && owner == old(owner)
      ensures i < num && !old(free[i]) ==>
                free[..] == old(free[..])[i := true] && desc[..] == old(desc[..])[i := EMPTY] && owner == old(owner)[i := Nobody]
    {
      hide Books, RingState;
      BooksSizes(num, free[..], desc[..], owner, reqs, ops[..], info[..], busy, queued, posted);
      if i >= num {
        return;
      }
      if free[i] {
        return;
      }
      BooksTake(num, free[..], desc[..], owner, reqs, ops[..], info[..], busy, queued, posted, i);
      desc[i] := EMPTY;
      free[i] := true;
      owner := owner[i := Nobody];
      assert free[..] == old(free[..])[i := true] && desc[..] == old(desc[..])[i := EMPTY];
    }

    /** alloc3_desc: three free descriptors, or none taken at all. */
    method Alloc3() returns (r: int, a: nat, b: nat, c: nat)
      requires Valid()
      modifies this`owner, free, desc
      ensures Valid() && |owner| == num
      ensures r == 0 || r == -1
      ensures r == 0 ==> a < num && b < num && c < num && a != b && a != c && b != c
                         && old(free[..])[a] && old(free[..])[b] && old(free[..])[c] && desc[..] == old(desc[..])
                         && free[..] == old(free[..])[a := false][b := false][c := false]
                         && owner == old(owner)[a := Caller][b := Caller][c := Caller]
      ensures r == -1 ==> free[..] == old(free[..]) && desc[..] == old(desc[..]) && owner == old(owner)
      ensures r == -1 <==> |FreeUnits(old(free[..]))| < 3
      ensures r == 0 ==> |FreeUnits(free[..])| == |FreeUnits(old(free[..]))| - 3
    {
      hide Books, RingState, FirstFree, FreeUnits;
      a, b, c := 0, 0, 0;
      ghost var f, d, o := free[..], desc[..], owner;
      BooksSizes(num, f, d, o, reqs, ops[..], info[..], busy, queued, posted);
      NextFree(f, f, {});
      var x := AllocDesc();
      if x < 0 {
        return -1, 0, 0, 0;
      }
      a := x;
      NextFree(f, free[..], {a});
      var y := AllocDesc();
      if y < 0 {
        FreeDesc(a);
        assert free[..] == f && desc[..] == d && owner == o;
        return -1, a, 0, 0;
      }
      b := y;
      NextFree(f, free[..], {a, b});
      var z := AllocDesc();
      if z < 0 {
        FreeDesc(a);
        FreeDesc(b);
        assert free[..] == f && desc[..] == d && owner == o;
        return -1, a, b, 0;
      }
      ThreeFewer(f, free[..], a, b, z);
      return 0, a, b, z;
    }

    /** free_chain: frees the descriptors of a chain one after the other. */
    method FreeChain(start: nat, ghost chain: seq<nat>)
      requires Valid() && Walkable(desc[..], owner, chain) && start == chain[0]
      modifies this`owner, free, desc
      ensures Valid() && owner == SetAll(old(owner), chain, Nobody)
      ensures free[..] == SetAll(old(free[..]), chain, true) && desc[..] == SetAll(old(desc[..]), chain, EMPTY)
    {
      hide Books, RingState, SetAll, Walkable;
      var i := start;
      ghost var f, d, o := free[..], desc[..], owner;
      ghost var n: nat := 0;
      BooksSizes(num, f, d, o, reqs, ops[..], info[..], busy, queued, posted);
      WalkStart(f, d, o, chain);
      while true
        invariant Valid() && n < |chain| && i == chain[n]
        invariant free[..] == SetAll(f, chain[..n], true) && desc[..] == SetAll(d, chain[..n], EMPTY)
        invariant owner == SetAll(o, chain[..n], Nobody)
        decreases |chain| - n
      {
        BooksSizes(num, free[..], desc[..], owner, reqs, ops[..], info[..], busy, queued, posted);
        WalkOn(f, d, o, chain, n);
        assert free[..][i] == free[i] && desc[..][i] == desc[i];
        var flag, nxt := desc[i].flags, desc[i].next;
        FreeDesc(i);
        SetAllMore(f, chain, true, n);
        SetAllMore(d, chain, EMPTY, n);
        SetAllMore(o, chain, Nobody, n);
        n := n + 1;
        if flag % 2 == 1 {
          i := nxt;
        } else {
          assert chain[..n] == chain;
          break;
        }
      }
    }

    /** virt_disk_rw up to its sleep: fill a chain of three descriptors and put it into the avail ring.  b is locked by
        the caller, who has no request out for it. */
    method Submit(b: nat, blockno: nat, write: bool) returns (r: Sent)
      requires Valid() && blockno < 0x1_0000_0000 && forall h | h in reqs :: reqs[h].buf != b
      modifies this, free, desc, ops, info, status, avail
      ensures Valid()
      ensures r.Spins? <==> |FreeUnits(old(free[..]))| < 3
      ensures r.Sent? ==> |FreeUnits(free[..])| == |FreeUnits(old(free[..]))| - 3
      ensures r.Spins? ==> free[..] == old(free[..]) && desc[..] == old(desc[..])
                           && owner == old(owner) && reqs == old(reqs) && busy == old(busy) && queued == old(queued)
      ensures r.Sent? ==> r.h !in old(reqs) && r.h in reqs
      ensures r.Sent? ==> reqs == old(reqs)[r.h := Req(reqs[r.h].mid, reqs[r.h].tail, b, write, Sector(blockno), Queued)]
      ensures r.Sent? ==> (reqs[r.h].sector * 512 == blockno * 1024 <==> blockno < 0x8000_0000)
      ensures r.Sent? ==> queued == old(queued) + [r.h] && posted == old(posted) && busy == old(busy) + {b}
      ensures r.Sent? ==> r.h < num && status[..] == old(status[..])[r.h := 0xff]
      ensures sent == old(sent) + (if r.Sent? then 1 else 0) && done == old(done)
    {
      hide Books, RingState, FreeUnits, Sector, Linked;
      var sector := Sector(blockno);
      SectorIs(blockno);
      BooksSizes(num, free[..], desc[..], owner, reqs, ops[..], info[..], busy, queued, posted);
      var ok, h, m, t := Alloc3();
      if ok != 0 {
        return Spins;
      }
      Enqueue(h, m, t, b, sector, write);
      return Sent(h);
    }

    /** The three descriptors become a request, whose head goes into the avail ring. */
    method Enqueue(h: nat, m: nat, t: nat, b: nat, sector: nat, write: bool)
      requires Valid() && h < num && m < num && t < num && h != m && h != t && m != t && |owner| == num
      requires owner[h] == owner[m] == owner[t] == Caller && forall g | g in reqs :: reqs[g].buf != b
      modifies this, desc, ops, info, status, avail
      ensures Valid() && h !in old(reqs) && reqs == old(reqs)[h := Req(m, t, b, write, sector, Queued)]
      ensures queued == old(queued) + [h] && posted == old(posted) && busy == old(busy) + {b}
      ensures sent == old(sent) + 1 && done == old(done) && status[..] == old(status[..])[h := 0xff]
    {
      hide Books, RingState, Linked;
      ghost var q := Req(m, t, b, write, sector, Queued);
      ghost var d, o, p, f, u := desc[..], owner, ops[..], info[..], busy;
      BooksSizes(num, free[..], d, o, reqs, p, f, u, queued, posted);
      Fill(h, m, t, b, sector, write);
      BooksSubmit(num, free[..], d, o, reqs, p, f, u, queued, posted, desc[..], h, q);
      BooksBound(num, free[..], d, o, reqs, p, f, u, queued, posted);
      owner := owner[h := Chain(h)][m := Chain(h)][t := Chain(h)];
      reqs := reqs[h := q];
      Publish(h);
    }

    /** The head goes into the avail ring, and then the index moves on. */
    method Publish(h: nat)
      requires avail != used && avail.Length == num && 3 * |queued| <= num && num >= 3
      requires RingState(num, avail[..], availIdx, takenIdx, sent, queued)
      modifies this`availIdx, this`queued, this`sent, avail
      ensures RingState(num, avail[..], availIdx, takenIdx, sent, queued)
      ensures queued == old(queued) + [h] && sent == old(sent) + 1
    {
      hide RingState;
      StatePush(num, avail[..], availIdx, takenIdx, sent, queued, h);
      avail[availIdx % num] := h;
      assert avail[..] == old(avail[..])[availIdx % num := h];
      availIdx := (availIdx + 1) % 65536;
      queued, sent := queued + [h], sent + 1;
    }

    /** The assignments of virt_disk_rw to the three descriptors, the header, and the buffer. */
    method Fill(h: nat, m: nat, t: nat, b: nat, sector: nat, write: bool)
      requires avail != status && used != status && desc.Length == ops.Length == info.Length == status.Length == num
      requires h < num && m < num && t < num && h != m && h != t && m != t
      modifies this`busy, desc, ops, info, status
      ensures Linked(desc[..], h, Req(m, t, b, write, sector, Queued))
      ensures forall k: nat | k < num && k != h && k != m && k != t :: desc[..][k] == old(desc[..])[k]
      ensures ops[..] == old(ops[..])[h := Op(if write then 1 else 0, sector)]
      ensures info[..] == old(info[..])[h := b] && busy == old(busy) + {b} && status[..] == old(status[..])[h := 0xff]
    {
      ops[h] := Op(if write then 1 else 0, sector);
      desc[h] := Desc(Header(h), 16, F_NEXT, m);
      desc[m] := Desc(Data(b), 1024, (if write then 0 else F_WRITE) + F_NEXT, t);
      status[h] := 0xff;
      desc[t] := Desc(Status(h), 1, F_WRITE, 0);
      busy := busy + {b};
      info[h] := b;
    }

    /** The device reads the next entry of the avail ring; the descriptors it then follows spell out the request. */
    method DeviceTake() returns (h: nat)
      requires Valid() && queued != []
      modifies this`reqs, this`queued, this`takenIdx
      ensures Valid() && h == old(queued)[0] && queued == old(queued)[1..] && h in old(reqs)
      ensures reqs == old(reqs)[h := old(reqs)[h].(phase := Taken)]
      ensures Linked(desc[..], h, old(reqs)[h]) && ops[h] == Op(if old(reqs)[h].write then 1 else 0, old(reqs)[h].sector)
      ensures var q := old(reqs)[h];
              Follow(desc[..], h, num) == [Part(Header(h), 16, false), Part(Data(q.buf), 1024, !q.write), Part(Status(h), 1, true)]
    {
      hide Books, RingState, Linked, Follow;
      BooksSizes(num, free[..], desc[..], owner, reqs, ops[..], info[..], busy, queued, posted);
      BooksOps(num, free[..], desc[..], owner, reqs, ops[..], info[..], busy, queued, posted);
      StatePop(num, avail[..], availIdx, takenIdx, sent, queued);
      h := avail[takenIdx % num];
      BooksTaken(num, free[..], desc[..], owner, reqs, ops[..], info[..], busy, queued, posted);
      LinkedFollows(desc[..], h, reqs[h], num);
      takenIdx := (takenIdx + 1) % 65536;
      reqs := reqs[h := reqs[h].(phase := Taken)];
      queued := queued[1..];
    }

    /** The device has carried out request h: it writes the status byte and appends the head to the used ring. */
    method DevicePost(h: nat, result: nat)
      requires Valid() && h in reqs && reqs[h].phase == Taken
      modifies this`reqs, this`posted, this`doneIdx, this`done, used, status
      ensures Valid() && posted == old(posted) + [h] && done == old(done) + 1
      ensures reqs == old(reqs)[h := old(reqs)[h].(phase := Posted)]
      ensures h < num && status[..] == old(status[..])[h := result]
    {
      hide Books, RingState, Linked;
      BooksSizes(num, free[..], desc[..], owner, reqs, ops[..], info[..], busy, queued, posted);
      BooksBound(num, free[..], desc[..], owner, reqs, ops[..], info[..], busy, queued, posted);
      BooksPosted(num, free[..], desc[..], owner, reqs, ops[..], info[..], busy, queued, posted, h);
      reqs := reqs[h := reqs[h].(phase := Posted)];
      status[h] := result;
      Append(h);
    }

    /** The device's own writes to the used ring: the entry, and then the index. */
    method Append(h: nat)
      requires used.Length == num && 3 * |posted| <= num && num >= 3
      requires RingState(num, used[..], doneIdx, usedIdx, done, posted)
      modifies this`doneIdx, this`posted, this`done, used
      ensures RingState(num, used[..], doneIdx, usedIdx, done, posted)
      ensures posted == old(posted) + [h] && done == old(done) + 1
    {
      hide RingState;
      StatePush(num, used[..], doneIdx, usedIdx, done, posted, h);
      used[doneIdx % num] := h;
      assert used[..] == old(used[..])[doneIdx % num := h];
      doneIdx := (doneIdx + 1) % 65536;
      posted, done := posted + [h], done + 1;
    }

    /** One round of the handler's loop. */
    method IsrRound() returns (r: Handled)
      requires Valid() && posted != []
      modifies this`reqs, this`posted, this`usedIdx, this`busy
      ensures Valid() && r == Done && posted == old(posted)[1..] && (usedIdx == doneIdx <==> posted == [])
      ensures Answer(reqs, posted) == Answer(old(reqs), old(posted))
      ensures busy - BuffersOf(reqs, posted) == old(busy) - BuffersOf(old(reqs), old(posted))
    {
      hide Books, RingState, Linked, Answer, BuffersOf;
      BooksBound(num, free[..], desc[..], owner, reqs, ops[..], info[..], busy, queued, posted);
      BooksSizes(num, free[..], desc[..], owner, reqs, ops[..], info[..], busy, queued, posted);
      StateSmall(num, used[..], doneIdx, usedIdx, done, posted);
      StatePop(num, used[..], doneIdx, usedIdx, done, posted);
      var id := used[usedIdx % num];
      var b := info[id];
      if b < 0 {
        return Panic;
      }
      AnswerNext(reqs, posted, busy);
      BooksAnswered(num, free[..], desc[..], owner, reqs, ops[..], info[..], busy, queued, posted);
      busy := busy - {b};
      usedIdx := (usedIdx + 1) % 65536;
      reqs := reqs[id := reqs[id].(phase := Answered)];
      posted := posted[1..];
      BooksBound(num, free[..], desc[..], owner, reqs, ops[..], info[..], busy, queued, posted);
      StateSmall(num, used[..], doneIdx, usedIdx, done, posted);
      r := Done;
    }

    /** virtio_disk_isr: every posted request is answered; its buffer's disk flag, and no other, is cleared. */
    method Isr() returns (r: Handled)
      requires Valid()
      modifies this`reqs, this`posted, this`usedIdx, this`busy
      ensures Valid() && r == Done && posted == []
      ensures reqs == Answer(old(reqs), old(posted)) && busy == old(busy) - BuffersOf(old(reqs), old(posted))
    {
      hide Books, RingState, Linked, Answer, BuffersOf;
      AnswerNone(reqs, busy);
      BooksBound(num, free[..], desc[..], owner, reqs, ops[..], info[..], busy, queued, posted);
      StateSmall(num, used[..], doneIdx, usedIdx, done, posted);
      while usedIdx != doneIdx
        invariant Valid() && (usedIdx == doneIdx <==> posted == [])
        invariant Answer(reqs, posted) == Answer(old(reqs), old(posted))
        invariant busy - BuffersOf(reqs, posted) == old(busy) - BuffersOf(old(reqs), old(posted))
        decreases |posted|
      {
        r := IsrRound();
        if r == Panic {
          return;
        }
      }
      AnswerNone(reqs, busy);
      r := Done;
    }

    /** virt_disk_rw after its sleep, once the buffer's disk flag is clear. */
    method Finish(h: nat, b: nat)
      requires Valid() && h in reqs && reqs[h].buf == b && b !in busy
      modifies this`owner, this`reqs, free, desc, info
      ensures Valid() && reqs == old(reqs) - {h} && h < num && info[..] == old(info[..])[h := -1]
      ensures |old(owner)| == |owner| == num
      ensures forall k: nat :: k < num ==>
                if old(owner)[k] == Chain(h) then free[..][k] && desc[..][k] == EMPTY && owner[k] == Nobody
                else free[..][k] == old(free[..])[k] && desc[..][k] == old(desc[..])[k] && owner[k] == old(owner)[k]
    {
      hide Books, RingState, Linked, Walkable, SetAll;
      ghost var q := reqs[h];
      BooksSizes(num, free[..], desc[..], owner, reqs, ops[..], info[..], busy, queued, posted);
      BooksFinish(num, free[..], desc[..], owner, reqs, ops[..], info[..], busy, queued, posted, h);
      info[h] := -1;
      assert info[..] == old(info[..])[h := -1];
      owner := owner[h := Caller][q.mid := Caller][q.tail := Caller];
      reqs := reqs - {h};
      FreeChain(h, [h, q.mid, q.tail]);
      FinishFrame(num, old(free[..]), old(desc[..]), old(owner), h, q);
    }
  }

  /** b->blockno * (BSIZE / 512), in 32 bits. */
  function Sector(blockno: nat): nat { blockno * 2 % 0x1_0000_0000 }

  /** Sectors have 512 bytes, blocks 1024: the request is for the block exactly when its number is below 2^31. */
  lemma SectorIs(blockno: nat)
    requires blockno < 0x1_0000_0000
    ensures Sector(blockno) * 512 == blockno * 1024 <==> blockno < 0x8000_0000
  {
    if blockno >= 0x8000_0000 {
      QuotientIs(blockno * 2, 0x1_0000_0000, 1, blockno * 2 - 0x1_0000_0000);
    }
  }

  /** The two sectors of a block are those of no other block below 2^31. */
  lemma SectorsApart(a: nat, b: nat, i: nat, j: nat)
    requires a < 0x8000_0000 && b < 0x8000_0000 && i < 2 && j < 2
    ensures Sector(a) + i == Sector(b) + j <==> a == b && i == j
  {
    SectorIs(a);
    SectorIs(b);
  }

  lemma BooksOps(num: nat, free: seq<bool>, desc: seq<Desc>, owner: Owners, reqs: map<nat, Req>,
                 ops: seq<Op>, info: seq<int>, busy: set<nat>, queued: seq<nat>, posted: seq<nat>)
    requires Books(num, free, desc, owner, reqs, ops, info, busy, queued, posted)
    ensures |ops| == num && forall h | h in reqs :: h < num && ops[h] == Op(if reqs[h].write then 1 else 0, reqs[h].sector)
  {
    hide ChainsOk, Lists;
  }

  lemma AnswerNone(reqs: map<nat, Req>, busy: set<nat>)
    ensures Answer(reqs, []) == reqs && busy - BuffersOf(reqs, []) == busy
  {
  }

  lemma StateSmall(num: nat, ring: seq<nat>, writer: nat, reader: nat, total: nat, heads: seq<nat>)
    requires RingState(num, ring, writer, reader, total, heads) && 3 * |heads| <= num
    ensures reader == writer <==> heads == []
  {
    hide RingOk;
    AtMost16(num);
    StateEmpty(num, ring, writer, reader, total, heads);
  }

  lemma AtMost16(num: nat)
    requires num > 0 && 65536 % num == 0
    ensures num <= 65536
  {
  }

  lemma WalkStart(free: seq<bool>, desc: seq<Desc>, owner: Owners, chain: seq<nat>)
    requires Walkable(desc, owner, chain)
    ensures chain != [] && chain[..0] == []
    ensures SetAll(free, [], true) == free && SetAll(desc, [], EMPTY) == desc && SetAll(owner, [], Nobody) == owner
  {
  }

  /** Freeing the three descriptors of a request touches no others. */
  lemma FinishFrame(num: nat, free: seq<bool>, desc: seq<Desc>, owner: Owners, h: nat, q: Req)
    requires |free| == |desc| == |owner| == num && h < num && q.mid < num && q.tail < num
    requires forall k: nat :: k < num ==> (owner[k] == Chain(h) <==> k in [h, q.mid, q.tail])
    ensures var c := [h, q.mid, q.tail];
            var f, d, o := SetAll(free, c, true), SetAll(desc, c, EMPTY),
                           SetAll(owner[h := Caller][q.mid := Caller][q.tail := Caller], c, Nobody);
            forall k: nat :: k < num ==>
              if owner[k] == Chain(h) then f[k] && d[k] == EMPTY && o[k] == Nobody
              else f[k] == free[k] && d[k] == desc[k] && o[k] == owner[k]
  {
    hide SetAll;
    var c, u := [h, q.mid, q.tail], owner[h := Caller][q.mid := Caller][q.tail := Caller];
    forall k: nat | k < num
      ensures SetAll(free, c, true)[k] == (if k in c then true else free[k])
      ensures SetAll(desc, c, EMPTY)[k] == (if k in c then EMPTY else desc[k])
      ensures SetAll(u, c, Nobody)[k] == (if k in c then Nobody else u[k])
    {
      SetAllAt(free, c, true, k);
      SetAllAt(desc, c, EMPTY, k);
      SetAllAt(u, c, Nobody, k);
    }
  }
}
