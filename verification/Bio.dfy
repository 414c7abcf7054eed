/** The buffer cache of fs.c.

    Each method is one stretch of bget, bread, bwrite or brelease that runs under bcache.slock or under a buffer's
    sleep lock; processes may interleave in any order between them.  The disk is the one virt_disk_rw reads and
    writes: it is told a block number and no device. */
module Bio {
  import opened BufList

  datatype Got = Got(b: nat) | Panic

  class Cache {
    const n: nat                 // NBUF
    const bufs: array<Buf>       // bufs[n] is the head
    var disk: map<nat, Block>
    ghost var twice: set<nat>    // the blocks that have been in two buffers at once
    ghost var ring: seq<nat>
    ghost var stamp: seq<nat>    // when each buffer was last released
    ghost var now: nat
    ghost var clients: Clients

    ghost predicate Valid()
      reads this, bufs
    {
      && bufs.Length == n + 1
      && Circle(bufs[..], ring) && AgesOk(ring, n, stamp, now)
      && UsersOk(bufs[..], n, clients) && KeysOk(bufs[..], n) && Coherent(bufs[..], n, clients, disk, twice)
    }

    /** init_bcache: each buffer is pushed in front of the list. */
    constructor (n: nat, disk: map<nat, Block>)
      ensures Valid() && this.n == n && this.disk == disk && clients == map[] && twice == {} && fresh(bufs)
      ensures forall b: nat | b < n :: Blank(bufs[..][b])
    {
      this.n, this.disk := n, disk;
      bufs := new Buf[n + 1](_ => Buf(false, 0, 0, -1, 0, 0, 0, []));
      ring, stamp, now, clients, twice := [n], [], 0, map[], {};
      new;
      bufs[n] := bufs[n].(prev := n, next := n);
      hide Circle, InFront, Pushed, SameFields, AgesOk, Started, UsersOk, KeysOk, Coherent;
      HeadAlone(bufs[..], n);
      StartedNone(n);
      var i := 0;
      while i < n
        invariant i <= n && Circle(bufs[..], ring) && Started(ring, n, stamp, now, i) && clients == map[]
        invariant this.disk == disk && twice == {}
        invariant forall b: nat | b < bufs.Length :: Blank(bufs[..][b])
      {
        StartNext(ring, n, stamp, now, i);
        PushCircle(bufs[..], ring, i);
        StartHead(ring, n, stamp, now, i);
        PushFields(bufs[..], i, n);
        BlankFields(bufs[..], Pushed(bufs[..], n, i));
        Push(i);
        ring, stamp, now := InFront(ring, i), stamp + [now], now + 1;
        i := i + 1;
      }
      AllStarted(ring, n, stamp, now);
      BlankOk(bufs[..], n, disk);
    }

    /** b->next = head.next; b->prev = &head; head.next->prev = b; head.next = b */
    method Push(b: nat)
      requires b < n < bufs.Length && bufs[n].next < bufs.Length
      modifies bufs
      ensures bufs[..] == Pushed(old(bufs[..]), n, b)
    {
      bufs[b] := bufs[b].(next := bufs[n].next, prev := n);
      bufs[bufs[n].next] := bufs[bufs[n].next].(prev := b);
      bufs[n] := bufs[n].(next := b);
    }

    /** bget up to its sleep_lock: a cached buffer for the block, or the unused one released longest ago. */
    method Bget(dev: nat, blockno: nat, c: nat) returns (r: Got)
      requires Valid() && dev > 0 && c !in clients
      modifies this`clients, this`twice, bufs
      ensures r.Panic? <==> AllUsed(old(bufs[..]), n) && Uncached(old(bufs[..]), n, dev, blockno)
      ensures r.Got? ==> Valid() && r.b < n && clients == old(clients)[c := Wants(r.b, dev, blockno)]
      ensures r.Got? && Caches(old(bufs[..])[r.b], dev, blockno) ==>
                twice == old(twice) && bufs[..] == old(bufs[..])[r.b := old(bufs[..])[r.b].(refcnt := old(bufs[..])[r.b].refcnt + 1)]
      ensures r.Got? && !Caches(old(bufs[..])[r.b], dev, blockno) ==>
                && Uncached(old(bufs[..]), n, dev, blockno) && old(bufs[..])[r.b].refcnt == 0
                && |stamp| == n && (forall b: nat | b < n && old(bufs[..])[b].refcnt == 0 :: stamp[r.b] <= stamp[b])
                && bufs[..] == old(bufs[..])[r.b := old(bufs[..])[r.b].(refcnt := 1, vaild := false, dev := dev, blockno := blockno)]
                && twice == MoreTwice(old(bufs[..]), n, r.b, blockno, old(twice))
    {
      hide Circle, UsersOk, KeysOk, Coherent, Caches, AgesOk, AllUsed, Uncached, MoreTwice;
      ghost var s := bufs[..];
      var b := Lookup(dev, blockno);
      if b != n {
        CachesIs(s[b], dev, blockno);
        HitOk(s, n, clients, disk, twice, b, c);
        Hit(b, c);
        CachedIs(s, n, dev, blockno, b);
        return Got(b);
      }
      b := Victim();
      if b != n {
        UncachedAt(s, n, dev, blockno);
        CachedIs(s, n, dev, blockno, b);
        MissOk(s, n, clients, disk, twice, b, c, dev, blockno);
        twice := MoreTwice(s, n, b, blockno, twice);
        Recycle(b, dev, blockno, c);
        UsedIs(s, n, b);
        return Got(b);
      }
      return Panic;
    }

    /** The search from head.next on; n when it comes back to the head. */
    method Lookup(dev: nat, blockno: nat) returns (b: nat)
      requires Valid()
      ensures b <= n
      ensures b < n ==> Caches(bufs[..][b], dev, blockno)
      ensures b == n ==> Uncached(bufs[..], n, dev, blockno)
    {
      hide Circle, UsersOk, KeysOk, Coherent, AgesOk, Uncached, Missed;
      ghost var s := bufs[..];
      CircleDistinct(s, ring);
      RingShape(s, ring, n, stamp, now, 0);
      Following(s, ring, 0);
      b := bufs[n].next;
      ghost var i: nat := Succ(n + 1, 0);
      MissedNone(s, ring, dev, blockno);
      RingShape(s, ring, n, stamp, now, i);
      while b != n
        invariant i < |ring| == n + 1 && b == ring[i] <= n && (b == n <==> i == 0)
        invariant Missed(s, ring, if i == 0 then |ring| else i, dev, blockno)
        decreases if i == 0 then 0 else |ring| - i
      {
        assert s[b] == bufs[b];
        if bufs[b].dev == dev && bufs[b].blockno == blockno {
          return b;
        }
        MissedMore(s, ring, i, dev, blockno);
        Following(s, ring, i);
        b := bufs[b].next;
        i := Succ(n + 1, i);
        RingShape(s, ring, n, stamp, now, i);
      }
      MissedAll(s, ring, n, stamp, now, dev, blockno);
    }

    /** The search from head.prev on; n when it comes back to the head. */
    method Victim() returns (b: nat)
      requires Valid()
      ensures b <= n
      ensures b < n ==> bufs[..][b].refcnt == 0 && |stamp| == n && forall a: nat | a < n && bufs[..][a].refcnt == 0 :: stamp[b] <= stamp[a]
      ensures b == n ==> AllUsed(bufs[..], n)
    {
      hide Circle, UsersOk, KeysOk, Coherent, AgesOk, AllUsed, UsedFrom;
      ghost var s := bufs[..];
      CircleDistinct(s, ring);
      RingShape(s, ring, n, stamp, now, 0);
      Following(s, ring, n);
      b := bufs[n].prev;
      ghost var i: nat := n;
      UsedNone(s, ring, n);
      RingShape(s, ring, n, stamp, now, i);
      while b != n
        invariant i < |ring| == n + 1 && b == ring[i] <= n && (b == n <==> i == 0) && UsedFrom(s, ring, i)
        decreases i
      {
        assert s[b] == bufs[b];
        if bufs[b].refcnt == 0 {
          OldestIs(s, ring, n, stamp, now, i);
          return b;
        }
        UsedMore(s, ring, i);
        Following(s, ring, i - 1);
        b := bufs[b].prev;
        i := i - 1;
        RingShape(s, ring, n, stamp, now, i);
      }
      UsedAll(s, ring, n, stamp, now);
    }

    method Hit(b: nat, c: nat)
      requires b < bufs.Length
      requires Circle(bufs[..], ring)
      modifies this`clients, bufs
      ensures bufs[..] == old(bufs[..])[b := old(bufs[..])[b].(refcnt := old(bufs[..])[b].refcnt + 1)]
      ensures clients == old(clients)[c := Wants(b, bufs[b].dev, bufs[b].blockno)] && Circle(bufs[..], ring)
    {
      hide Circle;
      ghost var s := bufs[..];
      bufs[b] := bufs[b].(refcnt := bufs[b].refcnt + 1);
      assert bufs[..] == s[b := s[b].(refcnt := s[b].refcnt + 1)];
      CircleFrame(s, bufs[..], ring);
      clients := clients[c := Wants(b, bufs[b].dev, bufs[b].blockno)];
    }

    method Recycle(b: nat, dev: nat, blockno: nat, c: nat)
      requires b < bufs.Length
      requires Circle(bufs[..], ring)
      modifies this`clients, bufs
      ensures bufs[..] == old(bufs[..])[b := old(bufs[..])[b].(refcnt := 1, vaild := false, dev := dev, blockno := blockno)]
      ensures clients == old(clients)[c := Wants(b, dev, blockno)] && Circle(bufs[..], ring)
    {
      hide Circle;
      ghost var s := bufs[..];
      bufs[b] := bufs[b].(refcnt := 1, vaild := false, dev := dev, blockno := blockno);
      assert bufs[..] == s[b := s[b].(refcnt := 1, vaild := false, dev := dev, blockno := blockno)];
      CircleFrame(s, bufs[..], ring);
      clients := clients[c := Wants(b, dev, blockno)];
    }

    /** sleep_lock at the moment it succeeds. */
    method Lock(c: nat, b: nat)
      requires Valid() && b < n && c in clients && clients[c].Wants? && clients[c].b == b && bufs[b].sk < 0
      modifies this`clients, bufs
      ensures Valid() && var w := old(clients)[c];
              && clients == old(clients)[c := Holds(w.b, w.dev, w.blockno, false)]
              && bufs[..] == old(bufs[..])[w.b := old(bufs[..])[w.b].(sk := c)]
    {
      Step(c, b, bufs[b].(sk := c), Holds(b, clients[c].dev, clients[c].blockno, false), disk);
    }

    /** The rest of bread: fill the buffer from the disk unless it is filled already.  Either way its data are what a
        read of the disk itself would return, if the block has never been in two buffers at once. */
    method Fill(c: nat, b: nat)
      requires Valid() && b < n && c in clients && clients[c].b == b && clients[c].Holds? && !clients[c].dirty && clients[c].blockno in disk
      modifies this`clients, bufs
      ensures Valid() && clients == old(clients)
      ensures old(bufs[..])[b].vaild ==> bufs[..] == old(bufs[..])
      ensures !old(bufs[..])[b].vaild ==> bufs[..] == old(bufs[..])[b := old(bufs[..])[b].(data := disk[clients[c].blockno], vaild := true)]
      ensures bufs[b].dev == clients[c].dev && bufs[b].blockno == clients[c].blockno
      ensures clients[c].blockno !in twice || !old(bufs[..])[b].vaild ==> bufs[b].data == disk[clients[c].blockno]
    {
      ClientBuf(bufs[..], n, clients, disk, twice, c);
      assert bufs[..][b] == bufs[b];
      if !bufs[b].vaild {
        Step(c, b, bufs[b].(data := disk[bufs[b].blockno], vaild := true), clients[c], disk);
      }
    }

    /** The holder changes the data. */
    method Change(c: nat, b: nat, data: Block)
      requires Valid() && b < n && c in clients && clients[c].b == b && clients[c].Holds? && bufs[b].vaild
      modifies this`clients, bufs
      ensures Valid() && var h := old(clients)[c];
              && clients == old(clients)[c := Holds(h.b, h.dev, h.blockno, true)]
              && bufs[..] == old(bufs[..])[h.b := old(bufs[..])[h.b].(data := data)]
    {
      ClientBuf(bufs[..], n, clients, disk, twice, c);
      Step(c, b, bufs[b].(data := data), Holds(b, clients[c].dev, clients[c].blockno, true), disk);
    }

    /** bwrite: panics unless the caller holds the lock; then the disk has the buffer's data. */
    method Bwrite(c: nat, b: nat) returns (r: Got)
      requires Valid() && b < n && c in clients && clients[c].b == b && !clients[c].Wants? && bufs[b].vaild
      modifies this`clients, this`disk, bufs
      ensures Valid() && (r.Panic? <==> !old(clients)[c].Holds?) && bufs[..] == old(bufs[..])
      ensures r.Panic? ==> disk == old(disk) && clients == old(clients)
      ensures r.Got? ==> disk == old(disk)[bufs[b].blockno := bufs[b].data] && clients == old(clients)[c := old(clients)[c].(dirty := false)]
    {
      ClientBuf(bufs[..], n, clients, disk, twice, c);
      assert bufs[..][b] == bufs[b];
      if bufs[b].sk != c {
        return Panic;
      }
      disk := disk[bufs[b].blockno := bufs[b].data];
      Step(c, b, bufs[b], clients[c].(dirty := false), old(disk));
      return Got(b);
    }

    /** brelease up to sleep_unlock.  A holder that has changed the data has written them. */
    method Unlock(c: nat, b: nat) returns (r: Got)
      requires Valid() && b < n && c in clients && clients[c].b == b && !clients[c].Wants?
      requires clients[c].Holds? ==> !clients[c].dirty
      modifies this`clients, bufs
      ensures Valid() && (r.Panic? <==> !old(clients)[c].Holds?)
      ensures r.Panic? ==> bufs[..] == old(bufs[..]) && clients == old(clients)
      ensures r.Got? ==> var h := old(clients)[c];
                && clients == old(clients)[c := Leaving(b, h.dev, h.blockno)]
                && bufs[..] == old(bufs[..])[b := old(bufs[..])[b].(sk := -1)]
    {
      ClientBuf(bufs[..], n, clients, disk, twice, c);
      assert bufs[..][b] == bufs[b];
      if bufs[b].sk != c {
        return Panic;
      }
      Step(c, b, bufs[b].(sk := -1), Leaving(b, clients[c].dev, clients[c].blockno), disk);
      return Got(b);
    }

    /** The rest of brelease: one reference fewer; a buffer nobody uses any more goes to the front of the list. */
    method Decref(c: nat, b: nat)
      requires Valid() && c in clients && clients[c].b == b && clients[c].Leaving?
      modifies this`clients, this`ring, this`stamp, this`now, bufs
      ensures Valid() && clients == old(clients) - {c}
              && b < n && old(bufs[..])[b].refcnt > 0
              && SameFields(old(bufs[..])[b := old(bufs[..])[b].(refcnt := old(bufs[..])[b].refcnt - 1)], bufs[..])
              && (old(bufs[..])[b].refcnt > 1 ==> stamp == old(stamp) && ring == old(ring) && now == old(now))
              && (old(bufs[..])[b].refcnt == 1 ==> b < |old(stamp)| && stamp == old(stamp)[b := old(now)] && now == old(now) + 1)
    {
      hide Circle, SameFields, UsersOk, KeysOk, Coherent, AgesOk, Distinct, Unlinked, Pushed, Without, InFront;
      ghost var s := bufs[..];
      DropOk(s, n, clients, disk, twice, c);
      bufs[b] := bufs[b].(refcnt := bufs[b].refcnt - 1);
      ghost var t := s[b := s[b].(refcnt := s[b].refcnt - 1)];
      assert bufs[..] == t;
      CircleFrame(s, t, ring);
      clients := clients - {c};
      SameSelf(t);
      if bufs[b].refcnt == 0 {
        RingCovers(ring, n, stamp, now, b);
        ghost var p: nat :| 0 < p < |ring| && ring[p] == b;
        RingShape(t, ring, n, stamp, now, p);
        CircleDistinct(t, ring);
        MoveFront(t, ring, n, p);
        AgesFront(ring, n, stamp, now, p);
        UnlinkCircle(t, ring, p);
        Unlink(b);
        Push(b);
        LinksAside(t, bufs[..], n, clients, disk, twice);
        AgeSizes(ring, n, stamp, now);
        ring, stamp, now := InFront(Without(ring, p), b), stamp[b := now], now + 1;
      }
    }

    /** b->next->prev = b->prev; b->prev->next = b->next */
    method Unlink(b: nat)
      requires b < bufs.Length && bufs[b].next < bufs.Length && bufs[b].prev < bufs.Length
      modifies bufs
      ensures bufs[..] == Unlinked(old(bufs[..]), b)
    {
      bufs[bufs[b].next] := bufs[bufs[b].next].(prev := bufs[b].prev);
      bufs[bufs[b].prev] := bufs[bufs[b].prev].(next := bufs[b].next);
    }

    /** A user's own step: its buffer becomes u, links apart, and it goes on as cl; was is the disk before. */
    method Step(c: nat, b: nat, u: Buf, ghost cl: Client, ghost was: map<nat, Block>)
      requires bufs.Length == n + 1 && Circle(bufs[..], ring) && AgesOk(ring, n, stamp, now)
      requires UsersOk(bufs[..], n, clients) && KeysOk(bufs[..], n) && Coherent(bufs[..], n, clients, was, twice)
      requires c in clients && cl.b == clients[c].b == b && cl.dev == clients[c].dev && cl.blockno == clients[c].blockno && cl.b < n
      requires var v := bufs[cl.b]; u.dev == v.dev && u.blockno == v.blockno && u.refcnt == v.refcnt && u.prev == v.prev && u.next == v.next
      requires bufs[cl.b].sk == c || bufs[cl.b].sk < 0
      requires u.sk == if cl.Holds? then c else -1
      requires cl.Holds? && cl.dirty ==> u.vaild
      requires u.vaild && !(cl.Holds? && cl.dirty) && cl.blockno !in twice ==> cl.blockno in disk && u.data == disk[cl.blockno]
      requires forall k | k in was && k != cl.blockno :: k in disk && disk[k] == was[k]
      modifies this`clients, bufs
      ensures Valid() && clients == old(clients)[c := cl] && bufs[..] == old(bufs[..])[cl.b := u]
    {
      hide Circle, UsersOk, KeysOk, Coherent, AgesOk;
      ghost var s := bufs[..];
      UserOk(s, n, clients, was, twice, c, u, cl, disk);
      bufs[b] := u;
      assert bufs[..] == s[cl.b := u];
      CircleFrame(s, bufs[..], ring);
      clients := clients[c := cl];
    }
  }

  lemma StartedNone(n: nat)
    ensures Started([n], n, [], 0, 0)
  {
  }

  lemma StartHead(ring: seq<nat>, n: nat, stamp: seq<nat>, now: nat, i: nat)
    requires Started(ring, n, stamp, now, i)
    ensures ring != [] && ring[0] == n
  {
  }

  lemma CircleDistinct(s: seq<Buf>, ring: seq<nat>)
    requires Circle(s, ring)
    ensures Distinct(ring) && ring != []
  {
  }

  lemma CachesIs(b: Buf, dev: nat, blockno: nat)
    ensures Caches(b, dev, blockno) <==> b.dev == dev && b.blockno == blockno
  {
  }

  lemma UncachedAt(s: seq<Buf>, n: nat, dev: nat, blockno: nat)
    requires n <= |s| && Uncached(s, n, dev, blockno)
    ensures forall a: nat | a < n :: s[a].dev != dev || s[a].blockno != blockno
  {
    forall a: nat | a < n
      ensures s[a].dev != dev || s[a].blockno != blockno
    {
      assert !Caches(s[a], dev, blockno);
    }
  }

  lemma CachedIs(s: seq<Buf>, n: nat, dev: nat, blockno: nat, b: nat)
    requires b < n <= |s|
    ensures Uncached(s, n, dev, blockno) ==> !Caches(s[b], dev, blockno)
  {
  }

  lemma UsedIs(s: seq<Buf>, n: nat, b: nat)
    requires b < n <= |s| && s[b].refcnt == 0
    ensures !AllUsed(s, n)
  {
  }

  lemma MissedNone(s: seq<Buf>, ring: seq<nat>, dev: nat, blockno: nat)
    ensures Missed(s, ring, 1, dev, blockno) && Missed(s, ring, 0, dev, blockno)
    ensures |ring| <= 1 ==> Missed(s, ring, |ring|, dev, blockno)
  {
  }

  lemma MissedMore(s: seq<Buf>, ring: seq<nat>, i: nat, dev: nat, blockno: nat)
    requires Missed(s, ring, i, dev, blockno) && 0 < i < |ring| && ring[i] < |s| && !Caches(s[ring[i]], dev, blockno)
    ensures Missed(s, ring, i + 1, dev, blockno)
  {
  }

  lemma UsedNone(s: seq<Buf>, ring: seq<nat>, n: nat)
    requires |ring| == n + 1
    ensures UsedFrom(s, ring, n)
  {
  }

  lemma UsedMore(s: seq<Buf>, ring: seq<nat>, i: nat)
    requires UsedFrom(s, ring, i) && 0 < i < |ring| && ring[i] < |s| && s[ring[i]].refcnt > 0
    ensures UsedFrom(s, ring, i - 1)
  {
  }

  /** What a user knows of its buffer. */
  lemma ClientBuf(s: seq<Buf>, n: nat, clients: Clients, disk: map<nat, Block>, twice: set<nat>, c: nat)
    requires UsersOk(s, n, clients) && Coherent(s, n, clients, disk, twice) && c in clients
    ensures var cl := clients[c];
            && cl.b < n <= |s| && s[cl.b].dev == cl.dev > 0 && s[cl.b].blockno == cl.blockno
            && (cl.Holds? <==> s[cl.b].sk == c)
            && (cl.blockno !in twice && cl.Holds? && !cl.dirty && s[cl.b].vaild ==> cl.blockno in disk && s[cl.b].data == disk[cl.blockno])
            && (cl.blockno !in twice && !cl.Holds? && s[cl.b].sk < 0 && s[cl.b].vaild ==> cl.blockno in disk && s[cl.b].data == disk[cl.blockno])
  {
    assert ClientOk(s, n, c, clients[c]);
    assert BufOk(s[clients[c].b], clients[c].b, clients);
    assert BlockOk(s[clients[c].b], clients, disk, twice);
  }

  lemma SameSelf(s: seq<Buf>)
    ensures SameFields(s, s)
  {
  }

  lemma AgeSizes(ring: seq<nat>, n: nat, stamp: seq<nat>, now: nat)
    requires AgesOk(ring, n, stamp, now)
    ensures |stamp| == n && |ring| == n + 1
  {
  }

  /** Taking a buffer out of the list and putting it in front keeps the list, and only links change. */
  lemma MoveFront(s: seq<Buf>, ring: seq<nat>, n: nat, p: nat)
    requires Circle(s, ring) && 0 < p < |ring| && ring[0] == n && ring[p] < |s|
    ensures s[ring[p]].next < |s| && s[ring[p]].prev < |s|
    ensures var u := Unlinked(s, ring[p]);
            && n < |u| && u[n].next < |u|
            && Circle(Pushed(u, n, ring[p]), InFront(Without(ring, p), ring[p])) && SameFields(s, Pushed(u, n, ring[p]))
  {
    hide Circle, SameFields, Unlinked, Pushed, Without, InFront;
    UnlinkCircle(s, ring, p);
    UnlinkFields(s, ring[p]);
    OutOfRing(s, ring, p);
    PushCircle(Unlinked(s, ring[p]), Without(ring, p), ring[p]);
    PushFields(Unlinked(s, ring[p]), ring[p], n);
    SameTwice(s, Unlinked(s, ring[p]), Pushed(Unlinked(s, ring[p]), n, ring[p]));
  }

  lemma OutOfRing(s: seq<Buf>, ring: seq<nat>, p: nat)
    requires Circle(s, ring) && 0 < p < |ring|
    ensures ring[p] !in Without(ring, p) && Without(ring, p)[0] == ring[0] && ring[0] < |s|
  {
    hide Without;
  }

  lemma SameTwice(s: seq<Buf>, t: seq<Buf>, u: seq<Buf>)
    requires SameFields(s, t) && SameFields(t, u)
    ensures SameFields(s, u)
  {
    forall i: nat | i < |s|
      ensures Bare(s[i]) == Bare(u[i])
    {
      assert Bare(s[i]) == Bare(t[i]) && Bare(t[i]) == Bare(u[i]);
    }
  }

  /** A held sleep lock means a reference: the buffer cannot be recycled under its holder. */
  lemma HeldIsReferenced(s: seq<Buf>, n: nat, clients: Clients, b: nat)
    requires UsersOk(s, n, clients) && b < n && s[b].sk >= 0
    ensures s[b].refcnt >= 1
  {
    assert BufOk(s[b], b, clients);
    NoUsersLock(s[b], b, clients);
  }

  lemma NoUsersLock(s: Buf, b: nat, clients: Clients)
    requires BufOk(s, b, clients) && s.sk >= 0
    ensures |UsersOf(clients, b)| > 0
  {
    assert s.sk as nat in UsersOf(clients, b);
  }

  // ----- One block under two device numbers

  /** bread, where the lock is free when it is asked for. */
  method Bread(cache: Cache, dev: nat, blockno: nat, c: nat) returns (b: nat)
    requires cache.Valid() && dev > 0 && c !in cache.clients && blockno in cache.disk
    requires !AllUsed(cache.bufs[..], cache.n) || !Uncached(cache.bufs[..], cache.n, dev, blockno)
    requires forall a: nat | a < cache.n && Caches(cache.bufs[..][a], dev, blockno) :: cache.bufs[..][a].sk < 0
    modifies cache`clients, cache`twice, cache.bufs
    ensures cache.Valid() && b < cache.n && cache.clients == old(cache.clients)[c := Holds(b, dev, blockno, false)]
    ensures var s, t := old(cache.bufs[..]), cache.bufs[..];
            && b < |s| == |t| && (forall a: nat | a < cache.n && a != b :: t[a] == s[a])
            && (Caches(s[b], dev, blockno) ==>
                  t[b] == s[b].(refcnt := s[b].refcnt + 1, sk := c, vaild := true, data := if s[b].vaild then s[b].data else cache.disk[blockno]))
            && (!Caches(s[b], dev, blockno) ==>
                  && Uncached(s, cache.n, dev, blockno) && s[b].refcnt == 0 && |cache.stamp| == cache.n
                  && (forall a: nat | a < cache.n && s[a].refcnt == 0 :: cache.stamp[b] <= cache.stamp[a])
                  && t[b] == s[b].(refcnt := 1, sk := c, vaild := true, dev := dev, blockno := blockno, data := cache.disk[blockno]))
  {
    hide Circle, UsersOk, KeysOk, Coherent, AgesOk, MoreTwice, Uncached, AllUsed;
    ghost var was, before := cache.clients, cache.bufs[..];
    var r := cache.Bget(dev, blockno, c);
    b := r.b;
    if before[b].sk >= 0 {
      HeldIsReferenced(before, cache.n, was, b);
    }
    cache.Lock(c, b);
    cache.Fill(c, b);
  }

  /** brelease by a holder of the lock. */
  method Brelease(cache: Cache, c: nat, b: nat)
    requires cache.Valid() && b < cache.n && c in cache.clients && cache.clients[c].b == b && cache.clients[c].Holds? && !cache.clients[c].dirty
    modifies cache`clients, cache`ring, cache`stamp, cache`now, cache.bufs
    ensures cache.Valid() && cache.clients == old(cache.clients) - {c} && b < cache.n == |cache.stamp|
    ensures var s, t := old(cache.bufs[..]), cache.bufs[..];
            && b < |s| == |t| && s[b].refcnt > 0 && Bare(t[b]) == Bare(s[b].(refcnt := s[b].refcnt - 1, sk := -1))
            && (forall a: nat | a < cache.n && a != b :: Bare(t[a]) == Bare(s[a]))
            && (t[b].refcnt == 0 ==> forall a: nat | a < cache.n && a != b :: cache.stamp[a] < cache.stamp[b])
  {
    hide Circle, UsersOk, KeysOk, Coherent, AgesOk, MoreTwice, SameFields;
    Sizes(cache.ring, cache.n, cache.stamp, cache.now);
    ghost var was := cache.clients;
    var r := cache.Unlock(c, b);
    ghost var last := cache.bufs[..];
    cache.Decref(c, b);
    Sizes(cache.ring, cache.n, cache.stamp, cache.now);
    FieldsAt(last[b := last[b].(refcnt := last[b].refcnt - 1)], cache.bufs[..]);
    assert cache.clients == was - {c};
  }

  lemma Sizes(ring: seq<nat>, n: nat, stamp: seq<nat>, now: nat)
    requires AgesOk(ring, n, stamp, now)
    ensures |stamp| == n && forall a: nat | a < n :: stamp[a] < now
  {
    forall a: nat | a < n
      ensures stamp[a] < now
    {
      RingCovers(ring, n, stamp, now, a);
    }
  }

  lemma FieldsAt(s: seq<Buf>, t: seq<Buf>)
    requires SameFields(s, t)
    ensures |s| == |t| && forall a: nat | a < |s| :: Bare(t[a]) == Bare(s[a])
  {
    forall a: nat | a < |s|
      ensures Bare(t[a]) == Bare(s[a])
    {
      assert Bare(s[a]) == Bare(t[a]);
    }
  }

  /** A filled buffer that nobody has locked. */
  predicate Resting(s: Buf) { s.dev > 0 && s.vaild && s.sk < 0 }

  /** It disagrees with the disk. */
  predicate Stale(s: Buf, disk: map<nat, Block>) { Resting(s) && s.blockno in disk && s.data != disk[s.blockno] }

  /** A block goes into twice only when a second device number is used for it. */
  lemma TwiceTwoDevices(s: seq<Buf>, n: nat, b: nat, dev: nat, blockno: nat, twice: set<nat>)
    requires n <= |s| && Uncached(s, n, dev, blockno)
    ensures MoreTwice(s, n, b, blockno, twice) != twice ==>
              exists a: nat :: a < n && a != b && InBuffer(s[a], blockno) && s[a].dev != dev
  {
    if Doubled(s, n, b, blockno) {
      var a: nat :| a < n && a != b && InBuffer(s[a], blockno);
      assert !Caches(s[a], dev, blockno);
    }
  }

  lemma OnlyOne(s: seq<Buf>, n: nat, a: nat, b: nat)
    requires KeysOk(s, n) && a < n && b < n && s[a].dev > 0 && Caches(s[b], s[a].dev, s[a].blockno)
    ensures a == b
  {
  }

  lemma CachedHere(s: seq<Buf>, n: nat, a: nat)
    requires a < n <= |s|
    ensures !Uncached(s, n, s[a].dev, s[a].blockno)
  {
    assert Caches(s[a], s[a].dev, s[a].blockno);
  }

  /** Two buffers for one block of the disk: as soon as one is written, the other is stale. */
  method Diverge(cache: Cache, a: nat, b: nat, c: nat, data: Block)
    requires cache.Valid() && c !in cache.clients && a < cache.n && b < cache.n && a != b
    requires Resting(cache.bufs[a]) && Resting(cache.bufs[b]) && cache.bufs[a].blockno == cache.bufs[b].blockno
    requires cache.bufs[a].blockno in cache.disk && data != cache.bufs[b].data
    modifies cache, cache.bufs
    ensures cache.Valid() && cache.clients == old(cache.clients) && cache.disk == old(cache.disk)[old(cache.bufs[a].blockno) := data]
    ensures Stale(cache.bufs[..][b], cache.disk) && Bare(cache.bufs[..][b]) == Bare(old(cache.bufs[..])[b])
  {
    hide Circle, UsersOk, KeysOk, Coherent, AgesOk, Uncached, AllUsed;
    ghost var s, was := cache.bufs[..], cache.clients;
    assert s[a] == cache.bufs[a] && s[b] == cache.bufs[b];
    CachedHere(s, cache.n, a);
    forall x: nat | x < cache.n && Caches(s[x], s[a].dev, s[a].blockno) { OnlyOne(s, cache.n, a, x); }
    var x := Bread(cache, cache.bufs[a].dev, cache.bufs[a].blockno, c);
    assert x == a;
    cache.Change(c, a, data);
    var r := cache.Bwrite(c, a);
    Brelease(cache, c, a);
    assert cache.clients == was;
  }

  lemma AllBlank(s: seq<Buf>, n: nat, dev: nat, blockno: nat)
    requires 0 < n <= |s| && dev > 0 && forall b: nat | b < n :: Blank(s[b])
    ensures !AllUsed(s, n) && Uncached(s, n, dev, blockno) && s[0].refcnt == 0
  {
    forall b: nat | b < n
      ensures !Caches(s[b], dev, blockno)
    {
      assert Blank(s[b]);
    }
    assert Blank(s[0]);
  }

  /** From the start, with two device numbers for any block of the disk: a run that ends in a stale buffer. */
  method StaleRun(n: nat, disk: map<nat, Block>, dev1: nat, dev2: nat, blockno: nat, c: nat, data: Block) returns (cache: Cache, b: nat)
    requires n >= 2 && dev1 > 0 && dev2 > 0 && dev1 != dev2 && blockno in disk && data != disk[blockno]
    ensures cache.Valid() && cache.clients == map[] && cache.disk == disk[blockno := data] && b < cache.n
    ensures cache.bufs[..][b].dev == dev2 && cache.bufs[..][b].blockno == blockno && Stale(cache.bufs[..][b], cache.disk)
  {
    hide Circle, UsersOk, KeysOk, Coherent, AgesOk, Uncached, AllUsed;
    cache := new Cache(n, disk);
    ghost var s0 := cache.bufs[..];
    AllBlank(s0, n, dev1, blockno);
    var a := Bread(cache, dev1, blockno, c);
    Brelease(cache, c, a);
    ghost var s1, stamp := cache.bufs[..], cache.stamp;
    var other: nat := if a == 0 then 1 else 0;
    OthersBlank(s0, s1, n, a, dev2, blockno);
    b := Bread(cache, dev2, blockno, c);
    assert stamp[b] <= stamp[other] < stamp[a];
    Brelease(cache, c, b);
    assert Bare(cache.bufs[..][a]) == Bare(s1[a]);
    Diverge(cache, a, b, c, data);
  }

  lemma OthersBlank(s: seq<Buf>, t: seq<Buf>, n: nat, a: nat, dev: nat, blockno: nat)
    requires n <= |s| == |t| && a < n && n >= 2 && dev > 0 && t[a].dev != dev
    requires (forall b: nat | b < n :: Blank(s[b])) && forall b: nat | b < n && b != a :: Bare(t[b]) == Bare(s[b])
    ensures !AllUsed(t, n) && Uncached(t, n, dev, blockno) && forall b: nat | b < n && b != a :: t[b].refcnt == 0
  {
    forall b: nat | b < n && b != a
      ensures !Caches(t[b], dev, blockno) && t[b].refcnt == 0
    {
      assert Blank(s[b]) && Bare(t[b]) == Bare(s[b]);
    }
    var x: nat := if a == 0 then 1 else 0;
    assert t[x].refcnt == 0;
  }
}
