/** The buffers of fs.c as values: their doubly linked list, their users, and what they cache. */
module BufList {

  type Block = seq<nat>

  /** sk is the process that holds the sleep lock, -1 when it is free. */
  datatype Buf = Buf(vaild: bool, dev: nat, blockno: nat, sk: int, refcnt: nat, prev: nat, next: nat, data: Block)

  // ----- The list: ring[0] is the head, ring[1..] the buffers from head.next on

  function Succ(n: nat, i: nat): nat { if i + 1 < n then i + 1 else 0 }

  predicate LinkAt(s: seq<Buf>, ring: seq<nat>, i: nat)
    requires i < |ring| && forall k: nat | k < |ring| :: ring[k] < |s|
  {
    s[ring[i]].next == ring[Succ(|ring|, i)] && s[ring[Succ(|ring|, i)]].prev == ring[i]
  }

  predicate Distinct(ring: seq<nat>)
  {
    forall i: nat, j: nat | i < j < |ring| :: ring[i] != ring[j]
  }

  ghost predicate Circle(s: seq<Buf>, ring: seq<nat>)
  {
    && ring != [] && (forall k: nat | k < |ring| :: ring[k] < |s|) && Distinct(ring)
    && forall i: nat | i < |ring| :: LinkAt(s, ring, i)
  }

  function Without(ring: seq<nat>, p: nat): (r: seq<nat>)
    requires p < |ring|
    ensures |r| == |ring| - 1
    ensures forall i: nat | i < p :: r[i] == ring[i]
    ensures forall i: nat | p <= i < |r| :: r[i] == ring[i + 1]
  {
    ring[..p] + ring[p + 1..]
  }

  function InFront(ring: seq<nat>, b: nat): (r: seq<nat>)
    requires ring != []
    ensures |r| == |ring| + 1 && r[0] == ring[0] && r[1] == b
    ensures forall i: nat | 2 <= i < |r| :: r[i] == ring[i - 1]
  {
    [ring[0], b] + ring[1..]
  }

  /** b->next->prev = b->prev; b->prev->next = b->next */
  function Unlinked(s: seq<Buf>, b: nat): (t: seq<Buf>)
    requires b < |s| && s[b].next < |s| && s[b].prev < |s|
    ensures |t| == |s|
  {
    var t := s[s[b].next := s[s[b].next].(prev := s[b].prev)];
    t[t[b].prev := t[t[b].prev].(next := t[b].next)]
  }

  lemma UnlinkCircle(s: seq<Buf>, ring: seq<nat>, p: nat)
    requires Circle(s, ring) && 0 < p < |ring|
    ensures s[ring[p]].next < |s| && s[ring[p]].prev < |s|
    ensures Circle(Unlinked(s, ring[p]), Without(ring, p))
  {
    hide Without;
    var b, n := ring[p], |ring|;
    assert LinkAt(s, ring, p) && LinkAt(s, ring, p - 1);
    assert s[b].prev == ring[p - 1] && s[b].next == ring[Succ(n, p)];
    var t, r := Unlinked(s, b), Without(ring, p);
    forall i: nat | i < |r|
      ensures LinkAt(t, r, i)
    {
      var k := if i < p then i else i + 1;
      assert LinkAt(s, ring, k);
    }
  }

  /** b->next = head.next; b->prev = &head; head.next->prev = b; head.next = b */
  function Pushed(s: seq<Buf>, head: nat, b: nat): (t: seq<Buf>)
    requires b < |s| && head < |s| && s[head].next < |s|
    ensures |t| == |s|
  {
    var t := s[b := s[b].(next := s[head].next, prev := head)];
    var u := t[t[head].next := t[t[head].next].(prev := b)];
    u[head := u[head].(next := b)]
  }

  lemma PushCircle(s: seq<Buf>, ring: seq<nat>, b: nat)
    requires Circle(s, ring) && b < |s| && b !in ring
    ensures s[ring[0]].next < |s|
    ensures Circle(Pushed(s, ring[0], b), InFront(ring, b))
  {
    hide InFront;
    var n, h := |ring|, ring[0];
    assert LinkAt(s, ring, 0);
    var t, r := Pushed(s, h, b), InFront(ring, b);
    forall i: nat | i < |r|
      ensures LinkAt(t, r, i)
    {
      if i >= 2 {
        assert LinkAt(s, ring, i - 1);
      }
    }
  }

  /** Only the links of other fields than prev and next may differ. */
  predicate SameLinks(s: seq<Buf>, t: seq<Buf>)
  {
    |s| == |t| && forall i: nat | i < |s| :: s[i].prev == t[i].prev && s[i].next == t[i].next
  }

  lemma CircleFrame(s: seq<Buf>, t: seq<Buf>, ring: seq<nat>)
    requires Circle(s, ring) && SameLinks(s, t)
    ensures Circle(t, ring)
  {
    forall i: nat | i < |ring|
      ensures LinkAt(t, ring, i)
    {
      assert LinkAt(s, ring, i);
    }
  }

  /** A buffer without its links. */
  function Bare(b: Buf): Buf { b.(prev := 0, next := 0) }

  /** All but links the same. */
  predicate SameFields(s: seq<Buf>, t: seq<Buf>)
  {
    |s| == |t| && forall i: nat | i < |s| :: Bare(s[i]) == Bare(t[i])
  }

  lemma UnlinkFields(s: seq<Buf>, b: nat)
    requires b < |s| && s[b].next < |s| && s[b].prev < |s|
    ensures SameFields(s, Unlinked(s, b))
  {
  }

  lemma PushFields(s: seq<Buf>, b: nat, head: nat)
    requires b < |s| && head < |s| && s[head].next < |s|
    ensures SameFields(s, Pushed(s, head, b))
  {
  }

  // ----- Users

  /** A process with a buffer: it has its reference but not yet its lock, holds the lock (dirty: it has changed data
      since its last bwrite), or has released the lock and not yet its reference. */
  datatype Client =
    | Wants(b: nat, dev: nat, blockno: nat)
    | Holds(b: nat, dev: nat, blockno: nat, dirty: bool)
    | Leaving(b: nat, dev: nat, blockno: nat)

  type Clients = map<nat, Client>

  ghost function UsersOf(clients: Clients, b: nat): set<nat>
  {
    set c | c in clients && clients[c].b == b
  }

  predicate Dirty(s: Buf, clients: Clients)
  {
    s.sk >= 0 && s.sk in clients && clients[s.sk].Holds? && clients[s.sk].dirty
  }

  /** refcnt counts the processes that use the buffer, and its lock is held by one of them. */
  ghost predicate BufOk(s: Buf, b: nat, clients: Clients)
  {
    && s.refcnt == |UsersOf(clients, b)|
    && (s.sk >= 0 ==> s.sk in clients && clients[s.sk].Holds? && clients[s.sk].b == b)
  }

  ghost predicate ClientOk(s: seq<Buf>, n: nat, c: nat, cl: Client)
    requires n <= |s|
  {
    && cl.b < n && s[cl.b].dev == cl.dev > 0 && s[cl.b].blockno == cl.blockno
    && (cl.Holds? ==> s[cl.b].sk == c && (cl.dirty ==> s[cl.b].vaild))
  }

  ghost predicate UsersOk(s: seq<Buf>, n: nat, clients: Clients)
  {
    && n <= |s| && (forall b: nat | b < n :: BufOk(s[b], b, clients))
    && (forall c | c in clients :: ClientOk(s, n, c, clients[c]))
  }

  /** At most one buffer for a block; no twice has number 0. */
  ghost predicate KeysOk(s: seq<Buf>, n: nat)
  {
    n <= |s| && forall a: nat, b: nat | a < n && b < n && a != b && s[a].dev > 0 :: s[a].dev != s[b].dev || s[a].blockno != s[b].blockno
  }

  /** A filled buffer agrees with the disk unless its holder has changed it since its last bwrite, or its block has been
      in two buffers at once. */
  predicate BlockOk(s: Buf, clients: Clients, disk: map<nat, Block>, twice: set<nat>)
  {
    s.vaild ==> s.dev > 0 && (s.blockno in twice || Dirty(s, clients) || (s.blockno in disk && s.data == disk[s.blockno]))
  }

  /** Some buffer but b is for that block of the disk, whatever its device number. */
  ghost predicate Doubled(s: seq<Buf>, n: nat, b: nat, blockno: nat)
    requires n <= |s|
  {
    exists a: nat :: a < n && a != b && InBuffer(s[a], blockno)
  }

  predicate InBuffer(s: Buf, blockno: nat) { s.dev > 0 && s.blockno == blockno }

  /** twice has the blocks that have been in two buffers at once. */
  ghost predicate Counted(s: seq<Buf>, n: nat, twice: set<nat>)
  {
    n <= |s| && forall b: nat | b < n && s[b].dev > 0 && Doubled(s, n, b, s[b].blockno) :: s[b].blockno in twice
  }

  /** A block that never was in two buffers agrees with the disk. */
  ghost predicate Coherent(s: seq<Buf>, n: nat, clients: Clients, disk: map<nat, Block>, twice: set<nat>)
  {
    Counted(s, n, twice) && forall b: nat | b < n :: BlockOk(s[b], clients, disk, twice)
  }

  lemma CountedAt(s: seq<Buf>, n: nat, twice: set<nat>, a: nat, b: nat)
    requires Counted(s, n, twice) && a < n && b < n
    ensures a != b && s[a].dev > 0 && s[b].dev > 0 && s[a].blockno == s[b].blockno ==> s[a].blockno in twice
  {
    if a != b && s[a].dev > 0 && s[b].dev > 0 && s[a].blockno == s[b].blockno {
      assert InBuffer(s[b], s[a].blockno);
    }
  }

  lemma CountedKept(s: seq<Buf>, t: seq<Buf>, n: nat, twice: set<nat>)
    requires Counted(s, n, twice) && n <= |t| && forall b: nat | b < n :: t[b].dev == s[b].dev && t[b].blockno == s[b].blockno
    ensures Counted(t, n, twice)
  {
    forall b: nat | b < n && t[b].dev > 0 && Doubled(t, n, b, t[b].blockno)
      ensures t[b].blockno in twice
    {
      var a: nat :| a < n && a != b && InBuffer(t[a], t[b].blockno);
      assert InBuffer(s[a], s[b].blockno);
    }
  }

  /** The list runs from the buffer released last to the one released longest ago. */
  ghost predicate AgesOk(ring: seq<nat>, n: nat, stamp: seq<nat>, now: nat)
  {
    && |stamp| == n && |ring| == n + 1 && ring[0] == n
    && (forall k: nat | 0 < k < |ring| :: ring[k] < n && stamp[ring[k]] < now)
    && (forall b: nat | b < n :: b in ring)
    && (forall i: nat, j: nat | 0 < i < j < |ring| :: stamp[ring[i]] > stamp[ring[j]])
  }

  lemma NoUsers(clients: Clients, b: nat)
    requires |UsersOf(clients, b)| == 0
    ensures forall c | c in clients :: clients[c].b != b
  {
    forall c | c in clients
      ensures clients[c].b != b
    {
      assert clients[c].b == b ==> c in UsersOf(clients, b);
    }
  }

  lemma UsersAdd(clients: Clients, c: nat, cl: Client, b: nat)
    requires c !in clients
    ensures |UsersOf(clients[c := cl], b)| == |UsersOf(clients, b)| + if cl.b == b then 1 else 0
  {
    if cl.b == b {
      assert UsersOf(clients[c := cl], b) == UsersOf(clients, b) + {c};
    } else {
      assert UsersOf(clients[c := cl], b) == UsersOf(clients, b);
    }
  }

  lemma UsersChange(clients: Clients, c: nat, cl: Client, b: nat)
    requires c in clients && clients[c].b == cl.b
    ensures UsersOf(clients[c := cl], b) == UsersOf(clients, b)
  {
  }

  lemma UsersDrop(clients: Clients, c: nat, b: nat)
    requires c in clients
    ensures |UsersOf(clients, b)| == |UsersOf(clients - {c}, b)| + if clients[c].b == b then 1 else 0
  {
    if clients[c].b == b {
      assert UsersOf(clients, b) == UsersOf(clients - {c}, b) + {c};
    } else {
      assert UsersOf(clients, b) == UsersOf(clients - {c}, b);
    }
  }

  /** Links do not matter for users, keys and contents. */
  lemma LinksAside(s: seq<Buf>, t: seq<Buf>, n: nat, clients: Clients, disk: map<nat, Block>, twice: set<nat>)
    requires SameFields(s, t) && n <= |s|
    ensures UsersOk(s, n, clients) ==> UsersOk(t, n, clients)
    ensures KeysOk(s, n) ==> KeysOk(t, n)
    ensures Coherent(s, n, clients, disk, twice) ==> Coherent(t, n, clients, disk, twice)
  {
    hide Counted;
    assert forall b: nat | b < n :: Bare(s[b]) == Bare(t[b]);
    if Counted(s, n, twice) {
      CountedKept(s, t, n, twice);
    }
  }

  // ----- What the operations change

  /** bget, hit: one more user. */
  lemma HitOk(s: seq<Buf>, n: nat, clients: Clients, disk: map<nat, Block>, twice: set<nat>, b: nat, c: nat)
    requires UsersOk(s, n, clients) && KeysOk(s, n) && Coherent(s, n, clients, disk, twice)
    requires b < n && c !in clients && s[b].dev > 0
    ensures var t := s[b := s[b].(refcnt := s[b].refcnt + 1)];
            var now := clients[c := Wants(b, s[b].dev, s[b].blockno)];
            UsersOk(t, n, now) && KeysOk(t, n) && Coherent(t, n, now, disk, twice)
  {
    hide Counted;
    var t := s[b := s[b].(refcnt := s[b].refcnt + 1)];
    var cl := Wants(b, s[b].dev, s[b].blockno);
    var now := clients[c := cl];
    CountedKept(s, t, n, twice);
    forall a: nat | a < n
      ensures BufOk(t[a], a, now) && BlockOk(t[a], now, disk, twice)
    {
      assert BufOk(s[a], a, clients) && BlockOk(s[a], clients, disk, twice);
      UsersAdd(clients, c, cl, a);
    }
    forall x | x in now
      ensures ClientOk(t, n, x, now[x])
    {
      assert x in clients ==> ClientOk(s, n, x, clients[x]);
    }
  }

  ghost function MoreTwice(s: seq<Buf>, n: nat, b: nat, blockno: nat, twice: set<nat>): set<nat>
    requires n <= |s|
  {
    if Doubled(s, n, b, blockno) then twice + {blockno} else twice
  }

  lemma CountedMore(s: seq<Buf>, n: nat, b: nat, dev: nat, blockno: nat, twice: set<nat>)
    requires Counted(s, n, twice) && b < n
    ensures twice <= MoreTwice(s, n, b, blockno, twice)
    ensures Counted(s[b := s[b].(refcnt := 1, vaild := false, dev := dev, blockno := blockno)], n, MoreTwice(s, n, b, blockno, twice))
  {
    var t := s[b := s[b].(refcnt := 1, vaild := false, dev := dev, blockno := blockno)];
    forall x: nat | x < n && t[x].dev > 0 && Doubled(t, n, x, t[x].blockno)
      ensures t[x].blockno in MoreTwice(s, n, b, blockno, twice)
    {
      var a: nat :| a < n && a != x && InBuffer(t[a], t[x].blockno);
      assert a != b ==> InBuffer(s[a], t[x].blockno);
      assert x != b ==> InBuffer(s[x], t[x].blockno);
    }
  }

  /** bget, miss: an unused buffer is given the new block. */
  lemma MissOk(s: seq<Buf>, n: nat, clients: Clients, disk: map<nat, Block>, twice: set<nat>, b: nat, c: nat, dev: nat, blockno: nat)
    requires UsersOk(s, n, clients) && KeysOk(s, n) && Coherent(s, n, clients, disk, twice)
    requires b < n && c !in clients && s[b].refcnt == 0 && dev > 0
    requires forall a: nat | a < n :: s[a].dev != dev || s[a].blockno != blockno
    ensures var t := s[b := s[b].(refcnt := 1, vaild := false, dev := dev, blockno := blockno)];
            var now := clients[c := Wants(b, dev, blockno)];
            UsersOk(t, n, now) && KeysOk(t, n) && Coherent(t, n, now, disk, MoreTwice(s, n, b, blockno, twice))
  {
    hide Counted, MoreTwice;
    var t := s[b := s[b].(refcnt := 1, vaild := false, dev := dev, blockno := blockno)];
    var cl := Wants(b, dev, blockno);
    var now := clients[c := cl];
    assert BufOk(s[b], b, clients);
    NoUsers(clients, b);
    CountedMore(s, n, b, dev, blockno, twice);
    forall a: nat | a < n
      ensures BufOk(t[a], a, now) && BlockOk(t[a], now, disk, MoreTwice(s, n, b, blockno, twice))
    {
      assert BufOk(s[a], a, clients) && BlockOk(s[a], clients, disk, twice);
      UsersAdd(clients, c, cl, a);
    }
    forall x | x in now
      ensures ClientOk(t, n, x, now[x])
    {
      assert x in clients ==> ClientOk(s, n, x, clients[x]);
    }
  }

  /** A user moves on within its buffer: the lock, the contents, the disk. */
  lemma UserOk(s: seq<Buf>, n: nat, clients: Clients, disk: map<nat, Block>, twice: set<nat>, c: nat, u: Buf, cl: Client, after: map<nat, Block>)
    requires UsersOk(s, n, clients) && KeysOk(s, n) && Coherent(s, n, clients, disk, twice)
    requires c in clients && cl.b == clients[c].b && cl.dev == clients[c].dev && cl.blockno == clients[c].blockno
    requires var v := s[cl.b]; u.dev == v.dev && u.blockno == v.blockno && u.refcnt == v.refcnt
    requires s[cl.b].sk == c || s[cl.b].sk < 0
    requires u.sk == if cl.Holds? then c else -1
    requires cl.Holds? && cl.dirty ==> u.vaild
    requires u.vaild && !(cl.Holds? && cl.dirty) && cl.blockno !in twice ==> cl.blockno in after && u.data == after[cl.blockno]
    requires forall k | k in disk && k != cl.blockno :: k in after && after[k] == disk[k]
    ensures var now := clients[c := cl]; var t := s[cl.b := u];
            UsersOk(t, n, now) && KeysOk(t, n) && Coherent(t, n, now, after, twice)
  {
    hide Counted;
    var b, t, now := cl.b, s[cl.b := u], clients[c := cl];
    assert ClientOk(s, n, c, clients[c]);
    assert BlockOk(s[b], clients, disk, twice);
    CountedKept(s, t, n, twice);
    forall a: nat | a < n
      ensures BufOk(t[a], a, now) && BlockOk(t[a], now, after, twice)
    {
      CountedAt(s, n, twice, a, b);
      assert BufOk(s[a], a, clients) && BlockOk(s[a], clients, disk, twice);
      UsersChange(clients, c, cl, a);
    }
    forall x | x in now
      ensures ClientOk(t, n, x, now[x])
    {
      assert x in clients ==> ClientOk(s, n, x, clients[x]);
    }
  }

  /** The end of brelease: one user fewer. */
  lemma DropOk(s: seq<Buf>, n: nat, clients: Clients, disk: map<nat, Block>, twice: set<nat>, c: nat)
    requires UsersOk(s, n, clients) && KeysOk(s, n) && Coherent(s, n, clients, disk, twice)
    requires c in clients && clients[c].Leaving?
    ensures var b := clients[c].b;
            && b < n && s[b].refcnt > 0
            && var t := s[b := s[b].(refcnt := s[b].refcnt - 1)]; var now := clients - {c};
               UsersOk(t, n, now) && KeysOk(t, n) && Coherent(t, n, now, disk, twice)
  {
    hide Counted;
    var b := clients[c].b;
    assert ClientOk(s, n, c, clients[c]);
    assert BufOk(s[b], b, clients);
    UsersDrop(clients, c, b);
    var t, now := s[b := s[b].(refcnt := s[b].refcnt - 1)], clients - {c};
    CountedKept(s, t, n, twice);
    forall a: nat | a < n
      ensures BufOk(t[a], a, now) && BlockOk(t[a], now, disk, twice)
    {
      assert BufOk(s[a], a, clients) && BlockOk(s[a], clients, disk, twice);
      UsersDrop(clients, c, a);
    }
    forall x | x in now
      ensures ClientOk(t, n, x, now[x])
    {
      assert ClientOk(s, n, x, clients[x]);
    }
  }

  // ----- Least recently released

  /** A buffer released last goes to the front with the newest stamp. */
  lemma AgesFront(ring: seq<nat>, n: nat, stamp: seq<nat>, now: nat, p: nat)
    requires AgesOk(ring, n, stamp, now) && Distinct(ring) && 0 < p < |ring|
    ensures AgesOk(InFront(Without(ring, p), ring[p]), n, stamp[ring[p] := now], now + 1)
  {
    hide InFront, Without;
    var r := InFront(Without(ring, p), ring[p]);
    forall b: nat | b < n
      ensures b in r
    {
      assert b in ring;
      var k :| 0 <= k < |ring| && ring[k] == b;
      assert r[if k == 0 then 0 else if k == p then 1 else if k < p then k + 1 else k] == b;
    }
  }

  // ----- Looking a block up

  predicate Caches(b: Buf, dev: nat, blockno: nat) { b.dev == dev && b.blockno == blockno }

  /** No buffer caches the block. */
  ghost predicate Uncached(s: seq<Buf>, n: nat, dev: nat, blockno: nat)
    requires n <= |s|
  {
    forall b: nat | b < n :: !Caches(s[b], dev, blockno)
  }

  /** Every buffer is in use. */
  ghost predicate AllUsed(s: seq<Buf>, n: nat)
    requires n <= |s|
  {
    forall b: nat | b < n :: s[b].refcnt > 0
  }

  lemma RingCovers(ring: seq<nat>, n: nat, stamp: seq<nat>, now: nat, b: nat)
    requires AgesOk(ring, n, stamp, now) && b < n
    ensures exists k: nat :: 0 < k < |ring| && ring[k] == b
  {
    assert b in ring;
    var k :| 0 <= k < |ring| && ring[k] == b;
  }

  /** The buffers at places 1 to i - 1 of the list do not cache the block. */
  ghost predicate Missed(s: seq<Buf>, ring: seq<nat>, i: nat, dev: nat, blockno: nat)
  {
    forall k: nat | 0 < k < i && k < |ring| :: ring[k] < |s| && !Caches(s[ring[k]], dev, blockno)
  }

  /** The buffers after place i are in use. */
  ghost predicate UsedFrom(s: seq<Buf>, ring: seq<nat>, i: nat)
  {
    forall k: nat | i < k < |ring| :: ring[k] < |s| && s[ring[k]].refcnt > 0
  }

  /** The first unused buffer from the back of the list is the one released longest ago. */
  lemma OldestIs(s: seq<Buf>, ring: seq<nat>, n: nat, stamp: seq<nat>, now: nat, p: nat)
    requires AgesOk(ring, n, stamp, now) && n < |s| && 0 < p < |ring| && UsedFrom(s, ring, p)
    ensures ring[p] < n == |stamp|
    ensures forall b: nat | b < n && s[b].refcnt == 0 :: stamp[ring[p]] <= stamp[b]
  {
    forall b: nat | b < n && s[b].refcnt == 0
      ensures stamp[ring[p]] <= stamp[b]
    {
      RingCovers(ring, n, stamp, now, b);
    }
  }

  lemma MissedAll(s: seq<Buf>, ring: seq<nat>, n: nat, stamp: seq<nat>, now: nat, dev: nat, blockno: nat)
    requires AgesOk(ring, n, stamp, now) && n <= |s| && Missed(s, ring, |ring|, dev, blockno)
    ensures Uncached(s, n, dev, blockno)
  {
    forall b: nat | b < n
      ensures !Caches(s[b], dev, blockno)
    {
      RingCovers(ring, n, stamp, now, b);
    }
  }

  lemma UsedAll(s: seq<Buf>, ring: seq<nat>, n: nat, stamp: seq<nat>, now: nat)
    requires AgesOk(ring, n, stamp, now) && n <= |s| && UsedFrom(s, ring, 0)
    ensures AllUsed(s, n)
  {
    forall b: nat | b < n
      ensures s[b].refcnt > 0
    {
      RingCovers(ring, n, stamp, now, b);
    }
  }

  lemma Following(s: seq<Buf>, ring: seq<nat>, i: nat)
    requires Circle(s, ring) && i < |ring|
    ensures ring[i] < |s| && s[ring[i]].next == ring[Succ(|ring|, i)]
    ensures s[ring[Succ(|ring|, i)]].prev == ring[i]
  {
    assert LinkAt(s, ring, i);
  }

  lemma RingShape(s: seq<Buf>, ring: seq<nat>, n: nat, stamp: seq<nat>, now: nat, i: nat)
    requires Circle(s, ring) && AgesOk(ring, n, stamp, now) && i < |ring|
    ensures |ring| == n + 1 && ring[0] == n && ring[i] < |s| && (i > 0 ==> ring[i] < n) && (ring[i] == n <==> i == 0)
  {
  }

  // ----- init_bcache

  /** The first i buffers are in the list, the last one pushed in front. */
  ghost predicate Started(ring: seq<nat>, n: nat, stamp: seq<nat>, now: nat, i: nat)
  {
    && now == |stamp| == i <= n && |ring| == i + 1 && ring[0] == n
    && (forall k: nat | 0 < k < |ring| :: ring[k] == i - k)
    && (forall b: nat | b < i :: stamp[b] == b)
  }

  lemma StartNext(ring: seq<nat>, n: nat, stamp: seq<nat>, now: nat, i: nat)
    requires Started(ring, n, stamp, now, i) && i < n
    ensures i !in ring && Started(InFront(ring, i), n, stamp + [now], now + 1, i + 1)
  {
  }

  lemma AllStarted(ring: seq<nat>, n: nat, stamp: seq<nat>, now: nat)
    requires Started(ring, n, stamp, now, n)
    ensures AgesOk(ring, n, stamp, now)
  {
    forall b: nat | b < n
      ensures b in ring
    {
      assert ring[n - b] == b;
    }
  }

  lemma HeadAlone(s: seq<Buf>, n: nat)
    requires n < |s| && s[n].next == n == s[n].prev
    ensures Circle(s, [n])
  {
    assert LinkAt(s, [n], 0);
  }

  predicate Blank(b: Buf) { b.dev == 0 && !b.vaild && b.sk == -1 && b.refcnt == 0 }

  lemma BlankFields(s: seq<Buf>, t: seq<Buf>)
    requires SameFields(s, t) && forall b: nat | b < |s| :: Blank(s[b])
    ensures forall b: nat | b < |t| :: Blank(t[b])
  {
    forall b: nat | b < |t|
      ensures Blank(t[b])
    {
      assert Blank(s[b]) && Bare(s[b]) == Bare(t[b]);
    }
  }

  lemma BlankOk(s: seq<Buf>, n: nat, disk: map<nat, Block>)
    requires n <= |s| && forall b: nat | b < |s| :: Blank(s[b])
    ensures UsersOk(s, n, map[]) && KeysOk(s, n) && Coherent(s, n, map[], disk, {})
  {
    forall b: nat | b < n
      ensures BufOk(s[b], b, map[]) && BlockOk(s[b], map[], disk, {})
    {
      assert Blank(s[b]);
      assert UsersOf(map[], b) == {};
    }
    assert forall b: nat | b < n :: Blank(s[b]);
  }
}
