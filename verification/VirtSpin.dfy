/** The loop of virt_disk_rw around alloc3_desc, which holds disklock: when it is entered without descriptors it stays. */
module VirtSpin {
  import opened VirtRing
  import opened Virt

  /** What the device and the handler do between two rounds of the loop.  Nobody else gets disklock. */
  datatype Move = Nothing | Take | Post(i: nat, result: nat) | Handle

  /** The heads that the device has read and not answered. */
  ghost predicate InDevice(reqs: map<nat, Req>, taken: seq<nat>)
  {
    && (forall i, j | 0 <= i < j < |taken| :: taken[i] != taken[j])
    && forall i | 0 <= i < |taken| :: taken[i] in reqs && reqs[taken[i]].phase == Taken
  }

  /** However long the loop goes on and whatever device and handler do meanwhile, no round finds three descriptors. */
  method Spin(d: Disk, moves: seq<Move>, inDevice: seq<nat>) returns (got: bool)
    requires d.Valid() && |FreeUnits(d.free[..])| < 3 && InDevice(d.reqs, inDevice)
    modifies d`owner, d`reqs, d`queued, d`posted, d`takenIdx, d`doneIdx, d`usedIdx, d`done, d`busy, d.free, d.desc, d.used, d.status
    ensures d.Valid() && !got && d.free[..] == old(d.free[..]) && d.desc[..] == old(d.desc[..])
  {
    hide FreeUnits, Books, RingState;
    var taken := inDevice;
    for i := 0 to |moves|
      invariant d.Valid() && d.free[..] == old(d.free[..]) && d.desc[..] == old(d.desc[..]) && InDevice(d.reqs, taken)
    {
      var ok, a, b, c := d.Alloc3();
      if ok == 0 {
        return true;
      }
      taken := Step(d, moves[i], taken);
    }
    return false;
  }

  method Step(d: Disk, m: Move, taken: seq<nat>) returns (now: seq<nat>)
    requires d.Valid() && InDevice(d.reqs, taken)
    modifies d`reqs, d`queued, d`posted, d`takenIdx, d`doneIdx, d`usedIdx, d`done, d`busy, d.used, d.status
    ensures d.Valid() && InDevice(d.reqs, now)
  {
    hide Books, RingState;
    now := taken;
    PhasesOf(d);
    match m
    case Nothing =>
    case Take =>
      if d.takenIdx != d.availIdx {
        QueueThere(d);
        var h := d.DeviceTake();
        now := taken + [h];
      }
    case Post(i, result) =>
      if i < |taken| {
        d.DevicePost(taken[i], result);
        now := taken[..i] + taken[i + 1..];
      }
    case Handle =>
      var r := d.Isr();
  }

  /** Heads in the rings are not in the device's hands. */
  lemma PhasesOf(d: Disk)
    requires d.Valid()
    ensures forall h | h in d.queued :: h in d.reqs && d.reqs[h].phase == Queued
    ensures forall h | h in d.posted :: h in d.reqs && d.reqs[h].phase == Posted
  {
    hide ChainsOk, BuffersOk, RingState;
  }

  /** The indices differ only when a head is waiting. */
  lemma QueueThere(d: Disk)
    requires d.Valid() && d.takenIdx != d.availIdx
    ensures d.queued != []
  {
    hide Books;
    BooksSizes(d.num, d.free[..], d.desc[..], d.owner, d.reqs, d.ops[..], d.info[..], d.busy, d.queued, d.posted);
    BooksBound(d.num, d.free[..], d.desc[..], d.owner, d.reqs, d.ops[..], d.info[..], d.busy, d.queued, d.posted);
    NumOk(d);
    StateSmall(d.num, d.avail[..], d.availIdx, d.takenIdx, d.sent, d.queued);
  }

  lemma NumOk(d: Disk)
    requires d.Valid()
    ensures d.num >= 3 && 65536 % d.num == 0
  {
  }

  /** The loop is reached: one request for every three descriptors, and one more. */
  method RunOut(num: nat) returns (d: Disk, r: Sent)
    requires num >= 3 && 65536 % num == 0
    ensures fresh(d) && d.Valid() && d.num == num && |d.reqs| == num / 3 && r == Spins
  {
    hide Books, RingState, FreeUnits;
    d := new Disk(num);
    AllFree(d.free[..]);
    for i := 0 to num / 3
      invariant d.Valid() && d.num == num && fresh(d) && fresh(d.free) && fresh(d.desc) && fresh(d.ops) && fresh(d.info)
      invariant fresh(d.status) && fresh(d.avail) && fresh(d.used)
      invariant |FreeUnits(d.free[..])| == num - 3 * i && |d.reqs| == i && forall h | h in d.reqs :: d.reqs[h].buf < i
    {
      r := d.Submit(i, 0, false);
    }
    r := d.Submit(num / 3, 0, false);
  }

  lemma AllFree(free: seq<bool>)
    requires forall k: nat | k < |free| :: free[k]
    ensures |FreeUnits(free)| == |free|
  {
    RangeSize(|free|, FreeUnits(free));
  }
}
