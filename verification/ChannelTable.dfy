/** The channel table: round-robin allocation over the 16-bit channel ids. */
module ChannelTableModule {
  import opened MultiplexerModule

  const CHANNELS := 0x1_0000

  datatype Table = Table(fds: map<Channel, int>, next: Channel)

  const EMPTY := Table(map[], 0)

  /** `n` places further, in 16 bits. */
  function Plus(c: Channel, n: nat): Channel { (c + n) % CHANNELS }

  /** How many places further `b` is than `a`. */
  function Gap(a: Channel, b: Channel): nat { (b - a) % CHANNELS }

  lemma PlusGap(a: Channel, b: Channel, n: nat)
    ensures Plus(a, Gap(a, b)) == b && Gap(a, b) < CHANNELS
    ensures n < CHANNELS ==> Gap(a, Plus(a, n)) == n
  {
  }

  /** The channel the scan finds from its `i`-th probe on. */
  function Scan(t: Table, i: nat): (r: Option<Channel>)
    requires i <= CHANNELS
    ensures r.Some? ==>
      && r.value !in t.fds && i <= Gap(t.next, r.value)
      && forall k :: i <= k < Gap(t.next, r.value) ==> Plus(t.next, k) in t.fds
    ensures r.None? ==> forall k :: i <= k < CHANNELS ==> Plus(t.next, k) in t.fds
    decreases CHANNELS - i
  {
    if i == CHANNELS then None
    else if Plus(t.next, i) !in t.fds then
      PlusGap(t.next, t.next, i);
      Some(Plus(t.next, i))
    else Scan(t, i + 1)
  }

  datatype Op = Allocate(fd: int) | Insert(channel: Channel, fd: int) | Remove(channel: Channel)

  function Apply(t: Table, op: Op): Table {
    match op
    case Allocate(fd) =>
      var r := Scan(t, 0);
      if r.None? then t else Table(t.fds[r.value := fd], Plus(r.value, 1))
    case Insert(c, fd) => if c in t.fds then t else t.(fds := t.fds[c := fd])
    case Remove(c) => t.(fds := t.fds - {c})
  }

  class ChannelTable {
    var channelToFd: map<Channel, int>
    var nextChannel: Channel

    ghost function Contents(): Table
      reads this
    {
      Table(channelToFd, nextChannel)
    }

    constructor ()
      ensures Contents() == EMPTY
    {
      channelToFd, nextChannel := map[], 0;
    }

    method Allocate(fd: int) returns (r: Option<Channel>)
      modifies this
      ensures r == Scan(old(Contents()), 0) && Contents() == Apply(old(Contents()), Op.Allocate(fd))
    {
      var i := 0;
      while i < CHANNELS
        invariant 0 <= i <= CHANNELS && Contents() == old(Contents())
        invariant Scan(Contents(), 0) == Scan(Contents(), i)
      {
        var channel := (nextChannel + i) % CHANNELS;
        if channel !in channelToFd {
          channelToFd := channelToFd[channel := fd];
          nextChannel := (channel + 1) % CHANNELS;
          return Some(channel);
        }
        i := i + 1;
      }
      return None;
    }

    method Insert(channel: Channel, fd: int) returns (inserted: bool)
      modifies this
      ensures inserted <==> channel !in old(channelToFd)
      ensures Contents() == Apply(old(Contents()), Op.Insert(channel, fd))
    {
      if channel in channelToFd {
        return false;
      }
      channelToFd := channelToFd[channel := fd];
      return true;
    }

    method Get(channel: Channel) returns (fd: Option<int>)
      ensures fd == if channel in channelToFd then Some(channelToFd[channel]) else None
    {
      return if channel in channelToFd then Some(channelToFd[channel]) else None;
    }

    method Remove(channel: Channel) returns (fd: Option<int>)
      modifies this
      ensures fd == if channel in old(channelToFd) then Some(old(channelToFd)[channel]) else None
      ensures Contents() == Apply(old(Contents()), Op.Remove(channel))
    {
      if channel !in channelToFd {
        assert channelToFd - {channel} == channelToFd;
        return None;
      }
      fd := Some(channelToFd[channel]);
      channelToFd := channelToFd - {channel};
    }
  }

  /** Allocation fails if and only if every channel is bound, and never returns a bound one. */
  lemma AllocatesWhileFree(t: Table)
    ensures Scan(t, 0).None? <==> forall c: Channel :: c in t.fds
    ensures Scan(t, 0).Some? ==> Scan(t, 0).value !in t.fds
  {
    if Scan(t, 0).None? {
      forall c: Channel ensures c in t.fds {
        PlusGap(t.next, c, 0);
      }
    }
  }

  // ---- Reuse

  function RunTable(ops: seq<Op>): Table {
    if ops == [] then EMPTY else Apply(RunTable(ops[..|ops| - 1]), ops[|ops| - 1])
  }

  /** Operation `k` allocated channel `c`. */
  predicate HandedOut(ops: seq<Op>, k: int, c: Channel) {
    0 <= k < |ops| && ops[k].Allocate? && Scan(RunTable(ops[..k]), 0) == Some(c)
  }

  /** The scan of operation `k` came by channel `c` and found it bound. */
  predicate FoundBound(ops: seq<Op>, k: int, c: Channel) {
    0 <= k < |ops| && ops[k].Allocate? &&
    var t := RunTable(ops[..k]);
    var r := Scan(t, 0);
    c in t.fds && (r.Some? ==> Gap(t.next, c) < Gap(t.next, r.value))
  }

  ghost predicate Met(ops: seq<Op>, i: int, j: int, d: Channel) {
    exists k :: i < k < j && (HandedOut(ops, k, d) || FoundBound(ops, k, d))
  }

  lemma MetMore(ops: seq<Op>, i: int, k: int, d: Channel)
    requires i < k
    ensures Met(ops, i, k + 1, d) <==> Met(ops, i, k, d) || HandedOut(ops, k, d) || FoundBound(ops, k, d)
  {
    hide HandedOut, FoundBound;
  }

  /** Places between channels add up as long as they do not pass the target. */
  lemma GapSplit(a: Channel, p: Channel, d: Channel)
    requires Gap(a, p) <= Gap(a, d)
    ensures Gap(p, d) == Gap(a, d) - Gap(a, p)
  {
  }

  lemma GapNext(a: Channel, p: Channel, r: Channel)
    ensures Gap(a, Plus(r, 1)) == (Gap(a, p) + Gap(p, r) + 1) % CHANNELS
  {
  }

  lemma GapPast(a: Channel, p: Channel, r: Channel, d: Channel)
    requires Gap(a, p) <= Gap(a, d) && Gap(p, r) < Gap(p, d)
    ensures Gap(a, Plus(r, 1)) <= Gap(a, d)
  {
    GapSplit(a, p, d);
    GapNext(a, p, r);
    PlusGap(a, d, 0);
    hide Gap, Plus;
  }

  lemma RunNext(ops: seq<Op>, k: nat)
    requires k < |ops|
    ensures RunTable(ops[..k + 1]) == Apply(RunTable(ops[..k]), ops[k])
  {
    assert ops[..k + 1][..k] == ops[..k];
  }

  /** One scan, from a cursor that has not passed `d`: it meets `d` or still has not passed it. */
  lemma ScanMeets(ops: seq<Op>, k: nat, a: Channel, d: Channel)
    requires k < |ops| && Gap(a, RunTable(ops[..k]).next) <= Gap(a, d)
    ensures HandedOut(ops, k, d) || FoundBound(ops, k, d) || Gap(a, RunTable(ops[..k + 1]).next) <= Gap(a, d)
  {
    RunNext(ops, k);
    var t := RunTable(ops[..k]);
    hide RunTable, Plus;
    if ops[k].Allocate? {
      var r := Scan(t, 0);
      AllocatesWhileFree(t);
      PlusGap(t.next, d, 0);
      if r.Some? {
        PlusGap(t.next, r.value, 0);
        if Gap(t.next, r.value) < Gap(t.next, d) {
          GapPast(a, t.next, r.value, d);
        }
      }
    }
  }

  lemma CursorAfter(ops: seq<Op>, i: nat, c: Channel, d: Channel)
    requires HandedOut(ops, i, c)
    ensures Gap(Plus(c, 1), RunTable(ops[..i + 1]).next) <= Gap(Plus(c, 1), d)
  {
    RunNext(ops, i);
    PlusGap(Plus(c, 1), d, 0);
    hide RunTable;
  }

  /** Since operation `i` handed out `c`, the cursor has met `d` or has not passed it yet. */
  lemma {:induction false} NotPassed(ops: seq<Op>, i: nat, k: nat, c: Channel, d: Channel)
    requires HandedOut(ops, i, c) && i < k <= |ops|
    ensures Met(ops, i, k, d) || Gap(Plus(c, 1), RunTable(ops[..k]).next) <= Gap(Plus(c, 1), d)
    decreases k
  {
    hide HandedOut, FoundBound, RunTable, Met, Gap, Plus;
    if k == i + 1 {
      CursorAfter(ops, i, c, d);
    } else {
      NotPassed(ops, i, k - 1, c, d);
      MetMore(ops, i, k - 1, d);
      if !Met(ops, i, k - 1, d) {
        ScanMeets(ops, k - 1, Plus(c, 1), d);
      }
    }
  }

  /** Behind `c`, channel `c` itself comes last. */
  lemma LastBehind(c: Channel, d: Channel)
    requires d != c
    ensures Gap(Plus(c, 1), d) < Gap(Plus(c, 1), c)
  {
  }

  lemma LastScan(t: Table, c: Channel, d: Channel)
    requires Scan(t, 0) == Some(c) && d != c && Gap(Plus(c, 1), t.next) <= Gap(Plus(c, 1), d)
    ensures d in t.fds && Gap(t.next, d) < Gap(t.next, c)
  {
    var a := Plus(c, 1);
    LastBehind(c, d);
    GapSplit(a, t.next, d);
    GapSplit(a, t.next, c);
    hide Gap, Plus;
    PlusGap(t.next, d, 0);
  }

  /**
   * Between two allocations of the same channel every other channel was handed out
   * or found bound, the scan that ends with the second one included.
   */
  lemma {:induction false} ReuseDistance(ops: seq<Op>, i: nat, j: nat, c: Channel, d: Channel)
    requires i < j && HandedOut(ops, i, c) && HandedOut(ops, j, c) && d != c
    ensures Met(ops, i, j + 1, d)
  {
    hide Gap, Plus, Scan, RunTable;
    NotPassed(ops, i, j, c, d);
    if !Met(ops, i, j, d) {
      LastScan(RunTable(ops[..j]), c, d);
      assert FoundBound(ops, j, d);
    }
  }

  // ---- Which descriptor a channel is bound to

  /** Operation `k` bound channel `c`: it allocated it, or inserted it while it was unbound. */
  predicate Binds(ops: seq<Op>, k: int, c: Channel) {
    0 <= k < |ops| &&
    match ops[k]
    case Allocate(_) => HandedOut(ops, k, c)
    case Insert(d, _) => d == c && c !in RunTable(ops[..k]).fds
    case Remove(_) => false
  }

  /** And it has not been removed since. */
  predicate BoundBy(ops: seq<Op>, k: int, c: Channel) {
    Binds(ops, k, c) && forall j :: k < j < |ops| ==> ops[j] != Remove(c)
  }

  lemma ApplyBinds(t: Table, op: Op, c: Channel)
    ensures var q := Apply(t, op);
      var binding := (op.Allocate? && Scan(t, 0) == Some(c)) || (op.Insert? && op.channel == c && c !in t.fds);
      && (binding ==> c in q.fds && q.fds[c] == op.fd && c !in t.fds)
      && (op == Remove(c) ==> c !in q.fds)
      && (!binding && op != Remove(c) ==> (c in q.fds <==> c in t.fds) && (c in t.fds ==> q.fds[c] == t.fds[c]))
  {
    hide Scan;
    AllocatesWhileFree(t);
  }

  lemma BindsEarlier(ops: seq<Op>, k: int, c: Channel)
    requires ops != [] && k < |ops| - 1
    ensures Binds(ops, k, c) <==> Binds(ops[..|ops| - 1], k, c)
  {
    if 0 <= k {
      assert ops[..|ops| - 1][..k] == ops[..k];
    }
    hide Scan, RunTable;
  }

  lemma BoundByEarlier(ops: seq<Op>, k: int, c: Channel)
    requires ops != [] && k < |ops| - 1
    ensures BoundBy(ops, k, c) <==> BoundBy(ops[..|ops| - 1], k, c) && ops[|ops| - 1] != Remove(c)
  {
    var init, n := ops[..|ops| - 1], |ops| - 1;
    BindsEarlier(ops, k, c);
    assert Binds(ops, k, c) ==> 0 <= k;
    hide Binds;
    assert forall j :: 0 <= j < n ==> init[j] == ops[j];
  }

  lemma BindsInside(ops: seq<Op>, k: int, c: Channel)
    requires BoundBy(ops, k, c)
    ensures 0 <= k < |ops| && !ops[k].Remove?
  {
    hide HandedOut, RunTable;
  }

  lemma BindsLast(ops: seq<Op>, c: Channel)
    requires ops != []
    ensures var t, op := RunTable(ops[..|ops| - 1]), ops[|ops| - 1];
      && RunTable(ops) == Apply(t, op)
      && (BoundBy(ops, |ops| - 1, c) <==>
            (op.Allocate? && Scan(t, 0) == Some(c)) || (op.Insert? && op.channel == c && c !in t.fds))
  {
    hide Apply, Scan;
  }

  /**
   * After any operations a channel is bound if and only if one of them bound it and
   * none has removed it since, and then to the descriptor of that one.
   */
  lemma {:induction false} BoundToLast(ops: seq<Op>, c: Channel)
    ensures c in RunTable(ops).fds <==> exists k :: BoundBy(ops, k, c)
    ensures forall k :: BoundBy(ops, k, c) ==> c in RunTable(ops).fds && RunTable(ops).fds[c] == ops[k].fd
  {
    if ops == [] {
      assert forall k :: !BoundBy(ops, k, c);
    } else {
      var init, op, n := ops[..|ops| - 1], ops[|ops| - 1], |ops| - 1;
      BoundToLast(init, c);
      BindsLast(ops, c);
      ApplyBinds(RunTable(init), op, c);
      hide Apply, RunTable, BoundBy, Scan;
      forall k | k < n ensures BoundBy(ops, k, c) <==> BoundBy(init, k, c) && op != Remove(c) {
        BoundByEarlier(ops, k, c);
      }
      if c in RunTable(ops).fds && !BoundBy(ops, n, c) {
        var k :| BoundBy(init, k, c);
        BindsInside(init, k, c);
        assert BoundBy(ops, k, c);
      }
      forall k | BoundBy(ops, k, c) ensures c in RunTable(ops).fds && RunTable(ops).fds[c] == ops[k].fd {
        BindsInside(ops, k, c);
        assert k < n ==> BoundBy(init, k, c);
      }
    }
  }
}
