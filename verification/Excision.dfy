/**
 * Removing what a call denied. The recorded ranges are ascending, disjoint and
 * in bounds, each is one whole instruction, and deleting them leaves precisely
 * what the fold calls the output of the call.
 */
module Excision {
  import opened Framing

  /** Ascending, disjoint, non-empty and ending at or before `n`. */
  predicate Ordered(ranges: seq<(int, int)>, n: int) {
    && (forall k :: 0 <= k < |ranges| ==> 0 <= ranges[k].0 && 0 < ranges[k].1 && ranges[k].0 + ranges[k].1 <= n)
    && (forall j, k :: 0 <= j < k < |ranges| ==> ranges[j].0 + ranges[j].1 <= ranges[k].0)
  }

  lemma OrderedInit(ranges: seq<(int, int)>, n: int)
    requires ranges != [] && Ordered(ranges, n)
    ensures Ordered(ranges[..|ranges| - 1], ranges[|ranges| - 1].0)
    ensures 0 <= ranges[|ranges| - 1].0 < ranges[|ranges| - 1].0 + ranges[|ranges| - 1].1 <= n
  {
    var last := ranges[|ranges| - 1];
    forall k | 0 <= k < |ranges| - 1 ensures ranges[k].0 + ranges[k].1 <= last.0 {
    }
  }

  /** The first `n` bytes of `s` without the given ranges. */
  function Remaining(s: string, ranges: seq<(int, int)>, n: int): string
    requires 0 <= n <= |s| && Ordered(ranges, n)
    decreases |ranges|
  {
    if ranges == [] then s[..n] else
    var last := ranges[|ranges| - 1];
    Remaining(s, ranges[..|ranges| - 1], last.0) + s[last.0 + last.1..n]
  }

  /** The bytes outside all ranges, one by one: an independent reading of `Remaining`. */
  function Outside(s: string, ranges: seq<(int, int)>, n: nat): string
    requires n <= |s|
  {
    if n == 0 then ""
    else if exists k :: 0 <= k < |ranges| && ranges[k].0 <= n - 1 < ranges[k].0 + ranges[k].1
    then Outside(s, ranges, n - 1)
    else Outside(s, ranges, n - 1) + [s[n - 1]]
  }

  lemma {:induction false} OutsidePrefix(s: string, ranges: seq<(int, int)>, n: nat, m: nat)
    requires m <= n <= |s| && Ordered(ranges, n)
    requires forall k :: 0 <= k < |ranges| ==> ranges[k].0 + ranges[k].1 <= m
    ensures Outside(s, ranges, n) == Outside(s, ranges, m) + s[m..n]
  {
    if m < n {
      OutsidePrefix(s, ranges, n - 1, m);
      assert s[m..n] == s[m..n - 1] + [s[n - 1]];
    }
  }

  lemma {:induction false} OutsideRange(s: string, ranges: seq<(int, int)>, n: nat, k: nat)
    requires n <= |s| && k < |ranges| && Ordered(ranges, |s|)
    requires ranges[k].0 <= n <= ranges[k].0 + ranges[k].1
    ensures Outside(s, ranges, n) == Outside(s, ranges, ranges[k].0)
  {
    if n > ranges[k].0 {
      OutsideRange(s, ranges, n - 1, k);
    }
  }

  lemma {:induction false} OutsideInit(s: string, ranges: seq<(int, int)>, n: nat)
    requires ranges != [] && n <= ranges[|ranges| - 1].0 <= |s| && Ordered(ranges, |s|)
    ensures Outside(s, ranges, n) == Outside(s, ranges[..|ranges| - 1], n)
  {
    if n > 0 {
      OutsideInit(s, ranges, n - 1);
    }
  }

  /** Before the last range, and behind it. */
  lemma OutsideLast(s: string, ranges: seq<(int, int)>, n: nat)
    requires ranges != [] && n <= |s| && Ordered(ranges, n)
    ensures var last := ranges[|ranges| - 1];
      && Ordered(ranges[..|ranges| - 1], last.0) && 0 <= last.0 < last.0 + last.1 <= n
      && Outside(s, ranges, n) == Outside(s, ranges[..|ranges| - 1], last.0) + s[last.0 + last.1..n]
  {
    hide Outside;
    var last := ranges[|ranges| - 1];
    OrderedInit(ranges, n);
    OrderedWithin(ranges, n, |s|);
    OutsideInit(s, ranges, last.0);
    OutsideRange(s, ranges, last.0 + last.1, |ranges| - 1);
    OrderedBefore(ranges, n);
    hide Ordered;
    OutsidePrefix(s, ranges, n, last.0 + last.1);
  }

  lemma OrderedWithin(ranges: seq<(int, int)>, n: int, m: int)
    requires Ordered(ranges, n) && n <= m
    ensures Ordered(ranges, m)
  {
  }

  lemma OrderedBefore(ranges: seq<(int, int)>, n: int)
    requires ranges != [] && Ordered(ranges, n)
    ensures var last := ranges[|ranges| - 1];
      forall k :: 0 <= k < |ranges| ==> ranges[k].0 + ranges[k].1 <= last.0 + last.1
  {
  }

  lemma {:induction false} RemainingIsOutside(s: string, ranges: seq<(int, int)>, n: nat)
    requires n <= |s| && Ordered(ranges, n)
    ensures Remaining(s, ranges, n) == Outside(s, ranges, n)
    decreases |ranges|
  {
    if ranges == [] {
      OutsidePrefix(s, ranges, n, 0);
      assert s[0..n] == s[..n];
    } else {
      var last := ranges[|ranges| - 1];
      OutsideLast(s, ranges, n);
      hide Outside, Ordered;
      RemainingIsOutside(s, ranges[..|ranges| - 1], last.0);
    }
  }

  lemma {:induction false} RemainingNext(s: string, ranges: seq<(int, int)>, n: int)
    requires 0 <= n < |s| && Ordered(ranges, n)
    ensures Ordered(ranges, n + 1) && Remaining(s, ranges, n + 1) == Remaining(s, ranges, n) + [s[n]]
  {
    if ranges != [] {
      var last := ranges[|ranges| - 1];
      assert s[last.0 + last.1..n + 1] == s[last.0 + last.1..n] + [s[n]];
    }
  }

  /** The ranges of a call in progress over `s` describe its output so far. */
  predicate Accounts<P>(r: Run<P>, s: string) {
    && r.pos == |s|
    && r.start <= r.pos
    && Ordered(r.ranges, r.pos)
    && r.kept + r.pending == Remaining(s, r.ranges, r.pos)
    && (r.start >= 0 ==> Ordered(r.ranges, r.start) && r.kept == Remaining(s, r.ranges, r.start))
  }

  lemma {:induction false} RemainingPrefix(s: string, t: string, ranges: seq<(int, int)>, n: int)
    requires 0 <= n <= |s| && Ordered(ranges, n)
    ensures Remaining(s + t, ranges, n) == Remaining(s, ranges, n)
    decreases |ranges|
  {
    if ranges == [] {
      assert (s + t)[..n] == s[..n];
    } else {
      var last := ranges[|ranges| - 1];
      RemainingPrefix(s, t, ranges[..|ranges| - 1], last.0);
      assert (s + t)[last.0 + last.1..n] == s[last.0 + last.1..n];
    }
  }

  /** A byte that neither opens nor closes an instruction. */
  predicate Continues<P>(r: Run<P>, q: Run<P>, c: char) {
    && q.pos == r.pos + 1 && q.ranges == r.ranges
    && q.kept + q.pending == r.kept + r.pending + [c]
    && (q.start == -1 || (q.start == r.start && q.kept == r.kept))
  }

  /** The first digit of an instruction. */
  predicate Opens<P>(r: Run<P>, q: Run<P>, c: char) {
    && q.pos == r.pos + 1 && q.ranges == r.ranges
    && r.pending == "" && q.pending == [c] && q.kept == r.kept && q.start == r.pos
  }

  /** The ';' of a denied instruction. */
  predicate Denies<P>(r: Run<P>, q: Run<P>) {
    && q.pos == r.pos + 1 && r.start >= 0 && q.start == -1
    && q.ranges == r.ranges + [(r.start, r.pos - r.start + 1)]
    && q.kept == r.kept && q.pending == ""
  }

  lemma StepKind<P>(h: Hooks<P>, r: Run<P>, c: char)
    requires InCall(h, r) && !Step(h, r, c).live.cursor.Corrupted?
    ensures var q := Step(h, r, c); Continues(r, q, c) || Opens(r, q, c) || Denies(r, q)
  {
    assert r.kept + (r.pending + [c]) == r.kept + r.pending + [c] == r.kept + r.pending + [c] + "";
    assert AtBoundary(r.live) ==> r.pending + [c] == [c];
  }

  lemma ContinueAccounts<P>(r: Run<P>, q: Run<P>, s: string, c: char)
    requires Accounts(r, s) && Continues(r, q, c)
    ensures Accounts(q, s + [c])
  {
    RemainingPrefix(s, [c], r.ranges, r.pos);
    RemainingNext(s + [c], r.ranges, r.pos);
    if q.start >= 0 {
      RemainingPrefix(s, [c], r.ranges, r.start);
    }
    hide Remaining, Ordered;
  }

  lemma OpenAccounts<P>(r: Run<P>, q: Run<P>, s: string, c: char)
    requires Accounts(r, s) && Opens(r, q, c)
    ensures Accounts(q, s + [c])
  {
    assert r.kept + "" == r.kept;
    RemainingPrefix(s, [c], r.ranges, r.pos);
    RemainingNext(s + [c], r.ranges, r.pos);
    hide Remaining, Ordered;
  }

  lemma OrderedCut(ranges: seq<(int, int)>, start: nat, n: nat)
    requires 0 < n && Ordered(ranges, start)
    ensures Ordered(ranges + [(start, n)], start + n)
  {
    assert forall k :: 0 <= k < |ranges| ==> (ranges + [(start as int, n as int)])[k] == ranges[k];
  }

  /** A range that reaches up to the end leaves what was before it. */
  lemma RemainingCut(s: string, ranges: seq<(int, int)>, start: nat, n: nat)
    requires 0 < n && start + n <= |s| && Ordered(ranges, start)
    ensures Ordered(ranges + [(start, n)], start + n)
    ensures Remaining(s, ranges + [(start, n)], start + n) == Remaining(s, ranges, start)
  {
    OrderedCut(ranges, start, n);
    hide Ordered;
    var more := ranges + [(start as int, n as int)];
    assert more[..|ranges|] == ranges && more[|ranges|] == (start as int, n as int);
    assert s[start + n..start + n] == "";
    assert Remaining(s, more, start + n) == Remaining(s, ranges, start) + "";
  }

  lemma DenyAccounts<P>(r: Run<P>, q: Run<P>, s: string, c: char)
    requires Accounts(r, s) && Denies(r, q)
    ensures Accounts(q, s + [c])
  {
    var n := r.pos - r.start + 1;
    assert 0 < n && r.start + n == q.pos == |s + [c]| && q.ranges == r.ranges + [(r.start, n)];
    OpenAt(r, s);
    hide Remaining, Ordered;
    RemainingPrefix(s, [c], r.ranges, r.start);
    RemainingCut(s + [c], r.ranges, r.start, n);
    assert q.kept + q.pending == q.kept;
  }

  lemma OpenAt<P>(r: Run<P>, s: string)
    requires Accounts(r, s) && r.start >= 0
    ensures r.start <= |s| && Ordered(r.ranges, r.start) && r.kept == Remaining(s, r.ranges, r.start)
  {
  }

  lemma StepAccounts<P>(h: Hooks<P>, r: Run<P>, s: string, c: char)
    requires InCall(h, r) && Accounts(r, s) && !Step(h, r, c).live.cursor.Corrupted?
    ensures Accounts(Step(h, r, c), s + [c])
  {
    var q := Step(h, r, c);
    StepKind(h, r, c);
    hide *;
    if Continues(r, q, c) {
      ContinueAccounts(r, q, s, c);
    } else if Opens(r, q, c) {
      OpenAccounts(r, q, s, c);
    } else {
      DenyAccounts(r, q, s, c);
    }
  }

  lemma {:induction false} CallAccounts<P>(h: Hooks<P>, live: Live<P>, s: string)
    requires Framed(h.tolerant, live.cursor) && !Call(h, live, s).live.cursor.Corrupted?
    ensures Accounts(Call(h, live, s), s)
  {
    if s != "" {
      var t := s[..|s| - 1];
      CallAccounts(h, live, t);
      FeedInCall(h, NewCall(live), t);
      assert s == t + [s[|s| - 1]];
      StepAccounts(h, Call(h, live, t), t, s[|s| - 1]);
    }
  }

  /** For every prefix of `s`: does the call rest at an instruction boundary after it? */
  function Boundaries<P>(h: Hooks<P>, live: Live<P>, s: string): (b: seq<bool>)
    ensures |b| == |s| + 1
  {
    (if s == "" then [] else Boundaries(h, live, s[..|s| - 1])) + [AtBoundary(Call(h, live, s).live)]
  }

  lemma {:induction false} BoundariesAt<P>(h: Hooks<P>, live: Live<P>, s: string, i: nat)
    requires i <= |s|
    ensures Boundaries(h, live, s)[i] == AtBoundary(Call(h, live, s[..i]).live)
  {
    if i == |s| {
      assert s[..i] == s;
    } else {
      BoundariesAt(h, live, s[..|s| - 1], i);
      assert s[..|s| - 1][..i] == s[..i];
    }
  }

  /** `s[from..to]` runs from the first digit of an opcode to the ';' of the same instruction. */
  predicate OneInstruction(b: seq<bool>, s: string, from: int, to: int) {
    && 0 <= from < to <= |s| < |b|
    && IsDigit(s[from]) && s[to - 1] == ';'
    && b[from] && b[to]
    && forall m :: from < m < to ==> !b[m]
  }

  /** An instruction was opened at `start` and is still open at the end of `s`. */
  predicate Open(b: seq<bool>, s: string, start: int) {
    && 0 <= start < |s| < |b| && IsDigit(s[start]) && b[start]
    && forall m :: start < m <= |s| ==> !b[m]
  }

  /** Every recorded range is one instruction, and `start` opens the current one. */
  predicate Spans(b: seq<bool>, s: string, ranges: seq<(int, int)>, start: int) {
    && (forall k :: 0 <= k < |ranges| ==> OneInstruction(b, s, ranges[k].0, ranges[k].0 + ranges[k].1))
    && (start >= 0 ==> Open(b, s, start))
  }

  lemma SpansProgress<P>(b: seq<bool>, s: string, c: char, r: Run<P>, q: Run<P>)
    requires Spans(b, s, r.ranges, r.start) && Progress(r, q, c) && r.pos == |s| == |b| - 1
    requires b[|s|] == AtBoundary(r.live)
    ensures Spans(b + [AtBoundary(q.live)], s + [c], q.ranges, q.start)
  {
    var b', t := b + [AtBoundary(q.live)], s + [c];
    forall k | 0 <= k < |r.ranges|
      ensures OneInstruction(b', t, r.ranges[k].0, r.ranges[k].0 + r.ranges[k].1)
    {
      assert OneInstruction(b, s, r.ranges[k].0, r.ranges[k].0 + r.ranges[k].1);
    }
    if r.start >= 0 && AtBoundary(q.live) {
      assert OneInstruction(b', t, r.start, |t|);
    } else if q.start >= 0 {
      assert Open(b', t, q.start);
    }
  }

  lemma {:induction false} CallSpans<P>(h: Hooks<P>, live: Live<P>, s: string)
    requires Framed(h.tolerant, live.cursor) && !Call(h, live, s).live.cursor.Corrupted?
    ensures Spans(Boundaries(h, live, s), s, Call(h, live, s).ranges, Call(h, live, s).start)
  {
    if s != "" {
      var t, c := s[..|s| - 1], s[|s| - 1];
      assert s == t + [c];
      CallSpans(h, live, t);
      FeedInCall(h, NewCall(live), t);
      StepProgress(h, Call(h, live, t), c);
      SpansProgress(Boundaries(h, live, t), t, c, Call(h, live, t), Call(h, live, s));
    }
  }

  /** `s[from..to]` runs from the first digit of an opcode at a boundary to the next boundary, right behind a ';'. */
  ghost predicate WholeInstruction<P>(h: Hooks<P>, live: Live<P>, s: string, from: int, to: int) {
    && 0 <= from < to <= |s| && IsDigit(s[from]) && s[to - 1] == ';'
    && AtBoundary(Call(h, live, s[..from]).live) && AtBoundary(Call(h, live, s[..to]).live)
    && forall m :: from < m < to ==> !AtBoundary(Call(h, live, s[..m]).live)
  }

  lemma {:induction false} RangeIsInstruction<P>(h: Hooks<P>, live: Live<P>, s: string, from: int, to: int)
    requires OneInstruction(Boundaries(h, live, s), s, from, to)
    ensures WholeInstruction(h, live, s, from, to)
  {
    hide Call;
    forall m: nat | m <= |s|
      ensures Boundaries(h, live, s)[m] == AtBoundary(Call(h, live, s[..m]).live)
    {
      BoundariesAt(h, live, s, m);
    }
  }

  lemma SpanAt(b: seq<bool>, s: string, ranges: seq<(int, int)>, start: int, k: nat)
    requires Spans(b, s, ranges, start) && k < |ranges|
    ensures OneInstruction(b, s, ranges[k].0, ranges[k].0 + ranges[k].1)
  {
    hide OneInstruction;
  }

  lemma {:induction false} RangesAreInstructions<P>(h: Hooks<P>, live: Live<P>, s: string)
    requires Framed(h.tolerant, live.cursor) && !Call(h, live, s).live.cursor.Corrupted?
    ensures var r := Call(h, live, s);
      forall k :: 0 <= k < |r.ranges| ==> WholeInstruction(h, live, s, r.ranges[k].0, r.ranges[k].0 + r.ranges[k].1)
  {
    hide *;
    CallSpans(h, live, s);
    var r := Call(h, live, s);
    forall k | 0 <= k < |r.ranges| ensures WholeInstruction(h, live, s, r.ranges[k].0, r.ranges[k].0 + r.ranges[k].1) {
      SpanAt(Boundaries(h, live, s), s, r.ranges, r.start, k);
      RangeIsInstruction(h, live, s, r.ranges[k].0, r.ranges[k].0 + r.ranges[k].1);
    }
  }

  /**
   * What a call denied: the ranges are ascending, disjoint and in bounds, each is
   * one whole instruction, and the bytes outside them are what the call lets through.
   */
  lemma DeniedRangesAreInstructions<P>(h: Hooks<P>, live: Live<P>, s: string)
    requires Framed(h.tolerant, live.cursor) && Clean(Call(h, live, s))
    ensures var r := Call(h, live, s);
      && Ordered(r.ranges, |s|)
      && (forall k :: 0 <= k < |r.ranges| ==>
            WholeInstruction(h, live, s, r.ranges[k].0, r.ranges[k].0 + r.ranges[k].1))
      && Output(r) == Outside(s, r.ranges, |s|)
  {
    CallAccounts(h, live, s);
    RangesAreInstructions(h, live, s);
    RemainingIsOutside(s, Call(h, live, s).ranges, |s|);
    hide Call, WholeInstruction, Ordered, Remaining, Outside;
  }
}
