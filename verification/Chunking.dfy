/**
 * Cutting a stream into datagrams. Each datagram is one Parse call followed by
 * the removal of the denied instructions; a call that ends corrupted stops the
 * channel. Compared with one call over the whole stream.
 */
module Chunking {
  import opened Framing

  /** The end hook does not look at the index of the byte being processed. */
  ghost predicate IndexFree<P(!new)>(h: Hooks<P>) {
    forall p: P, i: nat, j: nat :: h.end(p, i) == h.end(p, j)
  }

  /** `refused` collects, over all calls, the policy right after each denial. */
  datatype Chunked<P> = Chunked(live: Live<P>, out: string, refused: seq<P>, survived: bool)

  function RunChunks<P>(h: Hooks<P>, live: Live<P>, chunks: seq<string>): Chunked<P> {
    if chunks == [] then Chunked(live, "", [], !live.cursor.Corrupted?) else
    var c := RunChunks(h, live, chunks[..|chunks| - 1]);
    if !c.survived then c else
    var r := Call(h, c.live, chunks[|chunks| - 1]);
    if Clean(r) then Chunked(r.live, c.out + Output(r), c.refused + r.refused, true)
    else Chunked(Rest(r), c.out, c.refused, false)
  }

  /**
   * `y` is a call that took over from `x` at some cut: same live state, and the
   * same output once `base`, which earlier calls forwarded, is put in front, and
   * the same denials after those `before`.
   */
  ghost predicate Tracks<P>(x: Run<P>, y: Run<P>, base: string, before: seq<P>) {
    && x.live == y.live
    && x.denying == y.denying
    && x.kept + x.pending == base + y.kept + y.pending
    && x.refused == before + y.refused
    && (y.start >= 0 ==> x.start >= 0 && x.kept == base + y.kept && x.pending == y.pending
                         && x.pos - x.start == y.pos - y.start)
    && (AtBoundary(x.live) ==> x.pending == y.pending == "")
  }

  lemma JudgeTracks<P>(h: Hooks<P>, x: Run<P>, y: Run<P>, base: string, before: seq<P>, elem: string)
    requires Tracks(x, y, base, before) && !Judge(h, y, elem).live.cursor.Corrupted?
    requires y.live.cursor == Delim(elem)
    ensures Tracks(Judge(h, x, elem), Judge(h, y, elem), base, before)
  {
  }

  lemma CloseTracks<P(!new)>(h: Hooks<P>, x: Run<P>, y: Run<P>, base: string, before: seq<P>, c: char)
    requires IndexFree(h) && Tracks(x, y, base, before) && !y.live.cursor.Corrupted?
    requires !y.live.opcode && (y.denying ==> y.start >= 0)
    ensures Tracks(Close(h, x, c), Close(h, y, c), base, before)
  {
    if c != ';' {
      assert x.kept + (x.pending + [c]) == x.kept + x.pending + [c];
      assert base + y.kept + (y.pending + [c]) == base + y.kept + y.pending + [c];
    } else if !x.denying {
      assert h.end(x.live.policy, x.pos) == h.end(x.live.policy, y.pos);
      assert base + (y.kept + y.pending + [c]) + "" == base + y.kept + y.pending + [c];
    }
  }

  lemma AdvanceTracks<P>(h: Hooks<P>, x: Run<P>, y: Run<P>, base: string, before: seq<P>, c: char)
    requires Tracks(x, y, base, before) && (y.live.cursor.Start? || y.live.cursor.Length? || y.live.cursor.Data?)
    requires InCall(h, x) && InCall(h, y)
    requires !Step(h, y, c).live.cursor.Corrupted?
    ensures Tracks(Step(h, x, c), Step(h, y, c), base, before)
  {
    assert x.kept + (x.pending + [c]) == x.kept + x.pending + [c];
    assert base + y.kept + (y.pending + [c]) == base + y.kept + y.pending + [c];
    if AtBoundary(y.live) {
      assert x.kept + "" == x.kept && base + y.kept + "" == base + y.kept;
    }
  }

  lemma StepTracks<P(!new)>(h: Hooks<P>, x: Run<P>, y: Run<P>, base: string, before: seq<P>, c: char)
    requires IndexFree(h) && Tracks(x, y, base, before)
    requires InCall(h, x) && InCall(h, y)
    requires !Step(h, y, c).live.cursor.Corrupted?
    ensures Tracks(Step(h, x, c), Step(h, y, c), base, before)
  {
    if y.live.cursor.Delim? {
      JudgeTracks(h, x, y, base, before, y.live.cursor.elem);
      CloseTracks(h, Judge(h, x, y.live.cursor.elem), Judge(h, y, y.live.cursor.elem), base, before, c);
    } else if !y.live.cursor.Corrupted? {
      AdvanceTracks(h, x, y, base, before, c);
    }
  }

  lemma {:induction false} FeedTracks<P(!new)>(h: Hooks<P>, x: Run<P>, y: Run<P>, base: string, before: seq<P>, s: string)
    requires IndexFree(h) && Tracks(x, y, base, before)
    requires InCall(h, x) && InCall(h, y)
    requires !Feed(h, y, s).live.cursor.Corrupted?
    ensures Tracks(Feed(h, x, s), Feed(h, y, s), base, before)
  {
    if s != "" {
      var t := s[..|s| - 1];
      FeedInCall(h, x, t);
      FeedInCall(h, y, t);
      FeedTracks(h, x, y, base, before, t);
      StepTracks(h, Feed(h, x, t), Feed(h, y, t), base, before, s[|s| - 1]);
    }
  }

  /** Some denied instruction begins before the cut and ends after it. */
  predicate Crossed(ranges: seq<(int, int)>, cut: int) {
    exists k :: 0 <= k < |ranges| && ranges[k].0 < cut < ranges[k].0 + ranges[k].1
  }

  /** Ranges are only ever added at the end; an open denial turns into the next one. */
  ghost predicate Extends<P>(r: Run<P>, q: Run<P>) {
    && |r.ranges| <= |q.ranges| && q.ranges[..|r.ranges|] == r.ranges
    && (r.denying && |q.ranges| == |r.ranges| ==> q.denying && q.start == r.start)
    && (r.denying && |q.ranges| > |r.ranges| ==>
          q.ranges[|r.ranges|].0 == r.start)
    && (forall k :: |r.ranges| <= k < |q.ranges| ==> q.ranges[k].0 + q.ranges[k].1 > r.pos)
  }

  lemma ExtendsNext<P>(r: Run<P>, q: Run<P>, q': Run<P>, c: char)
    requires Extends(r, q) && Progress(q, q', c) && r.pos <= q.pos && (q.denying ==> q.start >= 0)
    requires q.denying ==> if AtBoundary(q'.live) then |q'.ranges| > |q.ranges| else q'.denying
    ensures Extends(r, q')
  {
  }

  lemma StepDenying<P>(h: Hooks<P>, r: Run<P>, c: char)
    requires InCall(h, r) && r.denying && !Step(h, r, c).live.cursor.Corrupted?
    ensures var q := Step(h, r, c); if AtBoundary(q.live) then |q.ranges| > |r.ranges| else q.denying
  {
  }

  lemma {:induction false} FeedExtends<P>(h: Hooks<P>, r: Run<P>, s: string)
    requires InCall(h, r) && !Feed(h, r, s).live.cursor.Corrupted?
    ensures Extends(r, Feed(h, r, s))
  {
    if s != "" {
      var t, c := s[..|s| - 1], s[|s| - 1];
      var q := Feed(h, r, t);
      assert Feed(h, r, s) == Step(h, q, c);
      hide Feed, Step, Extends;
      StepCorrupted(h, q, c);
      FeedInCall(h, r, t);
      FeedExtends(h, r, t);
      StepProgress(h, q, c);
      if q.denying {
        StepDenying(h, q, c);
      }
      ExtendsNext(r, q, Step(h, q, c), c);
    }
  }

  predicate Bounded<P>(r: Run<P>) {
    forall k :: 0 <= k < |r.ranges| ==> 0 <= r.ranges[k].0 < r.ranges[k].0 + r.ranges[k].1 <= r.pos
  }

  lemma {:induction false} FeedBounded<P>(h: Hooks<P>, r: Run<P>, s: string)
    requires InCall(h, r) && Bounded(r) && !Feed(h, r, s).live.cursor.Corrupted?
    ensures Bounded(Feed(h, r, s))
  {
    if s != "" {
      var t, c := s[..|s| - 1], s[|s| - 1];
      var q := Feed(h, r, t);
      assert Feed(h, r, s) == Step(h, q, c);
      hide Feed, Step;
      StepCorrupted(h, q, c);
      FeedInCall(h, r, t);
      FeedBounded(h, r, t);
      StepInCall(h, q, c);
      StepProgress(h, q, c);
    }
  }

  /** The call `y` began `cut` bytes into the call `x`. */
  predicate Offset<P>(x: Run<P>, y: Run<P>, cut: nat) {
    x.pos == y.pos + cut && (y.start < 0 ==> x.start < cut) && !Crossed(x.ranges, cut)
  }

  /** `x` denied an instruction that began before the cut and was still open there. */
  predicate Severed<P>(x: Run<P>, cut: nat) {
    (x.denying && x.start < cut <= x.pos) || Crossed(x.ranges, cut)
  }

  lemma StepSevered<P>(h: Hooks<P>, x: Run<P>, cut: nat, c: char)
    requires InCall(h, x) && Severed(x, cut) && !Step(h, x, c).live.cursor.Corrupted?
    ensures Severed(Step(h, x, c), cut)
  {
    var x' := Step(h, x, c);
    assert forall k :: 0 <= k < |x.ranges| ==> x'.ranges[k] == x.ranges[k];
    if Crossed(x.ranges, cut) {
      var k :| 0 <= k < |x.ranges| && x.ranges[k].0 < cut < x.ranges[k].0 + x.ranges[k].1;
      assert x'.ranges[k] == x.ranges[k];
    } else if |x'.ranges| > |x.ranges| {
      assert x'.ranges[|x.ranges|] == (x.start, x.pos - x.start + 1);
    }
  }

  /** Either the later call keeps tracking, or it failed exactly because the cut severed a denied instruction. */
  lemma {:induction false} FeedSplits<P(!new)>(h: Hooks<P>, x: Run<P>, y: Run<P>, base: string, before: seq<P>, cut: nat, s: string)
    requires IndexFree(h) && Tracks(x, y, base, before) && Offset(x, y, cut)
    requires InCall(h, x) && InCall(h, y) && !y.live.cursor.Corrupted?
    requires !Feed(h, x, s).live.cursor.Corrupted?
    ensures var x', y' := Feed(h, x, s), Feed(h, y, s);
      if y'.live.cursor.Corrupted? then Severed(x', cut) else Offset(x', y', cut) && Tracks(x', y', base, before)
  {
    if s != "" {
      var t, c := s[..|s| - 1], s[|s| - 1];
      FeedSplits(h, x, y, base, before, cut, t);
      FeedInCall(h, x, t);
      var xt, yt := Feed(h, x, t), Feed(h, y, t);
      if yt.live.cursor.Corrupted? {
        StepSevered(h, xt, cut, c);
      } else {
        FeedInCall(h, y, t);
        if Step(h, yt, c).live.cursor.Corrupted? {
          StepFails(h, xt, yt, base, before, cut, c);
        } else {
          StepTracks(h, xt, yt, base, before, c);
          StepOffset(h, xt, yt, base, before, cut, c);
        }
      }
    }
  }

  lemma StepOffset<P>(h: Hooks<P>, x: Run<P>, y: Run<P>, base: string, before: seq<P>, cut: nat, c: char)
    requires Tracks(x, y, base, before) && Offset(x, y, cut) && InCall(h, x) && InCall(h, y)
    requires !Step(h, x, c).live.cursor.Corrupted? && !Step(h, y, c).live.cursor.Corrupted?
    requires Tracks(Step(h, x, c), Step(h, y, c), base, before)
    ensures Offset(Step(h, x, c), Step(h, y, c), cut)
  {
    StepCorrupted(h, x, c);
    StepCorrupted(h, y, c);
    StepProgress(h, x, c);
    StepProgress(h, y, c);
    StepInCall(h, x, c);
    StepInCall(h, y, c);
    hide Step, InCall;
    var x' := Step(h, x, c);
    assert forall k :: 0 <= k < |x.ranges| ==> x'.ranges[k] == x.ranges[k];
    assert |x'.ranges| == |x.ranges| || (|x'.ranges| == |x.ranges| + 1 && x'.ranges[|x.ranges|].0 == x.start);
  }

  lemma StepFails<P>(h: Hooks<P>, x: Run<P>, y: Run<P>, base: string, before: seq<P>, cut: nat, c: char)
    requires Tracks(x, y, base, before) && Offset(x, y, cut) && InCall(h, x) && InCall(h, y)
    requires !Step(h, x, c).live.cursor.Corrupted? && Step(h, y, c).live.cursor.Corrupted?
    requires !y.live.cursor.Corrupted?
    ensures Severed(Step(h, x, c), cut)
  {
    var x' := Step(h, x, c);
    if c == ';' {
      assert x'.ranges[|x.ranges|] == (x.start, x.pos - x.start + 1);
    }
  }

  lemma StartsTracking<P>(h: Hooks<P>, ra: Run<P>)
    requires InCall(h, ra) && Bounded(ra) && Clean(ra)
    ensures InCall(h, NewCall(ra.live))
    ensures Tracks(ra, NewCall(ra.live), Output(ra), ra.refused) && Offset(ra, NewCall(ra.live), ra.pos)
  {
    assert Output(ra) + "" + "" == Output(ra);
  }

  /** A cut where the first call ends clean. */
  lemma CutClean<P(!new)>(h: Hooks<P>, ra: Run<P>, y: Run<P>, base: string, before: seq<P>, b: string)
    requires IndexFree(h) && InCall(h, ra) && InCall(h, y) && !y.live.cursor.Corrupted?
    requires Tracks(ra, y, base, before) && Offset(ra, y, ra.pos)
    ensures var whole, rb := Feed(h, ra, b), Feed(h, y, b);
      && (Clean(rb) <==> Clean(whole) && !Crossed(whole.ranges, ra.pos))
      && (Clean(rb) ==>
            rb.live == whole.live && base + Output(rb) == Output(whole) && before + rb.refused == whole.refused)
  {
    hide Feed;
    var whole, rb := Feed(h, ra, b), Feed(h, y, b);
    if Clean(rb) {
      FeedTracks(h, ra, y, base, before, b);
      assert base + rb.kept + rb.pending == base + (rb.kept + rb.pending);
    }
    if !whole.live.cursor.Corrupted? {
      FeedSplits(h, ra, y, base, before, ra.pos, b);
    }
  }

  /** One cut: the two calls survive exactly if the single call is clean and denied nothing across the cut. */
  lemma CutOnce<P(!new)>(h: Hooks<P>, live: Live<P>, a: string, b: string)
    requires IndexFree(h) && Framed(h.tolerant, live.cursor) && !live.cursor.Corrupted?
    ensures var ra, whole := Call(h, live, a), Call(h, live, a + b);
      && (Clean(ra) && Clean(Call(h, ra.live, b)) <==> Clean(whole) && !Crossed(whole.ranges, |a|))
      && (Clean(ra) && Clean(Call(h, ra.live, b)) ==>
            && Call(h, ra.live, b).live == whole.live
            && Output(ra) + Output(Call(h, ra.live, b)) == Output(whole)
            && ra.refused + Call(h, ra.live, b).refused == whole.refused)
  {
    var ra := Call(h, live, a);
    FeedInCall(h, NewCall(live), a);
    FeedConcat(h, NewCall(live), a, b);
    if ra.live.cursor.Corrupted? {
      FeedCorrupted(h, ra, b);
    } else if ra.denying {
      if Clean(Feed(h, ra, b)) {
        FeedExtends(h, ra, b);
      }
    } else {
      FeedBounded(h, NewCall(live), a);
      StartsTracking(h, ra);
      CutClean(h, ra, NewCall(ra.live), Output(ra), ra.refused, b);
    }
  }

  /** No cut of the stream falls inside one of the ranges. */
  ghost predicate CutsAvoid(ranges: seq<(int, int)>, chunks: seq<string>) {
    forall k :: 0 <= k < |chunks| ==> !Crossed(ranges, |Concat(chunks[..k])|)
  }

  lemma {:induction false} ConcatMonotone(chunks: seq<string>, k: nat)
    requires k <= |chunks|
    ensures |Concat(chunks[..k])| <= |Concat(chunks)|
  {
    if k == |chunks| {
      assert chunks[..k] == chunks;
    } else {
      var init := chunks[..|chunks| - 1];
      assert chunks[..k] == init[..k];
      ConcatMonotone(init, k);
    }
  }

  /** Cuts that lie before the last one see no difference between the ranges of the two prefixes. */
  lemma CutsExtend<P>(ra: Run<P>, whole: Run<P>, chunks: seq<string>)
    requires chunks != [] && Extends(ra, whole) && ra.pos == |Concat(chunks[..|chunks| - 1])|
    requires !Crossed(whole.ranges, ra.pos)
    ensures CutsAvoid(ra.ranges, chunks[..|chunks| - 1]) <==> CutsAvoid(whole.ranges, chunks)
  {
    var init := chunks[..|chunks| - 1];
    assert forall k :: 0 <= k < |ra.ranges| ==> whole.ranges[k] == ra.ranges[k];
    forall k | 0 <= k < |init|
      ensures Crossed(ra.ranges, |Concat(init[..k])|) <==> Crossed(whole.ranges, |Concat(chunks[..k])|)
    {
      assert chunks[..k] == init[..k];
      ConcatMonotone(init, k);
      var cut := |Concat(init[..k])|;
      if Crossed(whole.ranges, cut) {
        var j :| 0 <= j < |whole.ranges| && whole.ranges[j].0 < cut < whole.ranges[j].0 + whole.ranges[j].1;
        assert j < |ra.ranges|;
      }
    }
    if CutsAvoid(whole.ranges, chunks) {
      forall k | 0 <= k < |init| ensures !Crossed(ra.ranges, |Concat(init[..k])|) {
        assert !Crossed(whole.ranges, |Concat(chunks[..k])|);
      }
    }
    if CutsAvoid(ra.ranges, init) {
      forall k | 0 <= k < |chunks| ensures !Crossed(whole.ranges, |Concat(chunks[..k])|) {
        if k < |init| {
          assert !Crossed(ra.ranges, |Concat(init[..k])|);
        }
      }
    }
  }

  /**
   * Cutting can only make the framer stricter, and by exactly this much: a chunked
   * run survives if and only if the single call over the whole stream is clean and
   * no cut falls inside an instruction it denied. A run that survives forwards
   * the same bytes and rests in the same state as the single call.
   */
  lemma {:induction false} ChunkedIffUncut<P(!new)>(h: Hooks<P>, live: Live<P>, chunks: seq<string>)
    requires IndexFree(h) && Framed(h.tolerant, live.cursor) && !live.cursor.Corrupted?
    ensures var c, whole := RunChunks(h, live, chunks), Call(h, live, Concat(chunks));
      && (c.survived <==> Clean(whole) && CutsAvoid(whole.ranges, chunks))
      && (c.survived ==> c.live == whole.live && c.out == Output(whole) && c.refused == whole.refused)
  {
    if chunks != [] {
      var init, last := chunks[..|chunks| - 1], chunks[|chunks| - 1];
      var a := Concat(init);
      ChunkedIffUncut(h, live, init);
      CutOnce(h, live, a, last);
      var ra, whole := Call(h, live, a), Call(h, live, a + last);
      FeedInCall(h, NewCall(live), a);
      FeedConcat(h, NewCall(live), a, last);
      if Clean(whole) && !Crossed(whole.ranges, |a|) {
        FeedExtends(h, ra, last);
        CutsExtend(ra, whole, chunks);
      }
      assert chunks[..|init|] == init;
    }
  }

  /** Where nothing is denied every byte passes, under every cut. */
  lemma AllowedPassesUnderEveryCut<P(!new)>(h: Hooks<P>, live: Live<P>, chunks: seq<string>)
    requires IndexFree(h) && Framed(h.tolerant, live.cursor) && !live.cursor.Corrupted?
    requires Clean(Call(h, live, Concat(chunks))) && Call(h, live, Concat(chunks)).ranges == []
    ensures RunChunks(h, live, chunks).survived && RunChunks(h, live, chunks).out == Concat(chunks)
  {
    ChunkedIffUncut(h, live, chunks);
    NothingDenied(h, NewCall(live), Concat(chunks));
  }

  lemma StepAllowed<P>(h: Hooks<P>, r: Run<P>, c: char)
    requires !r.denying && Clean(Step(h, r, c)) && Step(h, r, c).ranges == r.ranges
    ensures Output(Step(h, r, c)) == Output(r) + [c]
  {
    assert r.kept + (r.pending + [c]) == Output(r) + [c] == Output(r) + [c] + "";
  }

  lemma {:induction false} NothingDenied<P>(h: Hooks<P>, r: Run<P>, s: string)
    requires InCall(h, r) && Clean(r) && Clean(Feed(h, r, s)) && Feed(h, r, s).ranges == r.ranges
    ensures Output(Feed(h, r, s)) == Output(r) + s
  {
    if s != "" {
      var t, c := s[..|s| - 1], s[|s| - 1];
      var q := Feed(h, r, t);
      assert Feed(h, r, s) == Step(h, q, c);
      assert s == t + [c];
      hide Feed, Step, Output;
      StepCorrupted(h, q, c);
      FeedInCall(h, r, t);
      FeedExtends(h, r, t);
      StepProgress(h, q, c);
      if q.denying {
        StepDenying(h, q, c);
      }
      NothingDenied(h, r, t);
      StepAllowed(h, q, c);
      assert Output(r) + s == Output(r) + t + [c];
    }
  }

  /** Denials are only ever added, one for each range and one for the range still open. */
  ghost predicate Recorded<P>(r: Run<P>, q: Run<P>) {
    && r.refused <= q.refused
    && |q.refused| - |q.ranges| - (if q.denying then 1 else 0) == |r.refused| - |r.ranges| - (if r.denying then 1 else 0)
  }

  lemma StepRecorded<P>(h: Hooks<P>, r: Run<P>, c: char)
    requires !Step(h, r, c).live.cursor.Corrupted?
    ensures Recorded(r, Step(h, r, c))
  {
  }

  lemma {:induction false} FeedRecorded<P>(h: Hooks<P>, r: Run<P>, s: string)
    requires !Feed(h, r, s).live.cursor.Corrupted?
    ensures Recorded(r, Feed(h, r, s))
  {
    if s != "" {
      var t, c := s[..|s| - 1], s[|s| - 1];
      var q := Feed(h, r, t);
      assert Feed(h, r, s) == Step(h, q, c);
      hide Feed, Step;
      StepCorrupted(h, q, c);
      FeedRecorded(h, r, t);
      StepRecorded(h, q, c);
    }
  }
}
