/**
 * The fail-open loop of the two fakers: a parser that only observes skips the
 * byte that tripped the framer, resets, and goes on with the rest of the chunk.
 */
module Observer {
  import opened Framing
  import opened Chunking
  import opened OpcodeParserModule

  ghost predicate NeverDenies<P(!new)>(h: Hooks<P>) {
    forall p: P, e: string :: h.begin(p, e).1 && h.argument(p, e).1
  }

  /** One byte of an observed stream: an unparseable byte takes the framer back to a boundary. */
  function Observe<P>(h: Hooks<P>, l: Live<P>, c: char): Live<P> {
    var q := Step(h, NewCall(l), c).live;
    if q.cursor.Corrupted? then Fresh(q.policy) else q
  }

  function ObserveAll<P>(h: Hooks<P>, l: Live<P>, s: string): Live<P> {
    if s == "" then l else Observe(h, ObserveAll(h, l, s[..|s| - 1]), s[|s| - 1])
  }

  lemma {:induction false} ObserveConcat<P>(h: Hooks<P>, l: Live<P>, a: string, b: string)
    ensures ObserveAll(h, l, a + b) == ObserveAll(h, ObserveAll(h, l, a), b)
  {
    if b == "" {
      assert a + b == a;
    } else {
      assert (a + b)[..|a + b| - 1] == a + b[..|b| - 1];
      ObserveConcat(h, l, a, b[..|b| - 1]);
    }
  }

  /** Every cut of a stream, garbage included, leaves an observer in the same state. */
  lemma {:induction false} ObserveChunks<P>(h: Hooks<P>, l: Live<P>, chunks: seq<string>, lives: seq<Live<P>>)
    requires |lives| == |chunks| + 1 && lives[0] == l
    requires forall k :: 0 <= k < |chunks| ==> lives[k + 1] == ObserveAll(h, lives[k], chunks[k])
    ensures lives[|chunks|] == ObserveAll(h, l, Concat(chunks))
  {
    if chunks != [] {
      var n := |chunks| - 1;
      ObserveChunks(h, l, chunks[..n], lives[..|chunks|]);
      ObserveConcat(h, l, Concat(chunks[..n]), chunks[n]);
    }
  }

  lemma StepLive<P(!new)>(h: Hooks<P>, r: Run<P>, c: char)
    requires NeverDenies(h) && IndexFree(h) && !r.denying && !r.live.cursor.Corrupted?
    ensures Step(h, r, c).live == Step(h, NewCall(r.live), c).live
    ensures !Step(h, r, c).denying && Step(h, r, c).ranges == r.ranges
    ensures Step(h, r, c).live.cursor.Corrupted? ==> Step(h, r, c).pos == r.pos
    ensures !Step(h, r, c).live.cursor.Corrupted? ==> Step(h, r, c).pos == r.pos + 1
  {
    if r.live.cursor.Delim? {
      var e := r.live.cursor.elem;
      assert h.begin(r.live.policy, e).1 && h.argument(r.live.policy, e).1;
      var p := if r.live.opcode then h.begin(r.live.policy, e).0 else h.argument(r.live.policy, e).0;
      assert h.end(p, r.pos) == h.end(p, 0);
    }
  }

  /** A call follows the observed stream up to the byte that corrupts it. */
  lemma {:induction false} CallObserves<P(!new)>(h: Hooks<P>, l: Live<P>, s: string)
    requires NeverDenies(h) && IndexFree(h) && !l.cursor.Corrupted?
    ensures var r := Call(h, l, s);
      && !r.denying && r.ranges == []
      && if r.live.cursor.Corrupted?
         then r.pos < |s| && Fresh(r.live.policy) == ObserveAll(h, l, s[..r.pos + 1])
         else r.pos == |s| && r.live == ObserveAll(h, l, s)
  {
    if s != "" {
      var t, c := s[..|s| - 1], s[|s| - 1];
      CallObserves(h, l, t);
      var r := Call(h, l, t);
      FeedLast(h, NewCall(l), t, c);
      assert s == t + [c] == s[..|s|];
      StepCorrupted(h, r, c);
      hide Feed, Step;
      if r.live.cursor.Corrupted? {
        assert s[..r.pos + 1] == t[..r.pos + 1];
      } else {
        StepLive(h, r, c);
      }
    }
  }

  /** One Parse call of the loop: it takes the whole rest, or `taken` bytes of it and a reset. */
  method Attempt<P(!new)>(parser: OpcodeParser<P>, rest: string) returns (taken: nat)
    requires parser.Valid() && NeverDenies(parser.hooks) && IndexFree(parser.hooks)
    requires !parser.state.StreamCorrupted? && rest != ""
    modifies parser, parser.elementBuffer
    ensures parser.Valid() && !parser.state.StreamCorrupted?
    ensures 0 < taken <= |rest|
    ensures parser.LiveState() == ObserveAll(parser.hooks, old(parser.LiveState()), rest[..taken])
  {
    CallObserves(parser.hooks, parser.LiveState(), rest);
    assert rest[..|rest|] == rest;
    hide Call, ObserveAll;
    var result := parser.Parse(rest);
    if !result.StreamCorrupted? {
      return |rest|;
    }
    taken := parser.currentIndex + 1;
    parser.Reset();
  }

  /** The resync loop over `data + off` (an attempt that takes everything ends it): it terminates, and never leaves the parser corrupted. */
  method FeedResync<P(!new)>(parser: OpcodeParser<P>, data: string)
    requires parser.Valid() && NeverDenies(parser.hooks) && IndexFree(parser.hooks)
    requires !parser.state.StreamCorrupted?
    modifies parser, parser.elementBuffer
    ensures parser.Valid() && !parser.state.StreamCorrupted?
    ensures parser.LiveState() == ObserveAll(parser.hooks, old(parser.LiveState()), data)
  {
    ghost var live, done := parser.LiveState(), "";
    var rest := data;
    while rest != ""
      invariant parser.Valid() && !parser.state.StreamCorrupted?
      invariant data == done + rest && (rest == "" ==> data == done)
      invariant parser.LiveState() == ObserveAll(parser.hooks, live, done)
      decreases |rest|
    {
      hide ObserveAll;
      var taken := Attempt(parser, rest);
      ObserveConcat(parser.hooks, live, done, rest[..taken]);
      Regroup(done, rest, taken);
      done := done + rest[..taken];
      rest := rest[taken..];
    }
  }

  lemma Regroup(done: string, rest: string, n: nat)
    requires n <= |rest|
    ensures done + rest == done + rest[..n] + rest[n..]
    ensures rest[n..] == "" ==> done + rest == done + rest[..n]
  {
  }
}
