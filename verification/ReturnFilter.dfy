/**
 * gmlbroker swallows guacd's own handshake on the return path: everything up to
 * and including guacd's first `ready`, and pipes what follows without looking
 * at it again.
 */
module ReturnFilterModule {
  import opened Framing
  import opened GuacClient
  import opened Instructions
  import opened OpcodeParserModule

  /** `readyEnd` is the offset of the drawing behind `ready`, within the chunk that completed it. */
  datatype ReturnState = ReturnState(opcode: string, piping: bool, readyEnd: nat)

  function ReturnBegin(p: ReturnState, e: string): (ReturnState, bool) { (p.(opcode := e), true) }

  function ReturnArgument(p: ReturnState, e: string): (ReturnState, bool) { (p, true) }

  function ReturnEnd(p: ReturnState, i: nat): ReturnState {
    if !p.piping && p.opcode == "ready" then p.(piping := true, readyEnd := i + 1) else p
  }

  const RETURN: Hooks<ReturnState> := Hooks(ReturnBegin, ReturnArgument, ReturnEnd, false)

  const SWALLOWING := ReturnState("", false, 0)

  /** The bytes from offset `n` on. */
  function From(s: string, n: nat): string { if n <= |s| then s[n..] else "" }

  /** One chunk: the state it leaves and what is passed on. */
  function ReturnFeed(l: Live<ReturnState>, data: string): (Live<ReturnState>, string) {
    if l.policy.piping then (l, data) else
    var l' := Rest(Call(RETURN, l.(policy := l.policy.(readyEnd := 0)), data));
    (l', if l'.policy.piping then From(data, l'.policy.readyEnd) else "")
  }

  class ReturnFilter {
    const parser: OpcodeParser<ReturnState>

    ghost predicate Valid()
      reads this, parser, parser.elementBuffer
    {
      parser.Valid() && parser.hooks == RETURN
    }

    constructor ()
      ensures Valid() && fresh(parser) && fresh(parser.elementBuffer)
      ensures parser.LiveState() == Fresh(SWALLOWING)
    {
      parser := new OpcodeParser(RETURN, SWALLOWING);
    }

    method Feed(data: string) returns (out: string)
      requires Valid()
      modifies parser, parser.elementBuffer
      ensures Valid()
      ensures (parser.LiveState(), out) == ReturnFeed(old(parser.LiveState()), data)
    {
      if parser.policy.piping {
        return data;
      }
      parser.policy := parser.policy.(readyEnd := 0);
      ghost var live := parser.LiveState();
      var _ := parser.Parse(data);
      if parser.policy.piping {
        ReadyInside(live, data);
        return data[parser.policy.readyEnd..];
      }
      return "";
    }
  }

  lemma StepInside(r: Run<ReturnState>, c: char)
    requires r.live.policy.piping ==> r.live.policy.readyEnd <= r.pos
    ensures var q := Step(RETURN, r, c); q.live.policy.piping ==> q.live.policy.readyEnd <= r.pos + 1
    ensures var q := Step(RETURN, r, c); q.live.policy.piping && !r.live.policy.piping ==> q.pos == r.pos + 1
  {
  }

  lemma StepPos<P>(h: Hooks<P>, r: Run<P>, c: char)
    ensures r.pos <= Step(h, r, c).pos <= r.pos + 1
    ensures Step(h, r, c).live.cursor.Corrupted? || Step(h, r, c).pos == r.pos + 1
  {
  }

  lemma {:induction false} FeedInside(r: Run<ReturnState>, s: string)
    requires r.live.policy.piping ==> r.live.policy.readyEnd <= r.pos
    ensures var q := Feed(RETURN, r, s);
      (q.live.policy.piping ==> q.live.policy.readyEnd <= q.pos) && q.pos <= r.pos + |s|
  {
    if s != "" {
      FeedInside(r, s[..|s| - 1]);
      var q := Feed(RETURN, r, s[..|s| - 1]);
      StepPos(RETURN, q, s[|s| - 1]);
      StepInside(q, s[|s| - 1]);
      if q.live.policy.piping {
        StepKeepsPiping(q, s[|s| - 1]);
      }
    }
  }

  /** The recorded offset lies inside the chunk. */
  lemma ReadyInside(l: Live<ReturnState>, data: string)
    requires !l.policy.piping
    ensures var p := Call(RETURN, l, data).live.policy; p.piping ==> p.readyEnd <= |data|
  {
    FeedInside(NewCall(l), data);
  }

  /** A policy that is piping is not touched again in what the filter reads of it. */
  lemma StepKeepsPiping(r: Run<ReturnState>, c: char)
    requires r.live.policy.piping
    ensures var q := Step(RETURN, r, c); q.live.policy.piping && q.live.policy.readyEnd == r.live.policy.readyEnd
  {
  }

  lemma {:induction false} FeedKeepsPiping(r: Run<ReturnState>, s: string)
    requires r.live.policy.piping
    ensures var q := Feed(RETURN, r, s); q.live.policy.piping && q.live.policy.readyEnd == r.live.policy.readyEnd
  {
    if s != "" {
      FeedKeepsPiping(r, s[..|s| - 1]);
      StepKeepsPiping(Feed(RETURN, r, s[..|s| - 1]), s[|s| - 1]);
    }
  }

  // ---- Every cut pipes the same

  /** `x`, over the whole stream, and `y`, over the current chunk that begins at `off`. */
  ghost predicate Lockstep(x: Run<ReturnState>, y: Run<ReturnState>, off: nat) {
    && x.live.cursor == y.live.cursor && x.live.opcode == y.live.opcode
    && !x.denying && !y.denying
    && x.live.policy.opcode == y.live.policy.opcode && x.live.policy.piping == y.live.policy.piping
    && (x.live.policy.piping ==> x.live.policy.readyEnd == y.live.policy.readyEnd + off)
    && (!x.live.cursor.Corrupted? ==> x.pos == y.pos + off)
  }

  lemma JudgeLockstep(x: Run<ReturnState>, y: Run<ReturnState>, off: nat, elem: string)
    requires Lockstep(x, y, off) && x.live.cursor == Delim(elem)
    ensures Lockstep(Judge(RETURN, x, elem), Judge(RETURN, y, elem), off)
    ensures Judge(RETURN, x, elem).live.cursor == Delim(elem)
  {
  }

  lemma CloseLockstep(x: Run<ReturnState>, y: Run<ReturnState>, off: nat, c: char)
    requires Lockstep(x, y, off) && x.live.cursor.Delim?
    ensures Lockstep(Close(RETURN, x, c), Close(RETURN, y, c), off)
  {
  }

  lemma StepLockstep(x: Run<ReturnState>, y: Run<ReturnState>, off: nat, c: char)
    requires Lockstep(x, y, off)
    ensures Lockstep(Step(RETURN, x, c), Step(RETURN, y, c), off)
  {
    if x.live.cursor.Delim? && (c == ',' || c == ';') {
      var e := x.live.cursor.elem;
      JudgeLockstep(x, y, off, e);
      CloseLockstep(Judge(RETURN, x, e), Judge(RETURN, y, e), off, c);
      hide Judge, Close, Lockstep;
    } else {
      hide Judge, Close;
    }
  }

  lemma {:induction false} FeedLockstep(x: Run<ReturnState>, y: Run<ReturnState>, off: nat, s: string)
    requires Lockstep(x, y, off)
    ensures Lockstep(Feed(RETURN, x, s), Feed(RETURN, y, s), off)
  {
    if s != "" {
      FeedLockstep(x, y, off, s[..|s| - 1]);
      StepLockstep(Feed(RETURN, x, s[..|s| - 1]), Feed(RETURN, y, s[..|s| - 1]), off, s[|s| - 1]);
    }
  }

  function ReturnChunks(chunks: seq<string>): (Live<ReturnState>, string) {
    if chunks == [] then (Fresh(SWALLOWING), "") else
    var (l, out) := ReturnChunks(chunks[..|chunks| - 1]);
    var (l', more) := ReturnFeed(l, chunks[|chunks| - 1]);
    (l', out + more)
  }

  function ReturnCall(s: string): Run<ReturnState> { Call(RETURN, Fresh(SWALLOWING), s) }

  /** What the filter has passed on, and where it is, once `s` has arrived. */
  ghost predicate PipesLike(l: Live<ReturnState>, out: string, s: string) {
    var r := ReturnCall(s);
    && l.policy.piping == r.live.policy.piping
    && (if r.live.policy.piping then r.live.policy.readyEnd <= |s| && out == s[r.live.policy.readyEnd..]
        else && out == "" && l.cursor == r.live.cursor && l.opcode == r.live.opcode
             && l.policy.opcode == r.live.policy.opcode)
  }

  lemma NeverDenying(s: string)
    ensures !ReturnCall(s).denying
    ensures ReturnCall(s).live.cursor.Corrupted? || ReturnCall(s).pos == |s|
  {
    var r := NewCall(Fresh(SWALLOWING));
    FeedLockstep(r, r, 0, s);
    FeedInCall(RETURN, r, s);
  }

  lemma NextPipes(l: Live<ReturnState>, out: string, s: string, c: string)
    requires PipesLike(l, out, s)
    ensures var (l', more) := ReturnFeed(l, c); PipesLike(l', out + more, s + c)
  {
    hide Feed, Step;
    var r := ReturnCall(s);
    FeedConcat(RETURN, NewCall(Fresh(SWALLOWING)), s, c);
    NeverDenying(s);
    if r.live.policy.piping {
      FeedKeepsPiping(r, c);
      assert (s + c)[r.live.policy.readyEnd..] == out + c;
    } else {
      var l0 := l.(policy := l.policy.(readyEnd := 0));
      FeedLockstep(r, NewCall(l0), |s|, c);
      SwallowingPipes(l0, r, s, c);
    }
  }

  lemma SwallowingPipes(l0: Live<ReturnState>, r: Run<ReturnState>, s: string, c: string)
    requires !l0.policy.piping && ReturnCall(s + c) == Feed(RETURN, r, c)
    requires Lockstep(Feed(RETURN, r, c), Call(RETURN, l0, c), |s|)
    ensures var l' := Rest(Call(RETURN, l0, c));
      PipesLike(l', if l'.policy.piping then From(c, l'.policy.readyEnd) else "", s + c)
  {
    ReadyInside(l0, c);
    hide Feed, Step;
    var p := Call(RETURN, l0, c).live.policy;
    if p.piping {
      SuffixOf(s, c, p.readyEnd);
    }
  }

  lemma SuffixOf(s: string, c: string, n: nat)
    requires n <= |c|
    ensures (s + c)[n + |s|..] == c[n..]
  {
  }

  lemma {:induction false} ChunksPipe(chunks: seq<string>)
    ensures var (l, out) := ReturnChunks(chunks); PipesLike(l, out, Concat(chunks))
  {
    if chunks != [] {
      var init, last := chunks[..|chunks| - 1], chunks[|chunks| - 1];
      ChunksPipe(init);
      var (l, out) := ReturnChunks(init);
      hide ReturnFeed, PipesLike;
      NextPipes(l, out, Concat(init), last);
    }
  }

  // ---- What is piped is what follows the first `ready`

  /** Complete instructions only, of which the last one, and no other, is `ready`. */
  predicate ReadyHead(s: string)
    decreases |s|
  {
    match ParseInstruction(s)
    case Got(elems, rest) => if elems[0] == "ready" then rest == "" else ReadyHead(rest)
    case _ => false
  }

  lemma {:induction false} ReturnVerdict(p: ReturnState, elems: seq<string>)
    requires elems != []
    ensures Verdict(RETURN, p, elems) == (p.(opcode := elems[0]), true)
  {
    if |elems| > 1 {
      ReturnVerdict(p, elems[..|elems| - 1]);
    }
  }

  /** One instruction of the handshake. */
  lemma ReadInstruction(r: Run<ReturnState>, s: string, elems: seq<string>, rest: string) returns (q: Run<ReturnState>)
    requires Boundary(r) && !r.live.policy.piping && Ascii(s) && ParseInstruction(s) == Got(elems, rest)
    ensures Boundary(q) && q.pos == r.pos + |s| - |rest| && Feed(RETURN, r, s) == Feed(RETURN, q, rest)
    ensures q.live.policy == ReturnEnd(ReturnState(elems[0], false, r.live.policy.readyEnd), q.pos - 1)
  {
    Walk(RETURN, r, [], r, "", s);
    var head := s[..|s| - |rest|];
    q := Feed(RETURN, r, head);
    assert Closed(RETURN, r, elems, q, head) by { assert "" + head == head; }
    ReturnVerdict(r.live.policy, elems);
    hide Feed, ParseRest;
    assert s == head + rest;
    FeedConcat(RETURN, r, head, rest);
  }

  lemma NothingRead(r: Run<ReturnState>, s: string)
    requires Boundary(r) && Ascii(s) && !ParseInstruction(s).Got? && Boundary(Feed(RETURN, r, s))
    ensures s == ""
  {
    Walk(RETURN, r, [], r, "", s);
    hide Feed, ParseRest;
    assert r.pending + s == s;
  }

  /** From any boundary on: the filter begins to pipe right behind `s` if and only if `s` ends with the first `ready`. */
  lemma {:induction false} ReadsHead(r: Run<ReturnState>, s: string)
    requires Boundary(r) && !r.live.policy.piping && Ascii(s)
    ensures var q := Feed(RETURN, r, s);
      ReadyHead(s) <==> Boundary(q) && q.live.policy.piping && q.live.policy.readyEnd == r.pos + |s|
    decreases |s|
  {
    var parsed := ParseInstruction(s);
    if parsed.Got? {
      var q := ReadInstruction(r, s, parsed.elems, parsed.rest);
      hide ParseRest;
      if q.live.policy.piping {
        FeedKeepsPiping(q, parsed.rest);
      } else {
        ReadsHead(q, parsed.rest);
      }
    } else if Boundary(Feed(RETURN, r, s)) {
      NothingRead(r, s);
    }
  }

  /** The filter had just begun to pipe when the byte before its recorded offset arrived. */
  lemma {:induction false} PipedAtOnce(s: string)
    requires ReturnCall(s).live.policy.piping
    ensures var n := ReturnCall(s).live.policy.readyEnd;
      && n <= |s| && Boundary(ReturnCall(s[..n]))
      && ReturnCall(s[..n]).live.policy.piping && ReturnCall(s[..n]).live.policy.readyEnd == n
  {
    assert s != "";
    var t, c := s[..|s| - 1], s[|s| - 1];
    var r := ReturnCall(t);
    FeedLast(RETURN, NewCall(Fresh(SWALLOWING)), t, c);
    assert s == t + [c];
    if r.live.policy.piping {
      StepKeepsPiping(r, c);
      PipedAtOnce(t);
      assert s[..r.live.policy.readyEnd] == t[..r.live.policy.readyEnd];
    } else {
      NeverDenying(t);
      hide Feed;
      JustPiped(r, c);
      assert s[..|s|] == s;
    }
  }

  lemma JustPiped(r: Run<ReturnState>, c: char)
    requires !r.live.policy.piping && Step(RETURN, r, c).live.policy.piping && !r.denying
    ensures var q := Step(RETURN, r, c);
      !r.live.cursor.Corrupted? && Boundary(q) && q.live.policy.readyEnd == r.pos + 1
  {
  }

  /**
   * For every chunking: the filter pipes if and only if a prefix of the stream is
   * a handshake that ends with its first `ready`, and what it has passed on is
   * exactly the suffix behind that prefix, whatever follows it.
   */
  lemma {:induction false} PipesAfterReady(chunks: seq<string>)
    ensures var (l, out) := ReturnChunks(chunks);
      var s := Concat(chunks);
      && (l.policy.piping <==> exists n: nat :: n <= |s| && Ascii(s[..n]) && ReadyHead(s[..n]))
      && (forall n: nat :: n <= |s| && Ascii(s[..n]) && ReadyHead(s[..n]) ==> out == s[n..])
      && (!l.policy.piping ==> out == "")
  {
    var s, r0 := Concat(chunks), NewCall(Fresh(SWALLOWING));
    ChunksPipe(chunks);
    var (l, out) := ReturnChunks(chunks);
    forall n: nat | n <= |s| && Ascii(s[..n]) && ReadyHead(s[..n])
      ensures l.policy.piping && out == s[n..]
    {
      HeadSettles(s, n);
    }
    if l.policy.piping {
      HeadExists(s);
    }
  }

  lemma HeadSettles(s: string, n: nat)
    requires n <= |s| && Ascii(s[..n]) && ReadyHead(s[..n])
    ensures ReturnCall(s).live.policy.piping && ReturnCall(s).live.policy.readyEnd == n
  {
    hide ReadyHead, Feed, Step;
    var r0, a, b := NewCall(Fresh(SWALLOWING)), s[..n], s[n..];
    ReadsHead(r0, a);
    Cut(s, n);
    FeedConcat(RETURN, r0, a, b);
    FeedKeepsPiping(ReturnCall(a), b);
  }

  lemma HeadExists(s: string)
    requires ReturnCall(s).live.policy.piping
    ensures var n := ReturnCall(s).live.policy.readyEnd; n <= |s| && Ascii(s[..n]) && ReadyHead(s[..n])
  {
    var r0, n := NewCall(Fresh(SWALLOWING)), ReturnCall(s).live.policy.readyEnd;
    PipedAtOnce(s);
    hide ReadyHead, Feed;
    UncorruptedIsAscii(RETURN, r0, s[..n]);
    ReadsHead(r0, s[..n]);
  }
}
