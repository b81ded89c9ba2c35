/**
 * gmlbroker swallows the browser's `sync` and `nop` before the guard sees them.
 * The filter is a framer of its own, so the question is whether putting it in
 * front changes what the guard forwards.
 */
module KeepaliveFilterModule {
  import opened Framing
  import opened Excision
  import opened Chunking
  import opened OpcodeParserModule
  import opened GuardPolicyModule
  import opened GuacClient
  import opened Instructions
  import opened Encoding
  import opened NeutralFraming

  /** The filter keeps no state of its own. */
  datatype Stateless = Stateless

  const KEEPALIVE: Hooks<Stateless> := Hooks(
    (p: Stateless, e: string) => (p, e != "sync" && e != "nop"),
    (p: Stateless, e: string) => (p, true),
    (p: Stateless, i: nat) => p,
    true)

  /** One chunk: what is passed on, and the state of the filter. A chunk it cannot analyse passes whole. */
  function FilterChunk(l: Live<Stateless>, s: string): (Live<Stateless>, string) {
    var r := Call(KEEPALIVE, l, s);
    if Clean(r) then (r.live, Output(r)) else (Fresh(Stateless), s)
  }

  class ForwardKeepaliveFilter {
    const parser: OpcodeParser<Stateless>

    ghost predicate Valid()
      reads this, parser, parser.elementBuffer
    {
      parser.Valid() && !parser.state.StreamCorrupted? && parser.hooks == KEEPALIVE
    }

    constructor ()
      ensures Valid() && fresh(parser) && fresh(parser.elementBuffer)
      ensures parser.LiveState() == Fresh(Stateless)
    {
      parser := new OpcodeParser(KEEPALIVE, Stateless);
    }

    method Filter(data: array<char>, len: nat) returns (newLen: nat)
      requires Valid() && data != parser.elementBuffer && len <= data.Length
      modifies parser, parser.elementBuffer, data
      ensures Valid() && newLen <= len
      ensures (parser.LiveState(), data[..newLen]) == FilterChunk(old(parser.LiveState()), old(data[..len]))
      ensures data[len..] == old(data[len..])
    {
      hide Feed, Remaining, Ordered;
      ghost var live, chunk := parser.LiveState(), data[..len];
      var st := parser.Parse(data[..len]);
      if st.StreamCorrupted? {
        parser.Reset();
        assert parser.policy == Stateless;
        return len;
      }
      CallAccounts(KEEPALIVE, live, chunk);
      OrderedAt(KEEPALIVE, live, chunk);
      newLen := parser.Excise(data, len);
    }
  }

  lemma OrderedAt<P>(h: Hooks<P>, live: Live<P>, s: string)
    requires Framed(h.tolerant, live.cursor) && Clean(Call(h, live, s))
    ensures Ordered(Call(h, live, s).ranges, |s|)
    ensures Output(Call(h, live, s)) == Remaining(s, Call(h, live, s).ranges, |s|)
  {
    CallAccounts(h, live, s);
  }

  // ---- The filter commutes with the guard

  /** The guard on raw chunks, the filter, and the guard on filtered chunks, between two chunks. */
  ghost predicate InStep(g: Live<GuardPolicy>, f: Live<Stateless>, b: Live<GuardPolicy>) {
    g.cursor == f.cursor && g.opcode == f.opcode && SameLive(b, g)
  }

  /** `y`, on filtered bytes, does what `g` does on raw ones. */
  ghost predicate Mirrors(g: Run<GuardPolicy>, y: Run<GuardPolicy>) {
    && !y.live.cursor.Corrupted? && SameLive(y.live, g.live)
    && y.denying == g.denying && y.kept == g.kept && y.pending == g.pending
    && (y.start >= 0 <==> g.start >= 0)
  }

  /** `x` is where the guard on filtered bytes was before the current instruction. */
  ghost predicate Before(g: Run<GuardPolicy>, x: Run<GuardPolicy>) {
    && AtBoundary(x.live) && !x.denying && x.start == -1
    && x.kept == g.kept && x.pending == "" && x.live.policy.sidx == g.live.policy.sidx
  }

  /**
   * Inside a chunk: `g` the guard on the raw bytes, `f` the filter on them, `y`
   * the guard on what the filter has let through and `x` the guard on what it has
   * let through before the current instruction.
   */
  ghost predicate Aligned(g: Run<GuardPolicy>, f: Run<Stateless>, x: Run<GuardPolicy>, y: Run<GuardPolicy>) {
    && PolicyOk(g.live.policy)
    && f.live.cursor == g.live.cursor && f.live.opcode == g.live.opcode
    && f.pending == g.pending && f.start == g.start && f.pos == g.pos
    && (f.denying ==> g.denying && f.start >= 0)
    && (f.start >= 0 && (g.live.opcode || f.denying) ==> Before(g, x))
    && (!f.denying ==> Mirrors(g, y))
  }

  lemma AlignedAdvance(g: Run<GuardPolicy>, f: Run<Stateless>, x: Run<GuardPolicy>, y: Run<GuardPolicy>, c: char)
    requires Aligned(g, f, x, y) && !g.live.cursor.Delim? && !Step(GUARD, g, c).live.cursor.Corrupted?
    requires InCall(GUARD, g) && (AtBoundary(g.live) ==> x == y && y.start == -1)
    ensures var g', f' := Step(GUARD, g, c), Step(KEEPALIVE, f, c);
      Aligned(g', f', x, Step(GUARD, y, c)) && f'.kept == f.kept && f'.pending == f.pending + [c]
  {
  }

  lemma AlignedKept(g: Run<GuardPolicy>, f: Run<Stateless>, x: Run<GuardPolicy>, y: Run<GuardPolicy>, c: char)
    requires Aligned(g, f, x, y) && g.live.cursor.Delim? && !f.denying && (c == ',' || c == ';')
    requires InCall(GUARD, g) && InCall(GUARD, y)
    requires !Judge(GUARD, g, g.live.cursor.elem).live.cursor.Corrupted?
    requires !Judge(KEEPALIVE, f, f.live.cursor.elem).denying && !Judge(KEEPALIVE, f, f.live.cursor.elem).live.cursor.Corrupted?
    ensures var g', f', y' := Step(GUARD, g, c), Step(KEEPALIVE, f, c), Step(GUARD, y, c);
      if c == ';' then f'.kept == f.kept + f.pending + [c] && f'.pending == "" && Aligned(g', f', y', y')
      else f'.kept == f.kept && f'.pending == f.pending + [c] && Aligned(g', f', x, y')
  {
    GuardHooks(g.live.policy, y.live.policy, g.live.cursor.elem);
    hide GuardBegin, GuardArgument;
  }

  lemma AlignedDropped(g: Run<GuardPolicy>, f: Run<Stateless>, x: Run<GuardPolicy>, y: Run<GuardPolicy>, c: char)
    requires Aligned(g, f, x, y) && g.live.cursor.Delim? && (c == ',' || c == ';')
    requires InCall(GUARD, g) && InCall(KEEPALIVE, f)
    requires !Judge(GUARD, g, g.live.cursor.elem).live.cursor.Corrupted?
    requires Judge(KEEPALIVE, f, f.live.cursor.elem).denying || Judge(KEEPALIVE, f, f.live.cursor.elem).live.cursor.Corrupted?
    ensures var g', f' := Step(GUARD, g, c), Step(KEEPALIVE, f, c);
      if c == ';' then f'.kept == f.kept && f'.pending == "" && Aligned(g', f', x, x)
      else f'.kept == f.kept && f'.pending == f.pending + [c] && forall b :: Aligned(g', f', x, b)
  {
    GuardHooks(g.live.policy, g.live.policy, g.live.cursor.elem);
    hide GuardArgument;
  }

  function GuardFrom(b: Live<GuardPolicy>, s: string): Run<GuardPolicy> { Call(GUARD, b, s) }

  /** `Aligned`, with the two guard runs over the filter's output filled in. */
  ghost predicate AlignedCall(b: Live<GuardPolicy>, g: Run<GuardPolicy>, f: Run<Stateless>) {
    Aligned(g, f, GuardFrom(b, f.kept), GuardFrom(b, f.kept + f.pending))
  }

  lemma StepAligned(b: Live<GuardPolicy>, g: Run<GuardPolicy>, f: Run<Stateless>, c: char)
    requires Framed(false, b.cursor)
    requires InCall(GUARD, g) && InCall(KEEPALIVE, f) && AlignedCall(b, g, f)
    requires !Step(GUARD, g, c).live.cursor.Corrupted?
    ensures AlignedCall(b, Step(GUARD, g, c), Step(KEEPALIVE, f, c))
  {
    var x, y := GuardFrom(b, f.kept), GuardFrom(b, f.kept + f.pending);
    var elem := if g.live.cursor.Delim? then g.live.cursor.elem else "";
    FeedLast(GUARD, NewCall(b), f.kept + f.pending, c);
    FeedInCall(GUARD, NewCall(b), f.kept + f.pending);
    assert f.kept + (f.pending + [c]) == f.kept + f.pending + [c] == f.kept + f.pending + [c] + "";
    assert f.kept + "" == f.kept;
    StepCorrupted(GUARD, g, c);
    assert f.live.cursor == g.live.cursor;
    if !g.live.cursor.Delim? {
      assert AtBoundary(g.live) ==> x == y && y.start == -1;
      hide Aligned, Feed, InCall;
      AlignedAdvance(g, f, x, y, c);
    } else {
      assert (c == ',' || c == ';') && !Judge(GUARD, g, elem).live.cursor.Corrupted?;
      assert f.denying ==> Judge(KEEPALIVE, f, elem).denying;
      assert !f.denying ==> InCall(GUARD, y);
      hide Aligned, Feed, Judge, InCall;
      if Judge(KEEPALIVE, f, elem).denying || Judge(KEEPALIVE, f, elem).live.cursor.Corrupted? {
        AlignedDropped(g, f, x, y, c);
      } else {
        AlignedKept(g, f, x, y, c);
      }
    }
  }

  lemma {:induction false} CallAligned(g: Live<GuardPolicy>, f: Live<Stateless>, b: Live<GuardPolicy>, s: string)
    requires InStep(g, f, b) && Framed(false, g.cursor) && !g.cursor.Corrupted? && PolicyOk(g.policy)
    requires !Call(GUARD, g, s).live.cursor.Corrupted?
    ensures AlignedCall(b, Call(GUARD, g, s), Call(KEEPALIVE, f, s))
    ensures !Call(KEEPALIVE, f, s).live.cursor.Corrupted? && InCall(KEEPALIVE, Call(KEEPALIVE, f, s))
  {
    if s != "" {
      var t, c := s[..|s| - 1], s[|s| - 1];
      var rg, rf := Call(GUARD, g, t), Call(KEEPALIVE, f, t);
      assert Call(GUARD, g, s) == Step(GUARD, rg, c) && Call(KEEPALIVE, f, s) == Step(KEEPALIVE, rf, c);
      hide Feed, Step, Aligned;
      StepCorrupted(GUARD, rg, c);
      FeedInCall(GUARD, NewCall(g), t);
      CallAligned(g, f, b, t);
      StepAligned(b, rg, rf, c);
      AlignedCursor(b, Call(GUARD, g, s), Call(KEEPALIVE, f, s));
      FeedInCall(KEEPALIVE, NewCall(f), s);
    }
  }

  lemma AlignedCursor(b: Live<GuardPolicy>, g: Run<GuardPolicy>, f: Run<Stateless>)
    requires AlignedCall(b, g, f)
    ensures f.live.cursor == g.live.cursor
  {
  }

  /** One chunk on which the guard survives: the filter survives too, and the guard forwards the same either way. */
  lemma ChunkCommutes(g: Live<GuardPolicy>, f: Live<Stateless>, b: Live<GuardPolicy>, s: string)
    requires InStep(g, f, b) && Framed(false, g.cursor) && !g.cursor.Corrupted? && PolicyOk(g.policy)
    requires Clean(Call(GUARD, g, s))
    ensures Clean(Call(KEEPALIVE, f, s))
    ensures var rg, (f', out) := Call(GUARD, g, s), FilterChunk(f, s);
      var rb := Call(GUARD, b, out);
      Clean(rb) && Output(rb) == Output(rg) && InStep(rg.live, f', rb.live) && PolicyOk(rg.live.policy)
  {
    CallAligned(g, f, b, s);
    hide Feed;
  }

  /** The filter over a list of chunks; `clean` is false once it has let a chunk through unanalysed. */
  datatype FilterRun = FilterRun(live: Live<Stateless>, chunks: seq<string>, clean: bool)

  function FilterChunks(l: Live<Stateless>, chunks: seq<string>): FilterRun {
    if chunks == [] then FilterRun(l, [], true) else
    var r := FilterChunks(l, chunks[..|chunks| - 1]);
    var last := chunks[|chunks| - 1];
    var (l', out) := FilterChunk(r.live, last);
    FilterRun(l', r.chunks + [out], r.clean && Clean(Call(KEEPALIVE, r.live, last)))
  }

  lemma {:induction false} ChunksFramed<P>(h: Hooks<P>, l: Live<P>, chunks: seq<string>)
    requires Framed(h.tolerant, l.cursor) && RunChunks(h, l, chunks).survived
    ensures Framed(h.tolerant, RunChunks(h, l, chunks).live.cursor)
    ensures !RunChunks(h, l, chunks).live.cursor.Corrupted?
  {
    if chunks != [] {
      ChunksFramed(h, l, chunks[..|chunks| - 1]);
      FeedInCall(h, NewCall(RunChunks(h, l, chunks[..|chunks| - 1]).live), chunks[|chunks| - 1]);
    }
  }

  /**
   * On any chunks the guard alone survives, the filter never fails open, and the
   * guard behind the filter forwards the same bytes and ends in the same state.
   */
  lemma {:induction false} FilterCommutesWithGuard(g: Live<GuardPolicy>, f: Live<Stateless>, b: Live<GuardPolicy>, chunks: seq<string>)
    requires InStep(g, f, b) && Framed(false, g.cursor) && PolicyOk(g.policy)
    requires RunChunks(GUARD, g, chunks).survived
    ensures var filtered := FilterChunks(f, chunks);
      var raw, behind := RunChunks(GUARD, g, chunks), RunChunks(GUARD, b, filtered.chunks);
      && filtered.clean
      && behind.survived && behind.out == raw.out
      && InStep(raw.live, filtered.live, behind.live) && PolicyOk(raw.live.policy)
  {
    if chunks != [] {
      var init, last := chunks[..|chunks| - 1], chunks[|chunks| - 1];
      FilterCommutesWithGuard(g, f, b, init);
      ChunksFramed(GUARD, g, init);
      var filtered := FilterChunks(f, init);
      var raw, behind := RunChunks(GUARD, g, init), RunChunks(GUARD, b, filtered.chunks);
      ChunkCommutes(raw.live, filtered.live, behind.live, last);
      var (f', out) := FilterChunk(filtered.live, last);
      assert (filtered.chunks + [out])[..|filtered.chunks|] == filtered.chunks;
      hide Feed, FilterChunk, InStep;
    }
  }

  // ---- And the guard alone is not stricter

  /** Two guards in the same live state call by call. */
  ghost predicate Twins(x: Run<GuardPolicy>, y: Run<GuardPolicy>) {
    && SameLive(x.live, y.live) && x.denying == y.denying && (x.start >= 0 <==> y.start >= 0) && PolicyOk(x.live.policy)
  }

  /** In the same live state, and with or without the head of the instruction alike, they meet the same end. */
  lemma StepTwins(x: Run<GuardPolicy>, y: Run<GuardPolicy>, c: char)
    requires Twins(x, y) && x.pos >= 0 && y.pos >= 0
    ensures Step(GUARD, x, c).live.cursor.Corrupted? <==> Step(GUARD, y, c).live.cursor.Corrupted?
    ensures !Step(GUARD, x, c).live.cursor.Corrupted? ==> Twins(Step(GUARD, x, c), Step(GUARD, y, c))
  {
    if x.live.cursor.Delim? {
      GuardHooks(x.live.policy, y.live.policy, x.live.cursor.elem);
    }
    hide GuardBegin, GuardArgument;
  }

  lemma {:induction false} FeedTwins(x: Run<GuardPolicy>, y: Run<GuardPolicy>, s: string)
    requires Twins(x, y)
    ensures var q, r := Feed(GUARD, x, s), Feed(GUARD, y, s);
      (q.live.cursor.Corrupted? <==> r.live.cursor.Corrupted?) && (!q.live.cursor.Corrupted? ==> Twins(q, r))
  {
    if s != "" {
      var t, c := s[..|s| - 1], s[|s| - 1];
      FeedTwins(x, y, t);
      hide Step, Twins;
      StepCorrupted(GUARD, Feed(GUARD, x, t), c);
      StepCorrupted(GUARD, Feed(GUARD, y, t), c);
      if !Feed(GUARD, x, t).live.cursor.Corrupted? {
        StepTwins(Feed(GUARD, x, t), Feed(GUARD, y, t), c);
      }
    }
  }

  /** An opcode that is longer than the guard allows, which is not one of the filter's. */
  predicate TooLong(k: Cursor) {
    match k
    case Length(n) => n > MAX_ELEMENT
    case Data(n, _, _) => n > MAX_ELEMENT
    case Delim(elem) => |elem| >= MAX_ELEMENT
    case _ => false
  }

  /** The guard on what the filter lets through is corrupted, whatever the filter does with the instruction in progress. */
  ghost predicate Doomed(b: Live<GuardPolicy>, f: Run<Stateless>) {
    || GuardFrom(b, f.kept).live.cursor.Corrupted?
    || (!f.denying && GuardFrom(b, f.kept + f.pending).live.cursor.Corrupted? && (f.live.opcode ==> TooLong(f.live.cursor)))
  }

  /** The filter itself does not get through the chunk: an instruction it swallows is longer than `n` bytes. */
  predicate Hopeless(f: Run<Stateless>, n: nat) {
    || f.live.cursor.Corrupted?
    || (f.denying && match f.live.cursor
                     case Length(k) => k > MAX_ELEMENT
                     case Data(k, read, _) => k > MAX_ELEMENT && read <= n
                     case _ => false)
  }

  lemma StepHopeless(f: Run<Stateless>, n: nat, c: char)
    requires Hopeless(f, n) && n < MAX_ELEMENT
    ensures Hopeless(Step(KEEPALIVE, f, c), n + 1)
  {
  }

  lemma {:induction false} LongerDoomed(b: Live<GuardPolicy>, s: string, t: string)
    requires GuardFrom(b, s).live.cursor.Corrupted?
    ensures GuardFrom(b, s + t).live.cursor.Corrupted?
  {
    FeedConcat(GUARD, NewCall(b), s, t);
    FeedCorrupted(GUARD, GuardFrom(b, s), t);
  }

  /** What a byte does to the text that the filter has let through. */
  lemma FilterGrows(f: Run<Stateless>, c: char)
    requires !Step(KEEPALIVE, f, c).live.cursor.Corrupted?
    ensures var f' := Step(KEEPALIVE, f, c);
      || (f'.kept == f.kept && f'.pending == f.pending + [c])
      || (f'.kept == f.kept + f.pending + [c] && f'.pending == "" && !f'.denying)
      || (f'.kept == f.kept && f'.pending == "" && !f'.denying && Judge(KEEPALIVE, f, f.live.cursor.elem).denying)
  {
  }

  lemma FilterKeeps(f: Run<Stateless>, c: char)
    requires !f.denying && (f.live.opcode ==> TooLong(f.live.cursor)) && !Step(KEEPALIVE, f, c).live.cursor.Corrupted?
    requires Framed(true, f.live.cursor)
    ensures var f' := Step(KEEPALIVE, f, c);
      && !f'.denying && (f'.live.opcode && f'.pending != "" ==> TooLong(f'.live.cursor))
      && ((f'.kept == f.kept && f'.pending == f.pending + [c]) || (f'.kept == f.kept + f.pending + [c] && f'.pending == ""))
  {
  }

  lemma StepDoomed(b: Live<GuardPolicy>, f: Run<Stateless>, c: char)
    requires Doomed(b, f) && Framed(true, f.live.cursor)
    ensures Step(KEEPALIVE, f, c).live.cursor.Corrupted? || Doomed(b, Step(KEEPALIVE, f, c))
  {
    var f' := Step(KEEPALIVE, f, c);
    if !f'.live.cursor.Corrupted? {
      if GuardFrom(b, f.kept).live.cursor.Corrupted? {
        FilterGrows(f, c);
        hide Step, GuardFrom;
        LongerDoomed(b, f.kept, f.pending);
        LongerDoomed(b, f.kept + f.pending, [c]);
      } else {
        FilterKeeps(f, c);
        hide Step, GuardFrom;
        LongerDoomed(b, f.kept + f.pending, [c]);
        assert f.kept + (f.pending + [c]) == f.kept + f.pending + [c];
        assert f'.pending == "" ==> f'.kept + f'.pending == f'.kept;
      }
    }
  }

  /** The byte that corrupts the guard inside an instruction that the filter swallows. */
  lemma SwallowedDooms(g: Run<GuardPolicy>, f: Run<Stateless>, n: nat, c: char)
    requires f.denying && g.denying && f.live.cursor == g.live.cursor && Framed(false, g.live.cursor)
    requires !g.live.cursor.Corrupted? && Step(GUARD, g, c).live.cursor.Corrupted?
    ensures Hopeless(Step(KEEPALIVE, f, c), n)
  {
  }

  /** The byte that corrupts the guard inside an instruction that the filter lets through. */
  lemma PassedDooms(g: Run<GuardPolicy>, f: Run<Stateless>, c: char)
    requires !f.denying && f.live.cursor == g.live.cursor && f.live.opcode == g.live.opcode && f.start == g.start
    requires Framed(false, g.live.cursor) && !g.live.cursor.Corrupted? && Step(GUARD, g, c).live.cursor.Corrupted?
    requires g.denying ==> g.start >= 0
    requires AtBoundary(f.live) ==> f.pending == ""
    ensures var f' := Step(KEEPALIVE, f, c);
      f'.live.cursor.Corrupted?
      || (!f'.denying && (f'.live.opcode && f'.pending != "" ==> TooLong(f'.live.cursor))
          && ((f'.kept == f.kept && f'.pending == f.pending + [c]) || (f'.kept == f.kept + f.pending + [c] && f'.pending == "")))
  {
    hide GuardBegin, GuardArgument;
  }

  lemma FirstDooms(b: Live<GuardPolicy>, g: Run<GuardPolicy>, f: Run<Stateless>, n: nat, c: char)
    requires AlignedCall(b, g, f) && InCall(GUARD, g) && InCall(KEEPALIVE, f) && Framed(false, b.cursor)
    requires !g.live.cursor.Corrupted? && Step(GUARD, g, c).live.cursor.Corrupted?
    ensures var f' := Step(KEEPALIVE, f, c); Hopeless(f', n) || Doomed(b, f')
  {
    var y := GuardFrom(b, f.kept + f.pending);
    var f' := Step(KEEPALIVE, f, c);
    if f.denying {
      hide Feed, Step;
      SwallowedDooms(g, f, n, c);
    } else {
      FeedLast(GUARD, NewCall(b), f.kept + f.pending, c);
      assert Twins(g, y);
      hide Feed, Step;
      StepTwins(g, y, c);
      PassedDooms(g, f, c);
      assert f.kept + (f.pending + [c]) == f.kept + f.pending + [c];
      assert f'.pending == "" ==> f'.kept + f'.pending == f'.kept;
    }
  }

  lemma {:induction false} CorruptedDooms(g: Live<GuardPolicy>, f: Live<Stateless>, b: Live<GuardPolicy>, s: string)
    requires InStep(g, f, b) && Framed(false, g.cursor) && !g.cursor.Corrupted? && PolicyOk(g.policy)
    requires Call(GUARD, g, s).live.cursor.Corrupted? && |s| <= MAX_ELEMENT
    ensures Hopeless(Call(KEEPALIVE, f, s), |s|) || Doomed(b, Call(KEEPALIVE, f, s))
  {
    var t, c := s[..|s| - 1], s[|s| - 1];
    var rg, rf := Call(GUARD, g, t), Call(KEEPALIVE, f, t);
    assert Call(GUARD, g, s) == Step(GUARD, rg, c) && Call(KEEPALIVE, f, s) == Step(KEEPALIVE, rf, c);
    FeedInCall(GUARD, NewCall(g), t);
    FeedInCall(KEEPALIVE, NewCall(f), t);
    assert Framed(true, rf.live.cursor);
    hide Feed, Step, InStep, Aligned;
    if rg.live.cursor.Corrupted? {
      CorruptedDooms(g, f, b, t);
      if Hopeless(rf, |t|) {
        StepHopeless(rf, |t|, c);
      } else {
        StepDoomed(b, rf, c);
      }
    } else {
      CallAligned(g, f, b, t);
      assert Framed(false, b.cursor) by { InStepFramed(g, f, b); }
      FirstDooms(b, rg, rf, |s|, c);
    }
  }

  lemma InStepFramed(g: Live<GuardPolicy>, f: Live<Stateless>, b: Live<GuardPolicy>)
    requires InStep(g, f, b) && Framed(false, g.cursor) && PolicyOk(g.policy)
    ensures Framed(false, b.cursor) && Twins(NewCall(g), NewCall(b))
  {
  }

  /** A chunk the guard alone does not survive, it does not survive behind the filter. */
  lemma ChunkExact(g: Live<GuardPolicy>, f: Live<Stateless>, b: Live<GuardPolicy>, s: string)
    requires InStep(g, f, b) && Framed(false, g.cursor) && !g.cursor.Corrupted? && PolicyOk(g.policy)
    requires !Clean(Call(GUARD, g, s)) && |s| <= MAX_ELEMENT
    ensures !Clean(Call(GUARD, b, FilterChunk(f, s).1))
  {
    var rg, rf := Call(GUARD, g, s), Call(KEEPALIVE, f, s);
    InStepFramed(g, f, b);
    if !Clean(rf) {
      FeedTwins(NewCall(g), NewCall(b), s);
      hide Feed;
    } else if rg.live.cursor.Corrupted? {
      CorruptedDooms(g, f, b, s);
      hide Feed;
      if GuardFrom(b, rf.kept).live.cursor.Corrupted? {
        LongerDoomed(b, rf.kept, rf.pending);
      }
    } else {
      CallAligned(g, f, b, s);
      hide Feed;
    }
  }

  /**
   * On chunks that are no longer than an element may be, and no read is longer: the
   * guard behind the filter survives if and only if it survives alone.
   */
  lemma {:induction false} FilterIsExact(g: Live<GuardPolicy>, f: Live<Stateless>, b: Live<GuardPolicy>, chunks: seq<string>)
    requires InStep(g, f, b) && Framed(false, g.cursor) && PolicyOk(g.policy)
    requires forall k :: 0 <= k < |chunks| ==> |chunks[k]| <= MAX_ELEMENT
    ensures RunChunks(GUARD, b, FilterChunks(f, chunks).chunks).survived <==> RunChunks(GUARD, g, chunks).survived
  {
    if chunks != [] {
      var init, last := chunks[..|chunks| - 1], chunks[|chunks| - 1];
      FilterIsExact(g, f, b, init);
      var filtered := FilterChunks(f, init);
      var raw, behind := RunChunks(GUARD, g, init), RunChunks(GUARD, b, filtered.chunks);
      var (f', out) := FilterChunk(filtered.live, last);
      assert (filtered.chunks + [out])[..|filtered.chunks|] == filtered.chunks;
      hide Feed, FilterChunk, InStep, PolicyOk;
      if raw.survived {
        FilterCommutesWithGuard(g, f, b, init);
        ChunksFramed(GUARD, g, init);
        if Clean(Call(GUARD, raw.live, last)) {
          ChunkCommutes(raw.live, filtered.live, behind.live, last);
        } else {
          ChunkExact(raw.live, filtered.live, behind.live, last);
        }
      }
    }
  }

  /** A chunk the filter cannot analyse passes whole, and the next one is taken as beginning at a boundary. */
  lemma {:induction false} FilterFailsOpen(l: Live<Stateless>, s: string, t: string)
    requires !Clean(Call(KEEPALIVE, l, s))
    ensures FilterChunks(l, [s, t]).chunks == [s, FilterChunk(Fresh(Stateless), t).1]
  {
    assert [s, t][..1] == [s] && [s][..0] == [];
    assert FilterChunks(l, []) == FilterRun(l, [], true);
    hide Call, Clean;
    assert [] + [s] == [s];
    assert [s] + [FilterChunk(Fresh(Stateless), t).1] == [s, FilterChunk(Fresh(Stateless), t).1];
  }

  // ---- What the filter removes

  predicate IsKeepalive(elems: seq<string>)
    requires elems != []
  {
    elems[0] == "sync" || elems[0] == "nop"
  }

  /** A stream without its complete keepalives, as the client's parser finds them; the unfinished tail is kept. */
  function WithoutKeepalives(s: string): string
    decreases |s|
  {
    match ParseInstruction(s)
    case Got(elems, rest) => (if IsKeepalive(elems) then "" else s[..|s| - |rest|]) + WithoutKeepalives(rest)
    case _ => s
  }

  lemma {:induction false} KeepaliveVerdict(h: Hooks<Stateless>, elems: seq<string>)
    requires elems != [] && h.begin == KEEPALIVE.begin && h.argument == KEEPALIVE.argument
    ensures Instructions.Verdict(h, Stateless, elems) == (Stateless, !IsKeepalive(elems))
  {
    if |elems| > 1 {
      KeepaliveVerdict(h, elems[..|elems| - 1]);
    }
  }

  const STRICT: Hooks<Stateless> := KEEPALIVE.(tolerant := false)

  lemma {:induction false} FilteredWithoutKeepalives(s: string)
    ensures Filtered(STRICT, Stateless, s) == WithoutKeepalives(s)
    decreases |s|
  {
    var parsed := ParseInstruction(s);
    if parsed.Got? {
      KeepaliveVerdict(STRICT, parsed.elems);
      FilteredWithoutKeepalives(parsed.rest);
      hide ParseRest, Instructions.Verdict;
      assert "" + WithoutKeepalives(parsed.rest) == WithoutKeepalives(parsed.rest);
    }
  }

  lemma AdvanceStrict(k: Cursor, c: char)
    requires (k.Start? || k.Length? || k.Data?) && !Advance(false, k, c).Corrupted?
    ensures Advance(true, k, c) == Advance(false, k, c)
  {
  }

  lemma StepStrict(r: Run<Stateless>, c: char)
    requires !Step(STRICT, r, c).live.cursor.Corrupted?
    ensures Step(KEEPALIVE, r, c) == Step(STRICT, r, c)
  {
    var k := r.live.cursor;
    if k.Delim? {
      if c == ',' || c == ';' {
        assert Judge(KEEPALIVE, r, k.elem) == Judge(STRICT, r, k.elem);
        hide Judge;
      }
    } else if !k.Corrupted? {
      assert !Advance(false, k, c).Corrupted?;
      AdvanceStrict(k, c);
      hide Advance;
    }
  }

  /** On what a strict framer takes, tolerance makes no difference. */
  lemma {:induction false} FeedStrict(r: Run<Stateless>, s: string)
    requires !Feed(STRICT, r, s).live.cursor.Corrupted?
    ensures Feed(KEEPALIVE, r, s) == Feed(STRICT, r, s)
  {
    if s != "" {
      var t, c := s[..|s| - 1], s[|s| - 1];
      hide Step;
      StepCorrupted(STRICT, Feed(STRICT, r, t), c);
      FeedStrict(r, t);
      StepStrict(Feed(STRICT, r, t), c);
    }
  }

  /**
   * A clean chunk that begins at a boundary and keeps to the element cap leaves the
   * filter without exactly its complete `sync` and `nop` instructions.
   */
  lemma {:induction false} FilterRemovesKeepalives(s: string)
    requires Clean(Call(KEEPALIVE, Fresh(Stateless), s)) && !NeutralLive(s).cursor.Corrupted?
    ensures FilterChunk(Fresh(Stateless), s).1 == WithoutKeepalives(s)
  {
    OneCallFrames(STRICT, Stateless, s);
    FeedStrict(NewCall(Fresh(Stateless)), s);
    hide Feed, Filtered, WithoutKeepalives;
    CallFilters(STRICT, Stateless, s);
    FilteredWithoutKeepalives(s);
  }

  lemma {:induction false} FilterRuns(chunks: seq<string>)
    requires FilterChunks(Fresh(Stateless), chunks).clean
    ensures var x, f := RunChunks(KEEPALIVE, Fresh(Stateless), chunks), FilterChunks(Fresh(Stateless), chunks);
      x.survived && x.live == f.live && x.out == Concat(f.chunks)
  {
    if chunks != [] {
      var init, last := chunks[..|chunks| - 1], chunks[|chunks| - 1];
      FilterRuns(init);
      var f := FilterChunks(Fresh(Stateless), init);
      var (l, out) := FilterChunk(f.live, last);
      assert (f.chunks + [out])[..|f.chunks|] == f.chunks;
      hide Call, Clean;
    }
  }

  /**
   * However a stream that keeps to the element cap is cut: where the filter never
   * passes a chunk unanalysed, all that it lets through is the stream without exactly
   * its complete `sync` and `nop` instructions.
   */
  lemma {:induction false} FilteredStream(chunks: seq<string>)
    requires FilterChunks(Fresh(Stateless), chunks).clean && !NeutralLive(Concat(chunks)).cursor.Corrupted?
    ensures Concat(FilterChunks(Fresh(Stateless), chunks).chunks) == WithoutKeepalives(Concat(chunks))
  {
    FilterRuns(chunks);
    assert IndexFree(KEEPALIVE);
    hide Feed, FilterChunks, RunChunks, WithoutKeepalives, Concat, CutsAvoid;
    ChunkedIffUncut(KEEPALIVE, Fresh(Stateless), chunks);
    FilterRemovesKeepalives(Concat(chunks));
  }

  /** The printed instructions that are no keepalives. */
  function Others(instrs: seq<seq<string>>): seq<seq<string>>
    requires forall k :: 0 <= k < |instrs| ==> instrs[k] != []
  {
    if instrs == [] then [] else
    (if IsKeepalive(instrs[0]) then [] else [instrs[0]]) + Others(instrs[1..])
  }

  lemma ClosedFiltered(r: Run<Stateless>, elems: seq<string>, q: Run<Stateless>, text: string)
    requires Closed(KEEPALIVE, r, elems, q, text)
    ensures Boundary(q) && q.kept == r.kept + if IsKeepalive(elems) then "" else text
  {
    KeepaliveVerdict(KEEPALIVE, elems);
    OnlyStateless(r.live.policy);
    hide Instructions.Verdict;
    assert r.kept + "" == r.kept;
  }

  lemma OneFiltered(r: Run<Stateless>, i: seq<string>)
    requires Boundary(r) && i != [] && TakesAll(true, i)
    ensures var q := Feed(KEEPALIVE, r, Instr(i));
      Boundary(q) && q.kept == r.kept + if IsKeepalive(i) then "" else Instr(i)
  {
    assert ClampedAll(i)[0] == Clamped(i[0]);
    ClampedOpcode(i[0]);
    assert Mid(KEEPALIVE, r, [], r, "");
    hide Feed, Instr, ClampedAll, Clamped, TakesAll, Closed, Boundary, Mid;
    RunAnyLength(KEEPALIVE, r, [], r, "", i);
    assert [] + ClampedAll(i) == ClampedAll(i) && "" + Instr(i) == Instr(i);
    ClosedFiltered(r, ClampedAll(i), Feed(KEEPALIVE, r, Instr(i)), Instr(i));
  }

  lemma ClampedOpcode(e: string)
    ensures (Clamped(e) == "sync" <==> e == "sync") && (Clamped(e) == "nop" <==> e == "nop")
  {
  }

  lemma {:induction false} PrintedFiltered(r: Run<Stateless>, instrs: seq<seq<string>>)
    requires Boundary(r) && forall k :: 0 <= k < |instrs| ==> instrs[k] != [] && TakesAll(true, instrs[k])
    ensures var q := Feed(KEEPALIVE, r, EncodeAll(instrs)); Boundary(q) && q.kept == r.kept + EncodeAll(Others(instrs))
    decreases |instrs|
  {
    if instrs == [] {
      assert r.kept + "" == r.kept;
    } else {
      var i, rest := instrs[0], instrs[1..];
      var q := Feed(KEEPALIVE, r, Instr(i));
      hide Feed, Instr, TakesAll, Boundary;
      OneFiltered(r, i);
      FeedConcat(KEEPALIVE, r, Instr(i), EncodeAll(rest));
      PrintedFiltered(q, rest);
      OthersText(instrs);
      Assoc(r.kept, if IsKeepalive(i) then "" else Instr(i), EncodeAll(Others(rest)));
    }
  }

  lemma OthersText(instrs: seq<seq<string>>)
    requires instrs != [] && forall k :: 0 <= k < |instrs| ==> instrs[k] != []
    ensures EncodeAll(Others(instrs)) == (if IsKeepalive(instrs[0]) then "" else Instr(instrs[0])) + EncodeAll(Others(instrs[1..]))
  {
    hide Instr;
    var others := Others(instrs[1..]);
    if IsKeepalive(instrs[0]) {
      assert [] + others == others;
      assert "" + EncodeAll(others) == EncodeAll(others);
    } else {
      assert ([instrs[0]] + others)[1..] == others;
    }
  }

  lemma OnlyStateless(p: Stateless)
    ensures p == Stateless
  {
  }

  /** Printed instructions, with elements of any length: the keepalives go, the others stay. */
  lemma {:induction false} FilterKeepsTheRest(instrs: seq<seq<string>>)
    requires forall k :: 0 <= k < |instrs| ==> instrs[k] != [] && TakesAll(true, instrs[k])
    ensures FilterChunk(Fresh(Stateless), EncodeAll(instrs)) == (Fresh(Stateless), EncodeAll(Others(instrs)))
  {
    var r := NewCall(Fresh(Stateless));
    hide Feed, EncodeAll, Others, TakesAll;
    PrintedFiltered(r, instrs);
    var q := Feed(KEEPALIVE, r, EncodeAll(instrs));
    assert "" + EncodeAll(Others(instrs)) == EncodeAll(Others(instrs));
    assert q.live == Fresh(Stateless) by { OnlyStateless(q.live.policy); }
    assert Output(q) == q.kept by { assert q.kept + "" == q.kept; }
  }
}
