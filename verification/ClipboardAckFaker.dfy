/**
 * gmlbroker fakes the `ack` for every clipboard blob the guard is going to drop
 * for its size. It watches the same stream with its own framer and its own
 * tracking, so it has to predict the guard.
 */
module ClipboardAckFakerModule {
  import opened Framing
  import opened Decimal
  import opened Chunking
  import opened GuacClient
  import opened Instructions
  import opened OpcodeParserModule
  import opened Observer
  import opened GuardPolicyModule

  datatype AckState = AckState(opcode: string, sidx: int, arg: nat, blobOnClipboard: bool, acks: string)

  /** std::to_string */
  function IntText(n: int): string { if n < 0 then "-" + Numeral(-n) else Numeral(n) }

  /** A success ack for a stream. */
  function MakeAck(sidx: int): string {
    "3.ack," + Numeral(|IntText(sidx)|) + "." + IntText(sidx) + ",2.OK,1.0;"
  }

  function AckBegin(p: AckState, e: string): (AckState, bool) { (AckState(e, p.sidx, 0, false, p.acks), true) }

  function AckArgument(p: AckState, e: string): (AckState, bool) {
    var q := p.(arg := p.arg + 1);
    var q' :=
      if q.arg == 1 then
        var sidx := ParseIndex(e);
        if q.opcode == "clipboard" then q.(sidx := sidx)
        else if q.opcode == "blob" then q.(blobOnClipboard := sidx >= 0 && sidx == q.sidx)
        else if q.opcode == "end" && sidx == q.sidx then q.(sidx := -1)
        else q
      else if q.arg == 2 && q.blobOnClipboard && |e| > MAX_CLIPBOARD_BYTES then q.(acks := q.acks + MakeAck(q.sidx))
      else q;
    (q', true)
  }

  function AckEnd(p: AckState, i: nat): AckState { p }

  const ACK: Hooks<AckState> := Hooks(AckBegin, AckArgument, AckEnd, true)

  const NO_CLIPBOARD := AckState("", -1, 0, false, "")

  class ClipboardAckFaker {
    const parser: OpcodeParser<AckState>

    ghost predicate Valid()
      reads this, parser, parser.elementBuffer
    {
      parser.Valid() && !parser.state.StreamCorrupted? && parser.hooks == ACK
    }

    constructor ()
      ensures Valid() && fresh(parser) && fresh(parser.elementBuffer)
      ensures parser.LiveState() == Fresh(NO_CLIPBOARD)
    {
      parser := new OpcodeParser(ACK, NO_CLIPBOARD);
    }

    method Feed(data: string) returns (acks: string)
      requires Valid()
      modifies parser, parser.elementBuffer
      ensures Valid()
      ensures (parser.LiveState(), acks) == AckFeed(old(parser.LiveState()), data)
    {
      parser.policy := parser.policy.(acks := "");
      FeedResync(parser, data);
      return parser.policy.acks;
    }
  }

  function AckFeed(l: Live<AckState>, data: string): (Live<AckState>, string) {
    var l' := ObserveAll(ACK, l.(policy := l.policy.(acks := "")), data);
    (l', l'.policy.acks)
  }

  function AckChunks(l: Live<AckState>, chunks: seq<string>): (Live<AckState>, string) {
    if chunks == [] then (l, "") else
    var (l', acks) := AckChunks(l, chunks[..|chunks| - 1]);
    var (l'', more) := AckFeed(l', chunks[|chunks| - 1]);
    (l'', acks + more)
  }

  // ---- The faker predicts the guard

  /** The guard refused the instruction at its second argument: its fields have just counted it. */
  predicate AtPayload(p: GuardPolicy) { p.arg == 2 }

  /** The acks for a list of denials, given by the guard's fields right after each. */
  function Acks(refused: seq<GuardPolicy>): string {
    if refused == [] then "" else
    var last := refused[|refused| - 1];
    Acks(refused[..|refused| - 1]) + if AtPayload(last) then MakeAck(last.sidx) else ""
  }

  lemma AcksNext(refused: seq<GuardPolicy>, p: GuardPolicy)
    ensures Acks(refused + [p]) == Acks(refused) + if AtPayload(p) then MakeAck(p.sidx) else ""
  {
    assert (refused + [p])[..|refused|] == refused;
  }

  lemma {:induction false} AcksConcat(a: seq<GuardPolicy>, b: seq<GuardPolicy>)
    ensures Acks(a + b) == Acks(a) + Acks(b)
  {
    if b == [] {
      assert a + b == a && Acks(a) + "" == Acks(a);
    } else {
      var init, last := b[..|b| - 1], b[|b| - 1];
      assert (a + b)[..|a + b| - 1] == a + init;
      AcksConcat(a, init);
      Assoc(Acks(a), Acks(init), if AtPayload(last) then MakeAck(last.sidx) else "");
    }
  }

  /** The fields of guard and faker inside an instruction the guard has not denied. */
  predicate SameTracking(g: GuardPolicy, f: AckState) {
    && g.opcode == f.opcode && g.arg == f.arg
    && (g.cap ==> g.arg == 1 && g.opcode == "blob")
    && (g.arg == 0 ==> !f.blobOnClipboard)
    && (g.arg == 1 ==> f.blobOnClipboard == g.cap)
  }

  /** What is left of a denied instruction cannot change the faker's tracking or make it emit. */
  predicate Harmless(f: AckState) {
    && f.opcode != "clipboard" && f.opcode != "end"
    && (f.arg == 0 ==> f.opcode != "blob" && !f.blobOnClipboard)
    && (f.arg == 1 ==> !f.blobOnClipboard)
  }

  ghost predicate Predicts(g: Run<GuardPolicy>, f: Live<AckState>) {
    && f.cursor == g.live.cursor && f.opcode == g.live.opcode && !f.cursor.Corrupted?
    && f.policy.sidx == g.live.policy.sidx
    && f.policy.acks == Acks(g.refused)
    && (g.denying ==> !f.opcode && Harmless(f.policy))
    && (!g.denying && !f.opcode ==> SameTracking(g.live.policy, f.policy))
  }

  lemma JudgePredicts(g: GuardPolicy, f: AckState, opcode: bool, e: string)
    requires f.sidx == g.sidx && (!opcode ==> SameTracking(g, f))
    ensures var (p, ok) := if opcode then GuardBegin(g, e) else GuardArgument(g, e);
      var q := (if opcode then AckBegin(f, e) else AckArgument(f, e)).0;
      && q.sidx == p.sidx
      && (if ok then SameTracking(p, q) else Harmless(q))
      && q.acks == f.acks + if !ok && AtPayload(p) then MakeAck(p.sidx) else ""
  {
    hide MakeAck, ParseIndex;
    assert f.acks + "" == f.acks;
  }

  lemma HarmlessStays(f: AckState, e: string)
    requires Harmless(f)
    ensures var q := AckArgument(f, e).0; Harmless(q) && q.sidx == f.sidx && q.acks == f.acks
  {
  }

  lemma StepPredictsAdvance(g: Run<GuardPolicy>, f: Live<AckState>, c: char)
    requires Predicts(g, f) && InCall(GUARD, g) && !g.live.cursor.Delim? && !Step(GUARD, g, c).live.cursor.Corrupted?
    ensures Predicts(Step(GUARD, g, c), Observe(ACK, f, c))
  {
    hide Acks, Harmless, SameTracking;
  }

  lemma StepPredictsDenying(g: Run<GuardPolicy>, f: Live<AckState>, c: char)
    requires Predicts(g, f) && g.live.cursor.Delim? && g.denying && (c == ',' || c == ';')
    ensures Predicts(Step(GUARD, g, c), Observe(ACK, f, c))
  {
    HarmlessStays(f.policy, f.cursor.elem);
    hide Acks, Harmless, SameTracking, AckArgument;
  }

  lemma StepPredictsJudging(g: Run<GuardPolicy>, f: Live<AckState>, c: char)
    requires Predicts(g, f) && g.live.cursor.Delim? && !g.denying && (c == ',' || c == ';')
    requires !Step(GUARD, g, c).live.cursor.Corrupted?
    ensures Predicts(Step(GUARD, g, c), Observe(ACK, f, c))
  {
    var e := f.cursor.elem;
    var p := if f.opcode then GuardBegin(g.live.policy, e).0 else GuardArgument(g.live.policy, e).0;
    JudgePredicts(g.live.policy, f.policy, f.opcode, e);
    AcksNext(g.refused, p);
    assert Acks(g.refused) + "" == Acks(g.refused);
    hide Acks, Harmless, SameTracking, AckArgument, GuardArgument, AckBegin, GuardBegin;
  }

  lemma {:induction false} CallPredicts(g: Live<GuardPolicy>, f: Live<AckState>, s: string)
    requires Predicts(NewCall(g), f) && Framed(false, g.cursor) && !Call(GUARD, g, s).live.cursor.Corrupted?
    ensures Predicts(Call(GUARD, g, s), ObserveAll(ACK, f, s))
  {
    if s != "" {
      var t, c := s[..|s| - 1], s[|s| - 1];
      var r, o := Call(GUARD, g, t), ObserveAll(ACK, f, t);
      assert Call(GUARD, g, s) == Step(GUARD, r, c);
      StepCorrupted(GUARD, r, c);
      FeedInCall(GUARD, NewCall(g), t);
      CallPredicts(g, f, t);
      var delim, denying := r.live.cursor.Delim?, r.denying;
      assert delim ==> c == ',' || c == ';';
      hide Feed, Step, Predicts, Observe;
      if !delim {
        StepPredictsAdvance(r, o, c);
      } else if denying {
        StepPredictsDenying(r, o, c);
      } else {
        StepPredictsJudging(r, o, c);
      }
    }
  }

  /** Between two chunks: same framing, same tracked stream, and the same instruction in progress. */
  ghost predicate Prepared(g: Live<GuardPolicy>, f: Live<AckState>) {
    && f.cursor == g.cursor && f.opcode == g.opcode && !f.cursor.Corrupted?
    && f.policy.sidx == g.policy.sidx
    && (!f.opcode ==> SameTracking(g.policy, f.policy))
  }

  lemma ChunkPredicts(g: Live<GuardPolicy>, f: Live<AckState>, s: string)
    requires Prepared(g, f) && Framed(false, g.cursor) && Clean(Call(GUARD, g, s))
    ensures var (f', acks) := AckFeed(f, s);
      Prepared(Call(GUARD, g, s).live, f') && acks == Acks(Call(GUARD, g, s).refused)
  {
    CallPredicts(g, f.(policy := f.policy.(acks := "")), s);
    hide Feed, ObserveAll;
  }

  /**
   * Over any chunks the guard survives, the faker emits exactly one ack, with the
   * tracked index, for each instruction the guard denies at its second argument,
   * in order and no other; and the two track the same stream throughout.
   */
  lemma {:induction false} FakerPredictsGuard(g: Live<GuardPolicy>, f: Live<AckState>, chunks: seq<string>)
    requires Prepared(g, f) && Framed(false, g.cursor) && RunChunks(GUARD, g, chunks).survived
    ensures AckChunks(f, chunks).1 == Acks(RunChunks(GUARD, g, chunks).refused)
    ensures Prepared(RunChunks(GUARD, g, chunks).live, AckChunks(f, chunks).0)
    ensures Framed(false, RunChunks(GUARD, g, chunks).live.cursor)
  {
    if chunks != [] {
      var init, last := chunks[..|chunks| - 1], chunks[|chunks| - 1];
      FakerPredictsGuard(g, f, init);
      var c := RunChunks(GUARD, g, init);
      var (f', acks) := AckChunks(f, init);
      ChunkPredicts(c.live, f', last);
      FeedInCall(GUARD, NewCall(c.live), last);
      AcksConcat(c.refused, Call(GUARD, c.live, last).refused);
      hide Feed, AckFeed, Prepared, Acks;
    }
  }

  // ---- The same, in terms of the stream

  /** A blob for the open clipboard stream whose second argument exceeds the cap. */
  predicate Oversized(open: int, elems: seq<string>) {
    && |elems| > 2 && elems[0] == "blob"
    && 0 <= ParseIndex(elems[1]) == open
    && |elems[2]| > MAX_CLIPBOARD_BYTES
  }

  /** The acks due for a stream: one for each oversized clipboard blob. */
  function AcksDue(open: int, s: string): string
    decreases |s|
  {
    match ParseInstruction(s)
    case Got(elems, rest) =>
      if Oversized(open, elems) then MakeAck(open) + AcksDue(open, rest)
      else if Conforms(open, elems) then AcksDue(Effect(open, elems), rest)
      else AcksDue(open, rest)
    case _ => ""
  }

  /** A denied instruction was denied at its second argument exactly if it is an oversized clipboard blob. */
  lemma {:induction false} DeniedAtPayload(p: GuardPolicy, elems: seq<string>)
    requires elems != [] && !Verdict(GUARD, p, elems).1
    ensures AtPayload(Verdict(GUARD, p, elems).0) <==> Oversized(p.sidx, elems)
  {
    if |elems| > 1 {
      var init, e := elems[..|elems| - 1], elems[|elems| - 1];
      assert elems == init + [e];
      GuardMeans(p, init);
      if !Verdict(GUARD, p, init).1 {
        DeniedAtPayload(p, init);
      }
    }
  }

  lemma ClosedAcks(r0: Run<GuardPolicy>, elems: seq<string>, q: Run<GuardPolicy>, text: string, s: string, rest: string)
    requires Closed(GUARD, r0, elems, q, text) && ParseInstruction(s) == Got(elems, rest)
    ensures Acks(q.refused) + AcksDue(q.live.policy.sidx, rest) == Acks(r0.refused) + AcksDue(r0.live.policy.sidx, s)
  {
    var open := r0.live.policy.sidx;
    var (p, allowed) := Verdict(GUARD, r0.live.policy, elems);
    GuardMeans(r0.live.policy, elems);
    assert Oversized(open, elems) ==> !Conforms(open, elems);
    hide ParseRest, Conforms, Effect, MakeAck, Verdict;
    if !allowed {
      DeniedAtPayload(r0.live.policy, elems);
      AcksNext(r0.refused, p);
      hide Oversized;
      if AtPayload(p) {
        Assoc(Acks(r0.refused), MakeAck(open), AcksDue(open, rest));
      } else {
        assert Acks(r0.refused) + "" == Acks(r0.refused);
      }
    }
  }

  /** The run is left with the acks due for `s`. */
  ghost predicate Pays(r0: Run<GuardPolicy>, s: string) {
    Acks(Feed(GUARD, r0, s).refused) == Acks(r0.refused) + AcksDue(r0.live.policy.sidx, s)
  }

  lemma PaysGot(r0: Run<GuardPolicy>, elems: seq<string>, head: string, s: string, rest: string)
    requires Closed(GUARD, r0, elems, Feed(GUARD, r0, head), head) && ParseInstruction(s) == Got(elems, rest)
    requires s == head + rest && Pays(Feed(GUARD, r0, head), rest)
    ensures Pays(r0, s)
  {
    ClosedAcks(r0, elems, Feed(GUARD, r0, head), head, s, rest);
    FeedConcat(GUARD, r0, head, rest);
    hide Feed, Closed, Acks, AcksDue;
  }

  lemma PaysNone(r0: Run<GuardPolicy>, s: string)
    requires Boundary(r0) && !ParseInstruction(s).Got? && Unfinished(r0, Feed(GUARD, r0, s), s)
    requires Clean(Feed(GUARD, r0, s))
    ensures Pays(r0, s)
  {
    FeedRecorded(GUARD, r0, s);
    hide Feed, ParseRest, Acks;
    assert Feed(GUARD, r0, s).refused == r0.refused;
    assert Acks(r0.refused) + "" == Acks(r0.refused);
  }

  lemma {:induction false} PaysFrom(r0: Run<GuardPolicy>, s: string)
    requires Boundary(r0) && Ascii(s) && Clean(Feed(GUARD, r0, s))
    ensures Pays(r0, s)
    decreases |s|
  {
    Walk(GUARD, r0, [], r0, "", s);
    var parsed := ParseInstruction(s);
    if parsed.Got? {
      var head := s[..|s| - |parsed.rest|];
      assert "" + head == head;
      Cut(s, |head|);
      FeedConcat(GUARD, r0, head, parsed.rest);
      assert Boundary(Feed(GUARD, r0, head)) && Closed(GUARD, r0, parsed.elems, Feed(GUARD, r0, head), head);
      hide Feed, ParseRest, Closed, Pays, Ascii;
      PaysFrom(Feed(GUARD, r0, head), parsed.rest);
      PaysGot(r0, parsed.elems, head, s, parsed.rest);
    } else {
      PaysNone(r0, s);
    }
  }

  /**
   * From fresh parsers on, over any chunks the guard survives, the browser is sent
   * exactly one ack for each oversized clipboard blob of the stream, in order.
   */
  lemma {:induction false} FakerAcksOversized(chunks: seq<string>)
    requires RunChunks(GUARD, Fresh(NO_STREAM), chunks).survived
    ensures AckChunks(Fresh(NO_CLIPBOARD), chunks).1 == AcksDue(-1, Concat(chunks))
  {
    FakerPredictsGuard(Fresh(NO_STREAM), Fresh(NO_CLIPBOARD), chunks);
    ChunkedIffUncut(GUARD, Fresh(NO_STREAM), chunks);
    var r0 := NewCall(Fresh(NO_STREAM));
    UncorruptedIsAscii(GUARD, r0, Concat(chunks));
    PaysFrom(r0, Concat(chunks));
  }
}
