/**
 * gcdbroker's faked `sync` acknowledgements: for every `sync` in guacd's output
 * the same timestamp is echoed back. The output may contain bytes the framer
 * rejects, so the faker observes it fail open.
 */
module SyncFakerModule {
  import opened Framing
  import opened Decimal
  import opened Instructions
  import opened Encoding
  import opened OpcodeParserModule
  import opened Observer

  datatype SyncState = SyncState(isSync: bool, argIndex: nat, timestamp: string, echoes: string)

  function SyncBegin(p: SyncState, e: string): (SyncState, bool) { (SyncState(e == "sync", 0, "", p.echoes), true) }

  function SyncArgument(p: SyncState, e: string): (SyncState, bool) {
    var q := p.(argIndex := p.argIndex + 1);
    (if q.isSync && q.argIndex == 1 then q.(timestamp := e) else q, true)
  }

  function SyncEnd(p: SyncState, i: nat): SyncState {
    if p.isSync && p.timestamp != ""
    then p.(echoes := p.echoes + ("4.sync," + Numeral(|p.timestamp|) + "." + p.timestamp + ";"))
    else p
  }

  const SYNC: Hooks<SyncState> := Hooks(SyncBegin, SyncArgument, SyncEnd, true)

  const NO_SYNC := SyncState(false, 0, "", "")

  class SyncFaker {
    const parser: OpcodeParser<SyncState>

    ghost predicate Valid()
      reads this, parser, parser.elementBuffer
    {
      parser.Valid() && !parser.state.StreamCorrupted? && parser.hooks == SYNC
    }

    constructor ()
      ensures Valid() && fresh(parser) && fresh(parser.elementBuffer)
      ensures parser.LiveState() == Fresh(NO_SYNC)
    {
      parser := new OpcodeParser(SYNC, NO_SYNC);
    }

    /** Returns the replies completed by this chunk. */
    method Feed(data: string) returns (echoes: string)
      requires Valid()
      modifies parser, parser.elementBuffer
      ensures Valid()
      ensures (parser.LiveState(), echoes) == SyncFeed(old(parser.LiveState()), data)
    {
      parser.policy := parser.policy.(echoes := "");
      FeedResync(parser, data);
      return parser.policy.echoes;
    }
  }

  function Cleared(l: Live<SyncState>): Live<SyncState> { l.(policy := l.policy.(echoes := "")) }

  function SyncFeed(l: Live<SyncState>, data: string): (Live<SyncState>, string) {
    var l' := ObserveAll(SYNC, Cleared(l), data);
    (l', l'.policy.echoes)
  }

  /** The replies to a stream that arrives in chunks. */
  function SyncChunks(l: Live<SyncState>, chunks: seq<string>): (Live<SyncState>, string) {
    if chunks == [] then (l, "") else
    var (l', echoes) := SyncChunks(l, chunks[..|chunks| - 1]);
    var (l'', more) := SyncFeed(l', chunks[|chunks| - 1]);
    (l'', echoes + more)
  }

  // ---- Independence of the cuts

  function Echoing(l: Live<SyncState>, before: string): Live<SyncState> {
    l.(policy := l.policy.(echoes := before + l.policy.echoes))
  }

  lemma ObserveEchoing(l: Live<SyncState>, before: string, c: char)
    requires !l.cursor.Corrupted?
    ensures Observe(SYNC, Echoing(l, before), c) == Echoing(Observe(SYNC, l, c), before)
  {
    hide Numeral;
    if l.cursor.Delim? && l.policy.isSync {
      var reply := "4.sync," + Numeral(|l.policy.timestamp|) + "." + l.policy.timestamp + ";";
      assert before + l.policy.echoes + reply == before + (l.policy.echoes + reply);
      var p := SyncArgument(l.policy, l.cursor.elem).0;
      var reply' := "4.sync," + Numeral(|p.timestamp|) + "." + p.timestamp + ";";
      assert before + p.echoes + reply' == before + (p.echoes + reply');
    }
  }

  lemma {:induction false} ObserveAllEchoing(l: Live<SyncState>, before: string, s: string)
    requires !l.cursor.Corrupted?
    ensures ObserveAll(SYNC, Echoing(l, before), s) == Echoing(ObserveAll(SYNC, l, s), before)
    ensures !ObserveAll(SYNC, l, s).cursor.Corrupted?
  {
    if s != "" {
      ObserveAllEchoing(l, before, s[..|s| - 1]);
      ObserveEchoing(ObserveAll(SYNC, l, s[..|s| - 1]), before, s[|s| - 1]);
    }
  }

  /** On every byte stream, garbage included, the replies do not depend on how it is cut. */
  lemma {:induction false} RepliesIgnoreCuts(l: Live<SyncState>, chunks: seq<string>)
    requires !l.cursor.Corrupted? && l.policy.echoes == ""
    ensures SyncChunks(l, chunks).1 == ObserveAll(SYNC, l, Concat(chunks)).policy.echoes
    ensures Cleared(SyncChunks(l, chunks).0) == Cleared(ObserveAll(SYNC, l, Concat(chunks)))
  {
    if chunks != [] {
      var init, last := chunks[..|chunks| - 1], chunks[|chunks| - 1];
      RepliesIgnoreCuts(l, init);
      var whole := ObserveAll(SYNC, l, Concat(init));
      ObserveConcat(SYNC, l, Concat(init), last);
      ObserveAllEchoing(l, "", Concat(init));
      ObserveAllEchoing(Cleared(whole), whole.policy.echoes, last);
      hide ObserveAll;
      assert Echoing(Cleared(whole), whole.policy.echoes) == whole by {
        assert whole.policy.echoes + "" == whole.policy.echoes;
      }
    }
  }

  // ---- What the replies are

  /** The reply to one complete instruction. */
  function Reply(elems: seq<string>): string {
    if |elems| > 1 && elems[0] == "sync" && elems[1] != "" then Instr(["sync", elems[1]]) else ""
  }

  function Replies(instrs: seq<seq<string>>): string {
    if instrs == [] then "" else Replies(instrs[..|instrs| - 1]) + Reply(instrs[|instrs| - 1])
  }

  lemma SyncElement()
    ensures Element("sync") == "4.sync"
  {
    assert Numeral(4) == ['0' + 4 as char] == "4";
  }

  lemma InstrOfTwo(a: string, b: string)
    ensures Instr([a, b]) == Element(a) + "," + Element(b) + ";"
  {
    hide Element;
    assert [a, b][1..] == [b];
    assert Instr([b]) == Element(b) + ";";
    assert Instr([a, b]) == Element(a) + ("," + Instr([b]));
  }

  lemma Glue(n: string, ts: string)
    ensures "4.sync" + "," + (n + "." + ts) + ";" == "4.sync," + n + "." + ts + ";"
  {
  }

  lemma ReplyText(ts: string)
    ensures Instr(["sync", ts]) == "4.sync," + Numeral(|ts|) + "." + ts + ";"
  {
    SyncElement();
    InstrOfTwo("sync", ts);
    Glue(Numeral(|ts|), ts);
  }

  /** The same stream seen by the faker and by a parser that only collects instructions. */
  ghost predicate Matches(f: Live<SyncState>, n: Live<Collected>) {
    && !f.cursor.Corrupted? && f.cursor == n.cursor && f.opcode == n.opcode
    && Framed(true, f.cursor)
    && f.policy.echoes == Replies(n.policy.done)
    && (forall k :: 0 <= k < |n.policy.done| ==> WellFormed(n.policy.done[k]))
    && (!f.opcode ==>
          && WellFormed(n.policy.current)
          && f.policy.isSync == (n.policy.current[0] == "sync")
          && f.policy.argIndex == |n.policy.current| - 1
          && f.policy.timestamp == if f.policy.isSync && |n.policy.current| > 1 then n.policy.current[1] else "")
  }

  lemma MatchEnd(p: SyncState, current: seq<string>, done: seq<seq<string>>)
    requires Describes(p, current) && p.echoes == Replies(done)
    ensures SyncEnd(p, 0).echoes == Replies(done + [current])
  {
    assert (done + [current])[..|done|] == done;
    if p.isSync && |current| > 1 {
      ReplyText(current[1]);
    }
    assert p.echoes + "" == p.echoes;
  }

  lemma AdvanceMatches(f: Live<SyncState>, n: Live<Collected>, c: char)
    requires Matches(f, n) && (!f.cursor.Delim? || (c != ',' && c != ';'))
    ensures Matches(Observe(SYNC, f, c), Observe(Collector(true), n, c))
  {
    hide Replies, WellFormed, SyncBegin, SyncArgument, SyncEnd;
  }

  /** The collector's view of the instruction after a judged element. */
  function Elements(n: Live<Collected>): seq<string>
    requires n.cursor.Delim?
  {
    if n.opcode then [n.cursor.elem] else n.policy.current + [n.cursor.elem]
  }

  /** The faker's fields after a judged element. */
  function Judged(f: Live<SyncState>): SyncState
    requires f.cursor.Delim?
  {
    if f.opcode then SyncBegin(f.policy, f.cursor.elem).0 else SyncArgument(f.policy, f.cursor.elem).0
  }

  ghost predicate Describes(p: SyncState, current: seq<string>) {
    && WellFormed(current)
    && p.isSync == (current[0] == "sync")
    && p.argIndex == |current| - 1
    && p.timestamp == if p.isSync && |current| > 1 then current[1] else ""
  }

  lemma JudgeMatches(f: Live<SyncState>, n: Live<Collected>)
    requires Matches(f, n) && f.cursor.Delim?
    ensures Describes(Judged(f), Elements(n)) && Judged(f).echoes == f.policy.echoes
  {
    hide Replies;
  }

  lemma CommaMatches(f: Live<SyncState>, n: Live<Collected>)
    requires Matches(f, n) && f.cursor.Delim?
    ensures Matches(Observe(SYNC, f, ','), Observe(Collector(true), n, ','))
  {
    JudgeMatches(f, n);
    hide Replies, WellFormed, SyncBegin, SyncArgument, SyncEnd;
    assert Observe(SYNC, f, ',') == Live(Start, false, Judged(f));
    assert Observe(Collector(true), n, ',') == Live(Start, false, Collected(Elements(n), n.policy.done));
  }

  /** What the two are after a completed instruction. */
  lemma SemicolonLives(f: Live<SyncState>, n: Live<Collected>)
    requires Matches(f, n) && f.cursor.Delim?
    ensures Observe(SYNC, f, ';') == Live(Start, true, SyncEnd(Judged(f), 0))
    ensures Observe(Collector(true), n, ';') == Live(Start, true, Collected([], n.policy.done + [Elements(n)]))
  {
    JudgeMatches(f, n);
    hide Replies, WellFormed, SyncBegin, SyncArgument, SyncEnd;
  }

  lemma SemicolonMatches(f: Live<SyncState>, n: Live<Collected>)
    requires Matches(f, n) && f.cursor.Delim?
    ensures Matches(Observe(SYNC, f, ';'), Observe(Collector(true), n, ';'))
  {
    JudgeMatches(f, n);
    MatchEnd(Judged(f), Elements(n), n.policy.done);
    SemicolonLives(f, n);
    hide Replies, WellFormed, SyncBegin, SyncArgument, SyncEnd, Observe, Judged, Elements;
  }

  lemma {:induction false} ObserveAllMatches(s: string)
    ensures Matches(ObserveAll(SYNC, Fresh(NO_SYNC), s), ObserveAll(Collector(true), Fresh(Collected([], [])), s))
  {
    if s != "" {
      var t, c := s[..|s| - 1], s[|s| - 1];
      ObserveAllMatches(t);
      var f, n := ObserveAll(SYNC, Fresh(NO_SYNC), t), ObserveAll(Collector(true), Fresh(Collected([], [])), t);
      hide Observe, Matches;
      if f.cursor.Delim? && c == ',' {
        CommaMatches(f, n);
      } else if f.cursor.Delim? && c == ';' {
        SemicolonMatches(f, n);
      } else {
        AdvanceMatches(f, n, c);
      }
    }
  }

  /** The instructions a stream completes, garbage skipped. */
  function Completed(s: string): seq<seq<string>> {
    ObserveAll(Collector(true), Fresh(Collected([], [])), s).policy.done
  }

  /** The replies are the canonical re-encoding, in order, of each completed sync's non-empty first argument. */
  lemma {:induction false} RepliesAnswerSyncs(chunks: seq<string>)
    ensures SyncChunks(Fresh(NO_SYNC), chunks).1 == Replies(Completed(Concat(chunks)))
    ensures forall k :: 0 <= k < |Completed(Concat(chunks))| ==> WellFormed(Completed(Concat(chunks))[k])
  {
    RepliesIgnoreCuts(Fresh(NO_SYNC), chunks);
    ObserveAllMatches(Concat(chunks));
  }

  // ---- Feeding the replies back

  lemma OneReply(r: Run<SyncState>, ts: string)
    requires Boundary(r) && |ts| <= MAX_ELEMENT && Ascii(ts) && ts != ""
    ensures var q := Feed(SYNC, r, Instr(["sync", ts]));
      Boundary(q) && q.live.policy.echoes == r.live.policy.echoes + Instr(["sync", ts])
  {
    var elems := ["sync", ts];
    RunPrinted(SYNC, r, [], r, "", elems);
    assert [] + elems == elems && "" + Instr(elems) == Instr(elems);
    assert elems[..1] == ["sync"];
    assert Verdict(SYNC, r.live.policy, ["sync"]) == (SyncState(true, 0, "", r.live.policy.echoes), true);
    assert Verdict(SYNC, r.live.policy, elems) == (SyncState(true, 1, ts, r.live.policy.echoes), true);
    ReplyText(ts);
  }

  lemma {:induction false} RepliesRepeat(instrs: seq<seq<string>>)
    requires forall k :: 0 <= k < |instrs| ==> WellFormed(instrs[k])
    ensures var q := Call(SYNC, Fresh(NO_SYNC), Replies(instrs));
      Boundary(q) && q.live.policy.echoes == Replies(instrs)
  {
    if instrs != [] {
      var init, last := instrs[..|instrs| - 1], instrs[|instrs| - 1];
      RepliesRepeat(init);
      var q := Call(SYNC, Fresh(NO_SYNC), Replies(init));
      assert WellFormed(last);
      if Reply(last) == "" {
        assert Replies(init) + "" == Replies(init);
      } else {
        FeedConcat(SYNC, NewCall(Fresh(NO_SYNC)), Replies(init), Reply(last));
        OneReply(q, last[1]);
      }
    }
  }

  /** A fresh faker that is fed the replies of a stream reproduces them exactly. */
  lemma {:induction false} RepliesAreStable(chunks: seq<string>)
    ensures var replies := SyncChunks(Fresh(NO_SYNC), chunks).1;
      SyncFeed(Fresh(NO_SYNC), replies).1 == replies
  {
    RepliesAnswerSyncs(chunks);
    var replies := SyncChunks(Fresh(NO_SYNC), chunks).1;
    RepliesRepeat(Completed(Concat(chunks)));
    CallObserves(SYNC, Fresh(NO_SYNC), replies);
  }
}
