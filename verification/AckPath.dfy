/**
 * gmlbroker queues the acks it fakes on the path of guacd's own traffic, so an
 * ack can land between any two datagrams of guacd's.
 */
module AckPath {
  import opened Framing
  import opened Decimal
  import opened Instructions
  import opened Encoding
  import opened NeutralFraming
  import opened Insertion
  import opened Observer
  import opened GuardPolicyModule
  import opened ClipboardAckFakerModule
  import opened MultiplexerModule
  import opened ReturnFilterModule
  import opened GuacamoleSendHandlerModule

  function AckElements(sidx: int): seq<string> { ["ack", IntText(sidx), "OK", "0"] }

  lemma SmallElements()
    ensures Element("ack") == "3.ack" && Element("OK") == "2.OK" && Element("0") == "1.0"
  {
    assert Numeral(3) == ['0' + 3 as char] == "3";
    assert Numeral(2) == ['0' + 2 as char] == "2";
    assert Numeral(1) == ['0' + 1 as char] == "1";
  }

  lemma FourElements(a: string, b: string, c: string, d: string)
    ensures Instr([a, b, c, d]) == Element(a) + ("," + (Element(b) + ("," + (Element(c) + ("," + (Element(d) + ";"))))))
  {
    hide Element;
    assert [a, b, c, d][1..] == [b, c, d] && [b, c, d][1..] == [c, d] && [c, d][1..] == [d];
    assert Instr([d]) == Element(d) + ";";
    assert Instr([c, d]) == Element(c) + ("," + Instr([d]));
    assert Instr([b, c, d]) == Element(b) + ("," + Instr([c, d]));
  }

  lemma GlueAck(n: string, idx: string)
    ensures "3.ack" + ("," + ((n + "." + idx) + ("," + ("2.OK" + ("," + ("1.0" + ";")))))) == "3.ack," + n + "." + idx + ",2.OK,1.0;"
  {
  }

  /** A faked ack is one printed instruction. */
  lemma {:induction false} AckIsInstruction(sidx: int)
    ensures MakeAck(sidx) == Instr(AckElements(sidx))
  {
    SmallElements();
    FourElements("ack", IntText(sidx), "OK", "0");
    GlueAck(Numeral(|IntText(sidx)|), IntText(sidx));
  }

  /** Stream indices are 32-bit. */
  predicate IsIndex(sidx: int) { INT_MIN <= sidx <= INT_MAX }

  predicate Indices(idxs: seq<int>) { forall i :: 0 <= i < |idxs| ==> IsIndex(idxs[i]) }

  lemma IndexText(sidx: int)
    requires IsIndex(sidx)
    ensures |IntText(sidx)| <= 11 && Ascii(IntText(sidx)) && NoSemicolon(IntText(sidx))
  {
    NumeralTen(if sidx < 0 then -sidx else sidx);
  }

  predicate NoSemicolon(s: string) { forall i :: 0 <= i < |s| ==> s[i] != ';' }

  /** The acks of one chunk travel in one message. */
  function MakeAcks(idxs: seq<int>): string {
    if idxs == [] then "" else MakeAck(idxs[0]) + MakeAcks(idxs[1..])
  }

  function AckInstructions(idxs: seq<int>): seq<seq<string>> {
    if idxs == [] then [] else [AckElements(idxs[0])] + AckInstructions(idxs[1..])
  }

  lemma {:induction false} AcksPrinted(idxs: seq<int>)
    ensures MakeAcks(idxs) == EncodeAll(AckInstructions(idxs)) && |AckInstructions(idxs)| == |idxs|
    decreases |idxs|
  {
    if idxs != [] {
      AckIsInstruction(idxs[0]);
      AcksPrinted(idxs[1..]);
      hide MakeAck, AckElements, Instr;
      assert AckInstructions(idxs)[1..] == AckInstructions(idxs[1..]);
    }
  }

  lemma AckFits(sidx: int)
    requires IsIndex(sidx)
    ensures WellFormed(AckElements(sidx)) && forall j :: 0 <= j < 4 ==> |AckElements(sidx)[j]| < MAX_ELEMENT
  {
    IndexText(sidx);
    hide IntText;
  }

  lemma {:induction false} AcksInsertable(tolerant: bool, idxs: seq<int>)
    requires Indices(idxs)
    ensures Insertable(tolerant, AckInstructions(idxs))
    decreases |idxs|
  {
    if idxs != [] {
      AckFits(idxs[0]);
      AcksInsertable(tolerant, idxs[1..]);
      assert |AckElements(idxs[0])| == 4;
      hide AckElements, WellFormed;
    }
  }

  /** Read from its beginning, the stream `after` is `before` with the acks as further instructions, and at a boundary. */
  ghost predicate ReadsAcks(tolerant: bool, before: string, after: string, idxs: seq<int>) {
    ReadAll(tolerant, after) == Fresh(Collected([], ReadAll(tolerant, before).policy.done + AckInstructions(idxs)))
  }

  /**
   * A message of acks that lands behind `s` in a stream is read as just these
   * further instructions, and leaves the stream at a boundary, if and only if `s`
   * ends between two instructions or in the leading zeros of the next one's length
   * prefix; for readers that tolerate oversized elements and for those that do not.
   */
  lemma {:induction false} AcksInsertedIff(tolerant: bool, s: string, idxs: seq<int>)
    requires Indices(idxs) && idxs != []
    ensures ReadsAcks(tolerant, s, s + MakeAcks(idxs), idxs) <==> InsertionPoint(ReadAll(tolerant, s))
  {
    AcksPrinted(idxs);
    AcksInsertable(tolerant, idxs);
    hide ReadAll, MakeAcks, AckInstructions, Insertable, EncodeAll, InsertionPoint;
    InsertedIff(tolerant, s, AckInstructions(idxs));
  }

  // ---- What the faker sends

  /** What the faker has emitted for a chunk is such a message, with indices of 32 bits. */
  ghost predicate Faked(l: Live<AckState>) {
    IsIndex(l.policy.sidx) && IsMessage(l.policy.acks)
  }

  ghost predicate IsMessage(acks: string) { exists idxs: seq<int> :: Indices(idxs) && acks == MakeAcks(idxs) }

  lemma OneIndex(sidx: int)
    ensures MakeAcks([sidx]) == MakeAck(sidx) && AckInstructions([sidx]) == [AckElements(sidx)]
  {
    hide MakeAck, AckElements;
    assert [sidx][1..] == [] && MakeAck(sidx) + "" == MakeAck(sidx);
  }

  lemma NoAcks()
    ensures MakeAcks([]) == "" && AckInstructions([]) == []
  {
  }

  lemma {:induction false} MakeAcksMore(idxs: seq<int>, sidx: int)
    ensures MakeAcks(idxs + [sidx]) == MakeAcks(idxs) + MakeAck(sidx)
    decreases |idxs|
  {
    hide MakeAck;
    OneIndex(sidx);
    if idxs == [] {
      assert [] + [sidx] == [sidx];
      assert "" + MakeAck(sidx) == MakeAck(sidx);
    } else {
      assert (idxs + [sidx])[0] == idxs[0] && (idxs + [sidx])[1..] == idxs[1..] + [sidx];
      MakeAcksMore(idxs[1..], sidx);
      Assoc(MakeAck(idxs[0]), MakeAcks(idxs[1..]), MakeAck(sidx));
    }
  }

  lemma MessageMore(acks: string, sidx: int)
    requires IsMessage(acks) && IsIndex(sidx)
    ensures IsMessage(acks + MakeAck(sidx))
  {
    hide MakeAcks, MakeAck;
    var idxs: seq<int> :| Indices(idxs) && acks == MakeAcks(idxs);
    MakeAcksMore(idxs, sidx);
    assert Indices(idxs + [sidx]);
  }

  lemma ParsedIndex(e: string)
    ensures IsIndex(ParseIndex(e))
  {
    hide Value, AllDigits;
  }

  lemma ArgumentFakes(p: AckState, e: string)
    ensures var q := AckArgument(p, e).0;
      && (q.sidx == p.sidx || q.sidx == -1 || q.sidx == ParseIndex(e))
      && (q.acks == p.acks || q.acks == p.acks + MakeAck(p.sidx))
  {
    hide ParseIndex, MakeAck;
  }

  lemma JudgeFakes(l: Live<AckState>, e: string)
    ensures var q := Judge(ACK, NewCall(l), e).live.policy;
      && (q.sidx == l.policy.sidx || q.sidx == -1 || q.sidx == ParseIndex(e))
      && (q.acks == l.policy.acks || q.acks == l.policy.acks + MakeAck(l.policy.sidx))
  {
    ArgumentFakes(l.policy, e);
    hide ParseIndex, MakeAck, AckArgument;
  }

  lemma StepPolicy(l: Live<AckState>, c: char)
    ensures var q := Observe(ACK, l, c).policy;
      q == l.policy || (l.cursor.Delim? && q == Judge(ACK, NewCall(l), l.cursor.elem).live.policy)
  {
    hide AckArgument, AckBegin, Advance;
  }

  lemma StepFaked(l: Live<AckState>, c: char)
    requires Faked(l)
    ensures Faked(Observe(ACK, l, c))
  {
    hide IsMessage, MakeAck, ParseIndex, Observe, Judge;
    MessageMore(l.policy.acks, l.policy.sidx);
    StepPolicy(l, c);
    if l.cursor.Delim? {
      JudgeFakes(l, l.cursor.elem);
      ParsedIndex(l.cursor.elem);
    }
  }

  lemma {:induction false} AllFaked(l: Live<AckState>, s: string)
    requires Faked(l)
    ensures Faked(ObserveAll(ACK, l, s))
  {
    if s != "" {
      hide Faked, Observe;
      AllFaked(l, s[..|s| - 1]);
      StepFaked(ObserveAll(ACK, l, s[..|s| - 1]), s[|s| - 1]);
    }
  }

  /** On every chunk, garbage included, the faker emits a message of acks, from any 32-bit index on. */
  lemma {:induction false} FakerSendsAcks(l: Live<AckState>, data: string)
    requires IsIndex(l.policy.sidx)
    ensures var (l', acks) := AckFeed(l, data);
      IsIndex(l'.policy.sidx) && exists idxs: seq<int> :: Indices(idxs) && acks == MakeAcks(idxs)
  {
    NoAcks();
    assert IsMessage("") by {
      assert Indices([]);
    }
    hide ObserveAll, IsIndex, MakeAcks, Indices;
    AllFaked(l.(policy := l.policy.(acks := "")), data);
  }

  /** Behind `4.size,` the ack is lost and the client's size falsified, without a framing error. */
  lemma {:induction false} AckFalsifies(tolerant: bool, sidx: int)
    requires IsIndex(sidx)
    ensures ReadAll(tolerant, "4.size," + MakeAck(sidx)) == Fresh(Collected([], [["size", "ack", IntText(sidx), "OK", "0"]]))
  {
    var l := Fresh(Collected([], []));
    SizeText();
    AckFits(sidx);
    AckIsInstruction(sidx);
    ReadPrintedElement(tolerant, l, "size", ',');
    assert [] + ["size"] == ["size"];
    hide Read, MakeAck, Element, AckElements, Instr, WellFormed;
    ReadConcat(tolerant, l, "4.size,", MakeAck(sidx));
    ReadPrinted(tolerant, Live(Start, false, Collected(["size"], [])), AckElements(sidx));
    SizeAck(sidx);
  }

  lemma SizeText()
    ensures Element("size") + [','] == "4.size,"
  {
    assert Element("size") == "4.size" by {
      assert Numeral(4) == ['0' + 4 as char] == "4";
    }
    hide Element;
    assert "4.size" + [','] == "4.size,";
  }

  lemma SizeAck(sidx: int)
    ensures [] + [["size"] + AckElements(sidx)] == [["size", "ack", IntText(sidx), "OK", "0"]]
  {
    hide IntText;
    var all := ["size", "ack", IntText(sidx), "OK", "0"];
    assert ["size"] + AckElements(sidx) == all;
    assert [] + [all] == [all];
  }

  // ---- On its way to the browser

  /** The return filter frames as the neutral framer does. */
  ghost predicate FramedAlike(x: Run<ReturnState>, y: Run<Collected>) {
    && x.live.cursor == y.live.cursor && x.live.opcode == y.live.opcode && !x.denying && !y.denying
  }

  lemma StepFramedAlike(x: Run<ReturnState>, y: Run<Collected>, c: char)
    requires FramedAlike(x, y)
    ensures FramedAlike(Step(RETURN, x, c), Step(Collector(false), y, c))
  {
  }

  lemma {:induction false} FeedFramedAlike(x: Run<ReturnState>, y: Run<Collected>, s: string)
    requires FramedAlike(x, y)
    ensures FramedAlike(Feed(RETURN, x, s), Feed(Collector(false), y, s))
  {
    if s != "" {
      FeedFramedAlike(x, y, s[..|s| - 1]);
      hide Step, FramedAlike;
      StepFramedAlike(Feed(RETURN, x, s[..|s| - 1]), Feed(Collector(false), y, s[..|s| - 1]), s[|s| - 1]);
    }
  }

  lemma FilterFrames(s: string)
    ensures ReturnCall(s).live.cursor == NeutralLive(s).cursor && ReturnCall(s).live.opcode == NeutralLive(s).opcode
  {
    FeedFramedAlike(NewCall(Fresh(SWALLOWING)), NewCall(Fresh(Collected([], []))), s);
    hide Feed;
  }

  lemma StepPipesAtSemicolon(r: Run<ReturnState>, c: char)
    requires !r.live.policy.piping && Step(RETURN, r, c).live.policy.piping
    ensures c == ';' && Step(RETURN, r, c).live.policy.readyEnd == r.pos + 1 && !r.live.cursor.Corrupted?
  {
  }

  /** A chunk in which the filter begins to pipe has a ';' right before what is passed on. */
  lemma {:induction false} PipesAtSemicolon(l: Live<ReturnState>, s: string)
    requires !l.policy.piping && Framed(false, l.cursor) && Call(RETURN, l, s).live.policy.piping
    ensures var n := Call(RETURN, l, s).live.policy.readyEnd; 0 < n <= |s| && s[n - 1] == ';'
  {
    var t, c := s[..|s| - 1], s[|s| - 1];
    var r := Call(RETURN, l, t);
    FeedLast(RETURN, NewCall(l), t, c);
    assert s == t + [c];
    FeedInCall(RETURN, NewCall(l), t);
    hide Feed, Step;
    if r.live.policy.piping {
      StepKeepsPiping(r, c);
      PipesAtSemicolon(l, t);
    } else {
      StepPipesAtSemicolon(r, c);
    }
  }

  lemma OnlySemicolon(sidx: int, i: nat)
    requires IsIndex(sidx) && i < |MakeAck(sidx)| && MakeAck(sidx)[i] == ';'
    ensures i == |MakeAck(sidx)| - 1
  {
    var x := IntText(sidx);
    var n := Numeral(|x|);
    IndexText(sidx);
    SemicolonLast(n, x, i);
  }

  lemma SemicolonLast(n: string, x: string, i: nat)
    requires AllDigits(n) && NoSemicolon(x) && i < |"3.ack," + n + "." + x + ",2.OK,1.0;"|
    requires ("3.ack," + n + "." + x + ",2.OK,1.0;")[i] == ';'
    ensures i == |"3.ack," + n + "." + x + ",2.OK,1.0;"| - 1
  {
    assert NoSemicolon(n);
    assert NoSemicolon("3.ack," + n + "." + x + ",2.OK,1.0");
    assert "3.ack," + n + "." + x + ",2.OK,1.0;" == "3.ack," + n + "." + x + ",2.OK,1.0" + ";";
  }

  lemma {:induction false} MakeAcksConcat(a: seq<int>, b: seq<int>)
    ensures MakeAcks(a + b) == MakeAcks(a) + MakeAcks(b)
    decreases |a|
  {
    if a == [] {
      assert a + b == b;
    } else {
      assert (a + b)[0] == a[0] && (a + b)[1..] == a[1..] + b;
      hide MakeAck;
      MakeAcksConcat(a[1..], b);
      Assoc(MakeAck(a[0]), MakeAcks(a[1..]), MakeAcks(b));
    }
  }

  /** Every ';' of a message of acks ends one of them. */
  lemma {:induction false} SemicolonEndsAck(idxs: seq<int>, i: nat) returns (k: nat)
    requires Indices(idxs) && i < |MakeAcks(idxs)| && MakeAcks(idxs)[i] == ';'
    ensures 0 < k <= |idxs| && i + 1 == |MakeAcks(idxs[..k])|
    decreases |idxs|
  {
    var ack, rest := MakeAck(idxs[0]), idxs[1..];
    hide MakeAck;
    if i < |ack| {
      OnlySemicolon(idxs[0], i);
      OneIndex(idxs[0]);
      assert idxs[..1] == [idxs[0]];
      k := 1;
    } else {
      var j := SemicolonEndsAck(rest, i - |ack|);
      k := j + 1;
      assert idxs[..k][0] == idxs[0] && idxs[..k][1..] == rest[..j];
    }
  }

  // ---- Indices as text

  /** Every 32-bit index is read back from the text that is written of it. */
  lemma {:induction false} IndexRoundTrip(n: int)
    requires IsIndex(n)
    ensures ParseIndex(IntText(n)) == n
  {
    if n < 0 {
      var d := Numeral(-n);
      assert ("-" + d)[0] == '-' && ("-" + d)[1..] == d;
      hide Numeral;
    } else {
      var d := Numeral(n);
      assert IsDigit(d[0]);
      hide Numeral;
    }
  }

  /** A clipboard blob of 66 bytes on the open stream is allowed, one of 67 refused. */
  lemma {:induction false} BlobLimit(p: GuardPolicy, data: string)
    requires 0 <= p.sidx && IsIndex(p.sidx)
    ensures Instructions.Verdict(GUARD, p, ["blob", IntText(p.sidx), data]).1 <==> |data| <= 66
  {
    IndexRoundTrip(p.sidx);
    GuardMeans(p, ["blob", IntText(p.sidx), data]);
    hide Instructions.Verdict, IntText, ParseIndex;
  }

  // ---- The return path

  /** The return path of an approved channel, after `events`. */
  function Path(p: ReturnPath, m: BridgeMessage, events: seq<ReturnEvent>): Handed {
    Deliver(Route(p, m), m.channel, events)
  }

  /** What the return filter has passed on of everything that has arrived. */
  function Passed(events: seq<ReturnEvent>): string { ReturnChunks(Texts(events)).1 }

  lemma TextsMore(events: seq<ReturnEvent>, text: string)
    ensures Texts(events + [Arrives(text)]) == Texts(events) + [text]
    ensures Concat(Texts(events + [Arrives(text)])) == Concat(Texts(events)) + text
  {
    assert (events + [Arrives(text)])[..|events|] == events;
    ConcatMore(Texts(events), text);
    hide Concat;
  }

  lemma AckArrival(p: ReturnPath, m: BridgeMessage, events: seq<ReturnEvent>, text: string)
    requires Arms(p, m)
    ensures var c, h, h' := m.channel, Path(p, m, events), Path(p, m, events + [Arrives(text)]);
      && c in h.path.mailboxes && c in h.path.filters && c in h'.path.mailboxes && c in h'.path.filters
      && h.path.filters[c] == ReturnChunks(Texts(events)).0
      && Seen(h, c) == Queued(p, c) + Passed(events)
      && Seen(h', c) == Seen(h, c) + ReturnFeed(h.path.filters[c], text).1
  {
    var (l, out) := ReturnChunks(Texts(events));
    TextsMore(events, text);
    assert (Texts(events) + [text])[..|Texts(events)|] == Texts(events);
    hide Route, Deliver, Arms, ReturnFeed, Concat, Texts, Queued;
    ApprovedFiltered(p, m, events);
    ApprovedFiltered(p, m, events + [Arrives(text)]);
    Assoc(Queued(p, m.channel), out, ReturnFeed(l, text).1);
  }

  /**
   * Once the channel's filter pipes, a message of faked acks is handed to the
   * browser behind what it has seen, and is read there as just these instructions
   * if and only if what it has seen ends at an insertion point.
   */
  lemma {:induction false} AckReachesBrowser(tolerant: bool, p: ReturnPath, m: BridgeMessage, events: seq<ReturnEvent>, idxs: seq<int>)
    requires Arms(p, m) && Indices(idxs) && idxs != []
    requires var h := Path(p, m, events);
      && m.channel in h.path.filters && m.channel in h.path.mailboxes && h.path.filters[m.channel].policy.piping
    ensures var c, h, h' := m.channel, Path(p, m, events), Path(p, m, events + [Arrives(MakeAcks(idxs))]);
      && c in h'.path.mailboxes && Seen(h', c) == Seen(h, c) + MakeAcks(idxs)
      && (ReadsAcks(tolerant, Seen(h, c), Seen(h', c), idxs) <==> InsertionPoint(ReadAll(tolerant, Seen(h, c))))
  {
    AckArrival(p, m, events, MakeAcks(idxs));
    hide Path, MakeAcks, ReadsAcks, Arms, ReadAll, InsertionPoint, Queued, Passed;
    AcksInsertedIff(tolerant, Seen(Path(p, m, events), m.channel), idxs);
  }

  /** A filter that swallows stands where the neutral framer stands. */
  lemma SwallowingPoint(events: seq<ReturnEvent>)
    requires !ReturnChunks(Texts(events)).0.policy.piping
    ensures var l, s := ReturnChunks(Texts(events)).0, Concat(Texts(events));
      && InsertionPoint(l) == InsertionPoint(NeutralLive(s)) && Passed(events) == ""
      && l.cursor == ReturnCall(s).live.cursor && !ReturnCall(s).live.policy.piping
  {
    ChunksPipe(Texts(events));
    FilterFrames(Concat(Texts(events)));
    hide Feed, ReturnChunks, Read;
  }

  /** The handshake is complete with ack `k` of a message. */
  predicate Completes(s: string, idxs: seq<int>, k: nat)
    requires k <= |idxs|
  {
    var head := s + MakeAcks(idxs[..k]);
    0 < k && Ascii(head) && ReadyHead(head)
  }

  lemma HeadInAcks(s: string, idxs: seq<int>, n: nat)
    requires Indices(idxs) && |s| < n <= |s + MakeAcks(idxs)| && (s + MakeAcks(idxs))[n - 1] == ';'
    requires Ascii((s + MakeAcks(idxs))[..n]) && ReadyHead((s + MakeAcks(idxs))[..n])
    ensures exists k: nat :: k <= |idxs| && Completes(s, idxs, k)
  {
    var acks := MakeAcks(idxs);
    hide MakeAcks, ReadyHead, Ascii, Indices;
    assert acks[n - 1 - |s|] == ';';
    var k := SemicolonEndsAck(idxs, n - 1 - |s|);
    MakeAcksConcat(idxs[..k], idxs[k..]);
    assert idxs[..k] + idxs[k..] == idxs;
    PrefixOf(s, MakeAcks(idxs[..k]), MakeAcks(idxs[k..]));
    assert |s + MakeAcks(idxs[..k])| == n;
    assert Completes(s, idxs, k);
  }

  /** If a message of acks completes the handshake, it does so at the end of one of them. */
  lemma {:induction false} AcksComplete(s: string, idxs: seq<int>)
    requires Indices(idxs) && !ReturnCall(s).live.policy.piping && ReturnCall(s + MakeAcks(idxs)).live.policy.piping
    ensures exists k: nat :: k <= |idxs| && Completes(s, idxs, k)
  {
    var t := s + MakeAcks(idxs);
    var n := ReturnCall(t).live.policy.readyEnd;
    HeadExists(t);
    PipesAtSemicolon(Fresh(SWALLOWING), t);
    hide Feed, MakeAcks, ReadyHead, Ascii, ReturnCall, Completes;
    if n <= |s| {
      ShorterPrefix(s, MakeAcks(idxs), n);
      HeadSettles(s, n);
    } else {
      HeadInAcks(s, idxs, n);
    }
  }

  lemma ShorterPrefix(s: string, t: string, n: nat)
    requires n <= |s|
    ensures (s + t)[..n] == s[..n]
  {
  }

  lemma PrefixOf(s: string, a: string, b: string)
    ensures (s + (a + b))[..|s + a|] == s + a && (s + (a + b))[|s + a|..] == b
  {
  }

  lemma AcksBehind(s: string, idxs: seq<int>, k: nat)
    requires k <= |idxs| && Completes(s, idxs, k)
    ensures var t, n := s + MakeAcks(idxs), |s + MakeAcks(idxs[..k])|;
      n <= |t| && Ascii(t[..n]) && ReadyHead(t[..n]) && t[n..] == MakeAcks(idxs[k..])
  {
    hide MakeAcks, ReadyHead, Ascii;
    MakeAcksConcat(idxs[..k], idxs[k..]);
    assert idxs[..k] + idxs[k..] == idxs;
    PrefixOf(s, MakeAcks(idxs[..k]), MakeAcks(idxs[k..]));
  }

  lemma PassedIsPiped(events: seq<ReturnEvent>)
    ensures var t := Concat(Texts(events));
      && (forall n: nat :: n <= |t| && Ascii(t[..n]) && ReadyHead(t[..n]) ==> Passed(events) == t[n..])
      && (Passed(events) != "" ==> ReturnCall(t).live.policy.piping)
  {
    PipesAfterReady(Texts(events));
    ChunksPipe(Texts(events));
    hide Texts, Concat, ReturnChunks, ReadyHead, ReturnCall, Ascii, PipesLike;
    PipesWhere(ReturnChunks(Texts(events)).0, Passed(events), Concat(Texts(events)));
  }

  /** What of a message passes a filter that still swallowed when it came. */
  lemma {:induction false} AcksPass(events: seq<ReturnEvent>, idxs: seq<int>)
    requires Indices(idxs) && !ReturnChunks(Texts(events)).0.policy.piping
    ensures var s, more := Concat(Texts(events)), Passed(events + [Arrives(MakeAcks(idxs))]);
      && (forall k: nat :: k <= |idxs| && Completes(s, idxs, k) ==> more == MakeAcks(idxs[k..]))
      && ((forall k: nat :: k <= |idxs| ==> !Completes(s, idxs, k)) ==> more == "")
  {
    var all := events + [Arrives(MakeAcks(idxs))];
    var s := Concat(Texts(events));
    TextsMore(events, MakeAcks(idxs));
    SwallowingPoint(events);
    hide *;
    PassedIsPiped(all);
    forall k: nat | k <= |idxs| && Completes(s, idxs, k) ensures Passed(all) == MakeAcks(idxs[k..]) {
      AcksBehind(s, idxs, k);
    }
    if Passed(all) != "" {
      AcksComplete(s, idxs);
    }
  }

  /**
   * While the filter still swallows: of a message of acks the browser is handed
   * those behind the ack with which guacd's handshake becomes complete, if there is
   * one, and else nothing; and the handshake keeps its instructions, with the acks
   * between them, if and only if the filter stands at an insertion point.
   */
  lemma {:induction false} AcksMeetHandshake(p: ReturnPath, m: BridgeMessage, events: seq<ReturnEvent>, idxs: seq<int>)
    requires Arms(p, m) && Indices(idxs) && idxs != []
    requires var h := Path(p, m, events);
      && m.channel in h.path.filters && m.channel in h.path.mailboxes && !h.path.filters[m.channel].policy.piping
    ensures var c, h, h' := m.channel, Path(p, m, events), Path(p, m, events + [Arrives(MakeAcks(idxs))]);
      var before, s := Queued(p, c), Concat(Texts(events));
      && c in h'.path.mailboxes && Seen(h, c) == before
      && (forall k: nat :: k <= |idxs| && Completes(s, idxs, k) ==> Seen(h', c) == before + MakeAcks(idxs[k..]))
      && ((forall k: nat :: k <= |idxs| ==> !Completes(s, idxs, k)) ==> Seen(h', c) == before)
      && (ReadsAcks(false, s, s + MakeAcks(idxs), idxs) <==> InsertionPoint(h.path.filters[c]))
  {
    var all := events + [Arrives(MakeAcks(idxs))];
    AckArrival(p, m, events, MakeAcks(idxs));
    AckArrival(p, m, all, "");
    hide Path, MakeAcks, ReadsAcks, Arms, ReadAll, InsertionPoint, Queued, Passed, Texts, Concat, ReturnChunks, Completes, ReturnFeed;
    SwallowingPoint(events);
    AcksPass(events, idxs);
    AcksInsertedIff(false, Concat(Texts(events)), idxs);
    assert Queued(p, m.channel) + "" == Queued(p, m.channel);
  }

  lemma {:induction false} CorruptedSilent(s: string, t: string)
    requires ReturnCall(s).live.cursor.Corrupted? && !ReturnCall(s).live.policy.piping
    ensures !ReturnCall(s + t).live.policy.piping
  {
    FeedConcat(RETURN, NewCall(Fresh(SWALLOWING)), s, t);
    FeedCorrupted(RETURN, ReturnCall(s), t);
  }

  lemma {:induction false} TextsConcat(a: seq<ReturnEvent>, b: seq<ReturnEvent>)
    ensures Concat(Texts(a + b)) == Concat(Texts(a)) + Concat(Texts(b))
  {
    if b == [] {
      assert a + b == a && Texts(b) == [];
      assert Concat(Texts(a)) + "" == Concat(Texts(a));
    } else {
      var init, last := b[..|b| - 1], b[|b| - 1];
      assert (a + b)[..|a + b| - 1] == a + init && (a + b)[|a + b| - 1] == last;
      TextsConcat(a, init);
      hide Concat;
      if last.Arrives? {
        ConcatMore(Texts(a + init), last.text);
        ConcatMore(Texts(init), last.text);
        Assoc(Concat(Texts(a)), Concat(Texts(init)), last.text);
      } else {
        assert Texts(a + init) + [] == Texts(a + init) && Texts(init) + [] == Texts(init);
      }
    }
  }

  lemma DigitSilences(r: Run<ReturnState>, c: char)
    requires r.live.cursor.Delim? && !r.live.policy.piping && c != ',' && c != ';'
    ensures var q := Step(RETURN, r, c); q.live.cursor.Corrupted? && !q.live.policy.piping
  {
  }

  lemma AckSplit(sidx: int)
    ensures MakeAck(sidx) == ['3'] + MakeAck(sidx)[1..]
  {
    hide IntText, Numeral;
  }

  lemma {:induction false} SilencedBehind(s: string, sidx: int)
    requires ReturnCall(s).live.cursor.Delim? && !ReturnCall(s).live.policy.piping
    ensures ReturnCall(s + MakeAck(sidx)).live.cursor.Corrupted? && !ReturnCall(s + MakeAck(sidx)).live.policy.piping
  {
    var r, ack := ReturnCall(s), MakeAck(sidx);
    AckSplit(sidx);
    var q := Feed(RETURN, r, ['3']);
    FeedLast(RETURN, r, "", '3');
    assert "" + ['3'] == ['3'];
    DigitSilences(r, '3');
    assert Feed(RETURN, r, "") == r;
    hide Feed, MakeAck, Step;
    FeedConcat(RETURN, NewCall(Fresh(SWALLOWING)), s, ack);
    FeedConcat(RETURN, r, ['3'], ack[1..]);
    FeedCorrupted(RETURN, q, ack[1..]);
  }

  /** An ack that meets a value without its delimiter silences the filter for good. */
  lemma {:induction false} AckSilencesFilter(p: ReturnPath, m: BridgeMessage, events: seq<ReturnEvent>, later: seq<ReturnEvent>, sidx: int)
    requires Arms(p, m)
    requires var h := Path(p, m, events);
      && m.channel in h.path.filters
      && !h.path.filters[m.channel].policy.piping && h.path.filters[m.channel].cursor.Delim?
    ensures var h := Path(p, m, events + [Arrives(MakeAck(sidx))] + later);
      m.channel in h.path.mailboxes && Seen(h, m.channel) == Queued(p, m.channel)
  {
    var s, ack := Concat(Texts(events)), MakeAck(sidx);
    var all := events + [Arrives(ack)] + later;
    AckArrival(p, m, events, ack);
    AckArrival(p, m, all, "");
    TextsConcat(events + [Arrives(ack)], later);
    TextsMore(events, ack);
    ChunksPipe(Texts(all));
    hide Path, Arms, Concat, Texts, ReturnCall, MakeAck, PipesLike, ReturnChunks, Queued, ReturnFeed;
    SwallowingPoint(events);
    SilencedBehind(s, sidx);
    CorruptedSilent(s + ack, Concat(Texts(later)));
    PipesWhere(ReturnChunks(Texts(all)).0, Passed(all), Concat(Texts(all)));
    assert Queued(p, m.channel) + "" == Queued(p, m.channel);
  }

  lemma PipesWhere(l: Live<ReturnState>, out: string, s: string)
    requires PipesLike(l, out, s)
    ensures l.policy.piping == ReturnCall(s).live.policy.piping
    ensures !l.policy.piping ==> out == "" && l.cursor == ReturnCall(s).live.cursor
  {
    hide ReturnCall;
  }
}
