/**
 * The guard's traffic at its destination: over a link that loses and reorders
 * nothing, how what guacd reads on a connection relates to what the guard has
 * passed on and judged.
 */
module GuacdReads {
  import opened Framing
  import opened Decimal
  import opened Chunking
  import opened Instructions
  import opened Encoding
  import opened NeutralFraming
  import opened Insertion
  import F = HandshakeForgerModule
  import opened GuardPolicyModule
  import opened MultiplexerModule
  import opened GuardModule
  import opened GuardRuns
  import opened GuacdSendHandlerModule
  import opened GuacdLink

  /** Dials and sends succeed. */
  const WORKING := Sockets(0, true)

  /** The guard's frames, delivered in order. */
  function Delivered(sent: seq<Sent>): seq<LinkEvent> {
    if sent == [] then [] else Delivered(sent[..|sent| - 1]) + [Handles(sent[|sent| - 1].message, WORKING)]
  }

  function Broker(sent: seq<Sent>): High { RunLink(Delivered(sent)) }

  /** What guacd has been sent on the channel's connection. */
  function Reads(sent: seq<Sent>, c: Channel): string { Written(Delivered(sent), c) }

  /** What that connection had carried when the guard last approved the channel: nothing if it was dialed then. */
  function Resumed(sent: seq<Sent>, c: Channel): string {
    if sent == [] then "" else
    if IsVerdict(sent[|sent| - 1], c, APPROVAL_APPROVE) then Reads(sent, c) else Resumed(sent[..|sent| - 1], c)
  }

  predicate IsTraffic(a: Sent, c: Channel) { IsPayload(a, c) && a.message.action.Payload? }

  /** An inbound verdict that the guard took for payload and passed on. */
  predicate IsStrayVerdict(a: Sent, c: Channel) { IsPayload(a, c) && !a.message.action.Payload? }

  /** The payloads among what the guard has passed on since it last approved the channel. */
  function Traffic(sent: seq<Sent>, c: Channel): string {
    if sent == [] then "" else
    var init, last := sent[..|sent| - 1], sent[|sent| - 1];
    if IsVerdict(last, c, APPROVAL_APPROVE) then ""
    else if IsTraffic(last, c) then Traffic(init, c) + last.message.payload
    else Traffic(init, c)
  }

  /** The inbound verdicts among it. */
  function Stray(sent: seq<Sent>, c: Channel): string {
    if sent == [] then "" else
    var init, last := sent[..|sent| - 1], sent[|sent| - 1];
    if IsVerdict(last, c, APPROVAL_APPROVE) then ""
    else if IsStrayVerdict(last, c) then Stray(init, c) + last.message.payload
    else Stray(init, c)
  }

  lemma {:induction false} SinceParts(sent: seq<Sent>, c: Channel)
    ensures |Since(sent, c)| == |Traffic(sent, c)| + |Stray(sent, c)|
    ensures Stray(sent, c) == "" ==> Since(sent, c) == Traffic(sent, c)
  {
    if sent != [] {
      SinceParts(sent[..|sent| - 1], c);
    }
  }

  /** An issued frame is a verdict or a SHUTDOWN. */
  predicate Proper(a: Sent) {
    a.Issued? ==> a.message.action.ShutdownChannel? || (a.message.action.Approval? && a.message.payload != "")
  }

  ghost predicate AllProper(sent: seq<Sent>) { forall k :: 0 <= k < |sent| ==> Proper(sent[k]) }

  lemma StepProper(g: GuardState, e: Event)
    ensures AllProper(GuardStep(g, e).1)
  {
    hide TryCast, Call, ValidRequestId, Clean, Output;
  }

  lemma {:induction false} RunProper(events: seq<Event>)
    ensures AllProper(RunGuard(events).1)
  {
    if events != [] {
      RunProper(events[..|events| - 1]);
      hide GuardStep, Proper;
      StepProper(RunGuard(events[..|events| - 1]).0, events[|events| - 1]);
    }
  }

  /** A channel that is open is dialed, and its connection has carried the traffic since the approval behind the rest. */
  ghost predicate Carries(sent: seq<Sent>, c: Channel) {
    && (Open(sent, c) ==> c in Broker(sent).dialed)
    && Reads(sent, c) == Resumed(sent, c) + Traffic(sent, c)
  }

  lemma DeliveredMore(sent: seq<Sent>, a: Sent, c: Channel)
    ensures var h := Broker(sent);
      var h' := LinkStep(h, Handles(a.message, WORKING));
      && Broker(sent + [a]) == h'
      && Reads(sent + [a], c) ==
           if c !in h.dialed && c in h'.dialed then "" else Reads(sent, c) + Adds(h, a.message, WORKING, c)
  {
    assert (sent + [a])[..|sent|] == sent;
    hide LinkStep, Written, RunLink;
    LinkMore(Delivered(sent), Handles(a.message, WORKING), c);
    RelayAdds(RunLink(Delivered(sent)), a.message, WORKING, c);
  }

  lemma PartsMore(sent: seq<Sent>, a: Sent, c: Channel)
    ensures Resumed(sent + [a], c) == if IsVerdict(a, c, APPROVAL_APPROVE) then Reads(sent + [a], c) else Resumed(sent, c)
    ensures Traffic(sent + [a], c) ==
      if IsVerdict(a, c, APPROVAL_APPROVE) then ""
      else if IsTraffic(a, c) then Traffic(sent, c) + a.message.payload else Traffic(sent, c)
  {
    assert (sent + [a])[..|sent|] == sent;
    hide Reads, IsVerdict, IsTraffic;
  }

  /** A frame's effect on the dialed channels and on what is written on `c`. */
  lemma FrameEffect(h: High, a: Sent, c: Channel)
    requires Proper(a) && (IsPayload(a, c) ==> c in h.dialed)
    ensures var h' := LinkStep(h, Handles(a.message, WORKING));
      && (IsVerdict(a, c, APPROVAL_APPROVE) ==> c in h'.dialed && Adds(h, a.message, WORKING, c) == "")
      && (!IsVerdict(a, c, APPROVAL_APPROVE) ==>
            && (c in h'.dialed ==> c in h.dialed) && (c in h.dialed && !Closes(a, c) ==> c in h'.dialed)
            && Adds(h, a.message, WORKING, c) == if IsTraffic(a, c) then a.message.payload else "")
  {
  }

  lemma FrameCarries(sent: seq<Sent>, a: Sent, c: Channel)
    requires Carries(sent, c) && Proper(a) && (IsPayload(a, c) ==> Open(sent, c))
    ensures Carries(sent + [a], c)
  {
    DeliveredMore(sent, a, c);
    PartsMore(sent, a, c);
    OpenMore(sent, a, c);
    FrameEffect(Broker(sent), a, c);
    VerdictsDiffer(a, c);
    hide LinkStep, Reads, Resumed, Traffic, Broker, Open, Proper, IsVerdict, Closes, IsTraffic, IsPayload, Adds;
    var r, t := Resumed(sent, c), Traffic(sent, c);
    assert Reads(sent + [a], c) + "" == Reads(sent + [a], c);
    assert r + t + "" == r + t;
    Assoc(r, t, a.message.payload);
  }

  lemma {:induction false} AllCarried(sent: seq<Sent>, c: Channel)
    requires AllProper(sent) && Passed([], sent)
    ensures Carries(sent, c)
  {
    if sent == [] {
      assert "" + "" == "";
    } else {
      var init, last := sent[..|sent| - 1], sent[|sent| - 1];
      assert sent == init + [last] && AllProper(init) && Proper(last);
      assert Passed([], init) by {
        forall k, d: Channel | 0 <= k < |init| && IsPayload(init[k], d) ensures Open([] + init[..k], d) {
          assert init[..k] == sent[..k] && IsPayload(sent[k], d);
        }
      }
      assert IsPayload(last, c) ==> Open(init, c) by {
        assert [] + sent[..|init|] == init;
      }
      AllCarried(init, c);
      hide Carries, AllProper, Proper, Passed, Open, IsPayload;
      FrameCarries(init, last, c);
    }
  }

  lemma NoPrefix(r: string, t: string, s: string)
    requires r == ""
    ensures r + t == t
  {
  }

  /**
   * For every run and channel: guacd has read, behind what its connection had
   * carried at the guard's last approval, the traffic passed on since. That is all
   * the guard has passed on and judged since if and only if no inbound verdict was
   * passed on as payload. Where the connection had carried nothing before, what
   * guacd reads then is clean, conforming traffic.
   */
  lemma {:induction false} GuacdReadsWhatPassed(events: seq<Event>, c: Channel)
    requires PossibleRun(events)
    ensures var sent := RunGuard(events).1;
      && Reads(sent, c) == Resumed(sent, c) + Traffic(sent, c)
      && (Traffic(sent, c) == Since(sent, c) <==> Stray(sent, c) == "")
      && (Resumed(sent, c) == "" ==> (Reads(sent, c) == Since(sent, c) <==> Stray(sent, c) == ""))
      && (Resumed(sent, c) == "" && Stray(sent, c) == "" ==>
            var q := GuardCall(Reads(sent, c));
            Clean(q) && q.ranges == [] && Obeys(-1, AllInstructions(Reads(sent, c))))
  {
    var sent := RunGuard(events).1;
    RunGated(events);
    RunProper(events);
    hide RunGuard, Passed, AllProper, Since, Reads, Resumed, Traffic, Stray, Obeys, Gated;
    AllCarried(sent, c);
    SinceParts(sent, c);
    ForwardedIsClean(events, c);
    if Resumed(sent, c) == "" {
      NoPrefix(Resumed(sent, c), Traffic(sent, c), Since(sent, c));
    }
  }

  // ---- Runs that miss the two conditions

  const ON: Channel := 7
  const ASKS := BridgeMessage(ON, CreateChannel, "0123456789ab")
  const GRANTED := Issued(GuardModule.Verdict(ON, true, "0123456789ab"))

  function Arrival(m: BridgeMessage): Event
    requires Sendable(m)
  {
    SerializedOctets(m);
    Datagram(Serialize(m))
  }

  lemma ArrivalStep(g: GuardState, m: BridgeMessage)
    requires Sendable(m)
    ensures GuardStep(g, Arrival(m)) == Handle(g, m) && Possible(g, Arrival(m))
  {
    CastSerialized(m);
    hide Handle, Serialize, TryCast;
  }

  /** The channel is approved, and its parser has been fed `chunks`. */
  ghost predicate Running(events: seq<Event>, chunks: seq<string>) {
    var g, x := RunGuard(events).0, RunChunks(GUARD, Fresh(NO_STREAM), chunks);
    && PossibleRun(events) && g.approving
    && ON in g.approved && ON !in g.poisoned && ON in g.parsers && g.parsers[ON] == x.live && x.survived
  }

  lemma Admits(g: GuardState)
    requires g.approving
    ensures ValidRequestId(ASKS.payload)
    ensures var (g', more) := Handle(g, ASKS);
      && g'.approving && ON in g'.approved && ON !in g'.poisoned && ON in g'.parsers && g'.parsers[ON] == Fresh(NO_STREAM)
      && more == [Relayed(ASKS), GRANTED]
  {
  }

  lemma RequestAdmitted(events: seq<Event>)
    requires PossibleRun(events) && RunGuard(events).0.approving
    ensures Sendable(ASKS)
    ensures var more := events + [Arrival(ASKS)];
      Running(more, []) && RunGuard(more).1 == RunGuard(events).1 + [Relayed(ASKS), GRANTED]
  {
    RunMore(events, Arrival(ASKS));
    ArrivalStep(RunGuard(events).0, ASKS);
    Admits(RunGuard(events).0);
    hide RunGuard, PossibleRun, GuardStep, Handle, Possible, Arrival;
  }

  lemma StepNoLonger<P>(h: Hooks<P>, r: Run<P>, c: char)
    ensures |Output(Step(h, r, c))| <= |Output(r)| + 1
  {
  }

  lemma {:induction false} CallNoLonger<P>(h: Hooks<P>, r: Run<P>, s: string)
    ensures |Output(Feed(h, r, s))| <= |Output(r)| + |s|
  {
    if s != "" {
      CallNoLonger(h, r, s[..|s| - 1]);
      StepNoLonger(h, Feed(h, r, s[..|s| - 1]), s[|s| - 1]);
      hide Step, Output;
    }
  }

  lemma {:induction false} ChunksNoLonger<P>(h: Hooks<P>, l: Live<P>, chunks: seq<string>)
    ensures |RunChunks(h, l, chunks).out| <= |Concat(chunks)|
  {
    if chunks != [] {
      ChunksNoLonger(h, l, chunks[..|chunks| - 1]);
      CallNoLonger(h, NewCall(RunChunks(h, l, chunks[..|chunks| - 1]).live), chunks[|chunks| - 1]);
      hide Feed;
    }
  }

  lemma SameParts(a: string, b: string, c: string, a': string, b': string, c': string)
    requires a + b + c == a' + b' + c' && |a| <= |a'| && |b| <= |b'| && |c| <= |c'|
    ensures b == b'
  {
    var t := a + b + c;
    assert b == t[|a|..|a + b|] && b' == (a' + b' + c')[|a'|..|a' + b'|];
  }

  lemma ChunkMore<P>(h: Hooks<P>, l: Live<P>, chunks: seq<string>, s: string)
    ensures Concat(chunks + [s]) == Concat(chunks) + s
    ensures var x, y := RunChunks(h, l, chunks), RunChunks(h, l, chunks + [s]);
      y.survived ==>
        && x.survived && Clean(Call(h, x.live, s)) && y.live == Call(h, x.live, s).live
        && y.out == x.out + Output(Call(h, x.live, s))
  {
    assert (chunks + [s])[..|chunks|] == chunks;
    hide Call, Output, Clean;
  }

  /** One more chunk of a text in which the guard denies nothing. */
  lemma ChunkPasses(chunks: seq<string>, s: string, rest: string)
    requires var q := GuardCall(Concat(chunks) + s + rest); Clean(q) && q.ranges == []
    ensures var x, y := RunChunks(GUARD, Fresh(NO_STREAM), chunks), RunChunks(GUARD, Fresh(NO_STREAM), chunks + [s]);
      && x.survived && y.survived && Clean(Call(GUARD, x.live, s)) && y.live == Call(GUARD, x.live, s).live
      && Output(Call(GUARD, x.live, s)) == s
  {
    var l, two := Fresh(NO_STREAM), chunks + [s];
    var x, y := RunChunks(GUARD, l, chunks), RunChunks(GUARD, l, two);
    assert IndexFree(GUARD);
    hide Feed, Concat, Output, Clean, RunChunks;
    ChunkMore(GUARD, l, chunks, s);
    ChunkMore(GUARD, l, two, rest);
    AllowedPassesUnderEveryCut(GUARD, l, two + [rest]);
    ChunksNoLonger(GUARD, l, chunks);
    CallNoLonger(GUARD, NewCall(x.live), s);
    CallNoLonger(GUARD, NewCall(y.live), rest);
    EmptyOutput(x.live);
    EmptyOutput(y.live);
    SameParts(x.out, Output(Call(GUARD, x.live, s)), Output(Call(GUARD, y.live, rest)), Concat(chunks), s, rest);
  }

  lemma EmptyOutput(l: Live<GuardPolicy>)
    ensures Output(NewCall(l)) == ""
  {
  }

  lemma CarryPasses(g: GuardState, m: BridgeMessage)
    requires m.channel in g.approved && m.channel !in g.poisoned && (m.action.Payload? || m.action.Approval?)
    requires m.payload != "" && m.channel in g.parsers && Clean(Call(GUARD, g.parsers[m.channel], m.payload))
    requires Output(Call(GUARD, g.parsers[m.channel], m.payload)) == m.payload
    ensures var (g', more) := Handle(g, m);
      && more == [Relayed(m)] && g'.approved == g.approved && g'.poisoned == g.poisoned && g'.approving == g.approving
      && m.channel in g'.parsers && g'.parsers[m.channel] == Call(GUARD, g.parsers[m.channel], m.payload).live
  {
    hide Call, Output;
  }

  /** A frame of the channel that holds the next chunk is passed on as it is. */
  lemma FramePasses(events: seq<Event>, chunks: seq<string>, m: BridgeMessage, rest: string)
    requires Running(events, chunks) && m.channel == ON && (m.action.Payload? || m.action.Approval?)
    requires Sendable(m) && m.payload != ""
    requires var q := GuardCall(Concat(chunks) + m.payload + rest); Clean(q) && q.ranges == []
    ensures var more := events + [Arrival(m)];
      Running(more, chunks + [m.payload]) && RunGuard(more).1 == RunGuard(events).1 + [Relayed(m)]
  {
    var g := RunGuard(events).0;
    RunMore(events, Arrival(m));
    ArrivalStep(g, m);
    hide RunGuard, PossibleRun, GuardStep, Handle, Possible, Arrival, RunChunks, Call, Concat, Sendable, Clean, Output;
    ChunkPasses(chunks, m.payload, rest);
    CarryPasses(g, m);
  }

  // The value of one stream's instruction hides an instruction of the other's.

  const HEAD := "4.name,11."
  const FILLER := "AAAAAAAAAAA"
  const SHORTER := "4.name,10."
  const TAIL := ";" + HIDING
  const HIDING := "4.name,17.;3.nop;4.name,1.x;"
  const INNER := ";3.nop;4.name,1.x"

  lemma Digits()
    ensures Numeral(1) == "1" && Numeral(3) == "3" && Numeral(4) == "4"
    ensures Numeral(10) == "10" && Numeral(11) == "11" && Numeral(17) == "17"
  {
    assert Numeral(1) == ['0' + 1 as char] == "1";
    assert Numeral(3) == ['0' + 3 as char] == "3";
    assert Numeral(4) == ['0' + 4 as char] == "4";
    assert Numeral(11) == Numeral(1) + ['0' + 1 as char] == "11";
    assert Numeral(10) == Numeral(1) + ['0' + 0 as char] == "10";
    assert Numeral(17) == Numeral(1) + ['0' + 7 as char] == "17";
  }

  lemma SmallElements()
    ensures Element("name") == "4.name" && Element("nop") == "3.nop" && Element("x") == "1.x"
  {
    Digits();
    hide Numeral;
  }

  lemma LongElements()
    ensures Element(FILLER) == "11." + FILLER && Element(INNER) == "17." + INNER
  {
    Digits();
    hide Numeral;
    assert |FILLER| == 11 && |INNER| == 17;
  }

  lemma OtherElements()
    ensures Element(";4.name,17.") == "11.;4.name,17." && Element("4.name,17.") == "10.4.name,17."
  {
    Digits();
    hide Numeral;
    assert |";4.name,17."| == 11 && |"4.name,17."| == 10;
  }

  lemma TwoElements(a: string, b: string)
    ensures Instr([a, b]) == Element(a) + ("," + (Element(b) + ";")) && Instr([b]) == Element(b) + ";"
  {
    hide Element;
    assert [a, b][1..] == [b];
  }

  const NAMED: seq<seq<string>> := [["name", FILLER], ["name", INNER]]
  const WITH_NOP: seq<seq<string>> := [["name", ";4.name,17."], ["nop"], ["name", "x"]]
  const WITH_NOP_TOO: seq<seq<string>> := [["name", "4.name,17."], ["nop"], ["name", "x"]]

  lemma {:induction false} TextOf(instrs: seq<seq<string>>, i: seq<string>)
    ensures EncodeAll([i] + instrs) == Instr(i) + EncodeAll(instrs)
  {
    hide Instr;
    assert ([i] + instrs)[1..] == instrs;
  }

  /** What the guard judges, and what guacd reads. */
  lemma Texts()
    ensures HEAD + FILLER + TAIL == EncodeAll(NAMED) && HEAD + TAIL == EncodeAll(WITH_NOP)
    ensures SHORTER + HIDING == EncodeAll(WITH_NOP_TOO) && HIDING == EncodeAll([["name", INNER]])
  {
    SmallElements();
    LongElements();
    OtherElements();
    TwoElements("name", FILLER);
    TwoElements("name", INNER);
    TwoElements("name", ";4.name,17.");
    TwoElements("name", "4.name,17.");
    TwoElements("name", "x");
    TwoElements("", "nop");
    hide Element, Instr;
    assert [["name", FILLER]] + ([["name", INNER]] + []) == NAMED;
    assert [["name", ";4.name,17."]] + ([["nop"]] + ([["name", "x"]] + [])) == WITH_NOP;
    assert [["name", "4.name,17."]] + ([["nop"]] + ([["name", "x"]] + [])) == WITH_NOP_TOO;
    assert [["name", INNER]] + [] == [["name", INNER]];
    TextOf([], ["name", INNER]);
    TextOf([["name", INNER]] + [], ["name", FILLER]);
    TextOf([], ["name", "x"]);
    TextOf([["name", "x"]] + [], ["nop"]);
    TextOf([["nop"]] + ([["name", "x"]] + []), ["name", ";4.name,17."]);
    TextOf([["nop"]] + ([["name", "x"]] + []), ["name", "4.name,17."]);
    assert EncodeAll([]) == "";
    hide EncodeAll;
    GlueNamed();
    GlueNop();
    GlueNopToo();
  }

  lemma GlueNamed()
    ensures "4.name" + ("," + (("11." + FILLER) + ";")) + ("4.name" + ("," + (("17." + INNER) + ";")) + "") == HEAD + FILLER + TAIL
    ensures "4.name" + ("," + (("17." + INNER) + ";")) + "" == HIDING
  {
  }

  lemma GlueNop()
    ensures "4.name" + ("," + ("11.;4.name,17." + ";")) + ("3.nop" + ";" + ("4.name" + ("," + ("1.x" + ";")) + "")) == HEAD + TAIL
  {
  }

  lemma GlueNopToo()
    ensures "4.name" + ("," + ("10.4.name,17." + ";")) + ("3.nop" + ";" + ("4.name" + ("," + ("1.x" + ";")) + "")) == SHORTER + HIDING
  {
  }

  lemma NamePasses(r: Run<GuardPolicy>, x: string)
    requires Boundary(r) && r.ranges == [] && WellFormed(["name", x])
    ensures var q := Feed(GUARD, r, Instr(["name", x])); Boundary(q) && q.ranges == []
  {
    F.OnePrinted(GUARD, r, ["name", x]);
    GuardMeans(r.live.policy, ["name", x]);
    hide Feed, Instr, WellFormed, Instructions.Verdict;
  }

  lemma NamesFit()
    ensures WellFormed(["name", FILLER]) && WellFormed(["name", INNER])
    ensures WellFormed(["name", ";4.name,17."]) && WellFormed(["name", "4.name,17."])
    ensures WellFormed(["nop"]) && WellFormed(["name", "x"])
  {
  }

  lemma NamedParts()
    ensures EncodeAll(NAMED) == Instr(["name", FILLER]) + Instr(["name", INNER])
    ensures EncodeAll([["name", INNER]]) == Instr(["name", INNER])
    ensures SHORTER + "4.name,17.;" == Instr(["name", "4.name,17."])
  {
    assert NAMED[1..] == [["name", INNER]];
    assert EncodeAll(NAMED) == Instr(NAMED[0]) + EncodeAll(NAMED[1..]);
    SmallElements();
    OtherElements();
    hide Element, Instr;
    EncodeOne(["name", INNER]);
    TwoElements("name", "4.name,17.");
    ShorterGlue();
  }

  lemma ShorterGlue()
    ensures "4.name" + ("," + ("10.4.name,17." + ";")) == SHORTER + "4.name,17.;"
  {
  }

  lemma NameAlone(x: string)
    requires WellFormed(["name", x])
    ensures var q := GuardCall(Instr(["name", x])); Clean(q) && q.ranges == [] && Boundary(q)
  {
    NamePasses(NewCall(Fresh(NO_STREAM)), x);
    hide Feed, Instr, WellFormed;
  }

  lemma TwoNames(x: string, y: string)
    requires WellFormed(["name", x]) && WellFormed(["name", y])
    ensures var q := GuardCall(Instr(["name", x]) + Instr(["name", y])); Clean(q) && q.ranges == []
  {
    NameAlone(x);
    var q := GuardCall(Instr(["name", x]));
    hide Feed, Instr, WellFormed;
    FeedConcat(GUARD, NewCall(Fresh(NO_STREAM)), Instr(["name", x]), Instr(["name", y]));
    NamePasses(q, y);
  }

  /** The guard denies nothing in what it judges. */
  lemma NamesAllowed()
    ensures var q := GuardCall(HEAD + FILLER + TAIL); Clean(q) && q.ranges == []
    ensures var q := GuardCall(HIDING); Clean(q) && q.ranges == []
    ensures var q := GuardCall(SHORTER + "4.name,17.;"); Clean(q) && q.ranges == []
  {
    hide *;
    Texts();
    NamesFit();
    NamedParts();
    TwoNames(FILLER, INNER);
    NameAlone(INNER);
    NameAlone("4.name,17.");
  }

  lemma NopRead()
    ensures NeutralLive(HEAD + TAIL).policy.done == WITH_NOP && NeutralLive(SHORTER + HIDING).policy.done == WITH_NOP_TOO
    ensures !IsAllowedOpcode("nop")
  {
    Texts();
    NamesFit();
    hide Read, EncodeAll, WellFormed;
    ReadAllPrinted(false, [], WITH_NOP);
    ReadAllPrinted(false, [], WITH_NOP_TOO);
    assert [] + WITH_NOP == WITH_NOP && [] + WITH_NOP_TOO == WITH_NOP_TOO;
  }

  /** The quantities of the theorem right behind an approval. */
  lemma Approved(sent: seq<Sent>)
    ensures var more := sent + [Relayed(ASKS), GRANTED];
      && Resumed(more, ON) == (if ON in Broker(sent).dialed then Reads(sent, ON) else "")
      && Traffic(more, ON) == "" && Stray(more, ON) == "" && Since(more, ON) == "" && ON in Broker(more).dialed
  {
    var s1 := sent + [Relayed(ASKS)];
    var more := s1 + [GRANTED];
    assert more == sent + [Relayed(ASKS), GRANTED] && more[..|s1|] == s1;
    DeliveredMore(sent, Relayed(ASKS), ON);
    DeliveredMore(s1, GRANTED, ON);
    PartsMore(s1, GRANTED, ON);
    SinceMore(s1, GRANTED, ON);
    assert IsVerdict(GRANTED, ON, APPROVAL_APPROVE);
    assert Stray(more, ON) == "";
    hide Reads, Resumed, Traffic, Stray, Since, Broker;
    assert Reads(sent, ON) + "" == Reads(sent, ON);
  }

  lemma PassedOn(sent: seq<Sent>, m: BridgeMessage)
    requires m.channel == ON && (m.action.Payload? || m.action.Approval?)
    ensures var more := sent + [Relayed(m)];
      && Resumed(more, ON) == Resumed(sent, ON)
      && Traffic(more, ON) == (if m.action.Payload? then Traffic(sent, ON) + m.payload else Traffic(sent, ON))
      && Stray(more, ON) == (if m.action.Payload? then Stray(sent, ON) else Stray(sent, ON) + m.payload)
      && Since(more, ON) == Since(sent, ON) + m.payload
  {
    assert (sent + [Relayed(m)])[..|sent|] == sent;
  }

  lemma Started()
    ensures PossibleRun([]) && RunGuard([]) == (INITIAL, []) && INITIAL.approving && ON !in Broker([]).dialed
  {
  }

  lemma NoChunks(s: string, rest: string)
    ensures Concat([]) + s + rest == s + rest && Concat([s]) == s
  {
    assert [s][..0] == [] && "" + s == s;
  }

  lemma TwoChunks(s: string, t: string)
    ensures Concat([s] + [t]) == s + t
  {
    NoChunks(s, t);
    assert ([s] + [t])[..1] == [s];
  }

  lemma SmallSends(s: string)
    requires |s| <= 100 && Ascii(s)
    ensures Sendable(BridgeMessage(ON, Payload, s)) && Sendable(BridgeMessage(ON, Approval, s))
  {
  }

  lemma NamesAscii()
    ensures Ascii(HEAD) && Ascii(FILLER) && Ascii(TAIL) && Ascii(SHORTER) && Ascii(HIDING)
  {
  }

  lemma NamesSend()
    ensures Sendable(BridgeMessage(ON, Payload, HEAD)) && Sendable(BridgeMessage(ON, Approval, FILLER))
    ensures Sendable(BridgeMessage(ON, Payload, TAIL)) && Sendable(BridgeMessage(ON, Payload, SHORTER))
    ensures Sendable(BridgeMessage(ON, Payload, HIDING))
    ensures HEAD != "" && FILLER != "" && TAIL != "" && SHORTER != "" && HIDING != ""
  {
    hide Ascii, Sendable;
    NamesAscii();
    SmallSends(HEAD);
    SmallSends(FILLER);
    SmallSends(TAIL);
    SmallSends(SHORTER);
    SmallSends(HIDING);
  }

  /** An approved channel is dialed. */
  lemma StillDialed(events: seq<Event>)
    requires PossibleRun(events) && ON in RunGuard(events).0.approved
    ensures ON in Broker(RunGuard(events).1).dialed
  {
    RunGated(events);
    RunProper(events);
    AllCarried(RunGuard(events).1, ON);
    hide RunGuard, Passed, AllProper, Reads, Resumed, Traffic, PossibleRun;
  }

  /** Where a run stands, in the terms of the theorem. */
  ghost predicate Stage(events: seq<Event>, chunks: seq<string>, resumed: string, traffic: string, stray: string, since: string) {
    var sent := RunGuard(events).1;
    && Running(events, chunks) && Resumed(sent, ON) == resumed
    && Traffic(sent, ON) == traffic && Stray(sent, ON) == stray && Since(sent, ON) == since
  }

  lemma StageStart()
    ensures Sendable(ASKS) && Stage([] + [Arrival(ASKS)], [], "", "", "", "")
  {
    Started();
    RequestAdmitted([]);
    Approved([]);
    hide RunGuard, PossibleRun, Running, Resumed, Traffic, Stray, Since, Reads, Broker, Sendable;
  }

  lemma StageFrame(events: seq<Event>, chunks: seq<string>, resumed: string, traffic: string, stray: string, since: string,
                   m: BridgeMessage, rest: string)
    requires Stage(events, chunks, resumed, traffic, stray, since)
    requires m.channel == ON && (m.action.Payload? || m.action.Approval?) && Sendable(m) && m.payload != ""
    requires var q := GuardCall(Concat(chunks) + m.payload + rest); Clean(q) && q.ranges == []
    ensures Stage(events + [Arrival(m)], chunks + [m.payload], resumed,
                  if m.action.Payload? then traffic + m.payload else traffic,
                  if m.action.Payload? then stray else stray + m.payload, since + m.payload)
  {
    hide RunGuard, Running, Resumed, Traffic, Stray, Since, Sendable, Concat, Feed, Clean;
    FramePasses(events, chunks, m, rest);
    PassedOn(RunGuard(events).1, m);
  }

  /** Another approval on the open channel. */
  lemma StageAgain(events: seq<Event>, chunks: seq<string>, resumed: string, traffic: string, stray: string, since: string)
    requires Stage(events, chunks, resumed, traffic, stray, since)
    ensures Sendable(ASKS) && Stage(events + [Arrival(ASKS)], [], resumed + traffic, "", "", "")
  {
    hide RunGuard, PossibleRun, Resumed, Traffic, Stray, Since, Reads, Broker, Sendable, RunChunks;
    GuacdReadsWhatPassed(events, ON);
    StillDialed(events);
    RequestAdmitted(events);
    Approved(RunGuard(events).1);
  }

  lemma StageReads(events: seq<Event>, chunks: seq<string>, resumed: string, traffic: string, stray: string, since: string)
    requires Stage(events, chunks, resumed, traffic, stray, since)
    ensures PossibleRun(events)
    ensures var sent := RunGuard(events).1;
      && Reads(sent, ON) == resumed + traffic && Resumed(sent, ON) == resumed
      && Stray(sent, ON) == stray && Since(sent, ON) == since
  {
    hide RunGuard, PossibleRun, Resumed, Traffic, Stray, Since, Reads, RunChunks;
    GuacdReadsWhatPassed(events, ON);
  }

  /** Two payloads with a verdict in between, in which the guard denies nothing. */
  lemma StrayRun(a: string, f: string, b: string) returns (events: seq<Event>)
    requires var q := GuardCall(a + f + b); Clean(q) && q.ranges == []
    requires a != "" && f != "" && b != "" && Sendable(BridgeMessage(ON, Payload, a))
    requires Sendable(BridgeMessage(ON, Approval, f)) && Sendable(BridgeMessage(ON, Payload, b))
    ensures PossibleRun(events)
    ensures var sent := RunGuard(events).1;
      Reads(sent, ON) == a + b && Resumed(sent, ON) == "" && Stray(sent, ON) == f && Since(sent, ON) == a + f + b
  {
    hide Stage, Sendable, Concat, Feed, Clean, Arrival, RunGuard, PossibleRun, Reads, Resumed, Stray, Since;
    var m1, m2, m3 := BridgeMessage(ON, Payload, a), BridgeMessage(ON, Approval, f), BridgeMessage(ON, Payload, b);
    StageStart();
    var e1 := [] + [Arrival(ASKS)];
    Assoc(a, f, b);
    NoChunks(a, f + b);
    NoneBefore(a, f);
    StageFrame(e1, [], "", "", "", "", m1, f + b);
    var e2 := e1 + [Arrival(m1)];
    StageFrame(e2, [a], "", a, "", a, m2, b);
    var e3 := e2 + [Arrival(m2)];
    TwoChunks(a, f);
    NoneBehind(a + f + b);
    StageFrame(e3, [a] + [f], "", a, f, a + f, m3, "");
    events := e3 + [Arrival(m3)];
    StageReads(events, [a] + [f] + [b], "", a + b, f, a + f + b);
    NoneBefore(a + b, f);
  }

  lemma NoneBefore(a: string, f: string)
    ensures "" + a == a && "" + f == f && [] + [a] == [a] && Concat([a]) == a
  {
    assert [a][..0] == [];
  }

  lemma NoneBehind(a: string)
    ensures a + "" == a
  {
  }

  /**
   * A run of the guard alone, on a fresh connection: an inbound verdict between two
   * payloads is the value of an instruction for the guard and nothing for guacd,
   * which reads an opcode the guard refuses.
   */
  lemma {:induction false} StrayVerdictMisleads() returns (events: seq<Event>)
    ensures PossibleRun(events)
    ensures var sent := RunGuard(events).1;
      && Resumed(sent, ON) == "" && Stray(sent, ON) == FILLER && Since(sent, ON) == HEAD + FILLER + TAIL
      && NeutralLive(Reads(sent, ON)).policy.done == WITH_NOP && !IsAllowedOpcode("nop")
  {
    hide *;
    NamesAllowed();
    NopRead();
    NamesSend();
    events := StrayRun(HEAD, FILLER, TAIL);
  }

  lemma ResumedRun(a: string, rest: string, b: string) returns (events: seq<Event>)
    requires var q := GuardCall(a + rest); Clean(q) && q.ranges == []
    requires var q := GuardCall(b); Clean(q) && q.ranges == []
    requires a != "" && b != "" && Sendable(BridgeMessage(ON, Payload, a)) && Sendable(BridgeMessage(ON, Payload, b))
    ensures PossibleRun(events)
    ensures var sent := RunGuard(events).1;
      Reads(sent, ON) == a + b && Resumed(sent, ON) == a && Stray(sent, ON) == "" && Since(sent, ON) == b
  {
    hide Stage, Sendable, Concat, Feed, Clean, Arrival, RunGuard, PossibleRun, Reads, Resumed, Stray, Since;
    var m1, m2 := BridgeMessage(ON, Payload, a), BridgeMessage(ON, Payload, b);
    StageStart();
    var e1 := [] + [Arrival(ASKS)];
    NoChunks(a, rest);
    NoneBefore(a, b);
    StageFrame(e1, [], "", "", "", "", m1, rest);
    var e2 := e1 + [Arrival(m1)];
    StageAgain(e2, [a], "", a, "", a);
    var e3 := e2 + [Arrival(ASKS)];
    NoChunks(b, "");
    NoneBehind(b);
    NoneBefore(b, a);
    StageFrame(e3, [], a, "", "", "", m2, "");
    events := e3 + [Arrival(m2)];
    StageReads(events, [b], a, b, "", b);
  }

  /**
   * The other condition: approved again without a SHUTDOWN in between, the guard
   * starts over while guacd's connection stays in the middle of an instruction.
   */
  lemma {:induction false} ResumedMisleads() returns (events: seq<Event>)
    ensures PossibleRun(events)
    ensures var sent := RunGuard(events).1;
      && Resumed(sent, ON) == SHORTER && Stray(sent, ON) == "" && Since(sent, ON) == HIDING
      && NeutralLive(Reads(sent, ON)).policy.done == WITH_NOP_TOO && !IsAllowedOpcode("nop")
  {
    hide *;
    NamesAllowed();
    NopRead();
    NamesSend();
    events := ResumedRun(SHORTER, "4.name,17.;", HIDING);
  }
}
