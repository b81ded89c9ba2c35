/**
 * What guacd reads: everything gcdbroker writes to it on one connection, the
 * bridge's traffic and the echoes of its own `sync`, and what that is worth.
 */
module GuacdLink {
  import opened Framing
  import opened Decimal
  import opened Instructions
  import opened Encoding
  import opened NeutralFraming
  import opened Insertion
  import opened MultiplexerModule
  import opened GuacdSendHandlerModule
  import Y = SyncFakerModule
  import opened Observer

  /** A message for gcdbroker's forward path, or guacd closing a connection. */
  datatype LinkEvent = Handles(message: BridgeMessage, sockets: Sockets) | HangsUp(channel: Channel)

  function LinkStep(h: High, e: LinkEvent): (h': High)
    ensures h.toGuacd <= h'.toGuacd
  {
    match e
    case Handles(m, s) => Relay(h, m, s)
    case HangsUp(c) =>
      if c !in h.dialed then h
      else h.(dialed := h.dialed - {c}, returned := h.returned + [BridgeMessage(c, ShutdownChannel, "")])
  }

  function RunLink(events: seq<LinkEvent>): High {
    if events == [] then NOTHING_DIALED else LinkStep(RunLink(events[..|events| - 1]), events[|events| - 1])
  }

  function SentOn(sends: seq<(Channel, string)>, c: Channel): string {
    if sends == [] then "" else
    SentOn(sends[..|sends| - 1], c) + if sends[|sends| - 1].0 == c then sends[|sends| - 1].1 else ""
  }

  /** All that guacd has been sent on the connection dialed last for `c`. */
  function Written(events: seq<LinkEvent>, c: Channel): string {
    if events == [] then "" else
    var init := events[..|events| - 1];
    var h, h' := RunLink(init), RunLink(events);
    if c !in h.dialed && c in h'.dialed then ""
    else Written(init, c) + SentOn(LinkStep(h, events[|events| - 1]).toGuacd[|h.toGuacd|..], c)
  }

  lemma LinkMore(events: seq<LinkEvent>, e: LinkEvent, c: Channel)
    ensures var h := RunLink(events);
      var h' := LinkStep(h, e);
      && RunLink(events + [e]) == h'
      && Written(events + [e], c) ==
           if c !in h.dialed && c in h'.dialed then "" else Written(events, c) + SentOn(h'.toGuacd[|h.toGuacd|..], c)
  {
    assert (events + [e])[..|events|] == events;
    hide LinkStep;
  }

  /** What one message adds on `c`. */
  function Adds(h: High, m: BridgeMessage, s: Sockets, c: Channel): string {
    if m.action.Payload? && m.channel == c && c in h.dialed && s.sent then m.payload else ""
  }

  lemma RelayAdds(h: High, m: BridgeMessage, s: Sockets, c: Channel)
    ensures SentOn(LinkStep(h, Handles(m, s)).toGuacd[|h.toGuacd|..], c) == Adds(h, m, s, c)
  {
    var more := LinkStep(h, Handles(m, s)).toGuacd[|h.toGuacd|..];
    if m.action.Payload? && m.channel in h.dialed && s.sent {
      assert more == [(m.channel, m.payload)];
      assert more[..0] == [];
      assert SentOn(more, c) == "" + if m.channel == c then m.payload else "";
    } else {
      assert more == [];
    }
  }

  /** A message on a dialed channel's way to guacd. */
  lemma {:induction false} PayloadWritten(events: seq<LinkEvent>, c: Channel, text: string, s: Sockets)
    requires c in RunLink(events).dialed && s.sent
    ensures var more := events + [Handles(BridgeMessage(c, Payload, text), s)];
      Written(more, c) == Written(events, c) + text && c in RunLink(more).dialed
  {
    var m := BridgeMessage(c, Payload, text);
    LinkMore(events, Handles(m, s), c);
    RelayAdds(RunLink(events), m, s, c);
    hide RunLink, Written, SentOn;
  }

  /**
   * A connection to guacd ends in one of three ways only: guacd hangs up, a SHUTDOWN
   * comes for its channel, or a send on it fails; in the latter two it is shut down.
   */
  lemma ConnectionEnds(h: High, e: LinkEvent, c: Channel)
    requires c in h.dialed
    ensures var h' := LinkStep(h, e);
      var failed := e.Handles? && e.message.channel == c && e.message.action.Payload? && !e.sockets.sent;
      var closed := e.Handles? && e.message.channel == c && e.message.action.ShutdownChannel?;
      && (c in h'.dialed <==> !failed && !closed && e != HangsUp(c))
      && (c in h'.dialed ==> h'.dialed[c] == h.dialed[c])
      && (failed || closed ==> h'.shut == h.shut + [h.dialed[c]])
      && (e == HangsUp(c) ==> h'.shut == h.shut)
      && (closed || e == HangsUp(c) ==> h'.returned == h.returned + [BridgeMessage(c, ShutdownChannel, "")])
  {
  }

  // ---- The echoes among the bridge's traffic

  function SyncInstructions(stamps: seq<string>): seq<seq<string>> {
    if stamps == [] then [] else [["sync", stamps[0]]] + SyncInstructions(stamps[1..])
  }

  /** What the faker echoes for a chunk, a `sync` for each timestamp. */
  function Echoes(stamps: seq<string>): string { EncodeAll(SyncInstructions(stamps)) }

  /** A timestamp as the faker's framer hands it out. */
  predicate Stamp(tolerant: bool, t: string) {
    Ascii(t) && if tolerant then |t| < MAX_ELEMENT else |t| <= MAX_ELEMENT
  }

  predicate Stamps(tolerant: bool, stamps: seq<string>) { forall i :: 0 <= i < |stamps| ==> Stamp(tolerant, stamps[i]) }

  lemma {:induction false} SyncsInsertable(tolerant: bool, stamps: seq<string>)
    requires Stamps(tolerant, stamps)
    ensures Insertable(tolerant, SyncInstructions(stamps)) && |SyncInstructions(stamps)| == |stamps|
    decreases |stamps|
  {
    if stamps != [] {
      assert Stamp(tolerant, stamps[0]);
      SyncsInsertable(tolerant, stamps[1..]);
      var one := ["sync", stamps[0]];
      assert WellFormed(one) && forall j :: 0 <= j < |one| ==> one[j] == "sync" || one[j] == stamps[0];
      hide WellFormed;
    }
  }

  /** Read from its beginning, `after` is `before` with the echoes as further instructions, and at a boundary. */
  ghost predicate ReadsSyncs(tolerant: bool, before: string, after: string, stamps: seq<string>) {
    ReadAll(tolerant, after) == Fresh(Collected([], ReadAll(tolerant, before).policy.done + SyncInstructions(stamps)))
  }

  /**
   * Echoes that reach guacd behind what it has been sent on the connection are read
   * as just these syncs if and only if that ends between two instructions or in the
   * leading zeros of the next one's length prefix.
   */
  lemma {:induction false} SyncsReachGuacd(tolerant: bool, events: seq<LinkEvent>, c: Channel, stamps: seq<string>, s: Sockets)
    requires c in RunLink(events).dialed && s.sent && Stamps(tolerant, stamps) && stamps != []
    ensures var more := events + [Handles(BridgeMessage(c, Payload, Echoes(stamps)), s)];
      && Written(more, c) == Written(events, c) + Echoes(stamps)
      && (ReadsSyncs(tolerant, Written(events, c), Written(more, c), stamps) <==>
            InsertionPoint(ReadAll(tolerant, Written(events, c))))
  {
    PayloadWritten(events, c, Echoes(stamps), s);
    SyncsInsertable(tolerant, stamps);
    hide RunLink, Written, ReadAll, SyncInstructions, EncodeAll, Insertable, InsertionPoint;
    InsertedIff(tolerant, Written(events, c), SyncInstructions(stamps));
  }

  lemma EncodeOne(i: seq<string>)
    ensures EncodeAll([i]) == Instr(i)
  {
    hide Instr;
    assert [i][1..] == [];
    assert EncodeAll([i]) == Instr([i][0]) + EncodeAll([]);
    assert Instr(i) + "" == Instr(i);
  }

  lemma OneEcho(t: string)
    ensures Echoes([t]) == Instr(["sync", t])
  {
    EncodeOne(["sync", t]);
    assert [t][1..] == [];
    assert SyncInstructions([t]) == [["sync", t]] + SyncInstructions([]);
    hide Instr, EncodeAll;
    assert SyncInstructions([t]) == [["sync", t]];
  }

  /** Behind `4.size,` the echo is lost and the size falsified, without a framing error. */
  lemma {:induction false} SyncFalsifies(tolerant: bool, t: string)
    requires Stamp(tolerant, t)
    ensures ReadAll(tolerant, "4.size," + Echoes([t])) == Fresh(Collected([], [["size", "sync", t]]))
  {
    var l, sync := Fresh(Collected([], [])), ["sync", t];
    assert Element("size") + [','] == "4.size," by {
      assert Element("size") == "4.size" by {
        assert Numeral(4) == ['0' + 4 as char] == "4";
      }
    }
    OneEcho(t);
    assert WellFormed(sync);
    ReadPrintedElement(tolerant, l, "size", ',');
    assert [] + ["size"] == ["size"];
    hide Read, Instr, WellFormed, Element, Echoes;
    ReadConcat(tolerant, l, "4.size,", Instr(sync));
    ReadPrinted(tolerant, Live(Start, false, Collected(["size"], [])), sync);
    assert ["size"] + sync == ["size", "sync", t];
    assert [] + [["size", "sync", t]] == [["size", "sync", t]];
  }

  // ---- What the faker sends

  ghost predicate IsEchoes(echoes: string) { exists stamps: seq<string> :: Stamps(false, stamps) && echoes == Echoes(stamps) }

  ghost predicate Faithful(l: Live<Y.SyncState>) {
    Framed(true, l.cursor) && Stamp(false, l.policy.timestamp) && IsEchoes(l.policy.echoes)
  }

  lemma {:induction false} SyncInstructionsMore(stamps: seq<string>, t: string)
    ensures SyncInstructions(stamps + [t]) == SyncInstructions(stamps) + [["sync", t]]
    decreases |stamps|
  {
    if stamps == [] {
      assert [] + [t] == [t] && [t][1..] == [];
    } else {
      assert (stamps + [t])[0] == stamps[0] && (stamps + [t])[1..] == stamps[1..] + [t];
      SyncInstructionsMore(stamps[1..], t);
      Assoc([["sync", stamps[0]]], SyncInstructions(stamps[1..]), [["sync", t]]);
    }
  }

  lemma EchoesAppend(stamps: seq<string>, t: string)
    ensures Echoes(stamps + [t]) == Echoes(stamps) + Instr(["sync", t])
  {
    SyncInstructionsMore(stamps, t);
    EncodeOne(["sync", t]);
    hide Instr, SyncInstructions, EncodeAll;
    EncodeAllSplit(SyncInstructions(stamps), [["sync", t]]);
  }

  lemma EchoesMore(echoes: string, t: string)
    requires IsEchoes(echoes) && Stamp(false, t)
    ensures IsEchoes(echoes + ("4.sync," + Numeral(|t|) + "." + t + ";"))
  {
    Y.ReplyText(t);
    hide Numeral, Instr, Stamp, Echoes;
    var stamps: seq<string> :| Stamps(false, stamps) && echoes == Echoes(stamps);
    EchoesAppend(stamps, t);
    assert Stamps(false, stamps + [t]);
  }

  lemma JudgeFaithful(l: Live<Y.SyncState>, e: string)
    requires Stamp(false, l.policy.timestamp) && Stamp(false, e)
    ensures var q := Judge(Y.SYNC, NewCall(l), e).live.policy;
      Stamp(false, q.timestamp) && q.echoes == l.policy.echoes
  {
    hide Stamp;
    assert Stamp(false, "") by { EmptyStamp(); }
  }

  lemma EmptyStamp()
    ensures Stamp(false, "")
  {
  }

  lemma StepPolicy(l: Live<Y.SyncState>, c: char)
    ensures var q := Observe(Y.SYNC, l, c).policy;
      || q == l.policy
      || (l.cursor.Delim? && var p := Judge(Y.SYNC, NewCall(l), l.cursor.elem).live.policy; q == p || q == Y.SyncEnd(p, 0))
  {
    hide Y.SyncBegin, Y.SyncArgument, Y.SyncEnd, Advance;
  }

  lemma StepFaithful(l: Live<Y.SyncState>, c: char)
    requires Faithful(l)
    ensures Faithful(Observe(Y.SYNC, l, c))
  {
    StepPolicy(l, c);
    assert Framed(true, Observe(Y.SYNC, l, c).cursor) by { FramedStep(l, c); }
    hide Observe, IsEchoes, Judge, Numeral;
    if l.cursor.Delim? {
      var p := Judge(Y.SYNC, NewCall(l), l.cursor.elem).live.policy;
      assert Stamp(false, l.cursor.elem);
      hide Stamp;
      JudgeFaithful(l, l.cursor.elem);
      EchoesMore(p.echoes, p.timestamp);
    }
  }

  lemma FramedStep(l: Live<Y.SyncState>, c: char)
    requires Framed(true, l.cursor)
    ensures Framed(true, Observe(Y.SYNC, l, c).cursor)
  {
    hide Y.SyncBegin, Y.SyncArgument, Y.SyncEnd;
  }

  lemma {:induction false} AllFaithful(l: Live<Y.SyncState>, s: string)
    requires Faithful(l)
    ensures Faithful(ObserveAll(Y.SYNC, l, s))
  {
    if s != "" {
      hide Faithful, Observe;
      AllFaithful(l, s[..|s| - 1]);
      StepFaithful(ObserveAll(Y.SYNC, l, s[..|s| - 1]), s[|s| - 1]);
    }
  }

  /** On every chunk, garbage included, the faker's reply is a message of echoes; and so it goes on. */
  lemma {:induction false} FakerSendsEchoes(l: Live<Y.SyncState>, data: string)
    requires Framed(true, l.cursor) && Stamp(false, l.policy.timestamp)
    ensures var (l', echoes) := Y.SyncFeed(l, data);
      && Framed(true, l'.cursor) && Stamp(false, l'.policy.timestamp)
      && exists stamps: seq<string> :: Stamps(false, stamps) && echoes == Echoes(stamps)
  {
    assert IsEchoes("") by {
      assert Stamps(false, []) && Echoes([]) == "";
    }
    hide ObserveAll, Stamp, Stamps, Echoes;
    AllFaithful(Y.Cleared(l), data);
  }
}
