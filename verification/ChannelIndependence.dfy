/**
 * Channels do not touch each other: seen on one channel, any run of the guard is
 * the run on that channel's datagrams, the toggles and the loop tops alone.
 */
module ChannelIndependence {
  import opened Framing
  import opened GuardPolicyModule
  import opened MultiplexerModule
  import opened GuardModule
  import opened GuardRuns

  /** The frames of one channel. */
  function On(sent: seq<Sent>, c: Channel): seq<Sent> {
    if sent == [] then [] else
    On(sent[..|sent| - 1], c) + if sent[|sent| - 1].message.channel == c then [sent[|sent| - 1]] else []
  }

  function Only(order: seq<Channel>, c: Channel): seq<Channel> {
    if order == [] then [] else
    Only(order[..|order| - 1], c) + if order[|order| - 1] == c then [c] else []
  }

  /** What a guard that serves only `c` would see of an event. */
  function Seen(e: Event, c: Channel): (seen: seq<Event>)
    ensures |seen| <= 1
  {
    match e
    case Toggle(approve) => [Toggle(approve)]
    case LoopTop(order) => [LoopTop(Only(order, c))]
    case Datagram(buffer) =>
      if TryCast(buffer).Some? && TryCast(buffer).value.channel == c then [Datagram(buffer)] else []
  }

  /** The events a guard that serves only `c` would see. */
  function Project(events: seq<Event>, c: Channel): seq<Event> {
    if events == [] then [] else
    Project(events[..|events| - 1], c) + Seen(events[|events| - 1], c)
  }

  /** `h` is `g` with everything but channel `c` taken away. */
  ghost predicate Restricts(h: GuardState, g: GuardState, c: Channel) {
    && h.approving == g.approving && h.denyTeardown == g.denyTeardown
    && h.approved == g.approved * {c} && h.poisoned == g.poisoned * {c}
    && h.parsers.Keys == g.parsers.Keys * {c}
    && (c in g.parsers ==> h.parsers[c] == g.parsers[c])
  }

  lemma OnMore(sent: seq<Sent>, a: Sent, c: Channel)
    ensures On(sent + [a], c) == On(sent, c) + if a.message.channel == c then [a] else []
  {
    assert (sent + [a])[..|sent|] == sent;
  }

  lemma {:induction false} OnConcat(a: seq<Sent>, b: seq<Sent>, c: Channel)
    ensures On(a + b, c) == On(a, c) + On(b, c)
  {
    if b == [] {
      assert a + b == a && On(a, c) + [] == On(a, c);
    } else {
      var init, last := b[..|b| - 1], b[|b| - 1];
      OnConcat(a, init, c);
      OnMore(a + init, last, c);
      assert a + b == a + init + [last];
      Assoc(On(a, c), On(init, c), if last.message.channel == c then [last] else []);
    }
  }

  lemma {:induction false} OnVisit(order: seq<Channel>, c: Channel)
    ensures On(Visit(order), c) == Visit(Only(order, c))
  {
    if order != [] {
      var init, last := order[..|order| - 1], order[|order| - 1];
      OnVisit(init, c);
      OnMore(Visit(init), Issued(Shutdown(last)), c);
      assert Only(order, c) == Only(init, c) + if last == c then [c] else [];
      if last == c {
        VisitMore(Only(init, c), c);
      } else {
        assert On(Visit(init), c) + [] == On(Visit(init), c) && Only(init, c) + [] == Only(init, c);
      }
    }
  }

  lemma {:induction false} OnlyOnce(order: seq<Channel>, members: set<Channel>, c: Channel)
    requires Enumerates(order, members)
    ensures Only(order, c) == if c in members then [c] else []
    ensures Enumerates(Only(order, c), members * {c})
  {
    OnlyCounts(order, c);
    if c in members {
      assert c in order;
    }
  }

  lemma {:induction false} OnlyCounts(order: seq<Channel>, c: Channel)
    requires forall j, k :: 0 <= j < k < |order| ==> order[j] != order[k]
    ensures Only(order, c) == if c in order then [c] else []
  {
    if order != [] {
      var init, last := order[..|order| - 1], order[|order| - 1];
      OnlyCounts(init, c);
      assert order == init + [last];
    }
  }

  ghost predicate AllOn(sent: seq<Sent>, c: Channel) { forall k :: 0 <= k < |sent| ==> sent[k].message.channel == c }

  lemma {:induction false} OnAll(sent: seq<Sent>, c: Channel, d: Channel)
    requires AllOn(sent, d)
    ensures On(sent, c) == if c == d then sent else []
  {
    if sent != [] {
      OnAll(sent[..|sent| - 1], c, d);
      assert sent == sent[..|sent| - 1] + [sent[|sent| - 1]];
    }
  }

  /** All of a message's frames are on its channel. */
  lemma HandleStays(g: GuardState, m: BridgeMessage, c: Channel)
    ensures On(Handle(g, m).1, c) == if c == m.channel then Handle(g, m).1 else []
  {
    hide Call, ValidRequestId, Clean, Output, On;
    assert AllOn(Handle(g, m).1, m.channel);
    OnAll(Handle(g, m).1, c, m.channel);
  }

  /** A message of another channel changes nothing here. */
  lemma HandleElsewhere(g: GuardState, h: GuardState, m: BridgeMessage, c: Channel)
    requires Restricts(h, g, c) && m.channel != c
    ensures Restricts(h, Handle(g, m).0, c)
  {
    hide Call, ValidRequestId, Clean, Output, Rest;
  }

  lemma CreateHere(g: GuardState, h: GuardState, m: BridgeMessage)
    requires Restricts(h, g, m.channel)
    ensures Restricts(Create(h, m).0, Create(g, m).0, m.channel) && Create(h, m).1 == Create(g, m).1
  {
    hide ValidRequestId, Verdict, Shutdown;
  }

  lemma SettleHere(g: GuardState, h: GuardState, m: BridgeMessage, r: Run<GuardPolicy>)
    requires Restricts(h, g, m.channel)
    ensures Restricts(Settle(h, m, r).0, Settle(g, m, r).0, m.channel) && Settle(h, m, r).1 == Settle(g, m, r).1
  {
    hide Clean, Output;
  }

  lemma CarryHere(g: GuardState, h: GuardState, m: BridgeMessage)
    requires Restricts(h, g, m.channel)
    ensures Restricts(Carry(h, m).0, Carry(g, m).0, m.channel) && Carry(h, m).1 == Carry(g, m).1
  {
    hide Call, Settle, Rest;
    var c := m.channel;
    if c !in g.poisoned && c in g.approved {
      var r := Call(GUARD, LiveOf(g, c), m.payload);
      SettleHere(g.(parsers := g.parsers[c := Rest(r)]), h.(parsers := h.parsers[c := Rest(r)]), m, r);
    }
  }

  /** A message of this channel is handled alike. */
  lemma HandleHere(g: GuardState, h: GuardState, m: BridgeMessage)
    requires Restricts(h, g, m.channel)
    ensures Restricts(Handle(h, m).0, Handle(g, m).0, m.channel)
    ensures Handle(h, m).1 == Handle(g, m).1
  {
    hide Create, Carry;
    match m.action {
      case CreateChannel => CreateHere(g, h, m);
      case ShutdownChannel =>
      case _ => CarryHere(g, h, m);
    }
  }

  /** One event, seen by the guard of one channel: the same outcome there, or none. */
  ghost predicate EventAlike(g: GuardState, h: GuardState, e: Event, c: Channel) {
    var (g', more) := GuardStep(g, e);
    if Seen(e, c) == [] then Restricts(h, g', c) && On(more, c) == []
    else
      var (h', more') := GuardStep(h, Seen(e, c)[0]);
      Possible(h, Seen(e, c)[0]) && Restricts(h', g', c) && more' == On(more, c)
  }

  lemma DenyAlike(g: GuardState, h: GuardState, order: seq<Channel>, c: Channel)
    requires Restricts(h, g, c) && Possible(g, LoopTop(order))
    ensures EventAlike(g, h, LoopTop(order), c)
  {
    hide Enumerates, Visit, Only, On;
    if g.denyTeardown {
      OnlyOnce(order, g.approved, c);
      OnVisit(order, c);
    } else {
      OnNone(c);
    }
  }

  lemma DatagramAlike(g: GuardState, h: GuardState, buffer: Bytes, c: Channel)
    requires Restricts(h, g, c)
    ensures EventAlike(g, h, Datagram(buffer), c)
  {
    OnNone(c);
    var cast := TryCast(buffer);
    hide TryCast, Restricts, Handle, On;
    if cast.Some? {
      HandleStays(g, cast.value, c);
      if cast.value.channel == c {
        HandleHere(g, h, cast.value);
      } else {
        HandleElsewhere(g, h, cast.value, c);
      }
    }
  }

  lemma StepAlike(g: GuardState, h: GuardState, e: Event, c: Channel)
    requires Restricts(h, g, c) && Possible(g, e)
    ensures EventAlike(g, h, e, c)
  {
    match e {
      case Toggle(approve) => OnNone(c);
      case LoopTop(order) => DenyAlike(g, h, order, c);
      case Datagram(buffer) => DatagramAlike(g, h, buffer, c);
    }
  }

  lemma OnNone(c: Channel)
    ensures On([], c) == []
  {
  }

  /**
   * For every run and every channel, the guard's state projected to the channel and
   * the frames it sent on it are those of the run on that channel's datagrams, the
   * toggles and the loop tops alone, which sends nothing else.
   */
  lemma {:induction false} ChannelsAreIndependent(events: seq<Event>, c: Channel)
    requires PossibleRun(events)
    ensures PossibleRun(Project(events, c))
    ensures var (g, sent) := RunGuard(events);
      var (h, sentAlone) := RunGuard(Project(events, c));
      Restricts(h, g, c) && sentAlone == On(sent, c)
  {
    if events != [] {
      var init, e := events[..|events| - 1], events[|events| - 1];
      ChannelsAreIndependent(init, c);
      var (g, sent) := RunGuard(init);
      var (h, alone) := RunGuard(Project(init, c));
      StepAlike(g, h, e, c);
      OnConcat(sent, GuardStep(g, e).1, c);
      var seen := Seen(e, c);
      hide GuardStep, Possible, Restricts, Seen, On;
      if seen == [] {
        assert Project(init, c) + [] == Project(init, c) && On(sent, c) + [] == On(sent, c);
      } else {
        assert seen == [seen[0]];
        RunMore(Project(init, c), seen[0]);
      }
    }
  }
}
