/**
 * The approval protocol end to end: gmlbroker's connections and registry, the
 * guard, gcdbroker, and a network that loses, duplicates and reorders. A message
 * once sent can be delivered at any later time, any number of times, or never.
 */
module ApprovalProtocol {
  import opened Framing
  import opened MultiplexerModule
  import opened ApprovalRegistryModule
  import opened KeepaliveFilterModule
  import opened ClipboardAckFakerModule
  import opened GuardModule
  import opened GuardRuns
  import opened GuacdSendHandlerModule
  import opened GuacamoleReaderModule
  import opened HandshakeForgerModule
  import opened GuacamoleSendHandlerModule
  import opened ReturnFilterModule
  import M = ChannelMailboxModule

  /** A registry entry: the index of its flag, which the reader shares, and the outstanding request. */
  datatype Registration = Registration(flag: nat, requestId: string)

  /** A reader, the flag it took at its start, and whether it has already left the registry. */
  datatype Connection = Connection(reader: Reader, flag: nat, leaving: bool)

  datatype World = World(
    registry: map<Channel, Registration>,
    flags: seq<bool>,
    connections: map<Channel, Connection>,
    low: set<BridgeMessage>,    // everything gmlbroker has sent to the guard
    guard: GuardState,
    sent: seq<Sent>,            // everything the guard has sent to gcdbroker
    high: High)                 // high.returned: everything gcdbroker has sent to gmlbroker

  const START := World(map[], [], map[], {}, INITIAL, [], NOTHING_DIALED)

  datatype Move =
    | Accept(c: Channel)
    | Browser(c: Channel, data: string, id: string)
    | IdleTick(c: Channel)
    | Leave(c: Channel)                        // the reader removes its registry entry
    | Free(c: Channel, announce: bool)         // and then its channel
    | ReturnArrives(m: BridgeMessage)
    | GuardReceives(m: BridgeMessage)
    | GuardOther(e: Event)                     // a toggle or a loop top
    | HighReceives(k: nat, sockets: Sockets)
    | GuacdSends(c: Channel, payload: string)
    | GuacdCloses(c: Channel)
    | SyncAck(c: Channel, payload: string, sockets: Sockets)

  /** `honest`: the guard is only given what gmlbroker sent. Otherwise the low side sends whatever it likes. */
  predicate Enabled(honest: bool, w: World, a: Move) {
    match a
    case Accept(c) => c !in w.connections
    case Browser(c, _, _) => c in w.connections && !w.connections[c].leaving
    case IdleTick(c) => c in w.connections && !w.connections[c].leaving
    case Leave(c) => c in w.connections && !w.connections[c].leaving
    case Free(c, _) => c in w.connections && w.connections[c].leaving
    case ReturnArrives(m) => m in w.high.returned
    case GuardReceives(m) => Sendable(m) && (honest ==> m in w.low)
    case GuardOther(e) => !e.Datagram? && Possible(w.guard, e)
    case HighReceives(k, _) => k < |w.sent|
    case GuacdSends(c, _) => c in w.high.dialed
    case GuacdCloses(c) => c in w.high.dialed
    case SyncAck(c, _, _) => true
  }

  function FlagAt(w: World, i: nat): bool { i < |w.flags| && w.flags[i] }

  function Queue(w: World, queued: seq<BridgeMessage>): World { w.(low := w.low + set m | m in queued) }

  /** What the reader of `c` makes of browser input; a handshake that completes registers its request. */
  function DoBrowser(env: Environment, w: World, c: Channel, data: string, id: string): World
    requires c in w.connections
  {
    var n := w.connections[c];
    var (r, e) := TakeInput(env, c, n.reader, data, FlagAt(w, n.flag), id);
    var w1 := Queue(w.(connections := w.connections[c := n.(reader := r)]), e.queued);
    if !IsEstablished(n.reader) && IsEstablished(r) && c in w.registry
    then w1.(registry := w.registry[c := w.registry[c].(requestId := id)])
    else w1
  }

  function DoTick(w: World, c: Channel): World
    requires c in w.connections
  {
    var n := w.connections[c];
    var (r, queued) := MaybeReplay(c, n.reader, FlagAt(w, n.flag));
    Queue(w.(connections := w.connections[c := n.(reader := r)]), queued)
  }

  /** A verdict on the return path sets the flag of the entry it matches. */
  function DoReturn(w: World, m: BridgeMessage): World {
    if m.action.Approval? && VerdictOf(m) == APPROVAL_APPROVE
       && m.channel in w.registry && w.registry[m.channel].requestId == RequestOf(m)
       && w.registry[m.channel].flag < |w.flags|
    then w.(flags := w.flags[w.registry[m.channel].flag := true])
    else w
  }

  function Do(env: Environment, w: World, a: Move): World
    requires Enabled(false, w, a)
  {
    match a
    case Accept(c) =>
      w.(flags := w.flags + [false],
         registry := w.registry[c := Registration(|w.flags|, "")],
         connections := w.connections[c := Connection(CONNECTED, |w.flags|, false)])
    case Browser(c, data, id) => DoBrowser(env, w, c, data, id)
    case IdleTick(c) => DoTick(w, c)
    case Leave(c) =>
      w.(registry := w.registry - {c}, connections := w.connections[c := w.connections[c].(leaving := true)])
    case Free(c, announce) =>
      Queue(w.(connections := w.connections - {c}), if announce then [BridgeMessage(c, ShutdownChannel, "")] else [])
    case ReturnArrives(m) => DoReturn(w, m)
    case GuardReceives(m) => var (g, more) := Handle(w.guard, m); w.(guard := g, sent := w.sent + more)
    case GuardOther(e) => var (g, more) := GuardStep(w.guard, e); w.(guard := g, sent := w.sent + more)
    case HighReceives(k, sockets) => w.(high := Relay(w.high, w.sent[k].message, sockets))
    case GuacdSends(c, payload) => w.(high := w.high.(returned := w.high.returned + [BridgeMessage(c, Payload, payload)]))
    case GuacdCloses(c) =>
      w.(high := w.high.(dialed := w.high.dialed - {c},
                         returned := w.high.returned + [BridgeMessage(c, ShutdownChannel, "")]))
    case SyncAck(c, payload, sockets) => w.(high := Relay(w.high, BridgeMessage(c, Payload, payload), sockets))
  }

  /** The world after some moves; moves that are not enabled are not made. */
  function Run(env: Environment, honest: bool, moves: seq<Move>): World {
    if moves == [] then START else
    var w := Run(env, honest, moves[..|moves| - 1]);
    var a := moves[|moves| - 1];
    if Enabled(honest, w, a) then Do(env, w, a) else w
  }

  // ---- The guard, whatever the low side sends

  ghost predicate GuardKeeps(w: World) {
    Gated(w.guard, w.sent) && Passed([], w.sent) && AllAnswer(w.sent)
  }

  lemma HandleAnswers(g: GuardState, m: BridgeMessage)
    requires Sendable(m)
    ensures AllAnswer(Handle(g, m).1)
  {
    CastSerialized(m);
    StepAnswers(g, Datagram(Serialize(m)));
    assert GuardStep(g, Datagram(Serialize(m))) == Handle(g, m);
  }

  lemma DoGuardKeeps(env: Environment, w: World, a: Move)
    requires GuardKeeps(w) && Enabled(false, w, a)
    ensures GuardKeeps(Do(env, w, a))
  {
    hide Gated, Passed, AllAnswer, Handle, GuardStep, Relay, TakeInput, MaybeReplay, Possible, Sendable;
    match a {
      case GuardReceives(m) =>
        HandleGated(w.guard, w.sent, m);
        PassedMore(w.sent, Handle(w.guard, m).1);
        HandleAnswers(w.guard, m);
        AnswersMore(w.sent, Handle(w.guard, m).1);
      case GuardOther(e) =>
        StepGated(w.guard, w.sent, e);
        PassedMore(w.sent, GuardStep(w.guard, e).1);
        StepAnswers(w.guard, e);
        AnswersMore(w.sent, GuardStep(w.guard, e).1);
      case _ =>
    }
  }

  // ---- The high side, whatever the low side sends

  /** The guard has issued an approval for `c`. */
  ghost predicate Cleared(sent: seq<Sent>, c: Channel) {
    exists j :: 0 <= j < |sent| && IsVerdict(sent[j], c, APPROVAL_APPROVE)
  }

  ghost predicate WasSent(sent: seq<Sent>, m: BridgeMessage) { exists k :: 0 <= k < |sent| && sent[k].message == m }

  predicate Approving(m: BridgeMessage) { m.action.Approval? && VerdictOf(m) == APPROVAL_APPROVE }

  ghost predicate HighKeeps(h: High, sent: seq<Sent>) {
    && (forall c :: c in h.dialed ==> Cleared(sent, c))
    && (forall k :: 0 <= k < |h.toGuacd| ==> Cleared(sent, h.toGuacd[k].0))
    && (forall m :: m in h.returned && Approving(m) ==> WasSent(sent, m))
  }

  lemma HighMoreSent(h: High, sent: seq<Sent>, more: seq<Sent>)
    requires HighKeeps(h, sent)
    ensures HighKeeps(h, sent + more)
  {
    hide IsVerdict, Approving;
    forall c | Cleared(sent, c) ensures Cleared(sent + more, c) {
      var j :| 0 <= j < |sent| && IsVerdict(sent[j], c, APPROVAL_APPROVE);
      assert (sent + more)[j] == sent[j];
    }
    forall m | WasSent(sent, m) ensures WasSent(sent + more, m) {
      var k :| 0 <= k < |sent| && sent[k].message == m;
      assert (sent + more)[k] == sent[k];
    }
  }

  /** Whether issued or passed on as payload, an approving frame stands for an approval the guard has issued. */
  lemma ApprovingIsCleared(g: GuardState, sent: seq<Sent>, k: nat)
    requires Passed([], sent) && k < |sent| && Approving(sent[k].message)
    ensures Cleared(sent, sent[k].message.channel)
  {
    var c := sent[k].message.channel;
    if sent[k].Issued? {
      assert IsVerdict(sent[k], c, APPROVAL_APPROVE);
    } else {
      assert IsPayload(sent[k], c);
      assert [] + sent[..k] == sent[..k];
      OpenMeans(sent[..k], c);
      var j :| OpenedAt(sent[..k], c, j);
      assert IsVerdict(sent[j], c, APPROVAL_APPROVE);
    }
  }

  lemma RelayKeeps(h: High, sent: seq<Sent>, m: BridgeMessage, s: Sockets)
    requires HighKeeps(h, sent)
    requires Approving(m) ==> WasSent(sent, m) && Cleared(sent, m.channel)
    ensures HighKeeps(Relay(h, m, s), sent)
  {
    hide Cleared, WasSent;
  }

  lemma DoHighKeeps(env: Environment, w: World, a: Move)
    requires GuardKeeps(w) && HighKeeps(w.high, w.sent) && Enabled(false, w, a)
    ensures HighKeeps(Do(env, w, a).high, Do(env, w, a).sent)
  {
    match a {
      case GuardReceives(m) =>
        hide HighKeeps, Handle;
        HighMoreSent(w.high, w.sent, Handle(w.guard, m).1);
      case GuardOther(e) =>
        hide HighKeeps, GuardStep, Possible;
        HighMoreSent(w.high, w.sent, GuardStep(w.guard, e).1);
      case HighReceives(k, sockets) =>
        var m := w.sent[k].message;
        assert WasSent(w.sent, m);
        hide HighKeeps, Relay, Cleared, Passed, Approving;
        if Approving(m) {
          ApprovingIsCleared(w.guard, w.sent, k);
        }
        RelayKeeps(w.high, w.sent, m, sockets);
      case SyncAck(c, payload, sockets) =>
        hide HighKeeps, Relay, Cleared;
        RelayKeeps(w.high, w.sent, BridgeMessage(c, Payload, payload), sockets);
      case GuacdSends(c, payload) => hide Cleared, WasSent;
      case GuacdCloses(c) => hide Cleared, WasSent;
      case _ => hide HighKeeps, TakeInput, MaybeReplay;
    }
  }

  lemma {:induction false} RunHigh(env: Environment, honest: bool, moves: seq<Move>)
    ensures var w := Run(env, honest, moves); GuardKeeps(w) && HighKeeps(w.high, w.sent)
  {
    if moves != [] {
      RunHigh(env, honest, moves[..|moves| - 1]);
      var w, a := Run(env, honest, moves[..|moves| - 1]), moves[|moves| - 1];
      if Enabled(honest, w, a) {
        hide GuardKeeps, HighKeeps, Do;
        DoGuardKeeps(env, w, a);
        DoHighKeeps(env, w, a);
      }
    }
  }

  /**
   * Whatever the low side sends: gcdbroker has a connection to guacd on a channel,
   * and guacd has been sent payload on it, only if the guard has issued an approval
   * for that channel.
   */
  lemma {:induction false} DialedOnlyAfterApproval(env: Environment, honest: bool, moves: seq<Move>)
    ensures var w := Run(env, honest, moves);
      && (forall c :: c in w.high.dialed ==> Cleared(w.sent, c))
      && (forall k :: 0 <= k < |w.high.toGuacd| ==> Cleared(w.sent, w.high.toGuacd[k].0))
  {
    RunHigh(env, honest, moves);
  }

  // ---- The low side, when it is honest

  /** Frames the guard passes on stand for what gmlbroker sent: it never sends verdicts, and requests cross as they are. */
  ghost predicate Honest(w: World) {
    && (forall m :: m in w.low ==> !m.action.Approval?)
    && (forall k :: 0 <= k < |w.sent| && w.sent[k].Relayed? ==>
          && !w.sent[k].message.action.Approval?
          && (w.sent[k].message.action.CreateChannel? ==> w.sent[k].message in w.low))
  }

  /** The guard has approved exactly this request. */
  ghost predicate Granted(sent: seq<Sent>, c: Channel, id: string) {
    ValidRequestId(id) && exists j :: 0 <= j < |sent| && sent[j] == Issued(Verdict(c, true, id))
  }

  /** Every connection that has not left has a registry entry, and the flag in it is its own. */
  ghost predicate Registered(w: World) {
    && (forall c :: c in w.registry <==> c in w.connections && !w.connections[c].leaving)
    && (forall c :: c in w.registry ==> w.registry[c].flag == w.connections[c].flag < |w.flags|)
    && (forall c, d :: c in w.registry && d in w.registry && c != d ==> w.registry[c].flag != w.registry[d].flag)
  }

  /** What the flags and what was sent are worth. */
  ghost predicate LowKeeps(w: World) {
    && Registered(w)
    && (forall c :: c in w.registry && w.flags[w.registry[c].flag] ==> Granted(w.sent, c, w.registry[c].requestId))
    && (forall c :: c in w.registry && !IsEstablished(w.connections[c].reader) ==> w.registry[c].requestId == "")
    && (forall c :: c in w.connections && w.connections[c].reader.replayed ==> Cleared(w.sent, c))
    && (forall c :: c in w.registry && w.connections[c].reader.replayed ==> w.flags[w.registry[c].flag])
    && (forall m :: m in w.low && m.action.Payload? ==> Cleared(w.sent, m.channel))
  }

  lemma GrantedCleared(sent: seq<Sent>, c: Channel, id: string)
    requires Granted(sent, c, id)
    ensures Cleared(sent, c)
  {
    var j :| 0 <= j < |sent| && sent[j] == Issued(Verdict(c, true, id));
    assert IsVerdict(sent[j], c, APPROVAL_APPROVE);
  }

  lemma HandleRelays(g: GuardState, m: BridgeMessage)
    ensures var more := Handle(g, m).1;
      forall k :: 0 <= k < |more| && more[k].Relayed? ==>
        && more[k].message.action == m.action
        && (m.action.CreateChannel? ==> more[k].message == m)
  {
    hide ValidRequestId, Clean, Output;
  }

  lemma StepIssues(g: GuardState, e: Event)
    requires !e.Datagram?
    ensures forall k :: 0 <= k < |GuardStep(g, e).1| ==> GuardStep(g, e).1[k].Issued?
  {
  }

  /** What a reader does with a chunk. */
  lemma InputFacts(env: Environment, c: Channel, r: Reader, data: string, approved: bool, id: string)
    ensures var (r', e) := TakeInput(env, c, r, data, approved, id);
      && (r'.replayed ==> r.replayed || (IsEstablished(r) && approved))
      && (IsEstablished(r) ==> IsEstablished(r'))
      && (!IsEstablished(r) ==> r'.replayed == r.replayed)
      && forall m :: m in e.queued ==>
           && m.channel == c && !m.action.Approval?
           && (m.action.Payload? ==> r'.replayed)
  {
    hide ForgerFeed, AckFeed, FilterChunk;
    ReplayFacts(c, r.handshake);
    hide Replay;
  }

  lemma {:induction false} ReplayFacts(c: Channel, s: string)
    ensures forall m :: m in Replay(c, s) ==> m.channel == c && m.action.Payload?
  {
    if |s| > MAX_PAYLOAD_SIZE {
      ReplayFacts(c, s[MAX_PAYLOAD_SIZE..]);
    }
  }

  lemma TickFacts(c: Channel, r: Reader, approved: bool)
    ensures var (r', queued) := MaybeReplay(c, r, approved);
      && (r'.replayed ==> r.replayed || (IsEstablished(r) && approved))
      && (IsEstablished(r) <==> IsEstablished(r'))
      && forall m :: m in queued ==> m.channel == c && m.action.Payload? && r'.replayed
  {
    ReplayFacts(c, r.handshake);
    hide Replay;
  }

  lemma DoHonest(env: Environment, w: World, a: Move)
    requires Honest(w) && Enabled(true, w, a)
    ensures Honest(Do(env, w, a))
  {
    match a {
      case Browser(c, data, id) =>
        var n := w.connections[c];
        InputFacts(env, c, n.reader, data, FlagAt(w, n.flag), id);
        hide TakeInput;
      case IdleTick(c) =>
        var n := w.connections[c];
        TickFacts(c, n.reader, FlagAt(w, n.flag));
        hide MaybeReplay;
      case GuardReceives(m) =>
        HandleRelays(w.guard, m);
        hide Handle;
      case GuardOther(e) =>
        StepIssues(w.guard, e);
        hide GuardStep, Possible;
      case _ => hide Relay;
    }
  }

  lemma LowMoreSent(w: World, more: seq<Sent>)
    requires LowKeeps(w)
    ensures LowKeeps(w.(sent := w.sent + more))
  {
    hide IsVerdict, Registered;
    forall c | Cleared(w.sent, c) ensures Cleared(w.sent + more, c) {
      var j :| 0 <= j < |w.sent| && IsVerdict(w.sent[j], c, APPROVAL_APPROVE);
      assert (w.sent + more)[j] == w.sent[j];
    }
    forall c, id | Granted(w.sent, c, id) ensures Granted(w.sent + more, c, id) {
      var j :| 0 <= j < |w.sent| && w.sent[j] == Issued(Verdict(c, true, id));
      assert (w.sent + more)[j] == w.sent[j];
    }
    assert Registered(w.(sent := w.sent + more)) by { SameRegistered(w, more); }
  }

  lemma SameRegistered(w: World, more: seq<Sent>)
    requires Registered(w)
    ensures Registered(w.(sent := w.sent + more))
  {
  }

  /** The guard and the high side are not the low side's business. */
  lemma ElsewhereKeeps(w: World, g: GuardState, h: High)
    requires LowKeeps(w)
    ensures LowKeeps(w.(guard := g, high := h))
  {
    hide Granted, Cleared;
  }

  lemma AcceptRegistered(w: World, w': World, c: Channel)
    requires Registered(w) && c !in w.connections
    requires w'.registry == w.registry[c := Registration(|w.flags|, "")] && w'.flags == w.flags + [false]
    requires w'.connections == w.connections[c := Connection(CONNECTED, |w.flags|, false)]
    ensures Registered(w')
  {
  }

  lemma AcceptKeeps(env: Environment, w: World, c: Channel)
    requires LowKeeps(w) && c !in w.connections
    ensures LowKeeps(Do(env, w, Accept(c)))
  {
    hide Granted, Cleared;
    assert c !in w.registry;
    assert !IsEstablished(CONNECTED) && !CONNECTED.replayed;
    var w' := Do(env, w, Accept(c));
    hide Do, IsEstablished;
    AcceptRegistered(w, w', c);
    assert ChannelKeeps(w', c);
    forall d | d != c ensures ChannelKeeps(w', d) {
      assert ChannelKeeps(w, d);
    }
    hide Registered;
  }

  lemma LeaveKeeps(env: Environment, w: World, c: Channel)
    requires LowKeeps(w) && c in w.connections && !w.connections[c].leaving
    ensures LowKeeps(Do(env, w, Leave(c)))
  {
    hide Granted, Cleared;
  }

  lemma FreeKeeps(env: Environment, w: World, c: Channel, announce: bool)
    requires LowKeeps(w) && c in w.connections && w.connections[c].leaving
    ensures LowKeeps(Do(env, w, Free(c, announce)))
  {
    hide Granted, Cleared;
  }

  /** The reader of `c` has become `r`, and its outstanding request is `id`. */
  function WithReader(w: World, c: Channel, r: Reader, id: string): World
    requires c in w.connections && c in w.registry
  {
    w.(connections := w.connections[c := w.connections[c].(reader := r)],
       registry := w.registry[c := w.registry[c].(requestId := id)])
  }

  lemma ReaderRegistered(w: World, c: Channel, r: Reader, id: string)
    requires Registered(w) && c in w.registry
    ensures Registered(WithReader(w, c, r, id))
    ensures forall d :: d in w.registry && d != c ==>
      d in WithReader(w, c, r, id).registry && WithReader(w, c, r, id).registry[d] == w.registry[d]
  {
  }

  /** What `LowKeeps` says of one channel. */
  ghost predicate ChannelKeeps(w: World, c: Channel)
    requires Registered(w)
  {
    && (c in w.registry && w.flags[w.registry[c].flag] ==> Granted(w.sent, c, w.registry[c].requestId))
    && (c in w.registry && !IsEstablished(w.connections[c].reader) ==> w.registry[c].requestId == "")
    && (c in w.connections && w.connections[c].reader.replayed ==> Cleared(w.sent, c))
    && (c in w.registry && w.connections[c].reader.replayed ==> w.flags[w.registry[c].flag])
  }

  lemma ReaderOwn(w: World, c: Channel, r: Reader, id: string)
    requires Registered(w) && ChannelKeeps(w, c) && c in w.registry && Registered(WithReader(w, c, r, id))
    requires var r0 := w.connections[c].reader;
      && (r.replayed ==> Cleared(w.sent, c) && w.flags[w.registry[c].flag])
      && (IsEstablished(r0) ==> IsEstablished(r))
      && (id == w.registry[c].requestId || (!IsEstablished(r0) && IsEstablished(r)))
    ensures ChannelKeeps(WithReader(w, c, r, id), c)
  {
    NoEmptyRequest(w.sent, c);
    hide Cleared, Granted, IsEstablished;
  }

  lemma ReaderOther(w: World, c: Channel, r: Reader, id: string, d: Channel)
    requires Registered(w) && ChannelKeeps(w, d) && c in w.registry && Registered(WithReader(w, c, r, id)) && d != c
    ensures ChannelKeeps(WithReader(w, c, r, id), d)
  {
    hide Cleared, Granted, IsEstablished;
  }

  lemma KeepsByChannel(w: World)
    requires Registered(w) && (forall c :: ChannelKeeps(w, c))
    requires forall m :: m in w.low && m.action.Payload? ==> Cleared(w.sent, m.channel)
    ensures LowKeeps(w)
  {
    hide Cleared, Granted, IsEstablished, Registered;
    forall c | c in w.registry
      ensures w.registry[c].flag < |w.flags| && c in w.connections
      ensures w.flags[w.registry[c].flag] ==> Granted(w.sent, c, w.registry[c].requestId)
      ensures !IsEstablished(w.connections[c].reader) ==> w.registry[c].requestId == ""
      ensures w.connections[c].reader.replayed ==> w.flags[w.registry[c].flag]
    {
      RegisteredAt(w, c);
      assert ChannelKeeps(w, c);
    }
    forall c | c in w.connections && w.connections[c].reader.replayed ensures Cleared(w.sent, c) {
      assert ChannelKeeps(w, c);
    }
  }

  lemma RegisteredAt(w: World, c: Channel)
    requires Registered(w) && c in w.registry
    ensures w.registry[c].flag < |w.flags| && c in w.connections
  {
  }

  lemma KeepsOfChannel(w: World, c: Channel)
    requires LowKeeps(w)
    ensures ChannelKeeps(w, c)
  {
    hide Cleared, Granted, IsEstablished;
  }

  lemma ReaderKeeps(w: World, c: Channel, r: Reader, queued: seq<BridgeMessage>, id: string)
    requires LowKeeps(w) && c in w.registry
    requires var r0 := w.connections[c].reader;
      && (r.replayed ==> Cleared(w.sent, c) && w.flags[w.registry[c].flag])
      && (IsEstablished(r0) ==> IsEstablished(r))
      && (id == w.registry[c].requestId || (!IsEstablished(r0) && IsEstablished(r)))
    requires forall m :: m in queued && m.action.Payload? ==> m.channel == c && Cleared(w.sent, c)
    ensures LowKeeps(Queue(WithReader(w, c, r, id), queued))
  {
    var w1 := WithReader(w, c, r, id);
    ReaderRegistered(w, c, r, id);
    assert forall m :: m in Queue(w1, queued).low && m.action.Payload? ==> Cleared(w.sent, m.channel);
    hide Cleared, Granted, IsEstablished, Registered, ChannelKeeps, LowKeeps, WithReader;
    forall d ensures ChannelKeeps(w1, d) {
      KeepsOfChannel(w, d);
      if d == c {
        ReaderOwn(w, c, r, id);
      } else {
        ReaderOther(w, c, r, id, d);
      }
    }
    QueueKeeps(w1, queued);
  }

  lemma QueueKeeps(w1: World, queued: seq<BridgeMessage>)
    requires Registered(w1) && (forall d :: ChannelKeeps(w1, d))
    requires forall m :: m in Queue(w1, queued).low && m.action.Payload? ==> Cleared(w1.sent, m.channel)
    ensures LowKeeps(Queue(w1, queued))
  {
    var w2 := Queue(w1, queued);
    assert Registered(w2);
    forall d ensures ChannelKeeps(w2, d) {
      assert ChannelKeeps(w1, d);
    }
    hide Cleared, Granted, IsEstablished, Registered, ChannelKeeps, LowKeeps;
    KeepsByChannel(w2);
  }

  lemma NoEmptyRequest(sent: seq<Sent>, c: Channel)
    ensures !Granted(sent, c, "")
  {
  }

  /** The flag a reader looks at being set, its channel is cleared. */
  lemma FlagCleared(w: World, c: Channel)
    requires LowKeeps(w) && c in w.registry && FlagAt(w, w.connections[c].flag)
    ensures Cleared(w.sent, c)
  {
    GrantedCleared(w.sent, c, w.registry[c].requestId);
  }

  lemma BrowserKeeps(env: Environment, w: World, c: Channel, data: string, id: string)
    requires LowKeeps(w) && c in w.registry
    ensures LowKeeps(DoBrowser(env, w, c, data, id))
  {
    var n := w.connections[c];
    var approved := FlagAt(w, n.flag);
    InputFacts(env, c, n.reader, data, approved, id);
    var (r, e) := TakeInput(env, c, n.reader, data, approved, id);
    if approved {
      FlagCleared(w, c);
    }
    assert n.reader.replayed ==> Cleared(w.sent, c) && w.flags[w.registry[c].flag];
    assert approved ==> w.flags[w.registry[c].flag];
    var registered := if !IsEstablished(n.reader) && IsEstablished(r) then id else w.registry[c].requestId;
    assert w.registry[c := w.registry[c].(requestId := w.registry[c].requestId)] == w.registry;
    hide TakeInput, LowKeeps, Cleared, IsEstablished;
    ReaderKeeps(w, c, r, e.queued, registered);
  }

  lemma TickKeeps(w: World, c: Channel)
    requires LowKeeps(w) && c in w.registry
    ensures LowKeeps(DoTick(w, c))
  {
    var n := w.connections[c];
    var approved := FlagAt(w, n.flag);
    TickFacts(c, n.reader, approved);
    var (r, queued) := MaybeReplay(c, n.reader, approved);
    if approved {
      FlagCleared(w, c);
    }
    assert n.reader.replayed ==> Cleared(w.sent, c) && w.flags[w.registry[c].flag];
    assert approved ==> w.flags[w.registry[c].flag];
    assert w.registry[c := w.registry[c].(requestId := w.registry[c].requestId)] == w.registry;
    hide MaybeReplay, LowKeeps, Cleared, IsEstablished;
    ReaderKeeps(w, c, r, queued, w.registry[c].requestId);
  }

  /** An approval that comes back and matches is one the guard granted to the outstanding request. */
  lemma MatchIsGranted(w: World, m: BridgeMessage)
    requires Honest(w) && AllAnswer(w.sent) && HighKeeps(w.high, w.sent)
    requires m in w.high.returned && Approving(m)
    ensures Granted(w.sent, m.channel, RequestOf(m))
  {
    assert WasSent(w.sent, m);
    var k :| 0 <= k < |w.sent| && w.sent[k].message == m;
    assert Answers(w.sent, k);
    var id := w.sent[k - 1].message.payload;
    assert m.payload == [APPROVAL_APPROVE] + id;
    assert RequestOf(m) == id;
    assert w.sent[k] == Issued(Verdict(m.channel, true, id));
  }

  lemma ReturnKeeps(w: World, m: BridgeMessage)
    requires LowKeeps(w) && (Approving(m) ==> Granted(w.sent, m.channel, RequestOf(m)))
    ensures LowKeeps(DoReturn(w, m))
  {
    hide Granted, Cleared, RequestOf;
  }

  lemma DoLowKeeps(env: Environment, w: World, a: Move)
    requires Honest(w) && GuardKeeps(w) && HighKeeps(w.high, w.sent) && LowKeeps(w) && Enabled(true, w, a)
    ensures LowKeeps(Do(env, w, a))
  {
    match a {
      case Accept(c) => hide LowKeeps; AcceptKeeps(env, w, c);
      case Browser(c, data, id) => hide Granted, Cleared, DoBrowser; BrowserKeeps(env, w, c, data, id);
      case IdleTick(c) => hide Granted, Cleared, DoTick; TickKeeps(w, c);
      case Leave(c) => hide LowKeeps; LeaveKeeps(env, w, c);
      case Free(c, announce) => hide LowKeeps; FreeKeeps(env, w, c, announce);
      case ReturnArrives(m) =>
        hide LowKeeps, Honest, HighKeeps, AllAnswer, Gated, Passed, DoReturn, Granted;
        if Approving(m) {
          MatchIsGranted(w, m);
        }
        ReturnKeeps(w, m);
      case GuardReceives(m) =>
        hide LowKeeps, Handle;
        var (g, more) := Handle(w.guard, m);
        LowMoreSent(w, more);
        ElsewhereKeeps(w.(sent := w.sent + more), g, w.high);
      case GuardOther(e) =>
        hide LowKeeps, GuardStep, Possible;
        var (g, more) := GuardStep(w.guard, e);
        LowMoreSent(w, more);
        ElsewhereKeeps(w.(sent := w.sent + more), g, w.high);
      case _ =>
        hide LowKeeps, Relay;
        ElsewhereKeeps(w, w.guard, Do(env, w, a).high);
    }
  }

  lemma {:induction false} RunLow(env: Environment, moves: seq<Move>)
    ensures var w := Run(env, true, moves);
      Honest(w) && GuardKeeps(w) && HighKeeps(w.high, w.sent) && LowKeeps(w)
  {
    if moves != [] {
      RunLow(env, moves[..|moves| - 1]);
      var w, a := Run(env, true, moves[..|moves| - 1]), moves[|moves| - 1];
      if Enabled(true, w, a) {
        hide GuardKeeps, HighKeeps, Honest, LowKeeps, Do;
        DoGuardKeeps(env, w, a);
        DoHighKeeps(env, w, a);
        DoHonest(env, w, a);
        DoLowKeeps(env, w, a);
      }
    }
  }

  // ---- The registry of the world is the registry of the code

  /** What the registry says of each channel, flags looked up. */
  function Registry(w: World): map<Channel, Standing> {
    map c | c in w.registry :: Standing(FlagAt(w, w.registry[c].flag), w.registry[c].requestId)
  }

  /** What the registry is after a move, by the registry's own operations and the handler's own routing. */
  function RegistryAfter(env: Environment, w: World, a: Move): map<Channel, Standing>
    requires Enabled(false, w, a)
  {
    match a
    case Accept(c) => Registry(w)[c := Standing(false, "")]
    case Browser(c, data, id) =>
      var n := w.connections[c];
      if !IsEstablished(n.reader) && IsEstablished(TakeInput(env, c, n.reader, data, FlagAt(w, n.flag), id).0)
      then Requested(Registry(w), c, id) else Registry(w)
    case Leave(c) => Registry(w) - {c}
    case ReturnArrives(m) => Route(ReturnPath(Registry(w), map[], map[]), m).standings
    case _ => Registry(w)
  }

  /** A verdict sets the flag of the registration it grants, and no other. */
  lemma ReturnAt(w: World, m: BridgeMessage, p: ReturnPath, c: Channel)
    requires Registered(w) && p.standings == Registry(w)
    ensures c in Registry(DoReturn(w, m)) <==> c in Registry(w)
    ensures c in Registry(w) ==>
      Registry(DoReturn(w, m))[c] == Standing(Registry(w)[c].approved || Grants(p, m, c), Registry(w)[c].requestId)
  {
    GrantsMeans(p, m, c);
    hide Grants, VerdictOf, RequestOf;
  }

  lemma ReturnRegistry(w: World, m: BridgeMessage, filters: map<Channel, Live<ReturnState>>, boxes: map<Channel, M.Mailbox>)
    requires Registered(w)
    ensures Registry(DoReturn(w, m)) == Route(ReturnPath(Registry(w), filters, boxes), m).standings
  {
    var p := ReturnPath(Registry(w), filters, boxes);
    var x, y := Registry(DoReturn(w, m)), Route(p, m).standings;
    hide Registry, DoReturn, Route, Registered, Grants;
    forall c ensures c in x <==> c in y
      ensures c in x ==> x[c] == y[c]
    {
      ReturnAt(w, m, p, c);
      OnlyGrantsApprove(p, m, c);
    }
  }

  lemma AcceptRegistry(env: Environment, w: World, c: Channel)
    requires Registered(w) && c !in w.connections
    ensures Registry(Do(env, w, Accept(c))) == Registry(w)[c := Standing(false, "")]
  {
  }

  lemma BrowserRegistry(env: Environment, w: World, c: Channel, data: string, id: string)
    requires c in w.connections
    ensures Registry(DoBrowser(env, w, c, data, id)) ==
      var n := w.connections[c];
      if !IsEstablished(n.reader) && IsEstablished(TakeInput(env, c, n.reader, data, FlagAt(w, n.flag), id).0)
      then Requested(Registry(w), c, id) else Registry(w)
  {
    hide TakeInput, IsEstablished;
  }

  lemma SameRegistry(w: World, w': World)
    requires w'.registry == w.registry && w'.flags == w.flags
    ensures Registry(w') == Registry(w)
  {
  }

  lemma MoveRegistry(env: Environment, w: World, a: Move)
    requires Registered(w) && Enabled(false, w, a)
    ensures Registry(Do(env, w, a)) == RegistryAfter(env, w, a)
  {
    match a {
      case Accept(c) => hide Do, Registry; AcceptRegistry(env, w, c);
      case ReturnArrives(m) => hide DoReturn, Route, Registry; ReturnRegistry(w, m, map[], map[]);
      case Browser(c, data, id) => hide TakeInput, DoBrowser, Registry, IsEstablished; BrowserRegistry(env, w, c, data, id);
      case Leave(c) => hide Registered;
      case _ =>
        hide Handle, GuardStep, Relay, Possible, MaybeReplay, Registry, Registered;
        SameRegistry(w, Do(env, w, a));
    }
  }

  /** In every run with an honest low side, each move does to the registry what the code's operations do to theirs. */
  lemma {:induction false} RegistryFollows(env: Environment, moves: seq<Move>, a: Move)
    requires Enabled(true, Run(env, true, moves), a)
    ensures Registry(Run(env, true, moves + [a])) == RegistryAfter(env, Run(env, true, moves), a)
  {
    RunLow(env, moves);
    RunMore(env, true, moves, a);
    hide Run, Honest, GuardKeeps, HighKeeps, Registered, Do, RegistryAfter, Registry;
    MoveRegistry(env, Run(env, true, moves), a);
  }

  // ---- An approval that comes back stands for a connection to guacd

  /** The delivery binds the channel: an approval on an unbound channel, whose dial succeeds. */
  predicate DialsFor(w: World, a: Move, c: Channel, id: string) {
    && a.HighReceives? && a.k < |w.sent|
    && w.sent[a.k].message == BridgeMessage(c, Approval, "A" + id)
    && c !in w.high.dialed && a.sockets.dial >= 0
  }

  /** Some move of the run did. */
  ghost predicate Dialed(env: Environment, moves: seq<Move>, c: Channel, id: string) {
    exists k :: 0 <= k < |moves| && DialsFor(Run(env, true, moves[..k]), moves[k], c, id)
  }

  /**
   * Every verdict that reaches gcdbroker goes back as exactly one message, on the same
   * channel and with the same request id, and as an approval if and only if it was one
   * and has bound the channel just now.
   */
  lemma VerdictGoesBack(h: High, m: BridgeMessage, s: Sockets)
    requires m.action.Approval?
    ensures var h' := Relay(h, m, s);
      var binds := m.payload != "" && m.payload[0] == 'A' && s.dial >= 0 && m.channel !in h.dialed;
      && |h'.returned| == |h.returned| + 1 && h'.returned[..|h.returned|] == h.returned
      && (binds <==> m.channel !in h.dialed && m.channel in h'.dialed)
      && (binds ==> h'.dialed == h.dialed[m.channel := s.dial]) && (!binds ==> h'.dialed == h.dialed)
      && h'.toGuacd == h.toGuacd && h'.shut == h.shut
      && var back := h'.returned[|h.returned|];
         && back.channel == m.channel && back.action.Approval? && |back.payload| == |m.payload|
         && (m.payload != "" ==> back.payload[1..] == m.payload[1..])
         && (back.payload != "" && back.payload[0] == 'A' <==> binds)
         && (m.payload != "" && m.payload[0] != 'A' ==> back == m)
  {
  }

  /** A SHUTDOWN goes back too, and whatever connection the channel had is shut down. */
  lemma TeardownGoesBack(h: High, c: Channel, payload: string, s: Sockets)
    ensures var h' := Relay(h, BridgeMessage(c, ShutdownChannel, payload), s);
      && h'.returned == h.returned + [BridgeMessage(c, ShutdownChannel, "")] && h'.dialed == h.dialed - {c}
      && h'.shut == (if c in h.dialed then h.shut + [h.dialed[c]] else h.shut) && h'.toGuacd == h.toGuacd
  {
  }

  /** Every approval on its way back stands for a channel that was dialed for it. */
  ghost predicate ReturnsDialed(env: Environment, moves: seq<Move>, h: High) {
    forall c: Channel, id :: BridgeMessage(c, Approval, "A" + id) in h.returned ==> Dialed(env, moves, c, id)
  }

  lemma DialedLater(env: Environment, moves: seq<Move>, a: Move, c: Channel, id: string)
    ensures Dialed(env, moves, c, id) ==> Dialed(env, moves + [a], c, id)
    ensures DialsFor(Run(env, true, moves), a, c, id) ==> Dialed(env, moves + [a], c, id)
  {
    var more := moves + [a];
    hide Run, DialsFor;
    assert more[..|moves|] == moves && more[|moves|] == a;
    if Dialed(env, moves, c, id) {
      var k :| 0 <= k < |moves| && DialsFor(Run(env, true, moves[..k]), moves[k], c, id);
      assert more[..k] == moves[..k] && more[k] == moves[k];
    }
  }

  /** What a move puts on the return path as an approval. */
  lemma MoveReturns(env: Environment, w: World, a: Move, c: Channel, id: string)
    requires Enabled(true, w, a)
    ensures BridgeMessage(c, Approval, "A" + id) in Do(env, w, a).high.returned ==>
      BridgeMessage(c, Approval, "A" + id) in w.high.returned || DialsFor(w, a, c, id)
  {
    match a {
      case HighReceives(k, sockets) => RelayReturns(w.high, w.sent[k].message, sockets, c, id);
      case SyncAck(d, payload, sockets) => hide Handle;
      case _ => hide Handle, GuardStep, TakeInput, MaybeReplay, Possible;
    }
  }

  lemma RelayReturns(h: High, m: BridgeMessage, s: Sockets, c: Channel, id: string)
    ensures BridgeMessage(c, Approval, "A" + id) in Relay(h, m, s).returned ==>
      || BridgeMessage(c, Approval, "A" + id) in h.returned
      || (m == BridgeMessage(c, Approval, "A" + id) && c !in h.dialed && s.dial >= 0)
  {
    var x := BridgeMessage(c, Approval, "A" + id);
    if m.action.Approval? {
      VerdictGoesBack(h, m, s);
      var h' := Relay(h, m, s);
      var back := h'.returned[|h.returned|];
      assert h'.returned == h.returned + [back];
      assert x.payload[0] == 'A';
      hide Relay;
      if back == x {
        assert m.payload == [m.payload[0]] + m.payload[1..];
        assert back.payload == [back.payload[0]] + back.payload[1..];
      }
    }
  }

  lemma {:induction false} RunReturns(env: Environment, moves: seq<Move>)
    ensures ReturnsDialed(env, moves, Run(env, true, moves).high)
  {
    if moves != [] {
      var init, a := moves[..|moves| - 1], moves[|moves| - 1];
      var w := Run(env, true, init);
      assert init + [a] == moves;
      RunReturns(env, init);
      RunMore(env, true, init, a);
      hide Run, Do, Enabled, Dialed, DialsFor;
      forall c: Channel, id | BridgeMessage(c, Approval, "A" + id) in Run(env, true, moves).high.returned
        ensures Dialed(env, moves, c, id)
      {
        DialedLater(env, init, a, c, id);
        if Enabled(true, w, a) {
          MoveReturns(env, w, a, c, id);
        }
      }
    }
  }

  /** Before its handshake is complete a connection is not approved. */
  lemma UnrequestedUnapproved(w: World, c: Channel)
    requires LowKeeps(w)
    ensures c in w.connections && c in Registry(w) && !IsEstablished(w.connections[c].reader) ==> !Registry(w)[c].approved
  {
    NoEmptyRequest(w.sent, c);
    hide Granted, Cleared, IsEstablished;
  }

  lemma GrantBytes(p: ReturnPath, m: BridgeMessage, c: Channel)
    requires Grants(p, m, c)
    ensures c in p.standings && m == BridgeMessage(c, Approval, "A" + p.standings[c].requestId)
  {
  }

  /** A registration `s` of `c` that is approved was already in `r`, or a returned approval names its request. */
  ghost predicate Explained(r: map<Channel, Standing>, returned: seq<BridgeMessage>, c: Channel, s: Standing) {
    s.approved ==>
      (c in r && r[c].approved && r[c].requestId == s.requestId) || BridgeMessage(c, Approval, "A" + s.requestId) in returned
  }

  lemma ReturnExplained(r: map<Channel, Standing>, returned: seq<BridgeMessage>, m: BridgeMessage, c: Channel)
    requires m in returned
    ensures var q := Route(ReturnPath(r, map[], map[]), m).standings; c in q ==> Explained(r, returned, c, q[c])
  {
    var p := ReturnPath(r, map[], map[]);
    OnlyGrantsApprove(p, m, c);
    hide Route, Grants;
    if Grants(p, m, c) {
      GrantBytes(p, m, c);
    }
  }

  lemma RequestExplained(r: map<Channel, Standing>, returned: seq<BridgeMessage>, d: Channel, id: string, c: Channel)
    requires d in r ==> !r[d].approved
    ensures var q := Requested(r, d, id); c in q ==> Explained(r, returned, c, q[c])
  {
  }

  lemma SameExplained(r: map<Channel, Standing>, returned: seq<BridgeMessage>, c: Channel)
    ensures c in r ==> Explained(r, returned, c, r[c])
    ensures Explained(r, returned, c, Standing(false, ""))
  {
  }

  lemma MoveApproves(env: Environment, w: World, a: Move, c: Channel)
    requires LowKeeps(w) && Enabled(true, w, a)
    ensures var q := Registry(Do(env, w, a)); c in q ==> Explained(Registry(w), w.high.returned, c, q[c])
  {
    assert Registered(w);
    hide LowKeeps, Do, Registered, Registry, Explained;
    MoveRegistry(env, w, a);
    SameExplained(Registry(w), w.high.returned, c);
    match a {
      case ReturnArrives(m) => hide Route; ReturnExplained(Registry(w), w.high.returned, m, c);
      case Browser(d, data, sent) =>
        hide TakeInput, IsEstablished, Requested;
        UnrequestedUnapproved(w, d);
        if !IsEstablished(w.connections[d].reader) {
          RegisteredHere(w, d);
          RequestExplained(Registry(w), w.high.returned, d, sent, c);
        }
      case _ =>
    }
  }

  lemma RegisteredHere(w: World, c: Channel)
    requires LowKeeps(w) && c in w.connections && !w.connections[c].leaving
    ensures c in Registry(w)
  {
    hide Granted, Cleared, IsEstablished;
  }

  ghost predicate RegistryDialed(env: Environment, moves: seq<Move>, w: World) {
    forall c :: c in Registry(w) && Registry(w)[c].approved ==> Dialed(env, moves, c, Registry(w)[c].requestId)
  }

  /**
   * With an honest low side, a registration is approved only if gcdbroker has dialed
   * guacd on its channel for its own request: an approval whose dial failed, or that
   * found the channel bound, approves nobody.
   */
  lemma {:induction false} ApprovedMeansDialed(env: Environment, moves: seq<Move>)
    ensures RegistryDialed(env, moves, Run(env, true, moves))
  {
    if moves != [] {
      var init, a := moves[..|moves| - 1], moves[|moves| - 1];
      var w, w' := Run(env, true, init), Run(env, true, moves);
      assert init + [a] == moves;
      ApprovedMeansDialed(env, init);
      RunLow(env, init);
      RunReturns(env, init);
      RunMore(env, true, init, a);
      hide Run, Do, Enabled, Dialed, DialsFor, LowKeeps, Honest, GuardKeeps, HighKeeps, Registry;
      forall c | c in Registry(w') && Registry(w')[c].approved ensures Dialed(env, moves, c, Registry(w')[c].requestId) {
        DialedLater(env, init, a, c, Registry(w')[c].requestId);
        if Enabled(true, w, a) {
          MoveApproves(env, w, a, c);
          assert Explained(Registry(w), w.high.returned, c, Registry(w')[c]);
        }
      }
    }
  }

  /**
   * With an honest low side: a reader sees its flag set only if the guard issued an
   * approval that carries the request id outstanding on its registration, and
   * payload is queued for the bridge only on a channel the guard has approved.
   */
  lemma {:induction false} ApprovedMeansGranted(env: Environment, moves: seq<Move>)
    ensures var w := Run(env, true, moves);
      && (forall c :: c in w.connections && !w.connections[c].leaving && FlagAt(w, w.connections[c].flag) ==>
            c in Registry(w) && Registry(w)[c].approved && Granted(w.sent, c, Registry(w)[c].requestId))
      && (forall m :: m in w.low && m.action.Payload? ==> Cleared(w.sent, m.channel))
  {
    RunLow(env, moves);
    hide Run, Granted, Cleared, GuardKeeps, HighKeeps, Honest;
  }

  /** The payload that a move of the reader of `c` queues. */
  predicate QueuesPayload(env: Environment, w: World, a: Move, m: BridgeMessage) {
    m.action.Payload? &&
    match a
    case Browser(c, data, id) =>
      c in w.connections &&
      m in TakeInput(env, c, w.connections[c].reader, data, FlagAt(w, w.connections[c].flag), id).1.queued
    case IdleTick(c) =>
      c in w.connections && m in MaybeReplay(c, w.connections[c].reader, FlagAt(w, w.connections[c].flag)).1
    case _ => false
  }

  /**
   * With an honest low side, every payload a connection ever queues is queued while
   * its own flag is set and the guard has issued an approval that carries the
   * connection's own request id.
   */
  lemma {:induction false} QueuedPayloadIsGranted(env: Environment, moves: seq<Move>, a: Move, m: BridgeMessage)
    requires Enabled(true, Run(env, true, moves), a) && QueuesPayload(env, Run(env, true, moves), a, m)
    ensures var w, c := Run(env, true, moves), m.channel;
      && c in w.connections && c in w.registry && w.registry[c].flag == w.connections[c].flag
      && FlagAt(w, w.connections[c].flag) && Granted(w.sent, c, w.registry[c].requestId)
  {
    RunLow(env, moves);
    var w := Run(env, true, moves);
    hide Run, Granted, Cleared, GuardKeeps, HighKeeps, Honest;
    match a {
      case Browser(c, data, id) =>
        InputFacts(env, c, w.connections[c].reader, data, FlagAt(w, w.connections[c].flag), id);
        hide TakeInput;
      case IdleTick(c) =>
        TickFacts(c, w.connections[c].reader, FlagAt(w, w.connections[c].flag));
        hide MaybeReplay;
      case _ =>
    }
  }

  /** Nothing else puts payload on the low side's way to the guard. */
  lemma {:induction false} OnlyReadersQueuePayload(env: Environment, w: World, a: Move, m: BridgeMessage)
    requires Enabled(false, w, a) && m.action.Payload? && m !in w.low && m in Do(env, w, a).low
    ensures QueuesPayload(env, w, a, m)
  {
    hide TakeInput, MaybeReplay, Handle, GuardStep, Relay, Possible;
  }

  lemma DoSentGrows(env: Environment, w: World, a: Move)
    requires Enabled(false, w, a)
    ensures w.sent <= Do(env, w, a).sent
  {
    hide Handle, GuardStep, Relay, TakeInput, MaybeReplay, Possible, Sendable;
  }

  lemma {:induction false} RunSentGrows(env: Environment, honest: bool, before: seq<Move>, after: seq<Move>)
    ensures Run(env, honest, before).sent <= Run(env, honest, before + after).sent
  {
    if after == [] {
      assert before + after == before;
    } else {
      var init, a := after[..|after| - 1], after[|after| - 1];
      RunSentGrows(env, honest, before, init);
      assert before + after == before + init + [a];
      RunMore(env, honest, before + init, a);
      var w := Run(env, honest, before + init);
      hide Do, Run;
      if Enabled(honest, w, a) {
        DoSentGrows(env, w, a);
      }
    }
  }

  lemma RunMore(env: Environment, honest: bool, moves: seq<Move>, a: Move)
    ensures Run(env, honest, moves + [a]) == var w := Run(env, honest, moves); if Enabled(honest, w, a) then Do(env, w, a) else w
  {
    assert (moves + [a])[..|moves|] == moves;
    hide Do, Enabled;
  }

  /** Every approval the guard has granted answers a request gmlbroker has sent. */
  lemma GrantsAnswerRequests(w: World, c: Channel, id: string, j: nat)
    requires Honest(w) && AllAnswer(w.sent) && j < |w.sent| && w.sent[j] == Issued(Verdict(c, true, id))
    ensures BridgeMessage(c, CreateChannel, id) in w.low
  {
    assert Answers(w.sent, j);
    assert w.sent[j].message.payload[1..] == id;
    assert w.sent[j - 1].message.payload == ([APPROVAL_APPROVE] + w.sent[j - 1].message.payload)[1..];
    assert w.sent[j - 1].message == BridgeMessage(c, CreateChannel, id);
  }

  /**
   * A stale approval cannot approve a reused channel: if the request id was not yet
   * in use on the channel after `before`, then a connection that later holds that
   * request and sees its flag set owes it to an approval issued since.
   */
  lemma {:induction false} NoStaleApproval(env: Environment, before: seq<Move>, after: seq<Move>, c: Channel, id: string)
    requires BridgeMessage(c, CreateChannel, id) !in Run(env, true, before).low
    requires var w := Run(env, true, before + after);
      c in Registry(w) && Registry(w)[c] == Standing(true, id)
    ensures var w0, w := Run(env, true, before), Run(env, true, before + after);
      exists j :: |w0.sent| <= j < |w.sent| && w.sent[j] == Issued(Verdict(c, true, id))
  {
    RunLow(env, before);
    RunLow(env, before + after);
    RunSentGrows(env, true, before, after);
    var w0, w := Run(env, true, before), Run(env, true, before + after);
    assert Granted(w.sent, c, id);
    var j :| 0 <= j < |w.sent| && w.sent[j] == Issued(Verdict(c, true, id));
    hide Run, Honest, AllAnswer, Gated, Passed, HighKeeps, LowKeeps;
    if j < |w0.sent| {
      GrantsAnswerRequests(w0, c, id, j);
    }
  }
}
