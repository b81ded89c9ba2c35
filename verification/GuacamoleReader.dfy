/**
 * gmlbroker's reader of one browser connection: it forges the handshake, asks
 * for approval with an inert request id, and lets the browser's bytes cross the
 * bridge only once the approved flag is set: first the kept handshake, then what
 * the keepalive filter leaves of the input.
 */
module GuacamoleReaderModule {
  import opened Framing
  import opened Chunking
  import opened MultiplexerModule
  import opened ApprovalRegistryModule
  import opened HandshakeForgerModule
  import opened KeepaliveFilterModule
  import opened ClipboardAckFakerModule
  import opened GuardPolicyModule
  import opened Instructions

  datatype Reader = Reader(
    forger: Live<ForgerState>,
    handshake: string,
    filter: Live<Stateless>,
    faker: Live<AckState>,
    replayed: bool)

  const CONNECTED := Reader(Fresh(UNSTARTED), "", Fresh(Stateless), Fresh(NO_CLIPBOARD), false)

  predicate IsEstablished(r: Reader) { r.forger.policy.hs.Established? }

  /** What one round does besides changing the reader. */
  datatype Effects = Effects(
    queued: seq<BridgeMessage>,   // for the bridge
    acks: string,                 // faked acknowledgements, for the browser
    reply: string,                // the forger's reply, for the browser
    closing: bool)

  const NOTHING := Effects([], "", "", false)

  /** The handshake in payloads of at most the datagram limit. */
  function Replay(c: Channel, s: string): seq<BridgeMessage> {
    if s == "" then []
    else if |s| <= MAX_PAYLOAD_SIZE then [BridgeMessage(c, Payload, s)]
    else [BridgeMessage(c, Payload, s[..MAX_PAYLOAD_SIZE])] + Replay(c, s[MAX_PAYLOAD_SIZE..])
  }

  method ReplayHandshake(c: Channel, handshake: string) returns (queued: seq<BridgeMessage>)
    ensures queued == Replay(c, handshake)
  {
    queued := [];
    var off := 0;
    assert handshake[0..] == handshake;
    while off < |handshake|
      invariant 0 <= off <= |handshake|
      invariant queued + Replay(c, handshake[off..]) == Replay(c, handshake)
    {
      var end := if |handshake| - off <= MAX_PAYLOAD_SIZE then |handshake| else off + MAX_PAYLOAD_SIZE;
      var message := BridgeMessage(c, Payload, handshake[off..end]);
      ReplayNext(c, handshake, off, end);
      assert queued + ([message] + Replay(c, handshake[end..])) == queued + [message] + Replay(c, handshake[end..]);
      queued := queued + [message];
      off := end;
    }
  }

  lemma ReplayNext(c: Channel, s: string, off: nat, end: nat)
    requires off < end <= |s|
    requires end == if |s| - off <= MAX_PAYLOAD_SIZE then |s| else off + MAX_PAYLOAD_SIZE
    ensures Replay(c, s[off..]) == [BridgeMessage(c, Payload, s[off..end])] + Replay(c, s[end..])
  {
    var t := s[off..];
    if |t| <= MAX_PAYLOAD_SIZE {
      assert s[off..end] == t && s[end..] == "";
    } else {
      assert s[off..end] == t[..MAX_PAYLOAD_SIZE] && s[end..] == t[MAX_PAYLOAD_SIZE..];
    }
  }

  function PayloadText(queued: seq<BridgeMessage>): string {
    if queued == [] then "" else
    (if queued[0].action.Payload? then queued[0].payload else "") + PayloadText(queued[1..])
  }

  /** The replayed datagrams carry the handshake verbatim, and every one of them survives the wire. */
  lemma {:induction false} ReplayCarriesHandshake(c: Channel, s: string)
    requires Octets(s)
    ensures PayloadText(Replay(c, s)) == s
    ensures forall k :: 0 <= k < |Replay(c, s)| ==>
      Sendable(Replay(c, s)[k]) && Replay(c, s)[k].channel == c && Replay(c, s)[k].payload != ""
    ensures forall k :: 0 <= k < |Replay(c, s)| - 1 ==> |Replay(c, s)[k].payload| == 1200
  {
    if |s| > MAX_PAYLOAD_SIZE {
      ReplayCarriesHandshake(c, s[MAX_PAYLOAD_SIZE..]);
      assert s == s[..MAX_PAYLOAD_SIZE] + s[MAX_PAYLOAD_SIZE..];
    } else if s != "" {
      assert Replay(c, s)[1..] == [];
      assert s + "" == s;
    }
  }

  /** The kept handshake crosses once, as soon as the flag is seen set. */
  function MaybeReplay(c: Channel, r: Reader, approved: bool): (Reader, seq<BridgeMessage>) {
    if !r.replayed && IsEstablished(r) && approved
    then (r.(replayed := true), Replay(c, r.handshake))
    else (r, [])
  }

  /** Browser bytes before the handshake is complete. */
  function Forge(env: Environment, c: Channel, r: Reader, data: string, id: string): (Reader, Effects) {
    var (l, out) := ForgerFeed(env, r.forger, data);
    var r' := r.(forger := l, handshake := r.handshake + data);
    if l.policy.hs.InvalidHandshake? then (r', Effects([], "", out, true))
    else if l.policy.hs.Established? then (r', Effects([BridgeMessage(c, CreateChannel, id)], "", out, false))
    else (r', Effects([], "", out, false))
  }

  /** Browser bytes of an approved connection. */
  function Pipe(c: Channel, r: Reader, data: string): (Reader, Effects) {
    var (faker, acks) := AckFeed(r.faker, data);
    var (filter, out) := FilterChunk(r.filter, data);
    (r.(faker := faker, filter := filter),
     Effects(if out == "" then [] else [BridgeMessage(c, Payload, out)], acks, "", false))
  }

  function TakeInput(env: Environment, c: Channel, r: Reader, data: string, approved: bool, id: string): (Reader, Effects) {
    if !IsEstablished(r) then Forge(env, c, r, data, id) else
    var (r1, replay) := MaybeReplay(c, r, approved);
    if !r1.replayed then (r1, NOTHING) else
    var (r2, e) := Pipe(c, r1, data);
    (r2, e.(queued := replay + e.queued))
  }

  class GuacamoleReader {
    const channel: Channel
    const env: Environment
    const approvals: ApprovalRegistry
    const approved: Flag
    var reader: Reader
    var queue: seq<BridgeMessage>
    var recvQueue: seq<BridgeMessage>
    var toBrowser: seq<string>

    constructor (channel: Channel, env: Environment, approvals: ApprovalRegistry, approved: Flag)
      ensures this.channel == channel && this.env == env && this.approvals == approvals && this.approved == approved
      ensures reader == CONNECTED && queue == [] && recvQueue == [] && toBrowser == []
    {
      this.channel, this.env, this.approvals, this.approved := channel, env, approvals, approved;
      reader, queue, recvQueue, toBrowser := CONNECTED, [], [], [];
    }

    method TryReplay()
      modifies this`reader, this`queue
      ensures (reader, queue) == var (r, replay) := MaybeReplay(channel, old(reader), approved.value); (r, old(queue) + replay)
    {
      if !reader.replayed && reader.forger.policy.hs.Established? && approved.value {
        var replay := ReplayHandshake(channel, reader.handshake);
        queue := queue + replay;
        reader := reader.(replayed := true);
      } else {
        assert queue + [] == queue;
      }
    }

    /** A received chunk; `id` is the request id that is minted if this chunk completes the handshake. */
    method Receive(data: string, id: string) returns (closing: bool)
      requires approvals.Valid()
      modifies this`reader, this`queue, this`recvQueue, this`toBrowser, approvals
      ensures approvals.Valid()
      ensures var (r, e) := TakeInput(env, channel, old(reader), data, approved.value, id);
        && reader == r && queue == old(queue) + e.queued && closing == e.closing
        && recvQueue == old(recvQueue) + (if e.acks == "" then [] else [BridgeMessage(channel, Payload, e.acks)])
        && toBrowser == old(toBrowser) + (if e.reply == "" then [] else [e.reply])
        && approvals.Standings() ==
             if !IsEstablished(old(reader)) && IsEstablished(r) then Requested(old(approvals.Standings()), channel, id)
             else old(approvals.Standings())
    {
      closing := false;
      assert recvQueue + [] == recvQueue && toBrowser + [] == toBrowser && queue + [] == queue;
      if !IsEstablished(reader) {
        closing := AnswerHandshake(data, id);
        return;
      }
      TryReplay();
      if reader.replayed {
        Forward(data);
      }
    }

    method AnswerHandshake(data: string, id: string) returns (closing: bool)
      requires approvals.Valid() && !IsEstablished(reader)
      modifies this`reader, this`queue, this`toBrowser, approvals
      ensures approvals.Valid()
      ensures var (r, e) := Forge(env, channel, old(reader), data, id);
        && reader == r && queue == old(queue) + e.queued && closing == e.closing
        && toBrowser == old(toBrowser) + (if e.reply == "" then [] else [e.reply])
        && approvals.Standings() ==
             if IsEstablished(r) then Requested(old(approvals.Standings()), channel, id) else old(approvals.Standings())
    {
      hide ForgerFeed, Requested;
      closing := false;
      assert queue + [] == queue;
      ghost var standings := approvals.Standings();
      var (l, out) := ForgerFeed(env, reader.forger, data);
      reader := reader.(forger := l, handshake := reader.handshake + data);
      toBrowser := toBrowser + if out == "" then [] else [out];
      assert approvals.Standings() == standings;
      if l.policy.hs.InvalidHandshake? {
        closing := true;
      } else if l.policy.hs.Established? {
        AskApproval(id);
      }
    }

    method AskApproval(id: string)
      requires approvals.Valid()
      modifies this`queue, approvals
      ensures approvals.Valid() && approvals.Standings() == Requested(old(approvals.Standings()), channel, id)
      ensures queue == old(queue) + [BridgeMessage(channel, CreateChannel, id)]
    {
      approvals.SetRequestId(channel, id);
      queue := queue + [BridgeMessage(channel, CreateChannel, id)];
    }

    method Forward(data: string)
      modifies this`reader, this`queue, this`recvQueue
      ensures var (r, e) := Pipe(channel, old(reader), data);
        && reader == r && queue == old(queue) + e.queued
        && recvQueue == old(recvQueue) + (if e.acks == "" then [] else [BridgeMessage(channel, Payload, e.acks)])
    {
      hide AckFeed, FilterChunk;
      var (faker, acks) := AckFeed(reader.faker, data);
      if acks != "" {
        recvQueue := recvQueue + [BridgeMessage(channel, Payload, acks)];
      }
      var (filter, out) := FilterChunk(reader.filter, data);
      if out != "" {
        queue := queue + [BridgeMessage(channel, Payload, out)];
      }
      reader := reader.(faker := faker, filter := filter);
    }
  }

  // ---- Whole connections

  /** A chunk from the browser or an idle timeout, with what the flag read at that moment. */
  datatype ReaderEvent = Received(data: string, approved: bool, id: string) | TimedOut(approved: bool)

  function ReaderStep(env: Environment, c: Channel, r: Reader, e: ReaderEvent): (Reader, seq<BridgeMessage>) {
    match e
    case Received(data, approved, id) => var (r', effects) := TakeInput(env, c, r, data, approved, id); (r', effects.queued)
    case TimedOut(approved) => MaybeReplay(c, r, approved)
  }

  /** The reader after some events, and all it has queued for the bridge. */
  function RunReader(env: Environment, c: Channel, events: seq<ReaderEvent>): (Reader, seq<BridgeMessage>) {
    if events == [] then (CONNECTED, []) else
    var (r, q) := RunReader(env, c, events[..|events| - 1]);
    var (r', more) := ReaderStep(env, c, r, events[|events| - 1]);
    (r', q + more)
  }

  /**
   * What became of the browser's chunks: part of the handshake, dropped between the
   * complete handshake and the replay, or piped; and the ids minted.
   */
  datatype History = History(handshake: seq<string>, ids: seq<string>, dropped: seq<string>, piped: seq<string>)

  function Noted(h: History, r: Reader, r': Reader, e: ReaderEvent): History {
    if e.TimedOut? then h
    else if !IsEstablished(r) then
      h.(handshake := h.handshake + [e.data], ids := if IsEstablished(r') then h.ids + [e.id] else h.ids)
    else if r'.replayed then h.(piped := h.piped + [e.data])
    else h.(dropped := h.dropped + [e.data])
  }

  function HistoryOf(env: Environment, c: Channel, events: seq<ReaderEvent>): History {
    if events == [] then History([], [], [], []) else
    var init := events[..|events| - 1];
    Noted(HistoryOf(env, c, init), RunReader(env, c, init).0, RunReader(env, c, events).0, events[|events| - 1])
  }

  /** The browser's chunks, in the order in which they came. */
  function Browsed(events: seq<ReaderEvent>): seq<string> {
    if events == [] then [] else
    Browsed(events[..|events| - 1]) + if events[|events| - 1].Received? then [events[|events| - 1].data] else []
  }

  /** One message per chunk that is not empty. */
  function Messages(c: Channel, chunks: seq<string>): seq<BridgeMessage> {
    if chunks == [] then [] else
    Messages(c, chunks[..|chunks| - 1]) +
    if chunks[|chunks| - 1] == "" then [] else [BridgeMessage(c, Payload, chunks[|chunks| - 1])]
  }

  /** The reader and its queue, in terms of that history. */
  ghost predicate Accounted(env: Environment, c: Channel, r: Reader, q: seq<BridgeMessage>, h: History) {
    && r.handshake == Concat(h.handshake) && r.forger == ForgerChunks(env, h.handshake).live
    && (if IsEstablished(r) then |h.ids| == 1 else h.ids == [] && h.dropped == [] && !r.replayed)
    && (!r.replayed ==> h.piped == [])
    && r.filter == FilterChunks(Fresh(Stateless), h.piped).live
    && q ==
         (if h.ids == [] then [] else [BridgeMessage(c, CreateChannel, h.ids[0])]) +
         (if !r.replayed then []
          else Replay(c, r.handshake) + Messages(c, FilterChunks(Fresh(Stateless), h.piped).chunks))
  }

  lemma ForgeAccounted(env: Environment, c: Channel, r: Reader, q: seq<BridgeMessage>, h: History, data: string, id: string)
    requires Accounted(env, c, r, q, h) && !IsEstablished(r)
    ensures var (r', e) := Forge(env, c, r, data, id);
      Accounted(env, c, r', q + e.queued, Noted(h, r, r', Received(data, false, id)))
  {
    assert (h.handshake + [data])[..|h.handshake|] == h.handshake;
    assert ForgerChunks(env, h.handshake + [data]).live == ForgerFeed(env, ForgerChunks(env, h.handshake).live, data).0;
    hide ForgerFeed, ForgerChunks, FilterChunks, Replay;
  }

  lemma ReplayAccounted(env: Environment, c: Channel, r: Reader, q: seq<BridgeMessage>, h: History, approved: bool)
    requires Accounted(env, c, r, q, h) && IsEstablished(r)
    ensures var (r', more) := MaybeReplay(c, r, approved); Accounted(env, c, r', q + more, h)
  {
    assert Messages(c, FilterChunks(Fresh(Stateless), []).chunks) == [];
    hide ForgerChunks, Replay, Messages, FilterChunks;
    assert q + [] == q;
    assert Replay(c, r.handshake) + [] == Replay(c, r.handshake);
  }

  lemma PipeAccounted(env: Environment, c: Channel, r: Reader, q: seq<BridgeMessage>, h: History, data: string)
    requires Accounted(env, c, r, q, h) && r.replayed
    ensures var (r', e) := Pipe(c, r, data);
      Accounted(env, c, r', q + e.queued, h.(piped := h.piped + [data]))
  {
    var fs := FilterChunks(Fresh(Stateless), h.piped);
    var (filter, out) := FilterChunk(fs.live, data);
    assert (h.piped + [data])[..|h.piped|] == h.piped;
    assert (fs.chunks + [out])[..|fs.chunks|] == fs.chunks;
    var sent := if out == "" then [] else [BridgeMessage(c, Payload, out)];
    assert FilterChunks(Fresh(Stateless), h.piped + [data]).chunks == fs.chunks + [out];
    assert Messages(c, fs.chunks + [out]) == Messages(c, fs.chunks) + sent;
    hide ForgerChunks, FilterChunk, FilterChunks, AckFeed, Replay, Messages;
    Assoc(Replay(c, r.handshake), Messages(c, fs.chunks), sent);
    Assoc([BridgeMessage(c, CreateChannel, h.ids[0])], Replay(c, r.handshake) + Messages(c, fs.chunks), sent);
  }

  lemma DropAccounted(env: Environment, c: Channel, r: Reader, q: seq<BridgeMessage>, h: History, data: string)
    requires Accounted(env, c, r, q, h) && IsEstablished(r)
    ensures Accounted(env, c, r, q + [], h.(dropped := h.dropped + [data]))
  {
    hide ForgerChunks, FilterChunks, Replay, Messages;
    assert q + [] == q;
  }

  lemma PipeKeepsReplayed(c: Channel, r: Reader, data: string)
    ensures Pipe(c, r, data).0.replayed == r.replayed
  {
    hide FilterChunk, AckFeed;
  }

  lemma StepAccounted(env: Environment, c: Channel, r: Reader, q: seq<BridgeMessage>, h: History, e: ReaderEvent)
    requires Accounted(env, c, r, q, h)
    ensures var (r', more) := ReaderStep(env, c, r, e); Accounted(env, c, r', q + more, Noted(h, r, r', e))
  {
    hide Accounted, Forge, Pipe;
    if e.TimedOut? {
      if IsEstablished(r) {
        ReplayAccounted(env, c, r, q, h, e.approved);
      } else {
        assert q + [] == q;
      }
    } else if !IsEstablished(r) {
      ForgeAccounted(env, c, r, q, h, e.data, e.id);
    } else {
      ReplayAccounted(env, c, r, q, h, e.approved);
      var (r1, replay) := MaybeReplay(c, r, e.approved);
      if r1.replayed {
        PipeAccounted(env, c, r1, q + replay, h, e.data);
        Assoc(q, replay, Pipe(c, r1, e.data).1.queued);
        assert Pipe(c, r1, e.data).0.replayed by { PipeKeepsReplayed(c, r1, e.data); }
      } else {
        DropAccounted(env, c, r, q, h, e.data);
      }
    }
  }

  /**
   * In every connection the bridge is given, in this order: nothing before the
   * handshake is complete, then one request, then, once the flag was seen set, the
   * whole handshake verbatim, then what the keepalive filter leaves of every later
   * chunk.
   */
  lemma {:induction false} ReaderQueues(env: Environment, c: Channel, events: seq<ReaderEvent>)
    ensures var (r, q) := RunReader(env, c, events); Accounted(env, c, r, q, HistoryOf(env, c, events))
  {
    if events != [] {
      var init := events[..|events| - 1];
      ReaderQueues(env, c, init);
      var (r, q) := RunReader(env, c, init);
      hide Accounted, ReaderStep, Noted;
      StepAccounted(env, c, r, q, HistoryOf(env, c, init), events[|events| - 1]);
    }
  }

  /** No payload is queued unless the flag was seen set. */
  lemma {:induction false} PayloadOnlyAfterApproval(env: Environment, c: Channel, events: seq<ReaderEvent>)
    ensures var (r, q) := RunReader(env, c, events);
      (exists k :: 0 <= k < |q| && !q[k].action.CreateChannel?) ==> exists k :: 0 <= k < |events| && events[k].approved
  {
    if events != [] {
      var init, e := events[..|events| - 1], events[|events| - 1];
      PayloadOnlyAfterApproval(env, c, init);
      ReaderQueues(env, c, init);
      var (r, q) := RunReader(env, c, init);
      assert forall k :: 0 <= k < |init| && init[k].approved ==> events[k].approved;
      if !e.approved && !r.replayed {
        hide ForgerFeed, AckFeed, FilterChunk, Replay, FilterChunks;
        assert q + [] == q;
      } else if e.approved {
        assert events[|events| - 1].approved;
      } else {
        ReplayedSawApproval(env, c, init);
      }
    }
  }

  lemma {:induction false} ReplayedSawApproval(env: Environment, c: Channel, events: seq<ReaderEvent>)
    requires RunReader(env, c, events).0.replayed
    ensures exists k :: 0 <= k < |events| && events[k].approved
  {
    var init, e := events[..|events| - 1], events[|events| - 1];
    if RunReader(env, c, init).0.replayed {
      ReplayedSawApproval(env, c, init);
    } else {
      hide ForgerFeed, AckFeed, FilterChunk, Replay;
      assert events[|events| - 1].approved;
    }
  }

  // ---- Where piping begins

  /** Framing does not depend on the hooks, as long as none of them corrupts the stream. */
  lemma StepSameFraming<P, Q>(h: Hooks<P>, h': Hooks<Q>, x: Run<P>, y: Run<Q>, c: char)
    requires h.tolerant == h'.tolerant && InCall(h, x) && InCall(h', y)
    requires x.live.cursor == y.live.cursor && x.live.opcode == y.live.opcode
    requires !Step(h, x, c).live.cursor.Corrupted? && !Step(h', y, c).live.cursor.Corrupted?
    ensures Step(h, x, c).live.cursor == Step(h', y, c).live.cursor
    ensures Step(h, x, c).live.opcode == Step(h', y, c).live.opcode
  {
  }

  lemma {:induction false} SameFraming<P, Q>(h: Hooks<P>, h': Hooks<Q>, x: Run<P>, y: Run<Q>, s: string)
    requires h.tolerant == h'.tolerant && InCall(h, x) && InCall(h', y)
    requires x.live.cursor == y.live.cursor && x.live.opcode == y.live.opcode
    requires !Feed(h, x, s).live.cursor.Corrupted? && !Feed(h', y, s).live.cursor.Corrupted?
    ensures Feed(h, x, s).live.cursor == Feed(h', y, s).live.cursor
    ensures Feed(h, x, s).live.opcode == Feed(h', y, s).live.opcode
  {
    if s != "" {
      var t, c := s[..|s| - 1], s[|s| - 1];
      hide Step, InCall;
      FeedInCall(h, x, t);
      FeedInCall(h', y, t);
      StepCorrupted(h, Feed(h, x, t), c);
      StepCorrupted(h', Feed(h', y, t), c);
      SameFraming(h, h', x, y, t);
      StepSameFraming(h, h', Feed(h, x, t), Feed(h', y, t), c);
    }
  }

  /**
   * However the replay is cut: when the guard has survived it, a fresh keepalive
   * filter is in step with the guard if and only if the handshake the reader kept
   * ends at an instruction boundary; a fresh ack faker needs besides that the
   * handshake left no clipboard stream open.
   */
  lemma PipingStartsInStep(env: Environment, handshake: seq<string>, replay: seq<string>)
    requires !ForgerChunks(env, handshake).live.cursor.Corrupted?
    requires Concat(replay) == Concat(handshake) && RunChunks(GUARD, Fresh(NO_STREAM), replay).survived
    ensures var g, f := RunChunks(GUARD, Fresh(NO_STREAM), replay).live, ForgerChunks(env, handshake).live;
      && (InStep(g, Fresh(Stateless), g) <==> AtBoundary(f))
      && (Prepared(g, Fresh(NO_CLIPBOARD)) <==> AtBoundary(f) && g.policy.sidx == -1)
  {
    var s := Concat(handshake);
    ChunkedIffUncut(GUARD, Fresh(NO_STREAM), replay);
    ChunksHeld(env, handshake);
    var x, y := NewCall(Fresh(NO_STREAM)), NewCall(Fresh(Collected([], [])));
    assert InCall(GUARD, x) && InCall(Collector(false), y);
    hide Feed, Step, ForgerChunks, RunChunks, InCall;
    SameFraming(GUARD, Collector(false), x, y, s);
  }

  /** A chunk that does not begin with a digit: the filter passes it on unanalysed, and the guard gives up at a boundary. */
  lemma CutByApproval(g: Live<GuardPolicy>, data: string)
    requires AtBoundary(g) && data != "" && !IsDigit(data[0])
    ensures FilterChunk(Fresh(Stateless), data) == (Fresh(Stateless), data)
    ensures !Clean(Call(GUARD, g, data))
  {
    assert data[..0] == "";
    CallNext(GUARD, g, data, 0);
    CallNext(KEEPALIVE, Fresh(Stateless), data, 0);
  }

  // ---- The order of the browser's stream

  /** Handshake, dropped and piped chunks are the browser's, one kind after the other. */
  ghost predicate InOrder(r: Reader, h: History, browsed: seq<string>) {
    && browsed == h.handshake + h.dropped + h.piped
    && (!IsEstablished(r) ==> h.dropped == [] && h.piped == [] && !r.replayed)
    && (!r.replayed ==> h.piped == [])
  }

  lemma StepInOrder(env: Environment, c: Channel, r: Reader, h: History, browsed: seq<string>, e: ReaderEvent)
    requires InOrder(r, h, browsed)
    ensures var r' := ReaderStep(env, c, r, e).0;
      InOrder(r', Noted(h, r, r', e), browsed + if e.Received? then [e.data] else [])
  {
    hide ForgerFeed, AckFeed, FilterChunk, Replay;
    if e.Received? {
      OrderMore(h.handshake, h.dropped, h.piped, e.data);
    } else {
      assert browsed + [] == browsed;
    }
  }

  lemma OrderMore<T>(a: seq<T>, b: seq<T>, c: seq<T>, x: T)
    ensures a + b + c + [x] == a + b + (c + [x])
    ensures c == [] ==> a + b + c + [x] == a + (b + [x]) + c
    ensures b == [] && c == [] ==> a + b + c + [x] == (a + [x]) + b + c
  {
  }

  /** Nothing the browser sends is lost from sight: its chunks are the handshake, then the dropped, then the piped ones. */
  lemma {:induction false} BrowserAccounted(env: Environment, c: Channel, events: seq<ReaderEvent>)
    ensures InOrder(RunReader(env, c, events).0, HistoryOf(env, c, events), Browsed(events))
  {
    if events != [] {
      var init := events[..|events| - 1];
      BrowserAccounted(env, c, init);
      hide InOrder, ReaderStep, Noted;
      StepInOrder(env, c, RunReader(env, c, init).0, HistoryOf(env, c, init), Browsed(init), events[|events| - 1]);
    }
  }
}
