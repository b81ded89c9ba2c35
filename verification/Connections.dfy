/**
 * Whole connections of gmlbroker against the guard: what the guard forwards of
 * everything a reader queues, and what becomes of the input that is dropped while
 * the approval is awaited.
 */
module Connections {
  import opened Framing
  import opened Chunking
  import opened Instructions
  import opened Encoding
  import opened Decimal
  import opened NeutralFraming
  import opened Insertion
  import opened GuardPolicyModule
  import opened MultiplexerModule
  import opened HandshakeForgerModule
  import opened KeepaliveFilterModule
  import opened ClipboardAckFakerModule
  import opened GuacamoleReaderModule

  /** The payloads among the queued messages. */
  function PayloadTexts(q: seq<BridgeMessage>): seq<string> {
    if q == [] then [] else
    PayloadTexts(q[..|q| - 1]) + if q[|q| - 1].action.Payload? then [q[|q| - 1].payload] else []
  }

  function NonEmpty(chunks: seq<string>): seq<string> {
    if chunks == [] then [] else
    NonEmpty(chunks[..|chunks| - 1]) + if chunks[|chunks| - 1] == "" then [] else [chunks[|chunks| - 1]]
  }

  lemma {:induction false} PayloadTextsConcat(a: seq<BridgeMessage>, b: seq<BridgeMessage>)
    ensures PayloadTexts(a + b) == PayloadTexts(a) + PayloadTexts(b)
  {
    if b == [] {
      assert a + b == a && PayloadTexts(a) + [] == PayloadTexts(a);
    } else {
      var init, last := b[..|b| - 1], b[|b| - 1];
      assert (a + b)[..|a + b| - 1] == a + init && (a + b)[|a + b| - 1] == last;
      PayloadTextsConcat(a, init);
      Assoc(PayloadTexts(a), PayloadTexts(init), if last.action.Payload? then [last.payload] else []);
    }
  }

  lemma {:induction false} ConcatConcat(a: seq<string>, b: seq<string>)
    ensures Concat(a + b) == Concat(a) + Concat(b)
  {
    if b == [] {
      assert a + b == a && Concat(a) + "" == Concat(a);
    } else {
      var init, last := b[..|b| - 1], b[|b| - 1];
      assert (a + b)[..|a + b| - 1] == a + init && (a + b)[|a + b| - 1] == last;
      ConcatConcat(a, init);
      Assoc(Concat(a), Concat(init), last);
    }
  }

  lemma OneText(c: Channel, s: string)
    ensures PayloadTexts([BridgeMessage(c, Payload, s)]) == [s] && Concat([s]) == s
  {
    assert [s][..0] == [] && "" + s == s;
  }

  lemma {:induction false} ReplayTexts(c: Channel, s: string)
    ensures Concat(PayloadTexts(Replay(c, s))) == s
  {
    if |s| > MAX_PAYLOAD_SIZE {
      var a, b := s[..MAX_PAYLOAD_SIZE], s[MAX_PAYLOAD_SIZE..];
      ReplayTexts(c, b);
      OneText(c, a);
      Cut(s, MAX_PAYLOAD_SIZE);
      PayloadTextsConcat([BridgeMessage(c, Payload, a)], Replay(c, b));
      ConcatConcat([a], PayloadTexts(Replay(c, b)));
    } else if s != "" {
      OneText(c, s);
    }
  }

  lemma {:induction false} MessageTexts(c: Channel, chunks: seq<string>)
    ensures PayloadTexts(Messages(c, chunks)) == NonEmpty(chunks)
  {
    if chunks != [] {
      var init, last := chunks[..|chunks| - 1], chunks[|chunks| - 1];
      MessageTexts(c, init);
      OneText(c, last);
      PayloadTextsConcat(Messages(c, init), if last == "" then [] else [BridgeMessage(c, Payload, last)]);
    }
  }

  // ---- Runs over chunks

  lemma {:induction false} RunChunksSplit<P>(h: Hooks<P>, live: Live<P>, a: seq<string>, b: seq<string>)
    ensures RunChunks(h, live, a + b) ==
      var x := RunChunks(h, live, a);
      if !x.survived then x else
      var y := RunChunks(h, x.live, b);
      Chunked(y.live, x.out + y.out, x.refused + y.refused, y.survived)
  {
    var x := RunChunks(h, live, a);
    if b == [] {
      assert a + b == a && x.out + "" == x.out && x.refused + [] == x.refused;
      SurvivedLive(h, live, a);
    } else {
      var init, last := b[..|b| - 1], b[|b| - 1];
      assert (a + b)[..|a + b| - 1] == a + init && (a + b)[|a + b| - 1] == last;
      RunChunksSplit(h, live, a, init);
      var y := RunChunks(h, x.live, init);
      var r := Call(h, y.live, last);
      Assoc(x.out, y.out, Output(r));
      Assoc(x.refused, y.refused, r.refused);
      hide Call, Clean, Output, Rest;
    }
  }

  lemma {:induction false} SurvivedLive<P>(h: Hooks<P>, live: Live<P>, chunks: seq<string>)
    ensures RunChunks(h, live, chunks).survived ==> !RunChunks(h, live, chunks).live.cursor.Corrupted?
  {
    hide Feed;
  }

  /** An empty chunk changes nothing. */
  lemma {:induction false} EmptyDropped<P>(h: Hooks<P>, live: Live<P>, chunks: seq<string>)
    ensures RunChunks(h, live, NonEmpty(chunks)) == RunChunks(h, live, chunks)
  {
    if chunks != [] {
      var init, last := chunks[..|chunks| - 1], chunks[|chunks| - 1];
      EmptyDropped(h, live, init);
      var x := RunChunks(h, live, init);
      SurvivedLive(h, live, init);
      if last == "" {
        assert Call(h, x.live, "") == NewCall(x.live);
        assert x.out + "" == x.out && x.refused + [] == x.refused && NonEmpty(init) + [] == NonEmpty(init);
        assert Output(NewCall(x.live)) == "" + "" == "";
      } else {
        assert (NonEmpty(init) + [last])[..|NonEmpty(init)|] == NonEmpty(init);
        hide Call;
      }
    }
  }

  lemma RunPolicyOk(chunks: seq<string>)
    requires RunChunks(GUARD, Fresh(NO_STREAM), chunks).survived
    ensures PolicyOk(RunChunks(GUARD, Fresh(NO_STREAM), chunks).live.policy)
  {
    ChunkedIffUncut(GUARD, Fresh(NO_STREAM), chunks);
    CallReparses(Concat(chunks));
    hide Call, RunChunks, CutsAvoid;
  }

  // ---- The guard behind a reader

  /** What reaches the guard of a replayed connection. */
  lemma {:induction false} QueuedTexts(env: Environment, c: Channel, events: seq<ReaderEvent>)
    requires RunReader(env, c, events).0.replayed
    ensures var (r, q) := RunReader(env, c, events);
      PayloadTexts(q) == PayloadTexts(Replay(c, r.handshake)) +
        NonEmpty(FilterChunks(Fresh(Stateless), HistoryOf(env, c, events).piped).chunks)
  {
    var (r, q) := RunReader(env, c, events);
    var h := HistoryOf(env, c, events);
    var filtered := FilterChunks(Fresh(Stateless), h.piped).chunks;
    ReaderQueues(env, c, events);
    assert |h.ids| == 1;
    var request := BridgeMessage(c, CreateChannel, h.ids[0]);
    assert q == [request] + (Replay(c, r.handshake) + Messages(c, filtered));
    assert PayloadTexts([request]) == [] by {
      assert [request][..0] == [];
    }
    hide RunReader, HistoryOf, FilterChunks, Replay, Messages, PayloadTexts, NonEmpty;
    PayloadTextsConcat([request], Replay(c, r.handshake) + Messages(c, filtered));
    PayloadTextsConcat(Replay(c, r.handshake), Messages(c, filtered));
    MessageTexts(c, filtered);
  }

  /** The guard on the replay and then the raw chunks, without a filter in front. */
  function Alone(c: Channel, handshake: string, piped: seq<string>): Chunked<GuardPolicy> {
    RunChunks(GUARD, Fresh(NO_STREAM), PayloadTexts(Replay(c, handshake)) + piped)
  }

  /** No read is longer; the reader's buffer holds less than an element may. */
  predicate Bounded(chunks: seq<string>) { forall k :: 0 <= k < |chunks| ==> |chunks[k]| <= MAX_ELEMENT }

  lemma FilteredBehind(g: Live<GuardPolicy>, piped: seq<string>)
    requires InStep(g, Fresh(Stateless), g) && Framed(false, g.cursor) && PolicyOk(g.policy)
    ensures var filtered := FilterChunks(Fresh(Stateless), piped).chunks;
      var raw, behind := RunChunks(GUARD, g, piped), RunChunks(GUARD, g, NonEmpty(filtered));
      && (raw.survived ==> behind.survived && behind.out == raw.out && SameLive(behind.live, raw.live))
      && (Bounded(piped) ==> (behind.survived <==> raw.survived))
  {
    EmptyDropped(GUARD, g, FilterChunks(Fresh(Stateless), piped).chunks);
    hide RunChunks, FilterChunks, NonEmpty;
    if RunChunks(GUARD, g, piped).survived {
      FilterCommutesWithGuard(g, Fresh(Stateless), g, piped);
    }
    if Bounded(piped) {
      FilterIsExact(g, Fresh(Stateless), g, piped);
    }
  }

  /** The guard behind the replay, on the reader's filtered chunks and on the raw ones. */
  lemma {:induction false} BehindReplay(env: Environment, c: Channel, handshake: seq<string>, piped: seq<string>)
    requires AtBoundary(ForgerChunks(env, handshake).live)
    ensures var replay, filtered := PayloadTexts(Replay(c, Concat(handshake))), FilterChunks(Fresh(Stateless), piped).chunks;
      var alone := Alone(c, Concat(handshake), piped);
      var behind := RunChunks(GUARD, Fresh(NO_STREAM), replay + NonEmpty(filtered));
      && (alone.survived ==> behind.survived && behind.out == alone.out && SameLive(behind.live, alone.live))
      && (Bounded(piped) ==> (behind.survived <==> alone.survived))
  {
    var replay := PayloadTexts(Replay(c, Concat(handshake)));
    var filtered := FilterChunks(Fresh(Stateless), piped).chunks;
    hide FilterChunks, Replay, PayloadTexts, RunChunks, ForgerChunks, Concat, NonEmpty;
    ReplayTexts(c, Concat(handshake));
    RunChunksSplit(GUARD, Fresh(NO_STREAM), replay, piped);
    RunChunksSplit(GUARD, Fresh(NO_STREAM), replay, NonEmpty(filtered));
    var x := RunChunks(GUARD, Fresh(NO_STREAM), replay);
    if x.survived {
      PipingStartsInStep(env, handshake, replay);
      ChunksFramed(GUARD, Fresh(NO_STREAM), replay);
      RunPolicyOk(replay);
      FilteredBehind(x.live, piped);
    }
  }

  /** When the guard alone survives. */
  lemma {:induction false} AloneSurvives(c: Channel, handshake: string, piped: seq<string>)
    ensures var whole, all := GuardCall(handshake + Concat(piped)), PayloadTexts(Replay(c, handshake)) + piped;
      Alone(c, handshake, piped).survived <==> Clean(whole) && CutsAvoid(whole.ranges, all)
  {
    var replay := PayloadTexts(Replay(c, handshake));
    ReplayTexts(c, handshake);
    ConcatConcat(replay, piped);
    hide Replay, PayloadTexts, RunChunks, CutsAvoid, Concat, Feed;
    ChunkedIffUncut(GUARD, Fresh(NO_STREAM), replay + piped);
  }

  /**
   * Whole connections, with the handshake ending at an instruction boundary: the
   * guard survives what the reader queues if and only if it alone survives the
   * replayed handshake and the raw chunks, which is to say if and only if handshake
   * and piped input in one call are clean and no datagram cuts an instruction it
   * denies. It then forwards the same bytes and ends in the same state; what it
   * forwards is the handshake and the piped input without the instructions that do
   * not conform.
   */
  lemma {:induction false} GuardBehindReader(env: Environment, c: Channel, events: seq<ReaderEvent>)
    requires RunReader(env, c, events).0.replayed && AtBoundary(RunReader(env, c, events).0.forger)
    ensures var (r, q) := RunReader(env, c, events);
      var piped := HistoryOf(env, c, events).piped;
      var alone, behind := Alone(c, r.handshake, piped), RunChunks(GUARD, Fresh(NO_STREAM), PayloadTexts(q));
      var whole, all := GuardCall(r.handshake + Concat(piped)), PayloadTexts(Replay(c, r.handshake)) + piped;
      && (Bounded(piped) ==> (behind.survived <==> alone.survived))
      && (alone.survived <==> Clean(whole) && CutsAvoid(whole.ranges, all))
      && (alone.survived ==>
            && behind.survived && behind.out == alone.out && SameLive(behind.live, alone.live)
            && behind.out == Policed(-1, r.handshake + Concat(piped)))
  {
    var r, h := RunReader(env, c, events).0, HistoryOf(env, c, events);
    ReaderQueues(env, c, events);
    assert r.handshake == Concat(h.handshake) && r.forger == ForgerChunks(env, h.handshake).live;
    hide RunReader, HistoryOf, FilterChunks, Replay, PayloadTexts, RunChunks, ForgerChunks, Policed, Concat, Accounted, NonEmpty, Bounded, CutsAvoid, Clean, Feed, Alone;
    QueuedTexts(env, c, events);
    BehindReplay(env, c, h.handshake, h.piped);
    AloneSurvives(c, r.handshake, h.piped);
    if Alone(c, r.handshake, h.piped).survived {
      AlonePolices(c, r.handshake, h.piped);
    }
  }

  lemma {:induction false} AlonePolices(c: Channel, handshake: string, piped: seq<string>)
    requires Alone(c, handshake, piped).survived
    ensures Alone(c, handshake, piped).out == Policed(-1, handshake + Concat(piped))
  {
    var replay := PayloadTexts(Replay(c, handshake));
    ReplayTexts(c, handshake);
    ConcatConcat(replay, piped);
    hide Replay, PayloadTexts, RunChunks, Policed, CutsAvoid, Concat;
    ChunkedIffUncut(GUARD, Fresh(NO_STREAM), replay + piped);
    GuardForwardsConforming(handshake + Concat(piped));
  }

  // ---- Where piping begins in the browser's stream

  /** The browser's stream in its three parts. */
  datatype Parts = Parts(handshake: string, dropped: string, piped: string)

  function PartsOf(env: Environment, c: Channel, events: seq<ReaderEvent>): Parts {
    var h := HistoryOf(env, c, events);
    Parts(Concat(h.handshake), Concat(h.dropped), Concat(h.piped))
  }

  lemma {:induction false} BrowserStream(env: Environment, c: Channel, events: seq<ReaderEvent>)
    ensures var s := PartsOf(env, c, events);
      Concat(Browsed(events)) == s.handshake + s.dropped + s.piped
  {
    var h := HistoryOf(env, c, events);
    BrowserAccounted(env, c, events);
    hide RunReader, HistoryOf, Browsed, Concat;
    ConcatConcat(h.handshake + h.dropped, h.piped);
    ConcatConcat(h.handshake, h.dropped);
  }

  lemma {:induction false} KeptHandshake(env: Environment, c: Channel, events: seq<ReaderEvent>)
    ensures var r, s := RunReader(env, c, events).0, PartsOf(env, c, events);
      && r.handshake == s.handshake
      && r.forger.cursor == NeutralLive(s.handshake).cursor && r.forger.opcode == NeutralLive(s.handshake).opcode
  {
    var h := HistoryOf(env, c, events);
    ReaderQueues(env, c, events);
    ChunksHeld(env, h.handshake);
    hide RunReader, HistoryOf, ForgerChunks, Feed;
  }

  /** The dropped bytes end at a boundary, or with leading zeros that nobody misses in front of a digit. */
  predicate Resumes(s: Parts) {
    || AtBoundary(NeutralLive(s.dropped))
    || (InsertionPoint(NeutralLive(s.dropped)) && s.piped != "" && IsDigit(s.piped[0]))
  }

  /** Behind the dropped part the browser's stream reads as from the beginning. */
  lemma {:induction false} ReadsBehindDropped(s: Parts)
    requires AtBoundary(NeutralLive(s.handshake)) && Resumes(s)
    ensures var before := s.handshake + s.dropped;
      NeutralLive(before + s.piped) == Behind(NeutralLive(before).policy.done, NeutralLive(s.piped))
  {
    var l := Fresh(Collected([], []));
    var before := s.handshake + s.dropped;
    hide Read;
    ReadsOn(false, s.handshake, s.dropped);
    if AtBoundary(NeutralLive(s.dropped)) {
      ReadsOn(false, before, s.piped);
    } else {
      var m, done := NeutralLive(before), NeutralLive(before).policy.done;
      ReadReachable(false, l, before);
      assert done + [] == done;
      assert m.(cursor := Start) == Behind(done, l);
      ReadConcat(false, l, before, s.piped);
      ZeroPrefix(false, m, s.piped);
      ReadBehind(false, done, l, s.piped);
    }
  }

  /**
   * When the browser's stream frames cleanly and its handshake ends at a boundary,
   * piping begins at an instruction boundary of the browser's stream, or in leading
   * zeros of the next opcode's length prefix, if and only if the dropped bytes end
   * at one, or there. If they do, and a digit follows zeros, the stream without the
   * dropped part frames cleanly too, and has exactly the instructions of the
   * handshake and those that the browser sent behind the dropped part.
   */
  lemma {:induction false} PipingBegins(env: Environment, c: Channel, events: seq<ReaderEvent>)
    requires AtBoundary(RunReader(env, c, events).0.forger)
    requires !NeutralLive(Concat(Browsed(events))).cursor.Corrupted?
    ensures var s := PartsOf(env, c, events);
      var whole, before, kept := Concat(Browsed(events)), s.handshake + s.dropped, s.handshake + s.piped;
      && (AtBoundary(NeutralLive(before)) <==> AtBoundary(NeutralLive(s.dropped)))
      && (InsertionPoint(NeutralLive(before)) <==> InsertionPoint(NeutralLive(s.dropped)))
      && (Resumes(s) ==>
            && NeutralLive(kept).cursor == NeutralLive(whole).cursor && NeutralLive(kept).opcode == NeutralLive(whole).opcode
            && NeutralLive(whole).policy.done == NeutralLive(before).policy.done + NeutralLive(s.piped).policy.done
            && NeutralLive(kept).policy.done == NeutralLive(s.handshake).policy.done + NeutralLive(s.piped).policy.done)
  {
    var s := PartsOf(env, c, events);
    BrowserStream(env, c, events);
    KeptHandshake(env, c, events);
    hide RunReader, PartsOf, Browsed, Concat, Read, Resumes;
    ReadsOn(false, s.handshake, s.dropped);
    ReadsOn(false, s.handshake, s.piped);
    if Resumes(s) {
      ReadsBehindDropped(s);
    }
  }

  // ---- The stream with the dropped part removed

  /**
   * When the dropped bytes end so: the guard behind the reader survives if and only
   * if, of the browser's stream with the dropped part removed, no instruction that
   * it denies is left open or cut by a datagram; and it then forwards that stream
   * without the instructions that do not conform.
   */
  lemma {:induction false} DroppedPartRemoved(env: Environment, c: Channel, events: seq<ReaderEvent>)
    requires RunReader(env, c, events).0.replayed && AtBoundary(RunReader(env, c, events).0.forger)
    requires !NeutralLive(Concat(Browsed(events))).cursor.Corrupted?
    requires Resumes(PartsOf(env, c, events))
    ensures var s, (r, q) := PartsOf(env, c, events), RunReader(env, c, events);
      var piped := HistoryOf(env, c, events).piped;
      var kept, behind := GuardCall(s.handshake + s.piped), RunChunks(GUARD, Fresh(NO_STREAM), PayloadTexts(q));
      var uncut := !kept.denying && CutsAvoid(kept.ranges, PayloadTexts(Replay(c, r.handshake)) + piped);
      && (Bounded(piped) ==> (behind.survived <==> uncut))
      && (uncut ==> behind.survived && behind.out == Policed(-1, s.handshake + s.piped))
  {
    var s, r := PartsOf(env, c, events), RunReader(env, c, events).0;
    var piped := HistoryOf(env, c, events).piped;
    var kept := s.handshake + s.piped;
    assert s.piped == Concat(piped);
    PipingBegins(env, c, events);
    KeptHandshake(env, c, events);
    hide RunReader, PartsOf, HistoryOf, Browsed, Concat, Feed, Replay, PayloadTexts, RunChunks, CutsAvoid, Policed, Resumes, Bounded, NeutralLive;
    OneCallFrames(GUARD, NO_STREAM, kept);
    GuardBehindReader(env, c, events);
  }

  // ---- What a connection answers while its handshake is forged

  /** What a chunk has the reader write to its browser at once, and whether it gives up on the connection. */
  function StepReply(env: Environment, c: Channel, r: Reader, e: ReaderEvent): (string, bool) {
    if e.Received? then var x := TakeInput(env, c, r, e.data, e.approved, e.id).1; (x.reply, x.closing) else ("", false)
  }

  function Answered(env: Environment, c: Channel, events: seq<ReaderEvent>): string {
    if events == [] then "" else
    var init, e := events[..|events| - 1], events[|events| - 1];
    Answered(env, c, init) + StepReply(env, c, RunReader(env, c, init).0, e).0
  }

  ghost predicate AnsweredLike(env: Environment, r: Reader, answered: string, h: History) {
    answered == ForgerChunks(env, h.handshake).replies && r.forger == ForgerChunks(env, h.handshake).live
  }

  lemma QuietStep(env: Environment, c: Channel, r: Reader, h: History, e: ReaderEvent)
    requires e.TimedOut? || IsEstablished(r)
    ensures var r' := ReaderStep(env, c, r, e).0;
      r'.forger == r.forger && StepReply(env, c, r, e) == ("", false) && Noted(h, r, r', e).handshake == h.handshake
  {
    hide ForgerFeed, AckFeed, FilterChunk, Replay;
  }

  lemma ForgedStep(env: Environment, c: Channel, r: Reader, h: History, e: ReaderEvent)
    requires e.Received? && !IsEstablished(r)
    ensures var r', (l, out) := ReaderStep(env, c, r, e).0, ForgerFeed(env, r.forger, e.data);
      && r'.forger == l && StepReply(env, c, r, e) == (out, l.policy.hs.InvalidHandshake?)
      && Noted(h, r, r', e).handshake == h.handshake + [e.data]
  {
    hide ForgerFeed;
  }

  lemma ForgerMore(env: Environment, chunks: seq<string>, data: string)
    ensures var s := ForgerChunks(env, chunks);
      var (l, out) := ForgerFeed(env, s.live, data);
      ForgerChunks(env, chunks + [data]) == Session(l, s.replies + out, s.raw + data)
  {
    assert (chunks + [data])[..|chunks|] == chunks;
    hide ForgerFeed;
  }

  lemma StepAnswered(env: Environment, c: Channel, r: Reader, h: History, answered: string, e: ReaderEvent)
    requires AnsweredLike(env, r, answered, h)
    ensures var (r', (reply, closing)) := (ReaderStep(env, c, r, e).0, StepReply(env, c, r, e));
      && AnsweredLike(env, r', answered + reply, Noted(h, r, r', e))
      && (closing <==> e.Received? && !IsEstablished(r) && r'.forger.policy.hs.InvalidHandshake?)
  {
    hide ForgerFeed, ForgerChunks, ReaderStep, StepReply, Noted, IsEstablished;
    if e.Received? && !IsEstablished(r) {
      ForgedStep(env, c, r, h, e);
      ForgerMore(env, h.handshake, e.data);
    } else {
      QuietStep(env, c, r, h, e);
      assert answered + "" == answered;
    }
  }

  lemma {:induction false} AnswersForged(env: Environment, c: Channel, events: seq<ReaderEvent>)
    ensures AnsweredLike(env, RunReader(env, c, events).0, Answered(env, c, events), HistoryOf(env, c, events))
  {
    if events == [] {
      assert ForgerChunks(env, []) == Session(Fresh(UNSTARTED), "", "");
    } else {
      var init := events[..|events| - 1];
      AnswersForged(env, c, init);
      hide AnsweredLike, ReaderStep, StepReply, Noted;
      StepAnswered(env, c, RunReader(env, c, init).0, HistoryOf(env, c, init), Answered(env, c, init), events[|events| - 1]);
    }
  }

  /**
   * In every connection the browser is answered, while the handshake is forged and
   * never after, with exactly the replies of the conversation over the instructions it
   * has completed; and the reader gives up on a chunk if and only if the handshake is
   * not complete and, with that chunk, no longer frames.
   */
  lemma {:induction false} ConnectionReplies(env: Environment, c: Channel, events: seq<ReaderEvent>, e: ReaderEvent)
    ensures var x := NeutralLive(Concat(HistoryOf(env, c, events).handshake));
      Delivered(x.policy) && Answered(env, c, events) == EncodeAll(Conversation(env, x.policy.done).replies)
    ensures var r, h := RunReader(env, c, events).0, HistoryOf(env, c, events);
      StepReply(env, c, r, e).1 <==>
        e.Received? && !IsEstablished(r) && NeutralLive(Concat(h.handshake) + e.data).cursor.Corrupted?
  {
    var r, h := RunReader(env, c, events).0, HistoryOf(env, c, events);
    AnswersForged(env, c, events);
    ForgerConverses(env, h.handshake);
    StepAnswered(env, c, r, h, Answered(env, c, events), e);
    if e.Received? && !IsEstablished(r) {
      var more := h.handshake + [e.data];
      assert more[..|h.handshake|] == h.handshake && Concat(more) == Concat(h.handshake) + e.data;
      assert Noted(h, r, ReaderStep(env, c, r, e).0, e).handshake == more;
      hide RunReader, HistoryOf, Answered, StepReply, ReaderStep, ForgerChunks, Feed, Conversation, EncodeAll, IsEstablished, Concat;
      ForgerConverses(env, more);
      NeverInvalid(env, NeutralLive(Concat(more)).policy.done);
    }
  }

  /** The conversation itself is never invalid. */
  lemma {:induction false} NeverInvalid(env: Environment, instrs: seq<seq<string>>)
    requires forall k :: 0 <= k < |instrs| ==> instrs[k] != []
    ensures !Conversation(env, instrs).hs.InvalidHandshake?
  {
    if instrs != [] {
      NeverInvalid(env, instrs[..|instrs| - 1]);
      hide ScreenInstructions;
    }
  }

  // ---- The acks of a connection

  function StepAcks(env: Environment, c: Channel, r: Reader, e: ReaderEvent): string {
    if e.Received? then TakeInput(env, c, r, e.data, e.approved, e.id).1.acks else ""
  }

  /** All the acks a connection puts on the way to its browser. */
  function Acked(env: Environment, c: Channel, events: seq<ReaderEvent>): string {
    if events == [] then "" else
    var init, e := events[..|events| - 1], events[|events| - 1];
    Acked(env, c, init) + StepAcks(env, c, RunReader(env, c, init).0, e)
  }

  /** They are those of its faker over the piped chunks. */
  ghost predicate AckedLike(r: Reader, acked: string, h: History) {
    (r.faker, acked) == AckChunks(Fresh(NO_CLIPBOARD), h.piped) && (!r.replayed ==> h.piped == [])
  }

  lemma StepAcked(env: Environment, c: Channel, r: Reader, h: History, acked: string, e: ReaderEvent)
    requires AckedLike(r, acked, h) && (!IsEstablished(r) ==> !r.replayed)
    ensures var r' := ReaderStep(env, c, r, e).0; AckedLike(r', acked + StepAcks(env, c, r, e), Noted(h, r, r', e))
  {
    hide ForgerFeed, AckFeed, FilterChunk, Replay;
    assert acked + "" == acked;
    if e.Received? {
      assert (h.piped + [e.data])[..|h.piped|] == h.piped;
    }
  }

  lemma {:induction false} AckedOverPiped(env: Environment, c: Channel, events: seq<ReaderEvent>)
    ensures AckedLike(RunReader(env, c, events).0, Acked(env, c, events), HistoryOf(env, c, events))
  {
    if events == [] {
      assert AckChunks(Fresh(NO_CLIPBOARD), []) == (Fresh(NO_CLIPBOARD), "");
    } else {
      var init := events[..|events| - 1];
      AckedOverPiped(env, c, init);
      ReaderQueues(env, c, init);
      assert !IsEstablished(RunReader(env, c, init).0) ==> !RunReader(env, c, init).0.replayed;
      hide AckedLike, ReaderStep, StepAcks, Noted, Accounted, IsEstablished;
      StepAcked(env, c, RunReader(env, c, init).0, HistoryOf(env, c, init), Acked(env, c, init), events[|events| - 1]);
    }
  }

  /**
   * Whole connections, with the handshake ending at a boundary and leaving no
   * clipboard stream open: if the guard alone survives, the acks that the browser is
   * sent are, in order, one for each clipboard payload the guard refuses in the
   * piped input.
   */
  lemma {:induction false} ConnectionAcks(env: Environment, c: Channel, events: seq<ReaderEvent>)
    requires var r, h := RunReader(env, c, events).0, HistoryOf(env, c, events);
      r.replayed && AtBoundary(r.forger) && Alone(c, r.handshake, h.piped).survived
    ensures var r, h := RunReader(env, c, events).0, HistoryOf(env, c, events);
      var replayed := RunChunks(GUARD, Fresh(NO_STREAM), PayloadTexts(Replay(c, r.handshake)));
      && replayed.survived
      && (replayed.live.policy.sidx == -1 ==>
            && Acked(env, c, events) == Acks(RunChunks(GUARD, replayed.live, h.piped).refused)
            && Alone(c, r.handshake, h.piped).refused == replayed.refused + RunChunks(GUARD, replayed.live, h.piped).refused)
  {
    var r, h := RunReader(env, c, events).0, HistoryOf(env, c, events);
    var replay := PayloadTexts(Replay(c, r.handshake));
    ReaderQueues(env, c, events);
    AckedOverPiped(env, c, events);
    assert r.handshake == Concat(h.handshake) && r.forger == ForgerChunks(env, h.handshake).live;
    hide RunReader, HistoryOf, Replay, PayloadTexts, RunChunks, ForgerChunks, Concat, Accounted, AckChunks, Acks, Prepared, Acked;
    ReplayTexts(c, r.handshake);
    RunChunksSplit(GUARD, Fresh(NO_STREAM), replay, h.piped);
    var x := RunChunks(GUARD, Fresh(NO_STREAM), replay);
    PipingStartsInStep(env, h.handshake, replay);
    ChunksFramed(GUARD, Fresh(NO_STREAM), replay);
    if x.live.policy.sidx == -1 {
      FakerPredictsGuard(x.live, Fresh(NO_CLIPBOARD), h.piped);
    }
  }

  // ---- Inputs that show the conditions are met and missed

  const CONNECT: seq<string> := ["connect"]

  /** The head of a printed `key` instruction, and the rest of it. */
  const HEAD := "3.k"
  const TAIL := "ey,1.1,1.1;"

  lemma ForgerConnects(env: Environment, r: Run<ForgerState>)
    requires Boundary(r)
    ensures var q := Feed(Forger(env), r, Instr(CONNECT)); Boundary(q) && q.live.policy.hs.Established?
  {
    assert WellFormed(CONNECT);
    OnePrinted(Forger(env), r, CONNECT);
    assert Verdict(Forger(env), r.live.policy, CONNECT) == (r.live.policy.(opcode := "connect"), true);
    hide Feed, Instr, WaitingScreen;
  }

  /** An allowed instruction without arguments leaves the guard at a boundary, tracking what it tracked. */
  lemma GuardConnects(r: Run<GuardPolicy>)
    requires Boundary(r) && r.ranges == []
    ensures var q := Feed(GUARD, r, Instr(CONNECT));
      Boundary(q) && q.ranges == [] && q.live.policy.sidx == r.live.policy.sidx
  {
    assert WellFormed(CONNECT);
    OnePrinted(GUARD, r, CONNECT);
    assert Verdict(GUARD, r.live.policy, CONNECT) == (GuardPolicy("connect", r.live.policy.sidx, 0, false), true);
    hide Feed, Instr;
  }

  lemma HeadStep<P>(h: Hooks<P>, r: Run<P>, c: char, k: Cursor)
    requires !h.tolerant && !r.denying && (r.live.cursor.Start? || r.live.cursor.Length? || r.live.cursor.Data?)
    requires k == Advance(false, r.live.cursor, c) && !k.Corrupted?
    ensures var q := Step(h, r, c); q.live == r.live.(cursor := k) && !q.denying && q.ranges == r.ranges
  {
    hide Advance;
  }

  lemma HeadRun<P>(h: Hooks<P>, r: Run<P>)
    requires Boundary(r) && !h.tolerant
    ensures var q := Feed(h, r, HEAD);
      q.live == r.live.(cursor := Data(3, 1, "k")) && Clean(q) && q.ranges == r.ranges
  {
    assert Feed(h, r, "") == r && "" + ['k'] == "k";
    assert "" + ['3'] == "3" && "3" + ['.'] == "3." && "3." + ['k'] == HEAD;
    FeedLast(h, r, "", '3');
    FeedLast(h, r, "3", '.');
    FeedLast(h, r, "3.", 'k');
    hide Feed, Step;
    HeadStep(h, r, '3', Length(3));
    HeadStep(h, Feed(h, r, "3"), '.', Data(3, 0, ""));
    HeadStep(h, Feed(h, r, "3."), 'k', Data(3, 1, "k"));
  }

  lemma OneChunk<P>(h: Hooks<P>, l: Live<P>, s: string)
    requires !l.cursor.Corrupted? && Clean(Call(h, l, s))
    ensures RunChunks(h, l, [s]).survived && RunChunks(h, l, [s]).live == Call(h, l, s).live
  {
    assert [s][..0] == [];
    assert RunChunks(h, l, []) == Chunked(l, "", [], true);
    hide Call;
  }

  lemma OneFeed(env: Environment, s: string)
    requires !Call(Forger(env), Fresh(UNSTARTED), s).denying && !Call(Forger(env), Fresh(UNSTARTED), s).live.cursor.Corrupted?
    ensures ForgerFeed(env, Fresh(UNSTARTED), s).0 == Call(Forger(env), Fresh(UNSTARTED), s).live
    ensures ForgerChunks(env, [s]).live == Call(Forger(env), Fresh(UNSTARTED), s).live
  {
    assert [s][..0] == [];
    assert Fresh(UNSTARTED).(policy := UNSTARTED.(out := "")) == Fresh(UNSTARTED);
    hide Call;
  }

  /**
   * A handshake whose last chunk holds the head of the next instruction: the forger
   * is done, the guard survives the replay, and the keepalive filter is out of step.
   */
  lemma {:induction false} FilterOutOfStep(env: Environment)
    ensures var s := Instr(CONNECT) + HEAD;
      var f, run := ForgerChunks(env, [s]).live, RunChunks(GUARD, Fresh(NO_STREAM), [s]);
      && f.policy.hs.Established? && !f.cursor.Corrupted? && !AtBoundary(f)
      && run.survived && !InStep(run.live, Fresh(Stateless), run.live)
  {
    var s, x, y := Instr(CONNECT) + HEAD, NewCall(Fresh(UNSTARTED)), NewCall(Fresh(NO_STREAM));
    ForgerConnects(env, x);
    GuardConnects(y);
    hide Instr, Feed, RunChunks, ForgerChunks, ForgerFeed;
    FeedConcat(Forger(env), x, Instr(CONNECT), HEAD);
    FeedConcat(GUARD, y, Instr(CONNECT), HEAD);
    HeadRun(Forger(env), Feed(Forger(env), x, Instr(CONNECT)));
    HeadRun(GUARD, Feed(GUARD, y, Instr(CONNECT)));
    OneFeed(env, s);
    OneChunk(GUARD, Fresh(NO_STREAM), s);
  }

  const PASTE: seq<string> := ["clipboard", "0", "text/plain"]

  lemma PasteVerdict(p: GuardPolicy)
    ensures Verdict(GUARD, p, PASTE).1 && Verdict(GUARD, p, PASTE).0.sidx == 0
  {
    GuardMeans(p, PASTE);
    assert ParseIndex("0") == 0 by {
      assert "0"[..0] == "";
    }
    hide Verdict;
  }

  /**
   * A handshake that opens a clipboard stream: it ends at a boundary and the keepalive
   * filter is in step with the guard, but the ack faker is not.
   */
  lemma {:induction false} FakerOutOfStep(env: Environment)
    ensures var s := Instr(PASTE) + Instr(CONNECT);
      var f, run := ForgerChunks(env, [s]).live, RunChunks(GUARD, Fresh(NO_STREAM), [s]);
      && f.policy.hs.Established? && AtBoundary(f)
      && run.survived && InStep(run.live, Fresh(Stateless), run.live) && !Prepared(run.live, Fresh(NO_CLIPBOARD))
  {
    var s, x, y := Instr(PASTE) + Instr(CONNECT), NewCall(Fresh(UNSTARTED)), NewCall(Fresh(NO_STREAM));
    PasteVerdict(NO_STREAM);
    assert WellFormed(PASTE);
    hide Instr, Feed, RunChunks, ForgerChunks, ForgerFeed, Verdict, WellFormed;
    OnePrinted(GUARD, y, PASTE);
    OnePrinted(Forger(env), x, PASTE);
    FeedConcat(Forger(env), x, Instr(PASTE), Instr(CONNECT));
    FeedConcat(GUARD, y, Instr(PASTE), Instr(CONNECT));
    ForgerConnects(env, Feed(Forger(env), x, Instr(PASTE)));
    GuardConnects(Feed(GUARD, y, Instr(PASTE)));
    OneFeed(env, s);
    OneChunk(GUARD, Fresh(NO_STREAM), s);
  }

  /** A `key` instruction cut by the approval. */
  function CutRun(): seq<ReaderEvent> {
    [] + [Received(Instr(CONNECT), false, "0123456789ab")] + [Received(HEAD, false, "")] + [Received(TAIL, true, "")]
  }

  lemma ReaderMore(env: Environment, c: Channel, events: seq<ReaderEvent>, e: ReaderEvent)
    ensures var (r, q) := RunReader(env, c, events);
      var (r', more) := ReaderStep(env, c, r, e);
      RunReader(env, c, events + [e]) == (r', q + more)
    ensures HistoryOf(env, c, events + [e]) ==
      Noted(HistoryOf(env, c, events), RunReader(env, c, events).0, RunReader(env, c, events + [e]).0, e)
    ensures Browsed(events + [e]) == Browsed(events) + if e.Received? then [e.data] else []
  {
    assert (events + [e])[..|events|] == events;
    hide ReaderStep, Noted;
  }

  lemma ForgeStep(env: Environment, c: Channel, data: string, id: string)
    requires var l := ForgerFeed(env, Fresh(UNSTARTED), data).0; l.policy.hs.Established? && AtBoundary(l)
    ensures var r := ReaderStep(env, c, CONNECTED, Received(data, false, id)).0;
      IsEstablished(r) && AtBoundary(r.forger) && r.handshake == data && !r.replayed
  {
    hide ForgerFeed;
    assert "" + data == data;
  }

  lemma HandshakeFeed(env: Environment)
    ensures var l := ForgerFeed(env, Fresh(UNSTARTED), Instr(CONNECT)).0; l.policy.hs.Established? && AtBoundary(l)
  {
    ForgerConnects(env, NewCall(Fresh(UNSTARTED)));
    hide ForgerFeed, ForgerChunks, Feed, Instr;
    OneFeed(env, Instr(CONNECT));
  }

  lemma DroppedStep(env: Environment, c: Channel, r: Reader, data: string, id: string)
    requires IsEstablished(r) && !r.replayed
    ensures ReaderStep(env, c, r, Received(data, false, id)) == (r, [])
  {
  }

  lemma PipedStep(env: Environment, c: Channel, r: Reader, data: string, id: string)
    requires IsEstablished(r) && !r.replayed
    ensures var r' := ReaderStep(env, c, r, Received(data, true, id)).0;
      r'.replayed && r'.forger == r.forger && r'.handshake == r.handshake
  {
    hide AckFeed, FilterChunk, Replay;
  }

  /** The reader of a connection, and what became of its input. */
  ghost predicate Stands(env: Environment, c: Channel, events: seq<ReaderEvent>, r: Reader, h: History, browsed: seq<string>) {
    RunReader(env, c, events).0 == r && HistoryOf(env, c, events) == h && Browsed(events) == browsed
  }

  lemma StandsMore(env: Environment, c: Channel, events: seq<ReaderEvent>, r: Reader, h: History, browsed: seq<string>, e: ReaderEvent)
    requires Stands(env, c, events, r, h, browsed) && e.Received?
    ensures var r' := ReaderStep(env, c, r, e).0; Stands(env, c, events + [e], r', Noted(h, r, r', e), browsed + [e.data])
  {
    hide RunReader, HistoryOf, Browsed, ReaderStep, Noted;
    ReaderMore(env, c, events, e);
  }

  lemma StandsFirst(env: Environment, c: Channel)
    ensures Stands(env, c, [], CONNECTED, History([], [], [], []), [])
  {
  }

  /** The reader after the handshake, the dropped head and the piped rest. */
  lemma CutRunSteps(env: Environment, c: Channel)
    ensures var r := RunReader(env, c, CutRun()).0;
      && r.replayed && AtBoundary(r.forger) && r.handshake == Instr(CONNECT)
      && HistoryOf(env, c, CutRun()).dropped == [HEAD] && HistoryOf(env, c, CutRun()).piped == [TAIL]
      && Browsed(CutRun()) == [Instr(CONNECT), HEAD, TAIL]
  {
    var id := "0123456789ab";
    var x1, x2, x3 := Received(Instr(CONNECT), false, id), Received(HEAD, false, ""), Received(TAIL, true, "");
    var h0 := History([], [], [], []);
    HandshakeFeed(env);
    hide Stands, ReaderStep, Instr, ForgerFeed;
    ForgeStep(env, c, Instr(CONNECT), id);
    StandsFirst(env, c);
    StandsMore(env, c, [], CONNECTED, h0, [], x1);
    var r1 := ReaderStep(env, c, CONNECTED, x1).0;
    var h1 := Noted(h0, CONNECTED, r1, x1);
    DroppedStep(env, c, r1, HEAD, "");
    StandsMore(env, c, [] + [x1], r1, h1, [] + [Instr(CONNECT)], x2);
    var h2 := Noted(h1, r1, r1, x2);
    PipedStep(env, c, r1, TAIL, "");
    StandsMore(env, c, [] + [x1] + [x2], r1, h2, [] + [Instr(CONNECT)] + [HEAD], x3);
    var r3 := ReaderStep(env, c, r1, x3).0;
    StandsOut(env, c, CutRun(), r3, Noted(h2, r1, r3, x3), [] + [Instr(CONNECT)] + [HEAD] + [TAIL]);
  }

  lemma StandsOut(env: Environment, c: Channel, events: seq<ReaderEvent>, r: Reader, h: History, browsed: seq<string>)
    requires Stands(env, c, events, r, h, browsed)
    ensures RunReader(env, c, events).0 == r && HistoryOf(env, c, events) == h && Browsed(events) == browsed
  {
    hide RunReader, HistoryOf, Browsed;
  }

  lemma KeyText()
    ensures HEAD + TAIL == Instr(["key", "1", "1"])
  {
    assert Element("key") == "3.key" && Element("1") == "1.1" by {
      assert Numeral(3) == ['0' + 3 as char] == "3";
      assert Numeral(1) == ['0' + 1 as char] == "1";
    }
    hide Element;
    assert ["key", "1", "1"][1..] == ["1", "1"] && ["1", "1"][1..] == ["1"];
    assert Instr(["1"]) == Element("1") + ";";
    assert Instr(["1", "1"]) == Element("1") + ("," + Instr(["1"]));
    assert Instr(["key", "1", "1"]) == Element("key") + ("," + Instr(["1", "1"]));
    KeyGlue();
  }

  lemma KeyGlue()
    ensures "3.key" + ("," + ("1.1" + ("," + ("1.1" + ";")))) == HEAD + TAIL
  {
  }

  /** The browser's stream frames cleanly, the dropped part does not end at a boundary. */
  lemma CutRunFrames()
    ensures var whole := Instr(CONNECT) + HEAD + TAIL;
      && AtBoundary(NeutralLive(whole)) && AtBoundary(NeutralLive(Instr(CONNECT))) && !AtBoundary(NeutralLive(HEAD))
  {
    var l, r, key := Fresh(Collected([], [])), NewCall(Fresh(Collected([], []))), ["key", "1", "1"];
    assert WellFormed(CONNECT) && WellFormed(key);
    HeadRun(Collector(false), r);
    assert !AtBoundary(NeutralLive(HEAD));
    KeyText();
    hide Feed, Read, Instr, WellFormed;
    Assoc(Instr(CONNECT), HEAD, TAIL);
    ReadPrinted(false, l, CONNECT);
    ReadConcat(false, l, Instr(CONNECT), Instr(key));
    ReadPrinted(false, Read(false, l, Instr(CONNECT)), key);
  }

  lemma TailPassesWhole(g: Live<GuardPolicy>)
    requires AtBoundary(g)
    ensures FilterChunks(Fresh(Stateless), [TAIL]).chunks == [TAIL] && !RunChunks(GUARD, g, [TAIL]).survived
  {
    CutByApproval(g, TAIL);
    assert [TAIL][..0] == [];
    assert FilterChunks(Fresh(Stateless), []) == FilterRun(Fresh(Stateless), [], true);
    assert RunChunks(GUARD, g, []) == Chunked(g, "", [], true);
    hide Call, FilterChunk;
    assert [] + [TAIL] == [TAIL];
  }

  lemma NonEmptyTail()
    ensures NonEmpty([TAIL]) == [TAIL]
  {
    assert [TAIL][..0] == [];
  }

  /**
   * A connection on which the guard gives up although the browser's stream frames
   * cleanly, only because the approval came in the middle of one of its instructions.
   */
  lemma {:induction false} GuardGivesUp(env: Environment, c: Channel)
    ensures var (r, q) := RunReader(env, c, CutRun());
      && r.replayed && AtBoundary(r.forger) && AtBoundary(NeutralLive(Concat(Browsed(CutRun()))))
      && !AtBoundary(NeutralLive(PartsOf(env, c, CutRun()).dropped))
      && !RunChunks(GUARD, Fresh(NO_STREAM), PayloadTexts(q)).survived
  {
    CutRunSteps(env, c);
    CutRunFrames();
    ThreeTexts(Instr(CONNECT));
    OneText(c, HEAD);
    var (r, q) := RunReader(env, c, CutRun());
    var replay := PayloadTexts(Replay(c, Instr(CONNECT)));
    assert PartsOf(env, c, CutRun()).dropped == Concat([HEAD]) == HEAD;
    hide RunReader, HistoryOf, Browsed, Concat, Feed, Read, Instr, Replay, PayloadTexts, NonEmpty, RunChunks, FilterChunks, CutsAvoid, CutRun;
    QueuedTexts(env, c, CutRun());
    ReplayTexts(c, Instr(CONNECT));
    RunChunksSplit(GUARD, Fresh(NO_STREAM), replay, [TAIL]);
    NonEmptyTail();
    GuardConnects(NewCall(Fresh(NO_STREAM)));
    ChunkedIffUncut(GUARD, Fresh(NO_STREAM), replay);
    if RunChunks(GUARD, Fresh(NO_STREAM), replay).survived {
      TailPassesWhole(RunChunks(GUARD, Fresh(NO_STREAM), replay).live);
    } else {
      TailPassesWhole(Fresh(NO_STREAM));
    }
  }

  lemma ThreeTexts(s: string)
    ensures Concat([s, HEAD, TAIL]) == s + HEAD + TAIL
  {
    var all := [s, HEAD, TAIL];
    assert all[..2] == [s, HEAD] && all[..2][..1] == [s] && [s][..0] == [];
    assert Concat([s]) == s by {
      assert "" + s == s;
    }
    assert Concat([s, HEAD]) == s + HEAD by {
      assert [s, HEAD][..1] == [s];
    }
  }
}
