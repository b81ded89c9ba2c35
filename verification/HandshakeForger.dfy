/**
 * gmlbroker plays guacd towards the web server until a connection is approved:
 * it answers `select` and `connect` itself and keeps a verbatim copy of the
 * client's handshake for replay.
 */
module HandshakeForgerModule {
  import opened Framing
  import opened Instructions
  import opened Encoding
  import opened OpcodeParserModule

  datatype HandshakeState = Unestablished | ExchangingParameters | Established | InvalidHandshake

  /** The canned `args` instruction of a protocol, and the random connection ids in the order they are drawn. */
  datatype Environment = Environment(canned: string -> seq<string>, draw: nat -> string)

  datatype ForgerState = ForgerState(
    hs: HandshakeState,
    opcode: string,
    protocol: string,
    connectValues: seq<string>,
    sizeArgs: seq<string>,
    drawn: nat,
    out: string)

  const UNSTARTED := ForgerState(Unestablished, "", "", [], [], 0, "")

  /** The instructions that paint the waiting screen in the size the client asked for. */
  function ScreenInstructions(sizeArgs: seq<string>): seq<seq<string>> {
    var w := if |sizeArgs| > 0 then sizeArgs[0] else "1024";
    var h := if |sizeArgs| > 1 then sizeArgs[1] else "768";
    [["size", "0", w, h],
     ["rect", "0", "0", "0", w, h],
     ["cfill", "14", "0", "40", "40", "40", "255"],
     ["sync", "0"]]
  }

  const DENIED_INSTRUCTIONS: seq<seq<string>> :=
    [["size", "0", "1024", "768"],
     ["rect", "0", "0", "0", "1024", "768"],
     ["cfill", "14", "0", "180", "30", "30", "255"],
     ["sync", "0"],
     ["disconnect"]]

  function WaitingScreen(sizeArgs: seq<string>): string { EncodeAll(ScreenInstructions(sizeArgs)) }

  function DeniedScreen(): string { EncodeAll(DENIED_INSTRUCTIONS) }

  function ForgerArgument(p: ForgerState, e: string): ForgerState {
    if p.opcode == "select" then p.(protocol := e)
    else if p.opcode == "connect" then p.(connectValues := p.connectValues + [e])
    else if p.opcode == "size" then p.(sizeArgs := p.sizeArgs + [e])
    else p
  }

  function ForgerEnd(env: Environment, p: ForgerState): ForgerState {
    if p.opcode == "select" then
      p.(out := p.out + Instr(env.canned(p.protocol)), hs := ExchangingParameters)
    else if p.opcode == "connect" then
      p.(out := p.out + Instr(["ready", env.draw(p.drawn)]) + WaitingScreen(p.sizeArgs),
         drawn := p.drawn + 1, hs := Established)
    else p
  }

  function Forger(env: Environment): Hooks<ForgerState> {
    Hooks(
      (p: ForgerState, e: string) => (p.(opcode := e), true),
      (p: ForgerState, e: string) => (ForgerArgument(p, e), true),
      (p: ForgerState, i: nat) => ForgerEnd(env, p),
      false)
  }

  /** One chunk: the state it leaves and the reply. */
  function ForgerFeed(env: Environment, l: Live<ForgerState>, data: string): (Live<ForgerState>, string) {
    var l' := Rest(Call(Forger(env), l.(policy := l.policy.(out := "")), data));
    (if l'.cursor.Corrupted? then l'.(policy := l'.policy.(hs := InvalidHandshake)) else l', l'.policy.out)
  }

  class HandshakeForger {
    const parser: OpcodeParser<ForgerState>
    const env: Environment
    var handshakeRaw: string

    ghost predicate Valid()
      reads this, parser, parser.elementBuffer
    {
      parser.Valid() && parser.hooks == Forger(env)
    }

    constructor (env: Environment)
      ensures Valid() && fresh(parser) && fresh(parser.elementBuffer) && this.env == env
      ensures parser.LiveState() == Fresh(UNSTARTED) && handshakeRaw == ""
    {
      this.env := env;
      handshakeRaw := "";
      parser := new OpcodeParser(Forger(env), UNSTARTED);
    }

    /** Returns the bytes to write back to the web server. */
    method Feed(data: string) returns (out: string)
      requires Valid()
      modifies this`handshakeRaw, parser, parser.elementBuffer
      ensures Valid()
      ensures (parser.LiveState(), out) == ForgerFeed(env, old(parser.LiveState()), data)
      ensures handshakeRaw == old(handshakeRaw) + data
    {
      parser.policy := parser.policy.(out := "");
      handshakeRaw := handshakeRaw + data;
      var _ := parser.Parse(data);
      if parser.state.StreamCorrupted? {
        parser.policy := parser.policy.(hs := InvalidHandshake);
      }
      return parser.policy.out;
    }
  }

  /** The forger over a list of chunks: where it is, all it replied, and what it kept for replay. */
  datatype Session = Session(live: Live<ForgerState>, replies: string, raw: string)

  function ForgerChunks(env: Environment, chunks: seq<string>): Session {
    if chunks == [] then Session(Fresh(UNSTARTED), "", "") else
    var s := ForgerChunks(env, chunks[..|chunks| - 1]);
    var last := chunks[|chunks| - 1];
    var (l, out) := ForgerFeed(env, s.live, last);
    Session(l, s.replies + out, s.raw + last)
  }

  // ---- The handshake as a conversation in instructions

  /** Both sides of the conversation after some instructions of the client. */
  datatype Talk = Talk(
    hs: HandshakeState,
    protocol: string,
    connectValues: seq<string>,
    sizeArgs: seq<string>,
    drawn: nat,
    replies: seq<seq<string>>)

  /** The arguments of one instruction, complete or not. */
  function Heard(t: Talk, elems: seq<string>): Talk
    requires elems != []
  {
    if elems[0] == "select" then (if |elems| == 1 then t else t.(protocol := elems[|elems| - 1]))
    else if elems[0] == "connect" then t.(connectValues := t.connectValues + elems[1..])
    else if elems[0] == "size" then t.(sizeArgs := t.sizeArgs + elems[1..])
    else t
  }

  /** The reply to one complete instruction. */
  function Replied(env: Environment, t: Talk, elems: seq<string>): Talk
    requires elems != []
  {
    var u := Heard(t, elems);
    if elems[0] == "select" then
      u.(hs := ExchangingParameters, replies := u.replies + [env.canned(u.protocol)])
    else if elems[0] == "connect" then
      u.(hs := Established, drawn := u.drawn + 1,
         replies := u.replies + [["ready", env.draw(u.drawn)]] + ScreenInstructions(u.sizeArgs))
    else u
  }

  function Conversation(env: Environment, instrs: seq<seq<string>>): Talk
    requires forall k :: 0 <= k < |instrs| ==> instrs[k] != []
  {
    if instrs == [] then Talk(Unestablished, "", [], [], 0, [])
    else Replied(env, Conversation(env, instrs[..|instrs| - 1]), instrs[|instrs| - 1])
  }

  // ---- The forger holds that conversation

  predicate Delivered(n: Collected) {
    && (forall k :: 0 <= k < |n.done| ==> WellFormed(n.done[k]))
    && (n.current == [] || WellFormed(n.current))
  }

  function TalkSoFar(env: Environment, n: Collected): Talk
    requires Delivered(n)
  {
    var t := Conversation(env, n.done);
    if n.current == [] then t else Heard(t, n.current)
  }

  /** What the forger has stored and, `before` this chunk and in it, replied agrees with the conversation `t`. */
  ghost predicate Speaks(p: ForgerState, t: Talk, before: string) {
    && p.protocol == t.protocol && p.connectValues == t.connectValues
    && p.sizeArgs == t.sizeArgs && p.drawn == t.drawn
    && before + p.out == EncodeAll(t.replies)
  }

  /** The neutral framer over the whole stream and the forger over the current chunk. */
  ghost predicate Together(env: Environment, x: Run<Collected>, y: Run<ForgerState>, before: string) {
    && Framed(false, x.live.cursor) && x.live.cursor == y.live.cursor && x.live.opcode == y.live.opcode
    && !x.denying && !y.denying
    && (x.live.cursor.Corrupted? || (x.live.opcode <==> x.live.policy.current == []))
    && Delivered(x.live.policy)
    && Speaks(y.live.policy, TalkSoFar(env, x.live.policy), before)
    && (!x.live.cursor.Corrupted? ==>
          && y.live.policy.hs == TalkSoFar(env, x.live.policy).hs
          && (!x.live.opcode ==> y.live.policy.opcode == x.live.policy.current[0]))
  }

  lemma HeardMore(t: Talk, elems: seq<string>, e: string, p: ForgerState, before: string)
    requires elems != [] && p.opcode == elems[0] && Speaks(p, Heard(t, elems), before) && p.hs == Heard(t, elems).hs
    ensures var q := ForgerArgument(p, e);
      && Speaks(q, Heard(t, elems + [e]), before) && q.hs == Heard(t, elems + [e]).hs && q.opcode == p.opcode
  {
    var more := elems + [e];
    assert more[1..] == elems[1..] + [e] && more[|more| - 1] == e;
    Assoc(t.connectValues, elems[1..], [e]);
    Assoc(t.sizeArgs, elems[1..], [e]);
    hide EncodeAll;
  }

  lemma HeardOne(t: Talk, e: string)
    ensures Heard(t, [e]) == t
  {
    assert t.connectValues + [] == t.connectValues && t.sizeArgs + [] == t.sizeArgs;
  }

  lemma EncodeMore(before: string, out: string, replies: seq<seq<string>>, more: seq<seq<string>>)
    requires before + out == EncodeAll(replies)
    ensures before + (out + EncodeAll(more)) == EncodeAll(replies + more)
  {
    EncodeAllSplit(replies, more);
  }

  lemma EncodeOne(i: seq<string>)
    ensures EncodeAll([i]) == Instr(i)
  {
    assert [i][1..] == [];
    assert Instr(i) + "" == Instr(i);
  }

  lemma RepliesMore(env: Environment, t: Talk, elems: seq<string>, p: ForgerState, before: string)
    requires elems != [] && p.opcode == elems[0] && Speaks(p, Heard(t, elems), before) && p.hs == Heard(t, elems).hs
    ensures var q := ForgerEnd(env, p);
      Speaks(q, Replied(env, t, elems), before) && q.hs == Replied(env, t, elems).hs
  {
    var u := Heard(t, elems);
    hide EncodeAll, Instr, Heard, ScreenInstructions;
    if p.opcode == "select" {
      EncodeOne(env.canned(u.protocol));
      EncodeMore(before, p.out, u.replies, [env.canned(u.protocol)]);
    } else if p.opcode == "connect" {
      var ready, screen := ["ready", env.draw(u.drawn)], ScreenInstructions(u.sizeArgs);
      EncodeOne(ready);
      EncodeMore(before, p.out, u.replies, [ready]);
      EncodeMore(before, p.out + Instr(ready), u.replies + [ready], screen);
    }
  }

  lemma JudgeTogether(env: Environment, x: Run<Collected>, y: Run<ForgerState>, before: string, elem: string)
    requires Together(env, x, y, before) && x.live.cursor == Delim(elem)
    ensures var x', y' := Judge(Collector(false), x, elem), Judge(Forger(env), y, elem);
      Together(env, x'.(live := x'.live.(cursor := Start)), y'.(live := y'.live.(cursor := Start)), before)
    ensures var x', y' := Judge(Collector(false), x, elem), Judge(Forger(env), y, elem);
      && x'.live.cursor == Delim(elem) == y'.live.cursor && !x'.live.opcode && !y'.live.opcode
  {
    var n := x.live.policy;
    var t := Conversation(env, n.done);
    hide EncodeAll, Instr, Replied, Conversation;
    if x.live.opcode {
      HeardOne(t, elem);
    } else {
      HeardMore(t, n.current, elem, y.live.policy, before);
      ElementsMore(n.current, elem);
      hide Heard, ForgerArgument;
    }
  }

  lemma ElementsMore(elems: seq<string>, e: string)
    requires WellFormed(elems) && |e| <= MAX_ELEMENT && Ascii(e)
    ensures WellFormed(elems + [e])
  {
    forall i | 0 <= i < |elems + [e]| ensures |(elems + [e])[i]| <= MAX_ELEMENT && Ascii((elems + [e])[i]) {
      assert i < |elems| ==> (elems + [e])[i] == elems[i];
    }
  }

  lemma CloseTogether(env: Environment, x: Run<Collected>, y: Run<ForgerState>, before: string, c: char)
    requires x.live.cursor.Delim? && y.live.cursor.Delim? && !x.live.opcode && !y.live.opcode
    requires Together(env, x.(live := x.live.(cursor := Start)), y.(live := y.live.(cursor := Start)), before)
    ensures Together(env, Close(Collector(false), x, c), Close(Forger(env), y, c), before)
  {
    var n := x.live.policy;
    if c == ';' {
      RepliesMore(env, Conversation(env, n.done), n.current, y.live.policy, before);
      assert (n.done + [n.current])[..|n.done|] == n.done;
      hide EncodeAll, Instr, Heard, Replied, ForgerEnd;
    }
  }

  /** A byte that closes no element. */
  lemma AdvanceTogether(env: Environment, x: Run<Collected>, y: Run<ForgerState>, before: string, c: char)
    requires Together(env, x, y, before) && !(x.live.cursor.Delim? && (c == ',' || c == ';'))
    ensures Together(env, Step(Collector(false), x, c), Step(Forger(env), y, c), before)
  {
    Intolerant(env);
    if x.live.cursor.Start? || x.live.cursor.Length? || x.live.cursor.Data? {
      AdvanceFramed(x.live.cursor, c);
    }
    hide Judge, Close, Speaks, Delivered, TalkSoFar, Collector, Forger, Advance, Framed;
  }

  lemma AdvanceFramed(k: Cursor, c: char)
    requires Framed(false, k) && (k.Start? || k.Length? || k.Data?)
    ensures Framed(false, Advance(false, k, c))
    ensures !Advance(false, k, c).Start?
  {
  }

  lemma Intolerant(env: Environment)
    ensures !Collector(false).tolerant && !Forger(env).tolerant
  {
  }

  lemma StepTogether(env: Environment, x: Run<Collected>, y: Run<ForgerState>, before: string, c: char)
    requires Together(env, x, y, before)
    ensures Together(env, Step(Collector(false), x, c), Step(Forger(env), y, c), before)
  {
    if x.live.cursor.Delim? && (c == ',' || c == ';') {
      var e := x.live.cursor.elem;
      JudgeTogether(env, x, y, before, e);
      CloseTogether(env, Judge(Collector(false), x, e), Judge(Forger(env), y, e), before, c);
      assert y.live.cursor == Delim(e);
      hide Judge, Close, Together, Collector, Forger;
    } else {
      hide *;
      AdvanceTogether(env, x, y, before, c);
    }
  }

  lemma {:induction false} FeedTogether(env: Environment, x: Run<Collected>, y: Run<ForgerState>, before: string, s: string)
    requires Together(env, x, y, before)
    ensures Together(env, Feed(Collector(false), x, s), Feed(Forger(env), y, s), before)
  {
    if s != "" {
      FeedTogether(env, x, y, before, s[..|s| - 1]);
      StepTogether(env, Feed(Collector(false), x, s[..|s| - 1]), Feed(Forger(env), y, s[..|s| - 1]), before, s[|s| - 1]);
      hide Together, Step;
    }
  }

  function NeutralCall(s: string): Run<Collected> { Call(Collector(false), Fresh(Collected([], [])), s) }

  function Cleared(l: Live<ForgerState>): Live<ForgerState> { l.(policy := l.policy.(out := "")) }

  /** The session after `s` is the conversation over the instructions the framer completed in `s`. */
  ghost predicate Held(env: Environment, w: Session, s: string) {
    && w.raw == s
    && Together(env, NeutralCall(s), NewCall(Cleared(w.live)), w.replies)
    && (w.live.cursor.Corrupted? ==> w.live.policy.hs == InvalidHandshake)
  }

  lemma ChunkHeld(env: Environment, w: Session, s: string, chunk: string)
    requires Held(env, w, s)
    ensures var (l, out) := ForgerFeed(env, w.live, chunk);
      Held(env, Session(l, w.replies + out, w.raw + chunk), s + chunk)
  {
    FeedConcat(Collector(false), NewCall(Fresh(Collected([], []))), s, chunk);
    hide Feed, TalkSoFar, Delivered;
    var x, y := NeutralCall(s), NewCall(Cleared(w.live));
    FeedTogether(env, x, y, w.replies, chunk);
    var q := Feed(Forger(env), y, chunk).live;
    assert w.replies + q.policy.out + "" == w.replies + q.policy.out;
  }

  lemma {:induction false} ChunksHeld(env: Environment, chunks: seq<string>)
    ensures Held(env, ForgerChunks(env, chunks), Concat(chunks))
  {
    if chunks != [] {
      ChunksHeld(env, chunks[..|chunks| - 1]);
      hide Held, ForgerFeed;
      ChunkHeld(env, ForgerChunks(env, chunks[..|chunks| - 1]), Concat(chunks[..|chunks| - 1]), chunks[|chunks| - 1]);
    }
  }

  /**
   * However the client's handshake is cut: the bytes kept for replay are the
   * stream itself, and the replies are those of the conversation over the
   * instructions the framer completes in it. The stored values are the
   * conversation's where no instruction is open.
   */
  lemma {:induction false} ForgerConverses(env: Environment, chunks: seq<string>)
    ensures var w, x := ForgerChunks(env, chunks), NeutralCall(Concat(chunks)).live;
      && w.raw == Concat(chunks)
      && Delivered(x.policy)
      && var t := Conversation(env, x.policy.done);
         && w.replies == EncodeAll(t.replies)
         && w.live.policy.hs == (if x.cursor.Corrupted? then InvalidHandshake else t.hs)
         && (AtBoundary(x) ==>
               && w.live.policy.protocol == t.protocol
               && w.live.policy.connectValues == t.connectValues
               && w.live.policy.sizeArgs == t.sizeArgs)
  {
    ChunksHeld(env, chunks);
    var w := ForgerChunks(env, chunks);
    hide Feed, ForgerChunks, EncodeAll, Conversation;
    assert w.replies + "" == w.replies;
  }

  // ---- What the forger sends parses

  /** From any boundary, and whatever the hooks, printed instructions lead to a boundary. */
  lemma {:induction false} PrintedBoundary<P>(h: Hooks<P>, r: Run<P>, instrs: seq<seq<string>>)
    requires Boundary(r) && forall k :: 0 <= k < |instrs| ==> WellFormed(instrs[k])
    ensures Boundary(Feed(h, r, EncodeAll(instrs)))
    decreases |instrs|
  {
    if instrs == [] {
      hide WellFormed;
    } else {
      hide Feed, WellFormed, Instr, Boundary, Closed;
      OnePrinted(h, r, instrs[0]);
      FeedConcat(h, r, Instr(instrs[0]), EncodeAll(instrs[1..]));
      PrintedBoundary(h, Feed(h, r, Instr(instrs[0])), instrs[1..]);
    }
  }

  lemma OnePrinted<P>(h: Hooks<P>, r: Run<P>, i: seq<string>)
    requires Boundary(r) && WellFormed(i)
    ensures Closed(h, r, i, Feed(h, r, Instr(i)), Instr(i)) && Boundary(Feed(h, r, Instr(i)))
  {
    assert Fits(i) && AsciiElems(i);
    hide Feed, Instr, WellFormed;
    RunPrinted(h, r, [], r, "", i);
    assert [] + i == i && "" + Instr(i) == Instr(i);
  }

  lemma OneRead(r: Run<Collected>, i: seq<string>)
    requires Boundary(r) && WellFormed(i)
    ensures var q := Feed(Collector(false), r, Instr(i));
      Boundary(q) && q.live.policy == Collected([], r.live.policy.done + [i])
  {
    hide Feed, Instr, WellFormed, Verdict;
    OnePrinted(Collector(false), r, i);
    CollectorVerdict(false, r.live.policy, i);
  }

  lemma Regroup<T>(done: seq<T>, later: seq<T>)
    ensures if later == [] then done + later == done else done + later == done + [later[0]] + later[1..]
  {
  }

  /** The neutral framer reads printed instructions back. */
  lemma {:induction false} ReadBack(r: Run<Collected>, instrs: seq<seq<string>>)
    requires Boundary(r) && r.live.policy.current == []
    requires forall k :: 0 <= k < |instrs| ==> WellFormed(instrs[k])
    ensures var q := Feed(Collector(false), r, EncodeAll(instrs));
      Boundary(q) && q.live.policy == Collected([], r.live.policy.done + instrs)
    decreases |instrs|
  {
    hide WellFormed, Instr, Boundary;
    Regroup(r.live.policy.done, instrs);
    if instrs != [] {
      hide Feed;
      var i, later := instrs[0], instrs[1..];
      var q := Feed(Collector(false), r, Instr(i));
      OneRead(r, i);
      FeedConcat(Collector(false), r, Instr(i), EncodeAll(later));
      ReadBack(q, later);
    }
  }

  lemma ReadFresh(instrs: seq<seq<string>>)
    requires forall k :: 0 <= k < |instrs| ==> WellFormed(instrs[k])
    ensures NeutralCall(EncodeAll(instrs)).live == Fresh(Collected([], instrs))
  {
    hide Feed, EncodeAll, WellFormed;
    ReadBack(NewCall(Fresh(Collected([], []))), instrs);
    assert [] + instrs == instrs;
  }

  /** Every stored argument came through the framer. */
  predicate Sized(t: Talk) { forall i :: 0 <= i < |t.sizeArgs| ==> |t.sizeArgs[i]| <= MAX_ELEMENT && Ascii(t.sizeArgs[i]) }

  predicate Speakable(env: Environment, t: Talk) { Sized(t) && forall k :: 0 <= k < |t.replies| ==> WellFormed(t.replies[k]) }

  /** The constants and ids the forger is built with can be printed. */
  ghost predicate Printable(env: Environment) {
    && (forall p: string :: WellFormed(env.canned(p)))
    && (forall i: nat :: |env.draw(i)| <= MAX_ELEMENT && Ascii(env.draw(i)))
  }

  lemma HeardSized(t: Talk, elems: seq<string>)
    requires Sized(t) && WellFormed(elems)
    ensures Sized(Heard(t, elems)) && Heard(t, elems).replies == t.replies
  {
  }

  lemma ScreenWellFormed(sizeArgs: seq<string>)
    requires forall i :: 0 <= i < |sizeArgs| ==> |sizeArgs[i]| <= MAX_ELEMENT && Ascii(sizeArgs[i])
    ensures forall k :: 0 <= k < 4 ==> WellFormed(ScreenInstructions(sizeArgs)[k])
  {
  }

  lemma ReadyWellFormed(env: Environment, i: nat)
    ensures Printable(env) ==> WellFormed(["ready", env.draw(i)])
  {
  }

  lemma {:induction false} ConversationSized(env: Environment, instrs: seq<seq<string>>)
    requires forall k :: 0 <= k < |instrs| ==> instrs[k] != [] && WellFormed(instrs[k])
    ensures Sized(Conversation(env, instrs))
    ensures Printable(env) ==> Speakable(env, Conversation(env, instrs))
  {
    if instrs != [] {
      var t, last := Conversation(env, instrs[..|instrs| - 1]), instrs[|instrs| - 1];
      ConversationSized(env, instrs[..|instrs| - 1]);
      HeardSized(t, last);
      ScreenWellFormed(Heard(t, last).sizeArgs);
      ReadyWellFormed(env, Heard(t, last).drawn);
      hide Heard, ScreenInstructions, WellFormed;
    }
  }

  /**
   * Whatever the client sends, the waiting screen built from the size arguments
   * stored so far is handed back by the framer as its four instructions, and
   * brings any parser that is at a boundary to a boundary.
   */
  lemma {:induction false} WaitingScreenReparses<P>(env: Environment, chunks: seq<string>, h: Hooks<P>, r: Run<P>)
    requires Boundary(r)
    ensures var sizeArgs := ForgerChunks(env, chunks).live.policy.sizeArgs;
      && Boundary(Feed(h, r, WaitingScreen(sizeArgs)))
      && NeutralCall(WaitingScreen(sizeArgs)).live == Fresh(Collected([], ScreenInstructions(sizeArgs)))
  {
    ChunksHeld(env, chunks);
    var n := NeutralCall(Concat(chunks)).live.policy;
    ConversationSized(env, n.done);
    if n.current != [] {
      HeardSized(Conversation(env, n.done), n.current);
    }
    var sizeArgs := ForgerChunks(env, chunks).live.policy.sizeArgs;
    ScreenWellFormed(sizeArgs);
    var screen := ScreenInstructions(sizeArgs);
    hide Feed, ForgerChunks, EncodeAll, Conversation, Heard, ScreenInstructions, WellFormed;
    PrintedBoundary(h, r, screen);
    ReadFresh(screen);
  }

  lemma DeniedWellFormed()
    ensures forall k :: 0 <= k < |DENIED_INSTRUCTIONS| ==> WellFormed(DENIED_INSTRUCTIONS[k])
  {
  }

  lemma {:induction false} DeniedScreenReparses<P>(h: Hooks<P>, r: Run<P>)
    requires Boundary(r)
    ensures Boundary(Feed(h, r, DeniedScreen()))
    ensures NeutralCall(DeniedScreen()).live == Fresh(Collected([], DENIED_INSTRUCTIONS))
  {
    hide Feed, EncodeAll, WellFormed, Boundary;
    DeniedWellFormed();
    PrintedBoundary(h, r, DENIED_INSTRUCTIONS);
    ReadFresh(DENIED_INSTRUCTIONS);
  }

  /** All the forger ever replies reads back as exactly the conversation's replies. */
  lemma {:induction false} RepliesReadBack(env: Environment, chunks: seq<string>)
    requires Printable(env)
    ensures var w, x := ForgerChunks(env, chunks), NeutralCall(Concat(chunks)).live;
      && Delivered(x.policy)
      && NeutralCall(w.replies).live == Fresh(Collected([], Conversation(env, x.policy.done).replies))
  {
    ForgerConverses(env, chunks);
    var x := NeutralCall(Concat(chunks)).live;
    ConversationSized(env, x.policy.done);
    var replies := Conversation(env, x.policy.done).replies;
    hide Feed, ForgerChunks, EncodeAll, Conversation, WellFormed;
    ReadFresh(replies);
  }

  // ---- What the conversation says, in terms of what the client has sent

  /** The arguments of all `size` instructions, in order. */
  function SizesSent(instrs: seq<seq<string>>): seq<string>
    requires forall k :: 0 <= k < |instrs| ==> instrs[k] != []
  {
    if instrs == [] then [] else
    var last := instrs[|instrs| - 1];
    SizesSent(instrs[..|instrs| - 1]) + if last[0] == "size" then last[1..] else []
  }

  /** How many connects the client has sent. */
  function Connects(instrs: seq<seq<string>>): nat
    requires forall k :: 0 <= k < |instrs| ==> instrs[k] != []
  {
    if instrs == [] then 0 else
    Connects(instrs[..|instrs| - 1]) + if instrs[|instrs| - 1][0] == "connect" then 1 else 0
  }

  /** The last argument of the latest `select` that has any. */
  function ProtocolAsked(instrs: seq<seq<string>>): string
    requires forall k :: 0 <= k < |instrs| ==> instrs[k] != []
  {
    if instrs == [] then "" else
    var last := instrs[|instrs| - 1];
    if last[0] == "select" && |last| > 1 then last[|last| - 1] else ProtocolAsked(instrs[..|instrs| - 1])
  }

  lemma {:induction false} ConversationRemembers(env: Environment, instrs: seq<seq<string>>)
    requires forall k :: 0 <= k < |instrs| ==> instrs[k] != []
    ensures var t := Conversation(env, instrs);
      t.sizeArgs == SizesSent(instrs) && t.drawn == Connects(instrs) && t.protocol == ProtocolAsked(instrs)
  {
    if instrs != [] {
      ConversationRemembers(env, instrs[..|instrs| - 1]);
      var t := Conversation(env, instrs[..|instrs| - 1]);
      hide ScreenInstructions;
      assert t.sizeArgs + [] == t.sizeArgs;
    }
  }

  /**
   * Each `select` is answered with the canned arguments of the protocol it or an
   * earlier one names; each `connect` with a `ready` under the next id, and a screen
   * as wide and as high as the first two size arguments say, 1024 by 768 where they
   * are missing, that is one grey rectangle; nothing else is answered.
   */
  lemma {:induction false} InstructionsAnswered(env: Environment, instrs: seq<seq<string>>)
    requires instrs != [] && forall k :: 0 <= k < |instrs| ==> instrs[k] != []
    ensures var init, op := instrs[..|instrs| - 1], instrs[|instrs| - 1][0];
      var args := SizesSent(instrs);
      var w, h := if |args| >= 1 then args[0] else "1024", if |args| >= 2 then args[1] else "768";
      Conversation(env, instrs).replies == Conversation(env, init).replies +
        if op == "select" then [env.canned(ProtocolAsked(instrs))]
        else if op == "connect" then
          [["ready", env.draw(Connects(init))],
           ["size", "0", w, h], ["rect", "0", "0", "0", w, h], ["cfill", "14", "0", "40", "40", "40", "255"], ["sync", "0"]]
        else []
  {
    var init, last := instrs[..|instrs| - 1], instrs[|instrs| - 1];
    var t := Conversation(env, init);
    var u := Heard(t, last);
    ConversationRemembers(env, instrs);
    ConversationRemembers(env, init);
    assert u.replies == t.replies && u.drawn == t.drawn;
    assert Replied(env, t, last).sizeArgs == u.sizeArgs && Replied(env, t, last).protocol == u.protocol;
    hide Heard, Conversation;
    if last[0] == "connect" {
      AnswerJoined(t.replies, ["ready", env.draw(u.drawn)], ScreenInstructions(u.sizeArgs));
    } else if last[0] != "select" {
      assert t.replies + [] == t.replies;
    }
  }

  lemma AnswerJoined(replies: seq<seq<string>>, ready: seq<string>, screen: seq<seq<string>>)
    requires |screen| == 4
    ensures replies + [ready] + screen == replies + [ready, screen[0], screen[1], screen[2], screen[3]]
  {
  }
}
