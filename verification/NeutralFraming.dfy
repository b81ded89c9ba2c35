/**
 * The neutral framer as a function of its live state: what it has read, and where
 * it stands, after some more bytes.
 */
module NeutralFraming {
  import opened Framing
  import opened Decimal
  import opened Chunking
  import opened Instructions
  import opened Encoding
  import opened Observer

  /** The neutral framer after `s`, from any live state. */
  function Read(tolerant: bool, l: Live<Collected>, s: string): Live<Collected> { Feed(Collector(tolerant), NewCall(l), s).live }

  function ReadAll(tolerant: bool, s: string): Live<Collected> { Read(tolerant, Fresh(Collected([], [])), s) }

  /** With the guard's tolerance: none. */
  function NeutralLive(s: string): Live<Collected> { ReadAll(false, s) }

  lemma NeutralNeverDenies(tolerant: bool)
    ensures NeverDenies(Collector(tolerant)) && IndexFree(Collector(tolerant))
  {
  }

  /** Only the live part of a call matters. */
  lemma {:induction false} FeedReads(tolerant: bool, r: Run<Collected>, s: string)
    requires !r.denying
    ensures Feed(Collector(tolerant), r, s).live == Read(tolerant, r.live, s) && !Feed(Collector(tolerant), r, s).denying
    decreases |s|
  {
    if s != "" {
      var t, c := s[..|s| - 1], s[|s| - 1];
      var h, x, y := Collector(tolerant), Feed(Collector(tolerant), r, t), Feed(Collector(tolerant), NewCall(r.live), t);
      FeedReads(tolerant, r, t);
      FeedReads(tolerant, NewCall(r.live), t);
      NeutralNeverDenies(false);
      hide Feed, Step, Collector, NeverDenies, IndexFree;
      assert Feed(h, r, s) == Step(h, x, c) && Feed(h, NewCall(r.live), s) == Step(h, y, c) by { FeedEnd(h, r, s); FeedEnd(h, NewCall(r.live), s); }
      if x.live.cursor.Corrupted? {
        StepCorrupted(h, x, c);
        StepCorrupted(h, y, c);
      } else {
        StepLive(h, x, c);
        StepLive(h, y, c);
      }
    }
  }

  lemma FeedEnd<P>(h: Hooks<P>, r: Run<P>, s: string)
    requires s != ""
    ensures Feed(h, r, s) == Step(h, Feed(h, r, s[..|s| - 1]), s[|s| - 1])
  {
  }

  lemma {:induction false} ReadConcat(tolerant: bool, l: Live<Collected>, a: string, b: string)
    ensures Read(tolerant, l, a + b) == Read(tolerant, Read(tolerant, l, a), b)
  {
    FeedConcat(Collector(tolerant), NewCall(l), a, b);
    FeedReads(tolerant, NewCall(l), a);
    FeedReads(tolerant, Feed(Collector(tolerant), NewCall(l), a), b);
  }

  lemma ReadOne(tolerant: bool, l: Live<Collected>, c: char)
    ensures Read(tolerant, l, [c]) == Step(Collector(tolerant), NewCall(l), c).live
  {
    FeedEnd(Collector(tolerant), NewCall(l), [c]);
    assert [c][..0] == "";
    assert Feed(Collector(tolerant), NewCall(l), "") == NewCall(l);
  }

  lemma ReadCorrupted(tolerant: bool, l: Live<Collected>, s: string)
    requires l.cursor.Corrupted?
    ensures Read(tolerant, l, s) == l
  {
    FeedCorrupted(Collector(tolerant), NewCall(l), s);
  }

  /** What every state satisfies that the neutral framer reaches from a fresh one. */
  ghost predicate Reachable(tolerant: bool, l: Live<Collected>) {
    && Framed(tolerant, l.cursor) && (!l.opcode ==> l.policy.current != [])
    && (l.opcode && !l.cursor.Corrupted? ==> l.policy.current == [])
  }

  lemma StepReachable(tolerant: bool, l: Live<Collected>, c: char)
    requires Reachable(tolerant, l)
    ensures Reachable(tolerant, Step(Collector(tolerant), NewCall(l), c).live)
  {
  }

  lemma {:induction false} ReadReachable(tolerant: bool, l: Live<Collected>, s: string)
    requires Reachable(tolerant, l)
    ensures Reachable(tolerant, Read(tolerant, l, s))
  {
    if s == "" {
      assert Read(tolerant, l, "") == l;
    } else {
      var t, c := s[..|s| - 1], s[|s| - 1];
      ReadReachable(tolerant, l, t);
      ReadConcat(tolerant, l, t, [c]);
      assert s == t + [c];
      hide Read, Reachable;
      ReadOne(tolerant, Read(tolerant, l, t), c);
      StepReachable(tolerant, Read(tolerant, l, t), c);
    }
  }

  /** The elements of the instruction in progress, as far as they are complete. */
  function Elements(l: Live<Collected>): seq<string> { if l.opcode then [] else l.policy.current }

  /** A complete element and its delimiter. */
  lemma ReadDelim(tolerant: bool, l: Live<Collected>, c: char)
    requires l.cursor.Delim? && (c == ',' || c == ';')
    ensures Read(tolerant, l, [c]) ==
      var es := Elements(l) + [l.cursor.elem];
      if c == ',' then Live(Start, false, Collected(es, l.policy.done))
      else Live(Start, true, Collected([], l.policy.done + [es]))
  {
    ReadOne(tolerant, l, c);
    assert [] + [l.cursor.elem] == [l.cursor.elem];
  }

  lemma {:induction false} ReadPrintedElement(tolerant: bool, l: Live<Collected>, e: string, c: char)
    requires l.cursor.Start? && |e| <= MAX_ELEMENT && Ascii(e) && (c == ',' || c == ';')
    ensures Read(tolerant, l, Element(e) + [c]) ==
      var es := Elements(l) + [e];
      if c == ',' then Live(Start, false, Collected(es, l.policy.done))
      else Live(Start, true, Collected([], l.policy.done + [es]))
  {
    ElementRun(Collector(tolerant), NewCall(l), Numeral(|e|), e);
    assert Read(tolerant, l, Element(e)) == l.(cursor := Delim(e));
    hide Read, Element;
    ReadConcat(tolerant, l, Element(e), [c]);
    ReadDelim(tolerant, l.(cursor := Delim(e)), c);
  }

  /** A printed instruction, or the rest of one, completes the instruction in progress. */
  lemma {:induction false} ReadPrinted(tolerant: bool, l: Live<Collected>, es: seq<string>)
    requires l.cursor.Start? && WellFormed(es)
    ensures Read(tolerant, l, Instr(es)) == Fresh(Collected([], l.policy.done + [Elements(l) + es]))
    decreases |es|
  {
    var e, c := es[0], Separator(es);
    PrintedHead(es);
    hide Read, Element, Instr, WellFormed;
    ReadPrintedElement(tolerant, l, e, c);
    if |es| > 1 {
      ReadConcat(tolerant, l, Element(e) + [c], Instr(es[1..]));
      ReadPrinted(tolerant, Live(Start, false, Collected(Elements(l) + [e], l.policy.done)), es[1..]);
      Assoc(Elements(l), [e], es[1..]);
    }
  }

  /** A printed instruction by its first element. */
  lemma PrintedHead(es: seq<string>)
    requires WellFormed(es)
    ensures |es[0]| <= MAX_ELEMENT && Ascii(es[0]) && es == [es[0]] + es[1..]
    ensures Separator(es) == if |es| == 1 then ';' else ','
    ensures Instr(es) == Element(es[0]) + [Separator(es)] + Instr(es[1..])
    ensures |es| == 1 ==> es == [es[0]] && Instr(es) == Element(es[0]) + [Separator(es)]
    ensures |es| > 1 ==> WellFormed(es[1..])
  {
    FitsTail(es);
    InstrHead(es);
    hide Element, Ascii;
    var head := Element(es[0]) + [Separator(es)];
    assert head + "" == head;
  }

  /** Value bytes, up to the declared length. */
  ghost predicate InValue(l: Live<Collected>, n: nat, q: Live<Collected>)
    requires l.cursor.Data?
  {
    || q.cursor.Corrupted?
    || (q == l.(cursor := q.cursor)
        && if l.cursor.read + n < l.cursor.len
           then q.cursor.Data? && q.cursor.len == l.cursor.len && q.cursor.read == l.cursor.read + n
           else q.cursor.Delim? && |q.cursor.elem| == if l.cursor.len < MAX_ELEMENT then l.cursor.len else MAX_ELEMENT)
  }

  lemma StepInValue(tolerant: bool, l: Live<Collected>, n: nat, q: Live<Collected>, c: char)
    requires l.cursor.Data? && l.cursor.read + n < l.cursor.len && InValue(l, n, q) && Framed(tolerant, q.cursor)
    ensures InValue(l, n + 1, Step(Collector(tolerant), NewCall(q), c).live)
  {
  }

  lemma {:induction false} ReadValue(tolerant: bool, l: Live<Collected>, t: string)
    requires l.cursor.Data? && Reachable(tolerant, l) && |t| <= l.cursor.len - l.cursor.read
    ensures InValue(l, |t|, Read(tolerant, l, t))
  {
    if t == "" {
      assert Read(tolerant, l, "") == l;
    } else {
      var u, c := t[..|t| - 1], t[|t| - 1];
      assert t == u + [c];
      ReadValue(tolerant, l, u);
      ReadReachable(tolerant, l, u);
      hide Read, InValue;
      ReadConcat(tolerant, l, u, [c]);
      ReadOne(tolerant, Read(tolerant, l, u), c);
      StepInValue(tolerant, l, |u|, Read(tolerant, l, u), c);
    }
  }

  /** The same state, with other instructions read before. */
  function Behind(before: seq<seq<string>>, l: Live<Collected>): Live<Collected> {
    l.(policy := l.policy.(done := before + l.policy.done))
  }

  lemma StepBehind(tolerant: bool, before: seq<seq<string>>, l: Live<Collected>, c: char)
    ensures Step(Collector(tolerant), NewCall(Behind(before, l)), c).live == Behind(before, Step(Collector(tolerant), NewCall(l), c).live)
  {
    if l.cursor.Delim? {
      var es := if l.opcode then [l.cursor.elem] else l.policy.current + [l.cursor.elem];
      Assoc(before, l.policy.done, [es]);
    }
  }

  /** What is read does not depend on what was read before. */
  lemma {:induction false} ReadBehind(tolerant: bool, before: seq<seq<string>>, l: Live<Collected>, s: string)
    ensures Read(tolerant, Behind(before, l), s) == Behind(before, Read(tolerant, l, s))
  {
    if s == "" {
      assert Read(tolerant, l, "") == l && Read(tolerant, Behind(before, l), "") == Behind(before, l);
    } else {
      var t, c := s[..|s| - 1], s[|s| - 1];
      assert s == t + [c];
      hide Read, Behind;
      ReadBehind(tolerant, before, l, t);
      ReadConcat(tolerant, l, t, [c]);
      ReadConcat(tolerant, Behind(before, l), t, [c]);
      ReadOne(tolerant, Read(tolerant, l, t), c);
      ReadOne(tolerant, Behind(before, Read(tolerant, l, t)), c);
      StepBehind(tolerant, before, Read(tolerant, l, t), c);
    }
  }

  /** Behind a boundary the framer reads as from the beginning. */
  lemma {:induction false} ReadsOn(tolerant: bool, s: string, t: string)
    requires AtBoundary(ReadAll(tolerant, s))
    ensures ReadAll(tolerant, s + t) == Behind(ReadAll(tolerant, s).policy.done, ReadAll(tolerant, t))
  {
    var l := Fresh(Collected([], []));
    ReadConcat(tolerant, l, s, t);
    ReadReachable(tolerant, l, s);
    assert ReadAll(tolerant, s) == Behind(ReadAll(tolerant, s).policy.done, l) by {
      assert ReadAll(tolerant, s).policy.done + [] == ReadAll(tolerant, s).policy.done;
    }
    hide Read;
    ReadBehind(tolerant, ReadAll(tolerant, s).policy.done, l, t);
  }

  // ---- Streams that frame

  /** A call that saw the current instruction begin. */
  predicate Began<P>(r: Run<P>) { !r.live.cursor.Corrupted? && (r.start >= 0 || AtBoundary(r.live)) }

  lemma StepBegan<P>(h: Hooks<P>, x: Run<P>, y: Run<Collected>, c: char)
    requires !h.tolerant && InCall(h, x) && Began(x) && x.live.cursor == y.live.cursor && x.live.opcode == y.live.opcode && !y.denying
    requires !Step(Collector(false), y, c).live.cursor.Corrupted?
    ensures var x', y' := Step(h, x, c), Step(Collector(false), y, c);
      Began(x') && x'.live.cursor == y'.live.cursor && x'.live.opcode == y'.live.opcode && !y'.denying
  {
  }

  /** One call over a stream that frames cleanly is not corrupted, whatever its hooks refuse. */
  lemma {:induction false} OneCallFrames<P>(h: Hooks<P>, p: P, s: string)
    requires !h.tolerant && !NeutralLive(s).cursor.Corrupted?
    ensures var x, y := Call(h, Fresh(p), s), Call(Collector(false), Fresh(Collected([], [])), s);
      Began(x) && x.live.cursor == y.live.cursor && x.live.opcode == y.live.opcode && !y.denying
  {
    if s != "" {
      var t, c := s[..|s| - 1], s[|s| - 1];
      var x, y := Call(h, Fresh(p), t), Call(Collector(false), Fresh(Collected([], [])), t);
      FeedLast(h, NewCall(Fresh(p)), t, c);
      FeedLast(Collector(false), NewCall(Fresh(Collected([], []))), t, c);
      assert s == t + [c];
      StepCorrupted(Collector(false), y, c);
      FeedInCall(h, NewCall(Fresh(p)), t);
      hide Feed, Step, InCall, Began, Collector;
      OneCallFrames(h, p, t);
      StepBegan(h, x, y, c);
    }
  }
}
