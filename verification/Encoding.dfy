/**
 * Printing instructions: the printer of the forger and the encoder of the
 * nettest client, against both parsers.
 */
module Encoding {
  import opened Framing
  import opened Decimal
  import opened GuacClient
  import opened Instructions

  function Element(e: string): string { Numeral(|e|) + "." + e }

  /** The forger's printer. */
  function Instr(elems: seq<string>): string {
    if elems == [] then "" else
    Element(elems[0]) + (if |elems| == 1 then ";" else "," + Instr(elems[1..]))
  }

  /** The delimiter after the first element, and what is printed after it. */
  function Separator(elems: seq<string>): char { if |elems| <= 1 then ';' else ',' }

  lemma InstrHead(elems: seq<string>)
    requires elems != []
    ensures Instr(elems) == Element(elems[0]) + [Separator(elems)] + Instr(elems[1..])
  {
    if |elems| == 1 {
      assert Element(elems[0]) + ";" == Element(elems[0]) + [';'] + "";
    } else {
      assert Element(elems[0]) + ("," + Instr(elems[1..])) == Element(elems[0]) + [','] + Instr(elems[1..]);
    }
  }

  method InstrLoop(elems: seq<string>) returns (s: string)
    ensures s == Instr(elems)
  {
    s := "";
    var i := 0;
    hide Element, Numeral;
    while i < |elems|
      invariant 0 <= i <= |elems|
      invariant s + Instr(elems[i..]) == Instr(elems)
    {
      s := PrintElement(elems, i, s);
      i := i + 1;
    }
  }

  method PrintElement(elems: seq<string>, i: nat, before: string) returns (s: string)
    requires i < |elems|
    ensures s + Instr(elems[i + 1..]) == before + Instr(elems[i..])
  {
    s := before + Numeral(|elems[i]|);
    s := s + ".";
    s := s + elems[i];
    s := s + if i + 1 < |elems| then "," else ";";
    ghost var tail := elems[i..];
    assert tail[1..] == elems[i + 1..];
    InstrHead(tail);
    assert s == before + (Element(tail[0]) + [Separator(tail)]);
  }

  /** The client's encoder: elements joined by ',' and closed by ';'. */
  function Joined(elems: seq<string>): string {
    if elems == [] then "" else if |elems| == 1 then Element(elems[0])
    else Element(elems[0]) + "," + Joined(elems[1..])
  }

  function Encode(elems: seq<string>): string { Joined(elems) + ";" }

  lemma {:induction false} PrintersAgree(elems: seq<string>)
    ensures Instr(elems) == Encode(elems) <==> elems != []
  {
    if |elems| > 1 {
      PrintersAgree(elems[1..]);
      assert Element(elems[0]) + "," + Joined(elems[1..]) + ";" == Element(elems[0]) + ("," + (Joined(elems[1..]) + ";"));
    }
  }

  /** An instruction within the element cap. */
  predicate Fits(elems: seq<string>) { elems != [] && forall i :: 0 <= i < |elems| ==> |elems[i]| <= MAX_ELEMENT }

  predicate AsciiElems(elems: seq<string>) { forall i :: 0 <= i < |elems| ==> Ascii(elems[i]) }

  /** What the framer hands out, and takes back. */
  predicate WellFormed(elems: seq<string>) { Fits(elems) && AsciiElems(elems) }

  lemma FindDotAt(s: string, i: nat)
    requires i < |s| && s[i] == '.' && forall j :: 0 <= j < i ==> s[j] != '.'
    ensures FindDot(s) == i
  {
  }

  /** A printed element is the first element of whatever it begins. */
  lemma FirstOfPrinted(e: string, rest: string)
    requires |e| <= MAX_ELEMENT && rest != ""
    ensures FirstElement(Element(e) + rest) == Whole(e, |Element(e)|)
  {
    var s, n := Element(e) + rest, |Numeral(|e|)|;
    assert forall j :: 0 <= j < n ==> s[j] == Numeral(|e|)[j];
    assert s[n] == '.';
    FindDotAt(s, n);
    assert s[..n] == Numeral(|e|);
    assert s[n + 1..n + 1 + |e|] == e;
  }

  lemma RestOfPrinted(e: string, c: char, tail: string, done: seq<string>)
    requires |e| <= MAX_ELEMENT && (c == ';' || c == ',')
    ensures ParseRest(Element(e) + [c] + tail, done) ==
      if c == ';' then Got(done + [e], tail) else ParseRest(tail, done + [e])
  {
    var s := Element(e) + [c] + tail;
    assert s == Element(e) + ([c] + tail);
    FirstOfPrinted(e, [c] + tail);
    hide FirstElement, Element;
    assert s[|Element(e)|] == c && s[|Element(e)| + 1..] == tail;
  }

  /** Round trip through the client's parser: the original elements, and nothing of what follows. */
  lemma {:induction false} ParsePrinted(elems: seq<string>, done: seq<string>, rest: string)
    requires Fits(elems)
    ensures ParseRest(Instr(elems) + rest, done) == Got(done + elems, rest)
    decreases |elems|
  {
    var e, c, tail := elems[0], Separator(elems), Instr(elems[1..]) + rest;
    InstrHead(elems);
    RestOfPrinted(e, c, tail, done);
    assert Instr(elems[1..]) == "" || |elems| > 1;
    hide ParseRest, Instr, Element;
    assert Instr(elems) + rest == Element(e) + [c] + tail;
    assert done + [e] + elems[1..] == done + elems;
    if |elems| == 1 {
      assert elems == [e] && tail == rest;
    } else {
      ParsePrinted(elems[1..], done + [e], rest);
    }
  }

  lemma FitsTail(elems: seq<string>)
    requires Fits(elems) && AsciiElems(elems)
    ensures |elems[0]| <= MAX_ELEMENT && Ascii(elems[0])
    ensures |elems| > 1 ==> Fits(elems[1..]) && AsciiElems(elems[1..])
  {
  }

  /** What a framer keeps of each element. */
  function ClampedAll(elems: seq<string>): (kept: seq<string>)
    ensures |kept| == |elems|
  {
    if elems == [] then [] else [Clamped(elems[0])] + ClampedAll(elems[1..])
  }

  predicate TakesAll(tolerant: bool, elems: seq<string>) { forall i :: 0 <= i < |elems| ==> Takes(tolerant, elems[i]) }

  /** The framer, in state `r` after the elements `done`, was handed exactly what it keeps of `elems`. */
  ghost predicate HandedOver<P>(h: Hooks<P>, r0: Run<P>, done: seq<string>, r: Run<P>, text: string, elems: seq<string>) {
    Closed(h, r0, done + ClampedAll(elems), Feed(h, r, Instr(elems)), text + Instr(elems))
  }

  lemma HandedOne<P>(h: Hooks<P>, r0: Run<P>, done: seq<string>, r: Run<P>, text: string, e: string)
    requires Takes(h.tolerant, e) && Mid(h, r0, done, r, text)
    ensures HandedOver(h, r0, done, r, text, [e])
  {
    PrintedElementRun(h, r0, done, r, text, e, ';');
    InstrHead([e]);
    assert [e][1..] == [] && ClampedAll([e]) == [Clamped(e)];
    hide Feed, Closed, Mid, Element;
    assert Instr([e]) == Element(e) + [';'];
  }

  lemma HandedMore<P>(h: Hooks<P>, r0: Run<P>, done: seq<string>, r: Run<P>, text: string, elems: seq<string>, a: string)
    requires |elems| > 1 && a == Element(elems[0]) + [',']
    requires HandedOver(h, r0, done + [Clamped(elems[0])], Feed(h, r, a), text + a, elems[1..])
    ensures HandedOver(h, r0, done, r, text, elems)
  {
    InstrHead(elems);
    assert ClampedAll(elems) == [Clamped(elems[0])] + ClampedAll(elems[1..]);
    hide Instr, Element, ClampedAll, Clamped, Closed, Feed;
    Assoc(done, [Clamped(elems[0])], ClampedAll(elems[1..]));
    ClosedLater(h, r0, done + ClampedAll(elems), r, text, a, Instr(elems[1..]));
  }

  /** Whatever its hooks, a framer hands over a printed instruction element by element, each as far as it keeps it. */
  lemma {:induction false} RunAnyLength<P>(h: Hooks<P>, r0: Run<P>, done: seq<string>, r: Run<P>, text: string, elems: seq<string>)
    requires elems != [] && TakesAll(h.tolerant, elems) && Mid(h, r0, done, r, text)
    ensures HandedOver(h, r0, done, r, text, elems)
    decreases |elems|
  {
    assert Takes(h.tolerant, elems[0]);
    hide Feed, HandedOver, Mid, Takes;
    if |elems| == 1 {
      HandedOne(h, r0, done, r, text, elems[0]);
      assert elems == [elems[0]];
    } else {
      PrintedElementRun(h, r0, done, r, text, elems[0], ',');
      var a := Element(elems[0]) + [','];
      RunAnyLength(h, r0, done + [Clamped(elems[0])], Feed(h, r, a), text + a, elems[1..]);
      HandedMore(h, r0, done, r, text, elems, a);
    }
  }

  /** Elements within the cap are kept whole. */
  lemma {:induction false} ClampedWhole(elems: seq<string>)
    requires forall i :: 0 <= i < |elems| ==> |elems[i]| <= MAX_ELEMENT
    ensures ClampedAll(elems) == elems
    decreases |elems|
  {
    if elems != [] {
      ClampedWhole(elems[1..]);
      assert elems == [elems[0]] + elems[1..];
    }
  }

  /** Round trip through the framer: whatever its hooks, they are handed the original elements. */
  lemma {:induction false} RunPrinted<P>(h: Hooks<P>, r0: Run<P>, done: seq<string>, r: Run<P>, text: string, elems: seq<string>)
    requires Fits(elems) && AsciiElems(elems) && Mid(h, r0, done, r, text)
    ensures Closed(h, r0, done + elems, Feed(h, r, Instr(elems)), text + Instr(elems))
  {
    ClampedWhole(elems);
    forall i | 0 <= i < |elems| ensures Takes(h.tolerant, elems[i]) {
      assert Ascii(elems[i]);
    }
    hide Feed, Mid, Closed, Instr, Ascii, ClampedAll;
    RunAnyLength(h, r0, done, r, text, elems);
  }

  lemma ClosedLater<P>(h: Hooks<P>, r0: Run<P>, es: seq<string>, r: Run<P>, text: string, a: string, b: string)
    requires Closed(h, r0, es, Feed(h, Feed(h, r, a), b), text + a + b)
    ensures Closed(h, r0, es, Feed(h, r, a + b), text + (a + b))
  {
    hide Feed, Closed;
    FeedConcat(h, r, a, b);
    assert text + a + b == text + (a + b);
  }

  lemma PrintedElementRun<P>(h: Hooks<P>, r0: Run<P>, done: seq<string>, r: Run<P>, text: string, e: string, c: char)
    requires Mid(h, r0, done, r, text) && Takes(h.tolerant, e) && (c == ';' || c == ',')
    ensures var a := Element(e) + [c];
      if c == ',' then Mid(h, r0, done + [Clamped(e)], Feed(h, r, a), text + a)
      else Closed(h, r0, done + [Clamped(e)], Feed(h, r, a), text + a)
  {
    ElementRun(h, r, Numeral(|e|), e);
    DelimStep(h, r0, done, r, text, Element(e), Clamped(e), c);
    FeedLast(h, r, Element(e), c);
    hide Feed, Step, Mid, Closed, Element;
    assert text + Element(e) + [c] == text + (Element(e) + [c]);
  }

  function EncodeAll(instrs: seq<seq<string>>): string {
    if instrs == [] then "" else Instr(instrs[0]) + EncodeAll(instrs[1..])
  }

  predicate AllFit(instrs: seq<seq<string>>) { forall k :: 0 <= k < |instrs| ==> Fits(instrs[k]) }

  predicate IsPrefix(p: string, s: string) { |p| <= |s| && s[..|p|] == p }

  /** A printed element cut short. */
  lemma CutElement(e: string, p: string)
    requires |e| <= MAX_ELEMENT && IsPrefix(p, Element(e))
    ensures FirstElement(p) == Short
  {
    var num, s := Numeral(|e|), Element(e);
    NumeralWidth(|e|);
    assert s[..|num|] == num && s[|num|] == '.';
    assert forall j :: 0 <= j < |p| ==> p[j] == s[j];
    assert forall j :: 0 <= j < |num| ==> s[j] == num[j];
    if |p| > |num| {
      FindDotAt(p, |num|);
      assert p[..|num|] == num;
    }
  }

  /** A proper prefix of a printed instruction is never an error: it only needs more. */
  lemma {:induction false} PrefixNeedsMore(elems: seq<string>, done: seq<string>, p: string)
    requires Fits(elems) && IsPrefix(p, Instr(elems)) && p != Instr(elems)
    ensures ParseRest(p, done) == NeedMore
    decreases |elems|
  {
    var e, c, s := elems[0], Separator(elems), Instr(elems);
    var n := |Element(e)|;
    InstrHead(elems);
    assert Instr(elems[1..]) == "" || |elems| > 1;
    if |p| <= n {
      assert p == s[..|p|] == Element(e)[..|p|];
      CutElement(e, p);
    } else {
      hide Instr, Element;
      var tail := p[n + 1..];
      assert p == Element(e) + [c] + tail && tail == Instr(elems[1..])[..|tail|];
      RestOfPrinted(e, c, tail, done);
      PrefixNeedsMore(elems[1..], done + [e], tail);
    }
  }

  // ---- The client's stream: instructions out of arbitrary chunks

  datatype Drained = Drained(instrs: seq<seq<string>>, rest: string, raised: bool)

  /** Everything the client can parse out of its buffer before it needs more. */
  function Drain(buf: string): Drained {
    match ParseInstruction(buf)
    case Got(elems, rest) =>
      var d := Drain(rest);
      d.(instrs := [elems] + d.instrs)
    case NeedMore => Drained([], buf, false)
    case ProtocolError => Drained([], buf, true)
  }

  class InstructionStream {
    var buf: string

    constructor ()
      ensures buf == ""
    {
      buf := "";
    }

    method Receive(chunk: string)
      modifies this
      ensures buf == old(buf) + chunk
    {
      buf := buf + chunk;
    }

    /** Consumes one complete instruction; the buffer is untouched when there is none. */
    method ParseOne() returns (r: Parsed)
      modifies this
      ensures r == ParseInstruction(old(buf))
      ensures buf == if r.Got? then r.rest else old(buf)
    {
      r := ParseInstructionLoop(buf);
      if r.Got? {
        buf := r.rest;
      }
    }

    /** Repeated ParseOne, as the reading loop does between two chunks. */
    method ParseAvailable() returns (instrs: seq<seq<string>>, raised: bool)
      modifies this
      ensures Drained(instrs, buf, raised) == Drain(old(buf))
    {
      instrs := [];
      raised := false;
      while true
        invariant !raised
        invariant Drain(old(buf)) == var d := Drain(buf); d.(instrs := instrs + d.instrs)
        decreases |buf|
      {
        var r := ParseOne();
        if !r.Got? {
          raised := r.ProtocolError?;
          assert instrs + [] == instrs;
          return;
        }
        assert instrs + [r.elems] + Drain(buf).instrs == instrs + ([r.elems] + Drain(buf).instrs);
        instrs := instrs + [r.elems];
      }
    }
  }

  /** A client that is given the chunks one by one. */
  function Received(chunks: seq<string>): Drained {
    if chunks == [] then Drained([], "", false) else
    var d := Received(chunks[..|chunks| - 1]);
    if d.raised then d else
    var e := Drain(d.rest + chunks[|chunks| - 1]);
    e.(instrs := d.instrs + e.instrs)
  }

  /** What the client holds once `p`, some prefix of the printed instructions, has arrived. */
  ghost predicate UpTo(instrs: seq<seq<string>>, p: string, d: Drained) {
    && !d.raised
    && |d.instrs| <= |instrs| && d.instrs == instrs[..|d.instrs|]
    && p == EncodeAll(d.instrs) + d.rest
    && IsPrefix(d.rest, EncodeAll(instrs[|d.instrs|..]))
    && ParseInstruction(d.rest) == NeedMore
  }

  lemma UpToNone(instrs: seq<seq<string>>, p: string)
    requires IsPrefix(p, EncodeAll(instrs)) && ParseInstruction(p) == NeedMore
    ensures UpTo(instrs, p, Drain(p))
  {
    hide ParseRest;
    assert instrs[0..] == instrs && "" + p == p;
  }

  lemma {:induction false} DrainPrefix(instrs: seq<seq<string>>, p: string)
    requires AllFit(instrs) && IsPrefix(p, EncodeAll(instrs))
    ensures UpTo(instrs, p, Drain(p))
    decreases |instrs|
  {
    if instrs == [] {
      assert p == "" && FindDot("") == -1;
      UpToNone(instrs, p);
    } else {
      var i, tail := instrs[0], EncodeAll(instrs[1..]);
      assert Fits(i);
      hide Fits, Instr, UpTo, ParseRest;
      if |p| < |Instr(i)| {
        assert p == Instr(i)[..|p|];
        PrefixNeedsMore(i, [], p);
        UpToNone(instrs, p);
      } else {
        var q := p[|Instr(i)|..];
        assert p == Instr(i) + q && q == tail[..|q|];
        ParsePrinted(i, [], q);
        assert [] + i == i;
        DrainPrefix(instrs[1..], q);
        UpToNext(instrs, p, q, Drain(q));
      }
    }
  }

  lemma UpToNext(instrs: seq<seq<string>>, p: string, q: string, d: Drained)
    requires instrs != [] && UpTo(instrs[1..], q, d) && p == Instr(instrs[0]) + q
    ensures UpTo(instrs, p, d.(instrs := [instrs[0]] + d.instrs))
  {
    hide Instr, ParseRest;
    var all := [instrs[0]] + d.instrs;
    assert all == instrs[..|all|] && instrs[|all|..] == instrs[1..][|d.instrs|..];
    assert all[1..] == d.instrs;
    assert EncodeAll(all) + d.rest == Instr(instrs[0]) + (EncodeAll(d.instrs) + d.rest);
  }

  lemma {:induction false} EncodeAllSplit(a: seq<seq<string>>, b: seq<seq<string>>)
    ensures EncodeAll(a + b) == EncodeAll(a) + EncodeAll(b)
  {
    if a == [] {
      assert a + b == b && "" + EncodeAll(b) == EncodeAll(b);
    } else {
      assert (a + b)[1..] == a[1..] + b;
      EncodeAllSplit(a[1..], b);
      assert Instr(a[0]) + (EncodeAll(a[1..]) + EncodeAll(b)) == Instr(a[0]) + EncodeAll(a[1..]) + EncodeAll(b);
    }
  }

  /**
   * However a concatenation of printed instructions is cut, the client yields
   * exactly the instructions that have arrived in full, in order, keeps the rest
   * in its buffer, and never raises.
   */
  lemma {:induction false} CutsYieldExactly(instrs: seq<seq<string>>, chunks: seq<string>)
    requires AllFit(instrs) && IsPrefix(Concat(chunks), EncodeAll(instrs))
    ensures UpTo(instrs, Concat(chunks), Received(chunks))
    ensures Concat(chunks) == EncodeAll(instrs) ==> Received(chunks) == Drained(instrs, "", false)
  {
    if chunks == [] {
      DrainPrefix(instrs, "");
      assert FindDot("") == -1;
    } else {
      var init, last := chunks[..|chunks| - 1], chunks[|chunks| - 1];
      assert Concat(init) == EncodeAll(instrs)[..|Concat(init)|];
      CutsYieldExactly(instrs, init);
      var d := Received(init);
      var later := instrs[|d.instrs|..];
      assert instrs == d.instrs + later;
      EncodeAllSplit(d.instrs, later);
      ChunkArrives(instrs, Concat(init), last, d);
    }
    AllArrived(instrs, Concat(chunks), Received(chunks));
  }

  lemma PrefixCancel(a: string, p: string, s: string)
    requires IsPrefix(a + p, a + s)
    ensures IsPrefix(p, s)
  {
    forall i | 0 <= i < |p| ensures p[i] == s[i] {
      assert (a + p)[|a| + i] == (a + s)[..|a + p|][|a| + i];
    }
  }

  lemma UpToAppend(a: seq<seq<string>>, later: seq<seq<string>>, rest: string, e: Drained)
    requires UpTo(later, rest, e)
    ensures UpTo(a + later, EncodeAll(a) + rest, e.(instrs := a + e.instrs))
  {
    hide ParseRest, EncodeAll;
    EncodeAllSplit(a, e.instrs);
    SliceAppend(a, later, |e.instrs|);
    Assoc(EncodeAll(a), EncodeAll(e.instrs), e.rest);
  }

  lemma SliceAppend<T>(a: seq<T>, b: seq<T>, k: nat)
    requires k <= |b|
    ensures (a + b)[..|a + b[..k]|] == a + b[..k] && (a + b)[|a + b[..k]|..] == b[k..]
  {
  }

  lemma ChunkArrives(instrs: seq<seq<string>>, p: string, chunk: string, d: Drained)
    requires AllFit(instrs) && UpTo(instrs, p, d) && IsPrefix(p + chunk, EncodeAll(instrs))
    ensures var e := Drain(d.rest + chunk); UpTo(instrs, p + chunk, e.(instrs := d.instrs + e.instrs))
  {
    var later, rest := instrs[|d.instrs|..], d.rest + chunk;
    assert instrs == d.instrs + later;
    assert AllFit(later);
    hide AllFit, ParseRest, EncodeAll, Drain;
    EncodeAllSplit(d.instrs, later);
    Assoc(EncodeAll(d.instrs), d.rest, chunk);
    PrefixCancel(EncodeAll(d.instrs), rest, EncodeAll(later));
    DrainPrefix(later, rest);
    UpToAppend(d.instrs, later, rest, Drain(rest));
  }

  lemma AllArrived(instrs: seq<seq<string>>, p: string, d: Drained)
    requires AllFit(instrs) && UpTo(instrs, p, d)
    ensures p == EncodeAll(instrs) ==> d == Drained(instrs, "", false)
  {
    var later := instrs[|d.instrs|..];
    assert instrs == d.instrs + later;
    EncodeAllSplit(d.instrs, later);
    if p == EncodeAll(instrs) {
      assert d.rest == EncodeAll(later);
      if later != [] {
        assert Fits(later[0]) by { assert later[0] == instrs[|d.instrs|]; }
        ParsePrinted(later[0], [], EncodeAll(later[1..]));
        assert false;
      }
    }
  }
}
