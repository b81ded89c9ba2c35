/**
 * The client's unguarded decoder, for instructions known to be well-formed: it
 * makes none of the checks of the parser, so the question is on which texts it
 * still gives the parser's answer.
 */
module Decoding {
  import opened Decimal
  import opened GuacClient
  import E = Encoding

  /** The elements, or an exception: no dot, no number before it, or text that ends too soon. */
  datatype Decoded = Elements(elems: seq<string>) | Raised

  /** What the decoder makes of the text `s` once it has the elements `elems`. */
  function DecodeRest(s: string, elems: seq<string>): Decoded
    decreases |s|
  {
    var dot := FindDot(s);
    if dot < 0 || dot == 0 || !AllDigits(s[..dot]) then Raised else
    var end := dot + 1 + Value(s[..dot]);
    if |s| <= end then Raised
    else if s[end] == ';' then Elements(elems + [s[dot + 1..end]])
    else DecodeRest(s[end + 1..], elems + [s[dot + 1..end]])
  }

  function DecodeOne(raw: string): Decoded { DecodeRest(raw, []) }

  /** What one element and its delimiter leave, `dot` being the first dot and `end` the delimiter. */
  lemma DecodeNext(s: string, elems: seq<string>, dot: nat, end: nat)
    requires FindDot(s) == dot && 0 < dot && AllDigits(s[..dot]) && end == dot + 1 + Value(s[..dot]) < |s|
    ensures DecodeRest(s, elems) ==
      if s[end] == ';' then Elements(elems + [s[dot + 1..end]]) else DecodeRest(s[end + 1..], elems + [s[dot + 1..end]])
  {
    hide FindDot, Value, AllDigits;
  }

  lemma DecodeRaises(s: string, elems: seq<string>)
    requires var dot := FindDot(s);
      dot < 0 || dot == 0 || !AllDigits(s[..dot]) || |s| <= dot + 1 + Value(s[..dot])
    ensures DecodeRest(s, elems) == Raised
  {
  }

  lemma Shift(text: string, pos: nat, from: nat, to: nat)
    requires pos <= from <= to <= |text|
    ensures text[pos..][from - pos..to - pos] == text[from..to] && text[pos..][to - pos..] == text[to..]
    ensures to < |text| ==> text[pos..][to - pos] == text[to]
  {
  }

  /** Where the element at `pos` ends, or -1 if the decoder raises on it. */
  method ElementEnd(text: string, pos: nat) returns (start: nat, end: int)
    requires pos <= |text|
    ensures end < 0 ==> forall elems :: DecodeRest(text[pos..], elems) == Raised
    ensures 0 <= end ==>
      && pos < start - 1 && start <= end < |text| && FindDot(text[pos..]) == start - 1 - pos
      && AllDigits(text[pos..][..start - 1 - pos]) && end == start + Value(text[pos..][..start - 1 - pos])
  {
    hide DecodeRest;
    var dot := FindFrom(text, pos);
    start, end := 0, -1;
    if dot >= 0 {
      var prefix := text[pos..dot];
      assert prefix == text[pos..][..dot - pos];
      if prefix != "" && AllDigits(prefix) {
        start := dot + 1;
        if start + Value(prefix) < |text| {
          end := start + Value(prefix);
        }
      }
    }
    if end < 0 {
      forall elems ensures DecodeRest(text[pos..], elems) == Raised {
        DecodeRaises(text[pos..], elems);
      }
    }
  }

  /** One element from `pos` on. */
  method DecodeElement(text: string, pos: nat, elems: seq<string>)
    returns (returned: bool, r: Decoded, newElems: seq<string>, newPos: nat)
    requires pos <= |text|
    ensures returned ==> r == DecodeRest(text[pos..], elems)
    ensures !returned ==> pos < newPos <= |text| && DecodeRest(text[newPos..], newElems) == DecodeRest(text[pos..], elems)
  {
    hide DecodeRest;
    returned, r, newElems, newPos := true, Raised, elems, pos;
    var start, end := ElementEnd(text, pos);
    if end >= 0 {
      DecodeNext(text[pos..], elems, start - 1 - pos, end - pos);
      Shift(text, pos, start, end);
      Shift(text, pos, end + 1, end + 1);
      newElems := elems + [text[start..end]];
      newPos := end + 1;
      if text[end] == ';' {
        r := Elements(newElems);
      } else {
        returned := false;
      }
    }
  }

  /** The loop of the decoder. */
  method DecodeOneLoop(raw: string) returns (r: Decoded)
    ensures r == DecodeOne(raw)
  {
    var pos := 0;
    var elems := [];
    var returned := false;
    r := Raised;
    assert raw[0..] == raw;
    hide DecodeRest;
    while !returned
      invariant 0 <= pos <= |raw|
      invariant if returned then r == DecodeOne(raw) else DecodeRest(raw[pos..], elems) == DecodeOne(raw)
      decreases !returned, |raw| - pos
    {
      var newPos;
      returned, r, elems, newPos := DecodeElement(raw, pos, elems);
      pos := if returned then pos else newPos;
    }
  }

  lemma Slices(p: string, e: string, c: char, tail: string)
    requires AllDigits(p)
    ensures var s, n := p + "." + e + [c] + tail, |p|;
      && s[..n] == p && s[n] == '.' && (forall j :: 0 <= j < n ==> s[j] != '.')
      && s[n + 1..n + 1 + |e|] == e && s[n + 1 + |e|] == c && s[n + 1 + |e| + 1..] == tail
  {
  }

  lemma PrintedParts(e: string, c: char, tail: string)
    ensures var s, n := E.Element(e) + [c] + tail, |Numeral(|e|)|;
      && FindDot(s) == n && s[..n] == Numeral(|e|) && s[n + 1..n + 1 + |e|] == e
      && s[n + 1 + |e|] == c && s[n + 1 + |e| + 1..] == tail
  {
    var s, p := E.Element(e) + [c] + tail, Numeral(|e|);
    Slices(p, e, c, tail);
    hide Numeral, FindDot;
    E.FindDotAt(s, |p|);
  }

  lemma DecodePrintedElement(e: string, c: char, tail: string, done: seq<string>)
    ensures DecodeRest(E.Element(e) + [c] + tail, done) ==
      if c == ';' then Elements(done + [e]) else DecodeRest(tail, done + [e])
  {
    hide DecodeRest, Numeral, FindDot;
    var n := |Numeral(|e|)|;
    PrintedParts(e, c, tail);
    DecodeNext(E.Element(e) + [c] + tail, done, n, n + 1 + |e|);
  }

  lemma {:induction false} DecodePrinted(elems: seq<string>, done: seq<string>)
    requires elems != []
    ensures DecodeRest(E.Instr(elems), done) == Elements(done + elems)
    decreases |elems|
  {
    E.InstrHead(elems);
    DecodePrintedElement(elems[0], E.Separator(elems), E.Instr(elems[1..]), done);
    assert done + [elems[0]] + elems[1..] == done + elems;
    if |elems| > 1 {
      hide DecodeRest;
      DecodePrinted(elems[1..], done + [elems[0]]);
    } else {
      assert elems == [elems[0]];
    }
  }

  /** The decoder inverts the encoder on every instruction, elements of any length included. */
  lemma {:induction false} DecodeInvertsEncode(elems: seq<string>)
    requires elems != []
    ensures DecodeOne(E.Encode(elems)) == Elements(elems)
  {
    E.PrintersAgree(elems);
    DecodePrinted(elems, []);
    assert [] + elems == elems;
  }

  lemma WholeParts(s: string)
    requires FirstElement(s).Whole?
    ensures var dot, e := FindDot(s), FirstElement(s);
      && 0 < dot < |s| && AllDigits(s[..dot]) && e.end == dot + 1 + Value(s[..dot]) < |s|
      && e.elem == s[dot + 1..e.end]
  {
  }

  lemma DecodeAgreesOnce(s: string, done: seq<string>)
    requires FirstElement(s).Whole?
    ensures var e := FirstElement(s);
      DecodeRest(s, done) ==
        if s[e.end] == ';' then Elements(done + [e.elem]) else DecodeRest(s[e.end + 1..], done + [e.elem])
  {
    hide DecodeRest, FirstElement, FindDot, Value, AllDigits;
    WholeParts(s);
    DecodeNext(s, done, FindDot(s), FirstElement(s).end);
  }

  lemma ParsesOnce(s: string, done: seq<string>)
    requires ParseRest(s, done).Got?
    ensures FirstElement(s).Whole?
    ensures var e := FirstElement(s);
      ParseRest(s, done) ==
        if s[e.end] == ';' then Got(done + [e.elem], s[e.end + 1..]) else ParseRest(s[e.end + 1..], done + [e.elem])
  {
    hide FirstElement;
  }

  /** Where the parser finds a complete instruction, the decoder returns the same elements. */
  lemma {:induction false} DecodeAgrees(s: string, done: seq<string>)
    requires ParseRest(s, done).Got?
    ensures DecodeRest(s, done) == Elements(ParseRest(s, done).elems)
    decreases |s|
  {
    ParsesOnce(s, done);
    DecodeAgreesOnce(s, done);
    hide ParseRest, DecodeRest, FirstElement;
    var e := FirstElement(s);
    if s[e.end] != ';' {
      DecodeAgrees(s[e.end + 1..], done + [e.elem]);
    }
  }
}
