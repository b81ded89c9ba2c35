/**
 * The second, independent Guacamole parser: the one of the nettest client. It
 * works on the whole unconsumed buffer instead of byte by byte, which makes it a
 * reference against which the incremental framer is compared.
 */
module GuacClient {
  import opened Framing
  import opened Decimal

  datatype Parsed = Got(elems: seq<string>, rest: string) | NeedMore | ProtocolError

  /** Number of digits of the element cap. */
  const CAP_DIGITS := 4

  /** Position of the first '.' in `s`, or -1. */
  function FindDot(s: string): (i: int)
    ensures i == -1 ==> forall j :: 0 <= j < |s| ==> s[j] != '.'
    ensures i != -1 ==> 0 <= i < |s| && s[i] == '.' && forall j :: 0 <= j < i ==> s[j] != '.'
  {
    if s == "" then -1 else if s[0] == '.' then 0 else
    var i := FindDot(s[1..]);
    assert forall j :: 1 <= j < |s| ==> s[j] == s[1..][j - 1];
    if i == -1 then -1 else i + 1
  }

  /** The first element of a buffer: its text and the index of its delimiter, or why there is none yet. */
  datatype Element = Whole(elem: string, end: nat) | Short | Malformed

  function FirstElement(s: string): (e: Element)
    ensures e.Whole? ==> 0 < e.end < |s|
  {
    var dot := FindDot(s);
    if dot < 0 then
      if |s| > CAP_DIGITS then Malformed else Short
    else
      var prefix := s[..dot];
      if prefix == "" || !AllDigits(prefix) || Value(prefix) > MAX_ELEMENT then Malformed
      else if |s| < dot + 1 + Value(prefix) + 1 then Short
      else Whole(s[dot + 1..dot + 1 + Value(prefix)], dot + 1 + Value(prefix))
  }

  /** What the client makes of the buffer `s` once it has the elements `elems` of the instruction. */
  function ParseRest(s: string, elems: seq<string>): (r: Parsed)
    ensures r.Got? ==> |r.rest| < |s| && r.rest == s[|s| - |r.rest|..] && |elems| < |r.elems|
  {
    match FirstElement(s)
    case Short => NeedMore
    case Malformed => ProtocolError
    case Whole(elem, end) =>
      if s[end] == ';' then Got(elems + [elem], s[end + 1..])
      else if s[end] != ',' then ProtocolError
      else ParseRest(s[end + 1..], elems + [elem])
  }

  function ParseInstruction(buf: string): Parsed { ParseRest(buf, []) }

  /** buf.find(".", pos) */
  method FindFrom(buf: string, pos: nat) returns (dot: int)
    requires pos <= |buf|
    ensures FindDot(buf[pos..]) == if dot < 0 then -1 else dot - pos
    ensures dot < 0 || pos <= dot < |buf|
  {
    dot := pos;
    while dot < |buf|
      invariant pos <= dot <= |buf|
      invariant forall j :: pos <= j < dot ==> buf[j] != '.'
    {
      if buf[dot] == '.' {
        assert buf[pos..][dot - pos] == '.';
        return;
      }
      dot := dot + 1;
    }
    dot := -1;
  }

  /** One round of the client: the element at `pos`, its indices counted from there. */
  method ElementFrom(buf: string, pos: nat) returns (e: Element)
    requires pos <= |buf|
    ensures e == FirstElement(buf[pos..])
  {
    var dot := FindFrom(buf, pos);
    if dot < 0 {
      return if |buf| - pos > CAP_DIGITS then Malformed else Short;
    }
    var prefix := buf[pos..dot];
    assert prefix == buf[pos..][..dot - pos];
    if prefix == "" || !AllDigits(prefix) {
      return Malformed;
    }
    var length := Value(prefix);
    if length > MAX_ELEMENT {
      return Malformed;
    }
    var start := dot + 1;
    var end := start + length;
    if |buf| < end + 1 {
      return Short;
    }
    return Whole(buf[start..end], end - pos);
  }

  /** What an element and its delimiter leave of the buffer. */
  lemma NextElement(buf: string, pos: nat, end: nat, elem: string, elems: seq<string>)
    requires pos <= end < |buf| && FirstElement(buf[pos..]) == Whole(elem, end - pos)
    ensures ParseRest(buf[pos..], elems) ==
      if buf[end] == ';' then Got(elems + [elem], buf[end + 1..])
      else if buf[end] != ',' then ProtocolError
      else ParseRest(buf[end + 1..], elems + [elem])
  {
    assert buf[pos..][end - pos] == buf[end] && buf[pos..][end - pos + 1..] == buf[end + 1..];
    hide FirstElement;
  }

  lemma NoElement(s: string, elems: seq<string>)
    requires !FirstElement(s).Whole?
    ensures ParseRest(s, elems) == if FirstElement(s).Short? then NeedMore else ProtocolError
  {
    hide FirstElement;
  }

  /** One round of the loop: the client returns, or goes on with one element more. */
  method Round(buf: string, pos: nat, elems: seq<string>)
    returns (returned: bool, r: Parsed, newElems: seq<string>, newPos: nat)
    requires pos <= |buf|
    ensures returned ==> r == ParseRest(buf[pos..], elems) && pos <= newPos <= |buf|
    ensures !returned ==> pos < newPos <= |buf| && ParseRest(buf[newPos..], newElems) == ParseRest(buf[pos..], elems)
  {
    hide FirstElement, ParseRest;
    var e := ElementFrom(buf, pos);
    returned, r, newElems, newPos := true, ProtocolError, elems, pos;
    if e.Whole? {
      var end := pos + e.end;
      NextElement(buf, pos, end, e.elem, elems);
      newElems := elems + [e.elem];
      newPos := end + 1;
      if buf[end] == ';' {
        r := Got(newElems, buf[newPos..]);
      } else if buf[end] == ',' {
        returned := false;
      }
    } else {
      NoElement(buf[pos..], elems);
      r := if e.Short? then NeedMore else ProtocolError;
    }
  }

  /** The loop of the client over `pos` and `elems`. */
  method ParseInstructionLoop(buf: string) returns (r: Parsed)
    ensures r == ParseInstruction(buf)
  {
    var pos := 0;
    var elems := [];
    var returned := false;
    r := NeedMore;
    assert buf[0..] == buf;
    hide ParseRest;
    while !returned
      invariant 0 <= pos <= |buf|
      invariant if returned then r == ParseInstruction(buf) else ParseRest(buf[pos..], elems) == ParseInstruction(buf)
      decreases |buf| - pos, !returned
    {
      returned, r, elems, pos := Round(buf, pos, elems);
    }
  }
}
