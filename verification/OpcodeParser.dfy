/**
 * The parser object: the fields and the control flow of the framer, proved
 * against the fold of `Framing`. One method per case of the byte switch.
 */
module OpcodeParserModule {
  import opened Framing
  import opened Excision

  datatype ParserState = ReadingLength | ReadingData | ExpectDelim | StreamCorrupted | DeniedData

  /** What a Parse call reports. */
  function Status<P>(r: Run<P>): ParserState {
    if !Clean(r) then StreamCorrupted
    else if r.ranges != [] then DeniedData
    else match r.live.cursor
      case Data(_, _, _) => ReadingData
      case Delim(_) => ExpectDelim
      case _ => ReadingLength
  }

  /** Index of the last byte the call looked at. */
  function LastIndex<P>(r: Run<P>, n: nat): int {
    if r.live.cursor.Corrupted? then r.pos else n - 1
  }

  function Min(a: int, b: int): int { if a < b then a else b }

  class OpcodeParser<P> {
    const hooks: Hooks<P>
    var policy: P

    var state: ParserState
    var currentIndex: nat
    var currentLength: int
    var currentRead: int
    var readingOpcode: bool
    const elementBuffer: array<char>
    var opcodeStartIdx: nat
    var deniedRanges: seq<(int, int)>

    ghost predicate Valid()
      reads this, elementBuffer
    {
      && elementBuffer.Length == MAX_ELEMENT
      && !state.DeniedData?
      && (state.ReadingLength? ==> -1 <= currentLength)
      && (state.ReadingData? ==> 0 <= currentRead < currentLength)
      && (state.ExpectDelim? ==> 0 <= currentRead == currentLength)
      && Framed(hooks.tolerant, Cursor())
    }

    /** The live part of the fields. */
    ghost function Cursor(): Cursor
      reads this, elementBuffer
      requires elementBuffer.Length == MAX_ELEMENT
      requires state.ReadingLength? ==> -1 <= currentLength
      requires state.ReadingData? ==> 0 <= currentRead < currentLength
      requires state.ExpectDelim? ==> 0 <= currentRead == currentLength
    {
      match state
      case ReadingLength => if currentLength == -1 then Start else Length(currentLength)
      case ReadingData => Data(currentLength, currentRead, elementBuffer[..Min(currentRead, MAX_ELEMENT)])
      case ExpectDelim => Delim(elementBuffer[..Min(currentLength, MAX_ELEMENT)])
      case _ => Corrupted
    }

    ghost function LiveState(): Live<P>
      reads this, elementBuffer
      requires Valid()
    {
      if state.StreamCorrupted? then Live(Corrupted, true, policy)
      else Live(Cursor(), readingOpcode, policy)
    }

    constructor (hooks: Hooks<P>, policy: P)
      ensures Valid() && LiveState() == Fresh(policy) && this.hooks == hooks && deniedRanges == []
      ensures fresh(elementBuffer)
    {
      this.hooks := hooks;
      this.policy := policy;
      state, currentIndex, currentLength, currentRead := ReadingLength, 0, -1, 0;
      readingOpcode, opcodeStartIdx, deniedRanges := true, 0, [];
      elementBuffer := new char[MAX_ELEMENT];
    }

    method Reset()
      requires Valid()
      modifies this
      ensures Valid() && LiveState() == Fresh(policy) && policy == old(policy) && deniedRanges == []
    {
      state := ReadingLength;
      currentIndex := 0;
      currentLength := -1;
      currentRead := 0;
      readingOpcode := true;
      opcodeStartIdx := 0;
      deniedRanges := [];
    }

    /** The fields and the two flags local to Parse represent the call in progress `r`. */
    ghost predicate Represents(r: Run<P>, denying: bool, opcodeInThisCall: bool)
      reads this, elementBuffer
    {
      && Valid()
      && LiveState() == r.live
      && deniedRanges == r.ranges
      && (!r.live.cursor.Corrupted? ==>
            && denying == r.denying
            && r.start == if opcodeInThisCall && !AtBoundary(r.live) then opcodeStartIdx else -1)
    }

    method LengthByte(c: char, opcodeInThisCall: bool, ghost r: Run<P>) returns (inThisCall: bool)
      requires Represents(r, r.denying, opcodeInThisCall) && InCall(hooks, r) && state.ReadingLength?
      requires currentIndex == r.pos
      modifies this
      ensures Represents(Step(hooks, r, c), r.denying, inThisCall)
      ensures currentIndex == old(currentIndex)
    {
      inThisCall := opcodeInThisCall;
      if '0' <= c <= '9' {
        if currentLength == -1 {
          currentLength := 0;
          if readingOpcode {
            opcodeStartIdx := currentIndex;
            inThisCall := true;
          }
        }
        currentLength := currentLength * 10 + (c as int - '0' as int);
        if currentLength > MAX_ELEMENT && !hooks.tolerant {
          state := StreamCorrupted;
        }
      } else if c == '.' {
        if currentLength == -1 {
          state := StreamCorrupted;
          return;
        }
        currentRead := 0;
        if currentLength == 0 {
          state := ExpectDelim;
        } else {
          state := ReadingData;
        }
      } else {
        state := StreamCorrupted;
      }
    }

    method DataByte(c: char, opcodeInThisCall: bool, ghost r: Run<P>)
      requires Represents(r, r.denying, opcodeInThisCall) && InCall(hooks, r) && state.ReadingData?
      modifies this, elementBuffer
      ensures Represents(Step(hooks, r, c), r.denying, opcodeInThisCall)
      ensures currentIndex == old(currentIndex)
    {
      if currentRead < MAX_ELEMENT {
        if c as int > 127 {
          state := StreamCorrupted;
          return;
        }
        elementBuffer[currentRead] := c;
        assert elementBuffer[..currentRead + 1] == old(elementBuffer[..currentRead]) + [c];
      }
      currentRead := currentRead + 1;
      if currentRead == currentLength {
        state := ExpectDelim;
      }
    }

    /** The hook call for the element in the buffer. */
    method JudgeElement(wasDenying: bool, opcodeInThisCall: bool, ghost r: Run<P>) returns (denying: bool)
      requires Represents(r, wasDenying, opcodeInThisCall) && InCall(hooks, r) && r.live.cursor.Delim?
      modifies this`policy, this`state, this`readingOpcode
      ensures Represents(Judge(hooks, r, r.live.cursor.elem), denying, opcodeInThisCall)
    {
      denying := wasDenying;
      if !denying {
        var elemLen := if currentLength > MAX_ELEMENT then MAX_ELEMENT else currentLength;
        var elem := elementBuffer[..elemLen];
        assert r.live.cursor == Delim(elem);
        var verdict := if readingOpcode then hooks.begin(policy, elem) else hooks.argument(policy, elem);
        policy := verdict.0;
        if !verdict.1 {
          if !opcodeInThisCall {
            state := StreamCorrupted;
            return;
          }
          denying := true;
          readingOpcode := false;
        } else if readingOpcode {
          readingOpcode := false;
        }
      }
    }

    method CloseElement(c: char, wasDenying: bool, opcodeInThisCall: bool, ghost r: Run<P>) returns (denying: bool)
      requires Represents(r, wasDenying, opcodeInThisCall) && r.live.cursor.Delim? && !r.live.opcode
      requires r.denying ==> r.start >= 0
      requires currentIndex == r.pos
      modifies this
      ensures Represents(Close(hooks, r, c), denying, opcodeInThisCall)
      ensures currentIndex == old(currentIndex)
    {
      denying := wasDenying;
      if c == ';' {
        if denying {
          deniedRanges := deniedRanges + [(opcodeStartIdx, currentIndex - opcodeStartIdx + 1)];
          denying := false;
        } else {
          policy := hooks.end(policy, currentIndex);
        }
        readingOpcode := true;
      }
      currentLength := -1;
      state := ReadingLength;
    }

    method DelimByte(c: char, wasDenying: bool, opcodeInThisCall: bool, ghost r: Run<P>) returns (denying: bool)
      requires Represents(r, wasDenying, opcodeInThisCall) && InCall(hooks, r) && state.ExpectDelim?
      requires currentIndex == r.pos
      modifies this
      ensures Represents(Step(hooks, r, c), denying, opcodeInThisCall)
      ensures currentIndex == old(currentIndex)
    {
      denying := wasDenying;
      if c != ',' && c != ';' {
        state := StreamCorrupted;
        return;
      }
      ghost var q := Judge(hooks, r, r.live.cursor.elem);
      denying := JudgeElement(denying, opcodeInThisCall, r);
      if !state.StreamCorrupted? {
        denying := CloseElement(c, denying, opcodeInThisCall, q);
      }
    }

    /** The byte switch. */
    method Byte(c: char, wasDenying: bool, wasInThisCall: bool, ghost r: Run<P>)
      returns (denying: bool, opcodeInThisCall: bool)
      requires Represents(r, wasDenying, wasInThisCall) && InCall(hooks, r)
      requires !state.StreamCorrupted? ==> currentIndex == r.pos
      modifies this, elementBuffer
      ensures Represents(Step(hooks, r, c), denying, opcodeInThisCall)
      ensures currentIndex == old(currentIndex)
    {
      denying, opcodeInThisCall := wasDenying, wasInThisCall;
      match state {
        case ReadingLength => opcodeInThisCall := LengthByte(c, opcodeInThisCall, r);
        case ReadingData => DataByte(c, opcodeInThisCall, r);
        case ExpectDelim => denying := DelimByte(c, denying, opcodeInThisCall, r);
        case _ =>
      }
    }

    /** One round of the loop of Parse. */
    method Round(data: string, i: nat, wasDenying: bool, wasInThisCall: bool, ghost live: Live<P>, ghost r: Run<P>)
      returns (denying: bool, opcodeInThisCall: bool)
      requires Represents(r, wasDenying, wasInThisCall) && At(hooks, live, data, i, r) && i < |data|
      modifies this, elementBuffer
      ensures var q := Step(hooks, r, data[i]);
        && Represents(q, denying, opcodeInThisCall)
        && (state.StreamCorrupted? <==> q.live.cursor.Corrupted?)
        && (if state.StreamCorrupted? then q == Call(hooks, live, data) && q.pos == i
            else At(hooks, live, data, i + 1, q))
      ensures currentIndex == i
    {
      currentIndex := i;
      NextByte(hooks, live, data, i, r);
      denying, opcodeInThisCall := Byte(data[i], wasDenying, wasInThisCall, r);
    }

    /** The loop of Parse over the bytes, left early by the byte that corrupts the stream. */
    method Scan(data: string) returns (denying: bool)
      requires Valid() && deniedRanges == []
      modifies this, elementBuffer
      ensures exists inThisCall :: Represents(Call(hooks, old(LiveState()), data), denying, inThisCall)
      ensures state.StreamCorrupted? ==> !denying
      ensures data != "" ==> currentIndex == LastIndex(Call(hooks, old(LiveState()), data), |data|)
    {
      denying := false;
      var opcodeInThisCall := false;
      ghost var live := LiveState();
      ghost var r := NewCall(live);
      var i := 0;
      while i < |data|
        invariant 0 <= i <= |data|
        invariant Represents(r, denying, opcodeInThisCall)
        invariant At(hooks, live, data, i, r)
        invariant i > 0 ==> currentIndex == i - 1
        invariant state.StreamCorrupted? ==> !denying
      {
        denying, opcodeInThisCall := Round(data, i, denying, opcodeInThisCall, live, r);
        r := Step(hooks, r, data[i]);
        if state.StreamCorrupted? {
          denying := false;
          assert Represents(r, denying, opcodeInThisCall);
          return;
        }
        i := i + 1;
      }
      assert data[..i] == data;
    }

    /** One Parse call is the fold over its bytes; the buffer is not touched. */
    method Parse(data: string) returns (result: ParserState)
      requires Valid()
      modifies this, elementBuffer
      ensures Valid()
      ensures var r := Call(hooks, old(LiveState()), data);
        && LiveState() == Rest(r)
        && result == Status(r)
        && deniedRanges == r.ranges
        && (data != "" ==> currentIndex == LastIndex(r, |data|))
    {
      deniedRanges := [];
      var denying := Scan(data);
      if denying {
        state := StreamCorrupted;
      }
      return if state.StreamCorrupted? then StreamCorrupted else if deniedRanges != [] then DeniedData else state;
    }
  
    /** Shifts the ranges the last Parse denied out of the first `len` bytes of the buffer. */
    method Excise(data: array<char>, len: nat) returns (newLen: nat)
      requires data != elementBuffer && len <= data.Length && Ordered(deniedRanges, len)
      modifies this`deniedRanges, data
      ensures newLen <= len
      ensures data[..newLen] == Remaining(old(data[..len]), old(deniedRanges), len)
      ensures data[len..] == old(data[len..])
      ensures deniedRanges == []
    {
      if deniedRanges == [] {
        return len;
      }
      newLen := Compact(data, len, deniedRanges);
      deniedRanges := [];
    }
  }

  /** One pass over the buffer: the bytes between the ranges move down over the gaps. */
  method Compact(data: array<char>, len: nat, ranges: seq<(int, int)>) returns (newLen: nat)
    requires len <= data.Length && Ordered(ranges, len) && ranges != []
    modifies data
    ensures newLen <= len
    ensures data[..newLen] == Remaining(old(data[..len]), ranges, len)
    ensures data[len..] == old(data[len..])
  {
    hide Remaining, Kept;
    ghost var was := data[..len];
    KeptNone(was, ranges, data[..0]);
    var write, read := 0, 0;
    var k := 0;
    while k < |ranges|
      invariant k <= |ranges| && 0 <= write <= read <= len
      invariant read == if k == 0 then 0 else ranges[k - 1].0 + ranges[k - 1].1
      invariant Kept(was, ranges, k, data[..write])
      invariant forall j :: read <= j < data.Length ==> data[j] == old(data[j])
    {
      KeptNext(was, ranges, k, data[..write]);
      write := MoveSlice(data, write, read, ranges[k].0, was);
      read := ranges[k].0 + ranges[k].1;
      k := k + 1;
    }
    KeptAll(was, ranges, data[..write], read);
    newLen := MoveSlice(data, write, read, len, was);
  }

  /** The kept bytes from `read` to `end` are appended to those already in place. */
  method MoveSlice(data: array<char>, write: nat, read: nat, end: nat, ghost was: string) returns (newWrite: nat)
    requires write <= read <= end <= |was| <= data.Length
    requires forall j :: read <= j < |was| ==> data[j] == was[j]
    modifies data
    ensures newWrite == write + (end - read)
    ensures data[..newWrite] == old(data[..write]) + was[read..end]
    ensures forall j :: end <= j < data.Length ==> data[j] == old(data[j])
  {
    ghost var before := data[..write];
    assert data[read..end] == was[read..end];
    if write != read {
      MoveDown(data, write, read, end - read);
    }
    newWrite := write + (end - read);
    assert data[..newWrite] == before + data[write..newWrite];
  }

  /** `front` is what remains of `s` before the range `k - 1`. */
  ghost predicate Kept(s: string, ranges: seq<(int, int)>, k: nat, front: string)
    requires Ordered(ranges, |s|) && k <= |ranges|
  {
    front == if k == 0 then "" else Remaining(s, ranges[..k - 1], ranges[k - 1].0)
  }

  lemma KeptNone(s: string, ranges: seq<(int, int)>, front: string)
    requires Ordered(ranges, |s|) && front == ""
    ensures Kept(s, ranges, 0, front)
  {
  }

  lemma KeptAll(s: string, ranges: seq<(int, int)>, front: string, read: nat)
    requires Ordered(ranges, |s|) && Kept(s, ranges, |ranges|, front) && ranges != []
    requires read == ranges[|ranges| - 1].0 + ranges[|ranges| - 1].1 <= |s|
    ensures front + s[read..|s|] == Remaining(s, ranges, |s|)
  {
    OrderedInit(ranges, |s|);
  }

  lemma KeptNext(s: string, ranges: seq<(int, int)>, k: nat, front: string)
    requires Ordered(ranges, |s|) && k < |ranges| && Kept(s, ranges, k, front)
    ensures var read := if k == 0 then 0 else ranges[k - 1].0 + ranges[k - 1].1;
      && read <= ranges[k].0
      && Kept(s, ranges, k + 1, front + s[read..ranges[k].0])
  {
    if k > 0 {
      assert ranges[..k][..k - 1] == ranges[..k - 1];
    }
  }

  /** memmove towards the front of the buffer. */
  method MoveDown(data: array<char>, to: nat, from: nat, count: nat)
    requires to <= from && from + count <= data.Length
    modifies data
    ensures data[to..to + count] == old(data[from..from + count])
    ensures forall j :: 0 <= j < to || from + count <= j < data.Length ==> data[j] == old(data[j])
  {
    for i := 0 to count
      invariant forall j :: to <= j < to + i ==> data[j] == old(data[j - to + from])
      invariant forall j :: 0 <= j < to || to + i <= j < data.Length ==> data[j] == old(data[j])
    {
      data[to + i] := data[from + i];
    }
  }

  /** The call has consumed `i` bytes. Only a call that began corrupted is corrupted between bytes. */
  ghost predicate At<P>(h: Hooks<P>, live: Live<P>, data: string, i: nat, r: Run<P>) {
    && i <= |data|
    && r == Call(h, live, data[..i])
    && InCall(h, r)
    && r.pos == i
    && (r.live.cursor.Corrupted? ==> i == 0)
  }

  lemma NextByte<P>(h: Hooks<P>, live: Live<P>, data: string, i: nat, r: Run<P>)
    requires At(h, live, data, i, r) && i < |data|
    ensures var q := Step(h, r, data[i]);
      if q.live.cursor.Corrupted? then q == Call(h, live, data) && q.pos == i
      else At(h, live, data, i + 1, q)
  {
    CallNext(h, live, data, i);
    if !r.live.cursor.Corrupted? && !Step(h, r, data[i]).live.cursor.Corrupted? {
      StepInCall(h, r, data[i]);
    }
  }
}
