/**
 * The incremental Guacamole framer shared by every parser of the bridge, as a
 * fold of one byte step. A byte is a `char`; nothing below assumes that it is
 * smaller than 256, so every statement covers all byte streams.
 *
 * What the subclasses of the framer add is a `Hooks` record: the three virtual
 * hooks, as functions of the subclass' own fields `P`, and the tolerance for
 * oversized elements.
 */
module Framing {

  const MAX_ELEMENT: nat := 8192

  datatype Hooks<!P> = Hooks(
    begin: (P, string) -> (P, bool),
    argument: (P, string) -> (P, bool),
    end: (P, nat) -> P,
    tolerant: bool)

  /** Where in an element the framer sits; carries exactly the fields that are live there. */
  datatype Cursor =
    | Start                                    // no digit of the length prefix yet
    | Length(len: nat)                         // inside the digits of the length prefix
    | Data(len: nat, read: nat, buf: string)   // inside the value
    | Delim(elem: string)                      // value complete: ',' or ';' must follow
    | Corrupted

  /** What survives from one Parse call to the next. `opcode`: the element is an opcode. */
  datatype Live<P> = Live(cursor: Cursor, opcode: bool, policy: P)

  /**
   * A Parse call in progress. `start` is the index of the first digit of the
   * current instruction if that digit was read in this call, else -1. `kept` is
   * the text of everything before the current instruction that was not denied,
   * `pending` the text of the current instruction seen in this call. `refused`
   * is the policy right after each denial.
   */
  datatype Run<P> = Run(
    live: Live<P>,
    denying: bool,
    start: int,
    pos: nat,
    ranges: seq<(int, int)>,
    kept: string,
    pending: string,
    refused: seq<P>)

  predicate IsDigit(c: char) { '0' <= c <= '9' }

  function DigitValue(c: char): (d: nat)
    requires IsDigit(c)
  {
    c as int - '0' as int
  }

  predicate IsAscii(c: char) { c as int <= 127 }

  predicate Ascii(s: string) { forall i :: 0 <= i < |s| ==> IsAscii(s[i]) }

  /** One byte of a length prefix or of a value. */
  function Advance(tolerant: bool, k: Cursor, c: char): Cursor
    requires k.Start? || k.Length? || k.Data?
  {
    if k.Data? then
      if k.read < MAX_ELEMENT && !IsAscii(c) then Corrupted else
      var stored := if k.read < MAX_ELEMENT then k.buf + [c] else k.buf;
      if k.read + 1 == k.len then Delim(stored) else Data(k.len, k.read + 1, stored)
    else if IsDigit(c) then
      var n := (if k.Start? then 0 else k.len) * 10 + DigitValue(c);
      if n > MAX_ELEMENT && !tolerant then Corrupted else Length(n)
    else if c == '.' && k.Length? then
      if k.len == 0 then Delim("") else Data(k.len, 0, "")
    else Corrupted
  }

  /** Once the stream is corrupted only the policy is still meaningful. */
  function Corrupt<P>(r: Run<P>): Run<P> {
    r.(live := Live(Corrupted, true, r.live.policy))
  }

  /** The hook call for a completed element, and the denial it may lead to. */
  function Judge<P>(h: Hooks<P>, r: Run<P>, elem: string): Run<P> {
    if r.denying then r else
    var (p, allowed) := if r.live.opcode then h.begin(r.live.policy, elem) else h.argument(r.live.policy, elem);
    var q := r.(live := Live(r.live.cursor, false, p));
    if allowed then q
    else if r.start < 0 then Corrupt(q)
    else q.(denying := true, refused := r.refused + [p])
  }

  /** The ',' or ';' that closes a judged element. */
  function Close<P>(h: Hooks<P>, r: Run<P>, c: char): Run<P> {
    if r.live.cursor.Corrupted? then r
    else if c != ';' then r.(live := r.live.(cursor := Start), pos := r.pos + 1, pending := r.pending + [c])
    else if r.denying then
      Run(Live(Start, true, r.live.policy), false, -1, r.pos + 1,
          r.ranges + [(r.start, r.pos - r.start + 1)], r.kept, "", r.refused)
    else
      Run(Live(Start, true, h.end(r.live.policy, r.pos)), false, -1, r.pos + 1,
          r.ranges, r.kept + r.pending + [c], "", r.refused)
  }

  function Step<P>(h: Hooks<P>, r: Run<P>, c: char): Run<P> {
    match r.live.cursor
    case Corrupted => r
    case Delim(elem) =>
      if c == ',' || c == ';' then Close(h, Judge(h, r, elem), c) else Corrupt(r)
    case k =>
      var k' := Advance(h.tolerant, k, c);
      if k'.Corrupted? then Corrupt(r)
      else r.(live := r.live.(cursor := k'),
              start := if r.live.opcode && k.Start? then r.pos else r.start,
              pos := r.pos + 1,
              pending := r.pending + [c])
  }

  function Feed<P>(h: Hooks<P>, r: Run<P>, s: string): Run<P> {
    if s == "" then r else Step(h, Feed(h, r, s[..|s| - 1]), s[|s| - 1])
  }

  function NewCall<P>(live: Live<P>): Run<P> { Run(live, false, -1, 0, [], "", "", []) }

  function Fresh<P>(policy: P): Live<P> { Live(Start, true, policy) }

  /** One Parse call over `s`, before the check at its end. */
  function Call<P>(h: Hooks<P>, live: Live<P>, s: string): Run<P> { Feed(h, NewCall(live), s) }

  /** The call did not return STREAM_CORRUPTED: framing held and no denied instruction is left open. */
  predicate Clean<P>(r: Run<P>) { !r.live.cursor.Corrupted? && !r.denying }

  /** The state the call leaves behind. */
  function Rest<P>(r: Run<P>): Live<P> {
    if r.denying then Corrupt(r).live else r.live
  }

  /** What the caller forwards after a clean call. */
  function Output<P>(r: Run<P>): string { r.kept + r.pending }

  predicate AtBoundary<P>(l: Live<P>) { l.cursor.Start? && l.opcode }

  function Concat(chunks: seq<string>): string {
    if chunks == [] then "" else Concat(chunks[..|chunks| - 1]) + chunks[|chunks| - 1]
  }

  /** What every cursor satisfies that the framer can reach. */
  predicate Framed(tolerant: bool, k: Cursor) {
    match k
    case Start => true
    case Length(n) => tolerant || n <= MAX_ELEMENT
    case Data(n, read, buf) =>
      && read < n
      && (tolerant || n <= MAX_ELEMENT)
      && Ascii(buf)
      && |buf| == if read < MAX_ELEMENT then read else MAX_ELEMENT
    case Delim(elem) => |elem| <= MAX_ELEMENT && Ascii(elem)
    case Corrupted => true
  }

  /** What every call in progress satisfies. */
  predicate InCall<P>(h: Hooks<P>, r: Run<P>) {
    && Framed(h.tolerant, r.live.cursor)
    && -1 <= r.start < r.pos
    && (r.denying ==> r.start >= 0 && !r.live.opcode)
    && (AtBoundary(r.live) ==> r.start == -1 && r.pending == "")
  }

  lemma {:induction false} FeedConcat<P>(h: Hooks<P>, r: Run<P>, a: string, b: string)
    ensures Feed(h, r, a + b) == Feed(h, Feed(h, r, a), b)
  {
    if b == "" {
      assert a + b == a;
    } else {
      var n := |b| - 1;
      assert (a + b)[..|a + b| - 1] == a + b[..n];
      FeedConcat(h, r, a, b[..n]);
    }
  }

  lemma StepInCall<P>(h: Hooks<P>, r: Run<P>, c: char)
    requires InCall(h, r) && !r.live.cursor.Corrupted?
    ensures var q := Step(h, r, c); q.live.cursor.Corrupted? || (InCall(h, q) && q.pos == r.pos + 1)
  {
  }

  lemma StepCorrupted<P>(h: Hooks<P>, r: Run<P>, c: char)
    ensures r.live.cursor.Corrupted? ==> Step(h, r, c) == r
  {
  }

  /** A corrupted call stays corrupted, whatever follows. */
  lemma {:induction false} FeedCorrupted<P>(h: Hooks<P>, r: Run<P>, s: string)
    requires r.live.cursor.Corrupted?
    ensures Feed(h, r, s) == r
  {
    if s != "" {
      FeedCorrupted(h, r, s[..|s| - 1]);
    }
  }

  lemma {:induction false} FeedInCall<P>(h: Hooks<P>, r: Run<P>, s: string)
    requires InCall(h, r)
    ensures var q := Feed(h, r, s); q.live.cursor.Corrupted? || (InCall(h, q) && q.pos == r.pos + |s|)
  {
    if s != "" {
      hide Step, InCall;
      FeedInCall(h, r, s[..|s| - 1]);
      var q := Feed(h, r, s[..|s| - 1]);
      StepCorrupted(h, q, s[|s| - 1]);
      if !q.live.cursor.Corrupted? {
        StepInCall(h, q, s[|s| - 1]);
      }
    }
  }

  /** The call over one byte more; the byte that corrupts it settles the whole buffer. */
  lemma CallNext<P>(h: Hooks<P>, live: Live<P>, s: string, i: nat)
    requires i < |s|
    ensures Call(h, live, s[..i + 1]) == Step(h, Call(h, live, s[..i]), s[i])
    ensures Call(h, live, s[..i + 1]).live.cursor.Corrupted? ==> Call(h, live, s) == Call(h, live, s[..i + 1])
  {
    assert s[..i + 1][..i] == s[..i];
    var r := Call(h, live, s[..i + 1]);
    if r.live.cursor.Corrupted? {
      FeedConcat(h, NewCall(live), s[..i + 1], s[i + 1..]);
      assert s == s[..i + 1] + s[i + 1..];
      FeedCorrupted(h, r, s[i + 1..]);
    }
  }

  lemma FeedLast<P>(h: Hooks<P>, r: Run<P>, s: string, c: char)
    ensures Feed(h, r, s + [c]) == Step(h, Feed(h, r, s), c)
  {
    assert (s + [c])[..|s|] == s;
  }

  /** How one byte changes the ranges and the open instruction. */
  predicate Progress<P>(r: Run<P>, q: Run<P>, c: char) {
    && (q.ranges == r.ranges
        || (q.ranges == r.ranges + [(r.start, r.pos - r.start + 1)] && r.start >= 0 && AtBoundary(q.live)))
    && (r.start >= 0 ==> if AtBoundary(q.live) then c == ';' && q.start == -1 else q.start == r.start)
    && (r.start < 0 ==>
          if AtBoundary(r.live) && !AtBoundary(q.live) then q.start == r.pos && IsDigit(c) else q.start == -1)
  }

  lemma StepProgress<P>(h: Hooks<P>, r: Run<P>, c: char)
    requires InCall(h, r) && !Step(h, r, c).live.cursor.Corrupted?
    ensures Progress(r, Step(h, r, c), c)
  {
  }

  // ---- Sequences

  lemma Assoc<T>(a: seq<T>, b: seq<T>, c: seq<T>)
    ensures a + (b + c) == a + b + c
  {
  }

  lemma Cut(s: string, n: nat)
    requires n <= |s|
    ensures s == s[..n] + s[n..]
    ensures Ascii(s) ==> Ascii(s[..n]) && Ascii(s[n..])
  {
  }
}
