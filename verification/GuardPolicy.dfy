/**
 * What the guard lets through: the opcode allowlist and the clipboard rules, as
 * hooks of the framer, and what they mean for whole instructions and streams.
 */
module GuardPolicyModule {
  import opened Framing
  import opened Decimal
  import opened GuacClient
  import opened Instructions
  import opened Chunking

  /** On-wire cap of a clipboard payload: 50 plaintext bytes times 1.33, truncated. */
  const MAX_CLIPBOARD_BYTES := 66

  const INT_MIN := -0x8000_0000
  const INT_MAX := 0x7fff_ffff

  /** A stream index: an optional '-' and digits, in the range of a 32-bit int; anything else is -1. */
  function ParseIndex(s: string): int {
    var negative := s != "" && s[0] == '-';
    var digits := if negative then s[1..] else s;
    if digits == "" || !AllDigits(digits) then -1 else
    var n: int := Value(digits);
    var v := if negative then -n else n;
    if INT_MIN <= v <= INT_MAX then v else -1
  }

  predicate IsAllowedOpcode(e: string) {
    e in ["key", "ack", "end", "blob", "size", "name", "argv", "audio", "video", "image", "mouse",
          "select", "connect", "timezone", "clipboard", "disconnect"]
  }

  datatype GuardPolicy = GuardPolicy(opcode: string, sidx: int, arg: nat, cap: bool)

  const NO_STREAM := GuardPolicy("", -1, 0, false)

  function GuardBegin(p: GuardPolicy, e: string): (GuardPolicy, bool) {
    (GuardPolicy(e, p.sidx, 0, false), IsAllowedOpcode(e))
  }

  function GuardArgument(p: GuardPolicy, e: string): (GuardPolicy, bool) {
    var q := p.(arg := p.arg + 1);
    if p.cap then (q.(cap := false), |e| <= MAX_CLIPBOARD_BYTES)
    else if q.arg == 1 then
      var sidx := ParseIndex(e);
      if q.opcode == "clipboard" then (q.(sidx := sidx), true)
      else if q.opcode == "blob" then
        if sidx < 0 || sidx != q.sidx then (q, false) else (q.(cap := true), true)
      else if q.opcode == "end" && sidx == q.sidx then (q.(sidx := -1), true)
      else (q, true)
    else (q, true)
  }

  function GuardEnd(p: GuardPolicy, i: nat): GuardPolicy { p }

  const GUARD: Hooks<GuardPolicy> := Hooks(GuardBegin, GuardArgument, GuardEnd, false)

  // ---- What the hooks mean for a whole instruction

  /** May this instruction cross while `open` is the open clipboard stream? */
  predicate Conforms(open: int, elems: seq<string>)
    requires elems != []
  {
    && IsAllowedOpcode(elems[0])
    && (elems[0] == "blob" && |elems| > 1 ==>
          && 0 <= ParseIndex(elems[1]) == open
          && (|elems| > 2 ==> |elems[2]| <= MAX_CLIPBOARD_BYTES))
  }

  /** The open clipboard stream after an instruction. */
  function Effect(open: int, elems: seq<string>): int
    requires elems != []
  {
    if |elems| == 1 then open
    else if elems[0] == "clipboard" then ParseIndex(elems[1])
    else if elems[0] == "end" && ParseIndex(elems[1]) == open then -1
    else open
  }

  /** The guard's own fields after the elements of an instruction it did not deny. */
  function PolicyAfter(open: int, elems: seq<string>): GuardPolicy
    requires elems != []
  {
    GuardPolicy(elems[0], Effect(open, elems), |elems| - 1, |elems| == 2 && elems[0] == "blob")
  }

  lemma ArgumentMeans(open: int, elems: seq<string>, e: string)
    requires elems != [] && Conforms(open, elems)
    ensures var (q, allowed) := GuardArgument(PolicyAfter(open, elems), e);
      && (allowed <==> Conforms(open, elems + [e]))
      && (if allowed then q == PolicyAfter(open, elems + [e]) else q.sidx == open)
  {
    assert |elems| > 1 ==> (elems + [e])[1] == elems[1];
    assert |elems| > 2 ==> (elems + [e])[2] == elems[2];
  }

  lemma ConformsPrefix(open: int, elems: seq<string>, e: string)
    requires elems != [] && Conforms(open, elems + [e])
    ensures Conforms(open, elems)
  {
    assert |elems| > 1 ==> (elems + [e])[1] == elems[1];
    assert |elems| > 2 ==> (elems + [e])[2] == elems[2];
  }

  /**
   * The guard allows an instruction if and only if it conforms; an allowed one has
   * its effect on the tracked stream, a denied one has none.
   */
  lemma {:induction false} GuardMeans(p: GuardPolicy, elems: seq<string>)
    requires elems != []
    ensures var (q, allowed) := Verdict(GUARD, p, elems);
      && (allowed <==> Conforms(p.sidx, elems))
      && (if allowed then q == PolicyAfter(p.sidx, elems) else q.sidx == p.sidx)
  {
    if |elems| > 1 {
      var init, e := elems[..|elems| - 1], elems[|elems| - 1];
      assert elems == init + [e];
      GuardMeans(p, init);
      if Conforms(p.sidx, init) {
        ArgumentMeans(p.sidx, init, e);
      } else if Conforms(p.sidx, elems) {
        ConformsPrefix(p.sidx, init, e);
      }
    }
  }

  /** A stream without the instructions that do not conform, the unfinished tail kept. */
  function Policed(open: int, s: string): string
    decreases |s|
  {
    match ParseInstruction(s)
    case Got(elems, rest) =>
      if Conforms(open, elems)
      then s[..|s| - |rest|] + Policed(Effect(open, elems), rest)
      else Policed(open, rest)
    case _ => s
  }

  lemma {:induction false} FilteredIsPoliced(p: GuardPolicy, s: string)
    ensures Filtered(GUARD, p, s) == Policed(p.sidx, s)
    decreases |s|
  {
    var parsed := ParseInstruction(s);
    hide ParseRest;
    if parsed.Got? {
      GuardMeans(p, parsed.elems);
      hide Verdict, Conforms, Effect;
      var (q, allowed) := Verdict(GUARD, p, parsed.elems);
      FilteredIsPoliced(q, parsed.rest);
    }
  }

  /**
   * What the guard forwards of a stream it does not give up on: the stream without
   * the instructions that do not conform, judged against the clipboard stream open
   * at that point.
   */
  lemma {:induction false} GuardForwardsConforming(s: string)
    requires Clean(Call(GUARD, Fresh(NO_STREAM), s))
    ensures Output(Call(GUARD, Fresh(NO_STREAM), s)) == Policed(-1, s)
  {
    CallFilters(GUARD, NO_STREAM, s);
    FilteredIsPoliced(NO_STREAM, s);
  }

  // ---- The clipboard rules against history

  /** The complete instructions of a stream, by the client's parser. */
  function AllInstructions(s: string): (instrs: seq<seq<string>>)
    ensures forall k :: 0 <= k < |instrs| ==> instrs[k] != []
  {
    match ParseInstruction(s)
    case Got(elems, rest) => [elems] + AllInstructions(rest)
    case _ => []
  }

  /** The clipboard stream opened by the last `clipboard` and not closed by a matching `end` since. */
  function OpenStream(open: int, instrs: seq<seq<string>>): int
    requires forall k :: 0 <= k < |instrs| ==> instrs[k] != []
  {
    if instrs == [] then open else
    var before := OpenStream(open, instrs[..|instrs| - 1]);
    var last := instrs[|instrs| - 1];
    if last[0] == "clipboard" && |last| > 1 then ParseIndex(last[1])
    else if last[0] == "end" && |last| > 1 && ParseIndex(last[1]) == before then -1
    else before
  }

  lemma {:induction false} OpenStreamFront(open: int, first: seq<string>, instrs: seq<seq<string>>)
    requires first != [] && forall k :: 0 <= k < |instrs| ==> instrs[k] != []
    ensures OpenStream(open, [first] + instrs) == OpenStream(Effect(open, first), instrs)
  {
    var all := [first] + instrs;
    if instrs == [] {
      assert all[..|all| - 1] == [];
    } else {
      assert all[..|all| - 1] == [first] + instrs[..|instrs| - 1];
      OpenStreamFront(open, first, instrs[..|instrs| - 1]);
    }
  }

  /** Every complete instruction conforms to the stream open when it begins. */
  ghost predicate Obeys(open: int, instrs: seq<seq<string>>)
    requires forall k :: 0 <= k < |instrs| ==> instrs[k] != []
  {
    forall k :: 0 <= k < |instrs| ==> Conforms(OpenStream(open, instrs[..k]), instrs[k])
  }

  lemma ObeysFront(open: int, first: seq<string>, instrs: seq<seq<string>>)
    requires first != [] && forall k :: 0 <= k < |instrs| ==> instrs[k] != []
    requires Conforms(open, first) && Obeys(Effect(open, first), instrs)
    ensures Obeys(open, [first] + instrs)
  {
    var all := [first] + instrs;
    forall k | 0 <= k < |all| ensures Conforms(OpenStream(open, all[..k]), all[k]) {
      if k > 0 {
        assert all[..k] == [first] + instrs[..k - 1];
        OpenStreamFront(open, first, instrs[..k - 1]);
      }
    }
  }

  /** One instruction of a run that denies nothing. */
  lemma ObeyedInstruction(r0: Run<GuardPolicy>, elems: seq<string>, q: Run<GuardPolicy>, text: string)
    requires Closed(GUARD, r0, elems, q, text) && q.ranges == r0.ranges
    ensures Conforms(r0.live.policy.sidx, elems) && q.live.policy.sidx == Effect(r0.live.policy.sidx, elems)
  {
    GuardMeans(r0.live.policy, elems);
  }

  /** The instructions of `s` obey the rules, and at a boundary the tracked stream is the open one. */
  ghost predicate Obedient(open: int, s: string, l: Live<GuardPolicy>) {
    && Obeys(open, AllInstructions(s))
    && (AtBoundary(l) ==> l.policy.sidx == OpenStream(open, AllInstructions(s)))
  }

  lemma ObedientMore(open: int, elems: seq<string>, s: string, rest: string, l: Live<GuardPolicy>)
    requires ParseInstruction(s) == Got(elems, rest) && Conforms(open, elems)
    requires Obedient(Effect(open, elems), rest, l)
    ensures Obedient(open, s, l)
  {
    hide ParseRest, Conforms, Effect;
    var later := AllInstructions(rest);
    ObeysFront(open, elems, later);
    OpenStreamFront(open, elems, later);
  }

  /** The first instruction of a run that denies nothing, and where it leaves the run. */
  lemma FirstObeys(r0: Run<GuardPolicy>, s: string, elems: seq<string>, rest: string) returns (q: Run<GuardPolicy>)
    requires Boundary(r0) && InCall(GUARD, r0) && Ascii(s)
    requires Clean(Feed(GUARD, r0, s)) && Feed(GUARD, r0, s).ranges == r0.ranges
    requires ParseInstruction(s) == Got(elems, rest)
    ensures Boundary(q) && InCall(GUARD, q) && Feed(GUARD, q, rest) == Feed(GUARD, r0, s) && q.ranges == r0.ranges
    ensures Conforms(r0.live.policy.sidx, elems) && q.live.policy.sidx == Effect(r0.live.policy.sidx, elems)
  {
    var head := s[..|s| - |rest|];
    q := Feed(GUARD, r0, head);
    FirstCloses(r0, s, elems, rest);
    ClosedBoundary(GUARD, r0, elems, q, head);
    hide Feed, ParseRest, Conforms, Effect, Closed;
    assert s == head + rest;
    FeedConcat(GUARD, r0, head, rest);
    FeedInCall(GUARD, r0, head);
    FeedExtends(GUARD, r0, head);
    FeedExtends(GUARD, q, rest);
    ObeyedInstruction(r0, elems, q, head);
  }

  lemma FirstCloses(r0: Run<GuardPolicy>, s: string, elems: seq<string>, rest: string)
    requires Boundary(r0) && Ascii(s) && ParseInstruction(s) == Got(elems, rest)
    ensures var head := s[..|s| - |rest|]; Closed(GUARD, r0, elems, Feed(GUARD, r0, head), head)
  {
    hide Feed, Closed, ParseRest;
    Walk(GUARD, r0, [], r0, "", s);
    var head := s[..|s| - |rest|];
    assert "" + head == head;
  }

  lemma {:induction false} ObeysFrom(r0: Run<GuardPolicy>, s: string)
    requires Boundary(r0) && InCall(GUARD, r0) && Ascii(s)
    requires Clean(Feed(GUARD, r0, s)) && Feed(GUARD, r0, s).ranges == r0.ranges
    ensures Obedient(r0.live.policy.sidx, s, Feed(GUARD, r0, s).live)
    decreases |s|
  {
    var parsed := ParseInstruction(s);
    if parsed.Got? {
      var q := FirstObeys(r0, s, parsed.elems, parsed.rest);
      hide Feed, ParseRest, Conforms, Effect, Obedient;
      ObeysFrom(q, parsed.rest);
      ObedientMore(r0.live.policy.sidx, parsed.elems, s, parsed.rest, Feed(GUARD, r0, s).live);
    } else {
      UnfinishedObeys(r0, s);
    }
  }

  lemma UnfinishedObeys(r0: Run<GuardPolicy>, s: string)
    requires Boundary(r0) && InCall(GUARD, r0) && Ascii(s) && Clean(Feed(GUARD, r0, s))
    requires !ParseInstruction(s).Got?
    ensures Obedient(r0.live.policy.sidx, s, Feed(GUARD, r0, s).live)
  {
    Walk(GUARD, r0, [], r0, "", s);
    assert s == "" ==> Feed(GUARD, r0, s) == r0;
    FeedInCall(GUARD, r0, s);
    hide Feed, ParseRest;
    assert AtBoundary(Feed(GUARD, r0, s).live) ==> r0.pending + s == "";
  }

  lemma ClosedBoundary<P>(h: Hooks<P>, r0: Run<P>, elems: seq<string>, q: Run<P>, text: string)
    requires Closed(h, r0, elems, q, text)
    ensures Boundary(q)
  {
  }

  // ---- What was forwarded, parsed again

  /** Equal in everything that can still matter: between instructions, of the policy only the tracked stream. */
  ghost predicate SameLive(a: Live<GuardPolicy>, b: Live<GuardPolicy>) {
    && a.cursor == b.cursor && a.opcode == b.opcode
    && a.policy.sidx == b.policy.sidx
    && (!a.opcode ==> a.policy == b.policy)
  }

  predicate PolicyOk(p: GuardPolicy) { p.cap ==> p.opcode == "blob" }

  /** The call `a` over what `r` would forward has denied nothing and is where `r` is. */
  ghost predicate Follows(r: Run<GuardPolicy>, a: Run<GuardPolicy>) {
    Clean(a) && a.ranges == [] && SameLive(a.live, r.live)
  }

  /**
   * `k` is the call over `r.kept`, `a` over `r.kept + r.pending`. As long as the
   * current instruction can still be denied, the tracked stream is as it was
   * before the instruction.
   */
  ghost predicate Reparses(r: Run<GuardPolicy>, k: Run<GuardPolicy>, a: Run<GuardPolicy>) {
    && PolicyOk(r.live.policy)
    && Clean(k) && k.ranges == [] && AtBoundary(k.live)
    && (r.denying || r.live.opcode || r.live.policy.opcode == "blob" ==> k.live.policy.sidx == r.live.policy.sidx)
    && (!r.denying ==> Follows(r, a))
  }

  lemma ReparsesAdvance(r: Run<GuardPolicy>, k: Run<GuardPolicy>, a: Run<GuardPolicy>, c: char)
    requires Reparses(r, k, a) && !r.live.cursor.Delim? && !Step(GUARD, r, c).live.cursor.Corrupted?
    ensures var q := Step(GUARD, r, c);
      Reparses(q, k, Step(GUARD, a, c)) && q.kept == r.kept && q.pending == r.pending + [c]
  {
  }

  /** Which policies a hook call can lead to. */
  lemma GuardHooks(p: GuardPolicy, p': GuardPolicy, e: string)
    requires PolicyOk(p) && p.sidx == p'.sidx
    ensures GUARD.begin(p, e) == GUARD.begin(p', e)
    ensures GUARD.begin(p, e).0.sidx == p.sidx && PolicyOk(GUARD.begin(p, e).0)
    ensures PolicyOk(GUARD.argument(p, e).0)
    ensures GUARD.argument(p, e).0.opcode == p.opcode
    ensures p.opcode == "blob" ==> GUARD.argument(p, e).0.sidx == p.sidx
    ensures !GUARD.argument(p, e).1 ==> p.opcode == "blob"
  {
  }

  lemma ReparsesAllowed(r: Run<GuardPolicy>, k: Run<GuardPolicy>, a: Run<GuardPolicy>, c: char)
    requires Reparses(r, k, a) && r.live.cursor.Delim? && !r.denying && (c == ',' || c == ';')
    requires !Judge(GUARD, r, r.live.cursor.elem).denying && !Judge(GUARD, r, r.live.cursor.elem).live.cursor.Corrupted?
    ensures var q, b := Step(GUARD, r, c), Step(GUARD, a, c);
      if c == ';' then q.kept == r.kept + r.pending + [c] && q.pending == "" && Reparses(q, b, b)
      else q.kept == r.kept && q.pending == r.pending + [c] && Reparses(q, k, b)
  {
    GuardHooks(r.live.policy, a.live.policy, r.live.cursor.elem);
    hide GuardBegin, GuardArgument;
  }

  lemma ReparsesDenied(r: Run<GuardPolicy>, k: Run<GuardPolicy>, a: Run<GuardPolicy>, c: char)
    requires Reparses(r, k, a) && r.live.cursor.Delim? && (c == ',' || c == ';')
    requires Judge(GUARD, r, r.live.cursor.elem).denying && (r.denying ==> !r.live.opcode)
    ensures var q := Step(GUARD, r, c);
      if c == ';' then q.kept == r.kept && q.pending == "" && Reparses(q, k, k)
      else q.kept == r.kept && q.pending == r.pending + [c] && forall b :: Reparses(q, k, b)
  {
    GuardHooks(r.live.policy, r.live.policy, r.live.cursor.elem);
    hide GuardBegin, GuardArgument;
  }

  function GuardCall(s: string): Run<GuardPolicy> { Call(GUARD, Fresh(NO_STREAM), s) }

  lemma StepReparses(r: Run<GuardPolicy>, c: char)
    requires InCall(GUARD, r) && Reparses(r, GuardCall(r.kept), GuardCall(r.kept + r.pending))
    requires !Step(GUARD, r, c).live.cursor.Corrupted?
    ensures var q := Step(GUARD, r, c); Reparses(q, GuardCall(q.kept), GuardCall(q.kept + q.pending))
  {
    var k, a := GuardCall(r.kept), GuardCall(r.kept + r.pending);
    var q := Step(GUARD, r, c);
    FeedLast(GUARD, NewCall(Fresh(NO_STREAM)), r.kept + r.pending, c);
    assert r.kept + (r.pending + [c]) == r.kept + r.pending + [c] == r.kept + r.pending + [c] + "";
    assert r.kept + "" == r.kept;
    StepCorrupted(GUARD, r, c);
    if !r.live.cursor.Delim? {
      hide Reparses, Feed;
      ReparsesAdvance(r, k, a, c);
    } else {
      assert (c == ',' || c == ';') && !Judge(GUARD, r, r.live.cursor.elem).live.cursor.Corrupted?;
      assert r.denying ==> Judge(GUARD, r, r.live.cursor.elem).denying;
      hide Reparses, Feed, Judge;
      if Judge(GUARD, r, r.live.cursor.elem).denying {
        ReparsesDenied(r, k, a, c);
      } else {
        ReparsesAllowed(r, k, a, c);
      }
    }
  }

  lemma {:induction false} CallReparses(s: string)
    requires !GuardCall(s).live.cursor.Corrupted?
    ensures var r := GuardCall(s); Reparses(r, GuardCall(r.kept), GuardCall(r.kept + r.pending))
  {
    if s != "" {
      var t, c := s[..|s| - 1], s[|s| - 1];
      var r := GuardCall(t);
      assert GuardCall(s) == Step(GUARD, r, c);
      hide Feed, Step, Reparses;
      StepCorrupted(GUARD, r, c);
      FeedInCall(GUARD, NewCall(Fresh(NO_STREAM)), t);
      CallReparses(t);
      StepReparses(r, c);
    }
  }

  /**
   * What the guard forwards of a stream is never corrupted and never denied by a
   * fresh guard, which then rests in the same framing state and tracks the same
   * clipboard stream as the guard that filtered it.
   */
  lemma {:induction false} ForwardedReparses(s: string)
    requires Clean(GuardCall(s))
    ensures var r := GuardCall(s); var q := GuardCall(Output(r));
      Clean(q) && q.ranges == [] && Output(q) == Output(r) && SameLive(q.live, r.live)
  {
    var r := GuardCall(s);
    CallReparses(s);
    var q := GuardCall(Output(r));
    NothingDenied(GUARD, NewCall(Fresh(NO_STREAM)), Output(r));
    assert "" + "" + Output(r) == Output(r);
  }

  /**
   * In what was forwarded, every complete blob names a non-negative index, the one
   * opened by the latest `clipboard` and not closed since, and its second argument
   * is within the cap; every opcode is on the allowlist. Where the stream rests at
   * a boundary the guard tracks exactly the open stream.
   */
  lemma {:induction false} ForwardedObeys(s: string)
    requires Clean(GuardCall(s))
    ensures var out := Output(GuardCall(s));
      && Obeys(-1, AllInstructions(out))
      && (AtBoundary(GuardCall(s).live) ==>
            GuardCall(s).live.policy.sidx == OpenStream(-1, AllInstructions(out)))
  {
    ForwardedReparses(s);
    var r0, out := NewCall(Fresh(NO_STREAM)), Output(GuardCall(s));
    UncorruptedIsAscii(GUARD, r0, out);
    ObeysFrom(r0, out);
  }
}
