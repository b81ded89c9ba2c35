/**
 * The incremental framer against the client's parser, instruction by instruction.
 * `Walk` follows both through one buffer; the rest of the module draws from it
 * that they agree, and that a call of the framer deletes exactly the
 * instructions its hooks refuse.
 */
module Instructions {
  import opened Framing
  import opened Decimal
  import opened GuacClient
  import opened Chunking

  /** The call after `s` was added to the element in progress. */
  function Grow<P>(r: Run<P>, k: Cursor, s: string): Run<P> {
    r.(live := r.live.(cursor := k),
       start := if r.live.opcode && r.live.cursor.Start? && s != "" then r.pos else r.start,
       pos := r.pos + |s|,
       pending := r.pending + s)
  }

  predicate NoDot(s: string) { forall i :: 0 <= i < |s| ==> s[i] != '.' }

  /** A length prefix without its dot: accepted exactly if it is a number within the cap. */
  ghost predicate AfterPrefix<P>(tolerant: bool, r: Run<P>, s: string, q: Run<P>) {
    if AllDigits(s) && (tolerant || Value(s) <= MAX_ELEMENT)
    then q == Grow(r, if s == "" then Start else Length(Value(s)), s)
    else q.live.cursor.Corrupted? && q.live.policy == r.live.policy && q.kept == r.kept && q.ranges == r.ranges
  }

  lemma PrefixStep<P>(h: Hooks<P>, r: Run<P>, t: string, c: char, q: Run<P>)
    requires r.live.cursor.Start? && AfterPrefix(h.tolerant, r, t, q) && c != '.'
    ensures AfterPrefix(h.tolerant, r, t + [c], Step(h, q, c))
  {
    var s := t + [c];
    assert s[..|t|] == t && (AllDigits(s) <==> AllDigits(t) && IsDigit(c)) by {
      assert s[|t|] == c && forall i :: 0 <= i < |t| ==> s[i] == t[i];
    }
    assert r.pending + s == r.pending + t + [c];
  }

  lemma {:induction false} PrefixRun<P>(h: Hooks<P>, r: Run<P>, s: string)
    requires r.live.cursor.Start? && NoDot(s)
    ensures AfterPrefix(h.tolerant, r, s, Feed(h, r, s))
  {
    if s == "" {
      assert r.pending + "" == r.pending;
    } else {
      var t, c := s[..|s| - 1], s[|s| - 1];
      assert s == t + [c];
      PrefixRun(h, r, t);
      PrefixStep(h, r, t, c, Feed(h, r, t));
    }
  }

  /** What a framer keeps of an element: a tolerant one lets the bytes beyond the cap go by. */
  function Clamped(e: string): string { if |e| <= MAX_ELEMENT then e else e[..MAX_ELEMENT] }

  /** An element a framer takes: bytes beyond the cap may be anything, if it tolerates them at all. */
  predicate Takes(tolerant: bool, e: string) { Ascii(Clamped(e)) && (tolerant || |e| <= MAX_ELEMENT) }

  lemma ClampedMore(s: string, c: char)
    ensures Clamped(s + [c]) == if |s| < MAX_ELEMENT then Clamped(s) + [c] else Clamped(s)
    ensures Ascii(Clamped(s + [c])) ==> Ascii(Clamped(s)) && (|s| < MAX_ELEMENT ==> IsAscii(c))
  {
    var t := s + [c];
    assert |s| >= MAX_ELEMENT ==> t[..MAX_ELEMENT] == s[..MAX_ELEMENT];
    if Ascii(Clamped(t)) {
      forall i | 0 <= i < |Clamped(s)| ensures IsAscii(Clamped(s)[i]) {
        assert Clamped(t)[i] == s[i];
      }
      if |s| < MAX_ELEMENT {
        assert Clamped(t)[|s|] == c;
      }
    }
  }

  lemma AdvanceKeeps(tolerant: bool, len: nat, t: string, c: char)
    requires |t| < len && Ascii(Clamped(t + [c])) && (tolerant || len <= MAX_ELEMENT)
    ensures Advance(tolerant, Data(len, |t|, Clamped(t)), c) ==
      if |t| + 1 == len then Delim(Clamped(t + [c])) else Data(len, |t| + 1, Clamped(t + [c]))
  {
    ClampedMore(t, c);
    hide Clamped, Ascii;
  }

  lemma DataStep<P>(h: Hooks<P>, r: Run<P>, len: nat, t: string, c: char)
    requires r.live.cursor.Data? && |t| < len && Ascii(Clamped(t + [c])) && (h.tolerant || len <= MAX_ELEMENT)
    ensures Step(h, Grow(r, Data(len, |t|, Clamped(t)), t), c) ==
      Grow(r, if |t| + 1 == len then Delim(Clamped(t + [c])) else Data(len, |t| + 1, Clamped(t + [c])), t + [c])
  {
    AdvanceKeeps(h.tolerant, len, t, c);
    hide Advance, Clamped, Ascii;
    assert r.pending + (t + [c]) == r.pending + t + [c];
  }

  /** Value bytes, up to the declared length. */
  lemma {:induction false} DataRun<P>(h: Hooks<P>, r: Run<P>, len: nat, s: string)
    requires r.live.cursor == Data(len, 0, "") && 0 < len && |s| <= len && Ascii(Clamped(s))
    requires h.tolerant || len <= MAX_ELEMENT
    ensures Feed(h, r, s) == Grow(r, if |s| == len then Delim(Clamped(s)) else Data(len, |s|, Clamped(s)), s)
  {
    if s == "" {
      assert r.pending + "" == r.pending;
    } else {
      var t, c := s[..|s| - 1], s[|s| - 1];
      assert s == t + [c];
      ClampedMore(t, c);
      assert Feed(h, r, s) == Step(h, Feed(h, r, t), c);
      hide Clamped, Feed, Step, Ascii;
      DataRun(h, r, len, t);
      DataStep(h, r, len, t, c);
    }
  }

  lemma GrowTwice<P>(r: Run<P>, k: Cursor, s: string, k': Cursor, t: string)
    requires s != "" && !k.Start?
    ensures Grow(Grow(r, k, s), k', t) == Grow(r, k', s + t)
  {
    assert r.pending + (s + t) == r.pending + s + t;
  }

  function AfterDot(n: nat): Cursor { if n == 0 then Delim("") else Data(n, 0, "") }

  /** A length prefix and its dot. */
  lemma DotRun<P>(h: Hooks<P>, r: Run<P>, prefix: string)
    requires r.live.cursor.Start? && prefix != "" && AllDigits(prefix) && (h.tolerant || Value(prefix) <= MAX_ELEMENT)
    ensures Feed(h, r, prefix + ".") == Grow(r, AfterDot(Value(prefix)), prefix + ".")
  {
    PrefixRun(h, r, prefix);
    assert (prefix + ".")[..|prefix|] == prefix;
    GrowTwice(r, Length(Value(prefix)), prefix, AfterDot(Value(prefix)), ".");
  }

  /** A complete element up to its delimiter, of any length the framer takes. */
  lemma ElementRun<P>(h: Hooks<P>, r: Run<P>, prefix: string, elem: string)
    requires r.live.cursor.Start? && prefix != "" && AllDigits(prefix)
    requires Value(prefix) == |elem| && Takes(h.tolerant, elem)
    ensures Feed(h, r, prefix + "." + elem) == Grow(r, Delim(Clamped(elem)), prefix + "." + elem)
  {
    var n := |elem|;
    DotRun(h, r, prefix);
    var d := Feed(h, r, prefix + ".");
    FeedConcat(h, r, prefix + ".", elem);
    if n == 0 {
      assert prefix + "." + elem == prefix + ".";
    } else {
      DataRun(h, d, n, elem);
      GrowTwice(r, AfterDot(n), prefix + ".", Delim(Clamped(elem)), elem);
    }
  }

  /** The hooks' view of an instruction: its opcode, then its arguments until one is refused. */
  function Verdict<P>(h: Hooks<P>, p: P, elems: seq<string>): (P, bool)
    requires elems != []
  {
    if |elems| == 1 then h.begin(p, elems[0]) else
    var (q, allowed) := Verdict(h, p, elems[..|elems| - 1]);
    if allowed then h.argument(q, elems[|elems| - 1]) else (q, false)
  }

  predicate Boundary<P>(r: Run<P>) {
    AtBoundary(r.live) && !r.denying && r.start == -1 && r.pending == ""
  }

  /** From the boundary `r0`, `text` brought the elements `elems`, each closed by ','. */
  ghost predicate Mid<P>(h: Hooks<P>, r0: Run<P>, elems: seq<string>, r: Run<P>, text: string) {
    && Boundary(r0)
    && r.live.cursor.Start? && r.pending == text && r.kept == r0.kept && r.ranges == r0.ranges
    && r.pos == r0.pos + |text|
    && if elems == [] then r == r0 && text == ""
       else
         && !r.live.opcode && r.start == r0.pos
         && (r.live.policy, !r.denying) == Verdict(h, r0.live.policy, elems)
         && r.refused == if r.denying then r0.refused + [r.live.policy] else r0.refused
  }

  /** From the boundary `r0`, `text` brought the whole instruction `elems`. */
  ghost predicate Closed<P>(h: Hooks<P>, r0: Run<P>, elems: seq<string>, r: Run<P>, text: string) {
    && Boundary(r) && elems != []
    && r.pos == r0.pos + |text| > 0
    && var (p, allowed) := Verdict(h, r0.live.policy, elems);
       if allowed
       then
         && r.kept == r0.kept + text && r.ranges == r0.ranges && r.refused == r0.refused
         && r.live.policy == h.end(p, r.pos - 1)
       else
         && r.kept == r0.kept && r.ranges == r0.ranges + [(r0.pos as int, |text|)] && r.refused == r0.refused + [p]
         && r.live.policy == p
  }

  lemma VerdictNext<P>(h: Hooks<P>, p: P, elems: seq<string>, elem: string)
    ensures Verdict(h, p, [elem]) == h.begin(p, elem)
    ensures elems != [] ==>
      Verdict(h, p, elems + [elem]) ==
        var (q, allowed) := Verdict(h, p, elems); if allowed then h.argument(q, elem) else (q, false)
  {
    assert (elems + [elem])[..|elems|] == elems;
  }

  /** The framer's judgement of one more element is the hooks' verdict. */
  lemma MidJudge<P>(h: Hooks<P>, r0: Run<P>, elems: seq<string>, r: Run<P>, text: string, s: string, elem: string)
    requires Mid(h, r0, elems, r, text) && s != ""
    ensures var j := Judge(h, Grow(r, Delim(elem), s), elem);
      && j.live.cursor == Delim(elem) && !j.live.opcode
      && j.kept == r0.kept && j.ranges == r0.ranges && j.pending == text + s
      && j.start == r0.pos && j.pos == r0.pos + |text + s|
      && (j.live.policy, !j.denying) == Verdict(h, r0.live.policy, elems + [elem])
      && j.refused == if j.denying then r0.refused + [j.live.policy] else r0.refused
  {
    VerdictNext(h, r0.live.policy, elems, elem);
    hide Verdict;
    if elems == [] {
      assert elems + [elem] == [elem];
    }
  }

  /** A complete element and its delimiter. */
  lemma DelimStep<P>(h: Hooks<P>, r0: Run<P>, elems: seq<string>, r: Run<P>, text: string, s: string, elem: string, c: char)
    requires Mid(h, r0, elems, r, text) && s != "" && (c == ',' || c == ';')
    ensures var q := Step(h, Grow(r, Delim(elem), s), c);
      if c == ',' then Mid(h, r0, elems + [elem], q, text + s + [c])
      else Closed(h, r0, elems + [elem], q, text + s + [c])
  {
    MidJudge(h, r0, elems, r, text, s, elem);
    hide Verdict, Judge;
    assert r0.kept + (text + s + [c]) == r0.kept + (text + s) + [c];
  }

  lemma ElementText(s: string)
    requires FirstElement(s).Whole?
    ensures var dot, e := FindDot(s), FirstElement(s);
      && 0 < dot < |s| && AllDigits(s[..dot]) && Value(s[..dot]) == |e.elem| <= MAX_ELEMENT
      && s[..e.end] == s[..dot] + "." + e.elem
      && (Ascii(s) ==> Ascii(e.elem))
  {
    var dot, e := FindDot(s), FirstElement(s);
    assert s[..e.end] == s[..dot] + [s[dot]] + s[dot + 1..e.end];
  }

  /** The text of the element the client finds, as the framer sees it. */
  lemma WholeElement<P>(h: Hooks<P>, r: Run<P>, s: string)
    requires Ascii(s) && FirstElement(s).Whole? && r.live.cursor.Start?
    ensures var e := FirstElement(s); Feed(h, r, s[..e.end]) == Grow(r, Delim(e.elem), s[..e.end])
  {
    ElementText(s);
    var dot, e := FindDot(s), FirstElement(s);
    hide Feed, Step, FirstElement, FindDot, AllDigits, Value, Ascii;
    ElementRun(h, r, s[..dot], e.elem);
  }

  /** Nothing was completed or denied, and what was not corrupted is pending. */
  ghost predicate Unfinished<P>(r: Run<P>, q: Run<P>, s: string) {
    && q.kept == r.kept && q.ranges == r.ranges
    && (q.live.cursor.Corrupted? || q.pending == r.pending + s)
  }

  lemma BadPrefix<P>(h: Hooks<P>, r: Run<P>, prefix: string, tail: string)
    requires r.live.cursor.Start? && NoDot(prefix) && !h.tolerant
    requires prefix == "" || !AllDigits(prefix) || Value(prefix) > MAX_ELEMENT
    ensures Unfinished(r, Feed(h, r, prefix + "." + tail), prefix + "." + tail)
  {
    PrefixRun(h, r, prefix);
    assert (prefix + ".")[..|prefix|] == prefix;
    FeedConcat(h, r, prefix + ".", tail);
    FeedCorrupted(h, Feed(h, r, prefix + "."), tail);
  }

  lemma ShortData<P>(h: Hooks<P>, r: Run<P>, prefix: string, tail: string)
    requires r.live.cursor.Start? && prefix != "" && AllDigits(prefix) && Value(prefix) <= MAX_ELEMENT
    requires |tail| <= Value(prefix) && Ascii(tail)
    ensures Unfinished(r, Feed(h, r, prefix + "." + tail), prefix + "." + tail)
  {
    var n := Value(prefix);
    DotRun(h, r, prefix);
    FeedConcat(h, r, prefix + ".", tail);
    var d := Grow(r, AfterDot(n), prefix + ".");
    var k := if n == |tail| then Delim(tail) else Data(n, |tail|, tail);
    assert Feed(h, d, tail) == Grow(d, k, tail) by {
      if n == 0 {
        assert d.pending + "" == d.pending;
      } else {
        DataRun(h, d, n, tail);
      }
    }
    GrowTwice(r, AfterDot(n), prefix + ".", k, tail);
  }

  /** Where the client finds no complete element, the framer completes none either. */
  lemma NoElement<P>(h: Hooks<P>, r: Run<P>, s: string)
    requires Ascii(s) && !FirstElement(s).Whole? && r.live.cursor.Start? && !h.tolerant
    ensures Unfinished(r, Feed(h, r, s), s)
  {
    var dot := FindDot(s);
    if dot < 0 {
      PrefixRun(h, r, s);
    } else {
      var prefix, tail := s[..dot], s[dot + 1..];
      assert s == prefix + "." + tail;
      if prefix == "" || !AllDigits(prefix) || Value(prefix) > MAX_ELEMENT {
        BadPrefix(h, r, prefix, tail);
      } else {
        ShortData(h, r, prefix, tail);
      }
    }
  }

  /** A byte after an element that is no delimiter. */
  lemma BadDelim<P>(h: Hooks<P>, r: Run<P>, elem: string, s: string, end: nat)
    requires end < |s| && Feed(h, r, s[..end]) == Grow(r, Delim(elem), s[..end]) && s[end] != ',' && s[end] != ';'
    ensures Unfinished(r, Feed(h, r, s), s)
  {
    hide Feed;
    FeedLast(h, r, s[..end], s[end]);
    assert s[..end + 1] == s[..end] + [s[end]];
    FeedConcat(h, r, s[..end + 1], s[end + 1..]);
    assert s == s[..end + 1] + s[end + 1..];
    FeedCorrupted(h, Feed(h, r, s[..end + 1]), s[end + 1..]);
  }

  /** From `r` on, `head` completes the instruction `es` whose earlier text is `text`, and no shorter prefix does. */
  ghost predicate Completes<P>(h: Hooks<P>, r0: Run<P>, r: Run<P>, text: string, es: seq<string>, head: string) {
    && head != ""
    && Closed(h, r0, es, Feed(h, r, head), text + head)
    && Feed(h, r, head[..|head| - 1]).kept == r0.kept
  }

  /** A complete element in front changes nothing about the rest. */
  lemma CompletesLater<P>(h: Hooks<P>, r0: Run<P>, r: Run<P>, text: string, es: seq<string>, a: string, q: Run<P>, head: string)
    requires q == Feed(h, r, a) && Completes(h, r0, q, text + a, es, head)
    ensures Completes(h, r0, r, text, es, a + head)
  {
    hide Feed;
    FeedConcat(h, r, a, head);
    FeedConcat(h, r, a, head[..|head| - 1]);
    assert (a + head)[..|a + head| - 1] == a + head[..|head| - 1];
    assert text + (a + head) == text + a + head;
  }

  lemma UnfinishedLater<P>(h: Hooks<P>, r: Run<P>, a: string, q: Run<P>, b: string)
    requires q == Feed(h, r, a) && q.kept == r.kept && q.ranges == r.ranges && q.pending == r.pending + a
    requires Unfinished(q, Feed(h, q, b), b)
    ensures Unfinished(r, Feed(h, r, a + b), a + b)
  {
    hide Feed;
    FeedConcat(h, r, a, b);
    assert r.pending + (a + b) == r.pending + a + b;
  }

  /** A complete element at the front of the buffer, with its delimiter. */
  lemma FrontElement<P>(h: Hooks<P>, r0: Run<P>, elems: seq<string>, r: Run<P>, text: string, s: string, elem: string, end: nat)
    requires Ascii(s) && Mid(h, r0, elems, r, text) && FirstElement(s) == Whole(elem, end)
    requires end < |s| && (s[end] == ',' || s[end] == ';')
    ensures var a := s[..end + 1]; var q := Feed(h, r, a);
      if s[end] == ';' then Completes(h, r0, r, text, elems + [elem], a)
      else && Mid(h, r0, elems + [elem], q, text + a)
           && q.kept == r.kept && q.ranges == r.ranges && q.pending == r.pending + a
  {
    WholeElement(h, r, s);
    hide Feed, Step, FirstElement;
    var a := s[..end + 1];
    assert a == s[..end] + [s[end]] && text + s[..end] + [s[end]] == text + a;
    FeedLast(h, r, s[..end], s[end]);
    DelimStep(h, r0, elems, r, text, s[..end], elem, s[end]);
    assert a[..|a| - 1] == s[..end];
  }

  /** What the client found in `s`, the framer finds as well. */
  ghost predicate Agree<P>(h: Hooks<P>, r0: Run<P>, r: Run<P>, text: string, s: string, parsed: Parsed) {
    match parsed
    case Got(es, rest) =>
      && |rest| < |s| && rest == s[|s| - |rest|..]
      && Completes(h, r0, r, text, es, s[..|s| - |rest|])
    case _ =>
      Unfinished(r, Feed(h, r, s), s)
  }

  lemma AgreeMore<P>(h: Hooks<P>, r0: Run<P>, elems: seq<string>, r: Run<P>, text: string, s: string, a: string, b: string, parsed: Parsed)
    requires s == a + b && a != ""
    requires var q := Feed(h, r, a);
      && Mid(h, r0, elems, q, text + a)
      && q.kept == r.kept && q.ranges == r.ranges && q.pending == r.pending + a
      && Agree(h, r0, q, text + a, b, parsed)
    ensures Agree(h, r0, r, text, s, parsed)
  {
    hide Feed, Step, Mid, Completes, Unfinished;
    if parsed.Got? {
      var head := b[..|b| - |parsed.rest|];
      CompletesLater(h, r0, r, text, parsed.elems, a, Feed(h, r, a), head);
      assert s[..|s| - |parsed.rest|] == a + head && s[|s| - |parsed.rest|..] == b[|b| - |parsed.rest|..];
    } else {
      UnfinishedLater(h, r, a, Feed(h, r, a), b);
    }
  }

  lemma AgreeEnd<P>(h: Hooks<P>, r0: Run<P>, elems: seq<string>, r: Run<P>, text: string, s: string)
    requires Ascii(s) && Mid(h, r0, elems, r, text) && FirstElement(s).Whole? && s[FirstElement(s).end] == ';'
    ensures Agree(h, r0, r, text, s, ParseRest(s, elems))
  {
    var e := FirstElement(s);
    FrontElement(h, r0, elems, r, text, s, e.elem, e.end);
    var rest := s[e.end + 1..];
    assert ParseRest(s, elems) == Got(elems + [e.elem], rest);
    hide ParseRest, Feed, Completes, FirstElement;
    assert |s| - |rest| == e.end + 1;
  }

  lemma AgreeNone<P>(h: Hooks<P>, r0: Run<P>, elems: seq<string>, r: Run<P>, text: string, s: string)
    requires Ascii(s) && !h.tolerant && r.live.cursor.Start? && !FirstElement(s).Whole?
    ensures Agree(h, r0, r, text, s, ParseRest(s, elems))
  {
    NoElement(h, r, s);
  }

  lemma AgreeBad<P>(h: Hooks<P>, r0: Run<P>, elems: seq<string>, r: Run<P>, text: string, s: string)
    requires Ascii(s) && r.live.cursor.Start? && FirstElement(s).Whole?
    requires s[FirstElement(s).end] != ';' && s[FirstElement(s).end] != ','
    ensures Agree(h, r0, r, text, s, ParseRest(s, elems))
  {
    WholeElement(h, r, s);
    BadDelim(h, r, FirstElement(s).elem, s, FirstElement(s).end);
  }

  /** Both parsers through one buffer, from element `|elems|` on. */
  lemma {:induction false} Walk<P>(h: Hooks<P>, r0: Run<P>, elems: seq<string>, r: Run<P>, text: string, s: string)
    requires Ascii(s) && !h.tolerant && Mid(h, r0, elems, r, text)
    ensures Agree(h, r0, r, text, s, ParseRest(s, elems))
    decreases |s|
  {
    assert r.live.cursor.Start?;
    hide Feed, Step, FirstElement, Completes, Closed, Unfinished, Mid, Agree, Ascii;
    var e := FirstElement(s);
    if !e.Whole? {
      AgreeNone(h, r0, elems, r, text, s);
    } else if s[e.end] == ';' {
      AgreeEnd(h, r0, elems, r, text, s);
    } else if s[e.end] == ',' {
      FrontElement(h, r0, elems, r, text, s, e.elem, e.end);
      var a, b := s[..e.end + 1], s[e.end + 1..];
      Cut(s, e.end + 1);
      Walk(h, r0, elems + [e.elem], Feed(h, r, a), text + a, b);
      AgreeMore(h, r0, elems + [e.elem], r, text, s, a, b, ParseRest(s, elems));
    } else {
      AgreeBad(h, r0, elems, r, text, s);
    }
  }

  // ---- The two parsers agree

  /** The neutral framer: it allows everything and only keeps the elements it was given. */
  datatype Collected = Collected(current: seq<string>, done: seq<seq<string>>)

  function Collector(tolerant: bool): Hooks<Collected> {
    Hooks(
      (p: Collected, e: string) => (p.(current := [e]), true),
      (p: Collected, e: string) => (p.(current := p.current + [e]), true),
      (p: Collected, i: nat) => Collected([], p.done + [p.current]),
      tolerant)
  }

  /** The instructions the neutral framer has completed after `s`. */
  function Done(s: string): seq<seq<string>> {
    Call(Collector(false), Fresh(Collected([], [])), s).live.policy.done
  }

  lemma {:induction false} CollectorVerdict(tolerant: bool, p: Collected, elems: seq<string>)
    requires elems != []
    ensures Verdict(Collector(tolerant), p, elems) == (Collected(elems, p.done), true)
  {
    if |elems| == 1 {
      assert elems == [elems[0]];
    } else {
      CollectorVerdict(tolerant, p, elems[..|elems| - 1]);
      assert elems[..|elems| - 1] + [elems[|elems| - 1]] == elems;
    }
  }

  lemma StepDone(r: Run<Collected>, c: char)
    ensures var q := Step(Collector(false), r, c);
      && |r.live.policy.done| <= |q.live.policy.done|
      && (!r.denying ==> !q.denying)
      && (!r.denying && (r.kept == "" <==> r.live.policy.done == []) ==>
            (q.kept == "" <==> q.live.policy.done == []))
  {
  }

  lemma {:induction false} DoneGrows(s: string, m: nat)
    requires m <= |s|
    ensures |Done(s[..m])| <= |Done(s)|
    ensures var r := Call(Collector(false), Fresh(Collected([], [])), s);
      !r.denying && (r.kept == "" <==> Done(s) == [])
  {
    if s == "" {
    } else {
      var t, c := s[..|s| - 1], s[|s| - 1];
      StepDone(Call(Collector(false), Fresh(Collected([], [])), t), c);
      if m == |s| {
        assert s[..m] == s;
        DoneGrows(t, |t|);
      } else {
        DoneGrows(t, m);
        assert t[..m] == s[..m];
      }
    }
  }

  /** The neutral framer completes its first instruction, `elems`, with byte `n` of the buffer. */
  ghost predicate FirstInstruction(buf: string, n: nat, elems: seq<string>) {
    0 < n <= |buf| && Done(buf[..n - 1]) == [] && Done(buf[..n]) == [elems]
  }

  lemma CompletesFirst(head: string, elems: seq<string>)
    requires var r0 := NewCall(Fresh(Collected([], []))); Completes(Collector(false), r0, r0, "", elems, head)
    ensures Done(head[..|head| - 1]) == [] && Done(head) == [elems]
  {
    CollectorVerdict(false, Collected([], []), elems);
    DoneGrows(head[..|head| - 1], 0);
    hide Feed, Step;
    assert [] + [elems] == [elems];
  }

  /** The client's answer, in terms of the neutral framer. */
  ghost predicate Answers(buf: string, parsed: Parsed) {
    match parsed
    case Got(elems, rest) =>
      |rest| < |buf| && rest == buf[|buf| - |rest|..] && FirstInstruction(buf, |buf| - |rest|, elems)
    case _ => Done(buf) == []
  }

  lemma AnswersGot(buf: string, elems: seq<string>, rest: string)
    requires var r0 := NewCall(Fresh(Collected([], []))); Agree(Collector(false), r0, r0, "", buf, Got(elems, rest))
    ensures Answers(buf, Got(elems, rest))
  {
    var head := buf[..|buf| - |rest|];
    CompletesFirst(head, elems);
    hide Done, Completes;
    assert buf[..|head| - 1] == head[..|head| - 1];
  }

  lemma AnswersNone(buf: string, parsed: Parsed)
    requires var r0 := NewCall(Fresh(Collected([], []))); Agree(Collector(false), r0, r0, "", buf, parsed)
    requires !parsed.Got?
    ensures Answers(buf, parsed)
  {
    DoneGrows(buf, |buf|);
    hide Feed;
  }

  lemma ClientImpliesFramer(buf: string)
    requires Ascii(buf)
    ensures Answers(buf, ParseInstruction(buf))
  {
    var r0 := NewCall(Fresh(Collected([], [])));
    Walk(Collector(false), r0, [], r0, "", buf);
    var parsed := ParseInstruction(buf);
    hide Feed, Agree, Answers;
    if parsed.Got? {
      AnswersGot(buf, parsed.elems, parsed.rest);
    } else {
      AnswersNone(buf, parsed);
    }
  }

  /**
   * On any ASCII buffer the client returns `(elems, rest)` if and only if the
   * incremental framer completes its first instruction exactly where `rest`
   * begins, having handed the same elements to its hooks.
   */
  lemma SameFirstInstruction(buf: string, elems: seq<string>, rest: string)
    requires Ascii(buf)
    ensures ParseInstruction(buf) == Got(elems, rest)
      <==> exists n: nat :: FirstInstruction(buf, n, elems) && rest == buf[n..]
  {
    ClientImpliesFramer(buf);
    forall n: nat | FirstInstruction(buf, n, elems)
      ensures ParseInstruction(buf) == Got(elems, buf[n..])
    {
      FirstIsUnique(buf, n, elems);
    }
  }

  lemma FirstNotLater(buf: string, m: nat, n: nat, es: seq<string>, elems: seq<string>)
    requires FirstInstruction(buf, m, es) && FirstInstruction(buf, n, elems)
    ensures n <= m
  {
    hide Done;
    if m < n {
      assert buf[..n - 1][..m] == buf[..m];
      DoneGrows(buf[..n - 1], m);
    }
  }

  lemma FirstIsUnique(buf: string, n: nat, elems: seq<string>)
    requires Ascii(buf) && FirstInstruction(buf, n, elems)
    ensures ParseInstruction(buf) == Got(elems, buf[n..])
  {
    ClientImpliesFramer(buf);
    DoneGrows(buf, n);
    hide Done, ParseRest, ParseInstruction;
    var parsed := ParseInstruction(buf);
    assert parsed.Got?;
    var m := |buf| - |parsed.rest|;
    FirstNotLater(buf, m, n, parsed.elems, elems);
    FirstNotLater(buf, n, m, elems, parsed.elems);
  }

  // ---- A call deletes exactly the refused instructions

  /** What should be left of a stream that begins at an instruction boundary. */
  function Filtered<P>(h: Hooks<P>, p: P, s: string): string {
    match ParseInstruction(s)
    case Got(elems, rest) =>
      var (q, allowed) := Verdict(h, p, elems);
      if allowed then s[..|s| - |rest|] + Filtered(h, h.end(q, 0), rest) else Filtered(h, q, rest)
    case _ => s
  }

  lemma StepAscii<P>(h: Hooks<P>, r: Run<P>, c: char)
    requires !h.tolerant && InCall(h, r) && !Step(h, r, c).live.cursor.Corrupted?
    ensures IsAscii(c)
  {
  }

  lemma {:induction false} UncorruptedIsAscii<P>(h: Hooks<P>, r: Run<P>, s: string)
    requires !h.tolerant && InCall(h, r) && !Feed(h, r, s).live.cursor.Corrupted?
    ensures Ascii(s)
  {
    if s != "" {
      var t, c := s[..|s| - 1], s[|s| - 1];
      FeedLast(h, r, t, c);
      assert s == t + [c];
      hide Feed;
      StepCorrupted(h, Feed(h, r, t), c);
      FeedInCall(h, r, t);
      UncorruptedIsAscii(h, r, t);
      StepAscii(h, Feed(h, r, t), c);
    }
  }

  /** From the boundary `r0` the call forwards what the filter leaves. */
  ghost predicate Forwards<P>(h: Hooks<P>, r0: Run<P>, s: string) {
    Output(Feed(h, r0, s)) == r0.kept + Filtered(h, r0.live.policy, s)
  }

  lemma FilterNext<P(!new)>(h: Hooks<P>, r0: Run<P>, elems: seq<string>, q: Run<P>, head: string, s: string, rest: string)
    requires IndexFree(h) && Closed(h, r0, elems, q, head) && s == head + rest
    requires ParseInstruction(s) == Got(elems, rest)
    ensures q.kept + Filtered(h, q.live.policy, rest) == r0.kept + Filtered(h, r0.live.policy, s)
  {
    hide ParseRest, Verdict;
    var (p, allowed) := Verdict(h, r0.live.policy, elems);
    assert s[..|s| - |rest|] == head;
    assert allowed ==> h.end(p, q.pos - 1) == h.end(p, 0);
    Assoc(r0.kept, head, Filtered(h, q.live.policy, rest));
  }

  lemma FilterGot<P(!new)>(h: Hooks<P>, r0: Run<P>, s: string, elems: seq<string>, rest: string, head: string)
    requires IndexFree(h) && Closed(h, r0, elems, Feed(h, r0, head), head) && s == head + rest
    requires ParseInstruction(s) == Got(elems, rest) && Forwards(h, Feed(h, r0, head), rest)
    ensures Forwards(h, r0, s)
  {
    FeedConcat(h, r0, head, rest);
    FilterNext(h, r0, elems, Feed(h, r0, head), head, s, rest);
    hide Feed, Closed, Filtered;
  }

  lemma FilterNone<P(!new)>(h: Hooks<P>, r0: Run<P>, s: string)
    requires Boundary(r0) && Clean(Feed(h, r0, s)) && !ParseInstruction(s).Got? && Unfinished(r0, Feed(h, r0, s), s)
    ensures Forwards(h, r0, s)
  {
    hide Feed, ParseRest;
    assert r0.pending + s == s;
  }

  /** From any instruction boundary on. */
  lemma {:induction false} FilterFrom<P(!new)>(h: Hooks<P>, r0: Run<P>, s: string)
    requires !h.tolerant && IndexFree(h) && Boundary(r0) && Ascii(s) && Clean(Feed(h, r0, s))
    ensures Forwards(h, r0, s)
    decreases |s|
  {
    Walk(h, r0, [], r0, "", s);
    var parsed := ParseInstruction(s);
    if parsed.Got? {
      var head := s[..|s| - |parsed.rest|];
      assert "" + head == head;
      Cut(s, |head|);
      FeedConcat(h, r0, head, parsed.rest);
      assert Boundary(Feed(h, r0, head)) && Closed(h, r0, parsed.elems, Feed(h, r0, head), head);
      hide Feed, ParseRest, Closed, Forwards, Ascii, IndexFree;
      FilterFrom(h, Feed(h, r0, head), parsed.rest);
      FilterGot(h, r0, s, parsed.elems, parsed.rest, head);
    } else {
      FilterNone(h, r0, s);
    }
  }

  /**
   * A clean call over a stream that begins at an instruction boundary forwards the
   * stream without the instructions its hooks refuse, an unfinished tail included.
   */
  lemma CallFilters<P(!new)>(h: Hooks<P>, p: P, s: string)
    requires !h.tolerant && IndexFree(h) && Clean(Call(h, Fresh(p), s))
    ensures Output(Call(h, Fresh(p), s)) == Filtered(h, p, s)
  {
    var r0 := NewCall(Fresh(p));
    UncorruptedIsAscii(h, r0, s);
    FilterFrom(h, r0, s);
  }
}
