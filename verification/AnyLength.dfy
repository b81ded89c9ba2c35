/**
 * Elements beyond the cap, which a tolerant framer lets go by: what it hands out of
 * them, and that what follows them in the stream is not disturbed.
 */
module AnyLength {
  import opened Framing
  import opened Decimal
  import opened Chunking
  import opened Instructions
  import opened Encoding
  import opened NeutralFraming
  import opened Observer
  import opened SyncFakerModule

  /** What a tolerant framer keeps of some instructions. */
  function ClampedInstructions(instrs: seq<seq<string>>): seq<seq<string>> {
    if instrs == [] then [] else [ClampedAll(instrs[0])] + ClampedInstructions(instrs[1..])
  }

  /** Instructions with elements of any length; only the first 8192 bytes of each need to be ASCII. */
  predicate Readable(instrs: seq<seq<string>>) {
    forall k :: 0 <= k < |instrs| ==> instrs[k] != [] && TakesAll(true, instrs[k])
  }

  /**
   * A length prefix and as many bytes, whatever the hooks: the element is complete,
   * and of it the first 8192 bytes are kept.
   */
  lemma {:induction false} SurplusGoesBy<P>(h: Hooks<P>, r: Run<P>, n: nat, v: string)
    requires h.tolerant && r.live.cursor.Start? && |v| == n
    requires Ascii(if n <= 8192 then v else v[..8192])
    ensures Feed(h, r, Numeral(n) + "." + v).live == r.live.(cursor := Delim(if n <= 8192 then v else v[..8192]))
  {
    ElementRun(h, r, Numeral(n), v);
    hide Feed, Numeral;
  }

  lemma OneRead(p: Collected, es: seq<string>)
    requires es != [] && TakesAll(true, es)
    ensures Read(true, Fresh(p), Instr(es)) == Fresh(Collected([], p.done + [ClampedAll(es)]))
  {
    var h, r := Collector(true), NewCall(Fresh(p));
    assert Mid(h, r, [], r, "");
    hide Feed, Instr, ClampedAll, TakesAll, Mid;
    RunAnyLength(h, r, [], r, "", es);
    assert [] + ClampedAll(es) == ClampedAll(es) && "" + Instr(es) == Instr(es);
    CollectorVerdict(true, p, ClampedAll(es));
    hide Verdict;
  }

  /** From a boundary, the tolerant framer reads each printed instruction, oversized elements clamped, and no other. */
  lemma {:induction false} ReadsClamped(done: seq<seq<string>>, instrs: seq<seq<string>>)
    requires Readable(instrs)
    ensures Read(true, Fresh(Collected([], done)), EncodeAll(instrs)) == Fresh(Collected([], done + ClampedInstructions(instrs)))
    decreases |instrs|
  {
    var l := Fresh(Collected([], done));
    if instrs == [] {
      assert Read(true, l, "") == l && done + [] == done;
    } else {
      var one, rest := [ClampedAll(instrs[0])], instrs[1..];
      OneRead(Collected([], done), instrs[0]);
      hide Read, Instr, TakesAll, ClampedAll;
      ReadConcat(true, l, Instr(instrs[0]), EncodeAll(rest));
      ReadsClamped(done + one, rest);
      Assoc(done, one, ClampedInstructions(rest));
    }
  }

  /** An uncorrupted reading is what the fail-open observer sees. */
  lemma {:induction false} ReadIsObserved(l: Live<Collected>, s: string)
    requires !l.cursor.Corrupted? && !Read(true, l, s).cursor.Corrupted?
    ensures ObserveAll(Collector(true), l, s) == Read(true, l, s)
  {
    NeutralNeverDenies(true);
    hide Feed, ObserveAll, NeverDenies, IndexFree, Collector;
    CallObserves(Collector(true), l, s);
  }

  /** Behind elements of any length the sync faker answers each sync, and only those. */
  lemma {:induction false} SyncsAmongAnything(chunks: seq<string>, instrs: seq<seq<string>>)
    requires Readable(instrs) && Concat(chunks) == EncodeAll(instrs)
    ensures SyncChunks(Fresh(NO_SYNC), chunks).1 == Replies(ClampedInstructions(instrs))
  {
    var l := Fresh(Collected([], []));
    ReadsClamped([], instrs);
    assert [] + ClampedInstructions(instrs) == ClampedInstructions(instrs);
    hide Read, EncodeAll, ObserveAll, Replies, Concat, SyncChunks;
    ReadIsObserved(l, EncodeAll(instrs));
    RepliesAnswerSyncs(chunks);
  }

  /** A screen in one oversized blob, and the sync behind it. */
  lemma {:induction false} SyncBehindBlob(chunks: seq<string>, blob: string, t: string)
    requires Ascii(Clamped(blob)) && Ascii(t) && 0 < |t| <= MAX_ELEMENT
    requires Concat(chunks) == Instr(["blob", "1", blob]) + Instr(["sync", t])
    ensures SyncChunks(Fresh(NO_SYNC), chunks).1 == Instr(["sync", t])
  {
    hide *;
    var b, s := ["blob", "1", blob], ["sync", t];
    BlobReadable(blob, t);
    BlobClamped(blob);
    SyncTaken(t);
    TwoEncoded(b, s);
    TwoClamped(b, s);
    TwoReplies(ClampedAll(b), s);
    SyncsAmongAnything(chunks, [b, s]);
  }

  lemma SyncTaken(t: string)
    requires Ascii(t) && 0 < |t| <= MAX_ELEMENT
    ensures TakesAll(true, ["sync", t]) && ClampedAll(["sync", t]) == ["sync", t] && Reply(["sync", t]) == Instr(["sync", t])
  {
    ClampedWhole(["sync", t]);
    assert Takes(true, "sync") && Takes(true, t);
    hide Takes, ClampedAll, Instr;
  }

  lemma BlobReadable(blob: string, t: string)
    requires Ascii(Clamped(blob)) && Ascii(t) && 0 < |t| <= MAX_ELEMENT
    ensures Readable([["blob", "1", blob], ["sync", t]])
  {
    SyncTaken(t);
    assert Takes(true, blob) && Takes(true, "blob") && Takes(true, "1");
    hide Takes, Clamped, Ascii;
    assert TakesAll(true, ["blob", "1", blob]);
  }

  lemma BlobClamped(blob: string)
    ensures ClampedAll(["blob", "1", blob])[0] == "blob"
  {
  }

  lemma TwoEncoded(a: seq<string>, b: seq<string>)
    ensures EncodeAll([a, b]) == Instr(a) + Instr(b)
  {
    hide Instr;
    assert [a, b][1..] == [b] && [b][1..] == [];
    assert EncodeAll([b]) == Instr(b) + "" == Instr(b);
  }

  lemma TwoClamped(a: seq<string>, b: seq<string>)
    ensures ClampedInstructions([a, b]) == [ClampedAll(a), ClampedAll(b)]
  {
    hide ClampedAll;
    assert [a, b][1..] == [b] && [b][1..] == [];
    assert ClampedInstructions([b]) == [ClampedAll(b)];
  }

  lemma TwoReplies(a: seq<string>, b: seq<string>)
    requires a != [] && a[0] != "sync"
    ensures Replies([a, b]) == Reply(b)
  {
    hide Instr;
    assert [a, b][..1] == [a] && [a][..0] == [];
    assert Replies([a]) == "" + "" == "";
    assert "" + Reply(b) == Reply(b);
  }

  // ---- Behind garbage

  lemma TripsToBoundary(l: Live<Collected>, c: char)
    requires Step(Collector(true), NewCall(l), c).live.cursor.Corrupted? && !l.cursor.Corrupted?
    ensures var q := Observe(Collector(true), l, c); q == Fresh(q.policy) && q.policy.done == l.policy.done
  {
  }

  /** The instruction printed right behind the byte that trips the framer is read, and nothing before it is lost. */
  lemma {:induction false} ResyncsBehind(s: string, c: char, es: seq<string>)
    requires var l := ObserveAll(Collector(true), Fresh(Collected([], [])), s);
      !l.cursor.Corrupted? && Step(Collector(true), NewCall(l), c).live.cursor.Corrupted?
    requires es != [] && TakesAll(true, es)
    ensures Completed(s + [c] + Instr(es)) == Completed(s) + [ClampedAll(es)]
  {
    var h, l0 := Collector(true), Fresh(Collected([], []));
    var l := ObserveAll(h, l0, s);
    var q := Observe(h, l, c);
    assert (s + [c])[..|s|] == s && ObserveAll(h, l0, s + [c]) == q;
    TripsToBoundary(l, c);
    OneRead(q.policy, es);
    hide ObserveAll, Observe, Read, Instr, ClampedAll, TakesAll, Step, Collector;
    ReadIsObserved(q, Instr(es));
    ObserveConcat(h, l0, s + [c], Instr(es));
  }

  /** So a sync behind garbage is answered like any other. */
  lemma {:induction false} SyncBehindGarbage(chunks: seq<string>, s: string, c: char, t: string)
    requires var l := ObserveAll(Collector(true), Fresh(Collected([], [])), s);
      !l.cursor.Corrupted? && Step(Collector(true), NewCall(l), c).live.cursor.Corrupted?
    requires Ascii(t) && 0 < |t| <= MAX_ELEMENT && Concat(chunks) == s + [c] + Instr(["sync", t])
    ensures SyncChunks(Fresh(NO_SYNC), chunks).1 == Replies(Completed(s)) + Instr(["sync", t])
  {
    hide *;
    var i := ["sync", t];
    SyncTaken(t);
    ResyncsBehind(s, c, i);
    RepliesAnswerSyncs(chunks);
    MoreReplies(Completed(s), i);
  }

  lemma MoreReplies(done: seq<seq<string>>, i: seq<string>)
    ensures Replies(done + [i]) == Replies(done) + Reply(i)
  {
    hide Reply;
    assert (done + [i])[..|done|] == done;
  }
}
