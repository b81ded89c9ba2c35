/**
 * Instructions inserted into a stream that others write: whether a reader takes
 * them for just what they are depends only on where the stream stood.
 */
module Insertion {
  import opened Framing
  import opened Decimal
  import opened Instructions
  import opened Encoding
  import opened NeutralFraming

  /** An element and the delimiter behind it. */
  datatype Item = Item(elem: string, delim: char)

  function Printed(it: Item): string { Element(it.elem) + [it.delim] }

  function Text(items: seq<Item>): string {
    if items == [] then "" else Text(items[..|items| - 1]) + Printed(items[|items| - 1])
  }

  /** A framer that tolerates oversized elements keeps only the head of one, which must not be mistaken for a whole one. */
  predicate Plain(tolerant: bool, it: Item) {
    && Ascii(it.elem) && (it.delim == ',' || it.delim == ';')
    && (if tolerant then |it.elem| < MAX_ELEMENT else |it.elem| <= MAX_ELEMENT)
  }

  predicate AllPlain(tolerant: bool, items: seq<Item>) { forall i :: 0 <= i < |items| ==> Plain(tolerant, items[i]) }

  /** The state behind one more element. */
  function Put(l: Live<Collected>, it: Item): Live<Collected> {
    var es := Elements(l) + [it.elem];
    if it.delim == ',' then Live(Start, false, Collected(es, l.policy.done))
    else Live(Start, true, Collected([], l.policy.done + [es]))
  }

  function PutAll(l: Live<Collected>, items: seq<Item>): Live<Collected> {
    if items == [] then l else Put(PutAll(l, items[..|items| - 1]), items[|items| - 1])
  }

  lemma {:induction false} PutReachable(tolerant: bool, l: Live<Collected>, items: seq<Item>)
    requires Reachable(tolerant, l) && l.cursor.Start?
    ensures Reachable(tolerant, PutAll(l, items)) && PutAll(l, items).cursor.Start?
  {
    if items != [] {
      PutReachable(tolerant, l, items[..|items| - 1]);
    }
  }

  lemma ReadItem(tolerant: bool, l: Live<Collected>, it: Item)
    requires l.cursor.Start? && Plain(tolerant, it)
    ensures Read(tolerant, l, Printed(it)) == Put(l, it)
  {
    ReadPrintedElement(tolerant, l, it.elem, it.delim);
  }

  lemma {:induction false} ReadItems(tolerant: bool, l: Live<Collected>, items: seq<Item>)
    requires l.cursor.Start? && AllPlain(tolerant, items) && Reachable(tolerant, l)
    ensures Read(tolerant, l, Text(items)) == PutAll(l, items)
  {
    if items == [] {
      assert Read(tolerant, l, "") == l;
    } else {
      var init, last := items[..|items| - 1], items[|items| - 1];
      ReadItems(tolerant, l, init);
      PutReachable(tolerant, l, init);
      hide Read, Printed, Put, Reachable;
      ReadConcat(tolerant, l, Text(init), Printed(last));
      ReadItem(tolerant, PutAll(l, init), last);
    }
  }

  // ---- What an element becomes elsewhere

  /** The element completed last, if there is one. */
  function Last(q: Live<Collected>): string {
    var es := if !q.opcode then q.policy.current
              else if q.policy.done == [] then [] else q.policy.done[|q.policy.done| - 1];
    if es == [] then "" else es[|es| - 1]
  }

  lemma PutLast(l: Live<Collected>, it: Item)
    ensures Last(Put(l, it)) == it.elem
  {
  }

  /** `n` bytes make no longer element than that. */
  predicate Short(n: nat, q: Live<Collected>) {
    match q.cursor
    case Start => n == 0 || |Last(q)| < n
    case Data(_, _, buf) => |buf| <= n
    case Delim(elem) => |elem| <= n
    case _ => true
  }

  lemma StepShort(tolerant: bool, n: nat, q: Live<Collected>, c: char)
    requires Short(n, q)
    ensures Short(n + 1, Step(Collector(tolerant), NewCall(q), c).live)
  {
  }

  lemma {:induction false} ReadShort(tolerant: bool, l: Live<Collected>, s: string)
    requires l.cursor.Start?
    ensures Short(|s|, Read(tolerant, l, s))
  {
    if s == "" {
      assert Read(tolerant, l, "") == l;
    } else {
      var t, c := s[..|s| - 1], s[|s| - 1];
      assert s == t + [c];
      hide Read, Short;
      ReadShort(tolerant, l, t);
      ReadConcat(tolerant, l, t, [c]);
      ReadOne(tolerant, Read(tolerant, l, t), c);
      StepShort(tolerant, |t|, Read(tolerant, l, t), c);
    }
  }

  lemma PrintedParts(it: Item, k: nat)
    requires k < |Printed(it)|
    ensures var n := |Numeral(|it.elem|)|;
      && |Printed(it)| == n + |it.elem| + 2 && n > 0
      && (k < n ==> IsDigit(Printed(it)[k])) && (k == n ==> Printed(it)[k] == '.')
  {
  }

  /** Without the delimiter that is due, the first digit corrupts the stream. */
  lemma BehindValue(tolerant: bool, l: Live<Collected>, s: string)
    requires l.cursor.Delim? && s != "" && s[0] != ',' && s[0] != ';'
    ensures Read(tolerant, l, s).cursor.Corrupted?
  {
    assert s == [s[0]] + s[1..];
    ReadOne(tolerant, l, s[0]);
    hide Read;
    ReadConcat(tolerant, l, [s[0]], s[1..]);
    ReadCorrupted(tolerant, Read(tolerant, l, [s[0]]), s[1..]);
  }

  /** A value that ends within the item, before byte `k` of it. */
  lemma EndsInside(tolerant: bool, m: Live<Collected>, it: Item, k: nat)
    requires m.cursor.Delim? && Reachable(tolerant, m) && Plain(tolerant, it) && k < |Printed(it)|
    requires k == |Printed(it)| - 1 ==> |m.cursor.elem| > |it.elem|
    ensures var q := Read(tolerant, m, Printed(it)[k..]); q.cursor.Start? ==> Last(q) != it.elem
  {
    var s, c, b := Printed(it)[k..], Printed(it)[k], Printed(it)[k + 1..];
    PrintedParts(it, k);
    assert s == [c] + b;
    if c != ',' && c != ';' {
      BehindValue(tolerant, m, s);
    } else {
      var l := Read(tolerant, m, [c]);
      ReadDelim(tolerant, m, c);
      assert l.cursor.Start? && Last(l) == m.cursor.elem;
      hide Read, Printed, Plain, Last, Reachable;
      ReadConcat(tolerant, m, [c], b);
      if b == "" {
        ReadNothing(tolerant, l);
      } else {
        ReadShort(tolerant, l, b);
      }
    }
  }

  lemma ReadNothing(tolerant: bool, l: Live<Collected>)
    ensures Read(tolerant, l, "") == l
  {
  }

  lemma Split(s: string, k: nat)
    requires k <= |s|
    ensures s == s[..k] + s[k..]
  {
  }

  /** An item that lands in or behind a value does not become the last element. */
  lemma InsideValue(tolerant: bool, l: Live<Collected>, it: Item)
    requires Reachable(tolerant, l) && (l.cursor.Data? || l.cursor.Delim?) && Plain(tolerant, it)
    ensures var q := Read(tolerant, l, Printed(it)); q.cursor.Start? ==> Last(q) != it.elem
  {
    var s := Printed(it);
    PrintedParts(it, 0);
    if l.cursor.Delim? {
      BehindValue(tolerant, l, s);
    } else {
      var k := l.cursor.len - l.cursor.read;
      assert k > 0 && (tolerant || l.cursor.len <= MAX_ELEMENT);
      if k >= |s| {
        ReadValue(tolerant, l, s);
        hide Read, Printed, Last;
      } else {
        InsideShort(tolerant, l, it, k);
      }
    }
  }

  lemma InsideShort(tolerant: bool, l: Live<Collected>, it: Item, k: nat)
    requires Reachable(tolerant, l) && l.cursor.Data? && Plain(tolerant, it)
    requires k == l.cursor.len - l.cursor.read && k < |Printed(it)|
    ensures var q := Read(tolerant, l, Printed(it)); q.cursor.Start? ==> Last(q) != it.elem
  {
    var s := Printed(it);
    PrintedParts(it, k);
    Split(s, k);
    ReadValue(tolerant, l, s[..k]);
    ReadReachable(tolerant, l, s[..k]);
    var m := Read(tolerant, l, s[..k]);
    assert m.cursor.Corrupted? || m.cursor.Delim?;
    assert m.cursor.Delim? && k == |s| - 1 ==> |m.cursor.elem| > |it.elem|;
    hide Read, Printed, Last, Reachable, Plain, InValue;
    ReadConcat(tolerant, l, s[..k], s[k..]);
    if m.cursor.Corrupted? {
      ReadCorrupted(tolerant, m, s[k..]);
    } else {
      EndsInside(tolerant, m, it, k);
    }
  }

  // ---- In a length prefix

  lemma HeadTail(s: string)
    requires s != ""
    ensures s == [s[0]] + s[1..]
  {
  }

  lemma ZeroDigit(tolerant: bool, l: Live<Collected>, c: char)
    requires l.cursor == Length(0) && IsDigit(c)
    ensures Step(Collector(tolerant), NewCall(l), c).live == Step(Collector(tolerant), NewCall(l.(cursor := Start)), c).live
  {
  }

  /** A prefix of zeros is as good as none in front of a digit. */
  lemma ZeroPrefix(tolerant: bool, l: Live<Collected>, s: string)
    requires l.cursor == Length(0) && s != "" && IsDigit(s[0])
    ensures Read(tolerant, l, s) == Read(tolerant, l.(cursor := Start), s)
  {
    var b, c := l.(cursor := Start), s[0];
    hide Read, Step, Collector;
    HeadTail(s);
    ZeroDigit(tolerant, l, c);
    ReadOne(tolerant, l, c);
    ReadOne(tolerant, b, c);
    ReadConcat(tolerant, l, [c], s[1..]);
    ReadConcat(tolerant, b, [c], s[1..]);
  }

  lemma StepDigits(tolerant: bool, l: Live<Collected>, n: nat, c: char)
    requires l.cursor.Length? && IsDigit(c) && l.cursor.len >= n
    ensures var q := Step(Collector(tolerant), NewCall(l), c).live;
      q.cursor.Corrupted? || (q.cursor.Length? && q.cursor.len >= n * 10 + DigitValue(c))
  {
  }

  /** More digits only make a length prefix longer. */
  lemma {:induction false} ReadDigits(tolerant: bool, l: Live<Collected>, p: string)
    requires l.cursor.Length? && AllDigits(p)
    ensures var q := Read(tolerant, l, p);
      q.cursor.Corrupted? || (q.cursor.Length? && q.cursor.len >= l.cursor.len + Value(p))
  {
    if p == "" {
      ReadNothing(tolerant, l);
    } else {
      var t, c := p[..|p| - 1], p[|p| - 1];
      assert p == t + [c];
      ReadDigits(tolerant, l, t);
      var m := Read(tolerant, l, t);
      hide Read;
      ReadConcat(tolerant, l, t, [c]);
      ReadOne(tolerant, m, c);
      if m.cursor.Corrupted? {
        ReadCorrupted(tolerant, m, [c]);
      } else {
        StepDigits(tolerant, m, l.cursor.len + Value(t), c);
      }
    }
  }

  lemma PrintedSplit(it: Item)
    ensures Printed(it) == Numeral(|it.elem|) + (['.'] + (it.elem + [it.delim]))
  {
  }

  /** A value does not end before its length. */
  lemma NotBeforeItsEnd(tolerant: bool, l: Live<Collected>, s: string)
    requires Reachable(tolerant, l) && l.cursor.Data? && l.cursor.read + |s| <= l.cursor.len
    ensures !Read(tolerant, l, s).cursor.Start?
  {
    ReadValue(tolerant, l, s);
    hide Read;
  }

  lemma DotAsksFor(tolerant: bool, m: Live<Collected>, n: nat)
    requires Reachable(tolerant, m) && m.cursor.Length? && m.cursor.len > n
    ensures var d := Read(tolerant, m, ['.']);
      d.cursor.Data? && d.cursor.read == 0 && d.cursor.len > n && Reachable(tolerant, d)
  {
    ReadOne(tolerant, m, '.');
    ReadReachable(tolerant, m, ['.']);
    hide Read;
  }

  /** Behind a prefix that is not zero, the item's own prefix asks for more than the item has. */
  lemma InsideLength(tolerant: bool, l: Live<Collected>, it: Item)
    requires Reachable(tolerant, l) && l.cursor.Length? && l.cursor.len > 0
    ensures !Read(tolerant, l, Printed(it)).cursor.Start?
  {
    var p, rest := Numeral(|it.elem|), it.elem + [it.delim];
    PrintedSplit(it);
    ReadDigits(tolerant, l, p);
    ReadReachable(tolerant, l, p);
    var m := Read(tolerant, l, p);
    hide Read, Printed, Numeral, Reachable;
    ReadConcat(tolerant, l, p, ['.'] + rest);
    if m.cursor.Corrupted? {
      ReadCorrupted(tolerant, m, ['.'] + rest);
    } else {
      DotAsksFor(tolerant, m, |it.elem|);
      ReadConcat(tolerant, m, ['.'], rest);
      NotBeforeItsEnd(tolerant, Read(tolerant, m, ['.']), rest);
    }
  }

  // ---- Reading backwards

  lemma PutInjective(tolerant: bool, l: Live<Collected>, b: Live<Collected>, it: Item)
    requires Reachable(tolerant, l) && Reachable(tolerant, b) && l.cursor.Start? && b.cursor.Start?
    requires Put(l, it) == Put(b, it)
    ensures l == b
  {
    var x, y := Elements(l) + [it.elem], Elements(b) + [it.elem];
    if it.delim == ',' {
      assert x == y && l.policy.done == b.policy.done;
    } else {
      var p, q := l.policy.done + [x], b.policy.done + [y];
      assert p == q && p[..|p| - 1] == l.policy.done && q[..|q| - 1] == b.policy.done;
      assert p[|p| - 1] == x && q[|q| - 1] == y;
    }
    assert x[..|x| - 1] == Elements(l) && y[..|y| - 1] == Elements(b);
  }

  /** The state in front of an item that was read as itself, where it did not stand in a length prefix. */
  lemma UnreadOne(tolerant: bool, l: Live<Collected>, b: Live<Collected>, it: Item)
    requires Reachable(tolerant, l) && !l.cursor.Length? && Reachable(tolerant, b) && b.cursor.Start? && Plain(tolerant, it)
    requires Read(tolerant, l, Printed(it)) == Put(b, it)
    ensures l == b
  {
    PutLast(b, it);
    assert Put(b, it).cursor.Start?;
    hide Read, Printed, Plain, Put, Last;
    if l.cursor.Corrupted? {
      ReadCorrupted(tolerant, l, Printed(it));
    } else if l.cursor.Start? {
      ReadItem(tolerant, l, it);
      PutInjective(tolerant, l, b, it);
    } else {
      InsideValue(tolerant, l, it);
    }
  }

  lemma UnreadFirst(tolerant: bool, l: Live<Collected>, b: Live<Collected>, it: Item)
    requires Reachable(tolerant, l) && Reachable(tolerant, b) && b.cursor.Start? && Plain(tolerant, it)
    requires Read(tolerant, l, Printed(it)) == Put(b, it)
    ensures l == b || (l.cursor == Length(0) && l.(cursor := Start) == b)
  {
    assert Put(b, it).cursor.Start?;
    PrintedParts(it, 0);
    hide Read, Printed, Plain, Put;
    if l.cursor.Length? {
      if l.cursor.len > 0 {
        InsideLength(tolerant, l, it);
      } else {
        ZeroPrefix(tolerant, l, Printed(it));
        UnreadOne(tolerant, l.(cursor := Start), b, it);
      }
    } else {
      UnreadOne(tolerant, l, b, it);
    }
  }

  lemma StepDelimiter(tolerant: bool, l: Live<Collected>, c: char)
    requires c == ',' || c == ';'
    ensures !Step(Collector(tolerant), NewCall(l), c).live.cursor.Length?
  {
  }

  /** A text that ends with a delimiter does not end in a length prefix. */
  lemma BehindDelimiter(tolerant: bool, l: Live<Collected>, s: string)
    requires s != "" && (s[|s| - 1] == ',' || s[|s| - 1] == ';')
    ensures !Read(tolerant, l, s).cursor.Length?
  {
    var t, c := s[..|s| - 1], s[|s| - 1];
    assert s == t + [c];
    hide Read;
    ReadConcat(tolerant, l, t, [c]);
    ReadOne(tolerant, Read(tolerant, l, t), c);
    StepDelimiter(tolerant, Read(tolerant, l, t), c);
  }

  lemma TextEnd(items: seq<Item>)
    requires items != []
    ensures Text(items) != "" && Text(items)[|Text(items)| - 1] == items[|items| - 1].delim
  {
    hide Element;
  }

  /** Items that are read as themselves were read from where they can be: `b`, but for leading zeros. */
  lemma {:induction false} Unread(tolerant: bool, l: Live<Collected>, b: Live<Collected>, items: seq<Item>)
    requires Reachable(tolerant, l) && Reachable(tolerant, b) && b.cursor.Start?
    requires items != [] && AllPlain(tolerant, items)
    requires Read(tolerant, l, Text(items)) == PutAll(b, items)
    ensures l == b || (l.cursor == Length(0) && l.(cursor := Start) == b)
  {
    var init, last := items[..|items| - 1], items[|items| - 1];
    var m := Read(tolerant, l, Text(init));
    ReadReachable(tolerant, l, Text(init));
    PutReachable(tolerant, b, init);
    assert Plain(tolerant, last) && Text(items) == Text(init) + Printed(last);
    if init == [] {
      assert "" + Printed(last) == Printed(last);
      hide Read, Printed, Plain, Put, Reachable;
      UnreadFirst(tolerant, l, b, last);
    } else {
      TextEnd(init);
      assert Plain(tolerant, init[|init| - 1]);
      BehindDelimiter(tolerant, l, Text(init));
      hide Read, Printed, Plain, Put, Reachable, Text;
      ReadConcat(tolerant, l, Text(init), Printed(last));
      UnreadOne(tolerant, m, PutAll(b, init), last);
      Unread(tolerant, l, b, init);
    }
  }

  // ---- Whole instructions

  function Items(es: seq<string>): seq<Item> {
    if es == [] then [] else [Item(es[0], Separator(es))] + Items(es[1..])
  }

  function AllItems(instrs: seq<seq<string>>): seq<Item> {
    if instrs == [] then [] else Items(instrs[0]) + AllItems(instrs[1..])
  }

  /** What can be inserted: printed instructions within the cap, and strictly below it for a tolerant reader. */
  predicate Insertable(tolerant: bool, instrs: seq<seq<string>>) {
    && (forall k :: 0 <= k < |instrs| ==> WellFormed(instrs[k]))
    && (tolerant ==> forall k, j :: 0 <= k < |instrs| && 0 <= j < |instrs[k]| ==> |instrs[k][j]| < MAX_ELEMENT)
  }

  lemma {:induction false} TextConcat(a: seq<Item>, b: seq<Item>)
    ensures Text(a + b) == Text(a) + Text(b)
  {
    hide Printed;
    if b == [] {
      assert a + b == a && Text(a) + "" == Text(a);
    } else {
      var init, last := b[..|b| - 1], b[|b| - 1];
      assert (a + b)[..|a + b| - 1] == a + init && (a + b)[|a + b| - 1] == last;
      TextConcat(a, init);
      Assoc(Text(a), Text(init), Printed(last));
    }
  }

  lemma TextOne(it: Item)
    ensures Text([it]) == Printed(it)
  {
    hide Printed;
    assert [it][..0] == [];
    assert "" + Printed(it) == Printed(it);
  }

  lemma {:induction false} ItemsText(es: seq<string>)
    ensures Text(Items(es)) == Instr(es)
    decreases |es|
  {
    if es != [] {
      var it := Item(es[0], Separator(es));
      InstrHead(es);
      ItemsText(es[1..]);
      TextOne(it);
      TextConcat([it], Items(es[1..]));
      hide Text, Instr, Items, Element;
    }
  }

  lemma {:induction false} AllItemsText(instrs: seq<seq<string>>)
    ensures Text(AllItems(instrs)) == EncodeAll(instrs)
    decreases |instrs|
  {
    if instrs != [] {
      AllItemsText(instrs[1..]);
      ItemsText(instrs[0]);
      hide Text, Instr, Items;
      TextConcat(Items(instrs[0]), AllItems(instrs[1..]));
    }
  }

  lemma {:induction false} ItemsPlain(tolerant: bool, es: seq<string>)
    requires forall j :: 0 <= j < |es| ==> Ascii(es[j]) && if tolerant then |es[j]| < MAX_ELEMENT else |es[j]| <= MAX_ELEMENT
    ensures AllPlain(tolerant, Items(es)) && (es != [] ==> Items(es) != [])
    decreases |es|
  {
    if es != [] {
      hide Ascii;
      ItemsPlain(tolerant, es[1..]);
    }
  }

  lemma InsertableRest(tolerant: bool, instrs: seq<seq<string>>)
    requires Insertable(tolerant, instrs) && instrs != []
    ensures Insertable(tolerant, instrs[1..])
    ensures forall j :: 0 <= j < |instrs[0]| ==>
      Ascii(instrs[0][j]) && if tolerant then |instrs[0][j]| < MAX_ELEMENT else |instrs[0][j]| <= MAX_ELEMENT
    ensures WellFormed(instrs[0])
  {
    hide Ascii;
    assert WellFormed(instrs[0]);
  }

  lemma {:induction false} AllItemsPlain(tolerant: bool, instrs: seq<seq<string>>)
    requires Insertable(tolerant, instrs)
    ensures AllPlain(tolerant, AllItems(instrs)) && (instrs != [] ==> AllItems(instrs) != [])
    decreases |instrs|
  {
    if instrs != [] {
      InsertableRest(tolerant, instrs);
      ItemsPlain(tolerant, instrs[0]);
      assert instrs[0] != [];
      hide Ascii, Insertable, Plain, WellFormed;
      AllItemsPlain(tolerant, instrs[1..]);
    }
  }

  /** From a boundary, each printed instruction is one more. */
  lemma {:induction false} ReadAllPrinted(tolerant: bool, done: seq<seq<string>>, instrs: seq<seq<string>>)
    requires forall k :: 0 <= k < |instrs| ==> WellFormed(instrs[k])
    ensures Read(tolerant, Fresh(Collected([], done)), EncodeAll(instrs)) == Fresh(Collected([], done + instrs))
    decreases |instrs|
  {
    var l := Fresh(Collected([], done));
    if instrs == [] {
      ReadNothing(tolerant, l);
      assert done + [] == done;
    } else {
      var one, more := [instrs[0]], instrs[1..];
      assert EncodeAll(instrs) == Instr(instrs[0]) + EncodeAll(more);
      assert [] + instrs[0] == instrs[0];
      hide Read, Instr, WellFormed, EncodeAll;
      ReadPrinted(tolerant, l, instrs[0]);
      ReadConcat(tolerant, l, Instr(instrs[0]), EncodeAll(more));
      ReadAllPrinted(tolerant, done + one, more);
      Assoc(done, one, more);
      assert one + more == instrs;
    }
  }

  /** Between two instructions, or behind leading zeros of an opcode's length prefix. */
  predicate InsertionPoint<P>(l: Live<P>) { l.opcode && (l.cursor.Start? || l.cursor == Length(0)) }

  /** The instructions were read as further ones, and nothing else happened. */
  ghost predicate Inserted(tolerant: bool, l: Live<Collected>, instrs: seq<seq<string>>) {
    Read(tolerant, l, EncodeAll(instrs)) == Fresh(Collected([], l.policy.done + instrs))
  }

  lemma AtPointInserted(tolerant: bool, l: Live<Collected>, instrs: seq<seq<string>>)
    requires Reachable(tolerant, l) && Insertable(tolerant, instrs) && instrs != [] && InsertionPoint(l)
    ensures Inserted(tolerant, l, instrs)
  {
    var b := Fresh(Collected([], l.policy.done));
    assert l.(cursor := Start) == b;
    ReadAllPrinted(tolerant, l.policy.done, instrs);
    if l.cursor.Length? {
      AllItemsPlain(tolerant, instrs);
      AllItemsText(instrs);
      var items := AllItems(instrs);
      hide Read, Insertable, EncodeAll, AllItems, InsertionPoint, Reachable;
      TextFront(items);
      ZeroPrefix(tolerant, l, Text(items));
    }
  }

  lemma TextFront(items: seq<Item>)
    requires items != []
    ensures Text(items) != "" && IsDigit(Text(items)[0])
  {
    assert items == [items[0]] + items[1..];
    TextOne(items[0]);
    PrintedParts(items[0], 0);
    hide Text, Printed;
    TextConcat([items[0]], items[1..]);
  }

  lemma InsertedAtPoint(tolerant: bool, l: Live<Collected>, instrs: seq<seq<string>>)
    requires Reachable(tolerant, l) && Insertable(tolerant, instrs) && instrs != [] && Inserted(tolerant, l, instrs)
    ensures InsertionPoint(l)
  {
    var b := Fresh(Collected([], l.policy.done));
    assert Reachable(tolerant, b);
    ReadAllPrinted(tolerant, l.policy.done, instrs);
    AllItemsPlain(tolerant, instrs);
    AllItemsText(instrs);
    hide Read, Insertable, EncodeAll, AllItems, Reachable, Text, PutAll, AllPlain;
    ReadItems(tolerant, b, AllItems(instrs));
    Unread(tolerant, l, b, AllItems(instrs));
  }

  /**
   * Whatever stream `s` was, complete instructions that come behind it are read as
   * just these further instructions, leaving a boundary, if and only if `s` ends
   * between two instructions or in the leading zeros of the next one's length
   * prefix.
   */
  lemma {:induction false} InsertedIff(tolerant: bool, s: string, instrs: seq<seq<string>>)
    requires Insertable(tolerant, instrs) && instrs != []
    ensures ReadAll(tolerant, s + EncodeAll(instrs)) == Fresh(Collected([], ReadAll(tolerant, s).policy.done + instrs))
      <==> InsertionPoint(ReadAll(tolerant, s))
  {
    var l := Fresh(Collected([], []));
    ReadReachable(tolerant, l, s);
    ReadConcat(tolerant, l, s, EncodeAll(instrs));
    hide Read, Insertable, EncodeAll, InsertionPoint;
    if InsertionPoint(ReadAll(tolerant, s)) {
      AtPointInserted(tolerant, ReadAll(tolerant, s), instrs);
    } else if Inserted(tolerant, ReadAll(tolerant, s), instrs) {
      InsertedAtPoint(tolerant, ReadAll(tolerant, s), instrs);
    }
  }
}
