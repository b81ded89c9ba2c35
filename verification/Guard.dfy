/**
 * The guard's receive loop: a parser per channel, the channels the operator has
 * approved, the channels poisoned by a corrupt stream, and the global deny.
 */
module GuardModule {
  import opened Framing
  import opened Excision
  import opened OpcodeParserModule
  import opened GuardPolicyModule
  import opened MultiplexerModule

  const REQUEST_ID_LEN := 12

  predicate IsHex(c: char) { '0' <= c <= '9' || 'a' <= c <= 'f' }

  predicate ValidRequestId(id: string) { |id| == REQUEST_ID_LEN && forall i :: 0 <= i < |id| ==> IsHex(id[i]) }

  method IsValidRequestId(id: string) returns (valid: bool)
    ensures valid <==> ValidRequestId(id)
  {
    if |id| != REQUEST_ID_LEN {
      return false;
    }
    for i := 0 to |id|
      invariant forall j :: 0 <= j < i ==> IsHex(id[j])
    {
      if !('0' <= id[i] <= '9' || 'a' <= id[i] <= 'f') {
        return false;
      }
    }
    return true;
  }

  /** What happens to the guard: an operator toggle, the deny check at the top of the loop, a datagram. */
  datatype Event =
    | Toggle(approve: bool)
    | LoopTop(order: seq<Channel>)   // the order in which a deny would visit the approved channels
    | Datagram(buffer: Bytes)

  /** A frame the guard sends: passed on from the low side, or its own. */
  datatype Sent = Relayed(message: BridgeMessage) | Issued(message: BridgeMessage)

  datatype GuardState = GuardState(
    parsers: map<Channel, Live<GuardPolicy>>,
    approved: set<Channel>,
    poisoned: set<Channel>,
    approving: bool,
    denyTeardown: bool)

  /** The switch starts in approve. */
  const INITIAL := GuardState(map[], {}, {}, true, false)

  function Shutdown(c: Channel): BridgeMessage { BridgeMessage(c, ShutdownChannel, "") }

  function Verdict(c: Channel, approve: bool, id: string): BridgeMessage {
    BridgeMessage(c, Approval, [if approve then APPROVAL_APPROVE else APPROVAL_DENY] + id)
  }

  /** Fresh state for a possibly reused channel. */
  function StartedOver(g: GuardState, c: Channel): GuardState {
    g.(parsers := g.parsers[c := Fresh(NO_STREAM)], poisoned := g.poisoned - {c}, approved := g.approved - {c})
  }

  function Create(g: GuardState, m: BridgeMessage): (GuardState, seq<Sent>) {
    var c := m.channel;
    if !ValidRequestId(m.payload) then (g, []) else
    var answers := [Relayed(m), Issued(Verdict(c, g.approving, m.payload))];
    var f := StartedOver(g, c);
    if g.approving then (f.(approved := f.approved + {c}), answers)
    else (f.(parsers := f.parsers - {c}), answers + [Issued(Shutdown(c))])
  }

  function TearDown(g: GuardState, m: BridgeMessage): (GuardState, seq<Sent>) {
    var c := m.channel;
    (g.(parsers := g.parsers - {c}, poisoned := g.poisoned - {c}, approved := g.approved - {c}), [Relayed(m)])
  }

  /** What becomes of a payload once its channel's parser has made the call `r` over it. */
  function Settle(g: GuardState, m: BridgeMessage, r: Run<GuardPolicy>): (GuardState, seq<Sent>) {
    var c := m.channel;
    if !Clean(r) then
      (g.(parsers := g.parsers - {c}, approved := g.approved - {c}, poisoned := g.poisoned + {c}), [Issued(Shutdown(c))])
    else if r.ranges == [] then (g, [Relayed(m)])
    else if Output(r) == "" then (g, [])
    else (g, [Relayed(m.(payload := Output(r)))])
  }

  function LiveOf(g: GuardState, c: Channel): Live<GuardPolicy> {
    if c in g.parsers then g.parsers[c] else Fresh(NO_STREAM)
  }

  /** Payload, and every other action: an inbound verdict is treated as payload. */
  function Carry(g: GuardState, m: BridgeMessage): (GuardState, seq<Sent>) {
    var c := m.channel;
    if c in g.poisoned || c !in g.approved then (g, []) else
    var r := Call(GUARD, LiveOf(g, c), m.payload);
    Settle(g.(parsers := g.parsers[c := Rest(r)]), m, r)
  }

  function Handle(g: GuardState, m: BridgeMessage): (GuardState, seq<Sent>) {
    match m.action
    case CreateChannel => Create(g, m)
    case ShutdownChannel => TearDown(g, m)
    case _ => Carry(g, m)
  }

  function Visit(order: seq<Channel>): (sent: seq<Sent>)
    ensures |sent| == |order|
    ensures forall k :: 0 <= k < |order| ==> sent[k] == Issued(Shutdown(order[k]))
  {
    if order == [] then [] else Visit(order[..|order| - 1]) + [Issued(Shutdown(order[|order| - 1]))]
  }

  function GuardStep(g: GuardState, e: Event): (GuardState, seq<Sent>) {
    match e
    case Toggle(approve) => (g.(approving := approve, denyTeardown := g.denyTeardown || !approve), [])
    case LoopTop(order) =>
      if !g.denyTeardown then (g, [])
      else (g.(denyTeardown := false, parsers := g.parsers - g.approved, approved := {}), Visit(order))
    case Datagram(buffer) =>
      match TryCast(buffer)
      case None => (g, [])
      case Some(m) => Handle(g, m)
  }

  function Wire(sent: seq<Sent>): (wire: seq<string>)
    ensures |wire| == |sent|
    ensures forall k :: 0 <= k < |sent| ==> wire[k] == Serialize(sent[k].message)
  {
    if sent == [] then [] else Wire(sent[..|sent| - 1]) + [Serialize(sent[|sent| - 1].message)]
  }

  /** `order` visits every member of the set once. */
  predicate Enumerates<T(==)>(order: seq<T>, members: set<T>) {
    && (forall k :: 0 <= k < |order| ==> order[k] in members)
    && (forall x :: x in members ==> x in order)
    && (forall j, k :: 0 <= j < k < |order| ==> order[j] != order[k])
  }

  /** A deny visits exactly the approved channels. */
  predicate Possible(g: GuardState, e: Event) {
    e.LoopTop? && g.denyTeardown ==> Enumerates(e.order, g.approved)
  }

  ghost predicate InState(parser: OpcodeParser<GuardPolicy>, live: Live<GuardPolicy>)
    reads parser, parser.elementBuffer
  {
    parser.Valid() && parser.hooks == GUARD && parser.LiveState() == live
  }

  method ParseIn(parser: OpcodeParser<GuardPolicy>, ghost live: Live<GuardPolicy>, payload: string) returns (result: ParserState)
    requires InState(parser, live)
    modifies parser, parser.elementBuffer
    ensures var r := Call(GUARD, live, payload);
      InState(parser, Rest(r)) && result == Status(r) && parser.deniedRanges == r.ranges
  {
    result := parser.Parse(payload);
  }

  method CopyOf(payload: string) returns (data: array<char>)
    ensures fresh(data) && data.Length == |payload| && data[..|payload|] == payload
  {
    data := new char[|payload|](i requires 0 <= i < |payload| => payload[i]);
  }

  /** Excise, on a copy of the payload. */
  method Trim(parser: OpcodeParser<GuardPolicy>, ghost now: Live<GuardPolicy>, payload: string, ghost live: Live<GuardPolicy>)
    returns (trimmed: string)
    requires InState(parser, now) && Framed(false, live.cursor)
    requires var r := Call(GUARD, live, payload); Clean(r) && parser.deniedRanges == r.ranges
    modifies parser`deniedRanges
    ensures InState(parser, now) && trimmed == Output(Call(GUARD, live, payload))
  {
    CallAccounts(GUARD, live, payload);
    hide Call;
    var data := CopyOf(payload);
    var len := parser.Excise(data, |payload|);
    trimmed := data[..len];
  }

  /** What the guard keeps of every parser. */
  ghost predicate Tracked(g: GuardState) {
    forall c :: c in g.parsers ==> Framed(false, g.parsers[c].cursor) && !g.parsers[c].cursor.Corrupted?
  }

  class Guard {
    var parsers: map<Channel, OpcodeParser<GuardPolicy>>
    var approved: set<Channel>
    var poisoned: set<Channel>
    var approving: bool
    var denyTeardown: bool
    var sent: seq<string>

    ghost var lives: map<Channel, Live<GuardPolicy>>
    /** The channel each parser object and its buffer belong to, or belonged to. */
    ghost var owner: map<object, Channel>

    ghost predicate Valid()
      reads this`parsers, this`lives, this`owner, owner.Keys
    {
      && this !in owner
      && lives.Keys == parsers.Keys
      && forall c :: c in parsers ==>
           && parsers[c] in owner && owner[parsers[c]] == c
           && parsers[c].elementBuffer in owner && owner[parsers[c].elementBuffer] == c
           && InState(parsers[c], lives[c])
    }

    ghost function State(): GuardState
      reads this
    {
      GuardState(lives, approved, poisoned, approving, denyTeardown)
    }

    constructor ()
      ensures Valid() && State() == INITIAL && sent == [] && owner == map[]
    {
      parsers, approved, poisoned, approving, denyTeardown, sent := map[], {}, {}, true, false, [];
      lives, owner := map[], map[];
    }

    /** The control thread, its two stores taken together. */
    method Control(approve: bool)
      requires Valid()
      modifies this`approving, this`denyTeardown
      ensures Valid() && Outcome(GuardStep(old(State()), Toggle(approve)))
    {
      approving := approve;
      if !approve {
        denyTeardown := true;
      }
      NoWire(sent);
    }

    method Forget(c: Channel)
      requires Valid()
      modifies this`parsers, this`lives
      ensures Valid() && lives == old(lives) - {c}
    {
      hide InState;
      parsers := parsers - {c};
      lives := lives - {c};
    }

    /** `parsers[c] = parser`, for a parser no channel uses. */
    method Assign(c: Channel, parser: OpcodeParser<GuardPolicy>)
      requires Valid()
      requires parser !in owner && parser.elementBuffer !in owner && InState(parser, Fresh(NO_STREAM))
      modifies this`parsers, this`lives, this`owner
      ensures Valid() && lives == old(lives)[c := Fresh(NO_STREAM)]
      ensures owner == old(owner)[parser := c][parser.elementBuffer := c]
    {
      hide InState;
      parsers := parsers[c := parser];
      lives := lives[c := Fresh(NO_STREAM)];
      owner := owner[parser := c][parser.elementBuffer := c];
    }

    method Renew(c: Channel)
      requires Valid()
      modifies this`parsers, this`lives, this`owner
      ensures Valid() && lives == old(lives)[c := Fresh(NO_STREAM)] && fresh(owner.Keys - old(owner.Keys))
    {
      var parser := new OpcodeParser(GUARD, NO_STREAM);
      Assign(c, parser);
    }

    method StartOver(c: Channel)
      requires Valid()
      modifies this`parsers, this`lives, this`owner, this`poisoned, this`approved
      ensures Valid() && fresh(owner.Keys - old(owner.Keys))
      ensures State() == StartedOver(old(State()), c)
    {
      Renew(c);
      poisoned := poisoned - {c};
      approved := approved - {c};
    }

    /** The request is passed on, and the verdict sent after it. */
    method Answer(buffer: Bytes, m: BridgeMessage)
      requires Valid() && TryCast(buffer) == Some(m)
      modifies this
      ensures Valid() && fresh(owner.Keys - old(owner.Keys))
      ensures State() == StartedOver(old(State()), m.channel)
      ensures approving == old(approving)
      ensures sent == old(sent) + Wire([Relayed(m), Issued(Verdict(m.channel, approving, m.payload))])
    {
      SerializedCast(buffer, m);
      hide TryCast, Serialize, Wire, InState, Verdict;
      StartOver(m.channel);
      var verdict := Verdict(m.channel, approving, m.payload);
      sent := sent + [buffer];
      sent := sent + [Serialize(verdict)];
      WireTwo(old(sent), Relayed(m), Issued(verdict));
    }

    /** What a message does, and nothing else. */
    twostate predicate Outcome(result: (GuardState, seq<Sent>))
      reads this
    {
      State() == result.0 && sent == old(sent) + Wire(result.1)
    }

    method Admit(buffer: Bytes, m: BridgeMessage)
      requires Valid() && TryCast(buffer) == Some(m) && ValidRequestId(m.payload) && approving
      modifies this
      ensures Valid() && Outcome(Create(old(State()), m)) && fresh(owner.Keys - old(owner.Keys))
    {
      hide TryCast, Serialize, Wire, InState, Verdict, ValidRequestId, StartedOver;
      Answer(buffer, m);
      approved := approved + {m.channel};
    }

    /** A SHUTDOWN of the guard's own, and the parser of the channel gone. */
    method Dismiss(c: Channel)
      requires Valid()
      modifies this`sent, this`parsers, this`lives
      ensures Valid() && State() == var g := old(State()); g.(parsers := g.parsers - {c})
      ensures sent == old(sent) + [Serialize(Shutdown(c))]
    {
      hide InState;
      sent := sent + [Serialize(Shutdown(c))];
      Forget(c);
    }

    method Refuse(buffer: Bytes, m: BridgeMessage)
      requires Valid() && TryCast(buffer) == Some(m) && ValidRequestId(m.payload) && !approving
      modifies this
      ensures Valid() && Outcome(Create(old(State()), m)) && fresh(owner.Keys - old(owner.Keys))
    {
      hide TryCast, Serialize, Wire, InState, Verdict, ValidRequestId, StartedOver;
      Answer(buffer, m);
      WireMore(old(sent), [Relayed(m), Issued(Verdict(m.channel, false, m.payload))], Issued(Shutdown(m.channel)));
      Dismiss(m.channel);
    }

    method HandleCreate(buffer: Bytes, m: BridgeMessage)
      requires Valid() && TryCast(buffer) == Some(m)
      modifies this
      ensures Valid() && Outcome(Create(old(State()), m)) && fresh(owner.Keys - old(owner.Keys))
    {
      var valid := IsValidRequestId(m.payload);
      if !valid {
        NoWire(sent);
      } else {
        hide Outcome;
        if approving {
          Admit(buffer, m);
        } else {
          Refuse(buffer, m);
        }
      }
    }

    method HandleShutdown(buffer: Bytes, m: BridgeMessage)
      requires Valid() && TryCast(buffer) == Some(m)
      modifies this
      ensures Valid() && Outcome(TearDown(old(State()), m)) && owner == old(owner)
    {
      Forget(m.channel);
      poisoned := poisoned - {m.channel};
      approved := approved - {m.channel};
      sent := sent + [buffer];
      SerializedCast(buffer, m);
      hide TryCast, Serialize, InState, Wire;
      WireOne(old(sent), Relayed(m));
    }

    /** One Parse call on one channel; the parsers of all other channels stay as they are. */
    method ParseOn(c: Channel, payload: string) returns (result: ParserState)
      requires Valid() && c in parsers
      modifies parsers[c], parsers[c].elementBuffer, this`lives
      ensures Valid() && parsers == old(parsers) && owner == old(owner)
      ensures var r := Call(GUARD, old(lives[c]), payload);
        && lives == old(lives)[c := Rest(r)]
        && result == Status(r)
        && parsers[c].deniedRanges == r.ranges
    {
      hide InState, Call, Status, Rest;
      var parser := parsers[c];
      ghost var live := lives[c];
      result := ParseIn(parser, live, payload);
      assert forall d :: d in parsers && d != c ==> InState(parsers[d], lives[d]);
      lives := lives[c := Rest(Call(GUARD, live, payload))];
    }

    /** The stream of `c` can no longer be trusted. */
    method Poison(c: Channel)
      requires Valid()
      modifies this
      ensures Valid() && owner == old(owner) && sent == old(sent) + Wire([Issued(Shutdown(c))])
      ensures State() == var g := old(State());
        g.(parsers := g.parsers - {c}, approved := g.approved - {c}, poisoned := g.poisoned + {c})
    {
      hide InState, Wire, Serialize;
      WireOne(old(sent), Issued(Shutdown(c)));
      Dismiss(c);
      approved := approved - {c};
      poisoned := poisoned + {c};
    }

    method ForwardTrimmed(m: BridgeMessage, ghost live: Live<GuardPolicy>)
      requires Valid() && m.channel in parsers
      requires Framed(false, live.cursor)
      requires var r := Call(GUARD, live, m.payload);
        Clean(r) && r.ranges != [] && parsers[m.channel].deniedRanges == r.ranges
      modifies this`sent, parsers[m.channel]
      ensures Valid() && Outcome(Settle(old(State()), m, Call(GUARD, live, m.payload)))
    {
      hide Call, InState;
      var trimmed := Trim(parsers[m.channel], lives[m.channel], m.payload, live);
      if trimmed == "" {
        NoWire(sent);
      } else {
        sent := sent + [Serialize(m.(payload := trimmed))];
        WireOne(old(sent), Relayed(m.(payload := trimmed)));
      }
    }

    method Conclude(buffer: Bytes, m: BridgeMessage, result: ParserState, ghost live: Live<GuardPolicy>)
      requires Valid() && TryCast(buffer) == Some(m) && m.channel in parsers
      requires Framed(false, live.cursor)
      requires var r := Call(GUARD, live, m.payload);
        result == Status(r) && parsers[m.channel].deniedRanges == r.ranges
      modifies this, parsers[m.channel]
      ensures Valid() && Outcome(Settle(old(State()), m, Call(GUARD, live, m.payload))) && owner == old(owner)
    {
      hide Call, InState;
      if result.StreamCorrupted? {
        Poison(m.channel);
      } else if result.DeniedData? {
        ForwardTrimmed(m, live);
      } else {
        sent := sent + [buffer];
        SerializedCast(buffer, m);
        WireOne(old(sent), Relayed(m));
      }
    }

    method HandlePayload(buffer: Bytes, m: BridgeMessage)
      requires Valid() && TryCast(buffer) == Some(m) && Tracked(State())
      modifies this, owner.Keys
      ensures Valid() && Outcome(Carry(old(State()), m)) && fresh(owner.Keys - old(owner.Keys))
    {
      var c := m.channel;
      if c in poisoned || c !in approved {
        NoWire(sent);
        return;
      }
      hide TryCast, InState, Settle, Call, Framed;
      ghost var live := LiveOf(State(), c);
      assert Framed(false, live.cursor) by { assert Framed(false, Start) by { StartFramed(); } }
      var result := ParseFor(c, m.payload, live);
      Conclude(buffer, m, result, live);
    }

    /** parsers[c].Parse(payload), where a missing parser is created. */
    method ParseFor(c: Channel, payload: string, ghost live: Live<GuardPolicy>) returns (result: ParserState)
      requires Valid() && live == LiveOf(State(), c)
      modifies this`parsers, this`lives, this`owner, owner.Keys
      ensures Valid() && fresh(owner.Keys - old(owner.Keys)) && c in parsers
      ensures var r := Call(GUARD, live, payload);
        && lives == old(lives)[c := Rest(r)]
        && result == Status(r)
        && parsers[c].deniedRanges == r.ranges
    {
      hide InState, Call, Status, Rest;
      if c !in parsers {
        Renew(c);
      }
      assert lives == old(lives)[c := live];
      result := ParseOn(c, payload);
    }

    method Receive(buffer: Bytes)
      requires Valid() && Tracked(State())
      modifies this, owner.Keys
      ensures Valid() && Outcome(GuardStep(old(State()), Datagram(buffer))) && fresh(owner.Keys - old(owner.Keys))
    {
      var cast := TryCast(buffer);
      hide TryCast, Outcome, Create, TearDown, Carry, Tracked;
      if cast.None? {
        Nothing();
        return;
      }
      var m := cast.value;
      match m.action {
        case CreateChannel => HandleCreate(buffer, m);
        case ShutdownChannel => HandleShutdown(buffer, m);
        case _ => HandlePayload(buffer, m);
      }
    }

    method Nothing()
      requires Valid()
      ensures Valid() && Outcome((State(), []))
    {
      NoWire(sent);
    }

    /** The top of the loop: a pending deny tears down every approved channel. */
    method CheckDeny() returns (ghost order: seq<Channel>)
      requires Valid()
      modifies this
      ensures Valid() && Outcome(GuardStep(old(State()), LoopTop(order))) && owner == old(owner)
      ensures Possible(old(State()), LoopTop(order))
    {
      if denyTeardown {
        order := Deny();
      } else {
        order := [];
        NoWire(sent);
      }
    }

    method Deny() returns (ghost order: seq<Channel>)
      requires Valid() && denyTeardown
      modifies this
      ensures Valid() && Outcome(GuardStep(old(State()), LoopTop(order))) && owner == old(owner)
      ensures Enumerates(order, old(approved))
    {
      hide InState, Enumerates, Visit, Wire;
      denyTeardown := false;
      order := DismissAll();
      approved := {};
    }

    method DismissAll() returns (ghost order: seq<Channel>)
      requires Valid()
      modifies this`sent, this`parsers, this`lives
      ensures Valid() && lives == old(lives) - approved
      ensures sent == old(sent) + Wire(Visit(order)) && Enumerates(order, approved)
    {
      order := [];
      NoWire(sent);
      var rest := approved;
      ghost var done: set<Channel> := {};
      assert Enumerates(order, done) && Split(done, rest, approved);
      hide InState, Enumerates, Visit, Wire, Serialize, Split;
      while rest != {}
        invariant Valid() && Split(done, rest, approved) && Enumerates(order, done)
        invariant lives == old(lives) - done
        invariant sent == old(sent) + Wire(Visit(order))
        decreases |rest|
      {
        var c :| c in rest;
        SplitMore(done, rest, approved, c);
        VisitMore(order, c);
        EnumerateMore(order, c, done);
        WireMore(old(sent), Visit(order), Issued(Shutdown(c)));
        Dismiss(c);
        MinusTwice(old(lives), done, c);
        order := order + [c];
        done := done + {c};
        rest := rest - {c};
      }
      SplitDone(done, approved);
    }
  }

  predicate Split<T>(done: set<T>, rest: set<T>, all: set<T>) { done + rest == all && done !! rest }

  lemma SplitMore<T>(done: set<T>, rest: set<T>, all: set<T>, x: T)
    requires Split(done, rest, all) && x in rest
    ensures Split(done + {x}, rest - {x}, all) && x !in done
  {
  }

  lemma SplitDone<T>(done: set<T>, all: set<T>)
    requires Split(done, {}, all)
    ensures done == all
  {
  }

  lemma MinusTwice<K, V>(m: map<K, V>, done: set<K>, x: K)
    ensures m - done - {x} == m - (done + {x})
  {
  }

  lemma StartFramed()
    ensures Framed(false, Start)
  {
  }

  lemma VisitMore(order: seq<Channel>, c: Channel)
    ensures Visit(order + [c]) == Visit(order) + [Issued(Shutdown(c))]
  {
    assert (order + [c])[..|order|] == order;
  }

  lemma EnumerateMore<T>(order: seq<T>, x: T, members: set<T>)
    requires Enumerates(order, members) && x !in members
    ensures Enumerates(order + [x], members + {x})
  {
    assert forall y :: y in order ==> y in order + [x];
    assert (order + [x])[|order|] == x;
  }

  lemma WireOne(s: seq<string>, a: Sent)
    ensures s + [Serialize(a.message)] == s + Wire([a])
  {
    hide Serialize;
  }

  lemma WireTwo(s: seq<string>, a: Sent, b: Sent)
    ensures s + [Serialize(a.message)] + [Serialize(b.message)] == s + Wire([a, b])
  {
    hide Serialize;
  }

  lemma WireMore(s: seq<string>, sent: seq<Sent>, a: Sent)
    ensures s + Wire(sent) + [Serialize(a.message)] == s + Wire(sent + [a])
  {
    hide Serialize;
    assert (sent + [a])[..|sent|] == sent;
  }

  lemma NoWire(s: seq<string>)
    ensures s == s + Wire([])
  {
  }
}
