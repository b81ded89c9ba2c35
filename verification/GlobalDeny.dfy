/**
 * The global deny at the grain of the atomics: the control thread stores the
 * switch and then raises a flag, the main loop exchanges the flag and later
 * clears the approved channels, loads the switch and later inserts. Steps of the
 * two threads interleave freely; memory is sequentially consistent.
 */
module GlobalDeny {
  import opened Framing
  import opened Instructions
  import opened Encoding
  import opened MultiplexerModule
  import opened GuardPolicyModule
  import opened HandshakeForgerModule
  import opened GuardModule
  import opened GuardRuns

  /** The control thread: between two commands, or between the two stores of a deny. */
  datatype ControlPc = Waiting | BetweenStores

  /** The main loop: where it stands between its accesses to shared state. */
  datatype MainPc =
    | Top
    | Tearing(order: seq<Channel>, rest: seq<Channel>)  // the flag is taken; of the channels in `order`, `rest` is still to visit
    | Receiving
    | Renewed(request: BridgeMessage)                // a request has reset its channel, the switch is not yet loaded
    | Loaded(request: BridgeMessage, approve: bool)  // the verdict is made, the channel not yet inserted

  datatype Machine = Machine(g: GuardState, control: ControlPc, main: MainPc)

  const START := Machine(INITIAL, Waiting, Top)

  datatype Move =
    | StoreApprove | StoreDeny | RaiseFlag
    | Exchange(order: seq<Channel>) | TearOne | ClearApproved
    | Timeout | Arrive(m: BridgeMessage) | LoadSwitch | Conclude

  predicate IsRequest(m: BridgeMessage) { m.action.CreateChannel? && ValidRequestId(m.payload) }

  predicate Enabled(s: Machine, a: Move) {
    match a
    case StoreApprove => s.control.Waiting?
    case StoreDeny => s.control.Waiting?
    case RaiseFlag => s.control.BetweenStores?
    case Exchange(order) => s.main.Top? && (s.g.denyTeardown ==> Enumerates(order, s.g.approved))
    case TearOne => s.main.Tearing? && s.main.rest != []
    case ClearApproved => s.main.Tearing? && s.main.rest == []
    case Timeout => s.main.Receiving?
    case Arrive(m) => s.main.Receiving?
    case LoadSwitch => s.main.Renewed?
    case Conclude => s.main.Loaded?
  }

  /** The verdict goes out and the channel is entered or dropped. */
  function Finish(g: GuardState, m: BridgeMessage, approve: bool): (GuardState, seq<Sent>) {
    var c := m.channel;
    var answers := [Relayed(m), Issued(GuardModule.Verdict(c, approve, m.payload))];
    if approve then (g.(approved := g.approved + {c}), answers)
    else (g.(parsers := g.parsers - {c}), answers + [Issued(Shutdown(c))])
  }

  function Do(s: Machine, a: Move): (Machine, seq<Sent>)
    requires Enabled(s, a)
  {
    match a
    case StoreApprove => (s.(g := s.g.(approving := true)), [])
    case StoreDeny => (s.(g := s.g.(approving := false), control := BetweenStores), [])
    case RaiseFlag => (s.(g := s.g.(denyTeardown := true), control := Waiting), [])
    case Exchange(order) =>
      if s.g.denyTeardown then (s.(g := s.g.(denyTeardown := false), main := Tearing(order, order)), [])
      else (s.(main := Receiving), [])
    case TearOne =>
      var c := s.main.rest[0];
      (s.(g := s.g.(parsers := s.g.parsers - {c}), main := Tearing(s.main.order, s.main.rest[1..])), [Issued(Shutdown(c))])
    case ClearApproved => (s.(g := s.g.(approved := {}), main := Receiving), [])
    case Timeout => (s.(main := Top), [])
    case Arrive(m) =>
      if IsRequest(m) then (s.(g := StartedOver(s.g, m.channel), main := Renewed(m)), [])
      else
        var (g', sent) := Handle(s.g, m);
        (s.(g := g', main := Top), sent)
    case LoadSwitch => (s.(main := Loaded(s.main.request, s.g.approving)), [])
    case Conclude =>
      var (g', sent) := Finish(s.g, s.main.request, s.main.approve);
      (s.(g := g', main := Top), sent)
  }

  predicate Runs(s: Machine, moves: seq<Move>)
    decreases |moves|
  {
    moves == [] || (Enabled(s, moves[0]) && Runs(Do(s, moves[0]).0, moves[1..]))
  }

  function End(s: Machine, moves: seq<Move>): Machine
    requires Runs(s, moves)
    decreases |moves|
  {
    if moves == [] then s else End(Do(s, moves[0]).0, moves[1..])
  }

  function Frames(s: Machine, moves: seq<Move>): seq<Sent>
    requires Runs(s, moves)
    decreases |moves|
  {
    if moves == [] then [] else Do(s, moves[0]).1 + Frames(Do(s, moves[0]).0, moves[1..])
  }

  // ---- Without interleaving the steps make up the guard's own

  /** A run that begins with move `a`. */
  lemma RunFirst(s: Machine, a: Move, later: seq<Move>)
    requires Enabled(s, a) && Runs(Do(s, a).0, later)
    ensures Runs(s, [a] + later)
    ensures End(s, [a] + later) == End(Do(s, a).0, later)
    ensures Frames(s, [a] + later) == Do(s, a).1 + Frames(Do(s, a).0, later)
  {
    assert ([a] + later)[1..] == later;
    hide Do, Enabled;
  }

  lemma StepsMakeCreate(s: Machine, m: BridgeMessage)
    requires s.main.Receiving? && IsRequest(m)
    ensures var moves := [Arrive(m)] + ([LoadSwitch] + ([Conclude] + []));
      && Runs(s, moves)
      && End(s, moves) == s.(g := Create(s.g, m).0, main := Top)
      && Frames(s, moves) == Create(s.g, m).1
  {
    hide ValidRequestId, GuardModule.Verdict, Shutdown;
    var s1 := Do(s, Arrive(m)).0;
    var s2 := Do(s1, LoadSwitch).0;
    var sent := Do(s2, Conclude).1;
    RunFirst(s2, Conclude, []);
    RunFirst(s1, LoadSwitch, [Conclude] + []);
    RunFirst(s, Arrive(m), [LoadSwitch] + ([Conclude] + []));
    assert [] + ([] + (sent + [])) == sent;
  }

  /** The control thread's stores make up the toggles of the guard's own steps. */
  lemma StepsMakeToggle(s: Machine)
    requires s.control.Waiting?
    ensures var moves := [StoreApprove] + [];
      Runs(s, moves) && End(s, moves) == s.(g := GuardStep(s.g, Toggle(true)).0) && Frames(s, moves) == GuardStep(s.g, Toggle(true)).1
    ensures var moves := [StoreDeny] + ([RaiseFlag] + []);
      Runs(s, moves) && End(s, moves) == s.(g := GuardStep(s.g, Toggle(false)).0) && Frames(s, moves) == GuardStep(s.g, Toggle(false)).1
  {
    var s1 := Do(s, StoreDeny).0;
    RunFirst(s, StoreApprove, []);
    RunFirst(s1, RaiseFlag, []);
    RunFirst(s, StoreDeny, [RaiseFlag] + []);
  }

  /** The moves of a deny that visits `n` channels. */
  function TearMoves(n: nat): seq<Move> {
    if n == 0 then [ClearApproved] + [] else [TearOne] + TearMoves(n - 1)
  }

  function Members<T>(s: seq<T>): set<T> { set x | x in s }

  lemma MinusFront<K, V>(m: map<K, V>, s: seq<K>)
    ensures s == [] ==> m - Members(s) == m
    ensures s != [] ==> m - {s[0]} - Members(s[1..]) == m - Members(s)
  {
    if s != [] {
      assert s == [s[0]] + s[1..];
    }
  }

  lemma {:induction false} StepsMakeDeny(s: Machine)
    requires s.main.Tearing?
    ensures var moves := TearMoves(|s.main.rest|);
      && Runs(s, moves)
      && End(s, moves) ==
           s.(g := s.g.(parsers := s.g.parsers - Members(s.main.rest), approved := {}), main := Receiving)
      && Frames(s, moves) == Visit(s.main.rest)
    decreases |s.main.rest|
  {
    var rest := s.main.rest;
    MinusFront(s.g.parsers, rest);
    hide Visit, Members;
    if rest == [] {
      RunFirst(s, ClearApproved, []);
      VisitNone();
    } else {
      StepsMakeDeny(Do(s, TearOne).0);
      RunFirst(s, TearOne, TearMoves(|rest| - 1));
      VisitFront(rest);
    }
  }

  lemma VisitNone()
    ensures Visit([]) == []
  {
  }

  lemma {:induction false} VisitFront(order: seq<Channel>)
    requires order != []
    ensures Visit(order) == [Issued(Shutdown(order[0]))] + Visit(order[1..])
  {
  }

  // ---- Safety of the deny

  /** No channel is open, or the open ones are being torn down, and no approving verdict is pending. */
  predicate Sealed(s: Machine) {
    (s.main.Tearing? || s.g.approved == {}) && !(s.main.Loaded? && s.main.approve)
  }

  /**
   * Kept by every move: a teardown visits exactly the approved channels, a deny that
   * has been taken notice of leaves the machine sealed, only requests are answered.
   */
  predicate Quiet(s: Machine) {
    && (s.main.Tearing? ==> Members(s.main.order) == s.g.approved)
    && (!s.g.approving && !s.g.denyTeardown && s.control.Waiting? ==> Sealed(s))
    && (s.main.Renewed? || s.main.Loaded? ==> IsRequest(s.main.request))
  }

  lemma EnumeratesMembers(order: seq<Channel>, members: set<Channel>)
    requires Enumerates(order, members)
    ensures Members(order) == members
  {
  }

  lemma DoQuiet(s: Machine, a: Move)
    requires Quiet(s) && Enabled(s, a)
    ensures Quiet(Do(s, a).0)
  {
    if a.Exchange? && s.g.denyTeardown {
      EnumeratesMembers(a.order, s.g.approved);
    }
    hide Members, Enumerates;
    if a.Arrive? && !IsRequest(a.m) {
      HandleKeepsSwitches(s.g, a.m);
      hide Handle;
    }
  }

  lemma HandleKeepsSwitches(g: GuardState, m: BridgeMessage)
    requires !IsRequest(m)
    ensures var (g', sent) := Handle(g, m);
      && g'.approving == g.approving && g'.denyTeardown == g.denyTeardown && g'.approved <= g.approved
      && |sent| <= 1
      && (g.approved == {} ==> forall c: Channel, k :: 0 <= k < |sent| ==> !IsPayload(sent[k], c))
  {
  }

  lemma {:induction false} RunQuiet(s: Machine, moves: seq<Move>)
    requires Quiet(s) && Runs(s, moves)
    ensures Quiet(End(s, moves))
    decreases |moves|
  {
    if moves != [] {
      DoQuiet(s, moves[0]);
      hide Quiet, Do, Enabled;
      RunQuiet(Do(s, moves[0]).0, moves[1..]);
    }
  }

  /** How many payloads a run sends. */
  function Payloads(sent: seq<Sent>): nat {
    if sent == [] then 0 else
    Payloads(sent[..|sent| - 1]) + if IsPayload(sent[|sent| - 1], sent[|sent| - 1].message.channel) then 1 else 0
  }

  /** The operator's deny stands, and either it has taken effect or the next loop top will see it. */
  predicate Denied(s: Machine) { Quiet(s) && !s.g.approving && (Sealed(s) || s.g.denyTeardown) }

  /** The payloads the main loop may still send before it does. */
  function Budget(s: Machine): nat { if !Sealed(s) && s.main.Receiving? then 1 else 0 }

  lemma {:induction false} NoPayloads(sent: seq<Sent>)
    requires forall c: Channel, k :: 0 <= k < |sent| ==> !IsPayload(sent[k], c)
    ensures Payloads(sent) == 0
  {
    if sent != [] {
      hide IsPayload;
      NoPayloads(sent[..|sent| - 1]);
    }
  }

  lemma {:induction false} AtMost(sent: seq<Sent>)
    ensures Payloads(sent) <= |sent|
  {
    if sent != [] {
      AtMost(sent[..|sent| - 1]);
    }
  }

  lemma DoDenied(s: Machine, a: Move)
    requires Denied(s) && Enabled(s, a) && !a.StoreApprove?
    ensures var (s', sent) := Do(s, a); Denied(s') && Payloads(sent) + Budget(s') <= Budget(s)
  {
    DoQuiet(s, a);
    match a {
      case Arrive(m) =>
        if !IsRequest(m) {
          var sent := Handle(s.g, m).1;
          HandleKeepsSwitches(s.g, m);
          AtMost(sent);
          hide Handle, IsPayload, Payloads;
          if s.g.approved == {} {
            NoPayloads(sent);
          }
        }
      case Conclude =>
        NoPayloads(Finish(s.g, s.main.request, s.main.approve).1);
      case TearOne => NoPayloads(Do(s, a).1);
      case _ =>
    }
  }

  lemma {:induction false} PayloadsConcat(a: seq<Sent>, b: seq<Sent>)
    ensures Payloads(a + b) == Payloads(a) + Payloads(b)
  {
    if b == [] {
      assert a + b == a;
    } else {
      assert (a + b)[..|a + b| - 1] == a + b[..|b| - 1];
      PayloadsConcat(a, b[..|b| - 1]);
    }
  }

  lemma {:induction false} RunDenied(s: Machine, moves: seq<Move>)
    requires Denied(s) && Runs(s, moves) && forall k :: 0 <= k < |moves| ==> !moves[k].StoreApprove?
    ensures Denied(End(s, moves)) && Payloads(Frames(s, moves)) + Budget(End(s, moves)) <= Budget(s)
    decreases |moves|
  {
    if moves != [] {
      DoDenied(s, moves[0]);
      var (s', sent) := Do(s, moves[0]);
      PayloadsConcat(sent, Frames(s', moves[1..]));
      hide Denied, Do, Enabled, Payloads, Budget;
      RunDenied(s', moves[1..]);
    }
  }

  /**
   * Once the operator's deny has made both its stores, at most one more payload is
   * sent before the next approve, whatever the interleaving; none at all once the
   * flag is clear again.
   */
  lemma {:induction false} DenyIsPrompt(before: seq<Move>, after: seq<Move>)
    requires Runs(START, before)
    requires var s := End(START, before); !s.g.approving && s.control.Waiting? && Runs(s, after)
    requires forall k :: 0 <= k < |after| ==> !after[k].StoreApprove?
    ensures var s := End(START, before);
      Payloads(Frames(s, after)) <= if s.g.denyTeardown then 1 else 0
  {
    RunQuiet(START, before);
    RunDenied(End(START, before), after);
  }

  /**
   * With the switch on deny, the flag clear and the control thread not between its
   * stores: no approving verdict is pending, and no channel is approved if and only
   * if the main loop is not just tearing channels down.
   */
  lemma {:induction false} QuietAlways(moves: seq<Move>)
    requires Runs(START, moves)
    requires var s := End(START, moves); !s.g.approving && !s.g.denyTeardown && s.control.Waiting?
    ensures var s := End(START, moves);
      && !(s.main.Loaded? && s.main.approve)
      && (s.g.approved == {} <==> !(s.main.Tearing? && s.main.order != []))
  {
    RunQuiet(START, moves);
    var s := End(START, moves);
    if s.main.Tearing? && s.main.order != [] {
      assert s.main.order[0] in Members(s.main.order);
    }
  }

  const REQUEST := BridgeMessage(7, CreateChannel, "0123456789ab")

  /**
   * While the main loop tears down, channels are still approved although the flag
   * is clear: the exception in `Quiet` is a state the guard reaches.
   */
  lemma ApprovedWhileTearing() returns (moves: seq<Move>)
    ensures Runs(START, moves)
    ensures var s := End(START, moves);
      !s.g.approving && !s.g.denyTeardown && s.control.Waiting? && s.g.approved == {7}
  {
    assert IsRequest(REQUEST);
    var s1 := Do(START, Exchange([])).0;
    var s2 := Do(s1, Arrive(REQUEST)).0;
    var s3 := Do(s2, LoadSwitch).0;
    var s4 := Do(s3, Conclude).0;
    var s5 := Do(s4, StoreDeny).0;
    var s6 := Do(s5, RaiseFlag).0;
    assert s6.g.approved == {7} && Enumerates([7], s6.g.approved);
    var s7 := Do(s6, Exchange([7])).0;
    assert !s7.g.approving && !s7.g.denyTeardown && s7.control.Waiting? && s7.g.approved == {7};
    hide Do;
    RunFirst(s6, Exchange([7]), []);
    RunFirst(s5, RaiseFlag, [Exchange([7])] + []);
    RunFirst(s4, StoreDeny, [RaiseFlag] + ([Exchange([7])] + []));
    var m4 := [StoreDeny] + ([RaiseFlag] + ([Exchange([7])] + []));
    RunFirst(s3, Conclude, m4);
    RunFirst(s2, LoadSwitch, [Conclude] + m4);
    RunFirst(s1, Arrive(REQUEST), [LoadSwitch] + ([Conclude] + m4));
    var m1 := [Arrive(REQUEST)] + ([LoadSwitch] + ([Conclude] + m4));
    RunFirst(START, Exchange([]), m1);
    moves := [Exchange([])] + m1;
  }

  const GOODBYE := BridgeMessage(7, Payload, Instr(["disconnect"]))

  /** One allowed instruction on an approved channel crosses. */
  lemma GoodbyeCrosses(g: GuardState)
    requires 7 in g.approved && 7 !in g.poisoned && 7 in g.parsers && g.parsers[7] == Fresh(NO_STREAM)
    ensures Handle(g, GOODBYE).1 == [Relayed(GOODBYE)]
  {
    var i, r := ["disconnect"], NewCall(Fresh(NO_STREAM));
    assert WellFormed(i);
    OnePrinted(GUARD, r, i);
    assert Instructions.Verdict(GUARD, NO_STREAM, i).1;
    hide Feed, Instr;
  }

  /** A run after which channel 7 is approved and a deny has made both stores, unseen by the main loop. */
  lemma DeniedUnseen() returns (moves: seq<Move>)
    ensures Runs(START, moves)
    ensures var s := End(START, moves);
      && !s.g.approving && s.g.denyTeardown && s.control.Waiting? && s.main.Receiving?
      && s.g.approved == {7} && s.g.poisoned == {} && 7 in s.g.parsers && s.g.parsers[7] == Fresh(NO_STREAM)
  {
    assert IsRequest(REQUEST);
    var s1 := Do(START, Exchange([])).0;
    var s2 := Do(s1, Arrive(REQUEST)).0;
    var s3 := Do(s2, LoadSwitch).0;
    var s4 := Do(s3, Conclude).0;
    var s5 := Do(s4, Exchange([])).0;
    var s6 := Do(s5, StoreDeny).0;
    var s7 := Do(s6, RaiseFlag).0;
    assert s7.g.approved == {7} && s7.g.poisoned == {} && s7.g.parsers[7] == Fresh(NO_STREAM);
    hide Do;
    RunFirst(s6, RaiseFlag, []);
    var m5 := [StoreDeny] + ([RaiseFlag] + []);
    RunFirst(s5, StoreDeny, [RaiseFlag] + []);
    RunFirst(s4, Exchange([]), m5);
    var m3 := [Conclude] + ([Exchange([])] + m5);
    RunFirst(s3, Conclude, [Exchange([])] + m5);
    RunFirst(s2, LoadSwitch, m3);
    RunFirst(s1, Arrive(REQUEST), [LoadSwitch] + m3);
    var m1 := [Arrive(REQUEST)] + ([LoadSwitch] + m3);
    RunFirst(START, Exchange([]), m1);
    moves := [Exchange([])] + m1;
  }

  /** The bound of `DenyIsPrompt` is attained: one payload does cross after a deny has made both stores. */
  lemma OneMayCross() returns (before: seq<Move>, after: seq<Move>)
    ensures Runs(START, before)
    ensures var s := End(START, before);
      && !s.g.approving && s.g.denyTeardown && s.control.Waiting? && Runs(s, after)
      && (forall k :: 0 <= k < |after| ==> !after[k].StoreApprove?)
      && Payloads(Frames(s, after)) == 1
  {
    before := DeniedUnseen();
    var s := End(START, before);
    after := [Arrive(GOODBYE)] + [];
    assert Enabled(s, Arrive(GOODBYE)) && !IsRequest(GOODBYE);
    GoodbyeCrosses(s.g);
    assert Do(s, Arrive(GOODBYE)).1 == [Relayed(GOODBYE)];
    hide Do, Handle, Runs, End;
    assert Runs(Do(s, Arrive(GOODBYE)).0, []) by { EmptyRun(Do(s, Arrive(GOODBYE)).0); }
    RunFirst(s, Arrive(GOODBYE), []);
    OnePayload();
  }

  lemma EmptyRun(s: Machine)
    ensures Runs(s, []) && Frames(s, []) == []
  {
  }

  lemma OnePayload()
    ensures Payloads([Relayed(GOODBYE)] + []) == 1
  {
    var sent := [Relayed(GOODBYE)];
    assert sent + [] == sent && sent[..0] == [];
    assert Payloads(sent) == Payloads(sent[..0]) + 1;
  }
}
