/**
 * Whole runs of the guard: what its loop keeps, when payload crosses, what a
 * channel's forwarded bytes are worth to a second guard, and that channels do
 * not touch each other.
 */
module GuardRuns {
  import opened Framing
  import opened Excision
  import opened Chunking
  import opened GuardPolicyModule
  import opened MultiplexerModule
  import opened GuardModule

  /** The guard after some events, and everything it has sent. */
  function RunGuard(events: seq<Event>): (GuardState, seq<Sent>) {
    if events == [] then (INITIAL, []) else
    var (g, sent) := RunGuard(events[..|events| - 1]);
    var (g', more) := GuardStep(g, events[|events| - 1]);
    (g', sent + more)
  }

  predicate PossibleRun(events: seq<Event>) {
    events == [] ||
    (PossibleRun(events[..|events| - 1]) && Possible(RunGuard(events[..|events| - 1]).0, events[|events| - 1]))
  }

  lemma RunMore(events: seq<Event>, e: Event)
    ensures RunGuard(events + [e]) ==
      var (g, sent) := RunGuard(events); var (g', more) := GuardStep(g, e); (g', sent + more)
    ensures PossibleRun(events + [e]) <==> PossibleRun(events) && Possible(RunGuard(events).0, e)
  {
    assert (events + [e])[..|events|] == events;
    hide GuardStep, Possible;
  }

  lemma {:induction false} WireConcat(a: seq<Sent>, b: seq<Sent>)
    ensures Wire(a + b) == Wire(a) + Wire(b)
  {
  }

  // ---- What every step keeps

  /** At the top of the loop: a parser for exactly the approved channels, none of them poisoned or corrupted. */
  ghost predicate Sound(g: GuardState) {
    && g.parsers.Keys == g.approved
    && g.approved !! g.poisoned
    && forall c :: c in g.parsers ==> Healthy(g.parsers[c])
  }

  ghost predicate Healthy(l: Live<GuardPolicy>) { Framed(false, l.cursor) && !l.cursor.Corrupted? }

  lemma CallHealthy(l: Live<GuardPolicy>, s: string)
    requires Healthy(l) && Clean(Call(GUARD, l, s))
    ensures Healthy(Call(GUARD, l, s).live) && Rest(Call(GUARD, l, s)) == Call(GUARD, l, s).live
  {
    FeedInCall(GUARD, NewCall(l), s);
  }

  lemma CarrySound(g: GuardState, m: BridgeMessage)
    requires Sound(g)
    ensures Sound(Carry(g, m).0)
  {
    if m.channel in g.approved {
      var l, c := LiveOf(g, m.channel), m.channel;
      assert Healthy(l);
      if Clean(Call(GUARD, l, m.payload)) {
        CallHealthy(l, m.payload);
      }
      hide Call, Healthy;
    }
  }

  lemma HandleSound(g: GuardState, m: BridgeMessage)
    requires Sound(g)
    ensures Sound(Handle(g, m).0)
  {
    match m.action {
      case CreateChannel => assert Healthy(Fresh(NO_STREAM)); hide Healthy;
      case ShutdownChannel => hide Healthy;
      case _ => CarrySound(g, m);
    }
  }

  lemma StepSound(g: GuardState, e: Event)
    requires Sound(g)
    ensures Sound(GuardStep(g, e).0)
  {
    hide TryCast, Handle, Healthy;
    if e.Datagram? && TryCast(e.buffer).Some? {
      HandleSound(g, TryCast(e.buffer).value);
    }
  }

  lemma {:induction false} RunSound(events: seq<Event>)
    ensures Sound(RunGuard(events).0)
  {
    if events != [] {
      RunSound(events[..|events| - 1]);
      StepSound(RunGuard(events[..|events| - 1]).0, events[|events| - 1]);
      hide Sound, GuardStep;
    }
  }

  // ---- The loop itself

  /** What reaches the loop: an operator command, a datagram, or a receive that timed out. */
  datatype Input = Command(approve: bool) | Arrival(buffer: Bytes) | Idle

  /** The events behind one input; every round of the loop begins with the deny check. */
  predicate Behind(events: seq<Event>, input: Input) {
    match input
    case Command(approve) => events == [Toggle(approve)]
    case Arrival(buffer) => |events| == 2 && events[0].LoopTop? && events[1] == Datagram(buffer)
    case Idle => |events| == 1 && events[0].LoopTop?
  }

  predicate BehindAll(events: seq<seq<Event>>, inputs: seq<Input>) {
    |events| == |inputs| && forall k :: 0 <= k < |inputs| ==> Behind(events[k], inputs[k])
  }

  function Flat(events: seq<seq<Event>>): seq<Event> {
    if events == [] then [] else Flat(events[..|events| - 1]) + events[|events| - 1]
  }

  /** The guard object is where the run `events` leads, and has sent the run's frames. */
  ghost predicate Follows(guard: Guard, events: seq<Event>)
    reads guard, guard.owner.Keys
  {
    && guard.Valid() && PossibleRun(events)
    && guard.State() == RunGuard(events).0 && guard.sent == Wire(RunGuard(events).1)
  }

  lemma FollowsMore(events: seq<Event>, e: Event, g: GuardState, sent: seq<string>)
    requires PossibleRun(events) && Possible(RunGuard(events).0, e)
    requires g == GuardStep(RunGuard(events).0, e).0
    requires sent == Wire(RunGuard(events).1) + Wire(GuardStep(RunGuard(events).0, e).1)
    ensures PossibleRun(events + [e]) && g == RunGuard(events + [e]).0 && sent == Wire(RunGuard(events + [e]).1)
  {
    RunMore(events, e);
    hide RunGuard, GuardStep, Wire, PossibleRun, Possible;
    WireConcat(RunGuard(events).1, GuardStep(RunGuard(events).0, e).1);
  }

  method SetSwitch(guard: Guard, approve: bool, ghost events: seq<Event>)
    requires Follows(guard, events)
    modifies guard
    ensures Follows(guard, events + [Toggle(approve)]) && guard.owner == old(guard.owner)
  {
    guard.Control(approve);
    hide RunGuard, GuardStep, Wire, PossibleRun;
    FollowsMore(events, Toggle(approve), guard.State(), guard.sent);
  }

  method Top(guard: Guard, ghost events: seq<Event>) returns (ghost order: seq<Channel>)
    requires Follows(guard, events)
    modifies guard
    ensures Follows(guard, events + [LoopTop(order)]) && guard.owner == old(guard.owner)
  {
    hide RunGuard, GuardStep, Wire, PossibleRun, Possible;
    order := guard.CheckDeny();
    FollowsMore(events, LoopTop(order), guard.State(), guard.sent);
  }

  method Take(guard: Guard, buffer: Bytes, ghost events: seq<Event>)
    requires Follows(guard, events)
    modifies guard, guard.owner.Keys
    ensures Follows(guard, events + [Datagram(buffer)]) && fresh(guard.owner.Keys - old(guard.owner.Keys))
  {
    RunSound(events);
    assert Tracked(guard.State());
    assert Possible(RunGuard(events).0, Datagram(buffer));
    hide RunGuard, GuardStep, Wire, PossibleRun, Possible;
    guard.Receive(buffer);
    FollowsMore(events, Datagram(buffer), guard.State(), guard.sent);
  }

  /** One input. */
  method Round(guard: Guard, input: Input, ghost events: seq<Event>) returns (ghost more: seq<Event>)
    requires Follows(guard, events)
    modifies guard, guard.owner.Keys
    ensures Behind(more, input) && Follows(guard, events + more) && fresh(guard.owner.Keys - old(guard.owner.Keys))
  {
    hide Follows;
    match input {
      case Command(approve) =>
        SetSwitch(guard, approve, events);
        more := [Toggle(approve)];
      case Arrival(buffer) =>
        ghost var order := Top(guard, events);
        Take(guard, buffer, events + [LoopTop(order)]);
        more := [LoopTop(order), Datagram(buffer)];
        assert events + more == events + [LoopTop(order)] + [Datagram(buffer)];
      case Idle =>
        ghost var order := Top(guard, events);
        more := [LoopTop(order)];
    }
  }

  lemma FlatMore(events: seq<seq<Event>>, more: seq<Event>)
    ensures Flat(events + [more]) == Flat(events) + more
  {
    assert (events + [more])[..|events|] == events;
  }

  lemma BehindMore(events: seq<seq<Event>>, inputs: seq<Input>, i: nat, more: seq<Event>)
    requires i < |inputs| && BehindAll(events, inputs[..i]) && Behind(more, inputs[i])
    ensures BehindAll(events + [more], inputs[..i + 1])
  {
    hide Behind;
  }

  lemma NothingBehind(inputs: seq<Input>)
    ensures BehindAll([], inputs[..0])
  {
  }

  method Start() returns (guard: Guard)
    ensures fresh(guard) && fresh(guard.owner.Keys) && Follows(guard, Flat([]))
  {
    guard := new Guard();
  }

  /** The receive loop: on any inputs the guard makes a run over the events behind them. */
  method Serve(inputs: seq<Input>) returns (guard: Guard, ghost events: seq<seq<Event>>)
    ensures BehindAll(events, inputs) && Follows(guard, Flat(events))
  {
    hide *;
    guard := Start();
    events := [];
    NothingBehind(inputs);
    var i := 0;
    while i < |inputs|
      invariant 0 <= i <= |inputs| && fresh(guard) && fresh(guard.owner.Keys)
      invariant Follows(guard, Flat(events))
      invariant BehindAll(events, inputs[..i])
    {
      ghost var more := Round(guard, inputs[i], Flat(events));
      FlatMore(events, more);
      BehindMore(events, inputs, i, more);
      events := events + [more];
      i := i + 1;
    }
    assert inputs[..|inputs|] == inputs;
  }

  // ---- The gate

  /** Guacamole, or anything else that is passed on as payload. */
  predicate IsPayload(s: Sent, c: Channel) {
    s.Relayed? && s.message.channel == c && !s.message.action.CreateChannel? && !s.message.action.ShutdownChannel?
  }

  /** A verdict of the guard's own. */
  predicate IsVerdict(s: Sent, c: Channel, verdict: char) {
    s.Issued? && s.message.channel == c && s.message.action.Approval? && s.message.payload != "" && s.message.payload[0] == verdict
  }

  predicate Closes(s: Sent, c: Channel) {
    (s.message.channel == c && s.message.action.ShutdownChannel?) || IsVerdict(s, c, APPROVAL_DENY)
  }

  /** The last frame on `c` that matters to the gate is an approval of the guard's. */
  predicate Open(sent: seq<Sent>, c: Channel) {
    sent != [] &&
    var last := sent[|sent| - 1];
    if Closes(last, c) then false
    else IsVerdict(last, c, APPROVAL_APPROVE) || Open(sent[..|sent| - 1], c)
  }

  /** Which is to say: an approval was issued, and nothing has closed the channel since. */
  predicate OpenedAt(sent: seq<Sent>, c: Channel, j: int) {
    0 <= j < |sent| && IsVerdict(sent[j], c, APPROVAL_APPROVE) && forall i :: j < i < |sent| ==> !Closes(sent[i], c)
  }

  lemma {:induction false} OpenMeans(sent: seq<Sent>, c: Channel)
    ensures Open(sent, c) <==> exists j :: OpenedAt(sent, c, j)
  {
    if sent != [] {
      var init, last := sent[..|sent| - 1], sent[|sent| - 1];
      OpenMeans(init, c);
      hide IsVerdict, Open;
      assert IsVerdict(last, c, APPROVAL_APPROVE) ==> !Closes(last, c) by { VerdictsDiffer(last, c); }
      assert Open(sent, c) <==> !Closes(last, c) && (IsVerdict(last, c, APPROVAL_APPROVE) || Open(init, c)) by { OpenLast(sent, c); }
      if !Closes(last, c) && IsVerdict(last, c, APPROVAL_APPROVE) {
        assert OpenedAt(sent, c, |sent| - 1);
      }
      forall j | OpenedAt(init, c, j) && !Closes(last, c) ensures OpenedAt(sent, c, j) {
      }
      forall j | OpenedAt(sent, c, j) && j < |init| ensures OpenedAt(init, c, j) {
      }
    }
  }

  lemma VerdictsDiffer(s: Sent, c: Channel)
    ensures !(IsVerdict(s, c, APPROVAL_APPROVE) && Closes(s, c))
  {
  }

  lemma OpenLast(sent: seq<Sent>, c: Channel)
    requires sent != []
    ensures Open(sent, c) <==>
      !Closes(sent[|sent| - 1], c) && (IsVerdict(sent[|sent| - 1], c, APPROVAL_APPROVE) || Open(sent[..|sent| - 1], c))
  {
  }

  lemma OpenMore(sent: seq<Sent>, a: Sent, c: Channel)
    ensures Open(sent + [a], c) <==> !Closes(a, c) && (IsVerdict(a, c, APPROVAL_APPROVE) || Open(sent, c))
  {
    assert (sent + [a])[..|sent|] == sent;
  }

  /** After `sent` exactly the approved channels are open. */
  ghost predicate Gated(g: GuardState, sent: seq<Sent>) {
    forall c: Channel :: c in g.approved <==> Open(sent, c)
  }

  /** Every payload among `more` finds its channel open. */
  ghost predicate Passed(sent: seq<Sent>, more: seq<Sent>) {
    forall k, c: Channel :: 0 <= k < |more| && IsPayload(more[k], c) ==> Open(sent + more[..k], c)
  }

  lemma CreateGated(g: GuardState, sent: seq<Sent>, m: BridgeMessage)
    requires Gated(g, sent) && m.action.CreateChannel?
    ensures var (g', more) := Create(g, m); Gated(g', sent + more) && Passed(sent, more)
  {
    if !ValidRequestId(m.payload) {
      assert sent + [] == sent;
    } else {
      hide Open;
      var v := Issued(Verdict(m.channel, g.approving, m.payload));
      var s1, s2 := sent + [Relayed(m)], sent + [Relayed(m)] + [v];
      var s3 := s2 + [Issued(Shutdown(m.channel))];
      forall c: Channel
        ensures Open(s2, c) <==> if c == m.channel then g.approving else Open(sent, c)
        ensures Open(s3, c) <==> c != m.channel && Open(sent, c)
      {
        OpenMore(sent, Relayed(m), c);
        OpenMore(s1, v, c);
        OpenMore(s2, Issued(Shutdown(m.channel)), c);
      }
      assert sent + [Relayed(m), v] == s2;
      assert sent + ([Relayed(m), v] + [Issued(Shutdown(m.channel))]) == s3;
    }
  }

  lemma OneGated(g: GuardState, sent: seq<Sent>, g': GuardState, a: Sent)
    requires Gated(g, sent)
    requires forall c: Channel :: c in g'.approved <==> !Closes(a, c) && (IsVerdict(a, c, APPROVAL_APPROVE) || c in g.approved)
    requires forall c: Channel :: IsPayload(a, c) ==> c in g.approved
    ensures Gated(g', sent + [a]) && Passed(sent, [a])
  {
    hide IsPayload, IsVerdict, Closes, Open;
    forall c: Channel ensures c in g'.approved <==> Open(sent + [a], c) {
      OpenMore(sent, a, c);
    }
    assert sent + [a][..0] == sent;
  }

  lemma NoneGated(g: GuardState, sent: seq<Sent>)
    requires Gated(g, sent)
    ensures Gated(g, sent + []) && Passed(sent, [])
  {
    assert sent + [] == sent;
  }

  lemma SettleGated(g: GuardState, sent: seq<Sent>, m: BridgeMessage, r: Run<GuardPolicy>)
    requires Gated(g, sent) && m.channel in g.approved && !m.action.CreateChannel? && !m.action.ShutdownChannel?
    ensures var (g', more) := Settle(g, m, r); Gated(g', sent + more) && Passed(sent, more)
  {
    var (g', more) := Settle(g, m, r);
    hide Gated, Passed, Clean, Output;
    if more == [] {
      assert g' == g;
      NoneGated(g, sent);
    } else {
      OneGated(g, sent, g', more[0]);
      assert more == [more[0]];
    }
  }

  lemma HandleGated(g: GuardState, sent: seq<Sent>, m: BridgeMessage)
    requires Gated(g, sent)
    ensures var (g', more) := Handle(g, m); Gated(g', sent + more) && Passed(sent, more)
  {
    hide Gated, Passed, Create, Settle;
    match m.action {
      case CreateChannel => CreateGated(g, sent, m);
      case ShutdownChannel => OneGated(g, sent, TearDown(g, m).0, Relayed(m));
      case _ =>
        if m.channel in g.poisoned || m.channel !in g.approved {
          NoneGated(g, sent);
        } else {
          var r := Call(GUARD, LiveOf(g, m.channel), m.payload);
          var g1 := g.(parsers := g.parsers[m.channel := Rest(r)]);
          assert Gated(g1, sent) by { SameApproved(g, g1, sent); }
          SettleGated(g1, sent, m, r);
        }
    }
  }

  lemma SameApproved(g: GuardState, g': GuardState, sent: seq<Sent>)
    requires Gated(g, sent) && g'.approved == g.approved
    ensures Gated(g', sent)
  {
  }

  /** A deny closes the channels it visits and no other. */
  lemma {:induction false} VisitCloses(sent: seq<Sent>, order: seq<Channel>, c: Channel)
    ensures Open(sent + Visit(order), c) <==> Open(sent, c) && c !in order
  {
    if order == [] {
      assert sent + [] == sent;
    } else {
      var init, last := order[..|order| - 1], order[|order| - 1];
      VisitCloses(sent, init, c);
      OpenMore(sent + Visit(init), Issued(Shutdown(last)), c);
      Assoc(sent, Visit(init), [Issued(Shutdown(last))]);
      assert order == init + [last];
    }
  }

  lemma StepGated(g: GuardState, sent: seq<Sent>, e: Event)
    requires Gated(g, sent) && Possible(g, e)
    ensures var (g', more) := GuardStep(g, e); Gated(g', sent + more) && Passed(sent, more)
  {
    hide Handle, TryCast;
    match e {
      case Toggle(approve) =>
        SameApproved(g, GuardStep(g, e).0, sent);
        NoneGated(GuardStep(g, e).0, sent);
      case LoopTop(order) =>
        if g.denyTeardown {
          hide Visit, Open;
          forall c: Channel ensures !Open(sent + Visit(order), c) {
            VisitCloses(sent, order, c);
          }
          assert Passed(sent, Visit(order));
        } else {
          NoneGated(g, sent);
        }
      case Datagram(buffer) =>
        if TryCast(buffer).None? {
          NoneGated(g, sent);
        } else {
          HandleGated(g, sent, TryCast(buffer).value);
        }
    }
  }

  lemma PassedMore(sent: seq<Sent>, more: seq<Sent>)
    requires Passed([], sent) && Passed(sent, more)
    ensures Passed([], sent + more)
  {
    hide IsPayload, Open;
    var all := sent + more;
    forall k, c: Channel | 0 <= k < |all| && IsPayload(all[k], c) ensures Open([] + all[..k], c) {
      if k < |sent| {
        assert [] + all[..k] == [] + sent[..k] && all[k] == sent[k];
      } else {
        assert [] + all[..k] == sent + more[..k - |sent|] && all[k] == more[k - |sent|];
      }
    }
  }

  lemma {:induction false} RunGated(events: seq<Event>)
    requires PossibleRun(events)
    ensures var (g, sent) := RunGuard(events); Gated(g, sent) && Passed([], sent)
  {
    if events != [] {
      RunGated(events[..|events| - 1]);
      var (g, sent) := RunGuard(events[..|events| - 1]);
      var e := events[|events| - 1];
      hide Gated, Passed, GuardStep, Possible;
      StepGated(g, sent, e);
      PassedMore(sent, GuardStep(g, e).1);
    }
  }

  /**
   * Every payload the guard ever sends on a channel has an earlier approval of the
   * guard's for it, with no SHUTDOWN and no denial of the guard's in between.
   */
  lemma {:induction false} PayloadNeedsApproval(events: seq<Event>, k: nat, c: Channel)
    requires PossibleRun(events)
    requires k < |RunGuard(events).1| && IsPayload(RunGuard(events).1[k], c)
    ensures exists j :: OpenedAt(RunGuard(events).1[..k], c, j)
  {
    RunGated(events);
    var sent := RunGuard(events).1;
    hide RunGuard, Open, OpenedAt, IsPayload;
    assert [] + sent[..k] == sent[..k];
    OpenMeans(sent[..k], c);
  }

  // ---- Poisoned channels

  /** The guard's run never changes what it has already sent. */
  lemma {:induction false} SentGrows(events: seq<Event>, n: nat)
    requires n <= |events|
    ensures RunGuard(events[..n]).1 <= RunGuard(events).1
  {
    if n == |events| {
      assert events[..n] == events;
    } else {
      SentGrows(events[..|events| - 1], n);
      assert events[..|events| - 1][..n] == events[..n];
      hide GuardStep;
    }
  }

  lemma {:induction false} PossiblePrefix(events: seq<Event>, n: nat)
    requires PossibleRun(events) && n <= |events|
    ensures PossibleRun(events[..n])
  {
    if n == |events| {
      assert events[..n] == events;
    } else {
      PossiblePrefix(events[..|events| - 1], n);
      assert events[..|events| - 1][..n] == events[..n];
    }
  }

  /**
   * Once a channel is poisoned, nothing crosses on it until the guard approves it
   * again: a payload it sends later has an approval issued after the poisoning.
   */
  lemma {:induction false} PoisonedUntilApproved(events: seq<Event>, n: nat, k: nat, c: Channel)
    requires PossibleRun(events) && n <= |events| && c in RunGuard(events[..n]).0.poisoned
    requires |RunGuard(events[..n]).1| <= k < |RunGuard(events).1| && IsPayload(RunGuard(events).1[k], c)
    ensures exists j :: |RunGuard(events[..n]).1| <= j < k && IsVerdict(RunGuard(events).1[j], c, APPROVAL_APPROVE)
  {
    var early, sent := RunGuard(events[..n]).1, RunGuard(events).1;
    hide OpenedAt, IsPayload;
    PayloadNeedsApproval(events, k, c);
    var j :| OpenedAt(sent[..k], c, j);
    SentGrows(events, n);
    PossiblePrefix(events, n);
    RunGated(events[..n]);
    RunSound(events[..n]);
    OpenedApproved(sent[..k], c, j);
    hide RunGuard, IsVerdict, PossibleRun, Open;
    if j < |early| {
      OpenedEarlier(early, sent, c, j, k);
    }
  }

  lemma OpenedApproved(sent: seq<Sent>, c: Channel, j: int)
    requires OpenedAt(sent, c, j)
    ensures 0 <= j < |sent| && IsVerdict(sent[j], c, APPROVAL_APPROVE)
  {
  }

  lemma OpenedEarlier(early: seq<Sent>, sent: seq<Sent>, c: Channel, j: int, k: nat)
    requires early <= sent && j < |early| <= k <= |sent| && OpenedAt(sent[..k], c, j)
    ensures Open(early, c)
  {
    assert forall i :: 0 <= i < |early| ==> early[i] == sent[i] == sent[..k][i];
    assert OpenedAt(early, c, j);
    OpenMeans(early, c);
  }

  /** Every verdict of the guard's answers a well-formed request that it has just passed on. */
  ghost predicate Answers(sent: seq<Sent>, j: nat)
    requires j < |sent|
  {
    sent[j].Issued? && sent[j].message.action.Approval? ==>
      && j > 0 && sent[j - 1].Relayed? && sent[j - 1].message.action.CreateChannel?
      && sent[j - 1].message.channel == sent[j].message.channel
      && ValidRequestId(sent[j - 1].message.payload)
      && (sent[j].message.payload == [APPROVAL_APPROVE] + sent[j - 1].message.payload
          || sent[j].message.payload == [APPROVAL_DENY] + sent[j - 1].message.payload)
  }

  ghost predicate AllAnswer(sent: seq<Sent>) { forall j :: 0 <= j < |sent| ==> Answers(sent, j) }

  lemma StepAnswers(g: GuardState, e: Event)
    ensures AllAnswer(GuardStep(g, e).1)
  {
    hide TryCast, Call, ValidRequestId;
  }

  lemma AnswersMore(sent: seq<Sent>, more: seq<Sent>)
    requires AllAnswer(sent) && AllAnswer(more)
    ensures AllAnswer(sent + more)
  {
    hide ValidRequestId;
    forall j | 0 <= j < |sent + more| ensures Answers(sent + more, j) {
      if j < |sent| {
        assert Answers(sent, j);
      } else {
        assert Answers(more, j - |sent|);
      }
    }
  }

  lemma {:induction false} VerdictsAnswerRequests(events: seq<Event>)
    ensures AllAnswer(RunGuard(events).1)
  {
    if events != [] {
      VerdictsAnswerRequests(events[..|events| - 1]);
      var (g, sent) := RunGuard(events[..|events| - 1]);
      StepAnswers(g, events[|events| - 1]);
      hide GuardStep, AllAnswer;
      AnswersMore(sent, GuardStep(g, events[|events| - 1]).1);
    }
  }

  // ---- Every frame casts

  lemma StepBytes<P>(h: Hooks<P>, r: Run<P>, c: char)
    requires Octets(r.kept) && Octets(r.pending) && c as int < 256
    ensures Octets(Step(h, r, c).kept) && Octets(Step(h, r, c).pending)
    ensures |Output(Step(h, r, c))| <= |Output(r)| + 1
  {
  }

  lemma {:induction false} OutputBytes<P>(h: Hooks<P>, l: Live<P>, s: string)
    requires Octets(s)
    ensures var r := Call(h, l, s); Octets(r.kept) && Octets(r.pending) && |Output(r)| <= |s|
  {
    if s != "" {
      OutputBytes(h, l, s[..|s| - 1]);
      StepBytes(h, Call(h, l, s[..|s| - 1]), s[|s| - 1]);
    }
  }

  ghost predicate AllSendable(sent: seq<Sent>) { forall k :: 0 <= k < |sent| ==> Sendable(sent[k].message) }

  lemma HandleSendable(g: GuardState, m: BridgeMessage)
    requires Sendable(m)
    ensures AllSendable(Handle(g, m).1)
  {
    var r := Call(GUARD, LiveOf(g, m.channel), m.payload);
    OutputBytes(GUARD, LiveOf(g, m.channel), m.payload);
    assert Octets(Output(r));
    hide Call;
  }

  lemma StepSendable(g: GuardState, e: Event)
    ensures AllSendable(GuardStep(g, e).1)
  {
    hide Handle, TryCast;
    if e.Datagram? && TryCast(e.buffer).Some? {
      SerializedCast(e.buffer, TryCast(e.buffer).value);
      HandleSendable(g, TryCast(e.buffer).value);
    }
  }

  lemma {:induction false} RunSendable(events: seq<Event>)
    ensures AllSendable(RunGuard(events).1)
  {
    if events != [] {
      RunSendable(events[..|events| - 1]);
      StepSendable(RunGuard(events[..|events| - 1]).0, events[|events| - 1]);
      hide GuardStep, Sendable;
    }
  }

  /** Whatever arrives, every datagram the guard sends is one its receivers accept, as the message it was. */
  lemma {:induction false} SentFramesCast(events: seq<Event>, k: nat)
    requires k < |RunGuard(events).1|
    ensures var m := RunGuard(events).1[k].message;
      Octets(Wire(RunGuard(events).1)[k]) && TryCast(Wire(RunGuard(events).1)[k]) == Some(m)
  {
    RunSendable(events);
    var m := RunGuard(events).1[k].message;
    hide RunGuard;
    CastSerialized(m);
  }

  // ---- What a channel's forwarded bytes are worth

  /** Everything passed on as payload on `c` since the guard last approved it. */
  function Since(sent: seq<Sent>, c: Channel): string {
    if sent == [] then "" else
    var init, last := sent[..|sent| - 1], sent[|sent| - 1];
    if IsVerdict(last, c, APPROVAL_APPROVE) then ""
    else if IsPayload(last, c) then Since(init, c) + last.message.payload
    else Since(init, c)
  }

  /** Some sequence of datagrams led a fresh parser to `l` and had `out` forwarded. */
  ghost predicate Fed(l: Live<GuardPolicy>, out: string) {
    exists chunks: seq<string> :: FedBy(chunks, l, out)
  }

  ghost predicate FedBy(chunks: seq<string>, l: Live<GuardPolicy>, out: string) {
    var r := RunChunks(GUARD, Fresh(NO_STREAM), chunks);
    r.survived && r.live == l && r.out == out
  }

  /** The parser of every approved channel has been fed what the channel has carried. */
  ghost predicate AllFed(g: GuardState, sent: seq<Sent>) {
    forall c: Channel :: c in g.parsers ==> Fed(g.parsers[c], Since(sent, c))
  }

  lemma FedFresh()
    ensures Fed(Fresh(NO_STREAM), "")
  {
    assert FedBy([], Fresh(NO_STREAM), "");
  }

  lemma FedMore(l: Live<GuardPolicy>, out: string, s: string)
    requires Fed(l, out) && Clean(Call(GUARD, l, s))
    ensures Fed(Call(GUARD, l, s).live, out + Output(Call(GUARD, l, s)))
  {
    var chunks :| FedBy(chunks, l, out);
    assert (chunks + [s])[..|chunks|] == chunks;
    hide Call;
    assert FedBy(chunks + [s], Call(GUARD, l, s).live, out + Output(Call(GUARD, l, s)));
  }

  lemma SinceMore(sent: seq<Sent>, a: Sent, c: Channel)
    ensures Since(sent + [a], c) ==
      if IsVerdict(a, c, APPROVAL_APPROVE) then ""
      else if IsPayload(a, c) then Since(sent, c) + a.message.payload
      else Since(sent, c)
  {
    assert (sent + [a])[..|sent|] == sent;
  }

  /** A frame that is neither payload nor an approval. */
  lemma SinceOther(sent: seq<Sent>, a: Sent)
    requires forall c: Channel :: !IsPayload(a, c) && !IsVerdict(a, c, APPROVAL_APPROVE)
    ensures forall c: Channel :: Since(sent + [a], c) == Since(sent, c)
  {
    forall c: Channel ensures Since(sent + [a], c) == Since(sent, c) {
      SinceMore(sent, a, c);
    }
  }

  lemma FewerFed(g: GuardState, sent: seq<Sent>, g': GuardState, a: Sent)
    requires AllFed(g, sent)
    requires forall c: Channel :: !IsPayload(a, c) && !IsVerdict(a, c, APPROVAL_APPROVE)
    requires forall c :: c in g'.parsers ==> c in g.parsers && g'.parsers[c] == g.parsers[c]
    ensures AllFed(g', sent + [a])
  {
    SinceOther(sent, a);
    hide Fed, IsPayload, IsVerdict, Since;
  }

  lemma CreateFed(g: GuardState, sent: seq<Sent>, m: BridgeMessage)
    requires AllFed(g, sent) && m.action.CreateChannel?
    ensures var (g', more) := Create(g, m); AllFed(g', sent + more)
  {
    if !ValidRequestId(m.payload) {
      assert sent + [] == sent;
    } else {
      hide Fed;
      FedFresh();
      var v, d := Issued(Verdict(m.channel, g.approving, m.payload)), Issued(Shutdown(m.channel));
      SinceOther(sent, Relayed(m));
      forall c: Channel
        ensures Since(sent + [Relayed(m)] + [v], c) == if c == m.channel && g.approving then "" else Since(sent, c)
      {
        SinceMore(sent + [Relayed(m)], v, c);
      }
      SinceOther(sent + [Relayed(m)] + [v], d);
      hide Since;
      assert sent + [Relayed(m), v] == sent + [Relayed(m)] + [v];
      assert sent + ([Relayed(m), v] + [d]) == sent + [Relayed(m)] + [v] + [d];
    }
  }

  /** A payload that survived its parser. */
  lemma KeptFed(g: GuardState, sent: seq<Sent>, g': GuardState, m: BridgeMessage, l: Live<GuardPolicy>, out: string)
    requires AllFed(g, sent) && IsPayload(Relayed(m), m.channel)
    requires g'.parsers == g.parsers[m.channel := l] && m.payload == out
    requires Fed(l, Since(sent, m.channel) + out)
    ensures AllFed(g', sent + [Relayed(m)])
  {
    hide Fed, Since;
    forall c: Channel | c in g'.parsers ensures Fed(g'.parsers[c], Since(sent + [Relayed(m)], c)) {
      SinceMore(sent, Relayed(m), c);
    }
  }

  lemma SwallowedFed(g: GuardState, sent: seq<Sent>, g': GuardState, c: Channel, l: Live<GuardPolicy>)
    requires AllFed(g, sent) && g'.parsers == g.parsers[c := l] && Fed(l, Since(sent, c) + "")
    ensures AllFed(g', sent + [])
  {
    hide Fed;
    assert sent + [] == sent && Since(sent, c) + "" == Since(sent, c);
  }

  lemma CarryFed(g: GuardState, sent: seq<Sent>, m: BridgeMessage)
    requires Sound(g) && AllFed(g, sent) && m.channel in g.approved
    requires !m.action.CreateChannel? && !m.action.ShutdownChannel?
    ensures var (g', more) := Carry(g, m); AllFed(g', sent + more)
  {
    var c, l := m.channel, g.parsers[m.channel];
    var r := Call(GUARD, l, m.payload);
    var (g', more) := Carry(g, m);
    assert Healthy(l) && LiveOf(g, c) == l;
    hide Call, AllFed, Since;
    if !Clean(r) {
      FewerFed(g, sent, g', Issued(Shutdown(c)));
    } else {
      CallHealthy(l, m.payload);
      assert Fed(l, Since(sent, c)) by { FedAt(g, sent, c); }
      FedMore(l, Since(sent, c), m.payload);
      if r.ranges == [] {
        WholeOutput(l, m.payload);
        KeptFed(g, sent, g', m, r.live, m.payload);
      } else if Output(r) == "" {
        SwallowedFed(g, sent, g', c, r.live);
      } else {
        KeptFed(g, sent, g', m.(payload := Output(r)), r.live, Output(r));
      }
    }
  }

  lemma FedAt(g: GuardState, sent: seq<Sent>, c: Channel)
    requires AllFed(g, sent) && c in g.parsers
    ensures Fed(g.parsers[c], Since(sent, c))
  {
  }

  /** A call that denies nothing forwards its payload verbatim. */
  lemma WholeOutput(l: Live<GuardPolicy>, s: string)
    requires Healthy(l) && Clean(Call(GUARD, l, s)) && Call(GUARD, l, s).ranges == []
    ensures Output(Call(GUARD, l, s)) == s
  {
    NothingDenied(GUARD, NewCall(l), s);
    assert "" + "" + s == s;
  }

  lemma HandleFed(g: GuardState, sent: seq<Sent>, m: BridgeMessage)
    requires Sound(g) && AllFed(g, sent)
    ensures var (g', more) := Handle(g, m); AllFed(g', sent + more)
  {
    match m.action {
      case CreateChannel => hide AllFed, Create; CreateFed(g, sent, m);
      case ShutdownChannel => hide AllFed; FewerFed(g, sent, TearDown(g, m).0, Relayed(m));
      case _ =>
        if m.channel in g.approved {
          hide AllFed, Carry;
          CarryFed(g, sent, m);
        } else {
          assert sent + [] == sent;
        }
    }
  }

  lemma StepFed(g: GuardState, sent: seq<Sent>, e: Event)
    requires Sound(g) && AllFed(g, sent)
    ensures var (g', more) := GuardStep(g, e); AllFed(g', sent + more)
  {
    hide TryCast, Handle, Fed, Since;
    assert sent + [] == sent;
    if e.Datagram? && TryCast(e.buffer).Some? {
      HandleFed(g, sent, TryCast(e.buffer).value);
    }
  }

  lemma {:induction false} RunFed(events: seq<Event>)
    ensures var (g, sent) := RunGuard(events); AllFed(g, sent)
  {
    if events != [] {
      RunFed(events[..|events| - 1]);
      RunSound(events[..|events| - 1]);
      var (g, sent) := RunGuard(events[..|events| - 1]);
      hide GuardStep, Sound, AllFed;
      StepFed(g, sent, events[|events| - 1]);
    }
  }

  /** On every channel, whether still approved or not, a parser was fed what was passed on since the approval. */
  ghost predicate EverFed(sent: seq<Sent>) { forall c: Channel :: FedOnce(Since(sent, c)) }

  ghost predicate FedOnce(out: string) { exists l :: Fed(l, out) }

  /** Where no parser is left, the step has passed nothing on and approved nothing. */
  lemma StepLeaves(g: GuardState, e: Event, c: Channel)
    requires Sound(g) && c !in GuardStep(g, e).0.parsers
    ensures var more := GuardStep(g, e).1;
      forall k :: 0 <= k < |more| ==> !IsPayload(more[k], c) && !IsVerdict(more[k], c, APPROVAL_APPROVE)
  {
    hide TryCast, Call, ValidRequestId, Healthy, Clean, Output;
  }

  lemma {:induction false} SinceLeft(sent: seq<Sent>, more: seq<Sent>, c: Channel)
    requires forall k :: 0 <= k < |more| ==> !IsPayload(more[k], c) && !IsVerdict(more[k], c, APPROVAL_APPROVE)
    ensures Since(sent + more, c) == Since(sent, c)
  {
    if more == [] {
      assert sent + more == sent;
    } else {
      var init, last := more[..|more| - 1], more[|more| - 1];
      assert sent + more == sent + init + [last];
      hide IsPayload, IsVerdict, Since;
      SinceLeft(sent, init, c);
      SinceMore(sent + init, last, c);
    }
  }

  lemma StepEverFed(g: GuardState, sent: seq<Sent>, e: Event)
    requires Sound(g) && EverFed(sent)
    requires AllFed(GuardStep(g, e).0, sent + GuardStep(g, e).1)
    ensures EverFed(sent + GuardStep(g, e).1)
  {
    var (g', more) := GuardStep(g, e);
    hide GuardStep, Since, Fed, Sound, IsPayload, IsVerdict;
    forall c: Channel ensures FedOnce(Since(sent + more, c)) {
      if c in g'.parsers {
        assert Fed(g'.parsers[c], Since(sent + more, c));
      } else {
        StepLeaves(g, e, c);
        SinceLeft(sent, more, c);
        assert FedOnce(Since(sent, c));
      }
    }
  }

  lemma {:induction false} RunEverFed(events: seq<Event>)
    ensures EverFed(RunGuard(events).1)
  {
    if events == [] {
      FedFresh();
      hide Fed;
    } else {
      var init := events[..|events| - 1];
      RunEverFed(init);
      RunSound(init);
      RunFed(events);
      hide GuardStep, Sound, AllFed, EverFed;
      StepEverFed(RunGuard(init).0, RunGuard(init).1, events[|events| - 1]);
    }
  }

  /**
   * For every channel, after any run: what the guard has passed on since it last
   * approved the channel, parsed again in one go by a fresh guard, is neither
   * corrupted nor denied and obeys the clipboard rules, also when the channel has
   * been closed or poisoned since. While it is approved the fresh guard ends in the
   * framing state and with the clipboard stream of the channel's own parser.
   */
  lemma {:induction false} ForwardedIsClean(events: seq<Event>, c: Channel)
    ensures var (g, sent) := RunGuard(events);
      var out := Since(sent, c);
      var q := GuardCall(out);
      && Clean(q) && q.ranges == []
      && Obeys(-1, AllInstructions(out))
      && (c in g.approved ==>
            && c in g.parsers && SameLive(q.live, g.parsers[c])
            && (AtBoundary(g.parsers[c]) ==> g.parsers[c].policy.sidx == OpenStream(-1, AllInstructions(out))))
  {
    RunSound(events);
    RunFed(events);
    RunEverFed(events);
    var (g, sent) := RunGuard(events);
    assert FedOnce(Since(sent, c));
    var l :| Fed(l, Since(sent, c));
    hide RunGuard, Since, Fed, Obeys, SameLive, EverFed;
    FedReparses(l, Since(sent, c));
    if c in g.approved {
      FedAt(g, sent, c);
      FedReparses(g.parsers[c], Since(sent, c));
    }
  }

  lemma FedReparses(l: Live<GuardPolicy>, out: string)
    requires Fed(l, out)
    ensures var q := GuardCall(out);
      && Clean(q) && q.ranges == [] && SameLive(q.live, l)
      && Obeys(-1, AllInstructions(out))
      && (AtBoundary(l) ==> l.policy.sidx == OpenStream(-1, AllInstructions(out)))
  {
    var chunks :| FedBy(chunks, l, out);
    hide Call, Obeys, SameLive;
    ChunkedIffUncut(GUARD, Fresh(NO_STREAM), chunks);
    ForwardedReparses(Concat(chunks));
    ForwardedObeys(Concat(chunks));
  }

  // ---- The operator's switch over a run

  /** What the operator has chosen last; the switch starts in approve. */
  function LastToggle(events: seq<Event>): bool {
    if events == [] then true else
    var last := events[|events| - 1];
    if last.Toggle? then last.approve else LastToggle(events[..|events| - 1])
  }

  /** A deny was chosen that no loop top has seen yet. */
  predicate DenyPending(events: seq<Event>) {
    events != [] &&
    match events[|events| - 1]
    case Toggle(approve) => !approve || DenyPending(events[..|events| - 1])
    case LoopTop(_) => false
    case Datagram(_) => DenyPending(events[..|events| - 1])
  }

  lemma StepSwitches(g: GuardState, e: Event)
    ensures var (g', more) := GuardStep(g, e);
      && g'.approving == (if e.Toggle? then e.approve else g.approving)
      && g'.denyTeardown == (if e.Toggle? then !e.approve || g.denyTeardown else if e.LoopTop? then false else g.denyTeardown)
  {
    hide TryCast, ValidRequestId, Call, Clean, Output;
  }

  lemma {:induction false} SwitchFollows(events: seq<Event>)
    ensures var g := RunGuard(events).0; g.approving == LastToggle(events) && g.denyTeardown == DenyPending(events)
  {
    if events != [] {
      SwitchFollows(events[..|events| - 1]);
      hide GuardStep;
      StepSwitches(RunGuard(events[..|events| - 1]).0, events[|events| - 1]);
    }
  }

  lemma StepApproves(g: GuardState, e: Event)
    requires !e.LoopTop?
    ensures GuardStep(g, e).0.approved <= g.approved || g.approving
  {
    hide TryCast, ValidRequestId, Call, Clean, Output;
  }

  /** Once a loop top has seen the operator's deny, no channel is approved until the next approve. */
  lemma {:induction false} NoneApprovedUnderDeny(events: seq<Event>)
    requires !LastToggle(events) && !DenyPending(events)
    ensures RunGuard(events).0.approved == {}
  {
    var init, e := events[..|events| - 1], events[|events| - 1];
    SwitchFollows(init);
    match e {
      case Toggle(approve) =>
      case LoopTop(order) =>
        if !DenyPending(init) {
          NoneApprovedUnderDeny(init);
        }
      case Datagram(buffer) =>
        NoneApprovedUnderDeny(init);
        hide GuardStep;
        StepApproves(RunGuard(init).0, e);
    }
  }

  /** How many SHUTDOWNs of the guard's own go out for a channel. */
  function Dismissals(sent: seq<Sent>, c: Channel): nat {
    if sent == [] then 0 else
    Dismissals(sent[..|sent| - 1], c) + if sent[|sent| - 1] == Issued(BridgeMessage(c, ShutdownChannel, "")) then 1 else 0
  }

  lemma {:induction false} VisitDismisses(order: seq<Channel>, c: Channel)
    requires forall j, k :: 0 <= j < k < |order| ==> order[j] != order[k]
    ensures Dismissals(Visit(order), c) == if c in order then 1 else 0
  {
    if order != [] {
      var init, last := order[..|order| - 1], order[|order| - 1];
      VisitDismisses(init, c);
      var v := Visit(init) + [Issued(Shutdown(last))];
      assert Visit(order) == v && v[..|v| - 1] == Visit(init);
      assert order == init + [last];
    }
  }

  /**
   * A deny takes effect at the next loop top: no channel is approved any more, and
   * what goes out is one SHUTDOWN for each channel that was, and nothing else.
   */
  lemma {:induction false} DenyTearsDown(events: seq<Event>, order: seq<Channel>)
    requires PossibleRun(events + [Toggle(false)] + [LoopTop(order)])
    ensures var (g, sent), (g', sent') := RunGuard(events), RunGuard(events + [Toggle(false)] + [LoopTop(order)]);
      && g'.approved == {} && g'.parsers == g.parsers - g.approved && sent <= sent'
      && var more := sent'[|sent|..];
         && |more| == |g.approved|
         && forall c: Channel :: Dismissals(more, c) == if c in g.approved then 1 else 0
  {
    var (g, sent) := RunGuard(events);
    RunMore(events, Toggle(false));
    RunMore(events + [Toggle(false)], LoopTop(order));
    DenySteps(g, order);
    TwoParts(sent, GuardStep(GuardStep(g, Toggle(false)).0, LoopTop(order)).1);
    hide *;
  }

  lemma TwoParts(sent: seq<Sent>, more: seq<Sent>)
    ensures sent + [] + more == sent + more && sent <= sent + more && (sent + more)[|sent|..] == more
  {
  }

  lemma DenySteps(g: GuardState, order: seq<Channel>)
    ensures GuardStep(g, Toggle(false)).1 == []
    ensures var g1 := GuardStep(g, Toggle(false)).0;
      Possible(g1, LoopTop(order)) ==>
        var (g', more) := GuardStep(g1, LoopTop(order));
        && g'.approved == {} && g'.parsers == g.parsers - g.approved && |more| == |g.approved|
        && forall c: Channel :: Dismissals(more, c) == if c in g.approved then 1 else 0
  {
    var g1 := GuardStep(g, Toggle(false)).0;
    if Possible(g1, LoopTop(order)) {
      EnumeratedOnce(order, g.approved);
      assert GuardStep(g1, LoopTop(order)).1 == Visit(order);
      hide Visit, Dismissals, Enumerates;
      forall c: Channel ensures Dismissals(Visit(order), c) == if c in g.approved then 1 else 0 {
        VisitDismisses(order, c);
      }
    }
  }

  lemma {:induction false} EnumeratedOnce(order: seq<Channel>, members: set<Channel>)
    requires Enumerates(order, members)
    ensures |order| == |members| && forall j, k :: 0 <= j < k < |order| ==> order[j] != order[k]
    ensures forall c :: c in order <==> c in members
    decreases |order|
  {
    if order == [] {
      assert members == {};
    } else {
      var init, last := order[..|order| - 1], order[|order| - 1];
      assert Enumerates(init, members - {last}) by {
        assert forall k :: 0 <= k < |init| ==> init[k] == order[k];
      }
      EnumeratedOnce(init, members - {last});
    }
  }

  /**
   * At any point of any run a well-formed request is answered at once, and as the
   * operator has chosen last: approved, or denied and dismissed. Any other request
   * changes nothing.
   */
  lemma {:induction false} RequestAnswered(events: seq<Event>, c: Channel, id: string)
    requires Sendable(BridgeMessage(c, CreateChannel, id)) && Octets(Serialize(BridgeMessage(c, CreateChannel, id)))
    ensures var m := BridgeMessage(c, CreateChannel, id);
      var g, (g', more) := RunGuard(events).0, GuardStep(RunGuard(events).0, Datagram(Serialize(m)));
      if |id| == 12 && (forall i :: 0 <= i < |id| ==> '0' <= id[i] <= '9' || 'a' <= id[i] <= 'f') then
        && (c in g'.approved <==> LastToggle(events))
        && more == if LastToggle(events)
                   then [Relayed(m), Issued(BridgeMessage(c, Approval, "A" + id))]
                   else [Relayed(m), Issued(BridgeMessage(c, Approval, "D" + id)), Issued(BridgeMessage(c, ShutdownChannel, ""))]
      else g' == g && more == []
  {
    var m := BridgeMessage(c, CreateChannel, id);
    SwitchFollows(events);
    CastSerialized(m);
    hide RunGuard, TryCast, Serialize, LastToggle, Carry, TearDown;
    assert ValidRequestId(id) <==> |id| == 12 && (forall i :: 0 <= i < |id| ==> '0' <= id[i] <= '9' || 'a' <= id[i] <= 'f');
    assert GuardStep(RunGuard(events).0, Datagram(Serialize(m))) == Create(RunGuard(events).0, m);
  }

  /** A SHUTDOWN closes its channel and crosses as it is, whatever the channel's state. */
  lemma {:induction false} TeardownPasses(events: seq<Event>, m: BridgeMessage)
    requires m.action.ShutdownChannel? && Sendable(m) && Octets(Serialize(m))
    ensures var (g, (g', more)) := (RunGuard(events).0, GuardStep(RunGuard(events).0, Datagram(Serialize(m))));
      more == [Relayed(m)] && g'.approved == g.approved - {m.channel} && m.channel !in g'.parsers
  {
    CastSerialized(m);
    hide RunGuard, TryCast, Serialize;
  }

  // ---- What the guard passes on, exactly

  /** What a message means for what has arrived to be judged on `c` since its latest well-formed request. */
  function ArrivedNext(arrived: seq<string>, m: BridgeMessage, c: Channel): seq<string> {
    if m.channel != c || m.action.ShutdownChannel? then arrived
    else if m.action.CreateChannel? then (if ValidRequestId(m.payload) then [] else arrived)
    else arrived + [m.payload]
  }

  function Arrived(events: seq<Event>, c: Channel): seq<string> {
    if events == [] then [] else
    var arrived, e := Arrived(events[..|events| - 1], c), events[|events| - 1];
    if e.Datagram? && TryCast(e.buffer).Some? then ArrivedNext(arrived, TryCast(e.buffer).value, c) else arrived
  }

  /** An approved channel's parser has been fed all of it, and has let through what was passed on. */
  ghost predicate Judged(g: GuardState, sent: seq<Sent>, arrived: seq<string>, c: Channel) {
    c in g.approved ==> c in g.parsers && FedBy(arrived, g.parsers[c], Since(sent, c))
  }

  lemma FedByMore(chunks: seq<string>, l: Live<GuardPolicy>, out: string, s: string)
    requires FedBy(chunks, l, out) && Clean(Call(GUARD, l, s))
    ensures FedBy(chunks + [s], Call(GUARD, l, s).live, out + Output(Call(GUARD, l, s)))
  {
    assert (chunks + [s])[..|chunks|] == chunks;
    hide Call;
  }

  lemma FedByNone()
    ensures FedBy([], Fresh(NO_STREAM), "")
  {
  }

  /**
   * A payload on an approved channel. Where its parser survives it, the channel stays
   * approved and what the parser lets through is passed on, if anything; otherwise the
   * channel is poisoned and dismissed, and nothing is passed on.
   */
  lemma CarryOutcome(g: GuardState, m: BridgeMessage)
    requires Sound(g) && m.channel in g.approved
    requires !m.action.CreateChannel? && !m.action.ShutdownChannel?
    ensures var c, l, r := m.channel, g.parsers[m.channel], Call(GUARD, g.parsers[m.channel], m.payload);
      var (g', more) := Carry(g, m);
      && (c in g'.approved <==> Clean(r))
      && (Clean(r) ==>
            && c in g'.parsers && g'.parsers[c] == r.live
            && more == if Output(r) == "" && (r.ranges != [] || m.payload != "") then [] else [Relayed(m.(payload := Output(r)))])
      && (!Clean(r) ==> c in g'.poisoned && c !in g'.parsers && more == [Issued(BridgeMessage(c, ShutdownChannel, ""))])
  {
    var l := g.parsers[m.channel];
    assert Healthy(l) && LiveOf(g, m.channel) == l;
    hide Call;
    if Clean(Call(GUARD, l, m.payload)) {
      CallHealthy(l, m.payload);
      if Call(GUARD, l, m.payload).ranges == [] {
        WholeOutput(l, m.payload);
      }
    }
  }

  lemma SincePassed(sent: seq<Sent>, m: BridgeMessage, out: string)
    requires !m.action.CreateChannel? && !m.action.ShutdownChannel?
    ensures Since(sent + [Relayed(m.(payload := out))], m.channel) == Since(sent, m.channel) + out
    ensures out == "" ==> Since(sent + [], m.channel) == Since(sent, m.channel) + out
  {
    SinceMore(sent, Relayed(m.(payload := out)), m.channel);
    assert sent + [] == sent && Since(sent, m.channel) + "" == Since(sent, m.channel);
    hide Since;
  }

  lemma CarryJudged(g: GuardState, sent: seq<Sent>, m: BridgeMessage, arrived: seq<string>)
    requires Sound(g) && Judged(g, sent, arrived, m.channel)
    requires !m.action.CreateChannel? && !m.action.ShutdownChannel?
    ensures var (g', more) := Carry(g, m); Judged(g', sent + more, arrived + [m.payload], m.channel)
  {
    var c := m.channel;
    if c in g.approved {
      var r := Call(GUARD, g.parsers[c], m.payload);
      CarryOutcome(g, m);
      hide Call, Since, FedBy, Carry, Output, Clean, Sound;
      SincePassed(sent, m, Output(r));
      if Clean(r) {
        FedByMore(arrived, g.parsers[c], Since(sent, c), m.payload);
      }
    }
  }

  lemma CreateJudged(g: GuardState, sent: seq<Sent>, m: BridgeMessage, arrived: seq<string>)
    requires Judged(g, sent, arrived, m.channel) && m.action.CreateChannel?
    ensures var (g', more) := Create(g, m);
      Judged(g', sent + more, if ValidRequestId(m.payload) then [] else arrived, m.channel)
  {
    if !ValidRequestId(m.payload) {
      assert sent + [] == sent;
    } else if g.approving {
      FedByNone();
      var v := Issued(Verdict(m.channel, true, m.payload));
      hide FedBy, Since;
      SinceMore(sent + [Relayed(m)], v, m.channel);
      assert sent + [Relayed(m), v] == sent + [Relayed(m)] + [v];
    }
  }

  lemma OtherJudged(g: GuardState, sent: seq<Sent>, m: BridgeMessage, arrived: seq<string>, c: Channel)
    requires Judged(g, sent, arrived, c) && m.channel != c
    ensures var (g', more) := Handle(g, m); Judged(g', sent + more, arrived, c)
  {
    var (g', more) := Handle(g, m);
    OtherChannel(g, m, c);
    hide Handle, FedBy, IsPayload, IsVerdict;
    SinceLeft(sent, more, c);
  }

  lemma OtherChannel(g: GuardState, m: BridgeMessage, c: Channel)
    requires m.channel != c
    ensures var (g', more) := Handle(g, m);
      && (c in g'.approved <==> c in g.approved) && (c in g.parsers <==> c in g'.parsers)
      && (c in g.parsers ==> g'.parsers[c] == g.parsers[c])
      && forall k :: 0 <= k < |more| ==> !IsPayload(more[k], c) && !IsVerdict(more[k], c, APPROVAL_APPROVE)
  {
    hide ValidRequestId, Call, Clean, Output;
  }

  lemma HandleJudged(g: GuardState, sent: seq<Sent>, m: BridgeMessage, arrived: seq<string>, c: Channel)
    requires Sound(g) && Judged(g, sent, arrived, c)
    ensures var (g', more) := Handle(g, m); Judged(g', sent + more, ArrivedNext(arrived, m, c), c)
  {
    if m.channel != c {
      hide Judged, Handle;
      OtherJudged(g, sent, m, arrived, c);
    } else {
      match m.action {
        case CreateChannel => hide Judged, Create; CreateJudged(g, sent, m, arrived);
        case ShutdownChannel => hide FedBy, Since;
        case _ => hide Judged, Carry; CarryJudged(g, sent, m, arrived);
      }
    }
  }

  lemma StepJudged(g: GuardState, sent: seq<Sent>, e: Event, arrived: seq<string>, c: Channel)
    requires Sound(g) && Judged(g, sent, arrived, c)
    ensures var (g', more) := GuardStep(g, e);
      Judged(g', sent + more,
             if e.Datagram? && TryCast(e.buffer).Some? then ArrivedNext(arrived, TryCast(e.buffer).value, c) else arrived, c)
  {
    hide TryCast, Handle, FedBy, Since, ArrivedNext;
    assert sent + [] == sent;
    if e.Datagram? && TryCast(e.buffer).Some? {
      HandleJudged(g, sent, TryCast(e.buffer).value, arrived, c);
    }
  }

  lemma {:induction false} RunJudged(events: seq<Event>, c: Channel)
    ensures var (g, sent) := RunGuard(events); Judged(g, sent, Arrived(events, c), c)
  {
    if events != [] {
      var init := events[..|events| - 1];
      RunJudged(init, c);
      RunSound(init);
      var (g, sent) := RunGuard(init);
      hide GuardStep, Sound, Judged, TryCast, ValidRequestId;
      StepJudged(g, sent, events[|events| - 1], Arrived(init, c), c);
    }
  }

  /**
   * On every approved channel, after any run: the guard has passed on exactly what
   * has arrived since the request, in order and cut as it may be, without the
   * instructions that do not conform.
   */
  lemma {:induction false} ForwardsExactly(events: seq<Event>, c: Channel)
    requires c in RunGuard(events).0.approved
    ensures Since(RunGuard(events).1, c) == Policed(-1, Concat(Arrived(events, c)))
  {
    RunJudged(events, c);
    var chunks := Arrived(events, c);
    assert RunChunks(GUARD, Fresh(NO_STREAM), chunks).survived;
    hide RunGuard, Since, Arrived, Policed, RunChunks, Concat, CutsAvoid, Call;
    ChunkedIffUncut(GUARD, Fresh(NO_STREAM), chunks);
    GuardForwardsConforming(Concat(chunks));
  }
}
