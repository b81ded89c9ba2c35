/**
 * gmlbroker's return path: verdicts are matched against the outstanding request
 * before they count, an approval arms the return filter, traffic and teardowns
 * go to the channel's mailbox.
 */
module GuacamoleSendHandlerModule {
  import opened Framing
  import opened Instructions
  import opened Encoding
  import opened MultiplexerModule
  import opened ApprovalRegistryModule
  import opened ReturnFilterModule
  import M = ChannelMailboxModule
  import opened HandshakeForgerModule

  datatype ReturnPath = ReturnPath(
    standings: map<Channel, Standing>,
    filters: map<Channel, Live<ReturnState>>,
    mailboxes: map<Channel, M.Mailbox>)

  function RequestOf(m: BridgeMessage): string { if |m.payload| > 1 then m.payload[1..] else "" }

  function Posted(boxes: map<Channel, M.Mailbox>, c: Channel, bytes: string): map<Channel, M.Mailbox> {
    if c in boxes then boxes[c := M.Signalled(M.Pushed(boxes[c], bytes))] else boxes
  }

  function TornDown(boxes: map<Channel, M.Mailbox>, c: Channel, announce: bool): map<Channel, M.Mailbox> {
    if c in boxes then boxes[c := M.Signalled(M.Requested(boxes[c], announce))] else boxes
  }

  function Route(p: ReturnPath, m: BridgeMessage): ReturnPath {
    var c := m.channel;
    match m.action
    case CreateChannel => p
    case ShutdownChannel => p.(filters := p.filters - {c}, mailboxes := TornDown(p.mailboxes, c, false))
    case Approval =>
      if !Matching(p.standings, c, RequestOf(m)) then p
      else if VerdictOf(m) == APPROVAL_APPROVE then
        p.(standings := Approved(p.standings, c, RequestOf(m)), filters := p.filters[c := Fresh(SWALLOWING)])
      else p.(mailboxes := TornDown(Posted(p.mailboxes, c, DeniedScreen()), c, true))
    case Payload =>
      if c !in p.mailboxes then p
      else if c !in p.filters then
        (if m.payload == "" then p else p.(mailboxes := Posted(p.mailboxes, c, m.payload)))
      else
        var (l, out) := ReturnFeed(p.filters[c], m.payload);
        var p' := p.(filters := p.filters[c := l]);
        if out == "" then p' else p'.(mailboxes := Posted(p.mailboxes, c, out))
  }

  class GuacamoleSendHandler {
    const approvals: ApprovalRegistry
    var filters: map<Channel, Live<ReturnState>>
    var mailboxes: map<Channel, M.Mailbox>

    ghost function State(): ReturnPath
      reads this, approvals, approvals.Flags()
    {
      ReturnPath(approvals.Standings(), filters, mailboxes)
    }

    constructor (approvals: ApprovalRegistry)
      ensures this.approvals == approvals && filters == map[] && mailboxes == map[]
    {
      this.approvals, filters, mailboxes := approvals, map[], map[];
    }

    /** Match the verdict before acting on it; a match arms the return filter. */
    method HandleApproval(channel: Channel, id: string)
      requires approvals.Valid()
      modifies this`filters, if channel in approvals.entries then {approvals.entries[channel].approved} else {}
      ensures approvals.Valid() && approvals.Standings() == Approved(old(approvals.Standings()), channel, id)
      ensures filters ==
        if Matching(old(approvals.Standings()), channel, id) then old(filters)[channel := Fresh(SWALLOWING)] else old(filters)
    {
      var matched := approvals.Approve(channel, id);
      if matched {
        filters := filters[channel := Fresh(SWALLOWING)];
      }
    }

    method HandleDenial(m: BridgeMessage, id: string)
      requires approvals.Valid() && m.action.Approval? && VerdictOf(m) != APPROVAL_APPROVE && id == RequestOf(m)
      modifies this`mailboxes
      ensures State() == Route(old(State()), m)
    {
      hide DeniedScreen, Posted, TornDown;
      var matched := approvals.Matches(m.channel, id);
      if matched {
        mailboxes := Posted(mailboxes, m.channel, DeniedScreen());
        mailboxes := TornDown(mailboxes, m.channel, true);
      }
    }

    method HandleVerdict(m: BridgeMessage)
      requires approvals.Valid() && m.action.Approval?
      modifies this, if m.channel in approvals.entries then {approvals.entries[m.channel].approved} else {}
      ensures approvals.Valid() && State() == Route(old(State()), m)
    {
      var verdict := if m.payload == "" then APPROVAL_DENY else m.payload[0];
      var id := if |m.payload| > 1 then m.payload[1..] else "";
      if verdict == APPROVAL_APPROVE {
        RouteApproval(State(), m);
        hide Route, Approved, Matching;
        HandleApproval(m.channel, id);
      } else {
        hide Route, Approved, Matching, DeniedScreen, ReturnFeed;
        HandleDenial(m, id);
      }
    }

    method HandleShutdown(m: BridgeMessage)
      requires m.action.ShutdownChannel?
      modifies this`filters, this`mailboxes
      ensures State() == Route(old(State()), m)
    {
      hide TornDown, ReturnFeed, DeniedScreen, Posted, Matching, Approved, RequestOf;
      filters := filters - {m.channel};
      mailboxes := TornDown(mailboxes, m.channel, false);
    }

    method HandlePayload(m: BridgeMessage)
      requires m.action.Payload?
      modifies this`filters, this`mailboxes
      ensures State() == Route(old(State()), m)
    {
      hide ReturnFeed, Posted, TornDown, Matching, Approved, DeniedScreen, RequestOf;
      if m.channel !in mailboxes {
        return;
      }
      var out := m.payload;
      if m.channel in filters {
        var (l, filtered) := ReturnFeed(filters[m.channel], m.payload);
        filters := filters[m.channel := l];
        out := filtered;
      }
      if out != "" {
        mailboxes := Posted(mailboxes, m.channel, out);
      }
    }

    method Handle(m: BridgeMessage)
      requires approvals.Valid()
      modifies this, if m.channel in approvals.entries then {approvals.entries[m.channel].approved} else {}
      ensures approvals.Valid() && State() == Route(old(State()), m)
    {
      assert m.action.CreateChannel? ==> Route(State(), m) == State();
      hide Route;
      match m.action {
        case ShutdownChannel => HandleShutdown(m);
        case CreateChannel =>
        case Approval => HandleVerdict(m);
        case Payload => HandlePayload(m);
      }
    }
  }

  lemma RouteApproval(p: ReturnPath, m: BridgeMessage)
    requires m.action.Approval? && VerdictOf(m) == APPROVAL_APPROVE
    ensures var c, id := m.channel, RequestOf(m);
      Route(p, m) == ReturnPath(
        Approved(p.standings, c, id), if Matching(p.standings, c, id) then p.filters[c := Fresh(SWALLOWING)] else p.filters,
        p.mailboxes)
  {
    hide ReturnFeed, DeniedScreen;
  }

  // ---- What the return path guarantees

  /** A message's payload arrives on the channel, or the reader drains the channel's mailbox. */
  datatype ReturnEvent = Arrives(text: string) | Drains

  /** The return path, and what the reader has written to the browser. */
  datatype Handed = Handed(path: ReturnPath, given: string)

  function Drained(h: Handed, c: Channel): Handed
    requires c in h.path.mailboxes
  {
    var box := h.path.mailboxes[c];
    Handed(h.path.(mailboxes := h.path.mailboxes[c := M.Taken(M.Cleared(box))]), h.given + Concat(box.outbox))
  }

  function Deliver(p: ReturnPath, c: Channel, events: seq<ReturnEvent>): Handed {
    if events == [] then Handed(p, "") else
    var h := Deliver(p, c, events[..|events| - 1]);
    match events[|events| - 1]
    case Arrives(text) => h.(path := Route(h.path, BridgeMessage(c, Payload, text)))
    case Drains => if c in h.path.mailboxes then Drained(h, c) else h
  }

  function Texts(events: seq<ReturnEvent>): seq<string> {
    if events == [] then [] else
    Texts(events[..|events| - 1]) + if events[|events| - 1].Arrives? then [events[|events| - 1].text] else []
  }

  /** What the browser has been or is about to be handed. */
  function Seen(h: Handed, c: Channel): string
    requires c in h.path.mailboxes
  {
    h.given + Concat(h.path.mailboxes[c].outbox)
  }

  /** The filter of `c` is that of the chunks that arrived, and the browser's share is what has passed it, behind `before`. */
  ghost predicate Filters(h: Handed, c: Channel, before: string, chunks: seq<string>) {
    && c in h.path.mailboxes && c in h.path.filters
    && h.path.filters[c] == ReturnChunks(chunks).0 && Seen(h, c) == before + ReturnChunks(chunks).1
  }

  lemma RouteArrival(p: ReturnPath, c: Channel, text: string)
    requires c in p.mailboxes && c in p.filters
    ensures var q := Route(p, BridgeMessage(c, Payload, text));
      var (l, out) := ReturnFeed(p.filters[c], text);
      && c in q.mailboxes && c in q.filters && q.filters[c] == l
      && q.mailboxes[c].outbox == p.mailboxes[c].outbox + if out == "" then [] else [out]
  {
    hide ReturnFeed, DeniedScreen, Matching, Approved;
  }

  lemma HandedMore(given: string, box: seq<string>, out: string)
    ensures given + Concat(box + if out == "" then [] else [out]) == given + Concat(box) + out
  {
    ConcatMore(box, out);
    Assoc(given, Concat(box), out);
    assert box + [] == box;
    assert given + Concat(box) + "" == given + Concat(box);
    hide Concat;
  }

  lemma ArrivalFiltered(h: Handed, c: Channel, before: string, chunks: seq<string>, text: string)
    requires Filters(h, c, before, chunks)
    ensures Filters(h.(path := Route(h.path, BridgeMessage(c, Payload, text))), c, before, chunks + [text])
  {
    var (l, out) := ReturnFeed(h.path.filters[c], text);
    assert (chunks + [text])[..|chunks|] == chunks;
    hide ReturnFeed, Concat, Route;
    RouteArrival(h.path, c, text);
    HandedMore(h.given, h.path.mailboxes[c].outbox, out);
    Assoc(before, ReturnChunks(chunks).1, out);
  }

  lemma DrainedSeen(h: Handed, c: Channel)
    requires c in h.path.mailboxes
    ensures Seen(Drained(h, c), c) == Seen(h, c)
  {
    var seen := h.given + Concat(h.path.mailboxes[c].outbox);
    assert Concat([]) == "";
    assert seen + "" == seen;
    hide Concat;
  }

  lemma {:induction false} DeliveredFiltered(p: ReturnPath, c: Channel, events: seq<ReturnEvent>)
    requires c in p.mailboxes && c in p.filters && p.filters[c] == Fresh(SWALLOWING)
    ensures Filters(Deliver(p, c, events), c, Concat(p.mailboxes[c].outbox), Texts(events))
  {
    var before := Concat(p.mailboxes[c].outbox);
    if events == [] {
      assert ReturnChunks([]) == (Fresh(SWALLOWING), "");
      assert before + "" == before == "" + before;
      hide Concat;
    } else {
      var init := events[..|events| - 1];
      DeliveredFiltered(p, c, init);
      var h := Deliver(p, c, init);
      assert Deliver(p, c, events) ==
        if events[|events| - 1].Arrives?
        then h.(path := Route(h.path, BridgeMessage(c, Payload, events[|events| - 1].text)))
        else if c in h.path.mailboxes then Drained(h, c) else h;
      hide Route, Concat, ReturnChunks, Deliver;
      if events[|events| - 1].Arrives? {
        hide Filters;
        ArrivalFiltered(h, c, before, Texts(init), events[|events| - 1].text);
      } else {
        DrainedSeen(h, c);
        assert Texts(init) + [] == Texts(init);
      }
    }
  }

  lemma ConcatMore(chunks: seq<string>, more: string)
    ensures Concat(chunks + [more]) == Concat(chunks) + more
    ensures Concat(chunks) + "" == Concat(chunks)
  {
    assert (chunks + [more])[..|chunks|] == chunks;
  }

  /** `m` approves the outstanding request of its channel. */
  predicate Arms(p: ReturnPath, m: BridgeMessage) {
    && m.action.Approval? && VerdictOf(m) == APPROVAL_APPROVE && Matching(p.standings, m.channel, RequestOf(m))
    && m.channel in p.mailboxes
  }

  /** What the browser's mailbox holds already when the approval comes. */
  function Queued(p: ReturnPath, c: Channel): string { if c in p.mailboxes then Concat(p.mailboxes[c].outbox) else "" }

  lemma ApprovalArms(p: ReturnPath, m: BridgeMessage)
    requires Arms(p, m)
    ensures var q := Route(p, m);
      m.channel in q.filters && q.filters[m.channel] == Fresh(SWALLOWING) && q.mailboxes == p.mailboxes
  {
    RouteApproval(p, m);
    hide Route, Approved;
  }

  lemma {:induction false} ApprovedFiltered(p: ReturnPath, m: BridgeMessage, events: seq<ReturnEvent>)
    requires Arms(p, m)
    ensures Filters(Deliver(Route(p, m), m.channel, events), m.channel, Queued(p, m.channel), Texts(events))
  {
    ApprovalArms(p, m);
    hide Route, Filters;
    DeliveredFiltered(Route(p, m), m.channel, events);
  }

  /**
   * From an approval on, whatever arrives on the channel, guacd's traffic and faked
   * acks alike, however it is cut and whenever the mailbox is drained: behind what
   * its mailbox held already, the browser is handed nothing until the merged
   * traffic has gone by a handshake that ends with its first `ready`, and then
   * exactly what follows it.
   */
  lemma {:induction false} BrowserSeesWhatFollowsReady(p: ReturnPath, m: BridgeMessage, events: seq<ReturnEvent>)
    requires Arms(p, m)
    ensures var h := Deliver(Route(p, m), m.channel, events);
      var before, s := Queued(p, m.channel), Concat(Texts(events));
      && m.channel in h.path.mailboxes
      && var seen := Seen(h, m.channel);
         && (forall n: nat :: n <= |s| && Ascii(s[..n]) && ReadyHead(s[..n]) ==> seen == before + s[n..])
         && ((forall n: nat :: n <= |s| && Ascii(s[..n]) ==> !ReadyHead(s[..n])) ==> seen == before)
  {
    hide ReadyHead, ReturnChunks, Route, Deliver, Concat, Arms, Queued;
    ApprovedFiltered(p, m, events);
    PipesAfterReady(Texts(events));
    assert Queued(p, m.channel) + "" == Queued(p, m.channel);
  }

  // ---- Verdicts and teardowns, in the bytes of the message

  /** An approval that names the outstanding request of a registered channel. */
  predicate Grants(p: ReturnPath, m: BridgeMessage, c: Channel) {
    m.action.Approval? && m.channel == c && c in p.standings && m.payload == "A" + p.standings[c].requestId
  }

  /** A denial that does: any other verdict byte, or none at all while no request is outstanding. */
  predicate Refuses(p: ReturnPath, m: BridgeMessage, c: Channel) {
    && m.action.Approval? && m.channel == c && c in p.standings
    && (if m.payload == "" then p.standings[c].requestId == ""
        else m.payload[0] != 'A' && m.payload[1..] == p.standings[c].requestId)
  }

  lemma VerdictBytes(m: BridgeMessage, id: string)
    ensures m.payload == "A" + id <==> VerdictOf(m) == APPROVAL_APPROVE && RequestOf(m) == id
    ensures (if m.payload == "" then id == "" else m.payload[0] != 'A' && m.payload[1..] == id) <==>
      VerdictOf(m) != APPROVAL_APPROVE && RequestOf(m) == id
  {
    if |m.payload| == 1 {
      assert m.payload[1..] == "";
    }
    assert m.payload != "" ==> m.payload == [m.payload[0]] + m.payload[1..];
    assert ("A" + id)[1..] == id;
  }

  /**
   * A message approves a channel if and only if it names the channel's outstanding
   * request behind an 'A', and then, and only then, the channel's return filter
   * starts afresh. No message registers a channel, removes one or changes a request.
   */
  lemma OnlyGrantsApprove(p: ReturnPath, m: BridgeMessage, c: Channel)
    ensures var q := Route(p, m);
      && (c in q.standings <==> c in p.standings)
      && (c in p.standings ==>
            && q.standings[c].requestId == p.standings[c].requestId
            && (q.standings[c].approved <==> p.standings[c].approved || Grants(p, m, c)))
      && (Grants(p, m, c) ==> c in q.filters && q.filters[c] == Fresh(SWALLOWING))
      && (!Grants(p, m, c) && !(m.channel == c && (m.action.ShutdownChannel? || m.action.Payload?)) ==>
            (c in q.filters <==> c in p.filters) && (c in p.filters ==> q.filters[c] == p.filters[c]))
      && (m.channel == c && m.action.ShutdownChannel? ==> c !in q.filters)
      && (m.channel == c && m.action.Payload? ==> (c in q.filters <==> c in p.filters))
  {
    match m.action {
      case Approval =>
        hide Grants;
        RouteGrant(p, m);
        GrantsMeans(p, m, c);
        hide Route, Matching, VerdictOf, RequestOf;
      case _ =>
        OthersGrantNothing(p, m, c);
        hide Grants, Route;
    }
  }

  lemma OthersGrantNothing(p: ReturnPath, m: BridgeMessage, c: Channel)
    requires !m.action.Approval?
    ensures !Grants(p, m, c) && Route(p, m).standings == p.standings
    ensures m.action.CreateChannel? ==> Route(p, m).filters == p.filters
    ensures m.action.ShutdownChannel? ==> Route(p, m).filters == p.filters - {m.channel}
    ensures m.action.Payload? ==> var f := Route(p, m).filters;
      f == p.filters || (m.channel in p.filters && f == p.filters[m.channel := ReturnFeed(p.filters[m.channel], m.payload).0])
  {
    hide ReturnFeed, DeniedScreen, Posted, TornDown, VerdictOf, RequestOf, Approved, Matching;
  }

  lemma GrantsMeans(p: ReturnPath, m: BridgeMessage, c: Channel)
    ensures Grants(p, m, c) <==>
      m.action.Approval? && m.channel == c && Matching(p.standings, c, RequestOf(m)) && VerdictOf(m) == APPROVAL_APPROVE
    ensures Grants(p, m, c) ==> c in p.standings && p.standings[c].requestId == RequestOf(m)
  {
    if c in p.standings {
      VerdictBytes(m, p.standings[c].requestId);
    }
    hide VerdictOf, RequestOf;
  }

  lemma RouteGrant(p: ReturnPath, m: BridgeMessage)
    requires m.action.Approval?
    ensures var c, q := m.channel, Route(p, m);
      if Grants(p, m, c)
      then q.standings == p.standings[c := Standing(true, RequestOf(m))] && q.filters == p.filters[c := Fresh(SWALLOWING)]
      else q.standings == p.standings && q.filters == p.filters
  {
    GrantsMeans(p, m, m.channel);
    hide Grants, VerdictOf, RequestOf, DeniedScreen, Posted, TornDown, ReturnFeed;
  }

  /** What a message means for the mailbox of `c`. */
  ghost predicate Told(p: ReturnPath, m: BridgeMessage, c: Channel, b: M.Mailbox, b': M.Mailbox) {
    && (b'.teardown <==> b.teardown || Refuses(p, m, c) || (m.action.ShutdownChannel? && m.channel == c))
    && (Refuses(p, m, c) ==> b'.announce && b'.outbox == b.outbox + [DeniedScreen()])
    && (m.action.ShutdownChannel? && m.channel == c ==> !b'.announce && b'.outbox == b.outbox)
    && (!Refuses(p, m, c) && !(m.action.ShutdownChannel? && m.channel == c) ==> b'.announce == b.announce)
    && (!Refuses(p, m, c) && !(m.action.Payload? && m.channel == c) ==> b'.outbox == b.outbox)
    && (b'.(counter := 0) != b.(counter := 0) ==> b'.counter > 0)
    && (Refuses(p, m, c) || (m.action.ShutdownChannel? && m.channel == c) ==> b'.counter > 0)
    && b.counter <= b'.counter
  }

  lemma PayloadTold(p: ReturnPath, m: BridgeMessage, c: Channel)
    requires c in p.mailboxes && m.action.Payload?
    ensures c in Route(p, m).mailboxes && Told(p, m, c, p.mailboxes[c], Route(p, m).mailboxes[c])
  {
    hide ReturnFeed, DeniedScreen, Matching, Approved;
  }

  lemma RefusesMeans(p: ReturnPath, m: BridgeMessage, c: Channel)
    ensures Refuses(p, m, c) <==>
      m.action.Approval? && m.channel == c && Matching(p.standings, c, RequestOf(m)) && VerdictOf(m) != APPROVAL_APPROVE
  {
    if c in p.standings {
      VerdictBytes(m, p.standings[c].requestId);
    }
    hide VerdictOf, RequestOf;
  }

  /** A verdict, refusing or not. */
  lemma RouteVerdict(p: ReturnPath, m: BridgeMessage)
    requires m.action.Approval?
    ensures Route(p, m).mailboxes ==
      if Refuses(p, m, m.channel) then TornDown(Posted(p.mailboxes, m.channel, DeniedScreen()), m.channel, true) else p.mailboxes
  {
    RefusesMeans(p, m, m.channel);
    hide Refuses, Matching, VerdictOf, RequestOf, DeniedScreen, Posted, TornDown, Approved, ReturnFeed;
  }

  lemma RefusedBox(boxes: map<Channel, M.Mailbox>, d: Channel, screen: string, c: Channel)
    requires c in boxes
    ensures var q := TornDown(Posted(boxes, d, screen), d, true);
      c in q && if c != d then q[c] == boxes[c] else
        && q[c].teardown && q[c].announce && q[c].outbox == boxes[c].outbox + [screen]
        && q[c].counter > 0 && boxes[c].counter <= q[c].counter
  {
  }

  lemma ApprovalTold(p: ReturnPath, m: BridgeMessage, c: Channel)
    requires c in p.mailboxes && m.action.Approval?
    ensures c in Route(p, m).mailboxes && Told(p, m, c, p.mailboxes[c], Route(p, m).mailboxes[c])
  {
    RouteVerdict(p, m);
    RefusesMeans(p, m, c);
    RefusedBox(p.mailboxes, m.channel, DeniedScreen(), c);
    hide Route, Refuses, Matching, VerdictOf, RequestOf, DeniedScreen, TornDown, Posted;
  }

  lemma OtherTold(p: ReturnPath, m: BridgeMessage, c: Channel)
    requires c in p.mailboxes && (m.action.ShutdownChannel? || m.action.CreateChannel?)
    ensures c in Route(p, m).mailboxes && Told(p, m, c, p.mailboxes[c], Route(p, m).mailboxes[c])
  {
    RefusesMeans(p, m, c);
    hide Refuses, Matching, VerdictOf, RequestOf, DeniedScreen, ReturnFeed, Approved, Posted;
  }

  /**
   * A refusal shows the browser the denied screen and asks its reader to close and to
   * announce that; a SHUTDOWN from the other side asks it to close silently. Nothing
   * else does, and nothing takes a request to close back. Whenever there is something
   * new for the reader, its counter is up.
   */
  lemma TeardownsTold(p: ReturnPath, m: BridgeMessage, c: Channel)
    requires c in p.mailboxes
    ensures c in Route(p, m).mailboxes && Told(p, m, c, p.mailboxes[c], Route(p, m).mailboxes[c])
  {
    hide *;
    match m.action {
      case Payload => PayloadTold(p, m, c);
      case Approval => ApprovalTold(p, m, c);
      case _ => OtherTold(p, m, c);
    }
  }

  /** The denied screen reads as a picture that ends with the order to leave. */
  lemma {:induction false} DeniedScreenLeaves()
    ensures NeutralCall(DeniedScreen()).live == Fresh(Collected([],
      [["size", "0", "1024", "768"], ["rect", "0", "0", "0", "1024", "768"],
       ["cfill", "14", "0", "180", "30", "30", "255"], ["sync", "0"], ["disconnect"]]))
  {
    hide Feed, EncodeAll;
    DeniedScreenReparses(Collector(false), NewCall(Fresh(Collected([], []))));
  }

  function RouteAll(p: ReturnPath, ms: seq<BridgeMessage>): ReturnPath {
    if ms == [] then p else Route(RouteAll(p, ms[..|ms| - 1]), ms[|ms| - 1])
  }

  /** Message `k` tears the channel down; `told`: because it was refused, so that the close is announced. */
  predicate TearsDown(p: ReturnPath, ms: seq<BridgeMessage>, k: int, c: Channel, told: bool) {
    0 <= k < |ms| &&
    if told then Refuses(RouteAll(p, ms[..k]), ms[k], c) else ms[k].action.ShutdownChannel? && ms[k].channel == c
  }

  predicate LastTeardown(p: ReturnPath, ms: seq<BridgeMessage>, k: int, c: Channel, told: bool) {
    TearsDown(p, ms, k, c, told) && forall j, other :: k < j < |ms| ==> !TearsDown(p, ms, j, c, other)
  }

  lemma Prefix<T>(s: seq<T>, k: nat)
    requires k < |s| - 1
    ensures s[..|s| - 1][..k] == s[..k] && s[..|s| - 1][k] == s[k]
  {
  }

  lemma TearsDownEarlier(p: ReturnPath, ms: seq<BridgeMessage>, k: int, c: Channel, told: bool)
    requires ms != [] && k < |ms| - 1
    ensures TearsDown(p, ms, k, c, told) <==> TearsDown(p, ms[..|ms| - 1], k, c, told)
  {
    hide RouteAll, Refuses;
    if 0 <= k {
      Prefix(ms, k);
    }
  }

  lemma LastTeardownMore(p: ReturnPath, ms: seq<BridgeMessage>, k: int, c: Channel, told: bool)
    requires ms != [] && !TearsDown(p, ms, |ms| - 1, c, true) && !TearsDown(p, ms, |ms| - 1, c, false)
    ensures LastTeardown(p, ms, k, c, told) <==> LastTeardown(p, ms[..|ms| - 1], k, c, told)
  {
    var init, n := ms[..|ms| - 1], |ms| - 1;
    forall j, other ensures TearsDown(p, ms, j, c, other) <==> TearsDown(p, init, j, c, other) {
      if j < n {
        TearsDownEarlier(p, ms, j, c, other);
      } else {
        assert j > n ==> !TearsDown(p, ms, j, c, other);
        assert !TearsDown(p, init, j, c, other);
      }
    }
    hide TearsDown;
    assert forall other :: !TearsDown(p, ms, n, c, other) by {
      forall other ensures !TearsDown(p, ms, n, c, other) {
        assert other == true || other == false;
      }
    }
  }

  /** After any messages, the close is announced if and only if the last teardown was a refusal. */
  lemma {:induction false} LastTeardownDecides(p: ReturnPath, ms: seq<BridgeMessage>, c: Channel)
    requires c in p.mailboxes && !p.mailboxes[c].teardown
    ensures var q := RouteAll(p, ms);
      && c in q.mailboxes
      && (q.mailboxes[c].teardown <==> exists k, told :: LastTeardown(p, ms, k, c, told))
      && (forall k, told :: LastTeardown(p, ms, k, c, told) ==> q.mailboxes[c].announce == told)
  {
    if ms == [] {
      assert forall k, told :: !TearsDown(p, ms, k, c, told);
    } else {
      var init, m, n := ms[..|ms| - 1], ms[|ms| - 1], |ms| - 1;
      LastTeardownDecides(p, init, c);
      TeardownsTold(RouteAll(p, init), m, c);
      assert ms[..n] == init;
      assert TearsDown(p, ms, n, c, true) <==> Refuses(RouteAll(p, init), m, c);
      assert TearsDown(p, ms, n, c, false) <==> m.action.ShutdownChannel? && m.channel == c;
      hide Route, Refuses, RouteAll, TearsDown;
      if told :| TearsDown(p, ms, n, c, told) {
        assert LastTeardown(p, ms, n, c, told);
        forall k, other | LastTeardown(p, ms, k, c, other) ensures k == n {
          assert k < n ==> !TearsDown(p, ms, n, c, told);
          TearsDownInside(p, ms, k, c, other);
        }
      } else {
        forall k, told ensures LastTeardown(p, ms, k, c, told) <==> LastTeardown(p, init, k, c, told) {
          LastTeardownMore(p, ms, k, c, told);
        }
      }
    }
  }

  lemma TearsDownInside(p: ReturnPath, ms: seq<BridgeMessage>, k: int, c: Channel, told: bool)
    requires TearsDown(p, ms, k, c, told)
    ensures 0 <= k < |ms|
  {
  }

  // ---- Before the approval

  lemma RouteUnfiltered(p: ReturnPath, c: Channel, text: string)
    requires c in p.mailboxes && c !in p.filters
    ensures var q := Route(p, BridgeMessage(c, Payload, text));
      && q.standings == p.standings && q.filters == p.filters && c in q.mailboxes
      && q.mailboxes[c].outbox == p.mailboxes[c].outbox + if text == "" then [] else [text]
  {
    hide ReturnFeed, DeniedScreen, Matching, Approved;
  }

  /** All that has arrived is on its way to the browser, and the channel is still unfiltered. */
  ghost predicate PassedWhole(p: ReturnPath, h: Handed, c: Channel, before: string, arrived: string) {
    && h.path.standings == p.standings && h.path.filters == p.filters && c in h.path.mailboxes
    && Seen(h, c) == before + arrived
  }

  lemma UnfilteredArrival(p: ReturnPath, h: Handed, c: Channel, before: string, arrived: string, text: string)
    requires c !in p.filters && PassedWhole(p, h, c, before, arrived)
    ensures PassedWhole(p, h.(path := Route(h.path, BridgeMessage(c, Payload, text))), c, before, arrived + text)
  {
    RouteUnfiltered(h.path, c, text);
    HandedMore(h.given, h.path.mailboxes[c].outbox, text);
    Assoc(before, arrived, text);
    hide Route, Concat;
  }

  /** A channel without a return filter hands everything to the browser as it is. */
  lemma {:induction false} Unfiltered(p: ReturnPath, c: Channel, events: seq<ReturnEvent>)
    requires c in p.mailboxes && c !in p.filters
    ensures PassedWhole(p, Deliver(p, c, events), c, Queued(p, c), Concat(Texts(events)))
  {
    if events == [] {
      assert Concat(p.mailboxes[c].outbox) + "" == Concat(p.mailboxes[c].outbox) == "" + Concat(p.mailboxes[c].outbox);
    } else {
      var init, last := events[..|events| - 1], events[|events| - 1];
      Unfiltered(p, c, init);
      var h := Deliver(p, c, init);
      assert c in h.path.mailboxes;
      if last.Arrives? {
        assert Deliver(p, c, events) == h.(path := Route(h.path, BridgeMessage(c, Payload, last.text)));
        assert Texts(events) == Texts(init) + [last.text];
        hide Route, Concat, Deliver, PassedWhole, Texts, Queued;
        UnfilteredArrival(p, h, c, Queued(p, c), Concat(Texts(init)), last.text);
        ConcatMore(Texts(init), last.text);
      } else {
        assert Deliver(p, c, events) == Drained(h, c);
        assert Texts(events) == Texts(init) + [] == Texts(init);
        DrainedSeen(h, c);
        hide Route, Concat, Deliver, Texts, Queued, Seen;
      }
    }
  }

  /**
   * The filter is armed only by the approval: whatever arrives on the channel while
   * the approval is awaited, late traffic of an earlier occupant say, is handed to
   * the browser as it is, in front of what follows guacd's `ready`.
   */
  lemma {:induction false} EarlyTrafficUnfiltered(p: ReturnPath, m: BridgeMessage, early: seq<ReturnEvent>, later: seq<ReturnEvent>)
    requires Arms(p, m) && Queued(p, m.channel) == "" && m.channel !in p.filters
    ensures var c, first := m.channel, Deliver(p, m.channel, early);
      && Arms(first.path, m)
      && var h := Deliver(Route(first.path, m), c, later);
         var s := Concat(Texts(later));
         && c in h.path.mailboxes
         && (forall n: nat :: n <= |s| && Ascii(s[..n]) && ReadyHead(s[..n]) ==>
               first.given + Seen(h, c) == Concat(Texts(early)) + s[n..])
         && ((forall n: nat :: n <= |s| && Ascii(s[..n]) ==> !ReadyHead(s[..n])) ==>
               first.given + Seen(h, c) == Concat(Texts(early)))
  {
    var c, first, s := m.channel, Deliver(p, m.channel, early), Concat(Texts(later));
    Unfiltered(p, c, early);
    assert Seen(first, c) == first.given + Queued(first.path, c);
    assert "" + Concat(Texts(early)) == Concat(Texts(early));
    hide Route, Deliver, Concat, ReadyHead, Queued, Texts;
    BrowserSeesWhatFollowsReady(first.path, m, later);
    forall n: nat | n <= |s| ensures first.given + (Queued(first.path, c) + s[n..]) == Seen(first, c) + s[n..] {
      Assoc(first.given, Queued(first.path, c), s[n..]);
    }
  }
}
