/**
 * gcdbroker's forward path: it dials guacd on an approving verdict, relays every
 * verdict back, drops the payload of channels it has not dialed and echoes every
 * teardown.
 */
module GuacdSendHandlerModule {
  import opened MultiplexerModule
  import opened ChannelTableModule

  /** The dialed channels, the messages for the return path, what guacd was sent, the connections shut down. */
  datatype High = High(
    dialed: map<Channel, int>,
    returned: seq<BridgeMessage>,
    toGuacd: seq<(Channel, string)>,
    shut: seq<int>)

  const NOTHING_DIALED := High(map[], [], [], [])

  /** How the sockets behave: the result of a dial (negative: failed), and whether a send succeeds. */
  datatype Sockets = Sockets(dial: int, sent: bool)

  /** The verdict turned into a denial, the request id kept. */
  function Downgraded(m: BridgeMessage): BridgeMessage
    requires m.payload != ""
  {
    m.(payload := m.payload[0 := APPROVAL_DENY])
  }

  function Relay(h: High, m: BridgeMessage, s: Sockets): High {
    var c := m.channel;
    match m.action
    case CreateChannel => h
    case Approval =>
      if VerdictOf(m) != APPROVAL_APPROVE then h.(returned := h.returned + [m])
      else if s.dial >= 0 && c !in h.dialed then h.(dialed := h.dialed[c := s.dial], returned := h.returned + [m])
      else h.(returned := h.returned + [Downgraded(m)])
    case ShutdownChannel =>
      h.(dialed := h.dialed - {c}, returned := h.returned + [BridgeMessage(c, ShutdownChannel, "")],
         shut := if c in h.dialed then h.shut + [h.dialed[c]] else h.shut)
    case Payload =>
      if c !in h.dialed then h
      else if s.sent then h.(toGuacd := h.toGuacd + [(c, m.payload)])
      else h.(dialed := h.dialed - {c}, shut := h.shut + [h.dialed[c]])
  }

  class GuacdSendHandler {
    const table: ChannelTable
    var sendQueue: seq<BridgeMessage>
    var toGuacd: seq<(Channel, string)>
    var shut: seq<int>

    ghost function State(): High
      reads this, table
    {
      High(table.channelToFd, sendQueue, toGuacd, shut)
    }

    constructor ()
      ensures State() == NOTHING_DIALED && fresh(table)
    {
      table := new ChannelTable();
      sendQueue, toGuacd, shut := [], [], [];
    }

    method HandleVerdict(received: BridgeMessage, s: Sockets)
      requires received.action.Approval?
      modifies this, table
      ensures State() == Relay(old(State()), received, s)
    {
      var m := received;
      var verdict := if m.payload == "" then APPROVAL_DENY else m.payload[0];
      if verdict == APPROVAL_APPROVE {
        var fd := s.dial;
        var inserted := false;
        if fd >= 0 {
          inserted := table.Insert(m.channel, fd);
        }
        if !inserted {
          m := m.(payload := m.payload[0 := APPROVAL_DENY]);
        }
      }
      sendQueue := sendQueue + [m];
    }

    method HandleShutdown(m: BridgeMessage)
      requires m.action.ShutdownChannel?
      modifies this, table
      ensures State() == Relay(old(State()), m, Sockets(-1, true))
    {
      var fd := table.Remove(m.channel);
      if fd.Some? {
        shut := shut + [fd.value];
      }
      sendQueue := sendQueue + [BridgeMessage(m.channel, ShutdownChannel, "")];
    }

    method HandlePayload(m: BridgeMessage, s: Sockets)
      requires m.action.Payload?
      modifies this, table
      ensures State() == Relay(old(State()), m, s)
    {
      var fd := table.Get(m.channel);
      if fd.None? {
        return;
      }
      if s.sent {
        toGuacd := toGuacd + [(m.channel, m.payload)];
      } else {
        var dead := table.Remove(m.channel);
        if dead.Some? {
          shut := shut + [dead.value];
        }
      }
    }

    method Handle(m: BridgeMessage, s: Sockets)
      modifies this, table
      ensures State() == Relay(old(State()), m, s)
    {
      match m.action {
        case CreateChannel =>
        case Approval => HandleVerdict(m, s);
        case ShutdownChannel => HandleShutdown(m);
        case Payload => HandlePayload(m, s);
      }
    }
  }
}
