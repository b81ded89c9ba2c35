/** The bridge's datagrams: a three-byte header in front of the payload of one channel. */
module MultiplexerModule {

  const HEADER_SIZE := 3
  const MAX_PAYLOAD_SIZE := 1200

  type Channel = c: int | 0 <= c < 0x1_0000

  datatype ChannelAction = Payload | CreateChannel | ShutdownChannel | Approval

  const APPROVAL_APPROVE := 'A'
  const APPROVAL_DENY := 'D'

  datatype BridgeMessage = BridgeMessage(channel: Channel, action: ChannelAction, payload: string)

  /** The verdict of an APPROVAL message; an empty payload denies. */
  function VerdictOf(m: BridgeMessage): char { if m.payload == "" then APPROVAL_DENY else m.payload[0] }

  datatype Option<T> = None | Some(value: T)

  /** Every char is a byte. */
  predicate Octets(s: string) { forall i :: 0 <= i < |s| ==> s[i] as int < 256 }

  type Bytes = s: string | Octets(s)

  /** The action, in the top two bits of the flags byte. */
  function Flags(action: ChannelAction): (f: nat)
    ensures f < 256
  {
    match action
    case Payload => 0
    case CreateChannel => 64
    case ShutdownChannel => 128
    case Approval => 192
  }

  function Serialize(m: BridgeMessage): string {
    [(m.channel / 256) as char, (m.channel % 256) as char, Flags(m.action) as char] + m.payload
  }

  function TryCast(buffer: Bytes): Option<BridgeMessage> {
    if |buffer| < HEADER_SIZE then None else
    var channel := buffer[0] as int * 256 + buffer[1] as int;
    var flags := buffer[2] as int;
    if flags % 64 != 0 then None else
    var action := if flags == 0 then Payload else if flags == 64 then CreateChannel
                  else if flags == 128 then ShutdownChannel else Approval;
    if |buffer| - HEADER_SIZE > MAX_PAYLOAD_SIZE then None
    else Some(BridgeMessage(channel, action, buffer[HEADER_SIZE..]))
  }

  /** A message that survives the wire. */
  predicate Sendable(m: BridgeMessage) { Octets(m.payload) && |m.payload| <= MAX_PAYLOAD_SIZE }

  lemma SerializedOctets(m: BridgeMessage)
    requires Octets(m.payload)
    ensures Octets(Serialize(m))
  {
  }

  /** A serialized message casts back to itself if and only if its payload fits a datagram. */
  lemma CastSerialized(m: BridgeMessage)
    requires Octets(m.payload)
    ensures Octets(Serialize(m))
    ensures TryCast(Serialize(m)) == if Sendable(m) then Some(m) else None
  {
    var b := Serialize(m);
    SerializedOctets(m);
    assert b[3..] == m.payload;
    assert b[0] as int == m.channel / 256 && b[1] as int == m.channel % 256 && b[2] as int == Flags(m.action);
  }

  /** A datagram that casts is the serialization of its message, and of no other. */
  lemma SerializedCast(buffer: Bytes, m: BridgeMessage)
    ensures TryCast(buffer) == Some(m) <==> Sendable(m) && Serialize(m) == buffer
  {
    if TryCast(buffer) == Some(m) {
      forall i | 0 <= i < |m.payload| ensures m.payload[i] as int < 256 {
        assert m.payload[i] == buffer[3 + i];
      }
      HeaderBytes(buffer[0], buffer[1]);
      assert Flags(m.action) == buffer[2] as int;
      assert Serialize(m) == buffer;
    } else if Sendable(m) && Serialize(m) == buffer {
      CastSerialized(m);
    }
  }

  /** The layout of a datagram: the channel big-endian, the action in the top two bits of a byte whose rest is zero, the payload. */
  lemma WireLayout(m: BridgeMessage)
    ensures var b := Serialize(m);
      && |b| == 3 + |m.payload| && b[3..] == m.payload
      && b[0] as int < 256 && b[1] as int < 256 && b[0] as int * 256 + b[1] as int == m.channel
      && (b[2] == 0 as char <==> m.action.Payload?) && (b[2] == 64 as char <==> m.action.CreateChannel?)
      && (b[2] == 128 as char <==> m.action.ShutdownChannel?) && (b[2] == 192 as char <==> m.action.Approval?)
  {
    var b := Serialize(m);
    assert b[0] as int == m.channel / 256 && b[1] as int == m.channel % 256 && b[2] as int == Flags(m.action);
  }

  lemma HeaderBytes(high: char, low: char)
    requires high as int < 256 && low as int < 256
    ensures var channel := high as int * 256 + low as int;
      (channel / 256) as char == high && (channel % 256) as char == low
  {
  }
}
