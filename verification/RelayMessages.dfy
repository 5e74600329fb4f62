/** What the relay server says to a client over TCP. */
module RelayMessages {
  import opened Bytes

  type Text = seq<byte>

  /** The bytes of a literal. */
  function Ascii(s: string): (t: Text)
    ensures |t| == |s|
  {
    seq(|s|, i requires 0 <= i < |s| => (s[i] as int % 0x100) as byte)
  }

  datatype PeerInfo = PeerInfo(id: nat, flags: byte, name: Text)
  datatype Listing = Listing(peerCount: nat, name: Text)

  datatype ServerMsg =
    | ConnectOk(id: nat, welcome: Text)
    | ConnectDenied(reason: Text)
    | NameOk(name: Text)
    | NameDenied(name: Text, reason: Text)
    | JoinOk(flags: byte, name: Text, channelId: nat, peers: seq<PeerInfo>)
    | JoinDenied(name: Text, reason: Text)
    | LeaveOk(channelId: nat)
    | LeaveDenied(channelId: nat, reason: Text)
    | ChannelList(listings: seq<Listing>)
    | PeerPresent(channelId: nat, peer: PeerInfo)
    | PeerGone(channelId: nat, peerId: nat)
    | ChannelMsg(channelId: nat, peerId: nat, variant: byte, subchannel: byte, data: Text)
    | PeerMsg(channelId: nat, peerId: nat, variant: byte, subchannel: byte, data: Text)
    | Ping
    | ImplementationRequest

  predicate IsMaster(flags: byte) {
    flags % 2 == 1
  }

  // ASCII case folding, as the C library compares names
  function Lower(b: byte): byte {
    if 65 <= b <= 90 then b + 32 else b
  }

  predicate SameName(a: Text, b: Text) {
    |a| == |b| && forall i | 0 <= i < |a| :: Lower(a[i]) == Lower(b[i])
  }
}
