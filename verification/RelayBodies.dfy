/** The bodies of the server's messages: how it writes them, and how a client
    reads them back. */
module RelayBodies {
  import opened Bytes
  import opened FrameCodec
  import opened RelayMessages
  import opened Wrappers

  /* ---- writing ---- */

  function PeerBytes(p: PeerInfo): seq<byte>
    requires PeerFits(p)
  {
    Le16(p.id) + [p.flags, |p.name|] + p.name
  }

  predicate PeerFits(p: PeerInfo) {
    p.id < 0x1_0000 && |p.name| < 0x100
  }

  function PeersBytes(ps: seq<PeerInfo>): seq<byte>
    requires forall i | 0 <= i < |ps| :: PeerFits(ps[i])
  {
    if ps == [] then [] else PeerBytes(ps[0]) + PeersBytes(ps[1..])
  }

  predicate ListingFits(l: Listing) {
    l.peerCount < 0x1_0000 && |l.name| < 0x100
  }

  function ListingBytes(l: Listing): seq<byte>
    requires ListingFits(l)
  {
    Le16(l.peerCount) + [|l.name|] + l.name
  }

  function ListingsBytes(ls: seq<Listing>): seq<byte>
    requires forall i | 0 <= i < |ls| :: ListingFits(ls[i])
  {
    if ls == [] then [] else ListingBytes(ls[0]) + ListingsBytes(ls[1..])
  }

  /** Ids have 16 bits, names up to 255 bytes, a variant four bits. */
  predicate Fits(m: ServerMsg) {
    match m
    case ConnectOk(id, _) => id < 0x1_0000
    case ConnectDenied(_) => true
    case NameOk(name) => |name| < 0x100
    case NameDenied(name, _) => |name| < 0x100
    case JoinOk(_, name, id, peers) =>
      |name| < 0x100 && id < 0x1_0000 && forall i | 0 <= i < |peers| :: PeerFits(peers[i])
    case JoinDenied(name, _) => |name| < 0x100
    case LeaveOk(id) => id < 0x1_0000
    case LeaveDenied(id, _) => id < 0x1_0000
    case ChannelList(ls) => forall i | 0 <= i < |ls| :: ListingFits(ls[i])
    case PeerPresent(id, peer) => id < 0x1_0000 && peer.id < 0x1_0000
    case PeerGone(id, peerId) => id < 0x1_0000 && peerId < 0x1_0000
    case ChannelMsg(id, peerId, variant, _, _) => id < 0x1_0000 && peerId < 0x1_0000 && variant < 16
    case PeerMsg(id, peerId, variant, _, _) => id < 0x1_0000 && peerId < 0x1_0000 && variant < 16
    case Ping => true
    case ImplementationRequest => true
  }

  /** A frame's first byte: the message type, and a variant of it. */
  function Kind(messageType: nat, variant: nat): byte
    requires messageType < 16 && variant < 16
  {
    messageType * 16 + variant
  }

  function Response(kind: byte, success: byte, rest: seq<byte>): Frame {
    Frame(Kind(0, 0), [kind, success] + rest)
  }

  function Write(m: ServerMsg): Frame
    requires Fits(m)
  {
    match m
    case ConnectOk(id, welcome) => Response(0, 1, Le16(id) + welcome)
    case ConnectDenied(reason) => Response(0, 0, reason)
    case NameOk(name) => Response(1, 1, [|name|] + name)
    case NameDenied(name, reason) => Response(1, 0, [|name|] + name + reason)
    case JoinOk(flags, name, id, peers) => Response(2, 1, [flags, |name|] + name + (Le16(id) + PeersBytes(peers)))
    case JoinDenied(name, reason) => Response(2, 0, [|name|] + name + reason)
    case LeaveOk(id) => Response(3, 1, Le16(id))
    case LeaveDenied(id, reason) => Response(3, 0, Le16(id) + reason)
    case ChannelList(ls) => Response(4, 1, ListingsBytes(ls))
    case PeerPresent(id, peer) => Frame(Kind(9, 0), Le16(id) + (Le16(peer.id) + ([peer.flags] + peer.name)))
    case PeerGone(id, peerId) => Frame(Kind(9, 0), Le16(id) + (Le16(peerId) + []))
    case ChannelMsg(id, peerId, variant, subchannel, data) =>
      Frame(Kind(2, variant), [subchannel] + (Le16(id) + (Le16(peerId) + data)))
    case PeerMsg(id, peerId, variant, subchannel, data) =>
      Frame(Kind(3, variant), [subchannel] + (Le16(id) + (Le16(peerId) + data)))
    case Ping => Frame(Kind(11, 0), [])
    case ImplementationRequest => Frame(Kind(12, 0), [])
  }

  /* ---- reading ---- */

  /** A 16-bit number, and what follows. */
  function Short(data: seq<byte>): Option<(nat, seq<byte>)> {
    if |data| < 2 then None else Some((FromLe16(data[..2]), data[2..]))
  }

  function Byte(data: seq<byte>): Option<(byte, seq<byte>)> {
    if data == [] then None else Some((data[0], data[1..]))
  }

  /** A byte with a length, and so many bytes. */
  function Counted(data: seq<byte>): Option<(Text, seq<byte>)> {
    if data == [] || |data| - 1 < data[0] then None
    else Some((data[1..][..data[0]], data[1..][data[0]..]))
  }

  /** Peers, up to where the data ends or one is cut short. */
  function ReadPeers(data: seq<byte>): seq<PeerInfo>
    decreases |data|
  {
    if |data| < 3 then []
    else
      match Counted(data[3..])
      case None => []
      case Some((name, rest)) => [PeerInfo(FromLe16(data[..2]), data[2], name)] + ReadPeers(rest)
  }

  /** Listings, likewise. */
  function ReadListings(data: seq<byte>): seq<Listing>
    decreases |data|
  {
    if |data| < 2 then []
    else
      match Counted(data[2..])
      case None => []
      case Some((name, rest)) => [Listing(FromLe16(data[..2]), name)] + ReadListings(rest)
  }

  function ReadJoin(success: bool, data: seq<byte>): Option<ServerMsg> {
    if success then
      if data == [] then None
      else
        match Counted(data[1..])
        case None => None
        case Some((name, rest)) =>
          match Short(rest)
          case None => None
          case Some((id, more)) => Some(JoinOk(data[0], name, id, ReadPeers(more)))
    else
      match Counted(data)
      case None => None
      case Some((name, rest)) => Some(JoinDenied(name, rest))
  }

  /** Whether a channel list was granted is not looked at; an id of which there are
      not two bytes is 0. */
  function ReadResponse(kind: byte, success: bool, data: seq<byte>): Option<ServerMsg> {
    match kind
    case 0 =>
      if !success then Some(ConnectDenied(data))
      else (match Short(data) case None => Some(ConnectOk(0, [])) case Some((id, rest)) => Some(ConnectOk(id, rest)))
    case 1 =>
      (match Counted(data)
       case None => None
       case Some((name, rest)) => if success then Some(NameOk(name)) else Some(NameDenied(name, rest)))
    case 2 => ReadJoin(success, data)
    case 3 =>
      (match Short(data)
       case None => None
       case Some((id, rest)) => if success then Some(LeaveOk(id)) else Some(LeaveDenied(id, rest)))
    case 4 => Some(ChannelList(ReadListings(data)))
    case _ => None
  }

  /** A peer message: without flags the peer has gone.  One cut short before
      the peer's id is taken for its being 0. */
  function ReadPeer(data: seq<byte>): Option<ServerMsg> {
    match Short(data)
    case None => None
    case Some((id, rest)) =>
      match Short(rest)
      case None => Some(PeerGone(id, 0))
      case Some((peerId, more)) =>
        if more == [] then Some(PeerGone(id, peerId))
        else Some(PeerPresent(id, PeerInfo(peerId, more[0], more[1..])))
  }

  function ReadBinary(toChannel: bool, variant: byte, data: seq<byte>): Option<ServerMsg> {
    match Byte(data)
    case None => None
    case Some((subchannel, rest)) =>
      match Short(rest)
      case None => None
      case Some((id, more)) =>
        match Short(more)
        case None => None
        case Some((peerId, message)) =>
          Some(if toChannel then ChannelMsg(id, peerId, variant, subchannel, message)
               else PeerMsg(id, peerId, variant, subchannel, message))
  }

  function Read(f: Frame): Option<ServerMsg> {
    var messageType, variant := f.kind / 16, f.kind % 16;
    match messageType
    case 0 => if |f.payload| < 2 then None else ReadResponse(f.payload[0], f.payload[1] != 0, f.payload[2..])
    case 2 => ReadBinary(true, variant, f.payload)
    case 3 => ReadBinary(false, variant, f.payload)
    case 9 => ReadPeer(f.payload)
    case 11 => Some(Ping)
    case 12 => Some(ImplementationRequest)
    case _ => None
  }

  /* ---- round trips ---- */

  lemma ShortOf(n: nat, rest: seq<byte>)
    requires n < 0x1_0000
    ensures Short(Le16(n) + rest) == Some((n, rest))
  {
    assert (Le16(n) + rest)[..2] == Le16(n) && (Le16(n) + rest)[2..] == rest;
    Le16RoundTrip(n);
  }

  lemma CountedOf(name: Text, rest: seq<byte>)
    requires |name| < 0x100
    ensures Counted([|name|] + name + rest) == Some((name, rest))
  {
    var data := [|name|] + name + rest;
    assert data[0] == |name| && data[1..] == name + rest;
    assert (name + rest)[..|name|] == name && (name + rest)[|name|..] == rest;
  }

  lemma PeerOf(p: PeerInfo, rest: seq<byte>)
    requires PeerFits(p)
    ensures var data := PeerBytes(p) + rest;
      && |data| >= 3 && FromLe16(data[..2]) == p.id && data[2] == p.flags
      && Counted(data[3..]) == Some((p.name, rest))
  {
    var data := PeerBytes(p) + rest;
    assert data[..2] == Le16(p.id) && data[3..] == [|p.name|] + p.name + rest;
    Le16RoundTrip(p.id);
    CountedOf(p.name, rest);
  }

  lemma ListingOf(l: Listing, rest: seq<byte>)
    requires ListingFits(l)
    ensures var data := ListingBytes(l) + rest;
      && |data| >= 2 && FromLe16(data[..2]) == l.peerCount && Counted(data[2..]) == Some((l.name, rest))
  {
    var data := ListingBytes(l) + rest;
    assert data[..2] == Le16(l.peerCount) && data[2..] == [|l.name|] + l.name + rest;
    Le16RoundTrip(l.peerCount);
    CountedOf(l.name, rest);
  }

  /** The client's loop recovers the list of peers the server wrote. */
  lemma {:induction false} PeersRoundTrip(ps: seq<PeerInfo>)
    requires forall i | 0 <= i < |ps| :: PeerFits(ps[i])
    ensures ReadPeers(PeersBytes(ps)) == ps
  {
    if ps != [] {
      PeersRoundTrip(ps[1..]);
      PeerOf(ps[0], PeersBytes(ps[1..]));
      assert [ps[0]] + ps[1..] == ps;
      hide PeerBytes, Counted, FromLe16;
    }
  }

  lemma {:induction false} ListingsRoundTrip(ls: seq<Listing>)
    requires forall i | 0 <= i < |ls| :: ListingFits(ls[i])
    ensures ReadListings(ListingsBytes(ls)) == ls
  {
    if ls != [] {
      ListingsRoundTrip(ls[1..]);
      ListingOf(ls[0], ListingsBytes(ls[1..]));
      assert [ls[0]] + ls[1..] == ls;
      hide ListingBytes, Counted, FromLe16;
    }
  }

  lemma JoinRoundTrip(flags: byte, name: Text, id: nat, peers: seq<PeerInfo>)
    requires Fits(JoinOk(flags, name, id, peers))
    ensures ReadJoin(true, [flags, |name|] + name + (Le16(id) + PeersBytes(peers))) ==
            Some(JoinOk(flags, name, id, peers))
  {
    var rest := Le16(id) + PeersBytes(peers);
    hide Counted, Short, ReadPeers, PeersBytes;
    assert ([flags, |name|] + name + rest)[1..] == [|name|] + name + rest;
    CountedOf(name, rest);
    ShortOf(id, PeersBytes(peers));
    PeersRoundTrip(peers);
  }

  lemma ResponseOf(kind: byte, success: byte, rest: seq<byte>)
    ensures Read(Response(kind, success, rest)) == ReadResponse(kind, success != 0, rest)
  {
    assert ([kind, success] + rest)[2..] == rest;
  }

  lemma ResponseRoundTrip(m: ServerMsg)
    requires Fits(m) && !m.PeerPresent? && !m.PeerGone? && !m.ChannelMsg? && !m.PeerMsg? && !m.Ping?
    requires !m.ImplementationRequest?
    ensures Read(Write(m)) == Some(m)
  {
    hide Counted, Short, ReadPeers, ReadListings, PeersBytes, ListingsBytes, Read;
    match m
    case ConnectOk(id, welcome) => ResponseOf(0, 1, Le16(id) + welcome); ShortOf(id, welcome);
    case ConnectDenied(reason) => ResponseOf(0, 0, reason);
    case NameOk(name) =>
      ResponseOf(1, 1, [|name|] + name);
      CountedOf(name, []);
      assert [|name|] + name + [] == [|name|] + name;
    case NameDenied(name, reason) => ResponseOf(1, 0, [|name|] + name + reason); CountedOf(name, reason);
    case JoinOk(flags, name, id, peers) =>
      ResponseOf(2, 1, [flags, |name|] + name + (Le16(id) + PeersBytes(peers)));
      JoinRoundTrip(flags, name, id, peers);
    case JoinDenied(name, reason) => ResponseOf(2, 0, [|name|] + name + reason); CountedOf(name, reason);
    case LeaveOk(id) =>
      ResponseOf(3, 1, Le16(id));
      ShortOf(id, []);
      assert Le16(id) + [] == Le16(id);
    case LeaveDenied(id, reason) => ResponseOf(3, 0, Le16(id) + reason); ShortOf(id, reason);
    case ChannelList(ls) => ResponseOf(4, 1, ListingsBytes(ls)); ListingsRoundTrip(ls);
  }

  lemma BinaryRoundTrip(toChannel: bool, variant: byte, subchannel: byte, id: nat, peerId: nat, data: Text)
    requires id < 0x1_0000 && peerId < 0x1_0000
    ensures ReadBinary(toChannel, variant, [subchannel] + (Le16(id) + (Le16(peerId) + data))) ==
            Some(if toChannel then ChannelMsg(id, peerId, variant, subchannel, data)
                 else PeerMsg(id, peerId, variant, subchannel, data))
  {
    var rest := Le16(id) + (Le16(peerId) + data);
    assert ([subchannel] + rest)[1..] == rest;
    ShortOf(id, Le16(peerId) + data);
    ShortOf(peerId, data);
  }

  /** A peer message without flags is never taken for one with, whatever the name. */
  lemma PeerRoundTrip(id: nat, peer: PeerInfo)
    requires id < 0x1_0000 && peer.id < 0x1_0000
    ensures Read(Write(PeerPresent(id, peer))) == Some(PeerPresent(id, peer))
    ensures Read(Write(PeerGone(id, peer.id))) == Some(PeerGone(id, peer.id))
  {
    var more := [peer.flags] + peer.name;
    ShortOf(id, Le16(peer.id) + more);
    ShortOf(peer.id, more);
    assert more[1..] == peer.name;
    ShortOf(id, Le16(peer.id) + []);
    ShortOf(peer.id, []);
  }

  /** Every message comes back as it was written. */
  lemma MessageRoundTrip(m: ServerMsg)
    requires Fits(m)
    ensures Read(Write(m)) == Some(m)
  {
    match m
    case PeerPresent(id, peer) => PeerRoundTrip(id, peer);
    case PeerGone(id, peerId) => PeerRoundTrip(id, PeerInfo(peerId, 0, []));
    case ChannelMsg(id, peerId, variant, subchannel, data) =>
      BinaryRoundTrip(true, variant, subchannel, id, peerId, data);
    case PeerMsg(id, peerId, variant, subchannel, data) =>
      BinaryRoundTrip(false, variant, subchannel, id, peerId, data);
    case Ping =>
    case ImplementationRequest =>
    case _ => ResponseRoundTrip(m);
  }

  /** No two messages are written alike. */
  lemma WriteInjective(m: ServerMsg, n: ServerMsg)
    requires Fits(m) && Fits(n) && Write(m) == Write(n)
    ensures m == n
  {
    MessageRoundTrip(m);
    MessageRoundTrip(n);
  }

  /** A refused channel list is read as a list, but comes to none: the third
      letter of the reason is a length the rest falls short of. */
  lemma ListDenialUnread()
    ensures Read(Response(4, 0, Ascii("channel listing is not enabled on this server"))) == Some(ChannelList([]))
  {
    hide Read, ReadJoin, ReadPeers, ReadListings, Short, Response;
    var data := Ascii("channel listing is not enabled on this server");
    assert "channel listing is not enabled on this server"[2] == 'a';
    assert data[2] == 'a' as int && |data| == 45;
    ResponseOf(4, 0, data);
    CutShort(data);
  }

  lemma CutShort(data: seq<byte>)
    requires |data| == 45 && data[2] == 97
    ensures ReadListings(data) == []
  {
    assert data[2..][0] == 97;
  }

  /* ---- to the byte ---- */

  /** A message of each sort, as the socket gets it: the kind, the size, the body. */
  lemma Samples()
    ensures Encode(Write(ConnectOk(0x0102, [104]))) == [0x00, 5, 0, 1, 2, 1, 104]
    ensures Encode(Write(NameOk([97, 98]))) == [0x00, 5, 1, 1, 2, 97, 98]
    ensures Encode(Write(JoinDenied([97], [98]))) == [0x00, 5, 2, 0, 1, 97, 98]
    ensures Encode(Write(LeaveOk(0x0102))) == [0x00, 4, 3, 1, 2, 1]
    ensures Encode(Write(Ping)) == [0xB0, 0] && Encode(Write(ImplementationRequest)) == [0xC0, 0]
  {
    assert Le16(0x0102) == [2, 1];
    hide Le16;
  }

  /** Those about peers, and from them. */
  lemma PeerSamples()
    ensures Encode(Write(PeerGone(0x0102, 3))) == [0x90, 4, 2, 1, 3, 0]
    ensures Encode(Write(PeerPresent(0x0102, PeerInfo(3, 1, [99])))) == [0x90, 6, 2, 1, 3, 0, 1, 99]
    ensures Encode(Write(ChannelMsg(0x0102, 3, 5, 7, [99]))) == [0x25, 6, 7, 2, 1, 3, 0, 99]
    ensures Encode(Write(PeerMsg(0x0102, 3, 5, 7, [99]))) == [0x35, 6, 7, 2, 1, 3, 0, 99]
  {
    assert Le16(0x0102) == [2, 1] && Le16(3) == [3, 0];
    hide Le16;
  }

  /** Those with lists: of peers, and of channels. */
  lemma ListSamples()
    ensures Encode(Write(JoinOk(1, [97], 0x0102, [PeerInfo(3, 0, [98])]))) ==
            [0x00, 12, 2, 1, 1, 1, 97, 2, 1, 3, 0, 0, 1, 98]
    ensures Encode(Write(ChannelList([Listing(0x0102, [97])]))) == [0x00, 6, 4, 1, 2, 1, 1, 97]
  {
    OnePeer();
    OneListing();
    assert Le16(0x0102) == [2, 1];
    hide PeersBytes, ListingsBytes, Le16;
  }

  lemma OnePeer()
    ensures PeersBytes([PeerInfo(3, 0, [98])]) == [3, 0, 0, 1, 98]
  {
    var peer := PeerInfo(3, 0, [98]);
    assert PeerBytes(peer) == [3, 0, 0, 1, 98] && [peer][1..] == [];
    assert PeersBytes([peer]) == PeerBytes(peer) + [];
  }

  lemma OneListing()
    ensures ListingsBytes([Listing(0x0102, [97])]) == [2, 1, 1, 97]
  {
    var listing := Listing(0x0102, [97]);
    assert ListingBytes(listing) == [2, 1, 1, 97] && [listing][1..] == [];
    assert ListingsBytes([listing]) == ListingBytes(listing) + [];
  }
}
