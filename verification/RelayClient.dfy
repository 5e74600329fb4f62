/** The client: what it does with each message its connection brings. */
module RelayClients {
  import opened Bytes
  import opened FrameCodec
  import opened MessageReaders
  import opened RelayBodies
  import opened RelayMessages
  import opened RelayReplica
  import opened Wrappers

  /** What is made of a message; one not understood changes nothing. */
  function Handled(v: View, m: Option<ServerMsg>): Option<View> {
    if m == None then Some(v) else Apply(false, v, m.value)
  }

  /** Handling `m` took the table from `v` to `w`, or threw and left it. */
  predicate Did(threw: bool, v: View, w: View, m: Option<ServerMsg>) {
    if threw then Handled(v, m) == None && w == v else Handled(v, m) == Some(w)
  }

  class RelayClient {
    var id: nat
    var name: Text
    var connected: bool
    var channels: seq<ChannelView>
    var channelList: seq<Listing>

    function View(): View
      reads this`id, this`name, this`connected, this`channels
    {
      RelayReplica.View(id, name, connected, channels)
    }

    constructor ()
      ensures View() == BlankView && channelList == []
    {
      id, name, connected, channels, channelList := 0xFFFF, [], false, [], [];
    }

    method FindChannelById(wanted: nat) returns (i: nat)
      ensures i == FindChannel(channels, wanted)
    {
      i := 0;
      assert channels[0..] == channels;
      while i < |channels| && channels[i].id != wanted
        invariant i <= |channels| && FindChannel(channels, wanted) == i + FindChannel(channels[i..], wanted)
      {
        assert channels[i..][0] == channels[i] && channels[i..][1..] == channels[i + 1..];
        i := i + 1;
      }
    }

    method FindPeerById(peers: seq<PeerView>, wanted: nat) returns (i: nat)
      ensures i == FindPeer(peers, wanted)
    {
      i := 0;
      assert peers[0..] == peers;
      while i < |peers| && peers[i].id != wanted
        invariant i <= |peers| && FindPeer(peers, wanted) == i + FindPeer(peers[i..], wanted)
      {
        assert peers[i..][0] == peers[i] && peers[i..][1..] == peers[i + 1..];
        i := i + 1;
      }
    }

    /** One peer of a join, or none if it is cut short. */
    method ReadOnePeer(reader: MessageReader) returns (p: Option<PeerInfo>)
      requires reader.Valid() && !reader.failed && reader.Rest() != []
      modifies reader
      ensures reader.Valid() && (p != None ==> !reader.failed && |reader.Rest()| < |old(reader.Rest())|)
      ensures ReadPeers(old(reader.Rest())) == if p == None then [] else [p.value] + ReadPeers(reader.Rest())
    {
      ghost var data := reader.Rest();
      var peerId := reader.GetShort();
      var flags := reader.GetByte();
      var text := reader.GetCounted();
      assert |data| >= 3 ==> data[2..][1..] == data[3..];
      return if reader.failed then None else Some(PeerInfo(peerId, flags, text));
    }

    /** The peers of a join: None if one of them cannot be, which throws. */
    method ReadPeerList(reader: MessageReader) returns (peers: Option<seq<PeerView>>)
      requires reader.Valid() && !reader.failed
      modifies reader
      ensures peers == PeersMade(ReadPeers(old(reader.Rest())))
    {
      hide ReadPeers;
      ghost var infos := ReadPeers(reader.Rest());
      ghost var done: seq<PeerInfo> := [];
      var got: seq<PeerView> := [];
      var more := true;
      assert [] + infos == infos;
      while more && reader.BytesLeft() > 0
        invariant reader.Valid() && (more ==> !reader.failed)
        invariant infos == done + if more then ReadPeers(reader.Rest()) else []
        invariant PeersMade(done) == Some(got)
        decreases more, |reader.Rest()|
      {
        ghost var rest := ReadPeers(reader.Rest());
        var p := ReadOnePeer(reader);
        if p == None {
          more := false;
        } else {
          OnePeerMore(infos, done, rest, p.value, if p == None then [] else ReadPeers(reader.Rest()));
          if p.value.flags > 1 || p.value.name == [] || p.value.name[0] == 0 || |p.value.name| >= 256 {
            return None;
          }
          got := got + [NewPeer(p.value)];
          done := done + [p.value];
        }
      }
      NoPeersLeft();
      assert infos == done;
      return Some(got);
    }

    /** A message as it comes from the frame reader. */
    method MessageHandler(kind: byte, message: seq<byte>) returns (threw: bool)
      modifies this
      ensures Did(threw, old(View()), View(), Read(Frame(kind, message)))
    {
      hide ReadResponse, ReadPeer, ReadBinary;
      var reader := new MessageReader(message);
      threw := false;
      match kind / 16 {
        case 0 => threw := OnResponse(reader, message);
        case 9 => threw := OnPeer(reader);
        case 2 => OnBinary(true, kind % 16, message);
        case 3 => OnBinary(false, kind % 16, message);
        case _ =>
      }
    }

    /** Messages from peers go to the program and leave the table alone. */
    lemma OnBinary(toChannel: bool, variant: byte, data: seq<byte>)
      ensures Handled(View(), ReadBinary(toChannel, variant, data)) == Some(View())
    {
    }

    method OnResponse(reader: MessageReader, ghost payload: seq<byte>) returns (threw: bool)
      requires reader.Valid() && !reader.failed && reader.Rest() == payload
      modifies this, reader
      ensures Did(threw, old(View()), View(),
                  if |payload| < 2 then None else ReadResponse(payload[0], payload[1] != 0, payload[2..]))
    {
      hide ReadJoin;
      threw := false;
      var responseType := reader.GetByte();
      var success := reader.GetByte();
      if reader.failed {
        return;
      }
      assert payload[1..][1..] == payload[2..] && reader.Rest() == payload[2..];
      match responseType {
        case 0 => OnConnect(reader, success != 0);
        case 1 => OnNameSet(reader, success != 0);
        case 2 => threw := OnJoin(reader, success != 0);
        case 3 => OnLeave(reader, success != 0);
        case 4 => OnChannelList(reader);
        case _ =>
      }
    }

    method OnConnect(reader: MessageReader, success: bool)
      requires reader.Valid() && !reader.failed
      modifies this, reader
      ensures Did(false, old(View()), View(), ReadResponse(0, success, old(reader.Rest())))
    {
      if success {
        id := reader.GetShort();
      }
    }

    method OnNameSet(reader: MessageReader, success: bool)
      requires reader.Valid() && !reader.failed
      modifies this, reader
      ensures Did(false, old(View()), View(), ReadResponse(1, success, old(reader.Rest())))
    {
      var text := reader.GetCounted();
      if !reader.failed && success {
        name := text;
      }
    }

    method OnJoin(reader: MessageReader, success: bool) returns (threw: bool)
      requires reader.Valid() && !reader.failed
      modifies this, reader
      ensures Did(threw, old(View()), View(), ReadJoin(success, old(reader.Rest())))
    {
      hide ReadPeers;
      var flags: byte := 0;
      if success {
        flags := reader.GetByte();
      }
      var text := reader.GetCounted();
      if reader.failed || !success {
        return false;
      }
      var channelId := reader.GetShort();
      if reader.failed {
        return false;
      }
      var peers := ReadPeerList(reader);
      if peers == None {
        return true;
      }
      channels := channels + [ChannelView(channelId, text, IsMaster(flags), false, peers.value)];
      return false;
    }

    method OnLeave(reader: MessageReader, success: bool)
      requires reader.Valid() && !reader.failed
      modifies this, reader
      ensures Did(false, old(View()), View(), ReadResponse(3, success, old(reader.Rest())))
    {
      var channelId := reader.GetShort();
      if reader.failed || !success {
        return;
      }
      var i := FindChannelById(channelId);
      if i == |channels| {
        return;
      }
      channels := channels[i := Closed(channels[i])];
      if connected {
        channels := channels[..i] + channels[i + 1..];
      }
    }

    method OnChannelList(reader: MessageReader)
      requires reader.Valid() && !reader.failed
      modifies this, reader
      ensures View() == old(View()) && channelList == ReadListings(old(reader.Rest()))
    {
      hide ReadListings;
      ghost var all := ReadListings(reader.Rest());
      channelList := [];
      var more := true;
      assert [] + all == all;
      while more && reader.BytesLeft() > 0
        invariant reader.Valid() && (more ==> !reader.failed) && View() == old(View())
        invariant all == channelList + if more then ReadListings(reader.Rest()) else []
        decreases more, |reader.Rest()|
      {
        var l := ReadOneListing(reader);
        if l == None {
          more := false;
        } else {
          Regroup(channelList, l.value, ReadListings(reader.Rest()));
          channelList := channelList + [l.value];
        }
      }
      NoListingsLeft();
      assert all == channelList;
    }

    method ReadOneListing(reader: MessageReader) returns (l: Option<Listing>)
      requires reader.Valid() && !reader.failed && reader.Rest() != []
      modifies reader
      ensures reader.Valid() && (l != None ==> !reader.failed && |reader.Rest()| < |old(reader.Rest())|)
      ensures ReadListings(old(reader.Rest())) == if l == None then [] else [l.value] + ReadListings(reader.Rest())
    {
      var peerCount := reader.GetShort();
      var text := reader.GetCounted();
      return if reader.failed then None else Some(Listing(peerCount, text));
    }

    method OnPeer(reader: MessageReader) returns (threw: bool)
      requires reader.Valid() && !reader.failed
      modifies this, reader
      ensures Did(threw, old(View()), View(), ReadPeer(old(reader.Rest())))
    {
      hide Apply;
      var channelId := reader.GetShort();
      if reader.failed {
        return false;
      }
      var i := FindChannelById(channelId);
      if i == |channels| {
        ChannelUnknown(View(), channelId);
        return false;
      }
      ghost var data := reader.Rest();
      var peerId := reader.GetShort();
      var flags := reader.GetByte();
      var text := reader.Get(reader.BytesLeft());
      assert |data| >= 3 ==> data[2..][1..] == data[3..];
      if reader.failed {
        PeerDisconnected(i, peerId);
        return false;
      }
      assert text == data[3..];
      threw := PeerThere(i, PeerInfo(peerId, flags, text));
    }

    lemma ChannelUnknown(v: View, id: nat)
      requires FindChannel(v.channels, id) == |v.channels|
      ensures forall m: ServerMsg | (m.PeerPresent? || m.PeerGone?) && m.channelId == id ::
        Apply(false, v, m) == Some(v)
    {
    }

    /** No flags: the peer must have left the channel. */
    method PeerDisconnected(i: nat, peerId: nat)
      requires i < |channels| && i == FindChannel(channels, channels[i].id)
      modifies this`channels
      ensures Apply(false, old(View()), PeerGone(old(channels[i].id), peerId)) == Some(View())
    {
      var c := channels[i];
      var k := FindPeerById(c.peers, peerId);
      if k < |c.peers| {
        var peers := c.peers[k := c.peers[k].(readonly := true)];
        if connected {
          peers := peers[..k] + peers[k + 1..];
        }
        assert peers == WithoutPeer(connected, c.peers, peerId);
        channels := channels[i := c.(peers := peers)];
      } else {
        assert channels == channels[i := c.(peers := c.peers)];
      }
    }

    /** A new peer, or news of one that is there; its name is compared the wrong
        way round, and so never taken over. */
    method PeerThere(i: nat, p: PeerInfo) returns (threw: bool)
      requires i < |channels| && i == FindChannel(channels, channels[i].id)
      modifies this`channels
      ensures Did(threw, old(View()), View(), Some(PeerPresent(old(channels[i].id), p)))
    {
      var c := channels[i];
      var k := FindPeerById(c.peers, p.id);
      var peers := c.peers;
      if k == |c.peers| {
        if p.flags > 1 || p.name == [] || p.name[0] == 0 || |p.name| >= 256 {
          return true;
        }
        peers := peers + [NewPeer(p)];
      } else {
        var peer := peers[k].(master := IsMaster(p.flags));
        if p.name == peer.name {
          peer := peer.(name := p.name);
        }
        peers := peers[k := peer];
      }
      channels := channels[i := c.(peers := peers)];
      return false;
    }
  }

  lemma Regroup<T>(a: seq<T>, x: T, b: seq<T>)
    ensures a + ([x] + b) == a + [x] + b
  {
  }

  lemma NoListingsLeft()
    ensures ReadListings([]) == []
  {
  }

  lemma NoPeersLeft()
    ensures ReadPeers([]) == []
  {
  }

  /** What a list of peers is made into. */
  function PeersMade(infos: seq<PeerInfo>): Option<seq<PeerView>> {
    if exists p <- infos :: !PeerAllowed(p) then None else Some(NewPeers(infos))
  }

  lemma OnePeerMore(infos: seq<PeerInfo>, done: seq<PeerInfo>, rest: seq<PeerInfo>, p: PeerInfo, left: seq<PeerInfo>)
    requires infos == done + rest && rest == [p] + left && PeersMade(done) != None
    ensures infos == done + [p] + left
    ensures PeerAllowed(p) ==> PeersMade(done + [p]) == Some(PeersMade(done).value + [NewPeer(p)])
    ensures !PeerAllowed(p) ==> PeersMade(infos) == None
  {
    assert infos == done + [p] + left;
    assert p in infos;
    assert NewPeers(done + [p]) == NewPeers(done) + [NewPeer(p)];
  }
}
