/** The names a client knows its peers by, as coded: those it was first told. */
module RelayNames {
  import opened RelayMessages
  import opened RelayReplica
  import opened Wrappers

  /** A message as if nobody had been renamed: of a peer that is known it tells the
      name it is known by. */
  function Unrename(v: View, m: ServerMsg): ServerMsg {
    if Renames(v, m) then
      var c := v.channels[FindChannel(v.channels, m.channelId)];
      m.(peer := m.peer.(name := c.peers[FindPeer(c.peers, m.peer.id)].name))
    else m
  }

  /** Messages, each as it is to a client that has taken in those before. */
  function Unrenamed(v: View, ms: seq<ServerMsg>): seq<ServerMsg>
    decreases |ms|
  {
    if ms == [] then []
    else
      match Apply(false, v, ms[0])
      case None => ms
      case Some(w) => [Unrename(v, ms[0])] + Unrenamed(w, ms[1..])
  }

  lemma UnrenameIsCoded(v: View, m: ServerMsg)
    ensures Apply(false, v, m) == Apply(true, v, Unrename(v, m))
  {
    if Renames(v, m) {
      var i := FindChannel(v.channels, m.channelId);
      var c := v.channels[i];
      assert WithPeer(false, c.peers, m.peer) == WithPeer(true, c.peers, Unrename(v, m).peer);
    } else {
      RenameDeviation(v, m);
    }
  }

  /** As coded, the table is just what was meant had nobody ever been renamed: each
      peer keeps the name it was first told by. */
  lemma {:induction false} AsIfUnrenamed(v: View, ms: seq<ServerMsg>)
    ensures ApplyAll(false, v, ms) == ApplyAll(true, v, Unrenamed(v, ms))
    decreases |ms|
  {
    if ms != [] {
      UnrenameIsCoded(v, ms[0]);
      match Apply(false, v, ms[0])
      case None =>
      case Some(w) =>
        AsIfUnrenamed(w, ms[1..]);
        ApplyAllCons(true, v, Unrename(v, ms[0]), Unrenamed(w, ms[1..]));
    }
  }

  ghost predicate Knows(v: View, id: nat, peerId: nat) {
    var i := FindChannel(v.channels, id);
    i < |v.channels| && FindPeer(v.channels[i].peers, peerId) < |v.channels[i].peers|
  }

  ghost function NameKnown(v: View, id: nat, peerId: nat): Text
    requires Knows(v, id, peerId)
  {
    var c := v.channels[FindChannel(v.channels, id)];
    c.peers[FindPeer(c.peers, peerId)].name
  }

  /** Channels have different ids, and so do the peers on each. */
  ghost predicate Unambiguous(v: View) {
    && (forall i, j | 0 <= i < j < |v.channels| :: v.channels[i].id != v.channels[j].id)
    && forall i | 0 <= i < |v.channels| :: DistinctPeers(v.channels[i].peers)
  }

  ghost predicate DistinctPeers(ps: seq<PeerView>) {
    forall j, k | 0 <= j < k < |ps| :: ps[j].id != ps[k].id
  }

  /** And so it does: a peer that is known before and after a message is known by
      the same name. */
  lemma NameStays(v: View, m: ServerMsg, id: nat, peerId: nat)
    requires Unambiguous(v) && Knows(v, id, peerId) && Apply(false, v, m) != None
    ensures var w := Apply(false, v, m).value;
      Knows(w, id, peerId) ==> NameKnown(w, id, peerId) == NameKnown(v, id, peerId)
  {
    var w, i := Apply(false, v, m).value, FindChannel(v.channels, id);
    if Knows(w, id, peerId) {
      ChannelStays(v, m, id);
      PeerStays(v.connected, v.channels[i].peers, w.channels[FindChannel(w.channels, id)].peers, m, peerId);
    }
  }

  /** What a message can make of the peers on a channel that stays. */
  ghost predicate PeersAfter(connected: bool, ps: seq<PeerView>, qs: seq<PeerView>, m: ServerMsg) {
    || SameNames(ps, qs)
    || (m.PeerPresent? && qs == WithPeer(false, ps, m.peer))
    || (m.PeerGone? && qs == WithoutPeer(connected, ps, m.peerId))
  }

  ghost predicate SameNames(ps: seq<PeerView>, qs: seq<PeerView>) {
    |ps| == |qs| && forall k | 0 <= k < |ps| :: ps[k].id == qs[k].id && ps[k].name == qs[k].name
  }

  /** Of another channel's being gone, or of its own's change, a channel's place. */
  lemma ChannelStays(v: View, m: ServerMsg, id: nat)
    requires Unambiguous(v) && Apply(false, v, m) != None
    requires FindChannel(v.channels, id) < |v.channels|
    ensures var w, i := Apply(false, v, m).value, FindChannel(v.channels, id);
      var j := FindChannel(w.channels, id);
      j < |w.channels| ==> PeersAfter(v.connected, v.channels[i].peers, w.channels[j].peers, m)
  {
    hide WithPeer, WithoutPeer, DistinctPeers, PeerAllowed;
    var i := FindChannel(v.channels, id);
    if m.LeaveOk? && v.connected {
      ChannelLeft(v, m.channelId, i);
    } else {
      ChannelChanged(v, m, i);
    }
  }

  lemma ChannelLeft(v: View, left: nat, i: nat)
    requires Unambiguous(v) && v.connected && i < |v.channels|
    ensures var w, id := Apply(false, v, LeaveOk(left)).value, v.channels[i].id;
      var j := FindChannel(w.channels, id);
      j < |w.channels| ==> w.channels[j] == v.channels[i]
  {
    var w, id, k := Apply(false, v, LeaveOk(left)).value, v.channels[i].id, FindChannel(v.channels, left);
    var j := FindChannel(w.channels, id);
    if k < |v.channels| && j < |w.channels| {
      assert w.channels[j] == v.channels[if j < k then j else j + 1];
    }
  }

  lemma ChannelChanged(v: View, m: ServerMsg, i: nat)
    requires Unambiguous(v) && i < |v.channels| && (m.LeaveOk? ==> !v.connected) && Apply(false, v, m) != None
    ensures var w, id := Apply(false, v, m).value, v.channels[i].id;
      var j := FindChannel(w.channels, id);
      j == i && PeersAfter(v.connected, v.channels[i].peers, w.channels[j].peers, m)
  {
    hide WithPeer, WithoutPeer, DistinctPeers, PeerAllowed;
    var w := Apply(false, v, m).value;
    assert forall k | 0 <= k < |v.channels| :: w.channels[k].id == v.channels[k].id;
    assert FindChannel(v.channels, v.channels[i].id) == i;
  }

  /** The peer of that id, if there was one, had that name. */
  ghost predicate Carried(ps: seq<PeerView>, q: PeerView) {
    forall i | 0 <= i < |ps| && ps[i].id == q.id :: ps[i].name == q.name
  }

  lemma AllCarried(connected: bool, ps: seq<PeerView>, qs: seq<PeerView>, m: ServerMsg, j: nat)
    requires PeersAfter(connected, ps, qs, m) && DistinctPeers(ps) && j < |qs|
    ensures Carried(ps, qs[j])
  {
    hide FindPeer;
    if m.PeerGone? && qs == WithoutPeer(connected, ps, m.peerId) {
      var k := FindPeer(ps, m.peerId);
      if connected && k < |ps| {
        assert qs[j] == ps[if j < k then j else j + 1];
      }
    }
  }

  lemma PeerStays(connected: bool, ps: seq<PeerView>, qs: seq<PeerView>, m: ServerMsg, peerId: nat)
    requires PeersAfter(connected, ps, qs, m) && DistinctPeers(ps)
    requires FindPeer(ps, peerId) < |ps| && FindPeer(qs, peerId) < |qs|
    ensures qs[FindPeer(qs, peerId)].name == ps[FindPeer(ps, peerId)].name
  {
    AllCarried(connected, ps, qs, m, FindPeer(qs, peerId));
  }
}
