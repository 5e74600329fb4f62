/** What a client makes of the server's messages: its own table of channels and
    of the peers on them. */
module RelayReplica {
  import opened RelayMessages
  import opened Seqs
  import opened Wrappers

  datatype PeerView = PeerView(id: nat, master: bool, name: Text, readonly: bool)
  datatype ChannelView = ChannelView(id: nat, name: Text, master: bool, readonly: bool, peers: seq<PeerView>)
  datatype View = View(id: nat, name: Text, connected: bool, channels: seq<ChannelView>)

  const BlankView := View(0xFFFF, [], false, [])

  /** First channel with this id, or the number of channels. */
  function FindChannel(cs: seq<ChannelView>, id: nat): (i: nat)
    ensures i <= |cs|
    ensures i < |cs| ==> cs[i].id == id
    ensures forall j | 0 <= j < i :: cs[j].id != id
  {
    if cs == [] then 0 else if cs[0].id == id then 0 else 1 + FindChannel(cs[1..], id)
  }

  /** First peer with this id, or the number of peers. */
  function FindPeer(ps: seq<PeerView>, id: nat): (i: nat)
    ensures i <= |ps|
    ensures i < |ps| ==> ps[i].id == id
    ensures forall j | 0 <= j < i :: ps[j].id != id
  {
    if ps == [] then 0 else if ps[0].id == id then 0 else 1 + FindPeer(ps[1..], id)
  }

  /** A peer record is made only of an id, a known flag and a printable name;
      anything else throws. */
  predicate PeerAllowed(p: PeerInfo) {
    p.flags <= 1 && 0 < |p.name| < 256 && p.name[0] != 0
  }

  function NewPeer(p: PeerInfo): PeerView {
    PeerView(p.id, IsMaster(p.flags), p.name, false)
  }

  function NewPeers(ps: seq<PeerInfo>): (r: seq<PeerView>)
    ensures |r| == |ps|
    ensures forall i | 0 <= i < |ps| :: r[i] == NewPeer(ps[i])
  {
    seq(|ps|, i requires 0 <= i < |ps| => NewPeer(ps[i]))
  }

  function Closed(c: ChannelView): ChannelView {
    c.(readonly := true,
       peers := seq(|c.peers|, i requires 0 <= i < |c.peers| => c.peers[i].(readonly := true)))
  }

  function WithPeer(asMeant: bool, ps: seq<PeerView>, peer: PeerInfo): seq<PeerView> {
    var k := FindPeer(ps, peer.id);
    if k == |ps| then ps + [NewPeer(peer)]
    else ps[k := ps[k].(master := IsMaster(peer.flags), name := if asMeant then peer.name else ps[k].name)]
  }

  function WithoutPeer(connected: bool, ps: seq<PeerView>, peerId: nat): seq<PeerView> {
    var k := FindPeer(ps, peerId);
    if k == |ps| then ps
    else if connected then RemoveAt(ps, k)
    else ps[k := ps[k].(readonly := true)]
  }

  /** The client's table after a message; None when handling it throws.  The
      name comparison of the rename branch is inverted in the program, so that a
      changed name is never taken over; `asMeant` says which way to read it. */
  function Apply(asMeant: bool, v: View, m: ServerMsg): Option<View> {
    match m
    case ConnectOk(id, _) => Some(v.(id := id))
    case NameOk(name) => Some(v.(name := name))
    case JoinOk(flags, name, channelId, peers) =>
      if exists p <- peers :: !PeerAllowed(p) then None
      else Some(v.(channels := v.channels + [ChannelView(channelId, name, IsMaster(flags), false, NewPeers(peers))]))
    case LeaveOk(channelId) =>
      var i := FindChannel(v.channels, channelId);
      if i == |v.channels| then Some(v)
      else if !v.connected then Some(v.(channels := v.channels[i := Closed(v.channels[i])]))
      else Some(v.(channels := RemoveAt(v.channels, i)))
    case PeerPresent(channelId, peer) =>
      var i := FindChannel(v.channels, channelId);
      if i == |v.channels| then Some(v)
      else
        var c := v.channels[i];
        if FindPeer(c.peers, peer.id) == |c.peers| && !PeerAllowed(peer) then None
        else Some(v.(channels := v.channels[i := c.(peers := WithPeer(asMeant, c.peers, peer))]))
    case PeerGone(channelId, peerId) =>
      var i := FindChannel(v.channels, channelId);
      if i == |v.channels| then Some(v)
      else
        var c := v.channels[i];
        Some(v.(channels := v.channels[i := c.(peers := WithoutPeer(v.connected, c.peers, peerId))]))
    case _ => Some(v)
  }

  function ApplyAll(asMeant: bool, v: View, ms: seq<ServerMsg>): Option<View>
    decreases |ms|
  {
    if ms == [] then Some(v)
    else
      match Apply(asMeant, v, ms[0])
      case None => None
      case Some(w) => ApplyAll(asMeant, w, ms[1..])
  }

  lemma {:induction false} ApplyAllAppend(asMeant: bool, v: View, ms: seq<ServerMsg>, ns: seq<ServerMsg>)
    ensures ApplyAll(asMeant, v, ms + ns) ==
            match ApplyAll(asMeant, v, ms) case None => None case Some(w) => ApplyAll(asMeant, w, ns)
    decreases |ms|
  {
    if ms == [] {
      assert ms + ns == ns;
    } else {
      assert (ms + ns)[0] == ms[0] && (ms + ns)[1..] == ms[1..] + ns;
      match Apply(asMeant, v, ms[0])
      case None =>
      case Some(w) => ApplyAllAppend(asMeant, w, ms[1..], ns);
    }
  }

  lemma ApplyAllCons(asMeant: bool, v: View, m: ServerMsg, ms: seq<ServerMsg>)
    requires Apply(asMeant, v, m) != None
    ensures ApplyAll(asMeant, v, [m] + ms) == ApplyAll(asMeant, Apply(asMeant, v, m).value, ms)
  {
    assert ([m] + ms)[0] == m && ([m] + ms)[1..] == ms;
  }

  lemma ApplyAllOne(asMeant: bool, v: View, ms: seq<ServerMsg>, m: ServerMsg)
    ensures ApplyAll(asMeant, v, ms + [m]) ==
            match ApplyAll(asMeant, v, ms) case None => None case Some(w) => Apply(asMeant, w, m)
  {
    ApplyAllAppend(asMeant, v, ms, [m]);
    match ApplyAll(asMeant, v, ms)
    case None =>
    case Some(w) =>
      assert [m][1..] == [];
      if Apply(asMeant, w, m) != None {
        assert ApplyAll(asMeant, Apply(asMeant, w, m).value, []) == Apply(asMeant, w, m);
      }
  }

  /* ---- what a message does to a known channel ---- */

  lemma ApplyJoin(v: View, m: ServerMsg)
    requires m.JoinOk? && forall p <- m.peers :: PeerAllowed(p)
    ensures Apply(true, v, m) ==
      Some(v.(channels := v.channels + [ChannelView(m.channelId, m.name, IsMaster(m.flags), false, NewPeers(m.peers))]))
  {
  }

  lemma ApplyLeave(v: View, i: nat, m: ServerMsg)
    requires m.LeaveOk? && v.connected && i < |v.channels| && FindChannel(v.channels, m.channelId) == i
    ensures Apply(true, v, m) == Some(v.(channels := RemoveAt(v.channels, i)))
  {
  }

  lemma ApplyPeer(v: View, i: nat, m: ServerMsg)
    requires m.PeerPresent? && i < |v.channels| && FindChannel(v.channels, m.channelId) == i
    requires PeerAllowed(m.peer)
    ensures Apply(true, v, m) ==
      Some(v.(channels := v.channels[i := v.channels[i].(peers := WithPeer(true, v.channels[i].peers, m.peer))]))
  {
  }

  lemma ApplyGone(v: View, i: nat, m: ServerMsg)
    requires m.PeerGone? && v.connected && i < |v.channels| && FindChannel(v.channels, m.channelId) == i
    ensures Apply(true, v, m) ==
      Some(v.(channels := v.channels[i := v.channels[i].(peers := WithoutPeer(true, v.channels[i].peers, m.peerId))]))
  {
  }

  /* ---- the inverted comparison ---- */

  /** A message that tells of another name for a peer already known. */
  predicate Renames(v: View, m: ServerMsg) {
    && m.PeerPresent?
    && var i := FindChannel(v.channels, m.channelId);
    && i < |v.channels|
    && var k := FindPeer(v.channels[i].peers, m.peer.id);
    && k < |v.channels[i].peers|
    && v.channels[i].peers[k].name != m.peer.name
  }

  /** Handling a message does what was meant exactly when it renames nobody. */
  lemma RenameDeviation(v: View, m: ServerMsg)
    ensures Apply(false, v, m) == Apply(true, v, m) <==> !Renames(v, m)
  {
    if m.PeerPresent? {
      var i := FindChannel(v.channels, m.channelId);
      if i < |v.channels| {
        var c := v.channels[i];
        var k := FindPeer(c.peers, m.peer.id);
        if k < |c.peers| {
          var coded, meant := Apply(false, v, m).value, Apply(true, v, m).value;
          assert !Renames(v, m) ==> WithPeer(false, c.peers, m.peer) == WithPeer(true, c.peers, m.peer);
          assert coded.channels[i].peers[k].name == c.peers[k].name;
          assert meant.channels[i].peers[k].name == m.peer.name;
        }
      }
    }
  }

  predicate SamePeers(ps: seq<PeerView>, qs: seq<PeerView>) {
    |ps| == |qs| && forall k | 0 <= k < |ps| :: ps[k].(name := []) == qs[k].(name := [])
  }

  predicate SameChannel(c: ChannelView, d: ChannelView) {
    c.(peers := []) == d.(peers := []) && SamePeers(c.peers, d.peers)
  }

  /** Equal up to the names of peers. */
  predicate SameButNames(v: View, w: View) {
    && v.(channels := []) == w.(channels := [])
    && |v.channels| == |w.channels|
    && forall i | 0 <= i < |v.channels| :: SameChannel(v.channels[i], w.channels[i])
  }

  lemma SameFindPeer(ps: seq<PeerView>, qs: seq<PeerView>, id: nat)
    requires SamePeers(ps, qs)
    ensures FindPeer(ps, id) == FindPeer(qs, id)
  {
    var i, j := FindPeer(ps, id), FindPeer(qs, id);
    assert i < |ps| ==> ps[i].(name := []) == qs[i].(name := []);
    assert j < |qs| ==> ps[j].(name := []) == qs[j].(name := []);
  }

  lemma SameFindChannel(v: View, w: View, id: nat)
    requires SameButNames(v, w)
    ensures FindChannel(v.channels, id) == FindChannel(w.channels, id)
  {
    var i, j := FindChannel(v.channels, id), FindChannel(w.channels, id);
    assert i < |v.channels| ==> SameChannel(v.channels[i], w.channels[i]);
    assert j < |w.channels| ==> SameChannel(v.channels[j], w.channels[j]);
  }

  ghost predicate SameOutcome(a: Option<View>, b: Option<View>) {
    match (a, b)
    case (None, None) => true
    case (Some(v), Some(w)) => SameButNames(v, w)
    case _ => false
  }

  lemma SamePeersAfter(connected: bool, ps: seq<PeerView>, qs: seq<PeerView>, m: ServerMsg)
    requires SamePeers(ps, qs) && (m.PeerPresent? || m.PeerGone?)
    ensures m.PeerPresent? ==>
      && SamePeers(WithPeer(false, ps, m.peer), WithPeer(true, qs, m.peer))
      && (FindPeer(ps, m.peer.id) == |ps| <==> FindPeer(qs, m.peer.id) == |qs|)
    ensures m.PeerGone? ==> SamePeers(WithoutPeer(connected, ps, m.peerId), WithoutPeer(connected, qs, m.peerId))
  {
    SameFindPeer(ps, qs, if m.PeerGone? then m.peerId else m.peer.id);
  }

  /** Whatever becomes of names, the two readings agree on everything else. */
  lemma ReadingsAgree(v: View, w: View, m: ServerMsg)
    requires SameButNames(v, w)
    ensures SameOutcome(Apply(false, v, m), Apply(true, w, m))
  {
    hide FindPeer, FindChannel, WithPeer, WithoutPeer;
    if m.LeaveOk? || m.PeerPresent? || m.PeerGone? {
      SameFindChannel(v, w, m.channelId);
      var i := FindChannel(v.channels, m.channelId);
      if i < |v.channels| && !m.LeaveOk? {
        assert SameChannel(v.channels[i], w.channels[i]);
        SamePeersAfter(v.connected, v.channels[i].peers, w.channels[i].peers, m);
      }
    }
  }

  lemma {:induction false} ReadingsAgreeThroughout(v: View, w: View, ms: seq<ServerMsg>)
    requires SameButNames(v, w)
    ensures SameOutcome(ApplyAll(false, v, ms), ApplyAll(true, w, ms))
    decreases |ms|
  {
    if ms != [] {
      ReadingsAgree(v, w, ms[0]);
      if Apply(false, v, ms[0]) != None {
        ReadingsAgreeThroughout(Apply(false, v, ms[0]).value, Apply(true, w, ms[0]).value, ms[1..]);
      }
    }
  }
}
