/** What a client's table should be: the channels it is on, and who else is. */
module RelayTruth {
  import opened RelayMessages
  import opened RelayReplica
  import opened RelayState
  import opened Seqs
  import opened Wrappers

  ghost function PeerOf(s: Server, h: Channel, p: Client): PeerView
    requires h in s.ch && p in s.cl
  {
    PeerView(s.cl[p].id, s.ch[h].master == Some(p), s.cl[p].name, false)
  }

  ghost function PeersOf(s: Server, h: Channel, ps: seq<Client>): (r: seq<PeerView>)
    requires h in s.ch && forall p <- ps :: p in s.cl
    ensures |r| == |ps| && forall i | 0 <= i < |ps| :: r[i] == PeerOf(s, h, ps[i])
  {
    seq(|ps|, i requires 0 <= i < |ps| => PeerOf(s, h, ps[i]))
  }

  /** The channel as one of its members should see it. */
  ghost function ChannelOf(s: Server, h: Channel, c: Client): ChannelView
    requires h in s.ch && forall p <- s.ch[h].clients :: p in s.cl
  {
    RemoveSubset(s.ch[h].clients, c);
    ChannelView(s.ch[h].id, s.ch[h].name, s.ch[h].master == Some(c), false, PeersOf(s, h, Remove(s.ch[h].clients, c)))
  }

  lemma RemoveSubset<T>(s: seq<T>, x: T)
    ensures forall y <- Remove(s, x) :: y in s
  {
  }

  ghost function ChannelsOf(s: Server, hs: seq<Channel>, c: Client): (r: seq<ChannelView>)
    requires Alive(s) && forall h <- hs :: h in s.ch
    ensures |r| == |hs| && forall i | 0 <= i < |hs| :: r[i] == ChannelOf(s, hs[i], c)
  {
    seq(|hs|, i requires 0 <= i < |hs| => ChannelOf(s, hs[i], c))
  }

  ghost function Truth(s: Server, c: Client): seq<ChannelView>
    requires Alive(s) && c in s.cl
  {
    ChannelsOf(s, s.cl[c].channels, c)
  }

  /* ---- ids find what they should ---- */

  lemma FindChannelIn(s: Server, hs: seq<Channel>, cs: seq<ChannelView>, h: Channel)
    requires Numbered(s) && h in s.ch && forall k <- hs :: k in s.ch
    requires |cs| == |hs| && forall i | 0 <= i < |hs| :: cs[i].id == s.ch[hs[i]].id
    ensures FindChannel(cs, s.ch[h].id) == IndexOf(hs, h)
  {
    assert forall k | 0 <= k < |hs| :: hs[k] == h <==> cs[k].id == s.ch[h].id;
  }

  lemma FindChannelAt(s: Server, hs: seq<Channel>, c: Client, h: Channel)
    requires Alive(s) && Numbered(s) && h in s.ch && forall k <- hs :: k in s.ch
    ensures FindChannel(ChannelsOf(s, hs, c), s.ch[h].id) == IndexOf(hs, h)
  {
    FindChannelIn(s, hs, ChannelsOf(s, hs, c), h);
  }

  lemma FindPeerAt(s: Server, h: Channel, ps: seq<Client>, p: Client)
    requires Numbered(s) && h in s.ch && p in s.cl && forall q <- ps :: q in s.cl
    ensures FindPeer(PeersOf(s, h, ps), s.cl[p].id) == IndexOf(ps, p)
  {
    var vs, id := PeersOf(s, h, ps), s.cl[p].id;
    assert forall k | 0 <= k < |ps| :: vs[k].id == s.cl[ps[k]].id;
    assert forall k | 0 <= k < |ps| :: ps[k] == p <==> vs[k].id == id;
  }

  /* ---- what changes in a table ---- */

  /** To `c`, the channel looks the same in both states. */
  ghost predicate SameLook(s: Server, t: Server, h: Channel) {
    && h in s.ch && h in t.ch
    && t.ch[h].id == s.ch[h].id && t.ch[h].name == s.ch[h].name
    && t.ch[h].master == s.ch[h].master && t.ch[h].clients == s.ch[h].clients
    && forall p <- s.ch[h].clients :: p in s.cl && p in t.cl && t.cl[p].id == s.cl[p].id && t.cl[p].name == s.cl[p].name
  }

  lemma SameLookSame(s: Server, t: Server, h: Channel, c: Client)
    requires SameLook(s, t, h)
    ensures ChannelOf(t, h, c) == ChannelOf(s, h, c)
  {
    RemoveSubset(s.ch[h].clients, c);
    var ps := Remove(s.ch[h].clients, c);
    assert PeersOf(t, h, ps) == PeersOf(s, h, ps);
  }

  lemma TruthSame(s: Server, t: Server, c: Client)
    requires Alive(s) && Alive(t) && c in s.cl && c in t.cl
    requires t.cl[c].channels == s.cl[c].channels
    requires forall h <- s.cl[c].channels :: SameLook(s, t, h)
    ensures Truth(t, c) == Truth(s, c)
  {
    forall h <- s.cl[c].channels ensures ChannelOf(t, h, c) == ChannelOf(s, h, c) {
      SameLookSame(s, t, h, c);
    }
  }

  lemma TruthUpdated(s: Server, t: Server, c: Client, h: Channel)
    requires Alive(s) && Alive(t) && c in s.cl && c in t.cl && Linked(s)
    requires t.cl[c].channels == s.cl[c].channels && h in s.cl[c].channels
    requires forall k <- s.cl[c].channels :: k != h ==> SameLook(s, t, k)
    ensures var i := IndexOf(s.cl[c].channels, h);
      i < |Truth(s, c)| && Truth(t, c) == Truth(s, c)[i := ChannelOf(t, h, c)]
  {
    hide ChannelOf, SameLook;
    forall k <- s.cl[c].channels | k != h ensures ChannelOf(t, k, c) == ChannelOf(s, k, c) {
      SameLookSame(s, t, k, c);
    }
  }

  lemma TruthWithout(s: Server, t: Server, c: Client, h: Channel)
    requires Alive(s) && Alive(t) && c in s.cl && c in t.cl && Linked(s)
    requires t.cl[c].channels == Remove(s.cl[c].channels, h) && h in s.cl[c].channels
    requires forall k <- s.cl[c].channels :: k != h ==> SameLook(s, t, k)
    ensures var i := IndexOf(s.cl[c].channels, h);
      i < |Truth(s, c)| && Truth(t, c) == RemoveAt(Truth(s, c), i)
  {
    hide ChannelOf, SameLook, IndexOf;
    var hs, i := s.cl[c].channels, IndexOf(s.cl[c].channels, h);
    forall j | 0 <= j < |hs| - 1 ensures Truth(t, c)[j] == Truth(s, c)[if j < i then j else j + 1] {
      var k := hs[if j < i then j else j + 1];
      assert t.cl[c].channels[j] == k && k != h;
      SameLookSame(s, t, k, c);
    }
  }

  lemma TruthWith(s: Server, t: Server, c: Client, h: Channel)
    requires Alive(s) && Alive(t) && c in s.cl && c in t.cl
    requires t.cl[c].channels == s.cl[c].channels + [h]
    requires forall k <- s.cl[c].channels :: SameLook(s, t, k)
    ensures Truth(t, c) == Truth(s, c) + [ChannelOf(t, h, c)]
  {
    forall k <- s.cl[c].channels ensures ChannelOf(t, k, c) == ChannelOf(s, k, c) {
      SameLookSame(s, t, k, c);
    }
  }

  /* ---- keeping a table true ---- */

  ghost predicate Synced(s: Server, c: Client, v: View)
    requires Alive(s) && c in s.cl
  {
    && v.connected && v.channels == Truth(s, c) && v.name == s.cl[c].name
    && (s.cl[c].approved ==> v.id == s.cl[c].id)
  }

  /** Taking in `ms` leaves the table true of `t`. */
  ghost predicate Leads(v: View, ms: seq<ServerMsg>, t: Server, c: Client)
    requires Alive(t) && c in t.cl
  {
    match ApplyAll(true, v, ms)
    case None => false
    case Some(w) => Synced(t, c, w)
  }

  /** What has been sent to `c` between `s` and `t` takes a table true of `s` to
      one true of `t`, unless `c` is on its way out. */
  ghost predicate Follows(s: Server, t: Server, c: Client)
    requires Alive(s) && Alive(t) && c in s.cl && c in t.cl
  {
    t.cl[c].readonly ||
    (!s.cl[c].readonly && s.cl[c].sent <= t.cl[c].sent &&
     forall v :: Synced(s, c, v) ==> Leads(v, t.cl[c].sent[|s.cl[c].sent|..], t, c))
  }

  ghost predicate AllFollow(s: Server, t: Server) {
    Alive(s) && Alive(t) && forall c <- s.cl :: c in t.cl ==> Follows(s, t, c)
  }

  lemma FollowsOne(s: Server, t: Server, c: Client, m: ServerMsg)
    requires Alive(s) && Alive(t) && c in s.cl && c in t.cl
    requires !s.cl[c].readonly && t.cl[c].sent == s.cl[c].sent + [m]
    requires forall v | Synced(s, c, v) :: Apply(true, v, m) != None && Synced(t, c, Apply(true, v, m).value)
    ensures Follows(s, t, c)
  {
    assert t.cl[c].sent[|s.cl[c].sent|..] == [m];
    forall v | Synced(s, c, v) ensures Leads(v, [m], t, c) {
      ApplyAllOne(true, v, [], m);
      assert [] + [m] == [m];
    }
  }

  /** One message, which the table needs and which changes nothing else. */
  lemma FollowsTable(s: Server, t: Server, c: Client, m: ServerMsg)
    requires Alive(s) && Alive(t) && c in s.cl && c in t.cl
    requires !s.cl[c].readonly && t.cl[c].sent == s.cl[c].sent + [m]
    requires t.cl[c].name == s.cl[c].name && t.cl[c].id == s.cl[c].id && t.cl[c].approved == s.cl[c].approved
    requires forall v: View | v.connected && v.channels == Truth(s, c) ::
      Apply(true, v, m) == Some(v.(channels := Truth(t, c)))
    ensures Follows(s, t, c)
  {
    FollowsOne(s, t, c, m);
  }

  lemma FollowsNone(s: Server, t: Server, c: Client)
    requires Alive(s) && Alive(t) && c in s.cl && c in t.cl
    requires t.cl[c].sent == s.cl[c].sent && t.cl[c].channels == s.cl[c].channels
    requires t.cl[c].name == s.cl[c].name && t.cl[c].id == s.cl[c].id && t.cl[c].approved == s.cl[c].approved
    requires s.cl[c].readonly ==> t.cl[c].readonly
    requires forall h <- s.cl[c].channels :: SameLook(s, t, h)
    ensures Follows(s, t, c)
  {
    TruthSame(s, t, c);
    assert t.cl[c].sent[|s.cl[c].sent|..] == [];
  }

  lemma FollowsTransitive(s: Server, t: Server, u: Server, c: Client)
    requires Alive(s) && Alive(t) && Alive(u) && c in s.cl && c in t.cl && c in u.cl
    requires Follows(s, t, c) && Follows(t, u, c)
    ensures Follows(s, u, c)
  {
    if !u.cl[c].readonly {
      var a, b, d := s.cl[c].sent, t.cl[c].sent, u.cl[c].sent;
      assert d[|a|..] == b[|a|..] + d[|b|..];
      forall v | Synced(s, c, v) ensures Leads(v, d[|a|..], u, c) {
        ApplyAllAppend(true, v, b[|a|..], d[|b|..]);
      }
    }
  }
}
