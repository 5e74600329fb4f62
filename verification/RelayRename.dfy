/** A client changes its name: the others hear of it channel by channel. */
module RelayRename {
  import opened RelayConvergence
  import opened RelayInvariant
  import opened RelayMessages
  import opened RelayOps
  import opened RelayReplica
  import opened RelayState
  import opened RelaySteps
  import opened RelayTruth
  import opened Seqs
  import opened Wrappers

  /** What `d` is told while `c`'s new name is announced on the channels `hs`. */
  ghost function Told(s: Server, c: Client, hs: seq<Channel>, d: Client): seq<ServerMsg>
    requires c in s.cl && d in s.cl && forall h <- hs :: h in s.ch
    decreases |hs|
  {
    if hs == [] then []
    else
      var h := hs[0];
      (if d in Remove(s.ch[h].clients, c) && !s.cl[d].readonly then [PeerPresent(s.ch[h].id, Info(s, h, c))] else [])
      + Told(s, c, hs[1..], d)
  }

  /** Told depends on no log. */
  lemma {:induction false} ToldSame(s: Server, t: Server, c: Client, hs: seq<Channel>, d: Client)
    requires c in s.cl && d in s.cl && forall h <- hs :: h in s.ch
    requires Quiet(s, t) && t.cl[d].readonly == s.cl[d].readonly
    ensures Told(t, c, hs, d) == Told(s, c, hs, d)
    decreases |hs|
  {
    if hs != [] { ToldSame(s, t, c, hs[1..], d); }
  }

  lemma {:induction false} AnnounceTells(s: Server, c: Client, hs: seq<Channel>, d: Client)
    requires c in s.cl && d in s.cl && forall h <- hs :: h in s.ch
    ensures Quiet(s, Announce(s, c, hs))
    ensures Announce(s, c, hs).cl[d] == s.cl[d].(sent := s.cl[d].sent + Told(s, c, hs, d))
    decreases |hs|
  {
    hide Info, Remove;
    AnnounceQuiet(s, c, hs);
    if hs == [] {
      assert s.cl[d].sent + [] == s.cl[d].sent;
    } else {
      var h := hs[0];
      var m := PeerPresent(s.ch[h].id, Info(s, h, c));
      var t := SendAll(s, Remove(s.ch[h].clients, c), m);
      SendAllQuiet(s, Remove(s.ch[h].clients, c), m);
      AnnounceTells(t, c, hs[1..], d);
      ToldSame(s, t, c, hs[1..], d);
      var told := if d in Remove(s.ch[h].clients, c) && !s.cl[d].readonly then [m] else [];
      assert t.cl[d].sent == s.cl[d].sent + told;
      assert Told(s, c, hs, d) == told + Told(s, c, hs[1..], d);
      Grouped(s.cl[d].sent, told, Told(s, c, hs[1..], d));
    }
  }

  /** From `s` to `t` only `c`'s name, and logs, have changed. */
  ghost predicate OnlyName(s: Server, t: Server, c: Client) {
    && t == s.(cl := t.cl) && t.cl.Keys == s.cl.Keys && c in s.cl
    && (forall d <- s.cl :: t.cl[d] == s.cl[d].(name := t.cl[d].name, sent := t.cl[d].sent))
    && (forall d <- s.cl :: d != c ==> t.cl[d].name == s.cl[d].name)
  }

  ghost function LookMid(s: Server, t: Server, d: Client, hs: seq<Channel>, k: Channel): ChannelView
    requires Alive(s) && Alive(t) && t.ch == s.ch && k in s.ch
  {
    ChannelOf(if k in hs then s else t, k, d)
  }

  /** `d`'s table when `hs` are the channels where it has yet to hear. */
  ghost function TruthMid(s: Server, t: Server, d: Client, hs: seq<Channel>): (r: seq<ChannelView>)
    requires Alive(s) && Alive(t) && d in s.cl && t.ch == s.ch
    ensures |r| == |s.cl[d].channels|
    ensures forall i | 0 <= i < |r| :: r[i] == LookMid(s, t, d, hs, s.cl[d].channels[i])
  {
    var ks := s.cl[d].channels;
    seq(|ks|, i requires 0 <= i < |ks| => LookMid(s, t, d, hs, ks[i]))
  }

  lemma PeersRenamed(s: Server, t: Server, h: Channel, c: Client, others: seq<Client>)
    requires Numbered(s) && OnlyName(s, t, c) && h in s.ch && c in others && NoDup(others)
    requires forall p <- others :: p in s.cl
    ensures PeersOf(t, h, others) == WithPeer(true, PeersOf(s, h, others), Info(t, h, c))
  {
    hide Linked, OpenBut, Numbered, Named;
    FindPeerAt(s, h, others, c);
    var k, ps := IndexOf(others, c), WithPeer(true, PeersOf(s, h, others), Info(t, h, c));
    forall j | 0 <= j < |others| ensures PeerOf(t, h, others[j]) == ps[j] {
      assert j != k ==> others[j] != c;
    }
  }

  lemma MidStep(s: Server, t: Server, c: Client, d: Client, hs: seq<Channel>, v: View)
    requires Alive(s) && Alive(t) && Linked(s) && Numbered(s) && OnlyName(s, t, c)
    requires d in s.cl && d != c && NoDup(hs) && hs != [] && forall h <- hs :: h in s.cl[c].channels
    requires v.connected && v.channels == TruthMid(s, t, d, hs)
    requires d in s.ch[hs[0]].clients && PeerAllowed(Info(t, hs[0], c))
    ensures Apply(true, v, PeerPresent(s.ch[hs[0]].id, Info(t, hs[0], c))) ==
            Some(v.(channels := TruthMid(s, t, d, hs[1..])))
  {
    hide Numbered, NoDup, Apply, WithPeer;
    var h := hs[0];
    var m := PeerPresent(s.ch[h].id, Info(t, h, c));
    var ks, ps := s.cl[d].channels, s.ch[h].clients;
    assert h in ks && c in ps;
    var i := IndexOf(ks, h);
    FindChannelIn(s, ks, v.channels, h);
    RemoveMembers(ps, d);
    PeersRenamed(s, t, h, c, Remove(ps, d));
    assert ChannelOf(t, h, d) == ChannelOf(s, h, d).(peers := WithPeer(true, ChannelOf(s, h, d).peers, m.peer));
    MidNext(s, t, d, hs, i);
    ApplyPeer(v, i, m);
  }

  lemma MidNext(s: Server, t: Server, d: Client, hs: seq<Channel>, i: nat)
    requires Alive(s) && Alive(t) && Linked(s) && d in s.cl && t.ch == s.ch
    requires hs != [] && NoDup(hs) && hs[0] in s.cl[d].channels && i == IndexOf(s.cl[d].channels, hs[0])
    ensures TruthMid(s, t, d, hs[1..]) == TruthMid(s, t, d, hs)[i := ChannelOf(t, hs[0], d)]
  {
    NoDupDropFirst(hs);
    var a, b := TruthMid(s, t, d, hs), TruthMid(s, t, d, hs[1..]);
    forall j | 0 <= j < |a| ensures b[j] == a[i := ChannelOf(t, hs[0], d)][j] {
      var k := s.cl[d].channels[j];
      assert k in hs <==> k == hs[0] || k in hs[1..];
    }
  }

  lemma MidSkip(s: Server, t: Server, d: Client, hs: seq<Channel>)
    requires Alive(s) && Alive(t) && d in s.cl && t.ch == s.ch
    requires hs != [] && NoDup(hs) && hs[0] !in s.cl[d].channels
    ensures TruthMid(s, t, d, hs[1..]) == TruthMid(s, t, d, hs)
  {
    NoDupDropFirst(hs);
    var a, b := TruthMid(s, t, d, hs), TruthMid(s, t, d, hs[1..]);
    forall j | 0 <= j < |a| ensures b[j] == a[j] {
      var k := s.cl[d].channels[j];
      assert k in hs <==> k == hs[0] || k in hs[1..];
    }
  }

  /** The news of a channel they share brings `d`'s table one step further. */
  lemma ToldMember(s: Server, t: Server, c: Client, d: Client, hs: seq<Channel>, v: View)
    requires Alive(s) && Alive(t) && Linked(s) && Numbered(s) && OnlyName(s, t, c)
    requires d in s.cl && d != c && !s.cl[d].readonly
    requires hs != [] && NoDup(hs) && forall h <- hs :: h in s.cl[c].channels && h in s.ch
    requires PeerAllowed(Info(t, hs[0], c))
    requires v.connected && v.channels == TruthMid(s, t, d, hs)
    requires d in Remove(s.ch[hs[0]].clients, c) && d in s.ch[hs[0]].clients
    ensures ApplyAll(true, v, Told(t, c, hs, d)) ==
            ApplyAll(true, v.(channels := TruthMid(s, t, d, hs[1..])), Told(t, c, hs[1..], d))
  {
    MidStep(s, t, c, d, hs, v);
    ApplyAllCons(true, v, PeerPresent(s.ch[hs[0]].id, Info(t, hs[0], c)), Told(t, c, hs[1..], d));
  }

  lemma ToldStranger(t: Server, c: Client, d: Client, hs: seq<Channel>)
    requires c in t.cl && d in t.cl && hs != [] && forall h <- hs :: h in t.ch
    requires d !in Remove(t.ch[hs[0]].clients, c)
    ensures Told(t, c, hs, d) == Told(t, c, hs[1..], d)
  {
    var rest := Told(t, c, hs[1..], d);
    assert [] + rest == rest;
  }

  /** Having heard on all the channels, `d`'s table shows the new name. */
  lemma {:induction false} ToldApplies(s: Server, t: Server, c: Client, d: Client, hs: seq<Channel>, v: View)
    requires Alive(s) && Alive(t) && Linked(s) && Numbered(s) && OnlyName(s, t, c)
    requires d in s.cl && d != c && !s.cl[d].readonly
    requires NoDup(hs) && forall h <- hs :: h in s.cl[c].channels && h in s.ch && PeerAllowed(Info(t, h, c))
    requires v.connected && v.channels == TruthMid(s, t, d, hs)
    ensures ApplyAll(true, v, Told(t, c, hs, d)) == Some(v.(channels := Truth(t, d)))
    decreases |hs|
  {
    if hs == [] {
      assert TruthMid(s, t, d, []) == Truth(t, d);
    } else {
      NoDupDropFirst(hs);
      RemoveMembers(s.ch[hs[0]].clients, c);
      if d in s.ch[hs[0]].clients {
        ToldMember(s, t, c, d, hs, v);
      } else {
        ToldStranger(t, c, d, hs);
        MidSkip(s, t, d, hs);
      }
      ToldApplies(s, t, c, d, hs[1..], v.(channels := TruthMid(s, t, d, hs[1..])));
    }
  }

  /* ---- the whole of a rename ---- */

  /** Everything a rename does to the record of `d`. */
  lemma RenameRec(s: Server, c: Client, name: Text, d: Client)
    requires Alive(s) && c in s.cl && d in s.cl
    ensures var t := Rename(s, c, name);
      && t == s.(cl := t.cl) && t.cl.Keys == s.cl.Keys
      && t.cl[d] == s.cl[d].(
           name := if d == c then name else s.cl[d].name,
           sent := s.cl[d].sent + (if d == c then [NameOk(name)] else [])
                + Told(Called(s, c, name), c, s.cl[c].channels, d))
  {
    var s1 := Called(s, c, name);
    var s2 := Send(s1, c, NameOk(name));
    SendQuiet(s1, c, NameOk(name));
    ToldSame(s1, s2, c, s.cl[c].channels, d);
    AnnounceTells(s2, c, s.cl[c].channels, d);
    assert s.cl[d].sent + [] == s.cl[d].sent;
  }

  lemma RenameOnlyName(s: Server, c: Client, name: Text)
    requires Alive(s) && c in s.cl
    ensures OnlyName(s, Rename(s, c, name), c)
  {
    forall d <- s.cl
      ensures d in Rename(s, c, name).cl
      ensures Rename(s, c, name).cl[d] ==
        s.cl[d].(name := Rename(s, c, name).cl[d].name, sent := Rename(s, c, name).cl[d].sent)
      ensures d != c ==> Rename(s, c, name).cl[d].name == s.cl[d].name
    {
      RenameRec(s, c, name, d);
    }
    RenameRec(s, c, name, c);
  }

  lemma {:induction false} ToldNothing(s: Server, c: Client, hs: seq<Channel>)
    requires c in s.cl && forall h <- hs :: h in s.ch && NoDup(s.ch[h].clients)
    ensures Told(s, c, hs, c) == []
    decreases |hs|
  {
    if hs != [] {
      RemoveMembers(s.ch[hs[0]].clients, c);
      ToldNothing(s, c, hs[1..]);
    }
  }

  /** A client's table does not show its own name. */
  lemma OwnTruthSame(s: Server, t: Server, c: Client)
    requires Alive(s) && Alive(t) && Linked(s) && OnlyName(s, t, c)
    ensures Truth(t, c) == Truth(s, c)
  {
    forall h <- s.cl[c].channels ensures ChannelOf(t, h, c) == ChannelOf(s, h, c) {
      RemoveMembers(s.ch[h].clients, c);
      assert PeersOf(t, h, Remove(s.ch[h].clients, c)) == PeersOf(s, h, Remove(s.ch[h].clients, c));
    }
  }

  lemma NamerFollows(s: Server, t: Server, c: Client, name: Text)
    requires Alive(s) && Alive(t) && Linked(s) && OnlyName(s, t, c) && !s.cl[c].readonly
    requires t.cl[c].name == name && t.cl[c].sent == s.cl[c].sent + [NameOk(name)]
    ensures Follows(s, t, c)
  {
    OwnTruthSame(s, t, c);
    FollowsOne(s, t, c, NameOk(name));
  }

  /** Where `c` is not, nothing changes. */
  lemma MidStart(s: Server, t: Server, c: Client, d: Client)
    requires Alive(s) && Alive(t) && Linked(s) && OnlyName(s, t, c) && d in s.cl
    ensures TruthMid(s, t, d, s.cl[c].channels) == Truth(s, d)
  {
    forall k <- s.cl[d].channels | k !in s.cl[c].channels ensures ChannelOf(t, k, d) == ChannelOf(s, k, d) {
      assert c !in s.ch[k].clients;
      assert SameLook(s, t, k);
      SameLookSame(s, t, k, d);
    }
  }

  lemma HearerFollows(s: Server, t: Server, c: Client, d: Client)
    requires Alive(s) && Alive(t) && Linked(s) && Numbered(s) && OnlyName(s, t, c)
    requires d in s.cl && d != c && !s.cl[d].readonly
    requires forall h <- s.cl[c].channels :: PeerAllowed(Info(t, h, c))
    requires t.cl[d].sent == s.cl[d].sent + Told(t, c, s.cl[c].channels, d)
    ensures Follows(s, t, d)
  {
    var hs := s.cl[c].channels;
    MidStart(s, t, c, d);
    assert t.cl[d].sent[|s.cl[d].sent|..] == Told(t, c, hs, d);
    forall v | Synced(s, d, v) ensures Leads(v, Told(t, c, hs, d), t, d) {
      ToldApplies(s, t, c, d, hs, v);
    }
  }

  lemma RenameSent(s: Server, c: Client, name: Text, d: Client)
    requires Alive(s) && c in s.cl && d in s.cl && d != c
    ensures var t := Rename(s, c, name);
      && c in t.cl && d in t.cl && t.ch == s.ch
      && t.cl[d].sent == s.cl[d].sent + Told(t, c, s.cl[c].channels, d)
  {
    hide Announce, Told, Info;
    var t, hs, s1 := Rename(s, c, name), s.cl[c].channels, Called(s, c, name);
    RenameQuiet(s, c, name);
    RenameRec(s, c, name, d);
    ToldSame(s1, t, c, hs, d);
    assert s.cl[d].sent + [] + Told(s1, c, hs, d) == s.cl[d].sent + Told(s1, c, hs, d);
  }

  lemma NamesItself(s: Server, t: Server, c: Client, name: Text)
    requires Alive(s) && Alive(t) && Linked(s) && OnlyName(s, t, c) && t == Rename(s, c, name) && !s.cl[c].readonly
    ensures Follows(s, t, c)
    ensures t.cl[c].name == name
  {
    RenameRec(s, c, name, c);
    ToldNothing(Called(s, c, name), c, s.cl[c].channels);
    assert s.cl[c].sent + [NameOk(name)] + [] == s.cl[c].sent + [NameOk(name)];
    NamerFollows(s, t, c, name);
  }

  lemma RenamedFollow(s: Server, t: Server, c: Client, name: Text)
    requires Alive(s) && Alive(t) && Linked(s) && Numbered(s) && ProperNames(t)
    requires OnlyName(s, t, c) && t == Rename(s, c, name) && !s.cl[c].readonly && name != []
    ensures AllFollow(s, t)
  {
    NamesItself(s, t, c, name);
    RenamedInfos(s, t, c);
    forall d <- s.cl ensures Follows(s, t, d) {
      if d != c && !s.cl[d].readonly {
        RenameSent(s, c, name, d);
        HearerFollows(s, t, c, d);
      }
    }
  }

  lemma RenameFollows(s: Server, c: Client, name: Text)
    requires Inv(s) && c in s.cl && !s.cl[c].readonly && !Taken(s, c, name) && Proper(name) && name != []
    ensures AllFollow(s, Rename(s, c, name))
  {
    RenameKeeps(s, c, name);
    RenameOnlyName(s, c, name);
    RenamedFollow(s, Rename(s, c, name), c, name);
  }

  lemma RenamedInfos(s: Server, t: Server, c: Client)
    requires Alive(s) && ProperNames(t) && OnlyName(s, t, c) && t.cl[c].name != []
    ensures forall h <- s.cl[c].channels :: PeerAllowed(Info(t, h, c))
  {
    forall h <- s.cl[c].channels ensures PeerAllowed(Info(t, h, c)) {
      InfoAllowed(t, h, c);
    }
  }

  lemma RenameQuiet(s: Server, c: Client, name: Text)
    requires Alive(s) && c in s.cl
    ensures Quiet(Called(s, c, name), Rename(s, c, name))
  {
    var s1 := Called(s, c, name);
    var s2 := Send(s1, c, NameOk(name));
    SendQuiet(s1, c, NameOk(name));
    AnnounceQuiet(s2, c, s.cl[c].channels);
    QuietTransitive(s1, s2, Announce(s2, c, s.cl[c].channels));
  }
}
