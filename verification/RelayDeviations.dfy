/** What replica convergence asks of clients, and that it has to: where it is not
    so the table goes wrong. */
module RelayDeviations {
  import opened RelayConvergence
  import opened RelayFollows
  import opened RelayInvariant
  import opened RelayMessages
  import opened RelayOps
  import opened RelayReplica
  import opened RelayState
  import opened RelaySteps
  import opened RelaySystem
  import opened RelayTruth
  import opened Seqs
  import opened Wrappers

  /* ---- leaving before the UDP welcome ---- */

  lemma LeaverHears(s: Server, h: Channel, c: Client)
    requires Inv(s) && c in s.cl && h in s.cl[c].channels && !s.cl[c].readonly
    ensures var t := RemoveClient(s, h, c);
      c in t.cl && !t.cl[c].readonly && t.cl[c].sent == s.cl[c].sent + [LeaveOk(s.ch[h].id)]
  {
    assert c in s.ch[h].clients && !s.ch[h].readonly;
    RemoveMembers(s.ch[h].clients, c);
  }

  lemma JoinedFound(s: Server, c: Client, h: Channel)
    requires Inv(s) && c in s.cl && h in s.cl[c].channels
    ensures FindJoined(s, s.cl[c].channels, s.ch[h].id) == Some(h)
  {
    var k := FindJoined(s, s.cl[c].channels, s.ch[h].id);
    assert k != None && s.ch[k.value].id == s.ch[h].id;
  }

  lemma LeaveIsRemoval(s: Server, c: Client, h: Channel)
    requires Inv(s) && c in s.cl && h in s.ch && c in s.ch[h].clients
    ensures c in s.clients && h in s.cl[c].channels && Leave(s, c, s.ch[h].id) == RemoveClient(s, h, c)
  {
    assert h in s.cl[c].channels && s.cl[c].approved;
    JoinedFound(s, c, h);
  }

  lemma LeaverFollows(s: Server, t: Server, c: Client, h: Channel, v: View, m: ServerMsg)
    requires Alive(s) && Alive(t) && c in s.cl && c in t.cl && h in s.cl[c].channels && !t.cl[c].readonly
    requires True(s, c, v) && m.LeaveOk? && t.cl[c].sent == s.cl[c].sent + [m] && Follows(s, t, c)
    requires t.cl[c].channels == Remove(s.cl[c].channels, h)
    ensures ApplyAll(true, v, [m]) != None && (True(t, c, ApplyAll(true, v, [m]).value) <==> v.connected)
  {
    hide ChannelOf, FindChannel, IndexOf;
    assert t.cl[c].sent[|s.cl[c].sent|..] == [m];
    ApplyAllOne(true, v, [], m);
    assert [] + [m] == [m];
    if v.connected {
      assert Synced(s, c, v);
    } else {
      assert |Apply(true, v, m).value.channels| == |v.channels|;
      assert |Truth(t, c)| == |Truth(s, c)| - 1;
    }
  }

  lemma LeaveTakesWelcomeAt(s: Server, c: Client, h: Channel, v: View)
    requires Inv(s) && c in s.cl && h in s.ch && c in s.ch[h].clients && !s.cl[c].readonly && True(s, c, v)
    ensures c in s.clients
    ensures var t := Leave(s, c, s.ch[h].id);
      && Inv(t) && c in t.cl && |s.cl[c].sent| <= |t.cl[c].sent|
      && var w := ApplyAll(true, v, t.cl[c].sent[|s.cl[c].sent|..]);
         w != None && (True(t, c, w.value) <==> v.connected)
  {
    LeaveIsRemoval(s, c, h);
    LeaveKeeps(s, c, s.ch[h].id);
    LeaveFollows(s, c, s.ch[h].id);
    LeaverHears(s, h, c);
    RemoveClientShrinks(s, h, c);
    hide Leave, RemoveClient, Linked, OpenBut, Numbered, Named, Follows, True, ApplyAll;
    var t, m := Leave(s, c, s.ch[h].id), LeaveOk(s.ch[h].id);
    assert t.cl[c].sent[|s.cl[c].sent|..] == [m];
    LeaverFollows(s, t, c, h, v, m);
  }

  /** After any run, a client with a true table leaves a channel: taking in what it
      is told makes the table true again exactly if it has been welcomed. */
  lemma LeaveTakesWelcome(es: seq<Event>, c: Client, h: Channel, v: View)
    requires c in Reached(es).cl && h in Reached(es).ch
    requires var s := Reached(es);
      c in s.ch[h].clients && !s.cl[c].readonly && True(s, c, v)
    ensures var s := Reached(es); var e := LeaveAsked(c, s.ch[h].id);
      && Possible(s, e)
      && var t := ReachedBy(es, e);
      && Inv(t) && c in t.cl && |s.cl[c].sent| <= |t.cl[c].sent|
      && var w := ApplyAll(true, v, t.cl[c].sent[|s.cl[c].sent|..]);
         w != None && (True(t, c, w.value) <==> v.connected)
  {
    hide Linked, OpenBut, Numbered, Named, True, ApplyAll, Leave;
    ReachedInv(es);
    LeaveTakesWelcomeAt(Reached(es), c, h, v);
  }

  /* ---- a member without a name ---- */

  lemma OpenFound(s: Server, h: Channel)
    requires Inv(s) && h in s.channels
    ensures FindOpen(s, s.channels, s.ch[h].name) == Some(h)
  {
    var k := FindOpen(s, s.channels, s.ch[h].name);
    assert SameName(s.ch[h].name, s.ch[h].name);
    assert k != None;
  }

  lemma JoinerHears(s: Server, h: Channel, d: Client)
    requires Alive(s) && h in s.ch && d in s.cl && !s.ch[h].readonly && d !in s.ch[h].clients
    ensures AddClient(s, h, d).cl[d].sent == s.cl[d].sent + [Welcome(s, h, d)]
  {
  }

  lemma WelcomeThrows(s: Server, h: Channel, d: Client, asMeant: bool, v: View)
    requires Alive(s) && ProperNames(s) && h in s.ch && d in s.cl
    ensures Apply(asMeant, v, Welcome(s, h, d)) == None <==> exists p <- s.ch[h].clients :: s.cl[p].name == []
  {
    var ps := s.ch[h].clients;
    var infos := Infos(s, h, ps);
    forall i | 0 <= i < |ps| ensures PeerAllowed(infos[i]) <==> s.cl[ps[i]].name != [] {
      assert ps[i] in ps && Proper(s.cl[ps[i]].name);
    }
    if p :| p in ps && s.cl[p].name == [] {
      var i := IndexOf(ps, p);
      assert infos[i] in infos && !PeerAllowed(infos[i]);
    }
  }

  lemma JoinIsAdding(s: Server, d: Client, h: Channel, hidden: bool, autoclose: bool, made: Channel)
    requires Inv(s) && d in s.clients && h in s.channels && s.cl[d].approved && !s.cl[d].readonly
    requires d !in s.ch[h].clients
    ensures Join(s, d, s.ch[h].name, hidden, autoclose, made) == AddClient(s, h, d)
  {
    OpenFound(s, h);
    assert !s.ch[h].readonly && Proper(s.ch[h].name);
  }

  lemma NamelessMemberThrowsAt(s: Server, d: Client, h: Channel, hidden: bool, autoclose: bool, made: Channel,
                               asMeant: bool, v: View)
    requires Inv(s) && d in s.clients && h in s.channels && s.cl[d].approved && !s.cl[d].readonly
    requires d !in s.ch[h].clients
    ensures var t := Join(s, d, s.ch[h].name, hidden, autoclose, made);
      && d in t.cl && |t.cl[d].sent| == |s.cl[d].sent| + 1
      && (Apply(asMeant, v, t.cl[d].sent[|s.cl[d].sent|]) == None <==>
          exists p <- s.ch[h].clients :: s.cl[p].name == [])
  {
    JoinIsAdding(s, d, h, hidden, autoclose, made);
    assert !s.ch[h].readonly && ProperNames(s);
    JoinerHears(s, h, d);
    WelcomeThrows(s, h, d, asMeant, v);
    hide Join, Apply, Welcome;
  }

  /** After any run, a client that stays joins an open channel: what it is told
      makes it throw, whatever its table, exactly if a member has no name. */
  lemma NamelessMemberThrows(es: seq<Event>, d: Client, h: Channel, hidden: bool, autoclose: bool, made: Channel,
                             asMeant: bool, v: View)
    requires d in Reached(es).clients && h in Reached(es).channels && made !in Reached(es).ch
    requires var s := Reached(es);
      s.cl[d].approved && !s.cl[d].readonly && d !in s.ch[h].clients
    ensures var s := Reached(es);
      var e := JoinAsked(d, s.ch[h].name, hidden, autoclose, made);
      && Possible(s, e)
      && var t := ReachedBy(es, e);
      && d in t.cl && |t.cl[d].sent| == |s.cl[d].sent| + 1
      && (Apply(asMeant, v, t.cl[d].sent[|s.cl[d].sent|]) == None <==>
          exists p <- s.ch[h].clients :: s.cl[p].name == [])
  {
    hide Linked, OpenBut, Numbered, Named, Join, Apply;
    ReachedInv(es);
    NamelessMemberThrowsAt(Reached(es), d, h, hidden, autoclose, made, asMeant, v);
  }
}
