/** What each event brings about, said of every client and channel there is and not
    of the operations that do it. */
module RelayEffects {
  import opened Bytes
  import opened IDPools
  import opened RelayClosing
  import opened RelayInvariant
  import opened RelayMessages
  import opened RelayOps
  import opened RelayState
  import opened RelaySteps
  import opened Seqs
  import opened Wrappers

  /* ---- the name that is meant ---- */

  /** `raw` without the NULs it ends with. */
  predicate Trimmed(raw: Text, name: Text) {
    && name <= raw && (forall i | |name| <= i < |raw| :: raw[i] == 0)
    && (name != [] ==> name[|name| - 1] != 0)
  }

  lemma {:induction false} TrimIs(raw: Text, name: Text)
    ensures Trim(raw) == name <==> Trimmed(raw, name)
    decreases |raw|
  {
    if raw != [] && raw[|raw| - 1] == 0 {
      var front := raw[..|raw| - 1];
      TrimIs(front, name);
      assert raw == front + [0];
      assert Trimmed(raw, name) ==> name != raw;
    }
  }

  /** The same letter, or the same character if it is none. */
  lemma SameLetter(a: byte, b: byte)
    ensures Lower(a) == Lower(b) <==>
            a == b || (0x41 <= a <= 0x5A && b == a + 0x20) || (0x41 <= b <= 0x5A && a == b + 0x20)
  {
  }

  ghost predicate IdLeft(l: Ledger) {
    |l.inUse| + l.refused < LIMIT
  }

  /** The name is none, or has a NUL in it. */
  predicate Malformed(raw: Text) {
    raw == [] || raw[0] == 0 || 0 in Trim(raw)
  }

  /* ---- what becomes of channels ---- */

  ghost predicate FairJoin(s: Server, e: Event) {
    e.JoinAsked? && e.c in s.cl && s.cl[e.c].approved && Proper(e.name)
  }

  ghost predicate Known(s: Server, name: Text) {
    exists k <- s.channels :: k in s.ch && SameName(s.ch[k].name, name)
  }

  /** A request to join what is not there makes it. */
  ghost predicate Makes(s: Server, e: Event) {
    FairJoin(s, e) && !Known(s, e.name) && IdLeft(s.channelIds)
  }

  /** Who asks gets on the channel: the one made, or the one of that name. */
  ghost predicate GetsOn(s: Server, e: Event, h: Channel) {
    && FairJoin(s, e) && !s.cl[e.c].readonly
    && if h in s.ch then h in s.channels && SameName(s.ch[h].name, e.name) && e.c !in s.ch[h].clients
       else h == e.made && Makes(s, e)
  }

  /** Who asks to leave, or is gone, gets off the channel. */
  ghost predicate Goes(s: Server, e: Event, h: Channel) {
    && h in s.ch
    && (e.LeaveAsked? || e.Disconnected?) && e.c in s.ch[h].clients && (e.LeaveAsked? ==> e.id == s.ch[h].id)
  }

  /** A channel closes when it is to, when nobody is left on it, or when its master
      goes if that is how it was made. */
  ghost predicate Closes(s: Server, e: Event, h: Channel) {
    && h in s.ch && h in s.channels
    && (|| e.Unhosted? || e == ChannelClosed(h)
        || (Goes(s, e, h) &&
            ((forall d <- s.ch[h].clients :: d == e.c) || (s.ch[h].autoclose && s.ch[h].master == Some(e.c)))))
  }

  ghost function ChannelAfter(s: Server, e: Event, h: Channel): ChannelRec
    requires h in s.ch
  {
    var r := s.ch[h];
    if Closes(s, e, h) then r.(readonly := true, master := None, clients := [])
    else if Goes(s, e, h) then
      r.(clients := Remove(r.clients, e.c), master := if r.master == Some(e.c) then None else r.master)
    else if GetsOn(s, e, h) then r.(clients := r.clients + [e.c])
    else r
  }

  ghost function ChannelsThere(s: Server, e: Event): set<Channel> {
    if e.ChannelFreed? then s.ch.Keys - {e.h} else if Makes(s, e) then s.ch.Keys + {e.made} else s.ch.Keys
  }

  /** What was asked for, with who asked as its master. */
  ghost predicate AsAsked(e: Event, h: Channel, r: ChannelRec, joined: bool) {
    && e.JoinAsked? && h == e.made
    && r == ChannelRec(r.id, e.name, e.hidden, e.autoclose, Some(e.c), false, if joined then [e.c] else [])
  }

  ghost predicate ChannelsAfter(s: Server, e: Event, t: Server) {
    && t.ch.Keys == ChannelsThere(s, e)
    && (forall h <- t.ch :: h in s.ch ==> t.ch[h] == ChannelAfter(s, e, h))
    && (forall h <- t.ch :: h !in s.ch ==> AsAsked(e, h, t.ch[h], GetsOn(s, e, h)) && t.ch[h].id !in s.channelIds.inUse)
  }

  /** The channels on the server's list. */
  ghost predicate ListedAfter(s: Server, e: Event, t: Server) {
    Set(t.channels) ==
    (set h <- s.channels | !Closes(s, e, h)) + (if e.JoinAsked? && GetsOn(s, e, e.made) then {e.made} else {})
  }

  /* ---- and of clients ---- */

  ghost predicate Asks(e: Event) {
    e.NameAsked? || e.JoinAsked? || e.LeaveAsked? || e.ChannelSpoken? || e.PeerSpoken?
  }

  /** The client is on its way out from now on. */
  ghost predicate Marked(s: Server, e: Event, c: Client)
    requires c in s.cl
  {
    || (e.Unhosted? && c in s.clients)
    || ((e.Booted? || e.Disconnected?) && e.c == c)
    || (e.ConnectAsked? && e.c == c && !s.hosting && !s.cl[c].approved)
    || (Asks(e) && e.c == c && !s.cl[c].approved)
    || (e.NameAsked? && e.c == c && Malformed(e.raw))
    || (e.JoinAsked? && e.c == c && !Proper(e.name))
  }

  ghost predicate Approves(s: Server, e: Event, c: Client)
    requires c in s.cl
  {
    e.ConnectAsked? && e.c == c && s.hosting && !s.cl[c].readonly
  }

  /** Another client that stays has the name, be it in other case. */
  ghost predicate InUse(s: Server, c: Client, name: Text) {
    exists d <- s.clients ::
      d != c && d in s.cl && s.cl[d].name != [] && !s.cl[d].readonly && SameName(s.cl[d].name, name)
  }

  ghost predicate NameHad(s: Server, e: Event, c: Client)
    requires c in s.cl
  {
    && e.NameAsked? && e.c == c && s.cl[c].approved && !s.cl[c].readonly
    && !Malformed(e.raw) && |Trim(e.raw)| <= 255 && !InUse(s, c, Trim(e.raw))
  }

  ghost predicate ClientAfter(s: Server, e: Event, c: Client, q: ClientRec)
    requires c in s.cl
  {
    var r := s.cl[c];
    && q.id == r.id && (q.approved <==> r.approved || Approves(s, e, c))
    && (q.readonly <==> r.readonly || Marked(s, e, c))
    && q.name == if NameHad(s, e, c) then Trim(e.raw) else r.name
  }

  ghost predicate Enters(s: Server, e: Event) {
    e.Connected? && IdLeft(s.clientIds)
  }

  ghost function ClientsThere(s: Server, e: Event): set<Client> {
    if e.ClientFreed? then s.cl.Keys - {e.c} else if Enters(s, e) then s.cl.Keys + {e.c} else s.cl.Keys
  }

  ghost predicate ClientsAfter(s: Server, e: Event, t: Server) {
    && t.cl.Keys == ClientsThere(s, e)
    && (forall c <- t.cl :: c in s.cl ==> ClientAfter(s, e, c, t.cl[c]))
    && (forall c <- t.cl :: c !in s.cl ==>
          e == Connected(c) && t.cl[c] == ClientRec(t.cl[c].id, [], false, false, [], []) &&
          t.cl[c].id !in s.clientIds.inUse)
  }

  ghost predicate ServerAfter(s: Server, e: Event, t: Server) {
    && t.hosting == (if e.Hosted? then true else if e.Unhosted? then false else s.hosting)
    && t.clients == if Enters(s, e) then s.clients + [e.c]
                    else if e.Disconnected? then Remove(s.clients, e.c)
                    else if e.Unhosted? then [] else s.clients
  }

  /** The ids that are out are those that were, that of who or what is new, and not
      that of who or what is destroyed. */
  ghost predicate LedgersAfter(s: Server, e: Event, t: Server) {
    && t.clientIds.inUse ==
       s.clientIds.inUse + (if Enters(s, e) && e.c in t.cl then {t.cl[e.c].id} else {}) -
       (if e.ClientFreed? && e.c in s.cl then {s.cl[e.c].id} else {})
    && t.channelIds.inUse ==
       s.channelIds.inUse + (if Makes(s, e) && e.made in t.ch then {t.ch[e.made].id} else {}) -
       (if e.ChannelFreed? && e.h in s.ch then {s.ch[e.h].id} else {})
    && t.clientIds.refused == s.clientIds.refused + (if e.Connected? && !Enters(s, e) then 1 else 0)
    && t.channelIds.refused ==
       s.channelIds.refused + (if FairJoin(s, e) && !Known(s, e.name) && !IdLeft(s.channelIds) then 1 else 0)
  }

  ghost predicate Effects(s: Server, e: Event, t: Server) {
    && ChannelsAfter(s, e, t) && ListedAfter(s, e, t) && ClientsAfter(s, e, t) && ServerAfter(s, e, t)
    && LedgersAfter(s, e, t)
  }

  /* ---- events that leave channels alone ---- */

  ghost predicate Spares(s: Server, e: Event) {
    && !e.ChannelFreed? && !Makes(s, e) && (e.JoinAsked? ==> !GetsOn(s, e, e.made))
    && forall h <- s.ch :: !Closes(s, e, h) && !Goes(s, e, h) && !GetsOn(s, e, h)
  }

  /** Nothing about channels. */
  predicate Elsewhere(e: Event) {
    || e.Connected? || e.ConnectAsked? || e.NameAsked? || e.ChannelSpoken? || e.PeerSpoken? || e.Booted? || e.Hosted?
    || e.ClientFreed?
  }

  lemma ElsewhereSpares(s: Server, e: Event)
    requires Elsewhere(e)
    ensures Spares(s, e)
  {
  }

  lemma SparedChannels(s: Server, e: Event, t: Server)
    requires Alive(s) && Spares(s, e) && t.ch == s.ch && t.channels == s.channels
    ensures ChannelsAfter(s, e, t) && ListedAfter(s, e, t)
  {
  }

  ghost predicate SparesClients(s: Server, e: Event) {
    !Enters(s, e) && !e.Disconnected? && !e.Unhosted? && !e.ClientFreed?
  }

  lemma SameLedgers(s: Server, e: Event, t: Server)
    requires t.clientIds == s.clientIds && t.channelIds == s.channelIds
    requires !e.Connected? && !e.ClientFreed? && !e.ChannelFreed?
    requires (e.JoinAsked? && FairJoin(s, e) ==> Known(s, e.name))
    ensures LedgersAfter(s, e, t)
  {
  }

  /** Only what is said of clients is left to see. */
  lemma OnlyClients(s: Server, e: Event, t: Server)
    requires Alive(s) && Spares(s, e) && SparesClients(s, e) && !e.Hosted?
    requires t == s.(cl := t.cl, channelIds := t.channelIds) && LedgersAfter(s, e, t)
    requires t.cl.Keys == s.cl.Keys && forall c <- s.cl :: ClientAfter(s, e, c, t.cl[c])
    ensures Effects(s, e, t)
  {
    hide Spares, ClientAfter, Remove, LedgersAfter;
    SparedChannels(s, e, t);
    hide ChannelsAfter, ListedAfter;
  }

  lemma ConnectRequestEffects(s: Server, c: Client, welcome: Text)
    requires Alive(s) && c in s.cl
    ensures Effects(s, ConnectAsked(c, welcome), ConnectRequest(s, c, welcome))
  {
    hide Effects, Spares;
    ElsewhereSpares(s, ConnectAsked(c, welcome));
    OnlyClients(s, ConnectAsked(c, welcome), ConnectRequest(s, c, welcome));
  }

  /* ---- names ---- */

  /** At most more has been sent. */
  ghost predicate OnlySent(s: Server, t: Server) {
    t == s.(cl := t.cl) && t.cl.Keys == s.cl.Keys && forall c <- s.cl :: t.cl[c] == s.cl[c].(sent := t.cl[c].sent)
  }

  lemma {:induction false} AnnounceSends(s: Server, c: Client, hs: seq<Channel>)
    requires c in s.cl && forall h <- hs :: h in s.ch
    ensures OnlySent(s, Announce(s, c, hs))
    decreases |hs|
  {
    if hs != [] {
      var h := hs[0];
      AnnounceSends(SendAll(s, Remove(s.ch[h].clients, c), PeerPresent(s.ch[h].id, Info(s, h, c))), c, hs[1..]);
    }
  }

  lemma RenameNames(s: Server, c: Client, name: Text)
    requires c in s.cl && forall h <- s.cl[c].channels :: h in s.ch
    ensures OnlySent(Called(s, c, name), Rename(s, c, name))
    ensures var t := Rename(s, c, name);
      && t == s.(cl := t.cl) && t.cl.Keys == s.cl.Keys && t.cl[c] == s.cl[c].(name := name, sent := t.cl[c].sent)
      && forall d <- s.cl | d != c :: t.cl[d] == s.cl[d].(sent := t.cl[d].sent)
  {
    AnnounceSends(Send(Called(s, c, name), c, NameOk(name)), c, s.cl[c].channels);
  }

  lemma SetNameClients(s: Server, c: Client, raw: Text)
    requires Alive(s) && c in s.cl
    ensures var t := SetName(s, c, raw);
      && t == s.(cl := t.cl) && t.cl.Keys == s.cl.Keys
      && forall d <- s.cl :: ClientAfter(s, NameAsked(c, raw), d, t.cl[d])
  {
    hide Malformed, CheckName, InUse, Trim, SetName;
    SetNameIs(s, c, raw);
    CheckNameIs(s, c, Trim(raw));
  }

  lemma CheckNameIs(s: Server, c: Client, name: Text)
    ensures CheckName(s, c, name) == None <==> |name| <= 255 && !InUse(s, c, name)
  {
  }

  ghost predicate Renames(s: Server, c: Client, raw: Text)
    requires c in s.cl
  {
    && s.cl[c].approved && !s.cl[c].readonly && !Malformed(raw) && CheckName(s, c, Trim(raw)) == None
    && s.cl[c].name != Trim(raw)
  }

  lemma SetNameIs(s: Server, c: Client, raw: Text)
    requires Alive(s) && c in s.cl
    ensures var t, r, name := SetName(s, c, raw), s.cl[c], Trim(raw);
      && t == s.(cl := t.cl) && t.cl.Keys == s.cl.Keys
      && (forall d <- s.cl | d != c :: t.cl[d] == s.cl[d].(sent := t.cl[d].sent))
      && var q := t.cl[c];
         && q == r.(name := q.name, readonly := q.readonly, sent := q.sent)
         && q.readonly == (r.readonly || !r.approved || Malformed(raw))
         && q.name == if Renames(s, c, raw) then name else r.name
  {
    hide Trim, Rename, CheckName, SetName, OnlySent, Called;
    if Renames(s, c, raw) {
      SetNameRenames(s, c, raw);
      RenameNames(s, c, Trim(raw));
    } else {
      hide Renames, Malformed;
      SetNameElse(s, c, raw);
    }
  }

  lemma SetNameRenames(s: Server, c: Client, raw: Text)
    requires Alive(s) && c in s.cl && Renames(s, c, raw)
    ensures SetName(s, c, raw) == Rename(s, c, Trim(raw))
  {
    hide Trim, Rename, CheckName;
  }

  lemma SetNameElse(s: Server, c: Client, raw: Text)
    requires Alive(s) && c in s.cl && !Renames(s, c, raw)
    ensures var t, r := SetName(s, c, raw), s.cl[c];
      && c in t.cl && t == s.(cl := s.cl[c := t.cl[c]])
      && t.cl[c] == r.(readonly := r.readonly || !r.approved || Malformed(raw), sent := t.cl[c].sent)
  {
    hide Trim, Rename, CheckName;
  }

  lemma SetNameEffects(s: Server, c: Client, raw: Text)
    requires Alive(s) && c in s.cl
    ensures Effects(s, NameAsked(c, raw), SetName(s, c, raw))
  {
    hide Effects, SetName, Spares, LedgersAfter, ClientAfter;
    ElsewhereSpares(s, NameAsked(c, raw));
    SetNameClients(s, c, raw);
    SameLedgers(s, NameAsked(c, raw), SetName(s, c, raw));
    OnlyClients(s, NameAsked(c, raw), SetName(s, c, raw));
  }

  /* ---- messages and marks ---- */

  lemma ChannelMessageEffects(s: Server, c: Client, id: nat, variant: byte, subchannel: byte, data: Text)
    requires Alive(s) && c in s.cl
    ensures Effects(s, ChannelSpoken(c, id, variant, subchannel, data),
                    ChannelMessage(s, c, id, variant, subchannel, data))
  {
    hide Effects, FindJoined;
    SaidEffects(s, ChannelSpoken(c, id, variant, subchannel, data),
                ChannelMessage(s, c, id, variant, subchannel, data));
  }

  lemma PeerMessageEffects(s: Server, c: Client, id: nat, peerId: nat, variant: byte, subchannel: byte, data: Text)
    requires Alive(s) && c in s.cl
    ensures Effects(s, PeerSpoken(c, id, peerId, variant, subchannel, data),
                    PeerMessage(s, c, id, peerId, variant, subchannel, data))
  {
    hide Effects, FindJoined, FindMember;
    SaidEffects(s, PeerSpoken(c, id, peerId, variant, subchannel, data),
                PeerMessage(s, c, id, peerId, variant, subchannel, data));
  }

  /** A request that marks one not approved, and otherwise at most sends. */
  lemma SaidEffects(s: Server, e: Event, t: Server)
    requires Alive(s) && (e.ChannelSpoken? || e.PeerSpoken?) && e.c in s.cl
    requires if s.cl[e.c].approved then OnlySent(s, t) else t == MarkReadonly(s, e.c)
    ensures Effects(s, e, t)
  {
    hide Effects, Spares, LedgersAfter;
    ElsewhereSpares(s, e);
    SameLedgers(s, e, t);
    OnlyClients(s, e, t);
  }

  lemma BootedEffects(s: Server, c: Client)
    requires Alive(s) && c in s.cl
    ensures Effects(s, Booted(c), MarkReadonly(s, c))
  {
    hide Effects, Spares;
    ElsewhereSpares(s, Booted(c));
    OnlyClients(s, Booted(c), MarkReadonly(s, c));
  }

  lemma HostedEffects(s: Server)
    requires Alive(s)
    ensures Effects(s, Hosted, s.(hosting := true))
  {
    hide Spares, ChannelsAfter, ListedAfter;
    ElsewhereSpares(s, Hosted);
    SparedChannels(s, Hosted, s.(hosting := true));
  }

  /* ---- coming and going ---- */

  lemma ConnectEffects(s: Server, c: Client)
    requires Inv(s) && c !in s.cl
    ensures Effects(s, Connected(c), Connect(s, c))
  {
    hide Spares, Linked, OpenBut, Named, Balanced, Borrowed, ChannelsAfter, ListedAfter, Effects;
    var e, t := Connected(c), Connect(s, c);
    ElsewhereSpares(s, e);
    BorrowLeast(s.clientIds);
    SparedChannels(s, e, t);
    ConnectIs(s, c);
    if Lend(s.clientIds).1 == None {
      RefusedEffects(s, e, t);
    } else {
      EnteredEffects(s, e, t);
    }
  }

  lemma ConnectIs(s: Server, c: Client)
    requires c !in s.cl
    ensures var (l, id), t := Lend(s.clientIds), Connect(s, c);
      && (id == None ==>
            t == s.(clientIds := l) && l.inUse == s.clientIds.inUse && l.refused == s.clientIds.refused + 1)
      && (id != None ==>
            && t == s.(clientIds := l, clients := s.clients + [c], cl := t.cl) && c in t.cl && t.cl[c].id == id.value
            && t.cl == s.cl[c := ClientRec(t.cl[c].id, [], false, false, [], [])] && Takes(s.clientIds, l, id.value))
  {
    hide Borrowed;
  }

  lemma RefusedEffects(s: Server, e: Event, t: Server)
    requires e.Connected? && e.c !in s.cl && !IdLeft(s.clientIds) && t == s.(clientIds := t.clientIds)
    requires t.clientIds.inUse == s.clientIds.inUse && t.clientIds.refused == s.clientIds.refused + 1
    requires ChannelsAfter(s, e, t) && ListedAfter(s, e, t)
    ensures Effects(s, e, t)
  {
    hide ChannelsAfter, ListedAfter, IdLeft;
  }

  lemma EnteredEffects(s: Server, e: Event, t: Server)
    requires e.Connected? && e.c !in s.cl && IdLeft(s.clientIds) && e.c in t.cl
    requires t == s.(clientIds := t.clientIds, clients := s.clients + [e.c], cl := t.cl)
    requires t.cl == s.cl[e.c := ClientRec(t.cl[e.c].id, [], false, false, [], [])]
    requires t.cl[e.c].id !in s.clientIds.inUse && Takes(s.clientIds, t.clientIds, t.cl[e.c].id)
    requires ChannelsAfter(s, e, t) && ListedAfter(s, e, t)
    ensures Effects(s, e, t)
  {
    hide ChannelsAfter, ListedAfter, IdLeft;
  }

  lemma FreeClientEffects(s: Server, c: Client)
    requires Alive(s) && c in s.cl
    ensures Effects(s, ClientFreed(c), FreeClient(s, c))
  {
    hide Spares, ChannelsAfter, ListedAfter;
    ElsewhereSpares(s, ClientFreed(c));
    SparedChannels(s, ClientFreed(c), FreeClient(s, c));
  }

  lemma FreeChannelEffects(s: Server, h: Channel)
    requires Alive(s) && h in s.ch && h !in s.channels
    ensures Effects(s, ChannelFreed(h), FreeChannel(s, h))
  {
  }

  /* ---- leaving ---- */

  ghost predicate Shuts(r: ChannelRec, c: Client) {
    (forall d <- r.clients :: d == c) || (r.autoclose && r.master == Some(c))
  }

  ghost function Shut(r: ChannelRec): ChannelRec {
    r.(readonly := true, master := None, clients := [])
  }

  ghost function Left(r: ChannelRec, c: Client): ChannelRec {
    if Shuts(r, c) then Shut(r)
    else r.(clients := Remove(r.clients, c), master := if r.master == Some(c) then None else r.master)
  }

  /** The client gets off these channels, and that is all. */
  ghost predicate Departs(s: Server, t: Server, c: Client, hs: set<Channel>) {
    && t == s.(ch := t.ch, cl := t.cl, channels := t.channels)
    && t.ch.Keys == s.ch.Keys && t.cl.Keys == s.cl.Keys
    && (forall k <- s.ch :: t.ch[k] == if k in hs then Left(s.ch[k], c) else s.ch[k])
    && (forall d <- s.cl :: t.cl[d] == s.cl[d].(channels := t.cl[d].channels, sent := t.cl[d].sent))
    && Set(t.channels) == set k <- s.channels | k in s.ch && !(k in hs && Shuts(s.ch[k], c))
  }

  lemma OnlyOneLeft(cs: seq<Client>, c: Client)
    requires NoDup(cs) && c in cs
    ensures Remove(cs, c) == [] <==> forall d <- cs :: d == c
  {
    RemoveMembers(cs, c);
    if Remove(cs, c) != [] {
      assert Remove(cs, c)[0] in cs;
    }
  }

  lemma RemoveClientDeparts(s: Server, h: Channel, c: Client)
    requires Inv(s) && c in s.cl && h in s.cl[c].channels
    ensures Departs(s, RemoveClient(s, h, c), c, {h})
  {
    hide Numbered, Named, Departs, Unlink, AfterUnlink, Remove, NoDup;
    assert c in s.ch[h].clients && h in s.channels && !s.ch[h].readonly;
    OnlyOneLeft(s.ch[h].clients, c);
    var s1, id := Unlink(s, h, c), s.cl[c].id;
    UnlinkIs(s, h, c);
    if Shuts(s.ch[h], c) {
      ShutDeparts(s, s1, h, c, id);
    } else {
      GoneOnDeparts(s, s1, h, c, id);
    }
  }

  /** The client is off the channel, and all else is to come. */
  ghost predicate Unlinked(s: Server, t: Server, h: Channel, c: Client)
    requires h in s.ch && c in s.cl
  {
    && t == s.(ch := s.ch[h := s.ch[h].(clients := Remove(s.ch[h].clients, c))], cl := t.cl)
    && t.cl.Keys == s.cl.Keys
    && forall d <- s.cl :: t.cl[d] == s.cl[d].(channels := t.cl[d].channels, sent := t.cl[d].sent)
  }

  lemma UnlinkIs(s: Server, h: Channel, c: Client)
    requires h in s.ch && c in s.cl
    ensures Unlinked(s, Unlink(s, h, c), h, c)
  {
    hide Remove;
  }

  lemma ShutDeparts(s: Server, t: Server, h: Channel, c: Client, id: nat)
    requires h in s.ch && c in s.cl && Unlinked(s, t, h, c) && !s.ch[h].readonly && Shuts(s.ch[h], c)
    requires Remove(s.ch[h].clients, c) == [] <==> forall d <- s.ch[h].clients :: d == c
    requires NoDup(s.channels) && forall k <- s.channels :: k in s.ch
    ensures Departs(s, AfterUnlink(t, h, c, id), c, {h})
  {
    hide Remove, NoDup, Departs, Shuts, AfterUnlink;
    RemoveSet(s.channels, h);
    ShutAfter(s, t, h, c, id);
    DepartsOne(s, AfterUnlink(t, h, c, id), h, c);
  }

  lemma RemoveSet<T>(xs: seq<T>, x: T)
    requires NoDup(xs)
    ensures Set(Remove(xs, x)) == Set(xs) - {x}
  {
    RemoveMembers(xs, x);
    hide Remove, NoDup;
  }

  lemma ShutAfter(s: Server, t: Server, h: Channel, c: Client, id: nat)
    requires h in s.ch && c in s.cl && Unlinked(s, t, h, c) && Shuts(s.ch[h], c)
    requires Remove(s.ch[h].clients, c) == [] <==> forall d <- s.ch[h].clients :: d == c
    ensures AfterUnlink(t, h, c, id) == CloseChannel(t, h)
  {
    hide Remove;
  }

  /** Said of one channel. */
  lemma DepartsOne(s: Server, u: Server, h: Channel, c: Client)
    requires h in s.ch && c in s.cl && (forall k <- s.channels :: k in s.ch)
    requires u == s.(ch := s.ch[h := Left(s.ch[h], c)], cl := u.cl, channels := u.channels)
    requires u.cl.Keys == s.cl.Keys
    requires forall d <- s.cl :: u.cl[d] == s.cl[d].(channels := u.cl[d].channels, sent := u.cl[d].sent)
    requires Set(u.channels) == Set(s.channels) - if Shuts(s.ch[h], c) then {h} else {}
    ensures Departs(s, u, c, {h})
  {
    hide Shuts, Left;
    assert forall k <- s.channels :: k in Set(s.channels);
  }

  lemma GoneOnDeparts(s: Server, t: Server, h: Channel, c: Client, id: nat)
    requires h in s.ch && c in s.cl && Unlinked(s, t, h, c) && !s.ch[h].readonly && !Shuts(s.ch[h], c)
    requires Remove(s.ch[h].clients, c) == [] <==> forall d <- s.ch[h].clients :: d == c
    requires forall k <- s.channels :: k in s.ch
    ensures Departs(s, AfterUnlink(t, h, c, id), c, {h})
  {
    hide Remove, Departs, AfterUnlink;
    GoneOnAfter(t, h, c, id);
    var u := AfterUnlink(t, h, c, id);
    assert u.ch == s.ch[h := Left(s.ch[h], c)];
    DepartsOne(s, u, h, c);
  }

  lemma GoneOnAfter(t: Server, h: Channel, c: Client, id: nat)
    requires h in t.ch && t.ch[h].clients != [] && !(t.ch[h].master == Some(c) && t.ch[h].autoclose)
    ensures var u := AfterUnlink(t, h, c, id);
      && u == t.(ch := u.ch, cl := u.cl) && u.cl.Keys == t.cl.Keys
      && u.ch == t.ch[h := t.ch[h].(master := if t.ch[h].master == Some(c) then None else t.ch[h].master)]
      && forall d <- t.cl :: u.cl[d] == t.cl[d].(sent := u.cl[d].sent)
  {
  }

  lemma DepartsBoth(s: Server, t: Server, u: Server, c: Client, h: Channel, hs: set<Channel>)
    requires Departs(s, t, c, {h}) && Departs(t, u, c, hs) && h !in hs
    ensures Departs(s, u, c, {h} + hs)
  {
    hide Shuts, Left;
    forall k ensures k in t.channels <==> k in s.channels && k in s.ch && !(k == h && Shuts(s.ch[k], c)) {
      assert k in t.channels <==> k in Set(t.channels);
    }
  }

  lemma {:induction false} LeaveAllDeparts(s: Server, c: Client)
    requires Inv(s) && c in s.cl
    ensures Departs(s, LeaveAll(s, c), c, Set(s.cl[c].channels))
    decreases |s.cl[c].channels|
  {
    hide Linked, OpenBut, Numbered, Named, Departs, Remove, RemoveClient;
    var hs := s.cl[c].channels;
    if hs == [] {
      NoneDepart(s, c);
    } else {
      var h := hs[0];
      RemoveClientKeeps(s, h, c);
      RemoveClientShrinks(s, h, c);
      RemoveClientDeparts(s, h, c);
      var t := RemoveClient(s, h, c);
      LeaveAllDeparts(t, c);
      RestOf(s, c);
      DepartsBoth(s, t, LeaveAll(t, c), c, h, Set(Remove(hs, h)));
    }
  }

  lemma NoneDepart(s: Server, c: Client)
    requires Alive(s)
    ensures Departs(s, s, c, Set([]))
  {
  }

  lemma RestOf(s: Server, c: Client)
    requires Linked(s) && c in s.cl && s.cl[c].channels != []
    ensures var hs := s.cl[c].channels;
      hs[0] !in Set(Remove(hs, hs[0])) && Set(hs) == {hs[0]} + Set(Remove(hs, hs[0]))
  {
    RemoveMembers(s.cl[c].channels, s.cl[c].channels[0]);
    hide Remove;
  }

  lemma LeaveEffects(s: Server, c: Client, id: nat)
    requires Inv(s) && c in s.cl
    ensures Effects(s, LeaveAsked(c, id), Leave(s, c, id))
  {
    hide Effects, Spares, Linked, OpenBut, Numbered, Named, RemoveClient, Departs;
    var e := LeaveAsked(c, id);
    if !s.cl[c].approved {
      NobodyLeaves(s, e);
      OnlyClients(s, e, Leave(s, c, id));
    } else {
      var k := FindJoined(s, s.cl[c].channels, id);
      if k == None {
        NobodyLeaves(s, e);
        OnlyClients(s, e, Leave(s, c, id));
      } else {
        RemoveClientDeparts(s, k.value, c);
        OneGoes(s, e, k.value);
        DepartureEffects(s, e, RemoveClient(s, k.value, c), {k.value});
      }
    }
  }

  lemma NobodyLeaves(s: Server, e: Event)
    requires Inv(s) && e.LeaveAsked? && e.c in s.cl
    requires s.cl[e.c].approved ==> forall h <- s.cl[e.c].channels :: s.ch[h].id != e.id
    ensures Spares(s, e)
  {
    hide Numbered, Named;
    forall h <- s.ch ensures !Goes(s, e, h) {
      assert e.c in s.ch[h].clients <==> h in s.cl[e.c].channels;
    }
  }

  lemma OneGoes(s: Server, e: Event, h: Channel)
    requires Inv(s) && e.LeaveAsked? && e.c in s.cl && h in s.cl[e.c].channels && s.ch[h].id == e.id
    ensures h in s.channels && forall k <- s.ch :: Goes(s, e, k) <==> k in {h}
  {
    hide Named;
    assert e.c in s.ch[h].clients <==> h in s.cl[e.c].channels;
  }

  /** Getting off these channels is what the event brings about. */
  lemma DepartureEffects(s: Server, e: Event, t: Server, hs: set<Channel>)
    requires Alive(s) && e.LeaveAsked? && e.c in s.cl && Departs(s, t, e.c, hs) && s.cl[e.c].approved
    requires forall k <- s.ch :: Goes(s, e, k) <==> k in hs
    requires forall k <- hs :: k in s.channels
    ensures Effects(s, e, t)
  {
    DepartureChannels(s, e, t, hs);
    hide ChannelsAfter, ListedAfter, Goes, Shuts, Left, Remove;
  }

  lemma DepartureChannels(s: Server, e: Event, t: Server, hs: set<Channel>)
    requires Alive(s) && (e.LeaveAsked? || e.Disconnected?) && e.c in s.cl && t.ch.Keys == s.ch.Keys
    requires forall k <- s.ch :: t.ch[k] == if k in hs then Left(s.ch[k], e.c) else s.ch[k]
    requires Set(t.channels) == set k <- s.channels | k in s.ch && !(k in hs && Shuts(s.ch[k], e.c))
    requires forall k <- s.ch :: Goes(s, e, k) <==> k in hs
    requires forall k <- hs :: k in s.channels
    ensures ChannelsAfter(s, e, t) && ListedAfter(s, e, t)
  {
    hide Remove;
    forall k <- s.ch ensures Closes(s, e, k) <==> k in hs && Shuts(s.ch[k], e.c) {
      assert Goes(s, e, k) <==> k in hs;
    }
    hide Shuts, Goes, Closes;
  }

  /* ---- joining ---- */

  lemma NobodyJoins(s: Server, e: Event)
    requires e.JoinAsked? && !Makes(s, e) && (forall h <- s.ch :: !GetsOn(s, e, h)) && !GetsOn(s, e, e.made)
    ensures Spares(s, e)
  {
  }

  /** There is but one channel of a name. */
  lemma OneOfName(s: Server, e: Event, h: Channel)
    requires Alive(s) && Named(s) && e.JoinAsked? && h in s.channels && SameName(s.ch[h].name, e.name)
    requires e.made !in s.ch
    ensures !Makes(s, e) && !GetsOn(s, e, e.made)
    ensures forall k <- s.ch :: GetsOn(s, e, k) ==> k == h
  {
    forall k <- s.ch | GetsOn(s, e, k) ensures k == h {
      SameNameThrough(s.ch[k].name, e.name, s.ch[h].name);
      SameNameThrough(s.ch[h].name, e.name, s.ch[k].name);
    }
  }

  lemma SameNameThrough(a: Text, b: Text, c: Text)
    requires SameName(a, b) && SameName(c, b)
    ensures SameName(a, c)
  {
  }

  /** `t` is what `s` is with the client on the channel. */
  lemma OnChannelEffects(s: Server, e: Event, t: Server, h: Channel)
    requires Alive(s) && e.JoinAsked? && e.c in s.cl && e.made !in s.ch && h in s.channels && GetsOn(s, e, h)
    requires forall k <- s.ch :: GetsOn(s, e, k) ==> k == h
    requires !Makes(s, e) && !GetsOn(s, e, e.made) && RelayInvariant.Joins(s, t, h, e.c)
    ensures Effects(s, e, t)
  {
    forall k <- s.ch ensures ChannelAfter(s, e, k) == t.ch[k] {
      assert GetsOn(s, e, k) <==> k == h;
      assert !Goes(s, e, k) && !Closes(s, e, k);
    }
    hide ChannelAfter, GetsOn, Makes;
  }

  lemma JoinOldEffects(s: Server, e: Event, h: Channel)
    requires Inv(s) && FairJoin(s, e) && e.made !in s.ch && h in s.channels && SameName(s.ch[h].name, e.name)
    ensures Effects(s, e, JoinResponse(s, h, e.c, []))
  {
    hide Linked, Numbered, AddClient, Effects, ClientAfter, Spares, Joins, LedgersAfter;
    assert !s.ch[h].readonly && Known(s, e.name);
    OneOfName(s, e, h);
    if !s.cl[e.c].readonly && e.c !in s.ch[h].clients {
      AddClientJoins(s, h, e.c);
      assert s.(channels := s.channels) == s;
      OnChannelEffects(s, e, AddClient(s, h, e.c), h);
    } else {
      NobodyJoins(s, e);
      hide GetsOn, Makes;
      SameLedgers(s, e, JoinResponse(s, h, e.c, []));
      DeniedEffects(s, e, JoinResponse(s, h, e.c, []));
    }
  }

  /** Told something, and no more. */
  lemma DeniedEffects(s: Server, e: Event, t: Server)
    requires Alive(s) && FairJoin(s, e) && Spares(s, e) && OnlySent(s, t.(channelIds := s.channelIds))
    requires LedgersAfter(s, e, t)
    ensures Effects(s, e, t)
  {
    hide Effects, Spares;
    OnlyClients(s, e, t);
  }

  lemma JoinNewEffects(s: Server, e: Event)
    requires Inv(s) && FairJoin(s, e) && e.made !in s.ch && !Known(s, e.name)
    ensures var (l, id) := Lend(s.channelIds);
      Effects(s, e, if id == None then s.(channelIds := l)
                    else
                      var r := ChannelRec(id.value, e.name, e.hidden, e.autoclose, Some(e.c), false, []);
                      JoinResponse(WithChannel(s, e.made, l, r), e.made, e.c, []))
  {
    hide Linked, OpenBut, Named, Effects, Spares, Known, JoinResponse, Balanced, Borrowed;
    BorrowLeast(s.channelIds);
    var (l, id) := Lend(s.channelIds);
    if id == None {
      NotKnown(s, e);
      NobodyJoins(s, e);
      DeniedEffects(s, e, s.(channelIds := l));
    } else {
      MadeEffects(s, e, l, ChannelRec(id.value, e.name, e.hidden, e.autoclose, Some(e.c), false, []));
    }
  }

  lemma NotKnown(s: Server, e: Event)
    requires e.JoinAsked? && !Known(s, e.name)
    ensures forall h <- s.ch :: !GetsOn(s, e, h)
  {
  }

  lemma MadeEffects(s: Server, e: Event, l: Ledger, r: ChannelRec)
    requires Alive(s) && Makes(s, e) && e.made !in s.ch && AsAsked(e, e.made, r, false) && r.id !in s.channelIds.inUse
    requires Takes(s.channelIds, l, r.id)
    ensures Alive(WithChannel(s, e.made, l, r))
    ensures Effects(s, e, JoinResponse(WithChannel(s, e.made, l, r), e.made, e.c, []))
  {
    hide Effects, AddClient, Joins;
    var h, c, s1 := e.made, e.c, WithChannel(s, e.made, l, r);
    if s.cl[c].readonly {
      NewChannelEffects(s, e, s1);
    } else {
      var s2 := s1.(channels := s1.channels + [h]);
      AddClientJoins(s2, h, c);
      JoinsNewEffects(s, e, s2, AddClient(s2, h, c));
    }
  }

  ghost predicate Takes(l: Ledger, q: Ledger, id: nat) {
    q.inUse == l.inUse + {id} && q.refused == l.refused
  }

  lemma OnlyNew(s: Server, e: Event)
    requires Makes(s, e) && e.made !in s.ch
    ensures forall k <- s.ch :: !Closes(s, e, k) && ChannelAfter(s, e, k) == s.ch[k]
    ensures e.JoinAsked? && e.c in s.cl && (GetsOn(s, e, e.made) <==> !s.cl[e.c].readonly)
  {
  }

  /** The channel is made, but nobody gets on it. */
  lemma NewChannelEffects(s: Server, e: Event, t: Server)
    requires Alive(s) && Makes(s, e) && e.made !in s.ch && e.made in t.ch && s.cl[e.c].readonly
    requires t == s.(ch := s.ch[e.made := t.ch[e.made]], channelIds := t.channelIds)
    requires AsAsked(e, e.made, t.ch[e.made], false) && t.ch[e.made].id !in s.channelIds.inUse
    requires Takes(s.channelIds, t.channelIds, t.ch[e.made].id)
    ensures Effects(s, e, t)
  {
    hide ChannelsAfter, ListedAfter, ClientsAfter, ServerAfter, LedgersAfter;
    NewChannels(s, e, t);
    NewOthers(s, e, t);
  }

  lemma NewOthers(s: Server, e: Event, t: Server)
    requires Alive(s) && Makes(s, e) && e.made !in s.ch && e.made in t.ch
    requires t.cl.Keys == s.cl.Keys
    requires t == s.(ch := t.ch, channels := t.channels, channelIds := t.channelIds, cl := t.cl)
    requires forall d <- s.cl :: t.cl[d] == s.cl[d].(channels := t.cl[d].channels, sent := t.cl[d].sent)
    requires Takes(s.channelIds, t.channelIds, t.ch[e.made].id)
    ensures ClientsAfter(s, e, t) && ServerAfter(s, e, t) && LedgersAfter(s, e, t)
  {
    hide Known, IdLeft;
  }

  lemma NewChannels(s: Server, e: Event, t: Server)
    requires Alive(s) && Makes(s, e) && e.made !in s.ch && e.made in t.ch
    requires t.ch == s.ch[e.made := t.ch[e.made]] && t.ch[e.made].id !in s.channelIds.inUse
    requires AsAsked(e, e.made, t.ch[e.made], !s.cl[e.c].readonly)
    requires t.channels == if s.cl[e.c].readonly then s.channels else s.channels + [e.made]
    ensures ChannelsAfter(s, e, t) && ListedAfter(s, e, t)
  {
    hide Alive, GetsOn, Goes, Closes, Makes, AsAsked, ChannelAfter, ListedAfter;
    OnlyNew(s, e);
    NewListed(s, e, t);
    assert ChannelsThere(s, e) == s.ch.Keys + {e.made};
  }

  lemma NewListed(s: Server, e: Event, t: Server)
    requires Alive(s) && e.JoinAsked? && e.c in s.cl && forall k <- s.ch :: !Closes(s, e, k)
    requires GetsOn(s, e, e.made) <==> !s.cl[e.c].readonly
    requires t.channels == if s.cl[e.c].readonly then s.channels else s.channels + [e.made]
    ensures ListedAfter(s, e, t)
  {
    hide GetsOn, Closes;
    assert Set(s.channels + [e.made]) == Set(s.channels) + {e.made};
    assert (set k <- s.channels | !Closes(s, e, k)) == Set(s.channels);
  }

  lemma JoinsNewEffects(s: Server, e: Event, s2: Server, t: Server)
    requires Alive(s) && Makes(s, e) && e.made !in s.ch && e.made in s2.ch && !s.cl[e.c].readonly
    requires s2 ==
             s.(ch := s.ch[e.made := s2.ch[e.made]], channelIds := s2.channelIds, channels := s.channels + [e.made])
    requires AsAsked(e, e.made, s2.ch[e.made], false) && s2.ch[e.made].id !in s.channelIds.inUse
    requires Takes(s.channelIds, s2.channelIds, s2.ch[e.made].id)
    requires RelayInvariant.Joins(s2, t, e.made, e.c)
    ensures Effects(s, e, t)
  {
    hide ChannelsAfter, ListedAfter, ClientsAfter, ServerAfter, LedgersAfter;
    NewChannels(s, e, t);
    NewOthers(s, e, t);
  }

  lemma JoinEffects(s: Server, e: Event)
    requires Inv(s) && e.JoinAsked? && e.c in s.clients && e.made !in s.ch
    ensures Effects(s, e, Join(s, e.c, e.name, e.hidden, e.autoclose, e.made))
  {
    hide Linked, OpenBut, Numbered, Named, Effects, JoinResponse, Lend;
    if FairJoin(s, e) {
      var h := FindOpen(s, s.channels, e.name);
      if h != None {
        JoinOldEffects(s, e, h.value);
      } else {
        JoinNewEffects(s, e);
      }
    } else {
      hide Join;
      UnfairEffects(s, e);
    }
  }

  lemma UnfairEffects(s: Server, e: Event)
    requires Alive(s) && e.JoinAsked? && e.c in s.cl && !FairJoin(s, e) && CanJoin(s, e.c)
    ensures Effects(s, e, Join(s, e.c, e.name, e.hidden, e.autoclose, e.made))
  {
    hide Effects, JoinResponse, Lend, FindOpen, Spares, Known;
    NobodyJoins(s, e);
    OnlyClients(s, e, Join(s, e.c, e.name, e.hidden, e.autoclose, e.made));
  }

  /* ---- closing down ---- */

  lemma CloseChannelEffects(s: Server, h: Channel)
    requires Inv(s) && h in s.channels
    ensures Effects(s, ChannelClosed(h), CloseChannel(s, h))
  {
    hide Effects, Numbered, Named, Linked, CloseChannel, NoDup;
    var e, t := ChannelClosed(h), CloseChannel(s, h);
    assert h in s.ch && !s.ch[h].readonly;
    ClosedIs(s, h);
    ClosedOne(s, e, t, h);
    ClosedOthers(s, e, t, h);
    hide ClosedTo, ChannelsAfter, ListedAfter, ClientsAfter;
    assert Effects(s, e, t) by { EffectsAre(s, e, t); }
  }

  lemma EffectsAre(s: Server, e: Event, t: Server)
    requires ChannelsAfter(s, e, t) && ListedAfter(s, e, t) && ClientsAfter(s, e, t)
    requires t.hosting == s.hosting && t.clients == s.clients && LedgersAfter(s, e, t)
    requires !e.Hosted? && !e.Unhosted? && !Enters(s, e) && !e.Disconnected?
    ensures Effects(s, e, t)
  {
  }

  lemma ClosedIs(s: Server, h: Channel)
    requires h in s.ch && !s.ch[h].readonly
    ensures var t := CloseChannel(s, h);
      && t == s.(channels := Remove(s.channels, h), ch := s.ch[h := Shut(s.ch[h])], cl := t.cl)
      && t.cl.Keys == s.cl.Keys
      && forall d <- s.cl :: t.cl[d] == s.cl[d].(channels := t.cl[d].channels, sent := t.cl[d].sent)
  {
    hide Remove;
  }

  lemma ClosedOne(s: Server, e: Event, t: Server, h: Channel)
    requires Alive(s) && NoDup(s.channels) && e == ChannelClosed(h) && h in s.channels
    requires t.channels == Remove(s.channels, h) && t.ch == s.ch[h := Shut(s.ch[h])]
    ensures ChannelsAfter(s, e, t) && ListedAfter(s, e, t)
  {
    RemoveMembers(s.channels, h);
    hide Remove, NoDup;
    assert forall k <- s.ch :: Closes(s, e, k) <==> k == h;
    hide Closes;
  }

  lemma ClosedOthers(s: Server, e: Event, t: Server, h: Channel)
    requires e == ChannelClosed(h) && t.cl.Keys == s.cl.Keys
    requires forall d <- s.cl :: t.cl[d] == s.cl[d].(channels := t.cl[d].channels, sent := t.cl[d].sent)
    ensures ClientsAfter(s, e, t)
  {
  }

  lemma DisconnectEffects(s: Server, c: Client)
    requires Inv(s) && c in s.cl
    ensures Effects(s, Disconnected(c), Disconnect(s, c))
  {
    hide Effects, Linked, OpenBut, Numbered, Named, Departs, LeaveAll;
    var e, s1 := Disconnected(c), MarkReadonly(s, c);
    MarkReadonlyQuiet(s, c);
    QuietKeeps(s, s1, None);
    var hs := Set(s.cl[c].channels);
    AllGo(s, c);
    if c in s.clients {
      LeaveAllDeparts(s1, c);
      var t := LeaveAll(s1, c);
      ClosedClientEffects(s, s1, t, c, hs);
    } else {
      UnlistedEffects(s, c);
    }
  }

  lemma AllGo(s: Server, c: Client)
    requires Inv(s) && c in s.cl
    ensures forall k <- s.ch :: Goes(s, Disconnected(c), k) <==> k in Set(s.cl[c].channels)
    ensures forall k <- Set(s.cl[c].channels) :: k in s.channels
    ensures c !in s.clients ==> s.cl[c].channels == []
  {
    hide Numbered, Named, NoDup;
    forall k <- s.ch ensures Goes(s, Disconnected(c), k) <==> k in s.cl[c].channels {
      assert c in s.ch[k].clients <==> k in s.cl[c].channels;
    }
  }

  lemma ClosedClientEffects(s: Server, s1: Server, t: Server, c: Client, hs: set<Channel>)
    requires Alive(s) && c in s.cl && c in s.clients && s1 == MarkReadonly(s, c) && Departs(s1, t, c, hs)
    requires forall k <- s.ch :: Goes(s, Disconnected(c), k) <==> k in hs
    requires forall k <- hs :: k in s.channels
    ensures Effects(s, Disconnected(c), t.(clients := Remove(t.clients, c)))
  {
    hide Goes, Shuts, Left, Remove, Alive, ChannelsAfter, ListedAfter;
    var e, u := Disconnected(c), t.(clients := Remove(t.clients, c));
    SameLedgers(s, e, u);
    hide LedgersAfter;
    DepartureChannels(s, e, u, hs);
  }

  lemma UnlistedEffects(s: Server, c: Client)
    requires Alive(s) && c in s.cl && c !in s.clients
    requires forall k <- s.ch :: !Goes(s, Disconnected(c), k)
    ensures Effects(s, Disconnected(c), MarkReadonly(s, c))
  {
    SparedChannels(s, Disconnected(c), MarkReadonly(s, c));
    hide ChannelsAfter, ListedAfter, Goes;
  }

  /** Channels fade: some are closed, and members go from others. */
  ghost predicate Fades(s: Server, t: Server) {
    && t.ch.Keys == s.ch.Keys && t.cl.Keys == s.cl.Keys
    && t == s.(clients := t.clients, channels := t.channels, cl := t.cl, ch := t.ch)
    && (forall k <- s.ch :: FadesTo(k in s.channels, s.ch[k], k in t.channels, t.ch[k]))
    && (forall d <- s.cl :: t.cl[d] == s.cl[d].(channels := t.cl[d].channels, sent := t.cl[d].sent))
  }

  ghost predicate FadesTo(was: bool, r: ChannelRec, now: bool, q: ChannelRec) {
    if !was then !now && q == r
    else if now then q == r.(clients := q.clients, master := q.master)
    else q == Shut(r)
  }

  lemma FadesOn(s: Server, t: Server, u: Server)
    requires Fades(s, t) && Fades(t, u)
    ensures Fades(s, u)
  {
    forall k <- s.ch ensures FadesTo(k in s.channels, s.ch[k], k in u.channels, u.ch[k]) {
      assert FadesTo(k in s.channels, s.ch[k], k in t.channels, t.ch[k]);
      assert FadesTo(k in t.channels, t.ch[k], k in u.channels, u.ch[k]);
    }
  }

  lemma DepartsFades(s: Server, t: Server, c: Client, hs: set<Channel>)
    requires Departs(s, t, c, hs) && forall k <- hs :: k in s.channels
    ensures Fades(s, t)
  {
    hide Shuts, Remove;
    forall k <- s.ch ensures FadesTo(k in s.channels, s.ch[k], k in t.channels, t.ch[k]) {
      assert k in t.channels <==> k in Set(t.channels);
    }
  }

  /** Everybody listed is on the way out. */
  ghost predicate AllMarked(s: Server) {
    forall c <- s.clients :: c in s.cl && s.cl[c].readonly
  }

  lemma CloseClientFades(s: Server, c: Client)
    requires Inv(s) && c in s.clients && AllMarked(s)
    ensures Fades(s, CloseClient(s, c)) && AllMarked(CloseClient(s, c))
  {
    hide Linked, OpenBut, Numbered, Named, Departs, Fades, LeaveAll, Remove;
    MarkReadonlyQuiet(s, c);
    QuietKeeps(s, MarkReadonly(s, c), None);
    assert MarkReadonly(s, c) == s;
    LeaveAllDeparts(s, c);
    LeaveAllKeeps(s, c);
    var t := LeaveAll(s, c);
    AllGo(s, c);
    DepartsFades(s, t, c, Set(s.cl[c].channels));
    RemoveSome(t.clients, c);
    FadesUnlisted(s, t, Remove(t.clients, c));
  }

  lemma RemoveSome<T>(xs: seq<T>, x: T)
    ensures forall y <- Remove(xs, x) :: y in xs
  {
  }

  lemma FadesUnlisted(s: Server, t: Server, clients: seq<Client>)
    requires Fades(s, t) && AllMarked(s) && t.clients == s.clients && forall y <- clients :: y in t.clients
    ensures Fades(s, t.(clients := clients)) && AllMarked(t.(clients := clients))
  {
  }

  lemma {:induction false} CloseAllFades(s: Server)
    requires Inv(s) && AllMarked(s)
    ensures Fades(s, CloseAll(s))
    decreases |s.clients|
  {
    hide Linked, OpenBut, Numbered, Named, Fades, AllMarked, CloseClient;
    if s.clients == [] {
      StillFades(s);
    } else {
      var c := s.clients[|s.clients| - 1];
      CloseClientDone(s, c);
      CloseClientFades(s, c);
      CloseAllFades(CloseClient(s, c));
      FadesOn(s, CloseClient(s, c), CloseAll(CloseClient(s, c)));
    }
  }

  lemma StillFades(s: Server)
    ensures Fades(s, s)
  {
  }

  lemma UnhostEffects(s: Server)
    requires Inv(s)
    ensures Effects(s, Unhosted, Unhost(s))
  {
    hide Linked, OpenBut, Numbered, Named, Fades, CloseAll, Effects;
    var s1 := s.(hosting := false);
    HostingKeeps(s, false);
    MarkAllQuiet(s1);
    var s2 := MarkAllReadonly(s1);
    QuietKeeps(s1, s2, None);
    CloseAllFades(s2);
    CloseAllDone(s2);
    FadedEffects(s, s2, CloseAll(s2));
  }

  lemma FadedEffects(s: Server, s2: Server, t: Server)
    requires Alive(s) && s2 == MarkAllReadonly(s.(hosting := false)) && Fades(s2, t)
    requires t.channels == [] && t.clients == []
    ensures Effects(s, Unhosted, t)
  {
    hide ChannelsAfter, ListedAfter, FadesTo;
    FadedChannels(s, s2, t);
  }

  lemma FadedChannels(s: Server, s2: Server, t: Server)
    requires Alive(s) && s2.ch == s.ch && s2.channels == s.channels && Fades(s2, t) && t.channels == []
    ensures ChannelsAfter(s, Unhosted, t) && ListedAfter(s, Unhosted, t)
  {
    forall k <- s.ch ensures Closes(s, Unhosted, k) <==> k in s.channels {}
    forall k <- s.ch ensures t.ch[k] == if k in s.channels then Shut(s.ch[k]) else s.ch[k] {
      assert FadesTo(k in s.channels, s.ch[k], false, t.ch[k]);
    }
    hide Closes, Fades, FadesTo;
  }

  /* ---- any event ---- */

  /** Whatever happens brings about this and nothing else. */
  lemma NextEffects(s: Server, e: Event)
    requires Inv(s) && Possible(s, e)
    ensures Effects(s, e, Next(s, e))
  {
    hide Linked, OpenBut, Numbered, Named, ConnectRequest, ChannelMessage, PeerMessage, MarkReadonly, CloseClient,
      CloseChannel, Connect, SetName, Join, Leave, FreeClient, FreeChannel, Unhost, Disconnect, Effects;
    match e
    case Connected(c) => ConnectEffects(s, c);
    case ConnectAsked(c, welcome) => ConnectRequestEffects(s, c, welcome);
    case NameAsked(c, raw) => SetNameEffects(s, c, raw);
    case JoinAsked(c, name, hidden, autoclose, made) => JoinEffects(s, e);
    case LeaveAsked(c, id) => LeaveEffects(s, c, id);
    case ChannelSpoken(c, id, variant, subchannel, data) =>
      ChannelMessageEffects(s, c, id, variant, subchannel, data);
    case PeerSpoken(c, id, peerId, variant, subchannel, data) =>
      PeerMessageEffects(s, c, id, peerId, variant, subchannel, data);
    case Booted(c) => BootedEffects(s, c);
    case Disconnected(c) => DisconnectEffects(s, c);
    case ChannelClosed(h) => CloseChannelEffects(s, h);
    case Hosted => HostedEffects(s);
    case Unhosted => UnhostEffects(s);
    case ClientFreed(c) => FreeClientEffects(s, c);
    case ChannelFreed(h) => FreeChannelEffects(s, h);
  }
}
