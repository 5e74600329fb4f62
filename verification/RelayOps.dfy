/** What each server operation does to the state. */
module RelayOps {
  import opened Bytes
  import opened IDPools
  import opened RelayMessages
  import opened RelayState
  import opened Seqs
  import opened Wrappers

  ghost function Heard(r: ClientRec, m: ServerMsg): ClientRec {
    r.(sent := r.sent + [m])
  }

  /** To one client, whatever its state. */
  ghost function Send(s: Server, c: Client, m: ServerMsg): Server
    requires c in s.cl
  {
    s.(cl := s.cl[c := Heard(s.cl[c], m)])
  }

  /** To each client of the list that is not readonly. */
  ghost function SendAll(s: Server, cs: seq<Client>, m: ServerMsg): Server {
    s.(cl := map c <- s.cl :: if c in cs && !s.cl[c].readonly then Heard(s.cl[c], m) else s.cl[c])
  }

  function Flag(b: bool): byte {
    if b then 1 else 0
  }

  ghost function Info(s: Server, h: Channel, c: Client): PeerInfo
    requires c in s.cl && h in s.ch
  {
    PeerInfo(s.cl[c].id, Flag(s.ch[h].master == Some(c)), s.cl[c].name)
  }

  ghost function Infos(s: Server, h: Channel, cs: seq<Client>): (r: seq<PeerInfo>)
    requires h in s.ch && forall c <- cs :: c in s.cl
    ensures |r| == |cs| && forall i | 0 <= i < |cs| :: r[i] == Info(s, h, cs[i])
  {
    seq(|cs|, i requires 0 <= i < |cs| => Info(s, h, cs[i]))
  }

  /** The reply that lets `c` onto `h`, telling it who is there. */
  ghost function Welcome(s: Server, h: Channel, c: Client): ServerMsg
    requires h in s.ch && forall d <- s.ch[h].clients :: d in s.cl
  {
    JoinOk(Flag(s.ch[h].master == Some(c)), s.ch[h].name, s.ch[h].id, Infos(s, h, s.ch[h].clients))
  }

  ghost function AddClient(s: Server, h: Channel, c: Client): Server
    requires c in s.cl && h in s.ch && forall d <- s.ch[h].clients :: d in s.cl
  {
    var r := s.ch[h];
    if r.readonly || c in r.clients then s
    else
      var s1 := Send(s, c, Welcome(s, h, c));
      var s2 := SendAll(s1, r.clients, PeerPresent(r.id, PeerInfo(s.cl[c].id, 0, s.cl[c].name)));
      s2.(ch := s2.ch[h := r.(clients := r.clients + [c])],
          cl := s2.cl[c := s2.cl[c].(channels := s2.cl[c].channels + [h])])
  }

  /** Put out of a channel that closes, and told so unless readonly. */
  ghost function Evicted(r: ClientRec, h: Channel, id: nat): ClientRec {
    r.(channels := Remove(r.channels, h), sent := if r.readonly then r.sent else r.sent + [LeaveOk(id)])
  }

  ghost function CloseChannel(s: Server, h: Channel): Server
    requires h in s.ch
  {
    var r := s.ch[h];
    if r.readonly then s
    else s.(channels := Remove(s.channels, h),
            ch := s.ch[h := r.(readonly := true, master := None, clients := [])],
            cl := map c <- s.cl :: if c in r.clients then Evicted(s.cl[c], h, r.id) else s.cl[c])
  }

  /** `c` taken off `h` on both sides; a member is told unless readonly. */
  ghost function Unlink(s: Server, h: Channel, c: Client): Server
    requires c in s.cl && h in s.ch
  {
    var r := s.cl[c];
    s.(ch := s.ch[h := s.ch[h].(clients := Remove(s.ch[h].clients, c))],
       cl := s.cl[c := if c in s.ch[h].clients then Evicted(r, h, s.ch[h].id)
                       else r.(channels := Remove(r.channels, h))])
  }

  ghost function Leaderless(s: Server, h: Channel): Server
    requires h in s.ch
  {
    s.(ch := s.ch[h := s.ch[h].(master := None)])
  }

  /** With `c`, whose id is `id`, off `h`: the channel closes, or goes on
      without it and without it as master. */
  ghost function AfterUnlink(s: Server, h: Channel, c: Client, id: nat): Server
    requires h in s.ch
  {
    var r := s.ch[h];
    if r.clients == [] || (r.master == Some(c) && r.autoclose) then CloseChannel(s, h)
    else SendAll(if r.master == Some(c) then Leaderless(s, h) else s, r.clients, PeerGone(r.id, id))
  }

  ghost function RemoveClient(s: Server, h: Channel, c: Client): Server
    requires c in s.cl && h in s.ch
  {
    if s.ch[h].readonly then s else AfterUnlink(Unlink(s, h, c), h, c, s.cl[c].id)
  }

  ghost function MarkReadonly(s: Server, c: Client): Server
    requires c in s.cl
  {
    s.(cl := s.cl[c := s.cl[c].(readonly := true)])
  }

  ghost function MarkAllReadonly(s: Server): Server {
    s.(cl := map c <- s.cl :: if c in s.clients then s.cl[c].(readonly := true) else s.cl[c])
  }

  /* ---- connecting ---- */

  /** A TCP connection: the client object is listed at once.  With no id to be
      had nothing is. */
  ghost function Connect(s: Server, c: Client): Server {
    var (l, id) := Lend(s.clientIds);
    if id == None then s.(clientIds := l)
    else s.(clientIds := l, clients := s.clients + [c],
            cl := s.cl[c := ClientRec(id.value, [], false, false, [], [])])
  }

  ghost function Lend(l: Ledger): (Ledger, Option<nat>) {
    (Do(l, BorrowOp), Borrowed(l.pool).1)
  }

  ghost function ConnectRequest(s: Server, c: Client, welcome: Text): Server
    requires c in s.cl
  {
    var r := s.cl[c];
    if r.approved || r.readonly then s
    else if !s.hosting then
      MarkReadonly(Send(s, c, ConnectDenied(Ascii("Server has shut down."))), c)
    else
      Send(Send(s.(cl := s.cl[c := r.(approved := true)]), c, ConnectOk(r.id, welcome)), c, ImplementationRequest)
  }

  /* ---- names ---- */

  /** Without the NULs at the end. */
  function Trim(raw: Text): (name: Text)
    decreases |raw|
  {
    if raw != [] && raw[|raw| - 1] == 0 then Trim(raw[..|raw| - 1]) else raw
  }

  ghost predicate Taken(s: Server, c: Client, name: Text) {
    exists d <- s.clients ::
      d in s.cl && d != c && !s.cl[d].readonly && s.cl[d].name != [] && SameName(s.cl[d].name, name)
  }

  /** The reply to a name that cannot be had, if so. */
  ghost function CheckName(s: Server, c: Client, name: Text): Option<ServerMsg> {
    if |name| > 255 then Some(NameDenied(name[..255], Ascii("name too long, 255 chars maximum")))
    else if Taken(s, c, name) then Some(NameDenied(name, Ascii("name already taken")))
    else None
  }

  /** The other members of each channel are told of the name. */
  ghost function Announce(s: Server, c: Client, hs: seq<Channel>): Server
    requires c in s.cl && forall h <- hs :: h in s.ch
    decreases |hs|
  {
    if hs == [] then s
    else
      var h := hs[0];
      Announce(SendAll(s, Remove(s.ch[h].clients, c), PeerPresent(s.ch[h].id, Info(s, h, c))), c, hs[1..])
  }

  ghost function Rename(s: Server, c: Client, name: Text): Server
    requires c in s.cl && forall h <- s.cl[c].channels :: h in s.ch
  {
    var s1 := Send(s.(cl := s.cl[c := s.cl[c].(name := name)]), c, NameOk(name));
    Announce(s1, c, s.cl[c].channels)
  }

  ghost function SetName(s: Server, c: Client, raw: Text): Server
    requires c in s.cl && forall h <- s.cl[c].channels :: h in s.ch
  {
    var name := Trim(raw);
    if !s.cl[c].approved || raw == [] || raw[0] == 0 || 0 in name then MarkReadonly(s, c)
    else
      match CheckName(s, c, name)
      case Some(refusal) => Send(s, c, refusal)
      case None =>
        if s.cl[c].readonly then s
        else if s.cl[c].name == name then Send(s, c, NameDenied(name, Ascii("Name set to what it was before")))
        else Rename(s, c, name)
  }

  /* ---- channels ---- */

  /** The first listed channel of this name. */
  ghost function FindOpen(s: Server, hs: seq<Channel>, name: Text): (r: Option<Channel>)
    requires forall h <- hs :: h in s.ch
    ensures r == None ==> forall h <- hs :: !SameName(s.ch[h].name, name)
    ensures r != None ==> r.value in hs && SameName(s.ch[r.value].name, name)
  {
    if hs == [] then None
    else if SameName(s.ch[hs[0]].name, name) then Some(hs[0])
    else FindOpen(s, hs[1..], name)
  }

  const ALREADY_ON := Ascii("You are already on this channel.")
  const CLOSED := Ascii("Channel has been closed. Try again in a few seconds.")

  /** A join request is granted, listing the channel if it is new, or refused
      for a reason of the application's or of the server's. */
  ghost function JoinResponse(s: Server, h: Channel, c: Client, reason: Text): Server
    requires c in s.cl && h in s.ch && forall d <- s.ch[h].clients :: d in s.cl
  {
    var r := s.ch[h];
    var refusal := if c in r.clients then ALREADY_ON else if r.readonly then CLOSED else reason;
    if s.cl[c].readonly then s
    else if refusal != [] then Send(s, c, JoinDenied(r.name, refusal))
    else AddClient(s.(channels := if h in s.channels then s.channels else s.channels + [h]), h, c)
  }

  ghost predicate CanJoin(s: Server, c: Client) {
    && c in s.cl
    && (forall h <- s.channels :: h in s.ch)
    && (forall h <- s.ch, d <- s.ch[h].clients :: d in s.cl)
  }

  /** `made` is the object made for the channel should there be none of that name. */
  ghost function Join(s: Server, c: Client, name: Text, hidden: bool, autoclose: bool, made: Channel): Server
    requires CanJoin(s, c)
  {
    if !s.cl[c].approved || (|name| <= 255 && 0 in name) then MarkReadonly(s, c)
    else if |name| > 255 then
      MarkReadonly(if s.cl[c].readonly then s
                   else Send(s, c, JoinDenied(name[..255], Ascii("Channel name too long."))), c)
    else
      match FindOpen(s, s.channels, name)
      case Some(h) => JoinResponse(s, h, c, [])
      case None =>
        var (l, id) := Lend(s.channelIds);
        if id == None then s.(channelIds := l)
        else
          JoinResponse(s.(channelIds := l, ch := s.ch[made :=
              ChannelRec(id.value, name, hidden, autoclose, Some(c), false, [])]), made, c, [])
  }

  /** The channel with this id that the client is on. */
  ghost function FindJoined(s: Server, hs: seq<Channel>, id: nat): (r: Option<Channel>)
    requires forall h <- hs :: h in s.ch
    ensures r == None ==> forall h <- hs :: s.ch[h].id != id
    ensures r != None ==> r.value in hs && s.ch[r.value].id == id
  {
    if hs == [] then None else if s.ch[hs[0]].id == id then Some(hs[0]) else FindJoined(s, hs[1..], id)
  }

  /** The member with this id. */
  ghost function FindMember(s: Server, cs: seq<Client>, id: nat): (r: Option<Client>)
    requires forall c <- cs :: c in s.cl
    ensures r == None ==> forall c <- cs :: s.cl[c].id != id
    ensures r != None ==> r.value in cs && s.cl[r.value].id == id
  {
    if cs == [] then None else if s.cl[cs[0]].id == id then Some(cs[0]) else FindMember(s, cs[1..], id)
  }

  ghost function Leave(s: Server, c: Client, id: nat): Server
    requires c in s.cl && forall h <- s.cl[c].channels :: h in s.ch
  {
    if !s.cl[c].approved then MarkReadonly(s, c)
    else
      match FindJoined(s, s.cl[c].channels, id)
      case None =>
        Send(s, c, LeaveDenied(id, Ascii("Channel ID is not in your client's joined channel list.")))
      case Some(h) => RemoveClient(s, h, c)
  }

  /* ---- messages between clients ---- */

  ghost function ChannelMessage(s: Server, c: Client, id: nat, variant: byte, subchannel: byte, data: Text): Server
    requires c in s.cl && forall h <- s.cl[c].channels :: h in s.ch
  {
    if !s.cl[c].approved then MarkReadonly(s, c)
    else
      match FindJoined(s, s.cl[c].channels, id)
      case None => s
      case Some(h) =>
        if s.ch[h].readonly || s.cl[c].readonly || |s.ch[h].clients| <= 1 then s
        else SendAll(s, Remove(s.ch[h].clients, c), ChannelMsg(s.ch[h].id, s.cl[c].id, variant, subchannel, data))
  }

  /** A message for a channel the sender is not on is dropped, as is one for
      nobody on it, for the sender itself or for a client on its way out. */
  ghost function PeerMessage(s: Server, c: Client, id: nat, peerId: nat, variant: byte, subchannel: byte,
                             data: Text): Server
    requires c in s.cl && forall h <- s.cl[c].channels :: h in s.ch && forall d <- s.ch[h].clients :: d in s.cl
  {
    if !s.cl[c].approved then MarkReadonly(s, c)
    else
      match FindJoined(s, s.cl[c].channels, id)
      case None => s
      case Some(h) =>
        match FindMember(s, s.ch[h].clients, peerId)
        case None => s
        case Some(d) =>
          if d == c || s.ch[h].readonly || s.cl[d].readonly || s.cl[d].id == s.cl[c].id then s
          else Send(s, d, PeerMsg(s.ch[h].id, s.cl[c].id, variant, subchannel, data))
  }
}
