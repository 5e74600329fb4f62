/** The ping timer: who is pinged, and who is given up on. */
module RelayPing {
  import opened Seqs

  /** What the timer goes by, in milliseconds. */
  datatype Limits = Limits(tcpPing: nat, udpKeepAlive: nat, maxInactivity: nat)

  /** What is known of a client: whether it has answered, and when it last sent
      anything over TCP, over UDP, and to a channel, a peer or the server. */
  datatype Watch = Watch(ponged: bool, pseudoUdp: bool, lastTcp: int, lastUdp: int, lastActive: int)

  datatype Verdict = Fine | Pinged | Unresponsive | Inactive

  function UdpSilence(w: Watch, now: int): int {
    if w.pseudoUdp then 0 else now - w.lastUdp
  }

  /** What a tick makes of a client that is not on its way out. */
  function Tick(l: Limits, w: Watch, now: int): (Watch, Verdict) {
    var silent := now - w.lastTcp >= l.tcpPing;
    var w1 := if silent then w else w.(ponged := true);
    if !silent && UdpSilence(w, now) < l.udpKeepAlive then (w1, Fine)
    else if now - w.lastActive > l.maxInactivity then (w1, Inactive)
    else if !w1.ponged then (w1, Unresponsive)
    else if silent then (w1.(ponged := false), Pinged)
    else (w1, Fine)
  }

  datatype Event =
    | Ticked(now: int)
    | Tcp(now: int, pong: bool, activity: bool)
    | Udp(now: int, activity: bool)

  function Heard(w: Watch, e: Event): Watch
    requires !e.Ticked?
  {
    var w1 := if e.activity then w.(lastActive := e.now) else w;
    if e.Udp? then w1.(lastUdp := e.now, pseudoUdp := false)
    else w1.(lastTcp := e.now, ponged := w.ponged || e.pong)
  }

  /** What each tick of a schedule comes to. */
  function Verdicts(l: Limits, w: Watch, es: seq<Event>): seq<Verdict>
    decreases |es|
  {
    if es == [] then []
    else if es[0].Ticked? then
      var (w1, v) := Tick(l, w, es[0].now);
      [v] + Verdicts(l, w1, es[1..])
    else Verdicts(l, Heard(w, es[0]), es[1..])
  }

  /* ---- a client that answers ---- */

  /** Each ping is answered before the next tick; `owing` is one that has not
      been yet. */
  predicate Answers(l: Limits, w: Watch, es: seq<Event>, owing: bool)
    decreases |es|
  {
    es == [] ||
    if es[0].Ticked? then
      var (w1, v) := Tick(l, w, es[0].now);
      !owing && Answers(l, w1, es[1..], v == Pinged)
    else Answers(l, Heard(w, es[0]), es[1..], owing && !(es[0].Tcp? && es[0].pong))
  }

  /** Such a client is never given up on as unresponsive, whatever the times. */
  lemma {:induction false} AnsweringIsSafe(l: Limits, w: Watch, es: seq<Event>, owing: bool)
    requires Answers(l, w, es, owing) && (w.ponged || owing)
    ensures Unresponsive !in Verdicts(l, w, es)
    decreases |es|
  {
    if es != [] {
      if es[0].Ticked? {
        var (w1, v) := Tick(l, w, es[0].now);
        AnsweringIsSafe(l, w1, es[1..], v == Pinged);
      } else {
        AnsweringIsSafe(l, Heard(w, es[0]), es[1..], owing && !(es[0].Tcp? && es[0].pong));
      }
    }
  }

  /* ---- a client that is silent ---- */

  predicate Caught(v: Verdict) {
    v == Unresponsive || v == Inactive
  }

  /** Nothing comes over TCP, and time does not go back. */
  predicate Quiet(es: seq<Event>, from: int) {
    es == [] || (!es[0].Tcp? && es[0].now >= from && Quiet(es[1..], es[0].now))
  }

  /** Once unanswered, the next tick catches it. */
  lemma {:induction false} UnansweredIsCaught(l: Limits, w: Watch, es: seq<Event>, from: int)
    requires !w.ponged && from - w.lastTcp >= l.tcpPing && Quiet(es, from)
    ensures var vs := Verdicts(l, w, es);
      vs != [] ==> Caught(vs[0])
    decreases |es|
  {
    if es != [] && !es[0].Ticked? {
      UnansweredIsCaught(l, Heard(w, es[0]), es[1..], es[0].now);
    }
  }

  /** The number of ticks at which the client has not been silent for long. */
  function Early(l: Limits, lastTcp: int, es: seq<Event>): nat {
    if es == [] then 0
    else (if es[0].Ticked? && es[0].now - lastTcp < l.tcpPing then 1 else 0) + Early(l, lastTcp, es[1..])
  }

  lemma {:induction false} NoneEarly(l: Limits, lastTcp: int, es: seq<Event>, from: int)
    requires Quiet(es, from) && from - lastTcp >= l.tcpPing
    ensures Early(l, lastTcp, es) == 0
  {
    if es != [] { NoneEarly(l, lastTcp, es[1..], es[0].now); }
  }

  /** A silent client is caught, one way or the other, no later than at the
      second tick at which its silence has lasted for the ping time. */
  lemma {:induction false} SilenceIsCaught(l: Limits, w: Watch, es: seq<Event>, from: int)
    requires Quiet(es, from)
    ensures var vs, k := Verdicts(l, w, es), Early(l, w.lastTcp, es);
      k + 1 < |vs| ==> Caught(vs[k]) || Caught(vs[k + 1])
    decreases |es|
  {
    if es != [] {
      if !es[0].Ticked? {
        SilenceIsCaught(l, Heard(w, es[0]), es[1..], es[0].now);
      } else {
        var (w1, v) := Tick(l, w, es[0].now);
        if es[0].now - w.lastTcp < l.tcpPing {
          SilenceIsCaught(l, w1, es[1..], es[0].now);
        } else {
          NoneEarly(l, w.lastTcp, es[1..], es[0].now);
          if !Caught(v) { UnansweredIsCaught(l, w1, es[1..], es[0].now); }
        }
      }
    }
  }

  /* ---- and no sooner than is due ---- */

  function Step(l: Limits, w: Watch, e: Event): Watch {
    if e.Ticked? then Tick(l, w, e.now).0 else Heard(w, e)
  }

  function After(l: Limits, w: Watch, es: seq<Event>): Watch {
    if es == [] then w else Step(l, After(l, w, es[..|es| - 1]), es[|es| - 1])
  }

  lemma {:induction false} VerdictsAfter(l: Limits, w: Watch, es: seq<Event>, now: int)
    ensures Verdicts(l, w, es + [Ticked(now)]) == Verdicts(l, w, es) + [Tick(l, After(l, w, es), now).1]
    decreases |es|
  {
    if es == [] {
      assert es + [Ticked(now)] == [Ticked(now)] && [Ticked(now)][1..] == [];
    } else {
      assert (es + [Ticked(now)])[0] == es[0] && (es + [Ticked(now)])[1..] == es[1..] + [Ticked(now)];
      VerdictsAfter(l, Step(l, w, es[0]), es[1..], now);
      AfterFirst(l, w, es);
    }
  }

  lemma {:induction false} AfterFirst(l: Limits, w: Watch, es: seq<Event>)
    requires es != []
    ensures After(l, Step(l, w, es[0]), es[1..]) == After(l, w, es)
    decreases |es|
  {
    if |es| > 1 {
      var n := |es| - 1;
      assert es[..n][0] == es[0] && es[..n][1..] == es[1..][..n - 1] && es[1..][n - 1] == es[n];
      AfterFirst(l, w, es[..n]);
    } else {
      assert es[..0] == [] && es[1..] == [];
    }
  }

  /** When the client last sent anything over TCP, given when it had before. */
  function LastTcp(first: int, es: seq<Event>): int {
    if es == [] then first
    else if es[|es| - 1].Tcp? then es[|es| - 1].now
    else LastTcp(first, es[..|es| - 1])
  }

  lemma {:induction false} LastTcpIs(l: Limits, w: Watch, es: seq<Event>)
    ensures After(l, w, es).lastTcp == LastTcp(w.lastTcp, es)
  {
    if es != [] {
      LastTcpIs(l, w, es[..|es| - 1]);
    }
  }

  predicate SilentAt(l: Limits, w: Watch, es: seq<Event>, i: nat)
    requires i < |es|
  {
    es[i].Ticked? && es[i].now - LastTcp(w.lastTcp, es[..i]) >= l.tcpPing
  }

  /** The client pongs, or is found to have sent something of late. */
  predicate Redeems(l: Limits, w: Watch, es: seq<Event>, i: nat)
    requires i < |es|
  {
    (es[i].Tcp? && es[i].pong) || (es[i].Ticked? && !SilentAt(l, w, es, i))
  }

  /** It was pinged by one tick, and has not redeemed itself since. */
  predicate PingedBy(l: Limits, w: Watch, es: seq<Event>, i: nat)
    requires i < |es|
  {
    && SilentAt(l, w, es, i) && Tick(l, After(l, w, es[..i]), es[i].now).1 == Pinged
    && forall j | i < j < |es| :: !Redeems(l, w, es, j)
  }

  lemma StillSilent(l: Limits, w: Watch, es: seq<Event>, i: nat)
    requires i < |es| - 1
    ensures SilentAt(l, w, es, i) <==> SilentAt(l, w, es[..|es| - 1], i)
    ensures Redeems(l, w, es, i) <==> Redeems(l, w, es[..|es| - 1], i)
    ensures After(l, w, es[..i]) == After(l, w, es[..|es| - 1][..i])
  {
    assert es[..|es| - 1][..i] == es[..i];
  }

  /** A client that has answered so far owes an answer just if a tick has pinged it
      and it has not redeemed itself since. */
  lemma {:induction false} OwesOnlyPings(l: Limits, w: Watch, es: seq<Event>)
    requires w.ponged
    ensures !After(l, w, es).ponged <==> exists i: nat :: i < |es| && PingedBy(l, w, es, i)
  {
    if es != [] {
      var n := |es| - 1;
      OwesOnlyPings(l, w, es[..n]);
      LastTcpIs(l, w, es[..n]);
      forall i: nat | i < n ensures PingedBy(l, w, es, i) <==> PingedBy(l, w, es[..n], i) && !Redeems(l, w, es, n) {
        StillSilent(l, w, es, i);
        forall j: nat | i < j < n ensures Redeems(l, w, es, j) <==> Redeems(l, w, es[..n], j) {
          StillSilent(l, w, es, j);
        }
      }
      var was := After(l, w, es[..n]);
      if Redeems(l, w, es, n) {
        assert After(l, w, es).ponged;
      } else if PingedBy(l, w, es, n) {
        assert !After(l, w, es).ponged;
      } else {
        assert After(l, w, es).ponged == was.ponged;
        if i: nat :| i < n && PingedBy(l, w, es[..n], i) {
          assert PingedBy(l, w, es, i);
        }
      }
    }
  }

  /* ---- the verdict, from what has happened ---- */

  /** When it last sent anything that counts as activity. */
  function LastActive(first: int, es: seq<Event>): int {
    if es == [] then first
    else
      var e := es[|es| - 1];
      if !e.Ticked? && e.activity then e.now else LastActive(first, es[..|es| - 1])
  }

  /** For how long nothing has come over UDP; no time at all where UDP has never been
      used and need not be. */
  function UdpIdle(w: Watch, es: seq<Event>, now: int): int {
    if es == [] then UdpSilence(w, now)
    else if es[|es| - 1].Udp? then now - es[|es| - 1].now
    else UdpIdle(w, es[..|es| - 1], now)
  }

  lemma {:induction false} LastActiveIs(l: Limits, w: Watch, es: seq<Event>, now: int)
    ensures After(l, w, es).lastActive == LastActive(w.lastActive, es)
    ensures UdpSilence(After(l, w, es), now) == UdpIdle(w, es, now)
    decreases |es|
  {
    if es != [] {
      LastActiveIs(l, w, es[..|es| - 1], now);
    }
  }

  predicate TcpSilent(l: Limits, w: Watch, es: seq<Event>, now: int) {
    now - LastTcp(w.lastTcp, es) >= l.tcpPing
  }

  predicate UdpSilent(l: Limits, w: Watch, es: seq<Event>, now: int) {
    UdpIdle(w, es, now) >= l.udpKeepAlive
  }

  predicate Idle(l: Limits, w: Watch, es: seq<Event>, now: int) {
    now - LastActive(w.lastActive, es) > l.maxInactivity
  }

  predicate Owes(l: Limits, w: Watch, es: seq<Event>) {
    exists i: nat :: i < |es| && PingedBy(l, w, es, i)
  }

  function LastVerdict(l: Limits, w: Watch, es: seq<Event>, now: int): Verdict {
    VerdictsAfter(l, w, es, now);
    var vs := Verdicts(l, w, es + [Ticked(now)]);
    vs[|vs| - 1]
  }

  lemma TickNow(l: Limits, w: Watch, es: seq<Event>, now: int)
    requires w.ponged
    ensures LastVerdict(l, w, es, now) == Tick(l, After(l, w, es), now).1
    ensures var a := After(l, w, es);
      && (TcpSilent(l, w, es, now) <==> now - a.lastTcp >= l.tcpPing)
      && (UdpSilent(l, w, es, now) <==> UdpSilence(a, now) >= l.udpKeepAlive)
      && (Idle(l, w, es, now) <==> now - a.lastActive > l.maxInactivity) && (Owes(l, w, es) <==> !a.ponged)
  {
    VerdictsAfter(l, w, es, now);
    LastTcpIs(l, w, es);
    LastActiveIs(l, w, es, now);
    OwesOnlyPings(l, w, es);
  }

  /** Over any schedule: a client is given up on as unresponsive just at a tick at
      which it is silent and owes an answer to a ping, and is not inactive. */
  lemma UnresponsiveIsDue(l: Limits, w: Watch, es: seq<Event>, now: int)
    requires w.ponged
    ensures LastVerdict(l, w, es, now) == Unresponsive <==>
            TcpSilent(l, w, es, now) && Owes(l, w, es) && !Idle(l, w, es, now)
  {
    TickNow(l, w, es, now);
  }

  /** It is dropped for inactivity just if that has lasted for too long, and if it is
      silent, or its address is to be kept open: however well it answers. */
  lemma InactiveIsDue(l: Limits, w: Watch, es: seq<Event>, now: int)
    requires w.ponged
    ensures LastVerdict(l, w, es, now) == Inactive <==>
            Idle(l, w, es, now) && (TcpSilent(l, w, es, now) || UdpSilent(l, w, es, now))
  {
    TickNow(l, w, es, now);
  }

  /** It is pinged just if it is silent and neither idle nor owing an answer. */
  lemma PingedIsDue(l: Limits, w: Watch, es: seq<Event>, now: int)
    requires w.ponged
    ensures LastVerdict(l, w, es, now) == Pinged <==>
            TcpSilent(l, w, es, now) && !Owes(l, w, es) && !Idle(l, w, es, now)
  {
    TickNow(l, w, es, now);
  }

  /** Whether its address is to be kept open by a UDP message. */
  predicate NeedsUdp(l: Limits, w: Watch, now: int) {
    !Caught(Tick(l, w, now).1) && UdpSilence(w, now) >= l.udpKeepAlive
  }

  /** A UDP message goes out just if none has come for long and it is not dropped. */
  lemma KeepAliveIsDue(l: Limits, w: Watch, es: seq<Event>, now: int)
    requires w.ponged
    ensures NeedsUdp(l, After(l, w, es), now) <==>
            UdpSilent(l, w, es, now) && !Idle(l, w, es, now) && !(TcpSilent(l, w, es, now) && Owes(l, w, es))
  {
    TickNow(l, w, es, now);
  }

  /** Something comes over TCP within the ping time of each tick, and over UDP
      within the time it is kept alive for. */
  predicate Busy(l: Limits, w: Watch, es: seq<Event>)
    decreases |es|
  {
    es == [] ||
    if es[0].Ticked? then
      && es[0].now - w.lastTcp < l.tcpPing && UdpSilence(w, es[0].now) < l.udpKeepAlive
      && Busy(l, Tick(l, w, es[0].now).0, es[1..])
    else Busy(l, Heard(w, es[0]), es[1..])
  }

  /** Such a client is let be, even if for all that time it sends nothing that
      counts as activity: inactivity alone is no ground. */
  lemma {:induction false} BusyIsLetBe(l: Limits, w: Watch, es: seq<Event>)
    requires Busy(l, w, es)
    ensures forall v <- Verdicts(l, w, es) :: v == Fine
    decreases |es|
  {
    if es != [] {
      BusyIsLetBe(l, Step(l, w, es[0]), es[1..]);
    }
  }

  /* ---- the timer itself ---- */

  class PingClient {
    var readonly: bool
    var pongedOnTCP: bool
    var pseudoUDP: bool
    var lastTcpMessageTime: int
    var lastUdpMessageTime: int
    var lastChannelOrPeerMessageTime: int
    var pings: nat  // sent to it over TCP
    var udpPings: nat

    constructor (now: int)
      ensures Watched() == Watch(true, false, now, now, now) && !readonly && pings == udpPings == 0
    {
      readonly, pongedOnTCP, pseudoUDP, pings, udpPings := false, true, false, 0, 0;
      lastTcpMessageTime, lastUdpMessageTime, lastChannelOrPeerMessageTime := now, now, now;
    }

    function Watched(): Watch
      reads this
    {
      Watch(pongedOnTCP, pseudoUDP, lastTcpMessageTime, lastUdpMessageTime, lastChannelOrPeerMessageTime)
    }

    function Verdict(l: Limits, now: int): Verdict
      reads this
    {
      if readonly then Fine else Tick(l, Watched(), now).1
    }

    predicate KeptAlive(l: Limits, now: int)
      reads this
    {
      !readonly && NeedsUdp(l, Watched(), now)
    }
  }

  /** What a tick does to a client, whatever it decides. */
  twostate predicate Ticks(c: PingClient, l: Limits, now: int)
    reads c
  {
    && c.Watched() == (if c.readonly then old(c.Watched()) else Tick(l, old(c.Watched()), now).0)
    && c.pings == old(c.pings) + (if old(c.Verdict(l, now)) == Pinged then 1 else 0)
    && c.udpPings == old(c.udpPings) + (if old(c.KeptAlive(l, now)) then 1 else 0)
  }

  method TickOne(l: Limits, client: PingClient, now: int) returns (v: Verdict)
    modifies client`pongedOnTCP, client`pings, client`udpPings
    ensures v == old(client.Verdict(l, now)) && Ticks(client, l, now)
  {
    if client.readonly {
      return Fine;
    }
    var elapsedTcp := now - client.lastTcpMessageTime;
    var elapsedNonPing := now - client.lastChannelOrPeerMessageTime;
    var elapsedUdp := 0;
    if !client.pseudoUDP {
      elapsedUdp := now - client.lastUdpMessageTime;
    }
    if elapsedTcp < l.tcpPing {
      client.pongedOnTCP := true;
      if elapsedUdp < l.udpKeepAlive {
        return Fine;
      }
    }
    if elapsedNonPing > l.maxInactivity {
      return Inactive;
    }
    if !client.pongedOnTCP {
      return Unresponsive;
    }
    v := Fine;
    if elapsedTcp >= l.tcpPing {
      client.pongedOnTCP := false;
      client.pings := client.pings + 1;
      v := Pinged;
    }
    if elapsedUdp >= l.udpKeepAlive {
      client.udpPings := client.udpPings + 1;
    }
  }

  /** Every client is looked at once; the lists are just of those to be dropped. */
  method PingTimerTick(l: Limits, clients: seq<PingClient>, now: int)
    returns (unresponsive: seq<PingClient>, inactive: seq<PingClient>)
    requires NoDup(clients)
    modifies (set c <- clients)`pongedOnTCP, (set c <- clients)`pings, (set c <- clients)`udpPings
    ensures forall c <- unresponsive :: c in clients
    ensures forall c <- inactive :: c in clients
    ensures forall c <- clients :: c in unresponsive <==> old(c.Verdict(l, now)) == Unresponsive
    ensures forall c <- clients :: c in inactive <==> old(c.Verdict(l, now)) == Inactive
    ensures forall c <- clients :: Ticks(c, l, now)
  {
    hide Tick;
    unresponsive, inactive := [], [];
    for i := 0 to |clients|
      invariant forall c <- unresponsive :: c in clients[..i]
      invariant forall c <- inactive :: c in clients[..i]
      invariant forall j | 0 <= j < i :: clients[j] in unresponsive <==> old(clients[j].Verdict(l, now)) == Unresponsive
      invariant forall j | 0 <= j < i :: clients[j] in inactive <==> old(clients[j].Verdict(l, now)) == Inactive
      invariant forall j | 0 <= j < i :: Ticks(clients[j], l, now)
      invariant forall j | i <= j < |clients| :: unchanged(clients[j])
    {
      assert clients[i].Verdict(l, now) == old(clients[i].Verdict(l, now));
      var v := TickOne(l, clients[i], now);
      if v == Unresponsive {
        unresponsive := unresponsive + [clients[i]];
      }
      if v == Inactive {
        inactive := inactive + [clients[i]];
      }
    }
  }
}
