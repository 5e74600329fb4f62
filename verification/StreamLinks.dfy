/** Links between streams, some of them for so many bytes only. */
module StreamLinks {
  import opened Bytes
  import opened Seqs
  import opened Wrappers

  class Target {
    var received: seq<byte>
    var prev: seq<Link>

    constructor ()
      ensures received == [] && prev == []
    {
      received, prev := [], [];
    }
  }

  /** A link to a stream that is not transparent; `bytesLeft` is None for one
      without a limit. */
  class Link {
    const to: Target
    var bytesLeft: Option<nat>
    ghost var forwarded: seq<byte>

    constructor (to: Target, limit: Option<nat>)
      ensures this.to == to && bytesLeft == limit && forwarded == []
    {
      this.to := to;
      bytesLeft, forwarded := limit, [];
    }
  }

  /** How much of a push a link takes. */
  function Share(left: Option<nat>, size: nat): (n: nat)
    ensures n <= size
  {
    if left != None && size > left.value then left.value else size
  }

  function LeftAfter(left: Option<nat>, size: nat): Option<nat> {
    if left == None then None else Some(left.value - Share(left, size))
  }

  /** Whether that push is a link's last: its limit is reached, or, of a link
      without one, its source has nothing left. */
  predicate Expires(left: Option<nat>, size: nat, sourceLeft: Option<nat>) {
    if left == None then sourceLeft == Some(0) else LeftAfter(left, size) == Some(0)
  }

  class Source {
    var next: seq<Link>
    ghost var made: set<Link>  // all the links there have been

    /** Both ends of every link know it, once. */
    ghost predicate Valid()
      reads this, made, Ends(made)
    {
      Known() && forall l <- next :: l.bytesLeft != Some(0)
    }

    constructor ()
      ensures Valid() && next == [] && made == {}
    {
      next, made := [], {};
    }

    /** A stream asks for so many bytes of this one, or for all of them. */
    method Connect(to: Target, limit: Option<nat>) returns (link: Link)
      requires Valid() && limit != Some(0) && NoDup(to.prev)
      modifies this, to`prev
      ensures Valid() && fresh(link) && link.to == to && link.bytesLeft == limit && link.forwarded == []
      ensures next == old(next) + [link] && to.prev == old(to.prev) + [link] && made == old(made) + {link}
    {
      link := new Link(to, limit);
      next, made := next + [link], made + {link};
      to.prev := to.prev + [link];
    }

    /** To one link, its share; whether that was the last of it. */
    method Forward(link: Link, data: seq<byte>, sourceLeft: Option<nat>) returns (last: bool)
      modifies link, link.to`received
      ensures link.forwarded == old(link.forwarded) + data[..Share(old(link.bytesLeft), |data|)]
      ensures link.to.received == old(link.to.received) + data[..Share(old(link.bytesLeft), |data|)]
      ensures link.bytesLeft == LeftAfter(old(link.bytesLeft), |data|)
      ensures last == Expires(old(link.bytesLeft), |data|, sourceLeft)
    {
      var toWrite := if link.bytesLeft != None && |data| > link.bytesLeft.value then link.bytesLeft.value else |data|;
      link.to.received := link.to.received + data[..toWrite];
      link.forwarded := link.forwarded + data[..toWrite];
      if link.bytesLeft == None {
        return sourceLeft == Some(0);
      }
      link.bytesLeft := Some(link.bytesLeft.value - toWrite);
      return link.bytesLeft.value == 0;
    }

    /** A link is known to both its ends, once, or to neither. */
    ghost predicate Known()
      reads this, Ends(made)
    {
      && NoDup(next) && (forall l <- next :: l in made)
      && (forall l <- made :: NoDup(l.to.prev) && (l in l.to.prev <==> l in next))
    }

    /** A link goes from both its ends. */
    method Unlink(link: Link)
      requires Known() && link in next
      modifies this`next, link.to`prev
      ensures Known() && next == Remove(old(next), link) && link.to.prev == Remove(old(link.to.prev), link)
      ensures link !in next && (forall l <- next :: l in old(next)) && forall l <- old(next) :: l != link ==> l in next
    {
      RemoveMembers(next, link);
      RemoveMembers(link.to.prev, link);
      hide Remove, NoDup;
      next := Remove(next, link);
      link.to.prev := Remove(link.to.prev, link);
    }

    /** What a link has come to, with `data` pushed. */
    twostate predicate Pushed(l: Link, data: seq<byte>, sourceLeft: Option<nat>)
      reads this, l
    {
      Got(l, data) && (l in next <==> !Expires(old(l.bytesLeft), |data|, sourceLeft))
    }

    /** It has got its share. */
    twostate predicate Got(l: Link, data: seq<byte>)
      reads l
    {
      && l.forwarded == old(l.forwarded) + data[..Share(old(l.bytesLeft), |data|)]
      && l.bytesLeft == LeftAfter(old(l.bytesLeft), |data|)
    }

    method PushOne(link: Link, data: seq<byte>, sourceLeft: Option<nat>)
      requires Known() && link in next
      modifies this`next, link, link.to
      ensures Known() && Pushed(link, data, sourceLeft)
      ensures (forall l <- next :: l in old(next)) && forall l <- old(next) :: l != link ==> l in next
    {
      hide Remove, NoDup, Share, LeftAfter, Expires;
      var last := Forward(link, data, sourceLeft);
      if last {
        Unlink(link);
      }
    }

    /** Each link there was gets its share, whatever becomes of the others. */
    method Push(data: seq<byte>, sourceLeft: Option<nat>)
      requires Valid()
      modifies this`next, Set(next), Targets(next)
      ensures Valid() && forall l <- next :: l in old(next)
      ensures forall l <- old(next) :: Pushed(l, data, sourceLeft)
    {
      hide Share, LeftAfter, Expires;
      var links := next;
      KeptHasMore();
      assert forall i, j | 0 <= i < j < |links| :: links[i] != links[j];
      hide NoDup;
      for i := 0 to |links|
        invariant Known() && (forall l <- next :: l in links)
        invariant forall j | 0 <= j < i :: Pushed(links[j], data, sourceLeft)
        invariant forall j | i <= j < |links| ::
                    && links[j] in next && links[j].forwarded == old(links[j].forwarded)
                    && links[j].bytesLeft == old(links[j].bytesLeft)
      {
        PushOne(links[i], data, sourceLeft);
      }
    }
  }

  /* ---- any number of pushes ---- */

  /** However the source's bytes come, and whatever it has left at each push: a link
      made for so many of them has got the first so many, in order, and one made
      without a limit all up to the push at which the source had nothing left; it is
      gone from both ends once it has got them, and not before, whatever other links
      there are. */
  method PushAll(source: Source, datas: seq<seq<byte>>, lefts: seq<Option<nat>>)
    requires source.Valid() && |datas| == |lefts| && forall l <- source.next :: l.forwarded == []
    modifies source`next, Set(source.next), Targets(source.next)
    ensures source.Valid()
    ensures forall l <- old(source.next) ::
              && l.forwarded == Due(old(l.bytesLeft), datas, lefts)
              && (l in source.next <==> Ongoing(old(l.bytesLeft), |Flatten(datas)|, lefts))
              && (l in l.to.prev <==> l in source.next)
  {
    hide NoDup, Share, LeftAfter, Expires, Due, Ongoing;
    ghost var links := source.next;
    NothingYet();
    for i := 0 to |datas|
      invariant source.Valid() && source.made == old(source.made) && forall l <- source.next :: l in links
      invariant forall l <- links :: SoFar(source, l, datas[..i], lefts[..i])
    {
      assert datas[..i + 1] == datas[..i] + [datas[i]] && lefts[..i + 1] == lefts[..i] + [lefts[i]];
      forall l <- links ensures Continues(old(l.bytesLeft), datas[..i], lefts[..i], datas[i], lefts[i]) {
        ItContinues(old(l.bytesLeft), datas[..i], lefts[..i], datas[i], lefts[i]);
      }
      source.Push(datas[i], lefts[i]);
    }
    assert datas[..|datas|] == datas && lefts[..|lefts|] == lefts;
  }

  lemma KeptHasMore()
    ensures forall left: Option<nat>, size: nat, sourceLeft: Option<nat> ::
              !Expires(left, size, sourceLeft) ==> LeftAfter(left, size) != Some(0)
  {
  }

  /** The pushes up to the first at which the source has nothing left. */
  function Until(lefts: seq<Option<nat>>): (n: nat)
    ensures n <= |lefts|
  {
    if lefts == [] then 0 else if lefts[0] == Some(0) then 1 else 1 + Until(lefts[1..])
  }

  lemma {:induction false} UntilMore(lefts: seq<Option<nat>>, left: Option<nat>)
    ensures Some(0) !in lefts ==> Until(lefts) == |lefts|
    ensures Until(lefts + [left]) == if Some(0) in lefts then Until(lefts) else |lefts| + 1
  {
    if lefts != [] {
      UntilMore(lefts[1..], left);
      assert (lefts + [left])[0] == lefts[0] && (lefts + [left])[1..] == lefts[1..] + [left];
    }
  }

  /** What a link is to get of some pushes. */
  function Due(limit: Option<nat>, datas: seq<seq<byte>>, lefts: seq<Option<nat>>): seq<byte>
    requires |datas| == |lefts|
  {
    if limit == None then Flatten(datas[..Until(lefts)]) else Flatten(datas)[..Share(limit, |Flatten(datas)|)]
  }

  /** It has yet to get more. */
  predicate Ongoing(limit: Option<nat>, size: nat, lefts: seq<Option<nat>>) {
    if limit == None then Some(0) !in lefts else size < limit.value
  }

  lemma NothingYet()
    ensures forall limit :: Due(limit, [], []) == [] && LeftAfter(limit, 0) == limit
    ensures forall limit :: limit != Some(0) ==> Ongoing(limit, 0, [])
  {
  }

  /** One push more: of an ongoing link it is the next share, and the last if it
      completes what is due; of a link that has gone it changes nothing. */
  ghost predicate Continues(limit: Option<nat>, datas: seq<seq<byte>>, lefts: seq<Option<nat>>, data: seq<byte>,
                            sourceLeft: Option<nat>)
    requires |datas| == |lefts|
  {
    var total, all := |Flatten(datas)|, |Flatten(datas + [data])|;
    var was, now := Due(limit, datas, lefts), Due(limit, datas + [data], lefts + [sourceLeft]);
    var left := LeftAfter(limit, total);
    if Ongoing(limit, total, lefts) then
      && was + data[..Share(left, |data|)] == now
      && LeftAfter(left, |data|) == LeftAfter(limit, all)
      && (Expires(left, |data|, sourceLeft) <==> !Ongoing(limit, all, lefts + [sourceLeft]))
    else
      was == now && left == LeftAfter(limit, all) && !Ongoing(limit, all, lefts + [sourceLeft])
  }

  lemma ItContinues(limit: Option<nat>, datas: seq<seq<byte>>, lefts: seq<Option<nat>>, data: seq<byte>,
                    sourceLeft: Option<nat>)
    requires |datas| == |lefts|
    ensures Continues(limit, datas, lefts, data, sourceLeft)
  {
    FlattenAppend(datas, [data]);
    assert Flatten([data]) == data;
    UntilMore(lefts, sourceLeft);
    if limit == None {
      if Some(0) in lefts {
        assert (datas + [data])[..Until(lefts)] == datas[..Until(lefts)];
      } else {
        assert datas[..|lefts|] == datas && (datas + [data])[..|lefts| + 1] == datas + [data];
      }
      assert data[..|data|] == data;
    }
  }

  /** Where a link is, after some pushes. */
  twostate predicate SoFar(source: Source, l: Link, datas: seq<seq<byte>>, lefts: seq<Option<nat>>)
    requires |datas| == |lefts|
    reads source, l
  {
    && l.forwarded == Due(old(l.bytesLeft), datas, lefts)
    && l.bytesLeft == LeftAfter(old(l.bytesLeft), |Flatten(datas)|)
    && (l in source.next <==> Ongoing(old(l.bytesLeft), |Flatten(datas)|, lefts))
  }

  ghost function Ends(ls: set<Link>): set<Target> {
    set l <- ls :: l.to
  }

  ghost function Targets(ls: seq<Link>): set<Target> {
    set l <- ls :: l.to
  }
}
