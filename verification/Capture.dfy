/** The packet capture: subscriptions by endpoint, delivery, and closing. */
module Capture {
  import opened Basics

  type SubId = nat

  datatype Packet = Packet(number: nat, src: Endpoint, dst: Endpoint)

  const CHANNEL_CAPACITY := 64

  /** One subscription: its endpoint, what its channel holds, and how often the
      channel was closed. Closing twice panics, as does sending once closed. */
  datatype Sub = Sub(target: Endpoint, queue: seq<Packet>, closings: nat) {
    predicate Open() { closings == 0 }

    /** A send that gives up when the channel is full. */
    function Offered(pkt: Packet): Sub {
      if |queue| < CHANNEL_CAPACITY then this.(queue := queue + [pkt]) else this
    }

    function Closed(): Sub { this.(closings := closings + 1) }
  }

  datatype State = State(subs: map<Endpoint, seq<SubId>>, info: map<SubId, Sub>, next: SubId) {
    predicate Listed(target: Endpoint, id: SubId) {
      target in subs && id in subs[target]
    }

    predicate Registered(id: SubId) {
      id in info && Listed(info[id].target, id)
    }

    /** The lists hold open subscriptions, each once and under its own endpoint,
        and no list is empty. */
    ghost predicate Valid() {
      && (forall id :: id in info ==> id < next)
      && (forall t :: t in subs ==> subs[t] != [] && NoDuplicates(subs[t]))
      && (forall t, id :: t in subs && id in subs[t] ==> id in info && info[id].target == t && info[id].Open())
    }

    /** The subscriptions a packet is for. */
    predicate Addressed(id: SubId, pkt: Packet) {
      || (pkt.src.Valid() && Listed(pkt.src, id))
      || (pkt.dst.Valid() && Listed(pkt.dst, id))
    }
  }

  const EMPTY := State(map[], map[], 0)

  // ---- The atomic steps --------------------------------------------------------

  function ListUnder(subs: map<Endpoint, seq<SubId>>, target: Endpoint): seq<SubId> {
    if target in subs then subs[target] else []
  }

  function Subscribed(s: State, target: Endpoint): State {
    State(s.subs[target := ListUnder(s.subs, target) + [s.next]],
          s.info[s.next := Sub(target, [], 0)],
          s.next + 1)
  }

  /** `list` without the first occurrence of `id`. */
  function Without(list: seq<SubId>, id: SubId): (r: seq<SubId>)
    ensures id !in list ==> r == list
    ensures id in list ==> |r| == |list| - 1
    ensures forall x :: x in r ==> x in list
    ensures forall x :: x in list && x != id ==> x in r
  {
    if list == [] then []
    else if list[0] == id then
      assert list == [id] + list[1..];
      list[1..]
    else
      assert list == [list[0]] + list[1..];
      [list[0]] + Without(list[1..], id)
  }

  lemma {:induction false} WithoutDistinct(list: seq<SubId>, id: SubId)
    requires NoDuplicates(list)
    ensures NoDuplicates(Without(list, id)) && id !in Without(list, id)
  {
    if list != [] && list[0] != id {
      assert list[0] !in list[1..];
      WithoutDistinct(list[1..], id);
      var r := Without(list[1..], id);
      forall i, j | 0 <= i < j < |r| + 1 ensures ([list[0]] + r)[i] != ([list[0]] + r)[j] {
        assert r[j - 1] in r;
      }
    }
  }

  /** The part of closing a subscription that holds the lock. */
  function Removed(s: State, id: SubId): State
    requires id in s.info
  {
    var target := s.info[id].target;
    var list := Without(ListUnder(s.subs, target), id);
    s.(subs := if list == [] then s.subs - {target} else s.subs[target := list])
  }

  /** The part of closing a subscription that comes after the lock. */
  function ChannelClosed(s: State, id: SubId): State
    requires id in s.info
  {
    s.(info := s.info[id := s.info[id].Closed()])
  }

  function Sent(s: State, pkt: Packet): State {
    s.(info := map id | id in s.info :: if s.Addressed(id, pkt) then s.info[id].Offered(pkt) else s.info[id])
  }

  function Swept(s: State): State {
    State(map[], map id | id in s.info :: if s.Registered(id) then s.info[id].Closed() else s.info[id], s.next)
  }

  lemma {:induction false} SubscribedValid(s: State, target: Endpoint)
    requires s.Valid()
    ensures Subscribed(s, target).Valid()
    ensures s.next !in s.info
  {
    var list := ListUnder(s.subs, target);
    forall id | id in list ensures id in s.info && id < s.next {
      assert target in s.subs;
    }
    assert NoDuplicates(list + [s.next]) by {
      forall i, j | 0 <= i < j < |list| + 1 ensures (list + [s.next])[i] != (list + [s.next])[j] {
        assert list[i] in list;
      }
    }
  }

  lemma {:induction false} RemovedValid(s: State, id: SubId)
    requires s.Valid() && id in s.info
    ensures Removed(s, id).Valid() && !Removed(s, id).Registered(id)
    ensures forall x :: x != id && x in s.info ==> (Removed(s, id).Registered(x) <==> s.Registered(x))
  {
    var target := s.info[id].target;
    WithoutDistinct(ListUnder(s.subs, target), id);
  }

  lemma {:induction false} SweptValid(s: State)
    requires s.Valid()
    ensures Swept(s).Valid()
  {}

  // ---- The capture object ---------------------------------------------------------

  /** The endpoints that fingerprinting has marked: one flag each, however many
      probes of the endpoint are running. */
  class Discovery {
    var marked: set<Endpoint>

    constructor ()
      ensures marked == {}
    { marked := {}; }

    method Mark(endpoint: Endpoint)
      modifies this
      ensures marked == old(marked) + {endpoint}
    { marked := marked + {endpoint}; }

    method Clear(endpoint: Endpoint)
      modifies this
      ensures marked == old(marked) - {endpoint}
    { marked := marked - {endpoint}; }
  }

  class Capture {
    var subs: map<Endpoint, seq<SubId>>
    var info: map<SubId, Sub>
    var next: SubId

    constructor ()
      ensures View() == EMPTY
    {
      subs, info, next := map[], map[], 0;
    }

    ghost function View(): State
      reads this
    { State(subs, info, next) }

    method Subscribe(target: Endpoint) returns (id: SubId)
      modifies this
      ensures View() == Subscribed(old(View()), target) && id == old(next)
    {
      id := next;
      next := next + 1;
      info := info[id := Sub(target, [], 0)];
      subs := subs[target := (if target in subs then subs[target] else []) + [id]];
    }

    /** `Subscription.Close`: unlist under the lock, then close the channel. */
    method Unsubscribe(id: SubId)
      requires id in info
      modifies this
      ensures View() == ChannelClosed(Removed(old(View()), id), id)
    {
      Unlist(id);
      info := info[id := info[id].Closed()];
    }

    method Unlist(id: SubId)
      requires id in info
      modifies this`subs
      ensures View() == Removed(old(View()), id)
    {
      var target := info[id].target;
      var list := if target in subs then subs[target] else [];
      for i := 0 to |list|
        invariant subs == old(subs)
        invariant id !in list[..i]
      {
        if list[i] == id {
          WithoutAt(list, id, i);
          subs := subs[target := list[..i] + list[i + 1..]];
          break;
        }
      }
      if target !in subs || |subs[target]| == 0 {
        subs := subs - {target};
      }
    }

    /** Sends to the subscribers of both ends, to each at most once. */
    method Send(pkt: Packet)
      requires View().Valid()
      modifies this`info
      ensures View() == Sent(old(View()), pkt)
    {
      ghost var before := View();
      var targets := [pkt.src, pkt.dst];
      var sent: set<SubId> := {};
      for t := 0 to 2
        invariant info == Delivered(before, sent, pkt)
        invariant forall id :: id in sent <==>
                    exists k :: 0 <= k < t && targets[k].Valid() && before.Listed(targets[k], id)
      {
        var addr := targets[t];
        if !addr.Valid() {
          continue;
        }
        var list := if addr in subs then subs[addr] else [];
        ghost var already := sent;
        for i := 0 to |list|
          invariant info == Delivered(before, sent, pkt)
          invariant forall id :: id in sent <==> id in already || id in list[..i]
        {
          var id := list[i];
          assert list[..i + 1] == list[..i] + [id];
          if id in sent {
            continue;
          }
          if |info[id].queue| < CHANNEL_CAPACITY {
            info := info[id := info[id].(queue := info[id].queue + [pkt])];
          }
          sent := sent + {id};
        }
        assert list[..|list|] == list;
      }
      assert targets[0] == pkt.src && targets[1] == pkt.dst;
    }

    method Deliver(pkt: Packet, discovery: Discovery)
      requires View().Valid()
      modifies this`info
      ensures View() == if pkt.src in discovery.marked || pkt.dst in discovery.marked
                        then old(View()) else Sent(old(View()), pkt)
    {
      var isDiscoveringSrc := pkt.src in discovery.marked;
      var isDiscoveringDst := pkt.dst in discovery.marked;
      if isDiscoveringSrc || isDiscoveringDst {
        return;
      }
      Send(pkt);
    }

    method CloseAllSubs()
      requires View().Valid()
      modifies this
      ensures View() == Swept(old(View()))
    {
      ghost var before := View();
      var rest := subs.Keys;
      while rest != {}
        invariant rest <= before.subs.Keys && next == before.next
        invariant subs == map t | t in rest :: before.subs[t]
        invariant info == ClosedOutside(before, rest)
      {
        var addr :| addr in rest;
        ClosedMore(before, rest, addr);
        CloseEach(subs[addr]);
        rest := rest - {addr};
        subs := subs - {addr};
      }
    }

    method CloseEach(list: seq<SubId>)
      requires NoDuplicates(list) && forall id :: id in list ==> id in info
      modifies this`info
      ensures info == map id | id in old(info) :: if id in list then old(info)[id].Closed() else old(info)[id]
    {
      for i := 0 to |list|
        invariant info == map id | id in old(info) :: if id in list[..i] then old(info)[id].Closed() else old(info)[id]
      {
        var id := list[i];
        assert list[..i + 1] == list[..i] + [id];
        assert id in list && id !in list[..i];
        info := info[id := info[id].Closed()];
      }
      assert list[..|list|] == list;
    }
  }

  ghost function Delivered(s: State, sent: set<SubId>, pkt: Packet): map<SubId, Sub> {
    map id | id in s.info :: if id in sent then s.info[id].Offered(pkt) else s.info[id]
  }

  /** The registered subscriptions closed, except those of endpoints in `rest`. */
  ghost function ClosedOutside(s: State, rest: set<Endpoint>): map<SubId, Sub> {
    map id | id in s.info ::
      if s.Registered(id) && s.info[id].target !in rest then s.info[id].Closed() else s.info[id]
  }

  lemma {:induction false} ClosedMore(s: State, rest: set<Endpoint>, addr: Endpoint)
    requires s.Valid() && addr in rest && addr in s.subs
    ensures NoDuplicates(s.subs[addr]) && forall id :: id in s.subs[addr] ==> id in s.info
    ensures ClosedOutside(s, rest - {addr})
         == map id | id in s.info ::
              if id in s.subs[addr] then ClosedOutside(s, rest)[id].Closed() else ClosedOutside(s, rest)[id]
  {
    forall id | id in s.info
      ensures s.Registered(id) && s.info[id].target == addr <==> id in s.subs[addr]
    {
      assert id in s.subs[addr] ==> s.info[id].target == addr;
    }
  }

  lemma {:induction false} WithoutAt(list: seq<SubId>, id: SubId, i: nat)
    requires i < |list| && list[i] == id && id !in list[..i]
    ensures Without(list, id) == list[..i] + list[i + 1..]
  {
    if i > 0 {
      assert list[0] in list[..i];
      assert list[1..][..i - 1] == list[..i][1..];
      WithoutAt(list[1..], id, i - 1);
      assert list[..i] == [list[0]] + list[1..][..i - 1];
      assert list[1..][i..] == list[i + 1..];
    }
  }

  // ---- What each step does to one subscription ----------------------------------------

  /** Existence, registration and closings of `id` after a step, given before. */
  predicate Has(s: State, id: SubId, known: bool, registered: bool, closings: nat) {
    && (id in s.info <==> known)
    && (s.Registered(id) <==> registered)
    && (known ==> s.info[id].closings == closings)
  }

  function ClosingsOf(s: State, id: SubId): nat {
    if id in s.info then s.info[id].closings else 0
  }

  lemma {:induction false} SubscribedAt(s: State, target: Endpoint, id: SubId)
    requires s.Valid()
    ensures Subscribed(s, target).Valid() && s.next !in s.info
    ensures Has(Subscribed(s, target), id,
                id in s.info || id == s.next, s.Registered(id) || id == s.next, ClosingsOf(s, id))
  {
    SubscribedValid(s, target);
    assert id != s.next ==> (id in ListUnder(s.subs, target) <==> s.Listed(target, id));
  }

  lemma {:induction false} RemovedAt(s: State, closed: SubId, id: SubId)
    requires s.Valid() && closed in s.info
    ensures Removed(s, closed).Valid()
    ensures Has(Removed(s, closed), id, id in s.info, s.Registered(id) && id != closed, ClosingsOf(s, id))
  {
    RemovedValid(s, closed);
  }

  lemma {:induction false} ChannelClosedAt(s: State, closed: SubId, id: SubId)
    requires s.Valid() && closed in s.info && !s.Registered(closed)
    ensures ChannelClosed(s, closed).Valid()
    ensures Has(ChannelClosed(s, closed), id, id in s.info, s.Registered(id),
                ClosingsOf(s, id) + if id == closed then 1 else 0)
  {}

  lemma {:induction false} SentAt(s: State, pkt: Packet, id: SubId)
    requires s.Valid()
    ensures Sent(s, pkt).Valid()
    ensures Has(Sent(s, pkt), id, id in s.info, s.Registered(id), ClosingsOf(s, id))
  {}

  function Received(s: State, id: SubId): State
    requires id in s.info && s.info[id].queue != []
  {
    s.(info := s.info[id := s.info[id].(queue := s.info[id].queue[1..])])
  }

  lemma {:induction false} ReceivedAt(s: State, reader: SubId, id: SubId)
    requires s.Valid() && reader in s.info && s.info[reader].queue != []
    ensures Received(s, reader).Valid()
    ensures Has(Received(s, reader), id, id in s.info, s.Registered(id), ClosingsOf(s, id))
  {}

  lemma {:induction false} SweptAt(s: State, id: SubId)
    requires s.Valid()
    ensures Swept(s).Valid()
    ensures Has(Swept(s), id, id in s.info, false, ClosingsOf(s, id) + if s.Registered(id) then 1 else 0)
  {}

  /** Exact delivery: a packet is offered to a subscription exactly when that is
      registered under a valid end of the packet, once even if both ends are
      the same; nothing else changes. */
  lemma {:induction false} SentExactly(s: State, pkt: Packet, id: SubId)
    requires s.Valid() && id in s.info
    ensures var target := s.info[id].target;
            var reached := s.Registered(id) && target.Valid() && (target == pkt.src || target == pkt.dst);
            && s.Addressed(id, pkt) == reached
            && (reached ==> s.info[id].Open())
            && Sent(s, pkt).info[id] == (if reached then s.info[id].Offered(pkt) else s.info[id])
  {}
}
