/** How the daemon keeps one capture subscription and one packet buffer per
    enabled backend endpoint. */
module PacketSubscriptions {
  import opened Basics
  import opened Discovered
  import Capture

  type BufferId = nat

  /** The endpoints of the backends that are not disabled. */
  function EnabledEndpoints(backends: seq<Backend>): set<Endpoint> {
    set b | b in backends && !b.disabled :: b.route.endpoint
  }

  /** The daemon's two maps, and the capture they refer to. */
  datatype State = State(
    subs: map<Endpoint, Capture.SubId>,
    buffers: map<Endpoint, BufferId>,
    nextBuffer: BufferId,
    cap: Capture.State)
  {
    /** Every endpoint has a buffer and a subscription of its own, which is the
        only one registered there unless the capture died and swept it. */
    ghost predicate Valid() {
      && Paired()
      && (forall ep :: ep in buffers ==> buffers[ep] < nextBuffer)
      && Consistent(subs, cap)
    }

    /** Buffers and subscriptions go together, and the capture knows the latter. */
    ghost predicate Paired() {
      && buffers.Keys == subs.Keys
      && forall ep :: ep in subs ==> subs[ep] in cap.info
    }

    /** The subscription of `ep` was closed by the sweep of a dead capture. */
    predicate SweptAway(ep: Endpoint) {
      ep in subs && subs[ep] in cap.info && !cap.info[subs[ep]].Open()
    }
  }

  /** The daemon's subscriptions are the capture's, endpoint by endpoint. */
  ghost predicate Consistent(subs: map<Endpoint, Capture.SubId>, cap: Capture.State) {
    && cap.Valid()
    && cap.subs.Keys <= subs.Keys
    && (forall ep :: ep in subs ==>
          && subs[ep] in cap.info && cap.info[subs[ep]].target == ep
          && (if ep in cap.subs then cap.subs[ep] == [subs[ep]] else cap.info[subs[ep]].closings == 1))
  }

  // ---- The two kinds of step ----------------------------------------------------------

  function Dropped(d: State, ep: Endpoint): State
    requires ep in d.subs && d.subs[ep] in d.cap.info
  {
    State(d.subs - {ep}, d.buffers - {ep}, d.nextBuffer,
          Capture.ChannelClosed(Capture.Removed(d.cap, d.subs[ep]), d.subs[ep]))
  }

  function Added(d: State, ep: Endpoint): State {
    State(d.subs[ep := d.cap.next], d.buffers[ep := d.nextBuffer], d.nextBuffer + 1,
          Capture.Subscribed(d.cap, ep))
  }

  function Kept<V>(m: map<Endpoint, V>, keys: set<Endpoint>): map<Endpoint, V> {
    map ep | ep in m && ep in keys :: m[ep]
  }

  /** From `before`, the endpoints outside `keep` are gone and closed once. */
  ghost predicate DroppedTo(before: State, after: State, keep: set<Endpoint>) {
    && after.subs == Kept(before.subs, keep)
    && after.buffers == Kept(before.buffers, keep)
    && after.nextBuffer == before.nextBuffer
    && after.cap.next == before.cap.next && after.cap.info.Keys == before.cap.info.Keys
    && ClosedOutside(before.subs, before.cap.info, after.cap.info, keep)
    && (before.subs.Keys <= keep ==> after == before)
  }

  /** The channels of the endpoints outside `keep` were open and are closed. */
  ghost predicate ClosedOutside(subs: map<Endpoint, Capture.SubId>, before: map<Capture.SubId, Capture.Sub>,
                                after: map<Capture.SubId, Capture.Sub>, keep: set<Endpoint>)
  {
    forall ep :: ep in subs ==>
      && subs[ep] in before && subs[ep] in after
      && (if ep in keep then after[subs[ep]] == before[subs[ep]]
          else before[subs[ep]].Open() && after[subs[ep]].closings == 1)
  }

  /** From `before`, the endpoints `added` are new, with fresh objects; nothing
      else changed. */
  ghost predicate AddedTo(before: State, after: State, added: set<Endpoint>) {
    && before.Paired() && after.Paired()
    && after.subs.Keys == before.subs.Keys + added
    && after.nextBuffer >= before.nextBuffer
    && (forall ep :: ep in before.subs ==> after.subs[ep] == before.subs[ep] && after.buffers[ep] == before.buffers[ep])
    && (forall id :: id in before.cap.info ==> id in after.cap.info && after.cap.info[id] == before.cap.info[id])
    && (forall ep :: ep in after.subs && ep !in before.subs ==>
          && after.subs[ep] !in before.cap.info && after.cap.info[after.subs[ep]].Open()
          && after.buffers[ep] >= before.nextBuffer)
    && (added <= before.subs.Keys ==> after == before)
  }

  lemma {:induction false} SubsInjective(subs: map<Endpoint, Capture.SubId>, cap: Capture.State, ep: Endpoint)
    requires Consistent(subs, cap) && ep in subs
    ensures forall x :: x in subs && x != ep ==> subs[x] != subs[ep]
  {
    forall x | x in subs && x != ep ensures subs[x] != subs[ep] {
      assert cap.info[subs[x]].target == x;
    }
  }

  lemma {:induction false} DropConsistent(subs: map<Endpoint, Capture.SubId>, cap: Capture.State, ep: Endpoint)
    requires Consistent(subs, cap) && ep in subs && cap.info[subs[ep]].Open()
    ensures Consistent(subs - {ep}, Capture.ChannelClosed(Capture.Removed(cap, subs[ep]), subs[ep]))
  {
    var id := subs[ep];
    SubsInjective(subs, cap, ep);
    assert cap.subs[ep] == [id];
    assert Capture.Without([id], id) == [];
    assert Capture.Removed(cap, id).subs == cap.subs - {ep};
  }

  lemma {:induction false} DropValid(d: State, ep: Endpoint)
    requires d.Valid() && ep in d.subs && d.cap.info[d.subs[ep]].Open()
    ensures Dropped(d, ep).Valid()
  {
    DropConsistent(d.subs, d.cap, ep);
  }

  lemma {:induction false} DropCloses(subs: map<Endpoint, Capture.SubId>, before: map<Capture.SubId, Capture.Sub>,
                   after: map<Capture.SubId, Capture.Sub>, keep: set<Endpoint>, ep: Endpoint)
    requires ClosedOutside(subs, before, after, keep)
    requires ep in subs && ep in keep && before[subs[ep]].Open()
    requires forall x :: x in subs && x != ep ==> subs[x] != subs[ep]
    ensures ClosedOutside(subs, before, after[subs[ep] := after[subs[ep]].Closed()], keep - {ep})
  {}

  lemma {:induction false} DropStep(before: State, d: State, keep: set<Endpoint>, ep: Endpoint)
    requires DroppedTo(before, d, keep) && ep in d.subs && d.subs[ep] in d.cap.info
             && before.cap.info[d.subs[ep]].Open()
    requires forall x :: x in before.subs && x != ep ==> before.subs[x] != before.subs[ep]
    ensures DroppedTo(before, Dropped(d, ep), keep - {ep})
  {
    var after := Dropped(d, ep);
    DropCloses(before.subs, before.cap.info, d.cap.info, keep, ep);
    assert after.subs == Kept(before.subs, keep - {ep});
    assert after.buffers == Kept(before.buffers, keep - {ep});
  }

  lemma {:induction false} DropReady(before: State, d: State, keep: set<Endpoint>, ep: Endpoint)
    requires DroppedTo(before, d, keep) && ep in before.subs && ep in keep
    ensures ep in d.subs && d.subs[ep] in d.cap.info
    ensures d.subs[ep] == before.subs[ep] && d.subs[ep] in before.cap.info
    ensures d.cap.info[d.subs[ep]] == before.cap.info[d.subs[ep]]
    ensures d.cap.info[d.subs[ep]].Open() <==> !before.SweptAway(ep)
  {}

  /** The state of the dropping loop with the endpoints in `rest` still to do. */
  ghost predicate Dropping(before: State, d: State, rest: set<Endpoint>, current: set<Endpoint>) {
    before.Valid() && d.Valid() && rest <= before.subs.Keys && DroppedTo(before, d, rest + current)
  }

  lemma {:induction false} DroppingStart(before: State, current: set<Endpoint>)
    requires before.Valid()
    ensures Dropping(before, before, before.subs.Keys, current)
  {
    var keep := before.subs.Keys + current;
    assert Kept(before.subs, keep) == before.subs && Kept(before.buffers, keep) == before.buffers;
  }

  lemma {:induction false} DroppingReady(before: State, d: State, rest: set<Endpoint>, current: set<Endpoint>,
                                         ep: Endpoint)
    requires Dropping(before, d, rest, current) && ep in rest
    ensures ep in d.subs && d.subs[ep] in d.cap.info
    ensures d.cap.info[d.subs[ep]].Open() <==> !before.SweptAway(ep)
  {
    DropReady(before, d, rest + current, ep);
  }

  lemma {:induction false} DroppingKeeps(before: State, d: State, rest: set<Endpoint>, current: set<Endpoint>,
                                         ep: Endpoint)
    requires Dropping(before, d, rest, current) && ep in current
    ensures Dropping(before, d, rest - {ep}, current)
  {
    assert rest + current == rest - {ep} + current;
  }

  lemma {:induction false} DroppingDrops(before: State, d: State, rest: set<Endpoint>, current: set<Endpoint>,
                                         ep: Endpoint)
    requires Dropping(before, d, rest, current) && ep in rest && ep !in current
    requires ep in d.subs && d.subs[ep] in d.cap.info && d.cap.info[d.subs[ep]].Open()
    ensures Dropping(before, Dropped(d, ep), rest - {ep}, current)
  {
    DropReady(before, d, rest + current, ep);
    SubsInjective(before.subs, before.cap, ep);
    DropStep(before, d, rest + current, ep);
    DropValid(d, ep);
    OnlyRest(rest, current, ep);
  }

  lemma {:induction false} OnlyRest(rest: set<Endpoint>, current: set<Endpoint>, ep: Endpoint)
    requires ep !in current
    ensures rest + current - {ep} == rest - {ep} + current
  {}

  /** At the end none of those dropped was swept. */
  lemma {:induction false} DroppingEnd(before: State, d: State, current: set<Endpoint>)
    requires Dropping(before, d, {}, current)
    ensures d.Valid() && DroppedTo(before, d, current)
    ensures forall ep :: before.SweptAway(ep) ==> ep in current
  {
    assert {} + current == current;
  }

  lemma {:induction false} AddConsistent(subs: map<Endpoint, Capture.SubId>, cap: Capture.State, ep: Endpoint)
    requires Consistent(subs, cap) && ep !in subs
    ensures Consistent(subs[ep := cap.next], Capture.Subscribed(cap, ep))
    ensures cap.next !in cap.info
  {
    Capture.SubscribedValid(cap, ep);
    assert ep !in cap.subs && Capture.ListUnder(cap.subs, ep) + [cap.next] == [cap.next];
  }

  lemma {:induction false} AddValid(d: State, ep: Endpoint)
    requires d.Valid() && ep !in d.subs
    ensures Added(d, ep).Valid() && d.cap.next !in d.cap.info
  {
    AddConsistent(d.subs, d.cap, ep);
  }

  lemma {:induction false} AddStep(before: State, d: State, added: set<Endpoint>, ep: Endpoint)
    requires AddedTo(before, d, added) && ep !in d.subs && d.cap.next !in d.cap.info
    ensures AddedTo(before, Added(d, ep), added + {ep})
  {
    var after := Added(d, ep);
    assert after.subs.Keys == before.subs.Keys + (added + {ep});
    forall x | x in after.subs && x !in before.subs
      ensures after.subs[x] !in before.cap.info && after.cap.info[after.subs[x]].Open()
      ensures after.buffers[x] >= before.nextBuffer
    {
      if x != ep {
        assert x in d.subs;
      }
    }
  }

  lemma {:induction false} AddedAlready(before: State, d: State, added: set<Endpoint>, ep: Endpoint)
    requires AddedTo(before, d, added) && ep in d.subs
    ensures AddedTo(before, d, added + {ep})
  {
    assert d.subs.Keys == before.subs.Keys + added + {ep};
    assert before.subs.Keys + added + {ep} == before.subs.Keys + (added + {ep});
  }

  // ---- The whole update ------------------------------------------------------------------

  /** What one update that does not panic does: the tables show exactly the
      enabled endpoints, endpoints that stay keep both objects, new ones get
      fresh ones, and those that leave have their channel closed just once. */
  ghost predicate Reconciled(before: State, after: State, enabled: set<Endpoint>) {
    && after.Valid()
    && after.subs.Keys == after.buffers.Keys == enabled && before.Valid()
    && (forall ep :: ep in enabled && ep in before.subs ==>
          && after.subs[ep] == before.subs[ep] && after.buffers[ep] == before.buffers[ep]
          && after.cap.info[after.subs[ep]] == before.cap.info[before.subs[ep]])
    && (forall ep :: ep in enabled && ep !in before.subs ==>
          && after.subs[ep] !in before.cap.info && after.cap.info[after.subs[ep]].Open()
          && after.buffers[ep] >= before.nextBuffer)
    && (forall ep :: ep in before.subs && ep !in enabled ==>
          before.subs[ep] in after.cap.info && after.cap.info[before.subs[ep]].closings == 1)
    && (enabled == before.subs.Keys ==> after == before)
  }

  lemma {:induction false} DropThenAdd(before: State, mid: State, after: State, enabled: set<Endpoint>)
    requires DroppedTo(before, mid, enabled) && AddedTo(mid, after, enabled)
    requires before.Valid() && after.Valid()
    ensures Reconciled(before, after, enabled)
  {
    assert mid.subs.Keys <= enabled;
    assert after.subs.Keys == enabled;
    forall ep | ep in enabled && ep in before.subs
      ensures after.subs[ep] == before.subs[ep] && after.cap.info[after.subs[ep]] == before.cap.info[before.subs[ep]]
    {
      assert ep in mid.subs;
    }
  }

  class PacketDaemon {
    const capture: Capture.Capture
    var packetSubs: map<Endpoint, Capture.SubId>
    var packetBuffers: map<Endpoint, BufferId>
    var nextBuffer: BufferId

    constructor (capture: Capture.Capture)
      requires capture.View() == Capture.EMPTY
      ensures this.capture == capture && View() == State(map[], map[], 0, Capture.EMPTY)
    {
      this.capture := capture;
      packetSubs, packetBuffers, nextBuffer := map[], map[], 0;
    }

    ghost function View(): State
      reads this, capture
    { State(packetSubs, packetBuffers, nextBuffer, capture.View()) }

    /** Closing a swept subscription closes its channel a second time. */
    method UpdatePacketSubscriptions(backends: seq<Backend>) returns (panicked: bool)
      requires View().Valid()
      modifies this, capture
      ensures panicked <==> exists ep :: ep !in EnabledEndpoints(backends) && old(View()).SweptAway(ep)
      ensures !panicked ==> Reconciled(old(View()), View(), EnabledEndpoints(backends))
    {
      var current := Current(backends);
      panicked := DropGone(current);
      if panicked {
        return;
      }
      ghost var mid := View();
      AddNew(current);
      DropThenAdd(old(View()), mid, View(), current);
    }

    method Current(backends: seq<Backend>) returns (current: set<Endpoint>)
      ensures current == EnabledEndpoints(backends)
    {
      current := {};
      for i := 0 to |backends|
        invariant current == EnabledEndpoints(backends[..i])
      {
        var b := backends[i];
        assert backends[..i + 1] == backends[..i] + [b];
        forall x ensures x in backends[..i + 1] <==> x in backends[..i] || x == b {}
        if b.disabled {
          continue;
        }
        current := current + {b.route.endpoint};
      }
      assert backends[..|backends|] == backends;
    }

    method DropGone(current: set<Endpoint>) returns (panicked: bool)
      requires View().Valid()
      modifies this`packetSubs, this`packetBuffers, capture
      ensures panicked <==> exists ep :: ep !in current && old(View()).SweptAway(ep)
      ensures !panicked ==> View().Valid() && DroppedTo(old(View()), View(), current)
    {
      ghost var before := View();
      var rest := packetSubs.Keys;
      DroppingStart(before, current);
      while rest != {}
        invariant Dropping(before, View(), rest, current)
      {
        var ep :| ep in rest;
        DroppingReady(before, View(), rest, current, ep);
        if ep !in current {
          if !capture.info[packetSubs[ep]].Open() {
            return true;
          }
          DroppingDrops(before, View(), rest, current, ep);
          Drop(ep);
        } else {
          DroppingKeeps(before, View(), rest, current, ep);
        }
        rest := rest - {ep};
      }
      DroppingEnd(before, View(), current);
      return false;
    }

    method Drop(ep: Endpoint)
      requires ep in packetSubs && packetSubs[ep] in capture.info
      modifies this`packetSubs, this`packetBuffers, capture
      ensures View() == Dropped(old(View()), ep)
    {
      capture.Unsubscribe(packetSubs[ep]);
      packetSubs := packetSubs - {ep};
      packetBuffers := packetBuffers - {ep};
    }

    method AddNew(current: set<Endpoint>)
      requires View().Valid()
      modifies this, capture
      ensures View().Valid() && AddedTo(old(View()), View(), current)
    {
      ghost var before := View();
      var rest := current;
      while rest != {}
        invariant rest <= current
        invariant View().Valid() && AddedTo(before, View(), current - rest)
      {
        var ep :| ep in rest;
        OneDone(current, rest, ep);
        if ep in packetSubs {
          AddedAlready(before, View(), current - rest, ep);
        } else {
          AddValid(View(), ep);
          AddStep(before, View(), current - rest, ep);
          Add(ep);
        }
        rest := rest - {ep};
      }
      assert current - {} == current;
    }

    method Add(ep: Endpoint)
      modifies this, capture
      ensures View() == Added(old(View()), ep)
    {
      var sub := capture.Subscribe(ep);
      packetSubs := packetSubs[ep := sub];
      packetBuffers := packetBuffers[ep := nextBuffer];
      nextBuffer := nextBuffer + 1;
    }
  }

  /** While the capture lives no subscription was swept, so it registers exactly
      the daemon's subscriptions, and no update panics. */
  lemma {:induction false} LiveCaptureRegistersExactly(d: State)
    requires d.Valid()
    ensures (forall ep :: !d.SweptAway(ep)) <==> d.cap.subs == map ep | ep in d.subs :: [d.subs[ep]]
  {
    if forall ep :: !d.SweptAway(ep) {
      forall ep | ep in d.subs ensures ep in d.cap.subs && d.cap.subs[ep] == [d.subs[ep]] {
        assert !d.SweptAway(ep);
      }
    } else {
      var ep :| d.SweptAway(ep);
      assert ep !in d.cap.subs;
    }
  }

  /** When the capture dies every subscription of the daemon is swept: from then
      on the first endpoint to leave the table brings a panic. */
  lemma {:induction false} DeathSweepsAll(d: State, ep: Endpoint)
    requires d.Valid()
    ensures d.(cap := Capture.Swept(d.cap)).Valid()
    ensures d.(cap := Capture.Swept(d.cap)).SweptAway(ep) <==> ep in d.subs
  {
    Capture.SweptValid(d.cap);
    forall x | x in d.subs ensures Capture.Swept(d.cap).info[d.subs[x]].closings == 1 {
      if x in d.cap.subs {
        assert d.subs[x] in d.cap.subs[x];
      }
    }
  }
}
