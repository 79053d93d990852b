/** The capture under concurrency: every interleaving of the steps that run
    under one lock each. Closing a subscription is two steps, unlisting and
    closing the channel; delivering is two steps, the discovery check and the
    send; the sweep at the end of the capture is one. */
module CaptureRuns {
  import opened Basics
  import opened Capture

  datatype Event =
    | Subscribe(target: Endpoint)
    | CloseBegin(id: SubId)
    | CloseEnd(id: SubId)
    | Check(pkt: Packet)
    | Send(pkt: Packet)
    | Receive(id: SubId)
    | Sweep
    | Mark(endpoint: Endpoint)
    | Clear(endpoint: Endpoint)

  /** `removing`: closers between their two steps. `inflight`: packets that
      passed the check and are not sent yet. `sentOnClosed`: some send hit a
      closed channel. */
  datatype Machine = Machine(
    st: State,
    marked: set<Endpoint>,
    removing: multiset<SubId>,
    inflight: multiset<Packet>,
    sentOnClosed: bool)

  predicate Enabled(m: Machine, e: Event) {
    match e
    case CloseBegin(id) => id in m.st.info
    case CloseEnd(id) => id in m.removing && id in m.st.info
    case Send(pkt) => pkt in m.inflight
    case Receive(id) => id in m.st.info && m.st.info[id].queue != []
    case _ => true
  }

  function Next(m: Machine, e: Event): Machine
    requires Enabled(m, e)
  {
    match e
    case Subscribe(target) => m.(st := Subscribed(m.st, target))
    case CloseBegin(id) => m.(st := Removed(m.st, id), removing := m.removing + multiset{id})
    case CloseEnd(id) => m.(st := ChannelClosed(m.st, id), removing := m.removing - multiset{id})
    case Check(pkt) =>
      if pkt.src in m.marked || pkt.dst in m.marked then m else m.(inflight := m.inflight + multiset{pkt})
    case Send(pkt) =>
      m.(st := Sent(m.st, pkt), inflight := m.inflight - multiset{pkt},
         sentOnClosed := m.sentOnClosed
           || exists id | id in m.st.info :: m.st.Addressed(id, pkt) && !m.st.info[id].Open())
    case Receive(id) => m.(st := Received(m.st, id))
    case Sweep => m.(st := Swept(m.st))
    case Mark(endpoint) => m.(marked := m.marked + {endpoint})
    case Clear(endpoint) => m.(marked := m.marked - {endpoint})
  }

  const INITIAL := Machine(EMPTY, {}, multiset{}, multiset{}, false)

  function Run(events: seq<Event>): Option<Machine> {
    if events == [] then Some(INITIAL)
    else
      var before := Run(events[..|events| - 1]);
      var e := events[|events| - 1];
      if before.Some? && Enabled(before.value, e) then Some(Next(before.value, e)) else None
  }

  /** `events` is an interleaving that can happen. */
  predicate Possible(events: seq<Event>) { Run(events).Some? }

  lemma {:induction false} RunAppend(events: seq<Event>, e: Event)
    ensures Possible(events + [e]) <==> Possible(events) && Enabled(Run(events).value, e)
    ensures Possible(events + [e]) ==> Run(events + [e]).value == Next(Run(events).value, e)
  {
    assert (events + [e])[..|events|] == events;
  }

  lemma {:induction false} PossiblePrefix(events: seq<Event>, i: nat)
    requires Possible(events) && i <= |events|
    ensures Possible(events[..i])
  {
    if i < |events| {
      assert events[..|events| - 1][..i] == events[..i];
      PossiblePrefix(events[..|events| - 1], i);
    } else {
      assert events[..i] == events;
    }
  }

  // ---- Safety ----------------------------------------------------------------------

  ghost predicate Closing(m: Machine, id: SubId) {
    id in m.removing ==> id in m.st.info && !m.st.Registered(id)
  }

  /** One step, seen from one subscription. */
  lemma {:induction false} NextAt(m: Machine, e: Event, id: SubId)
    requires m.st.Valid() && Enabled(m, e)
    requires forall x :: Closing(m, x)
    ensures Next(m, e).st.Valid()
    ensures Has(Next(m, e).st, id,
                id in m.st.info || (e.Subscribe? && id == m.st.next),
                (m.st.Registered(id) || (e.Subscribe? && id == m.st.next)) && e != CloseBegin(id) && e != Sweep,
                ClosingsOf(m.st, id)
                  + if e == CloseEnd(id) || (e == Sweep && m.st.Registered(id)) then 1 else 0)
    ensures Closing(Next(m, e), id)
    ensures e.Subscribe? ==> m.st.next !in m.st.info
    ensures Next(m, e).st.next == m.st.next + if e.Subscribe? then 1 else 0
  {
    assert Closing(m, id);
    match e {
      case Subscribe(target) => SubscribedAt(m.st, target, id);
      case CloseBegin(x) => RemovedAt(m.st, x, id);
      case CloseEnd(x) => assert Closing(m, x); ChannelClosedAt(m.st, x, id);
      case Send(pkt) => SentAt(m.st, pkt, id);
      case Receive(x) => ReceivedAt(m.st, x, id);
      case Sweep => SweptAt(m.st, id);
      case _ =>
    }
  }

  lemma {:induction false} NeverSentOnClosed(m: Machine, e: Event)
    requires m.st.Valid() && Enabled(m, e)
    ensures Next(m, e).sentOnClosed == m.sentOnClosed
  {
    if e.Send? {
      forall id | id in m.st.info && m.st.Addressed(id, e.pkt) ensures m.st.info[id].Open() {
        SentExactly(m.st, e.pkt, id);
      }
    }
  }

  /** In every interleaving each registered subscription is open, listed once
      and under its own endpoint, no list is empty, and no packet is ever sent
      on a closed channel. */
  lemma {:induction false} Safety(events: seq<Event>)
    requires Possible(events)
    ensures Run(events).value.st.Valid() && !Run(events).value.sentOnClosed
    ensures forall id :: Closing(Run(events).value, id)
  {
    if events != [] {
      var m, e := Run(events[..|events| - 1]).value, events[|events| - 1];
      Safety(events[..|events| - 1]);
      forall id: SubId ensures Closing(Next(m, e), id) && Next(m, e).st.Valid() {
        NextAt(m, e, id);
      }
      NextAt(m, e, 0);
      NeverSentOnClosed(m, e);
    }
  }

  // ---- How often a channel is closed ---------------------------------------------------

  function Count(events: seq<Event>, e: Event): nat { multiset(events)[e] }

  function Subscriptions(events: seq<Event>): nat {
    |Filter(events, (e: Event) => e.Subscribe?)|
  }

  /** A sweep found subscription `id` taken out and not yet being closed. */
  ghost predicate SweptBeforeClose(events: seq<Event>, id: SubId) {
    exists i :: 0 <= i < |events| && events[i] == Sweep
             && id < Subscriptions(events[..i]) && CloseBegin(id) !in events[..i]
  }

  lemma {:induction false} CountAppend(events: seq<Event>, e: Event, x: Event)
    ensures Count(events + [e], x) == Count(events, x) + (if e == x then 1 else 0)
  {}

  lemma {:induction false} SweptAppend(events: seq<Event>, e: Event, id: SubId)
    ensures SweptBeforeClose(events + [e], id)
       <==> SweptBeforeClose(events, id)
            || (e == Sweep && id < Subscriptions(events) && CloseBegin(id) !in events)
  {
    var all := events + [e];
    if SweptBeforeClose(all, id) {
      var i :| 0 <= i < |all| && all[i] == Sweep
            && id < Subscriptions(all[..i]) && CloseBegin(id) !in all[..i];
      assert all[..i] == events[..i];
      if i == |events| { assert events[..i] == events; }
    }
    if SweptBeforeClose(events, id) {
      var i :| 0 <= i < |events| && events[i] == Sweep
            && id < Subscriptions(events[..i]) && CloseBegin(id) !in events[..i];
      assert all[..i] == events[..i] && all[i] == Sweep;
    }
    if e == Sweep && id < Subscriptions(events) && CloseBegin(id) !in events {
      assert all[..|events|] == events && all[|events|] == Sweep;
    }
  }

  lemma {:induction false} SubscriptionsAppend(events: seq<Event>, e: Event)
    ensures Subscriptions(events + [e]) == Subscriptions(events) + (if e.Subscribe? then 1 else 0)
  {
    assert (events + [e])[..|events|] == events;
  }

  /** The exact state of one subscription after any interleaving, in terms of
      the calls made: closers still between their steps, closings, listing. */
  ghost predicate Accounted(m: Machine, events: seq<Event>, id: SubId) {
    && (id in m.st.info <==> id < Subscriptions(events))
    && m.st.next == Subscriptions(events)
    && (id !in m.st.info ==> Count(events, CloseBegin(id)) == 0 && !SweptBeforeClose(events, id))
    && m.removing[id] + Count(events, CloseEnd(id)) == Count(events, CloseBegin(id))
    && (id in m.st.info ==>
          && (m.st.Registered(id) <==> CloseBegin(id) !in events && !SweptBeforeClose(events, id))
          && m.st.info[id].closings == Count(events, CloseEnd(id)) + if SweptBeforeClose(events, id) then 1 else 0)
  }

  lemma {:induction false} NextAccounted(events: seq<Event>, e: Event, id: SubId)
    requires Possible(events + [e]) && Possible(events)
    requires Accounted(Run(events).value, events, id)
    ensures Accounted(Run(events + [e]).value, events + [e], id)
  {
    Safety(events);
    RunAppend(events, e);
    StepAccounted(Run(events).value, events, e, id);
  }

  lemma {:induction false} StepAccounted(m: Machine, events: seq<Event>, e: Event, id: SubId)
    requires m.st.Valid() && Enabled(m, e) && forall x :: Closing(m, x)
    requires Accounted(m, events, id)
    ensures Accounted(Next(m, e), events + [e], id)
  {
    NextAt(m, e, id);
    SubscriptionsAppend(events, e);
    SweptAppend(events, e, id);
    CountAppend(events, e, CloseBegin(id));
    CountAppend(events, e, CloseEnd(id));
    InAppended(events, e, CloseBegin(id));
    RemovingAt(m, e, id);
  }

  lemma {:induction false} RemovingAt(m: Machine, e: Event, id: SubId)
    requires Enabled(m, e)
    ensures Next(m, e).removing[id] + (if e == CloseEnd(id) then 1 else 0)
         == m.removing[id] + if e == CloseBegin(id) then 1 else 0
  {}

  lemma {:induction false} InAppended(events: seq<Event>, e: Event, x: Event)
    ensures x in events + [e] <==> x in events || e == x
  {}

  lemma {:induction false} NothingAccounted(id: SubId)
    ensures Accounted(INITIAL, [], id)
  {}

  lemma {:induction false} Accounting(events: seq<Event>, id: SubId)
    requires Possible(events)
    ensures Accounted(Run(events).value, events, id)
  {
    if events == [] {
      NothingAccounted(id);
    } else {
      var init, e := events[..|events| - 1], events[|events| - 1];
      assert events == init + [e];
      RunAppend(init, e);
      Accounting(init, id);
      NextAccounted(init, e, id);
    }
  }

  /** The closings a subscription may have finished without a second close of
      its channel: one, or none if the sweep of the dying capture came first. */
  ghost function Allowed(events: seq<Event>, id: SubId): nat {
    if SweptBeforeClose(events, id) then 0 else 1
  }

  lemma {:induction false} ClosedOnceIff(events: seq<Event>, id: SubId)
    requires Possible(events)
    ensures id in Run(events).value.st.info <==> id < Subscriptions(events)
    ensures id < Subscriptions(events) ==>
              (Run(events).value.st.info[id].closings <= 1 <==> Count(events, CloseEnd(id)) <= Allowed(events, id))
  {
    Accounting(events, id);
  }

  ghost predicate NoDoubleClose(st: State) {
    forall id :: id in st.info ==> st.info[id].closings <= 1
  }

  /** No channel is ever closed twice exactly when no subscription has finished
      more `Close` calls than it is allowed. */
  lemma {:induction false} NoDoubleCloseIff(events: seq<Event>)
    requires Possible(events)
    ensures NoDoubleClose(Run(events).value.st)
       <==> forall id: SubId :: id < Subscriptions(events) ==> Count(events, CloseEnd(id)) <= Allowed(events, id)
  {
    var st := Run(events).value.st;
    if NoDoubleClose(st) {
      forall id: SubId | id < Subscriptions(events) ensures Count(events, CloseEnd(id)) <= Allowed(events, id) {
        ClosedOnceIff(events, id);
      }
    } else {
      var id :| id in st.info && st.info[id].closings > 1;
      ClosedOnceIff(events, id);
    }
  }

  /** Whatever ran since the check, the send reaches exactly the subscriptions
      of the packet's valid ends that are taken out, not being closed and not
      swept, each once and if its channel has room. */
  lemma {:induction false} DeliveryInRun(events: seq<Event>, pkt: Packet, id: SubId)
    requires Possible(events) && Enabled(Run(events).value, Send(pkt))
    requires id in Run(events).value.st.info
    ensures var before := Run(events).value.st.info[id];
            var after := Next(Run(events).value, Send(pkt)).st.info[id];
            var reached := CloseBegin(id) !in events && !SweptBeforeClose(events, id)
                        && before.target.Valid() && (before.target == pkt.src || before.target == pkt.dst);
            after == if reached then before.Offered(pkt) else before
  {
    Safety(events);
    Accounting(events, id);
    SentExactly(Run(events).value.st, pkt, id);
  }

  /** The capture dies with a subscription listed; closing it then closes its
      channel a second time. */
  lemma {:induction false} ClosedAgainAfterSweep(target: Endpoint)
    ensures var events := [Subscribe(target), Sweep, CloseBegin(0), CloseEnd(0)];
            Possible(events) && !NoDoubleClose(Run(events).value.st)
  {
    var m1 := Next(INITIAL, Subscribe(target));
    RunAppend([], Subscribe(target));
    RunAppend([Subscribe(target)], Sweep);
    RunAppend([Subscribe(target), Sweep], CloseBegin(0));
    RunAppend([Subscribe(target), Sweep, CloseBegin(0)], CloseEnd(0));
    assert [] + [Subscribe(target)] == [Subscribe(target)];
    assert [Subscribe(target)] + [Sweep] == [Subscribe(target), Sweep];
    assert [Subscribe(target), Sweep] + [CloseBegin(0)] == [Subscribe(target), Sweep, CloseBegin(0)];
    assert [Subscribe(target), Sweep, CloseBegin(0)] + [CloseEnd(0)]
        == [Subscribe(target), Sweep, CloseBegin(0), CloseEnd(0)];
    assert m1.st == Subscribed(EMPTY, target) && m1.st.subs[target] == [0];
    var swept := Swept(m1.st);
    assert swept.info[0].closings == 1;
  }
}
