/** Endpoints that are probed, possibly by several probes at once, against those
    that are marked: marks are one flag for each endpoint. */
module ProbeRuns {
  import opened Basics
  import opened Capture
  import opened CaptureRuns

  /** How many probes of the endpoint are running: each marks it when it starts
      and clears the mark when it ends. */
  function Probes(events: seq<Event>, ep: Endpoint): int {
    Count(events, Mark(ep)) - Count(events, Clear(ep))
  }

  ghost predicate Probed(events: seq<Event>, ep: Endpoint) { Probes(events, ep) > 0 }

  predicate Marked(events: seq<Event>, ep: Endpoint)
    requires Possible(events)
  {
    ep in Run(events).value.marked
  }

  /** Only running probes end. */
  ghost predicate ProbesEnd(events: seq<Event>, ep: Endpoint) {
    forall k :: 0 <= k <= |events| ==> Probes(events[..k], ep) >= 0
  }

  lemma {:induction false} ProbesMore(events: seq<Event>, e: Event, ep: Endpoint)
    ensures Probes(events + [e], ep)
         == Probes(events, ep) + (if e == Mark(ep) then 1 else 0) - (if e == Clear(ep) then 1 else 0)
  {
    CountAppend(events, e, Mark(ep));
    CountAppend(events, e, Clear(ep));
  }

  lemma {:induction false} MarkedMore(events: seq<Event>, e: Event, ep: Endpoint)
    requires Possible(events + [e])
    ensures Possible(events)
    ensures Marked(events + [e], ep) <==> e == Mark(ep) || (Marked(events, ep) && e != Clear(ep))
  {
    RunAppend(events, e);
  }

  /** A probe of the endpoint started and none has ended since. */
  ghost predicate StartedLast(events: seq<Event>, ep: Endpoint) {
    events != []
    && (events[|events| - 1] == Mark(ep)
        || (events[|events| - 1] != Clear(ep) && StartedLast(events[..|events| - 1], ep)))
  }

  /** In every interleaving an endpoint is marked if and only if a probe of it
      started and none ended since; then it is being probed. */
  lemma {:induction false} MarkedIff(events: seq<Event>, ep: Endpoint)
    requires Possible(events) && ProbesEnd(events, ep)
    ensures Marked(events, ep) <==> StartedLast(events, ep)
    ensures Marked(events, ep) ==> Probed(events, ep)
  {
    if events != [] {
      var init, e := events[..|events| - 1], events[|events| - 1];
      assert events == init + [e];
      MarkedMore(init, e, ep);
      ProbesEndInit(events, ep);
      MarkedIff(init, ep);
      ProbesMore(init, e, ep);
      assert init[..|init|] == init;
    }
  }

  lemma {:induction false} ProbesEndInit(events: seq<Event>, ep: Endpoint)
    requires ProbesEnd(events, ep) && events != []
    ensures ProbesEnd(events[..|events| - 1], ep)
    ensures Probes(events[..|events| - 1], ep) >= 0 && Probes(events, ep) >= 0
  {
    var init := events[..|events| - 1];
    forall k | 0 <= k <= |init| ensures Probes(init[..k], ep) >= 0 {
      assert init[..k] == events[..k];
    }
    assert init[..|init|] == init && events[..|events|] == events;
  }

  /** After `k` events the endpoint is marked exactly if it is probed. */
  ghost predicate MarkedAt(events: seq<Event>, ep: Endpoint, k: nat) {
    && k <= |events| && Possible(events[..k])
    && (Marked(events[..k], ep) <==> Probed(events[..k], ep))
  }

  /** Event `k` does not end a probe of the endpoint while another goes on. */
  ghost predicate EndsAlone(events: seq<Event>, ep: Endpoint, k: nat)
    requires k < |events|
  {
    events[k] == Clear(ep) ==> Probes(events[..k + 1], ep) <= 0
  }

  /** Throughout a run an endpoint is marked exactly while it is probed if and only
      if no probe of it ended while another went on. */
  lemma {:induction false} MarkedThroughoutIff(events: seq<Event>, ep: Endpoint)
    requires Possible(events) && ProbesEnd(events, ep)
    ensures (forall k :: 0 <= k <= |events| ==> MarkedAt(events, ep, k))
       <==> (forall k :: 0 <= k < |events| ==> EndsAlone(events, ep, k))
  {
    if forall k :: 0 <= k <= |events| ==> MarkedAt(events, ep, k) {
      forall k | 0 <= k < |events| ensures EndsAlone(events, ep, k) {
        assert MarkedAt(events, ep, k) && MarkedAt(events, ep, k + 1);
        StepIff(events, ep, k);
      }
    }
    if forall k :: 0 <= k < |events| ==> EndsAlone(events, ep, k) {
      forall k | 0 <= k <= |events| ensures MarkedAt(events, ep, k) {
        MarkedUpTo(events, ep, k);
      }
    }
  }

  lemma {:induction false} MarkedUpTo(events: seq<Event>, ep: Endpoint, n: nat)
    requires Possible(events) && ProbesEnd(events, ep) && n <= |events|
    requires forall k :: 0 <= k < n ==> EndsAlone(events, ep, k)
    ensures MarkedAt(events, ep, n)
  {
    if n == 0 {
      MarkedAtStart(events, ep);
    } else {
      MarkedUpTo(events, ep, n - 1);
      StepIff(events, ep, n - 1);
    }
  }

  lemma {:induction false} MarkedAtStart(events: seq<Event>, ep: Endpoint)
    ensures MarkedAt(events, ep, 0)
  {
    assert events[..0] == [];
  }

  lemma {:induction false} StepIff(events: seq<Event>, ep: Endpoint, k: nat)
    requires k < |events| && Possible(events) && ProbesEnd(events, ep) && MarkedAt(events, ep, k)
    ensures MarkedAt(events, ep, k + 1) <==> EndsAlone(events, ep, k)
  {
    var before, e := events[..k], events[k];
    assert Probes(before, ep) >= 0;
    assert events[..k + 1] == before + [e];
    PossiblePrefix(events, k + 1);
    ProbesMore(before, e, ep);
    MarkedMore(before, e, ep);
  }

  // ---- A probe that ends too early for another ------------------------------------------------

  lemma {:induction false} TwoProbes(ep: Endpoint)
    ensures var events := [Mark(ep), Mark(ep), Clear(ep)];
            && Possible(events) && !Marked(events, ep) && Probes(events, ep) == 1 && ProbesEnd(events, ep)
            && Run(events).value.marked == {}
  {
    var one, two, three := [Mark(ep)], [Mark(ep), Mark(ep)], [Mark(ep), Mark(ep), Clear(ep)];
    assert two == one + [Mark(ep)] && three == two + [Clear(ep)];
    assert one[..0] == [];
    assert Probes([], ep) == 0 && Possible([]) && Possible(one) && Run(one).value.marked == {ep};
    assert Probes(one, ep) == 1;
    ProbesMore(one, Mark(ep), ep);
    RunAppend(one, Mark(ep));
    ProbesMore(two, Clear(ep), ep);
    RunAppend(two, Clear(ep));
    forall k | 0 <= k <= 3 ensures Probes(three[..k], ep) >= 0 {
      assert three[..k] == if k == 0 then [] else if k == 1 then one else if k == 2 then two else three;
    }
  }

  /** Two probes of one endpoint start and the first ends: a packet of it is let
      through although it is still being probed. */
  lemma {:induction false} LetThroughWhileProbed(ep: Endpoint, pkt: Packet)
    requires pkt.src == ep
    ensures var events := [Mark(ep), Mark(ep), Clear(ep)];
            && ProbesEnd(events, ep) && Probed(events, ep)
            && Possible(events + [Check(pkt)]) && pkt in Run(events + [Check(pkt)]).value.inflight
  {
    TwoProbes(ep);
    RunAppend([Mark(ep), Mark(ep), Clear(ep)], Check(pkt));
  }
}
