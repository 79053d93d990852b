/** The daemon's packet subscriptions over whole runs: updates in any order with
    deliveries, reads by the buffer goroutines and the sweep of a dying capture. */
module DaemonRuns {
  import opened Basics
  import opened Discovered
  import opened PacketSubscriptions
  import Capture

  datatype Event =
    | Update(backends: seq<Backend>)
    | Deliver(pkt: Capture.Packet)
    | Read(id: Capture.SubId)
    | Die

  const INITIAL := State(map[], map[], 0, Capture.EMPTY)

  /** An update goes through unless it closes a swept subscription; its result is
      given up to the order in which the maps are walked. */
  ghost predicate Moves(before: State, e: Event, after: State) {
    match e
    case Update(backends) =>
      && (forall ep :: before.SweptAway(ep) ==> ep in EnabledEndpoints(backends))
      && Reconciled(before, after, EnabledEndpoints(backends))
    case Deliver(pkt) => after == before.(cap := Capture.Sent(before.cap, pkt))
    case Read(id) =>
      && id in before.cap.info && before.cap.info[id].queue != []
      && after == before.(cap := Capture.Received(before.cap, id))
    case Die => after == before.(cap := Capture.Swept(before.cap))
  }

  /** `states` are the states that `events` lead through. */
  ghost predicate IsRun(states: seq<State>, events: seq<Event>) {
    && |states| == |events| + 1 && states[0] == INITIAL
    && forall i :: 0 <= i < |events| ==> Moves(states[i], events[i], states[i + 1])
  }

  /** Only the queues of the channels differ. */
  ghost predicate SameButQueues(before: State, after: State) {
    && after.subs == before.subs && after.buffers == before.buffers && after.nextBuffer == before.nextBuffer
    && after.cap.subs == before.cap.subs && after.cap.next == before.cap.next
    && after.cap.info.Keys == before.cap.info.Keys
    && forall id :: id in before.cap.info ==>
         && after.cap.info[id].target == before.cap.info[id].target
         && after.cap.info[id].closings == before.cap.info[id].closings
  }

  lemma {:induction false} QueuesAside(before: State, after: State)
    requires before.Valid() && SameButQueues(before, after)
    ensures after.Valid()
    ensures forall ep :: after.SweptAway(ep) <==> before.SweptAway(ep)
  {
    assert forall ep :: ep in before.subs ==> before.subs[ep] in before.cap.info;
  }

  lemma {:induction false} MoveValid(before: State, e: Event, after: State)
    requires before.Valid() && Moves(before, e, after)
    ensures after.Valid()
  {
    match e
    case Update(_) =>
    case Deliver(_) => QueuesAside(before, after);
    case Read(_) => QueuesAside(before, after);
    case Die => DeathSweepsAll(before, Endpoint("", 0));
  }

  /** While the capture has not died nothing is swept. */
  ghost predicate Live(d: State) { forall ep :: !d.SweptAway(ep) }

  lemma {:induction false} MoveLive(before: State, e: Event, after: State)
    requires before.Valid() && Live(before) && Moves(before, e, after) && !e.Die?
    ensures Live(after)
  {
    match e
    case Update(backends) =>
      forall ep ensures !after.SweptAway(ep) {
        assert !before.SweptAway(ep);
      }
    case Deliver(_) => QueuesAside(before, after);
    case Read(_) => QueuesAside(before, after);
  }

  /** What updates rely on holds in every state of every run. */
  lemma {:induction false} RunValid(states: seq<State>, events: seq<Event>)
    requires IsRun(states, events)
    ensures states[|events|].Valid()
    ensures Die !in events ==> Live(states[|events|])
  {
    if events != [] {
      var n := |events| - 1;
      assert IsRun(states[..n + 1], events[..n]);
      RunValid(states[..n + 1], events[..n]);
      assert Moves(states[n], events[n], states[n + 1]);
      MoveValid(states[n], events[n], states[n + 1]);
      if Die !in events {
        assert events[n] in events && forall e :: e in events[..n] ==> e in events;
        MoveLive(states[n], events[n], states[n + 1]);
      }
    }
  }

  lemma {:induction false} TablesStay(states: seq<State>, events: seq<Event>, i: nat)
    requires IsRun(states, events) && i < |events| && events[i].Update?
    requires forall j :: i < j < |events| ==> !events[j].Update?
    ensures states[|events|].subs.Keys == states[|events|].buffers.Keys == EnabledEndpoints(events[i].backends)
  {
    var n := |events| - 1;
    assert Moves(states[n], events[n], states[n + 1]);
    if i < n {
      assert IsRun(states[..n + 1], events[..n]);
      assert events[..n][i] == events[i];
      TablesStay(states[..n + 1], events[..n], i);
    }
  }

  /** After every run in which the capture did not die: both tables have the
      enabled endpoints of the latest update and no others, the capture registers
      exactly their subscriptions, and no further update can panic. */
  lemma {:induction false} LiveRunReconciled(states: seq<State>, events: seq<Event>, i: nat)
    requires IsRun(states, events) && Die !in events
    requires i < |events| && events[i].Update? && forall j :: i < j < |events| ==> !events[j].Update?
    ensures var d := states[|events|];
            && d.subs.Keys == d.buffers.Keys == EnabledEndpoints(events[i].backends)
            && d.cap.subs == (map ep | ep in d.subs :: [d.subs[ep]])
            && forall ep :: !d.SweptAway(ep)
  {
    RunValid(states, events);
    TablesStay(states, events, i);
    LiveCaptureRegistersExactly(states[|events|]);
  }
}
