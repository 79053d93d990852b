/** A dashboard viewer of one packet buffer, under every interleaving with the
    goroutines that add packets. Packets are known by their place in the
    history of ring writes. */
module Viewer {
  import opened Basics
  import opened Capture

  type Writer = nat

  /** The ring write and the offers of one `Add` are separate steps; so are the
      viewer's subscription, its snapshot and each receive. */
  datatype Event =
    | RingWrite(writer: Writer)
    | OfferToViewers(writer: Writer)
    | Subscribe
    | TakeSnapshot
    | Receive

  /** `offers`: offered to the viewer's channel, in order. `early`: offered to
      other viewers before this one subscribed. `writtenAtSnapshot`: length of
      the history when the snapshot was taken. */
  datatype ViewState = ViewState(
    size: nat,
    written: nat,
    pending: map<Writer, nat>,
    subscribed: bool,
    early: set<nat>,
    offers: seq<nat>,
    queue: seq<nat>,
    received: seq<nat>,
    dropped: set<nat>,
    writtenAtSnapshot: Option<nat>)
  {
    /** What the snapshot holds: the last `size` packets written by then. */
    predicate InSnapshot(i: nat) {
      writtenAtSnapshot.Some? && i < writtenAtSnapshot.value && writtenAtSnapshot.value <= i + size
    }

    /** Pushed out of the ring by `size` later packets before the snapshot. */
    predicate EvictedBeforeSnapshot(i: nat) {
      writtenAtSnapshot.Some? && i + size < writtenAtSnapshot.value
    }

    predicate Pending(i: nat) { exists w | w in pending :: pending[w] == i }

    /** Neither in the snapshot nor offered to the viewer: the gap. */
    predicate Missed(i: nat) {
      && i < written && writtenAtSnapshot.Some?
      && !InSnapshot(i) && !EvictedBeforeSnapshot(i) && i !in offers && !Pending(i)
    }
  }

  function Initial(size: nat): ViewState {
    ViewState(size, 0, map[], false, {}, [], [], [], {}, None)
  }

  predicate Enabled(s: ViewState, e: Event) {
    match e
    case RingWrite(w) => w !in s.pending
    case OfferToViewers(w) => w in s.pending
    case Subscribe => !s.subscribed
    case TakeSnapshot => s.writtenAtSnapshot.None?
    case Receive => s.subscribed && s.queue != []
  }

  function Next(s: ViewState, e: Event): ViewState
    requires Enabled(s, e)
  {
    match e
    case RingWrite(w) => s.(written := s.written + 1, pending := s.pending[w := s.written])
    case OfferToViewers(w) =>
      var i := s.pending[w];
      var rest := s.pending - {w};
      if !s.subscribed then s.(pending := rest, early := s.early + {i})
      else if |s.queue| < CHANNEL_CAPACITY
        then s.(pending := rest, offers := s.offers + [i], queue := s.queue + [i])
        else s.(pending := rest, offers := s.offers + [i], dropped := s.dropped + {i})
    case Subscribe => s.(subscribed := true)
    case TakeSnapshot => s.(writtenAtSnapshot := Some(s.written))
    case Receive => s.(queue := s.queue[1..], received := s.received + [s.queue[0]])
  }

  function Run(size: nat, events: seq<Event>): Option<ViewState> {
    if events == [] then Some(Initial(size))
    else
      var before := Run(size, events[..|events| - 1]);
      var e := events[|events| - 1];
      if before.Some? && Enabled(before.value, e) then Some(Next(before.value, e)) else None
  }

  predicate Possible(size: nat, events: seq<Event>) { Run(size, events).Some? }

  // ---- No packet is lost track of ---------------------------------------------------

  /** Each written packet is in exactly one place: held by its writer, offered
      before the viewer subscribed, or offered to the viewer; and what was
      offered is received, queued or dropped. */
  ghost predicate Tracked(s: ViewState, i: nat) {
    && (i < s.written <==> s.Pending(i) || i in s.early || i in s.offers)
    && (s.Pending(i) ==> i !in s.early && i !in s.offers)
    && (i in s.early ==> i !in s.offers)
    && (i in s.offers <==> i in s.received || i in s.queue || i in s.dropped)
    && (s.offers != [] ==> s.subscribed)
    && (s.writtenAtSnapshot.Some? ==> s.writtenAtSnapshot.value <= s.written)
    && (forall w, v :: w in s.pending && v in s.pending && s.pending[w] == s.pending[v] ==> w == v)
    && (forall w :: w in s.pending ==> s.pending[w] < s.written)
  }

  lemma {:induction false} NextTracked(s: ViewState, e: Event, i: nat)
    requires Enabled(s, e) && Tracked(s, i)
    ensures Tracked(Next(s, e), i)
  {
    var t := Next(s, e);
    match e {
      case RingWrite(w) =>
        assert w in t.pending && t.pending[w] == s.written;
        forall v | v in s.pending ensures t.pending[v] == s.pending[v] && v in t.pending {}
      case OfferToViewers(w) =>
        forall v | v in s.pending && v != w ensures v in t.pending && t.pending[v] == s.pending[v] {}
        assert forall v :: v in t.pending ==> v in s.pending && v != w;
      case Receive =>
        assert s.queue == [s.queue[0]] + s.queue[1..];
      case _ =>
    }
  }

  lemma {:induction false} AllTracked(size: nat, events: seq<Event>, i: nat)
    requires Possible(size, events)
    ensures Tracked(Run(size, events).value, i)
  {
    if events != [] {
      AllTracked(size, events[..|events| - 1], i);
      NextTracked(Run(size, events[..|events| - 1]).value, events[|events| - 1], i);
    }
  }

  /** The gap, exactly: what was written after the snapshot and offered before
      the subscription. */
  lemma {:induction false} MissedIff(size: nat, events: seq<Event>, i: nat)
    requires Possible(size, events) && Run(size, events).value.writtenAtSnapshot.Some?
    ensures var s := Run(size, events).value;
            s.Missed(i) <==> s.writtenAtSnapshot.value <= i && i in s.early
  {
    AllTracked(size, events, i);
  }

  /** The viewer's program: subscribe first, then take the snapshot. */
  ghost predicate SubscribesFirst(events: seq<Event>) {
    forall i :: 0 <= i < |events| && events[i] == TakeSnapshot ==> Subscribe in events[..i]
  }

  /** While it subscribes first, nothing offered early postdates the snapshot. */
  lemma {:induction false} EarlyPredatesSnapshot(size: nat, events: seq<Event>, i: nat)
    requires Possible(size, events) && SubscribesFirst(events)
    ensures var s := Run(size, events).value;
            && (s.subscribed <==> Subscribe in events)
            && (s.writtenAtSnapshot.Some? ==> s.subscribed)
            && (s.writtenAtSnapshot.Some? && i in s.early ==> i < s.writtenAtSnapshot.value)
  {
    if events != [] {
      var init, e := events[..|events| - 1], events[|events| - 1];
      assert events == init + [e];
      forall j | 0 <= j < |init| && init[j] == TakeSnapshot ensures Subscribe in init[..j] {
        assert events[j] == TakeSnapshot && events[..j] == init[..j];
      }
      EarlyPredatesSnapshot(size, init, i);
      AllTracked(size, init, i);
      if e == TakeSnapshot {
        assert events[..|init|] == init;
      }
    }
  }

  /** No gap: every packet written is in the snapshot, was evicted by `size`
      later writes, is offered to the viewer, or is still with its writer. */
  lemma {:induction false} NoGap(size: nat, events: seq<Event>, i: nat)
    requires Possible(size, events) && SubscribesFirst(events)
    ensures !Run(size, events).value.Missed(i)
  {
    EarlyPredatesSnapshot(size, events, i);
    if Run(size, events).value.writtenAtSnapshot.Some? {
      MissedIff(size, events, i);
    }
  }

  /** The other order does lose packets. */
  lemma {:induction false} SnapshotFirstMisses(size: nat)
    ensures exists events :: Possible(size, events) && Run(size, events).value.Missed(0)
  {
    var e0, e1, e2, e3 := TakeSnapshot, RingWrite(0), OfferToViewers(0), Subscribe;
    var events := [e0, e1, e2, e3];
    assert events[..3] == [e0, e1, e2] && [e0, e1, e2][..2] == [e0, e1];
    assert [e0, e1][..1] == [e0] && [e0][..0] == [];
    var s1 := Next(Initial(size), e0);
    assert Run(size, [e0]) == Some(s1);
    var s2 := Next(s1, e1);
    assert Run(size, [e0, e1]) == Some(s2);
    var s3 := Next(s2, e2);
    assert Run(size, [e0, e1, e2]) == Some(s3);
    assert Run(size, events) == Some(Next(s3, e3));
  }

  // ---- Order ---------------------------------------------------------------------------

  predicate Increasing(s: seq<nat>) {
    forall i, j :: 0 <= i < j < |s| ==> s[i] < s[j]
  }

  ghost predicate OneWriter(events: seq<Event>, w: Writer) {
    forall e :: e in events ==> (e.RingWrite? || e.OfferToViewers?) ==> e.writer == w
  }

  /** With one writer: what the viewer has read and what its channel holds are
      together in history order, and older than anything not yet offered. */
  ghost predicate InOrder(s: ViewState, w: Writer) {
    && Increasing(s.received + s.queue)
    && (forall i :: i in s.received + s.queue ==> i < s.written)
    && (forall v :: v in s.pending ==> v == w && s.pending[v] == s.written - 1)
    && (w in s.pending ==> forall i :: i in s.received + s.queue ==> i < s.pending[w])
  }

  lemma {:induction false} HistoryOrder(size: nat, events: seq<Event>, w: Writer)
    requires Possible(size, events) && OneWriter(events, w)
    ensures InOrder(Run(size, events).value, w)
    ensures |Run(size, events).value.queue| <= CHANNEL_CAPACITY
  {
    if events != [] {
      var init, e := events[..|events| - 1], events[|events| - 1];
      assert events == init + [e] && e in events;
      HistoryOrder(size, init, w);
      NextInOrder(Run(size, init).value, e, w);
    }
  }

  lemma {:induction false} NextInOrder(s: ViewState, e: Event, w: Writer)
    requires Enabled(s, e) && InOrder(s, w) && |s.queue| <= CHANNEL_CAPACITY
    requires (e.RingWrite? || e.OfferToViewers?) ==> e.writer == w
    ensures InOrder(Next(s, e), w) && |Next(s, e).queue| <= CHANNEL_CAPACITY
  {
    var t := Next(s, e);
    var before := s.received + s.queue;
    if e.Receive? {
      assert t.received + t.queue == before;
    } else if e.OfferToViewers? && s.subscribed && |s.queue| < CHANNEL_CAPACITY {
      assert t.received + t.queue == before + [s.pending[w]];
      forall j | 0 <= j < |before| ensures before[j] < s.pending[w] {
        assert before[j] in before;
      }
      forall i | i in t.received + t.queue ensures i < t.written {
        assert i in before || i == s.pending[w];
      }
    } else {
      assert t.received + t.queue == before;
    }
  }

  // ---- The page -------------------------------------------------------------------------

  /** The places of the snapshot, as the ring hands them out: oldest first. */
  function SnapshotPlaces(s: ViewState): (r: seq<nat>)
    requires s.writtenAtSnapshot.Some?
    ensures |r| == if s.writtenAtSnapshot.value < s.size then s.writtenAtSnapshot.value else s.size
    ensures forall k :: 0 <= k < |r| ==> r[k] == s.writtenAtSnapshot.value - |r| + k
  {
    var n := s.writtenAtSnapshot.value;
    var m := if n < s.size then n else s.size;
    seq(m, k requires 0 <= k < m => n - m + k)
  }

  lemma {:induction false} SnapshotHolds(s: ViewState, i: nat)
    requires s.writtenAtSnapshot.Some?
    ensures i in SnapshotPlaces(s) <==> s.InSnapshot(i)
  {
    var places := SnapshotPlaces(s);
    if s.InSnapshot(i) {
      assert places[i - (s.writtenAtSnapshot.value - |places|)] == i;
    }
  }

  /** They are the places of what a snapshot of the buffer returns: the last
      `size` packets of its history. */
  lemma {:induction false} SnapshotIsSuffix(history: seq<Packet>, s: ViewState)
    requires s.writtenAtSnapshot == Some(|history|)
    ensures |SnapshotPlaces(s)| == |Suffix(history, s.size)|
    ensures forall k :: 0 <= k < |SnapshotPlaces(s)| ==>
              SnapshotPlaces(s)[k] < |history| && history[SnapshotPlaces(s)[k]] == Suffix(history, s.size)[k]
  {
    var places, kept := SnapshotPlaces(s), Suffix(history, s.size);
    forall k | 0 <= k < |places| ensures places[k] < |history| && history[places[k]] == kept[k] {
      assert places[k] == |history| - |kept| + k;
    }
  }

  /** How many of the places received were written before the snapshot. */
  function Repeated(received: seq<nat>, n: nat): (k: nat)
    ensures k <= |received|
    ensures forall j :: 0 <= j < k ==> received[j] < n
    ensures k < |received| ==> received[k] >= n
  {
    if received == [] || received[0] >= n then 0 else 1 + Repeated(received[1..], n)
  }

  /** With one writer, the page shows the snapshot and then what is received: in
      history order, but for the first few received, which are just those that
      the snapshot already held or that were evicted before it. */
  lemma {:induction false} PageInOrder(size: nat, events: seq<Event>, w: Writer)
    requires Possible(size, events) && OneWriter(events, w)
    requires Run(size, events).value.writtenAtSnapshot.Some?
    ensures var s := Run(size, events).value;
            var k := Repeated(s.received, s.writtenAtSnapshot.value);
            && Increasing(SnapshotPlaces(s) + s.received[k..])
            && (forall i :: i in s.received[..k] ==> s.InSnapshot(i) || s.EvictedBeforeSnapshot(i))
            && (forall i :: i in s.received[k..] ==> !s.InSnapshot(i) && !s.EvictedBeforeSnapshot(i))
  {
    HistoryOrder(size, events, w);
    var s := Run(size, events).value;
    var n := s.writtenAtSnapshot.value;
    var k := Repeated(s.received, n);
    var later, snapshot := s.received[k..], SnapshotPlaces(s);
    forall i, j | 0 <= i < j < |s.received| ensures s.received[i] < s.received[j] {
      assert (s.received + s.queue)[i] == s.received[i] && (s.received + s.queue)[j] == s.received[j];
    }
    forall j | 0 <= j < |later| ensures later[j] >= n {
      assert later[j] == s.received[k + j];
    }
  }
}
