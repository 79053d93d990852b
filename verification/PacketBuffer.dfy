/** The ring of recent packets of one endpoint, and the viewers that stream it. */
module PacketBuffer {
  import opened Basics
  import opened Capture

  const DEFAULT_BUFFER_SIZE := 1000

  type ChanId = nat

  lemma {:induction false} ModOnce(a: nat, n: nat)
    requires 0 < n && a < 2 * n
    ensures a % n == if a < n then a else a - n
  {
    if a >= n {
      assert a == 1 * n + (a - n);
    }
  }

  /** The first `i + 1` elements are the first `i` and one more. */
  lemma {:induction false} NextOf(s: seq<ChanId>, i: nat)
    requires i < |s| && NoDuplicates(s)
    ensures s[i] in s && s[i] !in s[..i]
    ensures forall x :: x in s[..i + 1] <==> x in s[..i] || x == s[i]
  {
    assert s[..i + 1] == s[..i] + [s[i]];
  }

  function Offer(queue: seq<Packet>, pkt: Packet): seq<Packet> {
    if |queue| < CHANNEL_CAPACITY then queue + [pkt] else queue
  }

  ghost predicate FirstNumbered(packets: seq<Packet>, number: nat, i: int) {
    0 <= i < |packets| && packets[i].number == number && forall j :: 0 <= j < i ==> packets[j].number != number
  }

  class PacketBuffer {
    const packets: array<Packet>
    const size: nat
    var head: nat
    var count: nat
    var subs: seq<ChanId>
    var queues: map<ChanId, seq<Packet>>
    var nextChan: ChanId
    /** Every packet ever written. */
    ghost var history: seq<Packet>

    /** The ring holds the last `size` packets written, oldest first. */
    ghost predicate Valid()
      reads this, packets
    {
      && RingInvariant()
      && NoDuplicates(subs)
      && (forall ch :: ch in subs ==> ch in queues)
      && (forall ch :: ch in queues ==> ch < nextChan)
    }

    ghost predicate RingInvariant()
      reads this, packets
    {
      size == packets.Length && Ring(packets[..], head, count, history)
    }

    constructor (size: nat := DEFAULT_BUFFER_SIZE)
      requires 0 < size
      ensures Valid() && fresh(packets) && this.size == size && history == [] && subs == [] && queues == map[]
    {
      packets := new Packet[size](_ => Packet(0, Endpoint("", 0), Endpoint("", 0)));
      this.size := size;
      head, count := 0, 0;
      subs, queues, nextChan := [], map[], 0;
      history := [];
    }

    method Index(i: nat) returns (slot: nat)
      requires 0 < size && head < size && i <= size
      ensures slot == Slot(head, i, size)
    {
      ModOnce(head + i, size);
      slot := (head + i) % size;
    }

    /** The packet `i` places after the oldest one. */
    method At(i: nat) returns (pkt: Packet)
      requires Valid() && i < count
      ensures i < |Suffix(history, size)| && pkt == Suffix(history, size)[i]
    {
      var slot := Index(i);
      pkt := packets[slot];
    }

    /** `Add` is two critical sections: the ring write, then the offers. */
    method Add(pkt: Packet)
      requires Valid()
      modifies this, packets
      ensures Valid() && history == old(history) + [pkt]
      ensures subs == old(subs) && nextChan == old(nextChan)
      ensures queues == map ch | ch in old(queues) ::
                if ch in subs then Offer(old(queues)[ch], pkt) else old(queues)[ch]
    {
      Write(pkt);
      OfferAll(pkt);
    }

    method Write(pkt: Packet)
      requires RingInvariant()
      modifies this`head, this`count, this`history, packets
      ensures RingInvariant() && history == old(history) + [pkt]
    {
      var idx := Index(count);
      ghost var slots := packets[..];
      RingWritten(slots, head, count, history, pkt);
      if count == size {
        head := Index(1);
      } else {
        count := count + 1;
      }
      packets[idx] := pkt;
      history := history + [pkt];
      assert packets[..] == slots[idx := pkt];
    }

    method OfferAll(pkt: Packet)
      requires NoDuplicates(subs) && forall ch :: ch in subs ==> ch in queues
      modifies this`queues
      ensures queues == map ch | ch in old(queues) ::
                if ch in subs then Offer(old(queues)[ch], pkt) else old(queues)[ch]
    {
      for i := 0 to |subs|
        invariant queues == map ch | ch in old(queues) ::
                    if ch in subs[..i] then Offer(old(queues)[ch], pkt) else old(queues)[ch]
      {
        var ch := subs[i];
        NextOf(subs, i);
        if |queues[ch]| < CHANNEL_CAPACITY {
          queues := queues[ch := queues[ch] + [pkt]];
        }
      }
      assert subs[..|subs|] == subs;
    }

    /** The ring, oldest first: the last `size` packets of the history. */
    method Snapshot() returns (result: seq<Packet>)
      requires Valid()
      ensures result == Suffix(history, size)
    {
      ghost var kept := Suffix(history, size);
      result := [];
      for i := 0 to count
        invariant |result| == i && forall j :: 0 <= j < i ==> result[j] == kept[j]
      {
        var pkt := At(i);
        result := result + [pkt];
      }
    }

    /** The oldest packet still in the ring with that number. */
    method Get(number: nat) returns (r: Option<Packet>)
      requires Valid()
      ensures r.None? ==> forall p :: p in Suffix(history, size) ==> p.number != number
      ensures r.Some? ==> exists i :: FirstNumbered(Suffix(history, size), number, i)
                               && Suffix(history, size)[i] == r.value
    {
      ghost var kept := Suffix(history, size);
      for i := 0 to count
        invariant forall j :: 0 <= j < i ==> kept[j].number != number
      {
        var pkt := At(i);
        if pkt.number == number {
          return Some(pkt);
        }
      }
      return None;
    }

    method Subscribe() returns (ch: ChanId)
      requires Valid()
      modifies this`subs, this`queues, this`nextChan
      ensures Valid() && ch !in old(queues)
      ensures subs == old(subs) + [ch] && queues == old(queues)[ch := []]
    {
      ch := nextChan;
      nextChan := nextChan + 1;
      queues := queues[ch := []];
      forall i | 0 <= i < |subs| ensures subs[i] != ch {
        assert subs[i] in subs;
      }
      subs := subs + [ch];
    }

    method Unsubscribe(ch: ChanId)
      requires Valid()
      modifies this`subs
      ensures Valid() && subs == Without(old(subs), ch) && ch !in subs
    {
      WithoutDistinct(subs, ch);
      for i := 0 to |subs|
        invariant subs == old(subs)
        invariant ch !in subs[..i]
      {
        if subs[i] == ch {
          WithoutAt(subs, ch, i);
          subs := subs[..i] + subs[i + 1..];
          return;
        }
      }
      assert subs[..|subs|] == subs;
    }
  }

  /** The array slot of the `i`-th packet of the ring. */
  function Slot(head: nat, i: nat, size: nat): nat
    requires head < size && i <= size
    ensures Slot(head, i, size) < size
  {
    if head + i < size then head + i else head + i - size
  }

  /** The array `slots`, read from `head`, holds the last packets of `history`. */
  ghost predicate Ring(slots: seq<Packet>, head: nat, count: nat, history: seq<Packet>) {
    && head < |slots|
    && count == |Suffix(history, |slots|)|
    && forall i :: 0 <= i < count ==> slots[Slot(head, i, |slots|)] == Suffix(history, |slots|)[i]
  }

  /** Writing one packet, into a free slot or over the oldest one. */
  lemma {:induction false} RingWritten(slots: seq<Packet>, head: nat, count: nat, history: seq<Packet>, pkt: Packet)
    requires Ring(slots, head, count, history)
    ensures var full := count == |slots|;
            Ring(slots[Slot(head, count, |slots|) := pkt],
                 if full then Slot(head, 1, |slots|) else head,
                 if full then count else count + 1,
                 history + [pkt])
  {
    if count == |slots| {
      OldestOverwritten(slots, head, history, pkt);
    } else {
      SlotFilled(slots, head, count, history, pkt);
    }
  }

  lemma {:induction false} OldestOverwritten(slots: seq<Packet>, head: nat, history: seq<Packet>, pkt: Packet)
    requires Ring(slots, head, |slots|, history)
    ensures Ring(slots[head := pkt], Slot(head, 1, |slots|), |slots|, history + [pkt])
  {
    var size := |slots|;
    var before, after := Suffix(history, size), Suffix(history + [pkt], size);
    var slots', head' := slots[head := pkt], Slot(head, 1, size);
    forall i | 0 <= i < size ensures slots'[Slot(head', i, size)] == after[i] {
      if i < size - 1 {
        assert after[i] == before[i + 1];
        assert Slot(head', i, size) == Slot(head, i + 1, size) != head;
      }
    }
  }

  lemma {:induction false} SlotFilled(slots: seq<Packet>, head: nat, count: nat, history: seq<Packet>, pkt: Packet)
    requires Ring(slots, head, count, history) && count < |slots|
    ensures Ring(slots[Slot(head, count, |slots|) := pkt], head, count + 1, history + [pkt])
  {
    var size := |slots|;
    var before, after := Suffix(history, size), Suffix(history + [pkt], size);
    var slots' := slots[Slot(head, count, size) := pkt];
    assert after == before + [pkt];
    forall i | 0 <= i < count ensures slots'[Slot(head, i, size)] == after[i] {
      assert after[i] == before[i];
    }
  }
}
