/** Runs in which a container writes to its two output streams in chunks and the
    ticker drains them into one log buffer. */
module LogRuns {
  import opened Basics
  import opened Logs
  import Text

  datatype Stream = Stdout | Stderr

  datatype Action = Wrote(stream: Stream, chunk: Bytes) | Drained(stream: Stream)

  datatype Tail = Tail(stdout: Bytes, stderr: Bytes, lines: seq<Bytes>) {
    function Pending(s: Stream): Bytes { if s.Stdout? then stdout else stderr }

    function With(s: Stream, data: Bytes): Tail {
      if s.Stdout? then this.(stdout := data) else this.(stderr := data)
    }
  }

  function Step(t: Tail, a: Action, max: nat): Tail {
    match a
    case Wrote(s, chunk) => t.With(s, t.Pending(s) + chunk)
    case Drained(s) =>
      t.With(s, Rest(t.Pending(s))).(lines := Suffix(t.lines + Shown(Lines(t.Pending(s))), max))
  }

  function Run(run: seq<Action>, max: nat): Tail {
    if run == [] then Tail([], [], []) else Step(Run(run[..|run| - 1], max), run[|run| - 1], max)
  }

  /** The log of one container: both streams and the buffer. */
  class ContainerLog {
    const stdout: ByteBuffer
    const stderr: ByteBuffer
    const buffer: LogBuffer

    ghost predicate Valid()
      reads this, buffer
    { buffer.Valid() && stdout != stderr }

    function View(): Tail
      reads this, stdout, stderr, buffer
    { Tail(stdout.data, stderr.data, buffer.lines) }

    constructor (max: nat)
      ensures Valid() && View() == Run([], max) && buffer.max == max
      ensures fresh(stdout) && fresh(stderr) && fresh(buffer)
    {
      stdout := new ByteBuffer();
      stderr := new ByteBuffer();
      buffer := new LogBuffer(max);
    }

    method Write(s: Stream, chunk: Bytes)
      requires Valid()
      modifies stdout, stderr
      ensures Valid() && View() == Step(old(View()), Wrote(s, chunk), buffer.max)
    {
      if s.Stdout? { stdout.Write(chunk); } else { stderr.Write(chunk); }
    }

    /** One tick of the ticker. */
    method ProcessLogBuffers()
      requires Valid()
      modifies stdout, stderr, buffer
      ensures Valid()
      ensures View() == Step(Step(old(View()), Drained(Stdout), buffer.max), Drained(Stderr), buffer.max)
    {
      DrainBuffer(buffer, stdout);
      DrainBuffer(buffer, stderr);
    }
  }

  // ---- What a run wrote and added ---------------------------------------------------------

  /** The bytes written to a stream. */
  function Written(run: seq<Action>, s: Stream): Bytes {
    if run == [] then []
    else
      var before, a := run[..|run| - 1], run[|run| - 1];
      Written(before, s) + if a.Wrote? && a.stream == s then a.chunk else []
  }

  /** The bytes written to a stream before it was last drained. */
  function Seen(run: seq<Action>, s: Stream): Bytes {
    if run == [] then []
    else
      var before, a := run[..|run| - 1], run[|run| - 1];
      if a == Drained(s) then Written(before, s) else Seen(before, s)
  }

  datatype Tagged = Tagged(stream: Stream, line: Bytes)

  function Tag(s: Stream, lines: seq<Bytes>): seq<Tagged> {
    seq(|lines|, i requires 0 <= i < |lines| => Tagged(s, lines[i]))
  }

  /** Every line the run added to the buffer, with the stream it came from. */
  function Added(run: seq<Action>, max: nat): seq<Tagged> {
    if run == [] then []
    else
      var before, a := run[..|run| - 1], run[|run| - 1];
      Added(before, max)
      + if a.Drained? then Tag(a.stream, Shown(Lines(Run(before, max).Pending(a.stream)))) else []
  }

  function OfStream(added: seq<Tagged>, s: Stream): seq<Bytes> {
    if added == [] then []
    else (if added[0].stream == s then [added[0].line] else []) + OfStream(added[1..], s)
  }

  function Untagged(added: seq<Tagged>): seq<Bytes> {
    seq(|added|, i requires 0 <= i < |added| => added[i].line)
  }

  lemma {:induction false} OfStreamAppended(a: seq<Tagged>, b: seq<Tagged>, s: Stream)
    ensures OfStream(a + b, s) == OfStream(a, s) + OfStream(b, s)
  {
    if a == [] {
      assert a + b == b;
    } else {
      assert (a + b)[1..] == a[1..] + b;
      OfStreamAppended(a[1..], b, s);
    }
  }

  lemma {:induction false} OfStreamTagged(s: Stream, t: Stream, lines: seq<Bytes>)
    ensures OfStream(Tag(s, lines), t) == if s == t then lines else []
  {
    if lines != [] {
      assert Tag(s, lines)[1..] == Tag(s, lines[1..]);
      OfStreamTagged(s, t, lines[1..]);
    }
  }

  /** What has been drained is a prefix of what was written; what is pending is the
      partial line left over, then what came since. */
  ghost predicate Reassembled(run: seq<Action>, max: nat, s: Stream) {
    exists since :: ReassembledWith(run, max, s, since)
  }

  ghost predicate ReassembledWith(run: seq<Action>, max: nat, s: Stream, since: Bytes) {
    && OfStream(Added(run, max), s) == Shown(Lines(Seen(run, s)))
    && Written(run, s) == Seen(run, s) + since
    && Run(run, max).Pending(s) == Rest(Seen(run, s)) + since
  }

  /** However the bytes of a stream are cut into writes, and whatever drains and
      writes of the other stream happen in between: the lines added from it are
      the complete lines of what was written before the last drain, trimmed, in
      order, without the blank ones; nothing else of it is pending or lost. */
  lemma {:induction false} Reassembly(run: seq<Action>, max: nat, s: Stream)
    ensures Reassembled(run, max, s)
  {
    if run == [] {
      assert ReassembledWith(run, max, s, []);
    } else {
      var before, a := run[..|run| - 1], run[|run| - 1];
      Reassembly(before, max, s);
      var since :| ReassembledWith(before, max, s, since);
      match a
      case Wrote(t, chunk) => WriteReassembled(run, max, s, since);
      case Drained(t) => DrainReassembled(run, max, s, since);
    }
  }

  lemma {:induction false} WriteReassembled(run: seq<Action>, max: nat, s: Stream, since: Bytes)
    requires run != [] && run[|run| - 1].Wrote?
    requires ReassembledWith(run[..|run| - 1], max, s, since)
    ensures Reassembled(run, max, s)
  {
    var before, a := run[..|run| - 1], run[|run| - 1];
    assert Added(run, max) == Added(before, max);
    var more := if a.stream == s then a.chunk else [];
    Regrouped(Seen(before, s), since, more);
    Regrouped(Rest(Seen(before, s)), since, more);
    var pending := Run(before, max).Pending(s);
    assert pending + [] == pending;
    assert Run(run, max).Pending(s) == pending + more;
    assert ReassembledWith(run, max, s, since + more);
  }

  lemma {:induction false} DrainAdds(run: seq<Action>, max: nat, s: Stream)
    requires run != [] && run[|run| - 1].Drained?
    ensures var before, t := run[..|run| - 1], run[|run| - 1].stream;
            OfStream(Added(run, max), s) == if t == s
              then OfStream(Added(before, max), s) + Shown(Lines(Run(before, max).Pending(s)))
              else OfStream(Added(before, max), s)
  {
    var before, t := run[..|run| - 1], run[|run| - 1].stream;
    var shown := Shown(Lines(Run(before, max).Pending(t)));
    OfStreamAppended(Added(before, max), Tag(t, shown), s);
    OfStreamTagged(t, s, shown);
  }

  lemma {:induction false} DrainReassembled(run: seq<Action>, max: nat, s: Stream, since: Bytes)
    requires run != [] && run[|run| - 1].Drained?
    requires ReassembledWith(run[..|run| - 1], max, s, since)
    ensures Reassembled(run, max, s)
  {
    DrainAdds(run, max, s);
    if run[|run| - 1].stream == s {
      ShownAsOne(Seen(run[..|run| - 1], s), since);
      DrainedReassembled(run, max, s, since);
    } else {
      assert ReassembledWith(run, max, s, since);
    }
  }

  lemma {:induction false} ShownAsOne(seen: Bytes, since: Bytes)
    ensures Shown(Lines(seen + since)) == Shown(Lines(seen)) + Shown(Lines(Rest(seen) + since))
    ensures Rest(seen + since) == Rest(Rest(seen) + since)
  {
    LinesAppended(seen, since);
    ShownAppended(Lines(seen), Lines(Rest(seen) + since));
  }

  lemma {:induction false} DrainedReassembled(run: seq<Action>, max: nat, s: Stream, since: Bytes)
    requires run != [] && run[|run| - 1] == Drained(s)
    requires Written(run[..|run| - 1], s) == Seen(run[..|run| - 1], s) + since
    requires Run(run[..|run| - 1], max).Pending(s) == Rest(Seen(run[..|run| - 1], s)) + since
    requires OfStream(Added(run, max), s) == Shown(Lines(Seen(run[..|run| - 1], s) + since))
    requires Rest(Seen(run[..|run| - 1], s) + since) == Rest(Rest(Seen(run[..|run| - 1], s)) + since)
    ensures Reassembled(run, max, s)
  {
    assert Written(run, s) == Written(run[..|run| - 1], s) + [];
    assert Seen(run, s) + [] == Seen(run, s) == Written(run[..|run| - 1], s);
    assert ReassembledWith(run, max, s, []);
  }

  lemma {:induction false} UntaggedAppended(added: seq<Tagged>, s: Stream, lines: seq<Bytes>)
    ensures Untagged(added + Tag(s, lines)) == Untagged(added) + lines
  {}

  /** The buffer is the last `max` of all lines added. */
  lemma {:induction false} BufferIsSuffix(run: seq<Action>, max: nat)
    ensures Run(run, max).lines == Suffix(Untagged(Added(run, max)), max)
  {
    if run != [] {
      var before, a := run[..|run| - 1], run[|run| - 1];
      BufferIsSuffix(before, max);
      if a.Drained? {
        var shown := Shown(Lines(Run(before, max).Pending(a.stream)));
        SuffixAppended(Untagged(Added(before, max)), shown, max);
        UntaggedAppended(Added(before, max), a.stream, shown);
      } else {
        assert Added(run, max) == Added(before, max);
      }
    }
  }

  /** Chunk independence: two runs that drained the same bytes of a stream added
      the same lines from it, and leave the same bytes pending when nothing was
      written to it since. */
  lemma {:induction false} ChunkIndependence(run: seq<Action>, run': seq<Action>, max: nat, s: Stream)
    requires Seen(run, s) == Seen(run', s)
    ensures OfStream(Added(run, max), s) == OfStream(Added(run', max), s)
    ensures Written(run, s) == Written(run', s) ==> Run(run, max).Pending(s) == Run(run', max).Pending(s)
  {
    Reassembly(run, max, s);
    Reassembly(run', max, s);
    var since :| ReassembledWith(run, max, s, since);
    var since' :| ReassembledWith(run', max, s, since');
    assert since == Written(run, s)[|Seen(run, s)|..] && since' == Written(run', s)[|Seen(run', s)|..];
  }

  // ---- Writes during a drain --------------------------------------------------------------

  // A drain is not one step: the partial line it reads last is out of the stream
  // until it is put back. `Reading` takes each call on the stream as one step.

  datatype Reading = Reading(read: seq<Bytes>, held: Bytes, pending: Bytes)

  datatype Call = Arrive(chunk: Bytes) | ReadLine | PutBack

  function Do(r: Reading, c: Call): Reading {
    match c
    case Arrive(chunk) => r.(pending := r.pending + chunk)
    case ReadLine =>
      if r.held != [] then r
      else if NEWLINE !in r.pending then r.(held := r.pending, pending := [])
      else
        var n := Text.Index(r.pending, NEWLINE);
        r.(read := r.read + [r.pending[..n + 1]], pending := r.pending[n + 1..])
    case PutBack => r.(held := [], pending := r.pending + r.held)
  }

  function DoAll(calls: seq<Call>): Reading {
    if calls == [] then Reading([], [], []) else Do(DoAll(calls[..|calls| - 1]), calls[|calls| - 1])
  }

  function Arrived(calls: seq<Call>): Bytes {
    if calls == [] then []
    else
      var c := calls[|calls| - 1];
      Arrived(calls[..|calls| - 1]) + if c.Arrive? then c.chunk else []
  }

  /** The lines read, the line held and what is pending are the stream, in order. */
  ghost predicate InOrder(r: Reading, stream: Bytes) {
    && Joined(r.read) + r.held + r.pending == stream
    && NEWLINE !in r.held
    && forall i :: 0 <= i < |r.read| ==> Complete(r.read[i])
  }

  lemma {:induction false} JoinedMore(lines: seq<Bytes>, line: Bytes)
    ensures Joined(lines + [line]) == Joined(lines) + line
  {
    JoinedLast(lines + [line]);
    assert (lines + [line])[..|lines|] == lines;
  }

  lemma {:induction false} ReadKeepsOrder(r: Reading, stream: Bytes)
    requires InOrder(r, stream)
    ensures InOrder(Do(r, ReadLine), stream)
  {
    var done := Joined(r.read);
    assert done + [] == done && done + r.pending + [] == done + r.pending;
    if r.held == [] && NEWLINE in r.pending {
      LineInOrder(r.read, r.pending);
    }
  }

  lemma {:induction false} LineInOrder(read: seq<Bytes>, pending: Bytes)
    requires NEWLINE in pending
    ensures var n := Text.Index(pending, NEWLINE);
            && n < |pending| && Complete(pending[..n + 1])
            && Joined(read + [pending[..n + 1]]) + [] + pending[n + 1..] == Joined(read) + pending
  {
    var n := Text.Index(pending, NEWLINE);
    assert n < |pending|;
    assert pending[..n + 1][..n] == pending[..n];
    JoinedMore(read, pending[..n + 1]);
    CutAndJoined(Joined(read), pending, n + 1);
  }

  lemma {:induction false} CutAndJoined(done: Bytes, pending: Bytes, n: nat)
    requires n <= |pending|
    ensures done + pending[..n] + [] + pending[n..] == done + pending
  {
    Halves(pending, n);
    assert done + pending[..n] + [] == done + pending[..n];
    Regrouped(done, pending[..n], pending[n..]);
  }

  // ---- Texts that commute ------------------------------------------------------------------

  function Power(w: Bytes, n: nat): Bytes {
    if n == 0 then [] else w + Power(w, n - 1)
  }

  /** Both texts are repetitions of one text; the empty one repeats any text. */
  ghost predicate RepeatOne(u: Bytes, v: Bytes) {
    exists w, m, n :: u == Power(w, m) && v == Power(w, n)
  }

  lemma {:induction false} PowerSum(w: Bytes, m: nat, n: nat)
    ensures Power(w, m) + Power(w, n) == Power(w, m + n)
  {
    if m > 0 {
      PowerSum(w, m - 1, n);
      Regrouped(w, Power(w, m - 1), Power(w, n));
    }
  }

  /** The text that two commuting texts repeat, and how often they do. */
  lemma {:induction false} CommonRoot(u: Bytes, v: Bytes) returns (w: Bytes, m: nat, n: nat)
    requires u + v == v + u
    ensures u == Power(w, m) && v == Power(w, n)
    decreases |u| + |v|, |u|
  {
    if u == [] {
      w, m, n := v, 0, 1;
    } else if |u| > |v| {
      w, n, m := CommonRoot(v, u);
    } else {
      var rest := v[|u|..];
      assert (u + v)[..|u|] == u && (v + u)[..|u|] == v[..|u|];
      assert v == u + rest;
      Regrouped(u, rest, u);
      assert (u + v)[|u|..] == v && (u + (rest + u))[|u|..] == rest + u;
      w, m, n := CommonRoot(u, rest);
      PowerSum(w, m, n);
      n := m + n;
    }
  }

  lemma {:induction false} CommuteIff(u: Bytes, v: Bytes)
    ensures u + v == v + u <==> RepeatOne(u, v)
  {
    if u + v == v + u {
      var w, m, n := CommonRoot(u, v);
    }
    if RepeatOne(u, v) {
      var w, m, n :| u == Power(w, m) && v == Power(w, n);
      PowerSum(w, m, n);
      PowerSum(w, n, m);
    }
  }

  // ---- When a partial line may be put back --------------------------------------------------

  /** Putting a partial line back keeps the stream in order if and only if it and
      what arrived meanwhile repeat one text, as when one of them is empty; with
      a newline in what arrived, only if no partial line was held. */
  lemma {:induction false} PutBackKeepsOrderIff(r: Reading, stream: Bytes)
    requires InOrder(r, stream)
    ensures InOrder(Do(r, PutBack), stream) <==> RepeatOne(r.held, r.pending)
    ensures NEWLINE in r.pending ==> (InOrder(Do(r, PutBack), stream) <==> r.held == [])
  {
    PutBackCommutes(r, stream);
    CommuteIff(r.held, r.pending);
    if NEWLINE in r.pending && r.held != [] {
      NewlineDoesNotCommute(r.held, r.pending);
    }
  }

  lemma {:induction false} PutBackCommutes(r: Reading, stream: Bytes)
    requires InOrder(r, stream)
    ensures InOrder(Do(r, PutBack), stream) <==> r.held + r.pending == r.pending + r.held
  {
    var done := Joined(r.read);
    assert done + [] == done;
    Regrouped(done, r.held, r.pending);
    Regrouped(done, r.pending, r.held);
    var kept, swapped := done + (r.held + r.pending), done + (r.pending + r.held);
    assert kept[|done|..] == r.held + r.pending && swapped[|done|..] == r.pending + r.held;
  }

  lemma {:induction false} NewlineDoesNotCommute(held: Bytes, pending: Bytes)
    requires NEWLINE !in held && NEWLINE in pending && held != []
    ensures held + pending != pending + held
  {
    var n := Text.Index(pending, NEWLINE);
    assert (pending + held)[n] == NEWLINE;
    assert (held + pending)[n] == if n < |held| then held[n] else pending[n - |held|];
  }

  /** A run keeps the stream in order throughout if and only if no call puts back
      a partial line that does not repeat the text of what had arrived since. */
  lemma {:induction false} RunInOrderIff(calls: seq<Call>, n: nat)
    requires n <= |calls|
    ensures (forall k :: 0 <= k <= n ==> InOrderAt(calls, k))
       <==> (forall k :: 0 <= k < n ==> MayFollow(calls, k))
  {
    if n == 0 {
      StartInOrder(calls);
    } else {
      RunInOrderIff(calls, n - 1);
      if InOrderAt(calls, n - 1) {
        CallInOrderIff(calls, n - 1);
      }
    }
  }

  ghost predicate InOrderAt(calls: seq<Call>, k: nat)
    requires k <= |calls|
  {
    InOrder(After(calls, k), Arrived(calls[..k]))
  }

  /** Call `k` does not put back a partial line out of turn. */
  ghost predicate MayFollow(calls: seq<Call>, k: nat)
    requires k < |calls|
  {
    calls[k].PutBack? ==> RepeatOne(After(calls, k).held, After(calls, k).pending)
  }

  /** The reading after the first `k` calls. */
  function After(calls: seq<Call>, k: nat): Reading
    requires k <= |calls|
  {
    DoAll(calls[..k])
  }

  lemma {:induction false} StartInOrder(calls: seq<Call>)
    ensures InOrderAt(calls, 0)
  {
    assert calls[..0] == [];
    assert Joined([]) + [] + [] == [];
  }

  lemma {:induction false} CallInOrderIff(calls: seq<Call>, k: nat)
    requires k < |calls| && InOrderAt(calls, k)
    ensures InOrderAt(calls, k + 1) <==> MayFollow(calls, k)
  {
    var r, stream := After(calls, k), Arrived(calls[..k]);
    assert calls[..k + 1][..k] == calls[..k];
    match calls[k]
    case Arrive(chunk) => Regrouped(Joined(r.read) + r.held, r.pending, chunk);
    case ReadLine => ReadKeepsOrder(r, stream);
    case PutBack => PutBackKeepsOrderIff(r, stream);
  }

  /** In every run that stays in order the lines read are the first lines of the stream. */
  lemma {:induction false} InOrderReads(calls: seq<Call>)
    requires forall k :: 0 <= k < |calls| ==> MayFollow(calls, k)
    ensures DoAll(calls).read <= Lines(Arrived(calls))
  {
    RunInOrderIff(calls, |calls|);
    assert InOrderAt(calls, |calls|);
    assert calls[..|calls|] == calls;
    ReadIsPrefix(After(calls, |calls|), Arrived(calls));
  }

  /** So do the runs in which no call puts a line back after something arrived. */
  lemma {:induction false} UndisturbedInOrder(calls: seq<Call>)
    requires forall k :: 0 <= k < |calls| && calls[k].PutBack? ==>
               After(calls, k).held == [] || After(calls, k).pending == []
    ensures forall k :: 0 <= k <= |calls| ==> InOrderAt(calls, k)
    ensures DoAll(calls).read <= Lines(Arrived(calls))
  {
    forall k | 0 <= k < |calls| ensures MayFollow(calls, k) {
      if calls[k].PutBack? {
        EmptyRepeats(After(calls, k).held, After(calls, k).pending);
      }
    }
    RunInOrderIff(calls, |calls|);
    InOrderReads(calls);
  }

  lemma {:induction false} EmptyRepeats(u: Bytes, v: Bytes)
    requires u == [] || v == []
    ensures RepeatOne(u, v)
  {
    assert u + v == v + u;
    CommuteIff(u, v);
  }

  lemma {:induction false} ReadIsPrefix(r: Reading, stream: Bytes)
    requires InOrder(r, stream)
    ensures r.read <= Lines(stream)
  {
    var more := r.held + r.pending;
    Regrouped(Joined(r.read), r.held, r.pending);
    LinesAppended(Joined(r.read), more);
    SplitUnique(r.read, []);
    assert Joined(r.read) + [] == Joined(r.read);
  }

  /** A write between the two calls turns "ab" into "b" with "a" left over. */
  lemma {:induction false} WriteDuringDrainReorders()
    ensures var r := DoAll([Arrive("a"), ReadLine, Arrive("b\n"), PutBack, ReadLine]);
            r == Reading(["b\n"], [], "a")
  {
    var first := [Arrive("a")];
    var second := first + [ReadLine];
    var third := second + [Arrive("b\n")];
    var fourth := third + [PutBack];
    assert first[..0] == [];
    assert DoAll(first).pending == "a";
    Then(first, ReadLine);
    Then(second, Arrive("b\n"));
    Then(third, PutBack);
    Then(fourth, ReadLine);
    assert [Arrive("a"), ReadLine, Arrive("b\n"), PutBack, ReadLine] == fourth + [ReadLine];
    assert DoAll(fourth) == Reading([], [], "b\na");
    assert Text.Index("b\na", NEWLINE) == 1;
    assert "b\na"[..2] == "b\n" && "b\na"[2..] == "a";
  }

  lemma {:induction false} Then(calls: seq<Call>, c: Call)
    ensures DoAll(calls + [c]) == Do(DoAll(calls), c)
  {
    assert (calls + [c])[..|calls|] == calls;
  }
}
