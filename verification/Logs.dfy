/** Log lines put together again from the chunks in which a container's output
    streams arrive, and kept in a bounded buffer. */
module Logs {
  import opened Basics
  import opened Text

  /** A byte, written as the character with its value. */
  type Byte = char
  type Bytes = seq<Byte>

  const NEWLINE: Byte := '\n'

  // ---- Lines ------------------------------------------------------------------------------

  /** The complete lines of `data`, each with its newline. */
  function Lines(data: Bytes): seq<Bytes> {
    var n := Index(data, NEWLINE);
    if n == |data| then [] else [data[..n + 1]] + Lines(data[n + 1..])
  }

  /** What follows the last newline. */
  function Rest(data: Bytes): (r: Bytes)
    ensures NEWLINE !in r
  {
    var n := Index(data, NEWLINE);
    if n == |data| then data else Rest(data[n + 1..])
  }

  predicate Complete(line: Bytes) {
    line != [] && line[|line| - 1] == NEWLINE && NEWLINE !in line[..|line| - 1]
  }

  function Joined(lines: seq<Bytes>): Bytes {
    if lines == [] then [] else lines[0] + Joined(lines[1..])
  }

  lemma {:induction false} LinesJoined(data: Bytes)
    ensures Joined(Lines(data)) + Rest(data) == data
  {
    var n := Index(data, NEWLINE);
    if n < |data| {
      var line, more := data[..n + 1], data[n + 1..];
      LinesJoined(more);
      var lines, rest := Lines(more), Rest(more);
      JoinedPut(line, lines);
      Regrouped(line, Joined(lines), rest);
      Halves(data, n + 1);
    }
  }

  lemma {:induction false} JoinedPut(line: Bytes, lines: seq<Bytes>)
    ensures Joined([line] + lines) == line + Joined(lines)
  {
    assert ([line] + lines)[1..] == lines;
  }

  lemma {:induction false} LinesComplete(data: Bytes)
    ensures forall line :: line in Lines(data) ==> Complete(line)
  {
    var n := Index(data, NEWLINE);
    if n < |data| {
      var first, more := data[..n + 1], data[n + 1..];
      LinesComplete(more);
      assert first[..n] == data[..n];
      assert forall i :: 0 <= i < n ==> data[..n][i] != NEWLINE;
    }
  }

  lemma {:induction false} FirstLine(line: Bytes, more: Bytes)
    requires Complete(line)
    ensures Index(line + more, NEWLINE) == |line| - 1
    ensures Lines(line + more) == [line] + Lines(more) && Rest(line + more) == Rest(more)
  {
    var n := Index(line + more, NEWLINE);
    assert (line + more)[|line| - 1] == NEWLINE;
    assert forall i :: 0 <= i < |line| - 1 ==> (line + more)[i] == line[..|line| - 1][i] != NEWLINE;
    assert (line + more)[..n + 1] == line && (line + more)[n + 1..] == more;
  }

  /** There is one way to cut bytes into complete lines and a rest without newline. */
  lemma {:induction false} SplitUnique(lines: seq<Bytes>, rest: Bytes)
    requires forall i :: 0 <= i < |lines| ==> Complete(lines[i])
    requires NEWLINE !in rest
    ensures Lines(Joined(lines) + rest) == lines && Rest(Joined(lines) + rest) == rest
  {
    if lines == [] {
      assert Joined(lines) + rest == rest;
      assert Index(rest, NEWLINE) == |rest|;
    } else {
      SplitUnique(lines[1..], rest);
      FirstLine(lines[0], Joined(lines[1..]) + rest);
      assert Joined(lines) + rest == lines[0] + (Joined(lines[1..]) + rest);
    }
  }

  /** Cutting a stream in two anywhere changes neither its lines nor its rest. */
  lemma {:induction false} LinesAppended(a: Bytes, b: Bytes)
    ensures Lines(a + b) == Lines(a) + Lines(Rest(a) + b)
    ensures Rest(a + b) == Rest(Rest(a) + b)
  {
    var n := Index(a, NEWLINE);
    if n < |a| {
      var line, more := a[..n + 1], a[n + 1..];
      LinesAppended(more, b);
      FirstLine(line, more + b);
      Cut(a, n + 1, b);
      assert Rest(a) == Rest(more);
      Regrouped([line], Lines(more), Lines(Rest(more) + b));
    } else {
      assert Lines(a) == [];
    }
  }

  lemma {:induction false} Regrouped<T>(a: seq<T>, b: seq<T>, c: seq<T>)
    ensures a + (b + c) == (a + b) + c
  {}

  lemma {:induction false} Cut<T>(a: seq<T>, n: nat, b: seq<T>)
    requires n <= |a|
    ensures a + b == a[..n] + (a[n..] + b)
  {}

  lemma {:induction false} Halves<T>(s: seq<T>, n: nat)
    requires n <= |s|
    ensures s == s[..n] + s[n..]
  {}

  // ---- White space ------------------------------------------------------------------------

  /** The UTF-8 forms of the white space characters of Unicode. */
  predicate IsSpace(w: Bytes) {
    || (|w| == 1 && ('\t' <= w[0] <= '\r' || w[0] == ' '))
    || (|w| == 2 && w[0] == '\U{C2}' && (w[1] == '\U{85}' || w[1] == '\U{A0}'))
    || (|w| == 3 && w[0] == '\U{E1}' && w[1] == '\U{9A}' && w[2] == '\U{80}')
    || (|w| == 3 && w[0] == '\U{E2}' && w[1] == '\U{80}'
        && ('\U{80}' <= w[2] <= '\U{8A}' || w[2] == '\U{A8}' || w[2] == '\U{A9}' || w[2] == '\U{AF}'))
    || (|w| == 3 && w[0] == '\U{E2}' && w[1] == '\U{81}' && w[2] == '\U{9F}')
    || (|w| == 3 && w[0] == '\U{E3}' && w[1] == '\U{80}' && w[2] == '\U{80}')
  }

  /** Length of the white space character that `s` starts with, or 0. */
  function LeadingSpace(s: Bytes): (n: nat)
    ensures n <= |s|
  {
    if |s| >= 1 && IsSpace(s[..1]) then 1
    else if |s| >= 2 && IsSpace(s[..2]) then 2
    else if |s| >= 3 && IsSpace(s[..3]) then 3
    else 0
  }

  function TrailingSpace(s: Bytes): (n: nat)
    ensures n <= |s|
  {
    if |s| >= 1 && IsSpace(s[|s| - 1..]) then 1
    else if |s| >= 2 && IsSpace(s[|s| - 2..]) then 2
    else if |s| >= 3 && IsSpace(s[|s| - 3..]) then 3
    else 0
  }

  function TrimLeft(s: Bytes): Bytes {
    if LeadingSpace(s) == 0 then s else TrimLeft(s[LeadingSpace(s)..])
  }

  function TrimRight(s: Bytes): Bytes {
    if TrailingSpace(s) == 0 then s else TrimRight(s[..|s| - TrailingSpace(s)])
  }

  /** `strings.TrimSpace` */
  function Trim(s: Bytes): Bytes { TrimRight(TrimLeft(s)) }

  ghost predicate Spaces(ws: seq<Bytes>) { forall i :: 0 <= i < |ws| ==> IsSpace(ws[i]) }

  lemma {:induction false} SpaceLeads(w: Bytes, t: Bytes)
    requires IsSpace(w)
    ensures LeadingSpace(w + t) == |w|
  {
    assert (w + t)[..|w|] == w;
  }

  lemma {:induction false} SpaceTrails(t: Bytes, w: Bytes)
    requires IsSpace(w)
    ensures TrailingSpace(t + w) == |w|
  {
    var s := t + w;
    assert s[|s| - |w|..] == w;
    assert s[|s| - 1] == w[|w| - 1];
    assert |w| >= 2 ==> s[|s| - 2] == w[|w| - 2];
  }

  lemma {:induction false} SpacesTrimmedLeft(ws: seq<Bytes>, t: Bytes)
    requires Spaces(ws)
    ensures TrimLeft(Joined(ws) + t) == TrimLeft(t)
  {
    if ws == [] {
      assert Joined(ws) + t == t;
    } else {
      var more := Joined(ws[1..]) + t;
      assert Joined(ws) + t == ws[0] + more;
      SpaceLeads(ws[0], more);
      assert (ws[0] + more)[|ws[0]|..] == more;
      SpacesTrimmedLeft(ws[1..], t);
    }
  }

  lemma {:induction false} SpacesTrimmedRight(t: Bytes, ws: seq<Bytes>)
    requires Spaces(ws)
    ensures TrimRight(t + Joined(ws)) == TrimRight(t)
  {
    if ws == [] {
      assert t + Joined(ws) == t;
    } else {
      var n := |ws| - 1;
      JoinedLast(ws);
      var less := t + Joined(ws[..n]);
      assert t + Joined(ws) == less + ws[n];
      SpaceTrails(less, ws[n]);
      assert (less + ws[n])[..|less|] == less;
      SpacesTrimmedRight(t, ws[..n]);
    }
  }

  lemma {:induction false} JoinedLast(ws: seq<Bytes>)
    requires ws != []
    ensures Joined(ws) == Joined(ws[..|ws| - 1]) + ws[|ws| - 1]
  {
    if |ws| > 1 {
      JoinedLast(ws[1..]);
      assert ws[1..][..|ws| - 2] == ws[..|ws| - 1][1..];
    } else {
      assert Joined(ws[1..]) == [] == Joined(ws[..0]);
    }
  }

  /** No white space character straddles the end of a text and spaces after it. */
  lemma {:induction false} StartUnchanged(m: Bytes, ws: seq<Bytes>)
    requires m != [] && LeadingSpace(m) == 0 && Spaces(ws)
    ensures LeadingSpace(m + Joined(ws)) == 0
  {
    var t := Joined(ws);
    assert t != [] ==> ws != [] && t[0] == ws[0][0];
    assert t != [] ==> t[0] < '\U{80}' || t[0] > '\U{C0}';
    var s := m + t;
    assert s[..1] == m[..1];
    assert |m| >= 2 ==> s[..2] == m[..2];
    assert |m| >= 3 ==> s[..3] == m[..3];
    assert |m| == 1 && |s| >= 2 ==> s[1] == t[0];
    assert |m| == 2 && |s| >= 3 ==> s[2] == t[0];
  }

  /** Trimming finds the one text between spaces that neither starts nor ends in one. */
  lemma {:induction false} TrimUnique(before: seq<Bytes>, m: Bytes, after: seq<Bytes>)
    requires Spaces(before) && Spaces(after) && LeadingSpace(m) == 0 == TrailingSpace(m)
    ensures Trim(Joined(before) + m + Joined(after)) == m
  {
    var r := Joined(after);
    Regrouped(Joined(before), m, r);
    SpacesTrimmedLeft(before, m + r);
    if m == [] {
      assert m + r == r + [];
      SpacesTrimmedLeft(after, []);
    } else {
      StartUnchanged(m, after);
      SpacesTrimmedRight(m, after);
    }
  }

  lemma {:induction false} LeadingMeaning(s: Bytes)
    ensures LeadingSpace(s) > 0 ==> IsSpace(s[..LeadingSpace(s)])
    ensures LeadingSpace(s) == 0 ==> forall n :: 0 <= n <= |s| ==> !IsSpace(s[..n])
  {
    assert forall n :: 0 <= n <= |s| && IsSpace(s[..n]) ==> 1 <= n <= 3;
  }

  lemma {:induction false} TrailingMeaning(s: Bytes)
    ensures TrailingSpace(s) > 0 ==> IsSpace(s[|s| - TrailingSpace(s)..])
  {}

  lemma {:induction false} SpacePut(w: Bytes, ws: seq<Bytes>)
    requires IsSpace(w) && Spaces(ws)
    ensures Spaces([w] + ws) && Joined([w] + ws) == w + Joined(ws)
    ensures Spaces(ws + [w]) && Joined(ws + [w]) == Joined(ws) + w
  {
    assert ([w] + ws)[1..] == ws;
    JoinedLast(ws + [w]);
    assert (ws + [w])[..|ws|] == ws;
  }

  lemma {:induction false} SpacePutLeft(s: Bytes, n: nat, t: Bytes, rest: seq<Bytes>)
    requires n <= |s| && IsSpace(s[..n]) && Spaces(rest) && s[n..] == Joined(rest) + t
    ensures Spaces([s[..n]] + rest) && s == Joined([s[..n]] + rest) + t
  {
    SpacePut(s[..n], rest);
    Regrouped(s[..n], Joined(rest), t);
    Halves(s, n);
  }

  lemma {:induction false} SpacePutRight(s: Bytes, n: nat, t: Bytes, rest: seq<Bytes>)
    requires n <= |s| && IsSpace(s[n..]) && Spaces(rest) && s[..n] == t + Joined(rest)
    ensures Spaces(rest + [s[n..]]) && s == t + Joined(rest + [s[n..]])
  {
    SpacePut(s[n..], rest);
    Regrouped(t, Joined(rest), s[n..]);
    Halves(s, n);
  }

  lemma {:induction false} LeftSplits(s: Bytes) returns (before: seq<Bytes>)
    ensures LeadingSpace(TrimLeft(s)) == 0
    ensures Spaces(before) && s == Joined(before) + TrimLeft(s)
    decreases |s|
  {
    var n := LeadingSpace(s);
    if n == 0 {
      before := [];
    } else {
      LeadingMeaning(s);
      var tail := s[n..];
      var rest := LeftSplits(tail);
      var t := TrimLeft(tail);
      assert TrimLeft(s) == t;
      SpacePutLeft(s, n, t, rest);
      before := [s[..n]] + rest;
    }
  }

  lemma {:induction false} RightTrimmed(s: Bytes)
    ensures TrailingSpace(TrimRight(s)) == 0
    decreases |s|
  {
    if TrailingSpace(s) > 0 {
      RightTrimmed(s[..|s| - TrailingSpace(s)]);
    }
  }

  lemma {:induction false} RightSplits(s: Bytes) returns (after: seq<Bytes>)
    ensures Spaces(after) && s == TrimRight(s) + Joined(after)
    decreases |s|
  {
    var k := TrailingSpace(s);
    if k == 0 {
      after := [];
      NothingSplit(s);
    } else {
      var head := s[..|s| - k];
      var t := TrimRight(head);
      var rest := RightSplits(head);
      assert TrimRight(s) == t;
      after := SpaceOnRight(s, k, head, t, rest);
    }
  }

  lemma {:induction false} NothingSplit(s: Bytes)
    ensures Spaces([]) && s == s + Joined([]) && s == Joined([]) + s
  {}

  lemma {:induction false} SpaceOnRight(s: Bytes, k: nat, head: Bytes, t: Bytes, rest: seq<Bytes>)
    returns (after: seq<Bytes>)
    requires 0 < k == TrailingSpace(s) && head == s[..|s| - k]
    requires Spaces(rest) && head == t + Joined(rest)
    ensures Spaces(after) && s == t + Joined(after)
  {
    TrailingMeaning(s);
    SpacePutRight(s, |s| - k, t, rest);
    after := rest + [s[|s| - k..]];
  }

  /** A prefix of a text that starts with no space starts with none. */
  lemma {:induction false} PrefixStarts(m: Bytes, t: Bytes)
    requires LeadingSpace(m) == 0 && t <= m
    ensures LeadingSpace(t) == 0
  {
    LeadingMeaning(m);
    LeadingMeaning(t);
    assert forall n :: 0 <= n <= |t| ==> t[..n] == m[..n];
  }

  /** ... and there always is one. */
  lemma {:induction false} TrimSplits(s: Bytes)
    ensures LeadingSpace(Trim(s)) == 0 == TrailingSpace(Trim(s))
    ensures exists before, after :: Spaces(before) && Spaces(after) && s == Joined(before) + Trim(s) + Joined(after)
  {
    var m := TrimLeft(s);
    var before := LeftSplits(s);
    var after := RightSplits(m);
    RightTrimmed(m);
    PrefixStarts(m, TrimRight(m));
    Regrouped(Joined(before), TrimRight(m), Joined(after));
  }

  // ---- The buffer -------------------------------------------------------------------------

  /** What a drain adds for these lines: each one trimmed, unless it is blank. */
  function Shown(lines: seq<Bytes>): seq<Bytes> {
    if lines == [] then [] else ShownOne(lines[0]) + Shown(lines[1..])
  }

  function ShownOne(line: Bytes): seq<Bytes> {
    if Trim(line) != [] then [Trim(line)] else []
  }

  lemma {:induction false} ShownAppended(a: seq<Bytes>, b: seq<Bytes>)
    ensures Shown(a + b) == Shown(a) + Shown(b)
  {
    if a == [] {
      assert a + b == b;
    } else {
      assert (a + b)[1..] == a[1..] + b;
      ShownAppended(a[1..], b);
    }
  }

  lemma {:induction false} SuffixAppended<T>(s: seq<T>, t: seq<T>, n: nat)
    ensures Suffix(Suffix(s, n) + t, n) == Suffix(s + t, n)
  {
    var a, b := Suffix(Suffix(s, n) + t, n), Suffix(s + t, n);
    assert |a| == |b|;
    forall i | 0 <= i < |a| ensures a[i] == b[i] {
      var d := |s| - |Suffix(s, n)|;
      assert (s + t)[d..] == Suffix(s, n) + t;
    }
  }

  /** The part of `bytes.Buffer` that draining uses. */
  class ByteBuffer {
    var data: Bytes

    constructor ()
      ensures data == []
    { data := []; }

    method Write(chunk: Bytes)
      modifies this
      ensures data == old(data) + chunk
    { data := data + chunk; }

    /** Takes everything up to and including the delimiter, or all there is. */
    method ReadBytes(delimiter: Byte) returns (line: Bytes, eof: bool)
      modifies this
      ensures eof <==> delimiter !in old(data)
      ensures line == (if eof then old(data) else old(data)[..Index(old(data), delimiter) + 1])
      ensures data == (if eof then [] else old(data)[Index(old(data), delimiter) + 1..])
    {
      var n := Index(data, delimiter);
      if n == |data| {
        line, eof := data, true;
        data := [];
      } else {
        assert data[n] == delimiter;
        line, eof := data[..n + 1], false;
        data := data[n + 1..];
      }
    }
  }

  class LogBuffer {
    var lines: seq<Bytes>
    const max: nat

    predicate Valid()
      reads this
    { |lines| <= max }

    constructor (max: nat)
      ensures Valid() && lines == [] && this.max == max
    { lines, this.max := [], max; }

    method Add(line: Bytes)
      requires Valid()
      modifies this
      ensures Valid() && lines == Suffix(old(lines) + [line], max)
    {
      lines := lines + [line];
      if |lines| > max {
        lines := lines[1..];
      }
    }

    method GetLines() returns (result: seq<Bytes>)
      ensures result == lines
    { result := lines; }
  }

  /** What reading one line does to the lines still to be shown. */
  lemma {:induction false} LineShown(data: Bytes)
    requires NEWLINE in data
    ensures var n := Index(data, NEWLINE);
            && n < |data| && Rest(data) == Rest(data[n + 1..])
            && Shown(Lines(data)) == ShownOne(data[..n + 1]) + Shown(Lines(data[n + 1..]))
  {
    LineFirst(data);
    var n := Index(data, NEWLINE);
    ShownFirst(data[..n + 1], Lines(data[n + 1..]));
  }

  lemma {:induction false} LineFirst(data: Bytes)
    requires NEWLINE in data
    ensures var n := Index(data, NEWLINE);
            && n < |data| && Rest(data) == Rest(data[n + 1..])
            && Lines(data) == [data[..n + 1]] + Lines(data[n + 1..])
  {}

  lemma {:induction false} ShownFirst(line: Bytes, more: seq<Bytes>)
    ensures Shown([line] + more) == ShownOne(line) + Shown(more)
  {
    assert ([line] + more)[1..] == more;
  }

  method DrainBuffer(buffer: LogBuffer, src: ByteBuffer)
    requires buffer.Valid()
    modifies buffer, src
    ensures buffer.Valid()
    ensures src.data == Rest(old(src.data))
    ensures buffer.lines == Suffix(old(buffer.lines) + Shown(Lines(old(src.data))), buffer.max)
  {
    ghost var held, total, rest := buffer.lines, Shown(Lines(src.data)), Rest(src.data);
    ghost var shown: seq<Bytes> := [];
    while true
      invariant buffer.Valid() && Rest(src.data) == rest
      invariant shown + Shown(Lines(src.data)) == total
      invariant buffer.lines == Suffix(held + shown, buffer.max)
      decreases |src.data|
    {
      ghost var data := src.data;
      var line, eof := src.ReadBytes(NEWLINE);
      if eof {
        NothingLeft(data);
        assert shown + [] == shown;
        if line != [] {
          src.Write(line);
        }
        break;
      }
      LineShown(data);
      LineAdded(held, shown, ShownOne(line), Shown(Lines(src.data)), buffer.max);
      shown := shown + ShownOne(line);
      line := Trim(line);
      if line != [] {
        buffer.Add(line);
      }
    }
  }

  lemma {:induction false} LineAdded(held: seq<Bytes>, shown: seq<Bytes>, one: seq<Bytes>, rest: seq<Bytes>, max: nat)
    ensures shown + (one + rest) == (shown + one) + rest
    ensures Suffix(Suffix(held + shown, max) + one, max) == Suffix(held + (shown + one), max)
  {
    SuffixAppended(held + shown, one, max);
    Regrouped(held, shown, one);
  }

  lemma {:induction false} NothingLeft(data: Bytes)
    requires NEWLINE !in data
    ensures Shown(Lines(data)) == [] && Rest(data) == data
  {}
}
