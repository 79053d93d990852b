/** The string operations of Go's strings package that the model needs. */
module Text {

  predicate HasSuffix(s: string, t: string) {
    |s| >= |t| && s[|s| - |t|..] == t
  }

  function TrimSuffix(s: string, t: string): string {
    if HasSuffix(s, t) then s[..|s| - |t|] else s
  }

  lemma {:induction false} SuffixAppended(s: string, t: string)
    ensures HasSuffix(s + t, t) && TrimSuffix(s + t, t) == s
  {
    assert (s + t)[|s|..] == t && (s + t)[..|s|] == s;
  }

  lemma {:induction false} SuffixRestored(s: string, t: string)
    requires HasSuffix(s, t)
    ensures TrimSuffix(s, t) + t == s
  {}

  /** Two suffixes of one string end in the same character. */
  lemma {:induction false} SuffixesAgree(s: string, t: string, u: string)
    requires HasSuffix(s, t) && HasSuffix(s, u) && t != "" && u != ""
    ensures t[|t| - 1] == u[|u| - 1]
  {
    assert s[|s| - |t|..][|t| - 1] == s[|s| - 1] == s[|s| - |u|..][|u| - 1];
  }

  /** Position of the first `c` in `s`, or the length of `s`. */
  function Index<T(==)>(s: seq<T>, c: T): (i: nat)
    ensures i <= |s| && forall j :: 0 <= j < i ==> s[j] != c
    ensures i < |s| ==> s[i] == c
  {
    if s == [] || s[0] == c then 0 else 1 + Index(s[1..], c)
  }

  /** The first part of `strings.Split(s, c)`. */
  function BeforeFirst(s: string, c: char): (r: string)
    ensures c !in r && (c !in s ==> r == s)
  {
    s[..Index(s, c)]
  }

  /** Position after the last `c` in `s`, or 0. */
  function LastStart(s: string, c: char): (p: nat)
    ensures p <= |s|
  {
    if s == "" then 0 else if s[|s| - 1] == c then |s| else LastStart(s[..|s| - 1], c)
  }

  /** The last part of `strings.Split(s, c)`. */
  function AfterLast(s: string, c: char): string { s[LastStart(s, c)..] }

  /** No `c` stands after that position, and one just before it unless it is the
      start; nor is there another such position. */
  lemma {:induction false} LastStartIff(s: string, c: char, p: nat)
    requires p <= |s|
    ensures LastStart(s, c) == p <==>
              (forall i :: p <= i < |s| ==> s[i] != c) && (p > 0 ==> s[p - 1] == c)
  {
    if s != "" && s[|s| - 1] != c {
      var init := s[..|s| - 1];
      if p < |s| {
        LastStartIff(init, c, p);
        assert forall i :: p <= i < |init| ==> s[i] == init[i];
      }
    }
  }

  /** The last part, and what stands before it. */
  lemma {:induction false} LastPart(s: string, c: char) returns (before: string)
    ensures s == before + AfterLast(s, c) && c !in AfterLast(s, c)
    ensures before == "" || before[|before| - 1] == c
  {
    var p := LastStart(s, c);
    LastStartIff(s, c, p);
    before := s[..p];
  }

  lemma {:induction false} IndexAppended(s: string, c: char, t: string)
    requires c !in s
    ensures Index(s + [c] + t, c) == |s|
  {
    if s != "" {
      assert s[0] in s && (s + [c] + t)[1..] == s[1..] + [c] + t;
      IndexAppended(s[1..], c, t);
    }
  }

  lemma {:induction false} BeforeFirstAppended(s: string, c: char, t: string)
    requires c !in s
    ensures BeforeFirst(s + [c] + t, c) == s
  {
    IndexAppended(s, c, t);
    assert (s + [c] + t)[..|s|] == s;
  }

  lemma {:induction false} AfterLastAppended(s: string, c: char, t: string)
    requires c !in t
    ensures AfterLast(s + [c] + t, c) == t
  {
    var all := s + [c] + t;
    forall i | |s| < i < |all| ensures all[i] != c {
      assert all[i] == t[i - |s| - 1];
    }
    LastStartIff(all, c, |s| + 1);
  }

  lemma {:induction false} AfterLastWhole(s: string, c: char)
    requires c !in s
    ensures AfterLast(s, c) == s
  {
    LastStartIff(s, c, 0);
  }
}
