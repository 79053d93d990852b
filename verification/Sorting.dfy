/** Sorting by a string key. With distinct keys there is one sorted order, so the
    result does not depend on the order of the input or on the algorithm. */
module Sorting {
  import opened Basics

  /** Go's `<` on strings. */
  predicate Before(a: string, b: string) {
    b != "" && (a == "" || a[0] < b[0] || (a[0] == b[0] && Before(a[1..], b[1..])))
  }

  lemma {:induction false} BeforeTotal(a: string, b: string)
    ensures Before(a, b) || a == b || Before(b, a)
    ensures !(Before(a, b) && Before(b, a)) && !(a == b && Before(a, b))
  {
    if a != "" && b != "" {
      BeforeTotal(a[1..], b[1..]);
      assert a == [a[0]] + a[1..] && b == [b[0]] + b[1..];
    }
  }

  lemma {:induction false} BeforeTransitive(a: string, b: string, c: string)
    requires Before(a, b) && Before(b, c)
    ensures Before(a, c)
  {
    if a != "" && a[0] == b[0] == c[0] {
      BeforeTransitive(a[1..], b[1..], c[1..]);
    }
  }

  ghost predicate Distinct<T>(s: seq<T>, key: T -> string) {
    forall i, j :: 0 <= i < j < |s| ==> key(s[i]) != key(s[j])
  }

  ghost predicate Ascending<T>(s: seq<T>, key: T -> string) {
    forall i, j :: 0 <= i < j < |s| ==> Before(key(s[i]), key(s[j]))
  }

  function Inserted<T>(x: T, s: seq<T>, key: T -> string): seq<T> {
    if s == [] || Before(key(x), key(s[0])) then [x] + s else [s[0]] + Inserted(x, s[1..], key)
  }

  /** `sort.Slice` by `key`. */
  function Sorted<T>(s: seq<T>, key: T -> string): seq<T> {
    if s == [] then [] else Inserted(s[|s| - 1], Sorted(s[..|s| - 1], key), key)
  }

  lemma {:induction false} InsertedKeeps<T>(x: T, s: seq<T>, key: T -> string)
    ensures multiset(Inserted(x, s, key)) == multiset(s) + multiset{x}
  {
    if s != [] && !Before(key(x), key(s[0])) {
      InsertedKeeps(x, s[1..], key);
      assert s == [s[0]] + s[1..];
    }
  }

  lemma {:induction false} InsertedAscending<T>(x: T, s: seq<T>, key: T -> string)
    requires Ascending(s, key) && forall i :: 0 <= i < |s| ==> key(s[i]) != key(x)
    ensures Ascending(Inserted(x, s, key), key)
  {
    if s != [] {
      var r := Inserted(x, s, key);
      BeforeTotal(key(x), key(s[0]));
      if Before(key(x), key(s[0])) {
        forall j | 1 <= j < |r| ensures Before(key(x), key(r[j])) {
          if j > 1 { BeforeTransitive(key(x), key(s[0]), key(s[j - 1])); }
        }
      } else {
        var rest := Inserted(x, s[1..], key);
        InsertedAscending(x, s[1..], key);
        InsertedKeeps(x, s[1..], key);
        forall j | 0 <= j < |rest| ensures Before(key(s[0]), key(rest[j])) {
          assert rest[j] in multiset(rest);
          assert rest[j] in s[1..] || rest[j] == x;
        }
      }
    }
  }

  /** Sorting permutes, and puts distinct keys in ascending order. */
  lemma {:induction false} SortedMeans<T>(s: seq<T>, key: T -> string)
    ensures multiset(Sorted(s, key)) == multiset(s)
    ensures Distinct(s, key) ==> Ascending(Sorted(s, key), key)
  {
    if s != [] {
      var init, last := s[..|s| - 1], s[|s| - 1];
      SortedMeans(init, key);
      InsertedKeeps(last, Sorted(init, key), key);
      assert s == init + [last];
      if Distinct(s, key) {
        forall i | 0 <= i < |Sorted(init, key)| ensures key(Sorted(init, key)[i]) != key(last) {
          assert Sorted(init, key)[i] in multiset(init);
        }
        InsertedAscending(last, Sorted(init, key), key);
      }
    }
  }

  lemma {:induction false} SortedSame<T(!new)>(s: seq<T>, key: T -> string)
    ensures forall x :: x in Sorted(s, key) <==> x in s
    ensures Distinct(s, key) ==> Ascending(Sorted(s, key), key)
  {
    SortedMeans(s, key);
    forall x ensures x in Sorted(s, key) <==> x in s {
      assert x in multiset(Sorted(s, key)) <==> x in multiset(s);
    }
  }

  lemma {:induction false} SameHead<T>(s: seq<T>, t: seq<T>, key: T -> string)
    requires Ascending(s, key) && Ascending(t, key) && s != [] && t != []
    requires s[0] in t && t[0] in s
    ensures s[0] == t[0]
  {
    var i :| 0 <= i < |s| && s[i] == t[0];
    var j :| 0 <= j < |t| && t[j] == s[0];
    BeforeTotal(key(s[0]), key(t[0]));
  }

  lemma {:induction false} InTail<T(!new)>(s: seq<T>, key: T -> string)
    requires Ascending(s, key) && s != []
    ensures forall x :: x in s[1..] <==> x in s && x != s[0]
  {
    forall x | x in s[1..] ensures x != s[0] {
      var i :| 0 < i < |s| && s[i] == x;
      BeforeTotal(key(s[0]), key(s[i]));
    }
  }

  /** Two ascending sequences with the same elements are the same. */
  lemma {:induction false} AscendingUnique<T(!new)>(s: seq<T>, t: seq<T>, key: T -> string)
    requires Ascending(s, key) && Ascending(t, key) && forall x :: x in s <==> x in t
    ensures s == t
  {
    HasMember(s);
    HasMember(t);
    if s != [] {
      assert s[0] in t && t[0] in s;
      SameHead(s, t, key);
      InTail(s, key);
      InTail(t, key);
      AscendingUnique(s[1..], t[1..], key);
      assert s == [s[0]] + s[1..] && t == [t[0]] + t[1..];
    }
  }
}
