/** Vocabulary shared by every part of the model: options, endpoints and
    the few sequence operations that Go slices and maps are compared with. */
module Basics {

  datatype Option<+T> = None | Some(value: T) {
    function GetOr(default: T): T {
      if Some? then value else default
    }
  }

  /** A Go `uint16` port number. */
  type Port = p: int | 0 <= p < 0x1_0000 witness 0

  /** A `netip.AddrPort`; the zero value has no address and is not valid. */
  datatype Endpoint = Endpoint(addr: string, port: Port) {
    predicate Valid() { addr != "" }
  }

  predicate NoDuplicates<T(==)>(s: seq<T>) {
    forall i, j :: 0 <= i < j < |s| ==> s[i] != s[j]
  }

  /** One possible iteration order of a Go map with key set `keys`. */
  ghost predicate Enumerates<T(!new)>(order: seq<T>, keys: set<T>) {
    && (forall i, j :: 0 <= i < j < |order| ==> order[i] != order[j])
    && (forall k :: k in order <==> k in keys)
  }

  lemma {:induction false} EnumerationLength<T(!new)>(order: seq<T>, keys: set<T>)
    requires Enumerates(order, keys)
    ensures |order| == |keys|
  {
    if order == [] {
      assert keys == {};
    } else {
      var last := order[|order| - 1];
      var rest := order[..|order| - 1];
      forall k ensures k in rest <==> k in keys - {last} {
        if k in keys - {last} {
          assert k in order;
        }
      }
      EnumerationLength(rest, keys - {last});
    }
  }

  lemma {:induction false} HasMember<T(!new)>(s: seq<T>)
    ensures s == [] || exists x :: x in s
  {
    if s != [] { assert s[0] in s; }
  }

  lemma {:induction false} SomeInt(s: set<int>)
    ensures s == {} || exists x :: x in s
  {
    if forall x :: x !in s { assert s == {}; }
  }

  /** The last `n` elements of `s`, or all of it when it is shorter. */
  function Suffix<T>(s: seq<T>, n: nat): (r: seq<T>)
    ensures |r| == (if |s| < n then |s| else n)
  {
    if |s| <= n then s else s[|s| - n..]
  }

  /** The elements of `s` that satisfy `p`, in the order of `s`. */
  function Filter<T(!new)>(s: seq<T>, p: T -> bool): (r: seq<T>)
    ensures forall x :: x in r <==> x in s && p(x)
  {
    if s == [] then []
    else
      var init, last := s[..|s| - 1], s[|s| - 1];
      assert s == init + [last];
      Filter(init, p) + (if p(last) then [last] else [])
  }

  /** The first element kept is the first one that satisfies `p`. */
  lemma {:induction false} FilterFirst<T(!new)>(s: seq<T>, p: T -> bool) returns (i: nat)
    requires Filter(s, p) != []
    ensures i < |s| && s[i] == Filter(s, p)[0] && p(s[i])
    ensures forall j :: 0 <= j < i ==> !p(s[j])
  {
    var init, last := s[..|s| - 1], s[|s| - 1];
    if Filter(init, p) != [] {
      i := FilterFirst(init, p);
    } else {
      i := |s| - 1;
      forall j | 0 <= j < i ensures !p(s[j]) {
        assert init[j] == s[j] && init[j] in init && init[j] !in Filter(init, p);
      }
    }
  }

  lemma {:induction false} PlaceOf<T>(s: seq<T>, x: T) returns (i: nat)
    requires x in s
    ensures i < |s| && s[i] == x
  {
    i :| 0 <= i < |s| && s[i] == x;
  }

  /** Taking one more element from what is left. */
  lemma {:induction false} OneDone<T>(all: set<T>, rest: set<T>, x: T)
    requires x in rest && rest <= all
    ensures all - (rest - {x}) == all - rest + {x}
  {}
}
