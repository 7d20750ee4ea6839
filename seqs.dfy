/** Concatenating what a function yields for each element of a sequence, in order. */
module Seqs {

  /** `f(s[0]) + f(s[1]) + ... + f(s[|s| - 1])`. */
  function FlatMap<T, U>(f: T -> seq<U>, s: seq<T>): seq<U> {
    if s == [] then [] else FlatMap(f, s[..|s| - 1]) + f(s[|s| - 1])
  }

  lemma FlatMapSnoc<T, U>(f: T -> seq<U>, s: seq<T>, x: T)
    ensures FlatMap(f, s + [x]) == FlatMap(f, s) + f(x)
  {
  }

  /** FlatMap of a concatenation is the concatenation of the FlatMaps. */
  lemma {:induction false} FlatMapAppend<T, U>(f: T -> seq<U>, a: seq<T>, b: seq<T>)
    ensures FlatMap(f, a + b) == FlatMap(f, a) + FlatMap(f, b)
  {
    if b == [] {
      assert a + b == a;
    } else {
      var b', last := b[..|b| - 1], b[|b| - 1];
      assert b == b' + [last];
      assert a + b == (a + b') + [last];
      FlatMapSnoc(f, a + b', last);
      FlatMapSnoc(f, b', last);
      FlatMapAppend(f, a, b');
    }
  }

  /** Every element of a FlatMap comes from the image of some element of the sequence. */
  lemma {:induction false} FlatMapMember<T, U>(f: T -> seq<U>, s: seq<T>, u: U)
    requires u in FlatMap(f, s)
    ensures exists x :: x in s && u in f(x)
  {
    var init, last := s[..|s| - 1], s[|s| - 1];
    if u in FlatMap(f, init) {
      FlatMapMember(f, init, u);
      var x :| x in init && u in f(x);
      assert x in s;
    } else {
      assert u in f(last);
    }
  }

  /** If every image has at most `k` elements, the FlatMap has at most `k * |s|`. */
  lemma {:induction false} FlatMapBound<T, U>(f: T -> seq<U>, s: seq<T>, k: nat)
    requires forall x :: x in s ==> |f(x)| <= k
    ensures |FlatMap(f, s)| <= k * |s|
  {
    if s != [] {
      var init := s[..|s| - 1];
      assert forall x :: x in init ==> x in s;
      FlatMapBound(f, init, k);
      assert s[|s| - 1] in s;
      assert k * |s| == k * |init| + k;
    }
  }

  /** The set of elements of a sequence. */
  function Elements<T>(s: seq<T>): set<T> {
    set x | x in s
  }

  /** A strictly increasing sequence has as many distinct elements as it is long. */
  lemma {:induction false} IncreasingCard(s: seq<nat>)
    requires forall j, k :: 0 <= j < k < |s| ==> s[j] < s[k]
    ensures |Elements(s)| == |s|
  {
    if s != [] {
      var init, last := s[..|s| - 1], s[|s| - 1];
      assert forall j :: 0 <= j < |init| ==> init[j] == s[j] && init[j] < last;
      IncreasingCard(init);
      assert Elements(s) == Elements(init) + {last};
    }
  }
}
