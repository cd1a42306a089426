/**
 * The collection combinators the publicizers are written with:
 * `into_iter().map(f).collect()` on a vector and `Option::map`, plus a
 * flat-map used to list the leaves of nested structures in order.
 */
module Mapping {
  import opened Wrappers

  /** `s.into_iter().map(f).collect()`: same length, element i is `f(s[i])`. */
  function MapSeq<A, B>(f: A -> B, s: seq<A>): (r: seq<B>)
    ensures |r| == |s|
    ensures forall i :: 0 <= i < |s| ==> r[i] == f(s[i])
  {
    if s == [] then [] else [f(s[0])] + MapSeq(f, s[1..])
  }

  /** `o.map(f)`: presence is kept, and a present value is passed through `f`. */
  function MapOption<A, B>(f: A -> B, o: Option<A>): (r: Option<B>)
    ensures r.Some? <==> o.Some?
    ensures o.Some? ==> r.value == f(o.value)
  {
    match o
    case None => None
    case Some(v) => Some(f(v))
  }

  /** The concatenation, in order, of `f(x)` for every element `x` of `s`. */
  function FlatMap<A, B>(f: A -> seq<B>, s: seq<A>): seq<B>
  {
    if s == [] then [] else f(s[0]) + FlatMap(f, s[1..])
  }

  lemma MapSeqAppend<A, B>(f: A -> B, s: seq<A>, t: seq<A>)
    ensures MapSeq(f, s + t) == MapSeq(f, s) + MapSeq(f, t)
  {
  }

  /**
   * Listing the leaves of mapped elements: if the leaves `g` lists for each
   * `t[i]` are `f` applied to the leaves `k` lists for `s[i]`, then the
   * leaves of all of `t` are `f` applied to the leaves of all of `s`, in the
   * same order.
   */
  lemma {:induction false} FlatMapPointwise<A, B, X, Y>(
    k: A -> seq<X>, g: B -> seq<Y>, f: X -> Y, s: seq<A>, t: seq<B>)
    requires |t| == |s|
    requires forall i :: 0 <= i < |s| ==> g(t[i]) == MapSeq(f, k(s[i]))
    ensures FlatMap(g, t) == MapSeq(f, FlatMap(k, s))
  {
    if s != [] {
      FlatMapPointwise(k, g, f, s[1..], t[1..]);
      MapSeqAppend(f, k(s[0]), FlatMap(k, s[1..]));
    }
  }

  /** Mapping twice is mapping once with the composed function. */
  lemma MapSeqCompose<A, B, C>(f1: A -> B, f2: B -> C, f3: A -> C, s: seq<A>)
    requires forall x :: f3(x) == f2(f1(x))
    ensures MapSeq(f2, MapSeq(f1, s)) == MapSeq(f3, s)
  {
  }

  /** Mapping with a function that fixes every element changes nothing. */
  lemma MapSeqIdentity<A>(f: A -> A, s: seq<A>)
    requires forall x :: f(x) == x
    ensures MapSeq(f, s) == s
  {
  }

  /** Two concatenations with equally long left parts are equal exactly when both parts are. */
  lemma AppendCancel<T>(a: seq<T>, b: seq<T>, c: seq<T>, d: seq<T>)
    requires |a| == |c|
    ensures a + b == c + d <==> a == c && b == d
  {
    if a + b == c + d {
      assert a == (a + b)[..|a|] && c == (c + d)[..|c|];
      assert b == (a + b)[|a|..] && d == (c + d)[|c|..];
    }
  }

  /**
   * When `s` and `t` have elements with equally many leaves, pointwise,
   * their flat-maps are equally long, and equal flat-maps have equal
   * leaves pointwise.
   */
  lemma {:induction false} FlatMapSameSizes<A, X>(k: A -> seq<X>, s: seq<A>, t: seq<A>)
    requires |s| == |t|
    requires forall i :: 0 <= i < |s| ==> |k(s[i])| == |k(t[i])|
    ensures |FlatMap(k, s)| == |FlatMap(k, t)|
    ensures FlatMap(k, s) == FlatMap(k, t) ==> forall i :: 0 <= i < |s| ==> k(s[i]) == k(t[i])
  {
    if s != [] {
      FlatMapSameSizes(k, s[1..], t[1..]);
      AppendCancel(k(s[0]), FlatMap(k, s[1..]), k(t[0]), FlatMap(k, t[1..]));
      if FlatMap(k, s) == FlatMap(k, t) {
        forall i | 0 <= i < |s| ensures k(s[i]) == k(t[i]) {
          if i > 0 {
            assert s[1..][i - 1] == s[i] && t[1..][i - 1] == t[i];
          }
        }
      }
    }
  }
}
