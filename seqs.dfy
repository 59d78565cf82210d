/** Sequence helpers shared by the list-building code: flat-mapping a sequence in order. */
module Seqs {

  /** Appending the images of the elements one after another, starting from an empty list. */
  function FlatMap<T, U>(s: seq<T>, f: T -> seq<U>): seq<U> {
    if s == [] then [] else FlatMap(s[..|s| - 1], f) + f(s[|s| - 1])
  }

  /** One more element appends its image. */
  lemma FlatMapSnoc<T, U>(s: seq<T>, x: T, f: T -> seq<U>)
    ensures FlatMap(s + [x], f) == FlatMap(s, f) + f(x)
  {
    assert (s + [x])[..|s|] == s;
  }

  /** Flat-mapping a concatenation concatenates the results, so the input order is the output order. */
  lemma {:induction false} FlatMapAppend<T, U>(a: seq<T>, b: seq<T>, f: T -> seq<U>)
    ensures FlatMap(a + b, f) == FlatMap(a, f) + FlatMap(b, f)
  {
    if b == [] {
      assert a + b == a;
    } else {
      var b', last := b[..|b| - 1], b[|b| - 1];
      calc {
        FlatMap(a + b, f);
        { assert a + b == (a + b') + [last]; }
        FlatMap((a + b') + [last], f);
        { FlatMapSnoc(a + b', last, f); }
        FlatMap(a + b', f) + f(last);
        { FlatMapAppend(a, b', f); }
        FlatMap(a, f) + FlatMap(b', f) + f(last);
        { FlatMapSnoc(b', last, f); assert b' + [last] == b; }
        FlatMap(a, f) + FlatMap(b, f);
      }
    }
  }

  /** An element placed anywhere contributes its image at that place. */
  lemma FlatMapAround<T, U>(before: seq<T>, x: T, after: seq<T>, f: T -> seq<U>)
    ensures FlatMap(before + [x] + after, f) == FlatMap(before, f) + f(x) + FlatMap(after, f)
  {
    FlatMapAppend(before + [x], after, f);
    FlatMapSnoc(before, x, f);
  }

  /** `xs.filter(keep)`: the kept elements, in their original order. */
  function Filter<T(!new)>(s: seq<T>, keep: T -> bool): (r: seq<T>)
    ensures |r| <= |s|
    ensures forall x :: x in r <==> x in s && keep(x)
  {
    if s == [] then []
    else Filter(s[..|s| - 1], keep) + (if keep(s[|s| - 1]) then [s[|s| - 1]] else [])
  }

  /** Filtering a concatenation concatenates the filtered parts, so the kept elements keep their order. */
  lemma {:induction false} FilterAppend<T(!new)>(a: seq<T>, b: seq<T>, keep: T -> bool)
    ensures Filter(a + b, keep) == Filter(a, keep) + Filter(b, keep)
  {
    if b == [] {
      assert a + b == a;
    } else {
      var b', last := b[..|b| - 1], b[|b| - 1];
      assert (a + b)[..|a + b| - 1] == a + b';
      assert (a + b)[|a + b| - 1] == last;
      FilterAppend(a, b', keep);
    }
  }

  /** Nothing is dropped when every element is kept. */
  lemma {:induction false} FilterKeepsAll<T(!new)>(s: seq<T>, keep: T -> bool)
    requires forall i :: 0 <= i < |s| ==> keep(s[i])
    ensures Filter(s, keep) == s
  {
    if s != [] {
      FilterKeepsAll(s[..|s| - 1], keep);
      assert s[..|s| - 1] + [s[|s| - 1]] == s;
    }
  }

  /**
   * `order` is the order in which `n` concurrently started tasks finish: a listing
   * of the indices `0 .. n-1` of those tasks in which each appears.
   */
  predicate IsCompletionOrder(order: seq<nat>, n: nat) {
    && |order| == n
    && (forall k :: 0 <= k < |order| ==> order[k] < n)
    && (forall i :: 0 <= i < n ==> i in order)
  }
}
