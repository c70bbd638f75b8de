/**
 The two `Collection` operations the view controller relies on: the
 application's own `subscript(safe:)` extension and the standard `prefix(_:)`.
 An array index is an `int`; the valid indices of `c` are `0 <= i < |c|`.
 */
module Collection {
  import opened Wrappers

  function Min(a: int, b: int): (r: int)
    ensures r <= a && r <= b
    ensures r == a || r == b
  {
    if a <= b then a else b
  }

  /** `c[safe: i]`: the element at `i` when `i` is one of the indices of `c`,
      otherwise `None`. Total: there is no precondition on `i`. */
  function SafeGet<T>(c: seq<T>, i: int): (r: Option<T>)
    ensures r.Some? <==> 0 <= i < |c|
    ensures r.Some? ==> r.value == c[i]
  {
    if 0 <= i < |c| then Some(c[i]) else None
  }

  /** `c.prefix(n)`: the first `n` elements, or all of them when there are fewer. */
  function Prefix<T>(c: seq<T>, n: nat): (p: seq<T>)
    ensures |p| == Min(n, |c|)
    ensures forall i :: 0 <= i < |p| ==> p[i] == c[i]
  {
    c[..Min(n, |c|)]
  }

  /** A safe lookup on a prefix agrees with the safe lookup on the whole
      collection below the cut, and finds nothing at or past it. */
  lemma SafeGetOfPrefix<T>(c: seq<T>, n: nat, i: int)
    ensures SafeGet(Prefix(c, n), i) == (if i < n then SafeGet(c, i) else None)
  {
  }

  /** The lookup used for the runner-up: index 1 of a two-element prefix is
      present exactly when the prefix really has two elements, that is, when
      the collection has at least two. */
  lemma SecondOfTwoPrefix<T>(c: seq<T>)
    ensures SafeGet(Prefix(c, 2), 1).Some? <==> |Prefix(c, 2)| == 2
    ensures SafeGet(Prefix(c, 2), 1).Some? <==> |c| >= 2
    ensures SafeGet(Prefix(c, 2), 1).Some? ==> SafeGet(Prefix(c, 2), 1).value == c[1]
  {
  }

  /** The first element of a prefix, looked up safely, is the first element
      of the collection; it is absent only for an empty collection. */
  lemma FirstOfPrefix<T>(c: seq<T>, n: nat)
    requires n >= 1
    ensures SafeGet(Prefix(c, n), 0).None? <==> |c| == 0
    ensures |c| > 0 ==> SafeGet(Prefix(c, n), 0) == Some(c[0])
  {
  }
}
