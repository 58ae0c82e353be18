/**
 * The two standard-library sequence operations the fetcher relies on: `map`
 * with a throwing transform, which stops at the first element whose
 * transform throws, and `compactMap { $0 }`, which drops the nil elements.
 */
module Sequences {
  import opened Wrappers
  import opened Errors

  /** `Sequence.map(_:)` with a throwing transform. */
  function TryMap<A, B>(xs: seq<A>, f: A -> Result<B, Error>): (r: Result<seq<B>, Error>)
    ensures r.Success? <==> forall i :: 0 <= i < |xs| ==> f(xs[i]).Success?
    ensures r.Success? ==> |r.value| == |xs| && forall i :: 0 <= i < |xs| ==> r.value[i] == f(xs[i]).value
    ensures r.Failure? ==> exists i :: 0 <= i < |xs| && f(xs[i]) == Failure(r.error)
                                       && forall j :: 0 <= j < i ==> f(xs[j]).Success?
  {
    if xs == [] then Success([])
    else
      var head :- f(xs[0]);
      var tail :- TryMap(xs[1..], f);
      Success([head] + tail)
  }

  /**
   * `compactMap { $0 }`: the present elements, in order. A single element is kept
   * exactly when it is present; with `CompactAppend` this fixes the result of
   * every sequence, order and multiplicity included.
   */
  function Compact<T>(xs: seq<Option<T>>): (r: seq<T>)
    ensures |r| <= |xs|
    ensures forall i :: 0 <= i < |r| ==> Some(r[i]) in xs
    ensures forall j :: 0 <= j < |xs| && xs[j].Some? ==> xs[j].value in r
    ensures |xs| == 1 && xs[0].None? ==> r == []
    ensures |xs| == 1 && xs[0].Some? ==> r == [xs[0].value]
  {
    if xs == [] then []
    else
      var tail := Compact(xs[1..]);
      assert forall j :: 1 <= j < |xs| ==> xs[j] == xs[1..][j - 1];
      match xs[0]
      case None => tail
      case Some(x) => [x] + tail
  }

  /** Compacting keeps the order: the compaction of a concatenation is the concatenation of the compactions. */
  lemma {:induction false} CompactAppend<T>(xs: seq<Option<T>>, ys: seq<Option<T>>)
    ensures Compact(xs + ys) == Compact(xs) + Compact(ys)
  {
    if xs != [] {
      assert (xs + ys)[0] == xs[0];
      assert (xs + ys)[1..] == xs[1..] + ys;
      CompactAppend(xs[1..], ys);
      match xs[0]
      case None =>
      case Some(x) =>
        assert Compact(xs + ys) == [x] + Compact(xs[1..] + ys);
        assert Compact(xs) == [x] + Compact(xs[1..]);
    } else {
      assert xs + ys == ys;
    }
  }

  /** A sequence with no nil element is compacted to its payloads, one for one. */
  lemma {:induction false} CompactOfPresent<T>(xs: seq<Option<T>>)
    requires forall i :: 0 <= i < |xs| ==> xs[i].Some?
    ensures |Compact(xs)| == |xs|
    ensures forall i :: 0 <= i < |xs| ==> Compact(xs)[i] == xs[i].value
  {
    if xs != [] {
      CompactOfPresent(xs[1..]);
    }
  }
}
