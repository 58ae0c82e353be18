/**
 * The helpers of `Utilities.swift`: dictionaries built from pairs, the
 * copying `appending` operations, the countdown that
 * `DatabaseReference.observe(event:ignore:)` keeps to skip the first
 * notifications, and the `Result` combinators used by derived observations.
 *
 * A Swift closure `(T) throws -> U` is a Dafny function `T -> Result<U, Error>`.
 */
module Utilities {
  import opened Wrappers
  import opened Errors

  // ----- Dictionaries from pairs -----

  /**
   * `Dictionary.init(_:)`: the pairs are inserted in order, and a later pair
   * replaces the value of an earlier one with the same key.
   */
  function DictionaryFromPairs<K(==), V>(pairs: seq<(K, V)>): (d: map<K, V>)
    ensures pairs != [] ==> pairs[|pairs| - 1].0 in d && d[pairs[|pairs| - 1].0] == pairs[|pairs| - 1].1
    ensures forall i :: 0 <= i < |pairs| ==> pairs[i].0 in d
  {
    if pairs == [] then map[]
    else
      var last := pairs[|pairs| - 1];
      DictionaryFromPairs(pairs[..|pairs| - 1])[last.0 := last.1]
  }

  /** Index of the last pair whose key is `k`, or -1 when there is none. */
  function LastIndexOfKey<K(==), V>(pairs: seq<(K, V)>, k: K): (r: int)
    ensures -1 <= r < |pairs|
    ensures r >= 0 ==> pairs[r].0 == k && forall j :: r < j < |pairs| ==> pairs[j].0 != k
    ensures r == -1 ==> forall j :: 0 <= j < |pairs| ==> pairs[j].0 != k
  {
    if pairs == [] then -1
    else if pairs[|pairs| - 1].0 == k then |pairs| - 1
    else LastIndexOfKey(pairs[..|pairs| - 1], k)
  }

  /** A key is in the dictionary exactly when some pair carries it, and it maps to the last such pair's value. */
  lemma {:induction false} DictionaryFromPairsLookup<K, V>(pairs: seq<(K, V)>, k: K)
    ensures k in DictionaryFromPairs(pairs) <==> LastIndexOfKey(pairs, k) >= 0
    ensures LastIndexOfKey(pairs, k) >= 0 ==> DictionaryFromPairs(pairs)[k] == pairs[LastIndexOfKey(pairs, k)].1
  {
    if pairs != [] {
      DictionaryFromPairsLookup(pairs[..|pairs| - 1], k);
    }
  }

  /**
   * The standard library's `Dictionary.init(_:uniquingKeysWith:)`: pairs are
   * inserted in order; for a key already present the value becomes
   * `combine(current, new)`, and an error thrown by `combine` is rethrown.
   * `combine` only runs for a repeated key, so only a repeated key can fail.
   */
  function UniquingKeys<K(==), V>(pairs: seq<(K, V)>, combine: (V, V) -> Result<V, Error>): (r: Result<map<K, V>, Error>)
    ensures r.Failure? ==> exists i, j :: 0 <= i < j < |pairs| && pairs[i].0 == pairs[j].0
    decreases |pairs|, 0
  {
    if pairs == [] then Success(map[])
    else
      var d :- UniquingKeys(pairs[..|pairs| - 1], combine);
      var last := pairs[|pairs| - 1];
      if last.0 in d then
        UniquingKeysFromPairs(pairs[..|pairs| - 1], combine, last.0);
        var v :- combine(d[last.0], last.1);
        Success(d[last.0 := v])
      else
        Success(d[last.0 := last.1])
  }

  /** Every key of a uniqued dictionary comes from some pair. */
  lemma {:induction false} UniquingKeysFromPairs<K, V>(pairs: seq<(K, V)>, combine: (V, V) -> Result<V, Error>, k: K)
    requires UniquingKeys(pairs, combine).Success? && k in UniquingKeys(pairs, combine).value
    ensures exists i :: 0 <= i < |pairs| && pairs[i].0 == k
    decreases |pairs|, 1
  {
    var init := pairs[..|pairs| - 1];
    if pairs[|pairs| - 1].0 != k {
      UniquingKeysFromPairs(init, combine, k);
      var i :| 0 <= i < |init| && init[i].0 == k;
      assert pairs[i].0 == k;
    }
  }

  /** `Dictionary.init(_:)` is `init(_:uniquingKeysWith: { _, value in value })`. */
  lemma {:induction false} UniquingKeepingNewIsDictionaryFromPairs<K, V>(pairs: seq<(K, V)>)
    ensures UniquingKeys(pairs, (current: V, incoming: V) => Success(incoming)) == Success(DictionaryFromPairs(pairs))
  {
    if pairs != [] {
      UniquingKeepingNewIsDictionaryFromPairs(pairs[..|pairs| - 1]);
    }
  }

  /** When no key repeats, `combine` is never called: the result is the plain dictionary whatever `combine` does. */
  lemma {:induction false} UniquingDistinctKeys<K, V>(pairs: seq<(K, V)>, combine: (V, V) -> Result<V, Error>)
    requires forall i, j :: 0 <= i < j < |pairs| ==> pairs[i].0 != pairs[j].0
    ensures UniquingKeys(pairs, combine) == Success(DictionaryFromPairs(pairs))
  {
    if pairs != [] {
      var init := pairs[..|pairs| - 1];
      var last := pairs[|pairs| - 1];
      UniquingDistinctKeys(init, combine);
      DictionaryFromPairsLookup(init, last.0);
    }
  }

  // ----- Copying appends -----

  /** `Dictionary.appending(_:for:)`: a copy with `key` set to `value`. */
  function DictionaryAppending<K(==), V>(d: map<K, V>, value: V, key: K): (r: map<K, V>)
    ensures r.Keys == d.Keys + {key}
    ensures r[key] == value
    ensures forall k :: k in d && k != key ==> r[k] == d[k]
  {
    d[key := value]
  }

  /** `Array.appending(_:)`: a copy with `newElement` at the end. */
  function ArrayAppending<E>(a: seq<E>, newElement: E): (r: seq<E>)
    ensures |r| == |a| + 1
    ensures r[..|a|] == a && r[|a|] == newElement
  {
    a + [newElement]
  }

  /** Appending a pair to the list and appending its entry to the dictionary built from the list agree. */
  lemma AppendingPairAgrees<K, V>(pairs: seq<(K, V)>, key: K, value: V)
    ensures DictionaryFromPairs(ArrayAppending(pairs, (key, value))) == DictionaryAppending(DictionaryFromPairs(pairs), value, key)
  {
    var extended := ArrayAppending(pairs, (key, value));
    assert extended[..|extended| - 1] == pairs;
  }

  // ----- Skipping the first notifications -----

  /**
   * The counter that the registration closure of `observe(event:ignore:)`
   * captures: `observationsToIgnore` starts at the requested number, each
   * notification while it is positive is swallowed and decrements it, and
   * once it is zero every notification is forwarded.
   */
  class IgnoreCountdown {
    var observationsToIgnore: nat

    constructor (numberIgnoredObservations: nat)
      ensures observationsToIgnore == numberIgnoredObservations
    {
      observationsToIgnore := numberIgnoredObservations;
    }

    /** One notification arrives; `forward` says whether it is passed on. */
    method Notify() returns (forward: bool)
      modifies this
      ensures forward <==> old(observationsToIgnore) == 0
      ensures observationsToIgnore == if forward then 0 else old(observationsToIgnore) - 1
    {
      if observationsToIgnore != 0 {
        observationsToIgnore := observationsToIgnore - 1;
        return false;
      }
      return true;
    }
  }

  /** The notifications passed on when `notifications` arrive at a countdown starting at `ignore`, step by step. */
  function Forwarded<T>(ignore: nat, notifications: seq<T>): (r: seq<T>)
    ensures |r| == if ignore < |notifications| then |notifications| - ignore else 0
    ensures forall i :: 0 <= i < |r| ==> r[i] == notifications[ignore + i]
  {
    if notifications == [] then []
    else if ignore == 0 then [notifications[0]] + Forwarded(0, notifications[1..])
    else Forwarded(ignore - 1, notifications[1..])
  }

  /** The countdown suppresses exactly the first `ignore` notifications and forwards the rest in order. */
  lemma {:induction false} ForwardedSkipsFirst<T>(ignore: nat, notifications: seq<T>)
    ensures Forwarded(ignore, notifications) == if ignore < |notifications| then notifications[ignore..] else []
  {
    if notifications != [] {
      ForwardedSkipsFirst(if ignore == 0 then 0 else ignore - 1, notifications[1..]);
      if ignore == 0 {
        assert [notifications[0]] + notifications[1..] == notifications;
      }
    }
  }

  // ----- Result combinators -----

  /** `Result.mapThrowable`: a failure stays, a success is transformed, and a throwing transform gives its error. */
  function MapThrowable<T, U>(r: Result<T, Error>, transform: T -> Result<U, Error>): (m: Result<U, Error>)
    ensures r.Failure? ==> m == Failure(r.error)
    ensures r.Success? ==> m == transform(r.value)
  {
    match r
    case Success(v) => transform(v)
    case Failure(e) => Failure(e)
  }

  /**
   * `Result.compactMap`: nil when the transform of a success returns nil, a
   * failure for an input failure or a throwing transform, otherwise the
   * transformed success.
   */
  function CompactMap<T, U>(r: Result<T, Error>, transform: T -> Result<Option<U>, Error>): (m: Option<Result<U, Error>>)
    ensures m.None? <==> r.Success? && transform(r.value).Success? && transform(r.value).value.None?
    ensures r.Failure? ==> m == Some(Failure(r.error))
    ensures r.Success? && transform(r.value).Failure? ==> m == Some(Failure(transform(r.value).error))
    ensures r.Success? && transform(r.value).Success? && transform(r.value).value.Some? ==>
              m == Some(Success(transform(r.value).value.value))
  {
    match r
    case Failure(e) => Some(Failure(e))
    case Success(v) =>
      match transform(v)
      case Failure(e) => Some(Failure(e))
      case Success(None) => None
      case Success(Some(u)) => Some(Success(u))
  }

  /**
   * `Result.filter`: nil when the predicate rejects a success, the same success
   * when it accepts it, and a failure for an input failure or a throwing
   * predicate.
   */
  function Filter<T>(r: Result<T, Error>, isIncluded: T -> Result<bool, Error>): (m: Option<Result<T, Error>>)
    ensures m.None? <==> r.Success? && isIncluded(r.value) == Success(false)
    ensures r.Failure? ==> m == Some(r)
    ensures r.Success? && isIncluded(r.value) == Success(true) ==> m == Some(r)
    ensures r.Success? && isIncluded(r.value).Failure? ==> m == Some(Failure(isIncluded(r.value).error))
  {
    match r
    case Failure(e) => Some(Failure(e))
    case Success(v) =>
      match isIncluded(v)
      case Failure(e) => Some(Failure(e))
      case Success(b) => if b then Some(Success(v)) else None
  }

  /** `mapThrowable` with a transform that never throws is a plain `map`; with `success` it is the identity. */
  lemma MapThrowableIdentity<T>(r: Result<T, Error>)
    ensures MapThrowable(r, (v: T) => Success(v)) == r
  {
  }

  /** Mapping twice is mapping once with the composed transform (`flatMap` associativity). */
  lemma MapThrowableCompose<T, U, W>(r: Result<T, Error>, f: T -> Result<U, Error>, g: U -> Result<W, Error>)
    ensures MapThrowable(MapThrowable(r, f), g) == MapThrowable(r, (v: T) => MapThrowable(f(v), g))
  {
  }

  /** A `compactMap` whose transform never returns nil is `mapThrowable`: it never drops a notification. */
  lemma CompactMapOfNonNil<T, U>(r: Result<T, Error>, f: T -> Result<U, Error>)
    ensures CompactMap(r, (v: T) => MapThrowable(f(v), (u: U) => Success(Some(u)))) == Some(MapThrowable(r, f))
  {
  }

  /** `filter` is the `compactMap` that keeps the value itself when the predicate holds. */
  lemma FilterIsCompactMap<T>(r: Result<T, Error>, isIncluded: T -> Result<bool, Error>)
    ensures Filter(r, isIncluded) ==
            CompactMap(r, (v: T) => MapThrowable(isIncluded(v), (b: bool) => Success(if b then Some(v) else None)))
  {
  }
}
