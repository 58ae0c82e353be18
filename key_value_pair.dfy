/**
 * `KeyValuePair`: a key with its value, the element type of the lists that
 * the fetcher and observer build, and its conversions to and from dictionaries.
 */
module KeyValuePairs {
  import opened Wrappers
  import opened Errors
  import Utilities

  datatype KeyValuePair<K, V> = KeyValuePair(key: K, value: V)
  {
    /** `id`: the key. */
    function Id(): (r: K)
      ensures r == key
    {
      key
    }

    /** `mapKey(_:)`: replaces the key by its transform; a throwing transform gives its error and no pair. */
    function MapKey<NewKey>(transform: K -> Result<NewKey, Error>): (r: Result<KeyValuePair<NewKey, V>, Error>)
      ensures transform(key).Failure? ==> r == Failure(transform(key).error)
      ensures transform(key).Success? ==> r == Success(KeyValuePair(transform(key).value, value))
    {
      var newKey :- transform(key);
      Success(KeyValuePair(newKey, value))
    }

    /** `mapValue(_:)`: replaces the value by its transform; a throwing transform gives its error and no pair. */
    function MapValue<NewValue>(transform: V -> Result<NewValue, Error>): (r: Result<KeyValuePair<K, NewValue>, Error>)
      ensures transform(value).Failure? ==> r == Failure(transform(value).error)
      ensures transform(value).Success? ==> r == Success(KeyValuePair(key, transform(value).value))
    {
      var newValue :- transform(value);
      Success(KeyValuePair(key, newValue))
    }
  }

  /** The `(key, value)` tuples the `Dictionary` initialisers hand to the standard library. */
  function Tuples<K, V>(pairs: seq<KeyValuePair<K, V>>): (r: seq<(K, V)>)
    ensures |r| == |pairs|
    ensures forall i :: 0 <= i < |pairs| ==> r[i] == (pairs[i].key, pairs[i].value)
  {
    if pairs == [] then [] else Tuples(pairs[..|pairs| - 1]) + [(pairs[|pairs| - 1].key, pairs[|pairs| - 1].value)]
  }

  /** `Dictionary.init(_:uniquingKeysWith:)` over pairs: duplicate keys are merged with `combine`. */
  function DictionaryUniquing<K(==), V>(pairs: seq<KeyValuePair<K, V>>, combine: (V, V) -> Result<V, Error>): Result<map<K, V>, Error>
  {
    Utilities.UniquingKeys(Tuples(pairs), combine)
  }

  /** `Dictionary.init(_:)` over pairs: the last value for a key wins. */
  function Dictionary<K(==), V>(pairs: seq<KeyValuePair<K, V>>): (d: map<K, V>)
    ensures d.Keys == set i | 0 <= i < |pairs| :: pairs[i].key
  {
    var tuples := Tuples(pairs);
    Utilities.UniquingKeepingNewIsDictionaryFromPairs(tuples);
    KeysOfDictionaryFromPairs(tuples);
    DictionaryUniquing(pairs, (current: V, incoming: V) => Success(incoming)).value
  }

  /** The keys of a dictionary built from tuples are the tuples' keys. */
  lemma KeysOfDictionaryFromPairs<K, V>(tuples: seq<(K, V)>)
    ensures Utilities.DictionaryFromPairs(tuples).Keys == set i | 0 <= i < |tuples| :: tuples[i].0
  {
    forall k | k in Utilities.DictionaryFromPairs(tuples)
      ensures exists i :: 0 <= i < |tuples| && tuples[i].0 == k
    {
      Utilities.DictionaryFromPairsLookup(tuples, k);
    }
    forall i | 0 <= i < |tuples|
      ensures tuples[i].0 in Utilities.DictionaryFromPairs(tuples)
    {
      Utilities.DictionaryFromPairsLookup(tuples, tuples[i].0);
    }
  }

  /** The value of a key is that of the last pair carrying it. */
  lemma DictionaryLastWins<K, V>(pairs: seq<KeyValuePair<K, V>>, i: nat)
    requires i < |pairs|
    requires forall j :: i < j < |pairs| ==> pairs[j].key != pairs[i].key
    ensures pairs[i].key in Dictionary(pairs) && Dictionary(pairs)[pairs[i].key] == pairs[i].value
  {
    var tuples := Tuples(pairs);
    Utilities.UniquingKeepingNewIsDictionaryFromPairs(tuples);
    Utilities.DictionaryFromPairsLookup(tuples, pairs[i].key);
  }

  /** Every entry of the dictionary comes from some pair: the last one with its key. */
  lemma DictionaryEntryFromPair<K, V>(pairs: seq<KeyValuePair<K, V>>, k: K)
    requires k in Dictionary(pairs)
    ensures exists i :: 0 <= i < |pairs| && pairs[i] == KeyValuePair(k, Dictionary(pairs)[k])
  {
    var tuples := Tuples(pairs);
    Utilities.UniquingKeepingNewIsDictionaryFromPairs(tuples);
    Utilities.DictionaryFromPairsLookup(tuples, k);
    var i := Utilities.LastIndexOfKey(tuples, k);
    assert pairs[i] == KeyValuePair(k, Dictionary(pairs)[k]);
  }

  /**
   * `keyValues`: one pair per entry. Swift leaves the order of a dictionary's
   * entries unspecified, so any order is allowed here.
   */
  ghost function KeyValues<K, V>(d: map<K, V>): (r: seq<KeyValuePair<K, V>>)
    ensures |r| == |d|
    ensures forall i :: 0 <= i < |r| ==> r[i].key in d && d[r[i].key] == r[i].value
    ensures forall i, j :: 0 <= i < j < |r| ==> r[i].key != r[j].key
    decreases |d|
  {
    if |d| == 0 then []
    else
      var k :| k in d;
      assert (d - {k}).Keys == d.Keys - {k};
      assert |(d - {k}).Keys| == |d.Keys| - 1;
      KeyValues(d - {k}) + [KeyValuePair(k, d[k])]
  }

  /** Every entry of `d` occurs in `keyValues`. */
  lemma KeyValuesComplete<K, V>(d: map<K, V>, k: K)
    requires k in d
    ensures exists i :: 0 <= i < |KeyValues(d)| && KeyValues(d)[i].key == k
  {
    var r := KeyValues(d);
    var keys := set i | 0 <= i < |r| :: r[i].key;
    assert keys <= d.Keys;
    KeyCountOfDistinct(r);
    if k !in keys {
      assert keys < d.Keys;
      SubsetCard(keys, d.Keys);
      assert false;
    }
  }

  /** Distinct keys: as many keys as pairs. */
  lemma {:induction false} KeyCountOfDistinct<K, V>(r: seq<KeyValuePair<K, V>>)
    requires forall i, j :: 0 <= i < j < |r| ==> r[i].key != r[j].key
    ensures |set i | 0 <= i < |r| :: r[i].key| == |r|
  {
    if r != [] {
      var init := r[..|r| - 1];
      KeyCountOfDistinct(init);
      var keys := set i | 0 <= i < |init| :: init[i].key;
      assert (set i | 0 <= i < |r| :: r[i].key) == keys + {r[|r| - 1].key};
      assert r[|r| - 1].key !in keys;
    }
  }

  /** A proper subset is smaller. */
  lemma SubsetCard<K>(a: set<K>, b: set<K>)
    requires a < b
    ensures |a| < |b|
  {
    var x :| x in b && x !in a;
    SubsetCardAtMost(a, b - {x});
  }

  /** A subset is no larger. */
  lemma {:induction false} SubsetCardAtMost<K>(a: set<K>, b: set<K>)
    requires a <= b
    ensures |a| <= |b|
    decreases a
  {
    if a != {} {
      var x :| x in a;
      SubsetCardAtMost(a - {x}, b - {x});
    }
  }

  /** Turning a dictionary into its pairs and back gives the same dictionary. */
  lemma DictionaryOfKeyValues<K, V>(d: map<K, V>)
    ensures Dictionary(KeyValues(d)) == d
  {
    forall k | k in d
      ensures k in Dictionary(KeyValues(d)) && Dictionary(KeyValues(d))[k] == d[k]
    {
      KeyValuesCovered(d, k);
    }
    forall k | k in Dictionary(KeyValues(d))
      ensures k in d
    {
      KeyValuesWithin(d, k);
    }
    SameEntries(Dictionary(KeyValues(d)), d);
  }

  /** An entry of `d` is found again in the dictionary of its pairs. */
  lemma KeyValuesCovered<K, V>(d: map<K, V>, k: K)
    requires k in d
    ensures k in Dictionary(KeyValues(d)) && Dictionary(KeyValues(d))[k] == d[k]
  {
    var r := KeyValues(d);
    KeyValuesComplete(d, k);
    var i :| 0 <= i < |r| && r[i].key == k;
    DistinctPairWins(r, i);
  }

  /** The dictionary of the pairs of `d` has no key `d` lacks. */
  lemma KeyValuesWithin<K, V>(d: map<K, V>, k: K)
    requires k in Dictionary(KeyValues(d))
    ensures k in d
  {
    DictionaryEntryFromPair(KeyValues(d), k);
  }

  /** Maps with the same keys and values are equal. */
  lemma SameEntries<K, V>(a: map<K, V>, b: map<K, V>)
    requires forall k :: k in b ==> k in a && a[k] == b[k]
    requires forall k :: k in a ==> k in b
    ensures a == b
  {
  }

  /** With distinct keys, every pair's value is the dictionary's value for its key. */
  lemma DistinctPairWins<K, V>(pairs: seq<KeyValuePair<K, V>>, i: nat)
    requires i < |pairs|
    requires forall a, b :: 0 <= a < b < |pairs| ==> pairs[a].key != pairs[b].key
    ensures pairs[i].key in Dictionary(pairs) && Dictionary(pairs)[pairs[i].key] == pairs[i].value
  {
    DictionaryLastWins(pairs, i);
  }
}
