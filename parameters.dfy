/**
 * `FFParameters`, the keyed parameters of a function call, and
 * `FFParametersBuilder`, the result builder that assembles them.
 *
 * A value of `any FFParameterType` only ever reaches the parameters through
 * its `internalParameter`, so it is represented here by that value.
 */
module Parameters {
  import opened Wrappers
  import opened ParameterValues

  /** Folds `(key, parameter)` pairs into `m` one at a time, later pairs overwriting earlier ones. */
  function AppendAll(m: map<string, InternalParameter>, entries: seq<(string, InternalParameter)>): map<string, InternalParameter>
  {
    if entries == [] then m
    else
      var last := entries[|entries| - 1];
      AppendAll(m, entries[..|entries| - 1])[last.0 := last.1]
  }

  /** Index of the last pair with key `k`, or -1 when no pair has it. */
  function LastIndex(entries: seq<(string, InternalParameter)>, k: string): (r: int)
    ensures -1 <= r < |entries|
    ensures r >= 0 ==> entries[r].0 == k && forall j :: r < j < |entries| ==> entries[j].0 != k
    ensures r == -1 ==> forall j :: 0 <= j < |entries| ==> entries[j].0 != k
  {
    if entries == [] then -1
    else if entries[|entries| - 1].0 == k then |entries| - 1
    else LastIndex(entries[..|entries| - 1], k)
  }

  /**
   * After appending, a key is present when it was before or some pair carries it;
   * its value comes from the last pair carrying it, and a key no pair carries keeps
   * its old value.
   */
  lemma {:induction false} AppendAllLookup(m: map<string, InternalParameter>, entries: seq<(string, InternalParameter)>, k: string)
    ensures k in AppendAll(m, entries) <==> k in m || LastIndex(entries, k) >= 0
    ensures LastIndex(entries, k) >= 0 ==> AppendAll(m, entries)[k] == entries[LastIndex(entries, k)].1
    ensures LastIndex(entries, k) == -1 && k in m ==> AppendAll(m, entries)[k] == m[k]
  {
    if entries != [] {
      AppendAllLookup(m, entries[..|entries| - 1], k);
    }
  }

  /** `FFParameters`. */
  class FFParameters {
    var parameters: map<string, InternalParameter>

    /** `init()`: no parameters. */
    constructor Empty()
      ensures parameters == map[]
    {
      parameters := map[];
    }

    /** `init(_:)`: the given parameters. */
    constructor (initial: map<string, InternalParameter>)
      ensures parameters == initial
    {
      parameters := initial;
    }

    /** `append(_:for:)`: adds the parameter under `key`, replacing a previous one. */
    method Append(parameter: InternalParameter, key: string)
      modifies this
      ensures parameters == old(parameters)[key := parameter]
      ensures parameters.Keys == old(parameters).Keys + {key}
    {
      parameters := parameters[key := parameter];
    }

    /** `append(contentsOf:)`: appends the pairs in order, so the last pair for a key wins. */
    method AppendContentsOf(entries: seq<(string, InternalParameter)>)
      modifies this
      ensures parameters == AppendAll(old(parameters), entries)
    {
      for n := 0 to |entries|
        invariant parameters == AppendAll(old(parameters), entries[..n])
      {
        assert entries[..n + 1][..n] == entries[..n];
        Append(entries[n].1, entries[n].0);
      }
      assert entries[..|entries|] == entries;
    }

    /** `remove(with:)`: drops the parameter under `key`, if any. */
    method Remove(key: string)
      modifies this
      ensures parameters == old(parameters) - {key}
      ensures key !in parameters
    {
      parameters := parameters - {key};
    }

    /** `get(with:)`: the parameter under `key`, or `nil`; nothing changes. */
    method Get(key: string) returns (r: Option<InternalParameter>)
      ensures r.Some? <==> key in parameters
      ensures r.Some? ==> r.value == parameters[key]
    {
      if key in parameters {
        r := Some(parameters[key]);
      } else {
        r := None;
      }
    }

    /** The getter of `subscript(_:)`. */
    function Subscript(key: string): (r: Option<InternalParameter>)
      reads this
      ensures r.Some? <==> key in parameters
      ensures r.Some? ==> r.value == parameters[key]
    {
      if key in parameters then Some(parameters[key]) else None
    }

    /** The setter of `subscript(_:)`: a value is stored, `nil` removes the key. */
    method SetSubscript(key: string, newValue: Option<InternalParameter>)
      modifies this
      ensures newValue.Some? ==> parameters == old(parameters)[key := newValue.value]
      ensures newValue.None? ==> parameters == old(parameters) - {key}
      ensures Subscript(key) == newValue
    {
      match newValue
      case Some(p) => parameters := parameters[key := p];
      case None => parameters := parameters - {key};
    }
  }

  /** `FFParameter`: a parameter with its key, the builder's expression type. */
  datatype Parameter = Parameter(parameter: InternalParameter, key: string)

  /** The builder's component type: parameters by key. */
  type Component = map<string, InternalParameter>

  /** Merges the components left to right; for a key in several, the later value wins. */
  function MergeAll(components: seq<Component>): Component
  {
    if components == [] then map[]
    else MergeAll(components[..|components| - 1]) + components[|components| - 1]
  }

  /** Index of the last component holding `k`, or -1 when none does. */
  function LastHolder(components: seq<Component>, k: string): (r: int)
    ensures -1 <= r < |components|
    ensures r >= 0 ==> k in components[r] && forall j :: r < j < |components| ==> k !in components[j]
    ensures r == -1 ==> forall j :: 0 <= j < |components| ==> k !in components[j]
  {
    if components == [] then -1
    else if k in components[|components| - 1] then |components| - 1
    else LastHolder(components[..|components| - 1], k)
  }

  /** A merged key comes from some component, and its value from the last component holding it. */
  lemma {:induction false} MergeAllLookup(components: seq<Component>, k: string)
    ensures k in MergeAll(components) <==> LastHolder(components, k) >= 0
    ensures LastHolder(components, k) >= 0 ==> MergeAll(components)[k] == components[LastHolder(components, k)][k]
  {
    if components != [] {
      MergeAllLookup(components[..|components| - 1], k);
    }
  }

  /** Merging is associative: merging two runs separately and then together gives the same result. */
  lemma {:induction false} MergeAllConcat(a: seq<Component>, b: seq<Component>)
    ensures MergeAll(a + b) == MergeAll(a) + MergeAll(b)
  {
    if b == [] {
      assert a + b == a;
    } else {
      var n := |b| - 1;
      assert (a + b)[..|a + b| - 1] == a + b[..n];
      MergeAllConcat(a, b[..n]);
    }
  }

  /** `buildExpression(_:)`: a component holding just this parameter. */
  function BuildExpression(expression: Parameter): (r: Component)
    ensures r.Keys == {expression.key}
    ensures r[expression.key] == expression.parameter
  {
    map[expression.key := expression.parameter]
  }

  /** `buildBlock(_:)`: the statements' components merged in order. */
  function BuildBlock(components: seq<Component>): (r: Component)
    ensures forall k :: k in r <==> LastHolder(components, k) >= 0
    ensures forall k :: k in r ==> r[k] == components[LastHolder(components, k)][k]
  {
    forall k
      ensures k in MergeAll(components) <==> LastHolder(components, k) >= 0
      ensures k in MergeAll(components) ==> MergeAll(components)[k] == components[LastHolder(components, k)][k]
    {
      MergeAllLookup(components, k);
    }
    MergeAll(components)
  }

  /** `buildArray(_:)`: the components of a `for` loop's iterations merged in order. */
  function BuildArray(components: seq<Component>): (r: Component)
    ensures r == BuildBlock(components)
  {
    MergeAll(components)
  }

  /** `buildOptional(_:)`: an `if` without `else` that did not run contributes nothing. */
  function BuildOptional(component: Option<Component>): (r: Component)
    ensures component.None? ==> r == map[]
    ensures component.Some? ==> r == component.value
  {
    component.UnwrapOr(map[])
  }

  /** `buildEither(first:)`: the taken branch's component, unchanged. */
  function BuildEitherFirst(component: Component): (r: Component)
    ensures r == component
  {
    component
  }

  /** `buildEither(second:)`: the taken branch's component, unchanged. */
  function BuildEitherSecond(component: Component): (r: Component)
    ensures r == component
  {
    component
  }

  /** `buildFinalResult(_:)`: parameters holding exactly the component. */
  method BuildFinalResult(component: Component) returns (r: FFParameters)
    ensures fresh(r) && r.parameters == component
  {
    r := new FFParameters(component);
  }

  /** Appending pairs one by one agrees with building a block of one expression per pair. */
  lemma {:induction false} AppendAllIsMerge(m: map<string, InternalParameter>, entries: seq<(string, InternalParameter)>)
    ensures AppendAll(m, entries)
      == m + MergeAll(seq(|entries|, i requires 0 <= i < |entries| => BuildExpression(Parameter(entries[i].1, entries[i].0))))
  {
    var cs := seq(|entries|, i requires 0 <= i < |entries| => BuildExpression(Parameter(entries[i].1, entries[i].0)));
    if entries != [] {
      var n := |entries| - 1;
      var csInit := seq(n, i requires 0 <= i < n => BuildExpression(Parameter(entries[..n][i].1, entries[..n][i].0)));
      assert cs[..n] == csInit;
      AppendAllIsMerge(m, entries[..n]);
    }
  }
}
