/**
 * Option normalisation: `assign` (later sources win) and the three call shapes of
 * `_normalizeOptions` (URL string, options object, URL string plus options).
 */
module Normalization {
  import opened Wrappers
  import opened JsValues

  const UrlKey := "url"

  /** `assign({}, s0, s1, ...)`: copies each source in turn onto a fresh object. */
  function Assign(sources: seq<Options>): (r: Options)
    ensures sources == [] ==> r == map[]
    ensures sources != [] ==> forall k :: k in sources[|sources| - 1] ==> k in r && r[k] == sources[|sources| - 1][k]
    decreases |sources|
  {
    if sources == [] then map[] else Assign(sources[..|sources| - 1]) + sources[|sources| - 1]
  }

  /** `k` occurs in source `i` and in no later one. */
  ghost predicate LastWith(sources: seq<Options>, k: string, i: int)
    requires 0 <= i < |sources|
  {
    k in sources[i] && forall j :: i < j < |sources| ==> k !in sources[j]
  }

  /** The result of `assign` holds exactly the keys of its sources. */
  lemma {:induction false} AssignKeys(sources: seq<Options>, k: string)
    ensures k in Assign(sources) <==> exists i :: 0 <= i < |sources| && k in sources[i]
    decreases |sources|
  {
    if sources != [] {
      var n := |sources| - 1;
      var prefix := sources[..n];
      AssignKeys(prefix, k);
      if k in Assign(prefix) {
        var i :| 0 <= i < |prefix| && k in prefix[i];
        assert k in sources[i];
      }
      if exists i :: 0 <= i < |sources| && k in sources[i] {
        var i :| 0 <= i < |sources| && k in sources[i];
        if i < n {
          assert k in prefix[i];
        }
      }
    }
  }

  /** Later sources win: the value of each key comes from the last source that has it. */
  lemma {:induction false} AssignLaterWins(sources: seq<Options>, k: string, i: nat)
    requires i < |sources| && LastWith(sources, k, i)
    ensures k in Assign(sources) && Assign(sources)[k] == sources[i][k]
    decreases |sources|
  {
    var n := |sources| - 1;
    if i < n {
      var prefix := sources[..n];
      assert prefix[i] == sources[i];
      assert k !in sources[n];
      assert LastWith(prefix, k, i);
      AssignLaterWins(prefix, k, i);
    }
  }

  /** The three-source call of `_normalizeOptions`, as map overlays. */
  lemma AssignThree(a: Options, b: Options, c: Options)
    ensures Assign([a, b, c]) == a + b + c
  {
    assert [a][..0] == [];
    assert Assign([a]) == map[] + a == a;
    assert [a, b][..1] == [a];
    assert Assign([a, b]) == a + b;
    assert [a, b, c][..2] == [a, b];
  }

  /** The options `_normalizeOptions` returns, and the caller's second argument after the call. */
  datatype Normalized = Normalized(options: Options, callerOptions: Value)

  /**
   * `_normalizeOptions(url, options, overrides)`. A string first argument is the URL and is written
   * into the (defaulted) second argument before copying; any other first argument is the options
   * object itself, `{}` when falsy. `overrides` is copied last. The module is strict, so writing
   * `url` onto a primitive second argument throws.
   */
  function Normalize(url: Value, options: Value, overrides: Options): (r: Result<Normalized, Error>)
    // the overrides always win
    ensures r.Success? ==> forall k :: k in overrides ==> k in r.value.options && r.value.options[k] == overrides[k]
    // non-string shape: a copy of the object (of {} if falsy) under the overrides; nothing of the caller changes
    ensures !url.Str? ==> r.Success? && r.value.callerOptions == options
    ensures !url.Str? ==> forall k :: k in r.value.options <==> k in overrides || k in OwnProps(url)
    ensures !url.Str? ==> forall k :: k in OwnProps(url) && k !in overrides ==> r.value.options[k] == OwnProps(url)[k]
    // string shape: fails exactly when the second argument is a truthy primitive
    ensures url.Str? ==> (r.Failure? <==> Truthy(options) && IsPrimitive(options))
    ensures url.Str? && r.Success? ==>
      forall k :: k in r.value.options <==> k == UrlKey || k in overrides || k in OwnProps(options)
    ensures url.Str? && r.Success? && UrlKey !in overrides ==> r.value.options[UrlKey] == url
    ensures url.Str? && r.Success? ==>
      forall k :: k in OwnProps(options) && k !in overrides && k != UrlKey ==> r.value.options[k] == OwnProps(options)[k]
    // string shape: the caller's object gains `url` and nothing else of it changes
    ensures url.Str? && r.Success? && options.Obj? ==>
      r.value.callerOptions.Obj? && r.value.callerOptions.fields.Keys == options.fields.Keys + {UrlKey}
      && r.value.callerOptions.fields[UrlKey] == url
      && forall k :: k in options.fields && k != UrlKey ==> r.value.callerOptions.fields[k] == options.fields[k]
    ensures url.Str? && r.Success? && !options.Obj? ==> r.value.callerOptions == options
  {
    if !url.Str? then
      var source := Or(url, Obj(map[]));
      AssignThree(map[], OwnProps(source), overrides);
      Success(Normalized(Assign([map[], OwnProps(source), overrides]), options))
    else
      var target := Or(options, Obj(map[]));
      if IsPrimitive(target) then
        Failure(TypeError("Cannot create property 'url' on a primitive value"))
      else
        var withUrl := OwnProps(target)[UrlKey := url];
        var caller := if options.Obj? then Obj(options.fields[UrlKey := url]) else options;
        AssignThree(map[], withUrl, overrides);
        Success(Normalized(Assign([map[], withUrl, overrides]), caller))
  }

  /**
   * One override of a key other than `url` only sets that key: the rest is what normalising with
   * no overrides gives, and the caller's object is affected in the same way.
   */
  lemma NormalizeSingleOverride(url: Value, options: Value, key: string, v: Value)
    requires key != UrlKey
    ensures Normalize(url, options, map[key := v]).Success? <==> Normalize(url, options, map[]).Success?
    ensures Normalize(url, options, map[key := v]).Success? ==>
      Normalize(url, options, map[key := v]).value ==
        var n := Normalize(url, options, map[]).value; Normalized(n.options[key := v], n.callerOptions)
  {
    var props := if url.Str? then OwnProps(Or(options, Obj(map[])))[UrlKey := url] else OwnProps(Or(url, Obj(map[])));
    AssignThree(map[], props, map[key := v]);
    AssignThree(map[], props, map[]);
    assert map[] + props + map[key := v] == (map[] + props)[key := v];
    assert map[] + props + map[] == map[] + props;
  }
}
