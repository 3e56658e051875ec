/** Configuration placeholders and running one function over every plugin.

    `process_env_variables` walks a configuration tree and overwrites, in
    place, every string `"env:NAME"` held by a dictionary or a list with the
    value of the environment variable NAME. `Resolve` states the resulting
    tree; `ProcessEnvVariables` is the walk itself, one entry at a time. The
    environment is a map passed in by the caller. */
module Utils {
  import opened Wrappers
  import opened Text
  import opened Dicts
  import opened JsonValue
  import opened Models
  import opened Proximity

  const EnvPrefix: string := "env:"

  /** A string that names an environment variable. */
  predicate IsPlaceholder(v: Json)
  {
    v.JStr? && StartsWith(v.s, EnvPrefix)
  }

  function PlaceholderName(v: Json): string
    requires IsPlaceholder(v)
  {
    v.s[|EnvPrefix|..]
  }

  function NotFound(name: string): Error
  {
    RuntimeError("Environment variable '" + name + "' not found")
  }

  /** The tree after substitution. Only the entries of dictionaries and lists
      are looked at, so a bare top-level string is returned as it is. */
  function Resolve(env: map<string, string>, j: Json): (r: Result<Json>)
    ensures !(j.JArr? || j.JObj?) ==> r == Ok(j)
    decreases j, 1
  {
    match j
    case JArr(xs) =>
      var ys :- ResolveItems(env, j, |xs|);
      Ok(JArr(ys))
    case JObj(fs) =>
      var gs :- ResolveFields(env, j, |fs|);
      Ok(JObj(gs))
    case _ => Ok(j)
  }

  /** One entry: a placeholder is replaced by its variable's value, or fails
      when the variable is not set; a nested container is resolved; anything
      else stays. */
  function ResolveEntry(env: map<string, string>, v: Json): (r: Result<Json>)
    decreases v, 2
  {
    if IsPlaceholder(v) then
      var name := PlaceholderName(v);
      if name in env then Ok(JStr(env[name])) else Err(NotFound(name))
    else if v.JArr? || v.JObj? then Resolve(env, v)
    else Ok(v)
  }

  /** The first `n` items of a list, resolved in order. */
  function ResolveItems(env: map<string, string>, j: Json, n: nat): (r: Result<seq<Json>>)
    requires j.JArr? && n <= |j.items|
    decreases j, 0, n
  {
    if n == 0 then Ok([])
    else
      var done :- ResolveItems(env, j, n - 1);
      var y :- ResolveEntry(env, j.items[n - 1]);
      Ok(done + [y])
  }

  /** The first `n` fields of a dictionary, resolved in order; keys stay. */
  function ResolveFields(env: map<string, string>, j: Json, n: nat): (r: Result<Dict<string, Json>>)
    requires j.JObj? && n <= |j.fields|
    decreases j, 0, n
  {
    if n == 0 then Ok([])
    else
      var done :- ResolveFields(env, j, n - 1);
      var y :- ResolveEntry(env, j.fields[n - 1].value);
      Ok(done + [Pair(j.fields[n - 1].key, y)])
  }

  // ---------------------------------------------------------------------------
  // What the substitution promises

  /** Every placeholder inside the tree names a variable that is set. */
  ghost predicate Defined(env: map<string, string>, j: Json)
    decreases j, 0
  {
    match j
    case JArr(xs) => forall i :: 0 <= i < |xs| ==> EntryDefined(env, xs[i])
    case JObj(fs) => forall i :: 0 <= i < |fs| ==> EntryDefined(env, fs[i].value)
    case _ => true
  }

  ghost predicate EntryDefined(env: map<string, string>, v: Json)
    decreases v, 1
  {
    if IsPlaceholder(v) then PlaceholderName(v) in env else Defined(env, v)
  }

  /** No entry anywhere in the tree is a placeholder. */
  ghost predicate NoPlaceholders(j: Json)
    decreases j, 0
  {
    match j
    case JArr(xs) => forall i :: 0 <= i < |xs| ==> !IsPlaceholder(xs[i]) && NoPlaceholders(xs[i])
    case JObj(fs) => forall i :: 0 <= i < |fs| ==> !IsPlaceholder(fs[i].value) && NoPlaceholders(fs[i].value)
    case _ => true
  }

  /** Substitution succeeds exactly when every placeholder's variable is set,
      and then keeps the shape of the tree: a list of as many items, each the
      resolved item; a dictionary with the same keys in the same order, each
      value resolved. */
  lemma {:induction false} ResolveSpec(env: map<string, string>, j: Json)
    ensures Resolve(env, j).Ok? <==> Defined(env, j)
    ensures j.JArr? && Resolve(env, j).Ok? ==>
              var ys := Resolve(env, j).value;
              ys.JArr? && |ys.items| == |j.items|
              && forall i :: 0 <= i < |j.items| ==> ResolveEntry(env, j.items[i]) == Ok(ys.items[i])
    ensures j.JObj? && Resolve(env, j).Ok? ==>
              var gs := Resolve(env, j).value;
              gs.JObj? && |gs.fields| == |j.fields|
              && forall i :: 0 <= i < |j.fields| ==>
                   gs.fields[i].key == j.fields[i].key && ResolveEntry(env, j.fields[i].value) == Ok(gs.fields[i].value)
    decreases j, 1
  {
    match j
    case JArr(xs) => ItemsSpec(env, j, |xs|);
    case JObj(fs) => FieldsSpec(env, j, |fs|);
    case _ =>
  }

  lemma {:induction false} EntrySpec(env: map<string, string>, v: Json)
    ensures ResolveEntry(env, v).Ok? <==> EntryDefined(env, v)
    decreases v, 2
  {
    if !IsPlaceholder(v) && (v.JArr? || v.JObj?) {
      ResolveSpec(env, v);
    }
  }

  lemma {:induction false} ItemsSpec(env: map<string, string>, j: Json, n: nat)
    requires j.JArr? && n <= |j.items|
    ensures ResolveItems(env, j, n).Ok? <==> forall i :: 0 <= i < n ==> EntryDefined(env, j.items[i])
    ensures ResolveItems(env, j, n).Ok? ==>
              |ResolveItems(env, j, n).value| == n
              && forall i :: 0 <= i < n ==> ResolveEntry(env, j.items[i]) == Ok(ResolveItems(env, j, n).value[i])
    decreases j, 0, n
  {
    if n > 0 {
      ItemsSpec(env, j, n - 1);
      EntrySpec(env, j.items[n - 1]);
    }
  }

  lemma {:induction false} FieldsSpec(env: map<string, string>, j: Json, n: nat)
    requires j.JObj? && n <= |j.fields|
    ensures ResolveFields(env, j, n).Ok? <==> forall i :: 0 <= i < n ==> EntryDefined(env, j.fields[i].value)
    ensures ResolveFields(env, j, n).Ok? ==>
              |ResolveFields(env, j, n).value| == n
              && forall i :: 0 <= i < n ==>
                   ResolveFields(env, j, n).value[i].key == j.fields[i].key
                   && ResolveEntry(env, j.fields[i].value) == Ok(ResolveFields(env, j, n).value[i].value)
    decreases j, 0, n
  {
    if n > 0 {
      FieldsSpec(env, j, n - 1);
      EntrySpec(env, j.fields[n - 1].value);
    }
  }

  /** A tree without placeholders comes back unchanged, whatever the
      environment. */
  lemma {:induction false} ResolveNoPlaceholders(env: map<string, string>, j: Json)
    requires NoPlaceholders(j)
    ensures Resolve(env, j) == Ok(j)
    decreases j, 1
  {
    match j
    case JArr(xs) =>
      UnchangedItems(env, j, |xs|);
      assert xs[..|xs|] == xs;
    case JObj(fs) =>
      UnchangedFields(env, j, |fs|);
      assert fs[..|fs|] == fs;
    case _ =>
  }

  lemma {:induction false} UnchangedItems(env: map<string, string>, j: Json, n: nat)
    requires j.JArr? && n <= |j.items| && NoPlaceholders(j)
    ensures ResolveItems(env, j, n) == Ok(j.items[..n])
    decreases j, 0, n
  {
    if n > 0 {
      UnchangedItems(env, j, n - 1);
      var v := j.items[n - 1];
      if v.JArr? || v.JObj? {
        ResolveNoPlaceholders(env, v);
      }
      assert j.items[..n] == j.items[..n - 1] + [v];
    }
  }

  lemma {:induction false} UnchangedFields(env: map<string, string>, j: Json, n: nat)
    requires j.JObj? && n <= |j.fields| && NoPlaceholders(j)
    ensures ResolveFields(env, j, n) == Ok(j.fields[..n])
    decreases j, 0, n
  {
    if n > 0 {
      UnchangedFields(env, j, n - 1);
      var v := j.fields[n - 1].value;
      if v.JArr? || v.JObj? {
        ResolveNoPlaceholders(env, v);
      }
      assert j.fields[..n] == j.fields[..n - 1] + [Pair(j.fields[n - 1].key, v)];
    }
  }

  /** Substitution is a single pass: a variable's value is stored verbatim,
      even when it is itself a placeholder. */
  lemma SinglePass(env: map<string, string>, name: string)
    requires name in env
    ensures Resolve(env, JArr([JStr(EnvPrefix + name)])) == Ok(JArr([JStr(env[name])]))
  {
    var j := JArr([JStr(EnvPrefix + name)]);
    assert StartsWith(EnvPrefix + name, EnvPrefix);
    assert PlaceholderName(JStr(EnvPrefix + name)) == name;
    assert ResolveEntry(env, j.items[0]) == Ok(JStr(env[name]));
    assert ResolveItems(env, j, 0) == Ok([]);
    assert [] + [JStr(env[name])] == [JStr(env[name])];
  }

  /** Substitution fails only for a placeholder whose variable is not set,
      and names that variable. */
  lemma {:induction false} MissingVariable(env: map<string, string>, j: Json)
    ensures Resolve(env, j).Err? ==> exists n :: n !in env && Resolve(env, j).error == NotFound(n)
    decreases j, 1
  {
    match j
    case JArr(xs) => ItemsMissing(env, j, |xs|);
    case JObj(fs) => FieldsMissing(env, j, |fs|);
    case _ =>
  }

  lemma {:induction false} EntryMissing(env: map<string, string>, v: Json)
    ensures ResolveEntry(env, v).Err? ==> exists n :: n !in env && ResolveEntry(env, v).error == NotFound(n)
    decreases v, 2
  {
    if IsPlaceholder(v) {
      var name := PlaceholderName(v);
      if name !in env {
        assert ResolveEntry(env, v).error == NotFound(name);
      }
    } else if v.JArr? || v.JObj? {
      MissingVariable(env, v);
    }
  }

  lemma {:induction false} ItemsMissing(env: map<string, string>, j: Json, k: nat)
    requires j.JArr? && k <= |j.items|
    ensures ResolveItems(env, j, k).Err? ==> exists n :: n !in env && ResolveItems(env, j, k).error == NotFound(n)
    decreases j, 0, k
  {
    if k > 0 {
      ItemsMissing(env, j, k - 1);
      EntryMissing(env, j.items[k - 1]);
    }
  }

  lemma {:induction false} FieldsMissing(env: map<string, string>, j: Json, k: nat)
    requires j.JObj? && k <= |j.fields|
    ensures ResolveFields(env, j, k).Err? ==> exists n :: n !in env && ResolveFields(env, j, k).error == NotFound(n)
    decreases j, 0, k
  {
    if k > 0 {
      FieldsMissing(env, j, k - 1);
      EntryMissing(env, j.fields[k - 1].value);
    }
  }

  lemma {:induction false} ItemsPrefixErr(env: map<string, string>, j: Json, i: nat, n: nat)
    requires j.JArr? && i <= n <= |j.items|
    requires ResolveItems(env, j, i).Err?
    ensures ResolveItems(env, j, n) == ResolveItems(env, j, i)
    decreases n
  {
    if i < n {
      ItemsPrefixErr(env, j, i, n - 1);
    }
  }

  lemma {:induction false} FieldsPrefixErr(env: map<string, string>, j: Json, i: nat, n: nat)
    requires j.JObj? && i <= n <= |j.fields|
    requires ResolveFields(env, j, i).Err?
    ensures ResolveFields(env, j, n) == ResolveFields(env, j, i)
    decreases n
  {
    if i < n {
      FieldsPrefixErr(env, j, i, n - 1);
    }
  }

  // ---------------------------------------------------------------------------
  // The walk

  /** `process_env_variables(config)`: overwrites each entry of a list or a
      dictionary in turn, recursing into nested containers, and stops at
      the first variable that is not set. */
  method ProcessEnvVariables(env: map<string, string>, config: Json) returns (r: Result<Json>)
    ensures r == Resolve(env, config)
    decreases config, 1
  {
    match config
    case JArr(xs) =>
      var items := ProcessItems(env, config);
      if items.Err? {
        return Err(items.error);
      }
      return Ok(JArr(items.value));
    case JObj(fs) =>
      var fields := ProcessFields(env, config);
      if fields.Err? {
        return Err(fields.error);
      }
      return Ok(JObj(fields.value));
    case _ =>
      return Ok(config);
  }

  /** One entry, as the walk treats it. */
  method ProcessEntry(env: map<string, string>, v: Json) returns (r: Result<Json>)
    ensures r == ResolveEntry(env, v)
    decreases v, 2
  {
    if IsPlaceholder(v) {
      var name := PlaceholderName(v);
      if name !in env {
        return Err(NotFound(name));
      }
      return Ok(JStr(env[name]));
    } else if v.JArr? || v.JObj? {
      r := ProcessEnvVariables(env, v);
    } else {
      return Ok(v);
    }
  }

  /** The loop over a list: `config[index] = ...` for each item in turn. */
  method ProcessItems(env: map<string, string>, config: Json) returns (r: Result<seq<Json>>)
    requires config.JArr?
    ensures r == ResolveItems(env, config, |config.items|)
    decreases config, 0
  {
    var xs := config.items;
    var items := xs;
    var i := 0;
    while i < |items|
      invariant 0 <= i <= |items| == |xs|
      invariant forall k :: i <= k < |items| ==> items[k] == xs[k]
      invariant ResolveItems(env, config, i) == Ok(items[..i])
    {
      var item := ProcessEntry(env, items[i]);
      if item.Err? {
        ItemsPrefixErr(env, config, i + 1, |xs|);
        return Err(item.error);
      }
      items := items[i := item.value];
      assert items[..i + 1] == items[..i] + [items[i]];
      i := i + 1;
    }
    assert items[..i] == items;
    return Ok(items);
  }

  /** The loop over a dictionary: `config[key] = ...` for each key in turn;
      every key keeps its position. */
  method ProcessFields(env: map<string, string>, config: Json) returns (r: Result<Dict<string, Json>>)
    requires config.JObj?
    ensures r == ResolveFields(env, config, |config.fields|)
    decreases config, 0
  {
    var fs := config.fields;
    var fields := fs;
    var i := 0;
    while i < |fields|
      invariant 0 <= i <= |fields| == |fs|
      invariant forall k :: i <= k < |fields| ==> fields[k] == fs[k]
      invariant ResolveFields(env, config, i) == Ok(fields[..i])
    {
      var value := ProcessEntry(env, fields[i].value);
      if value.Err? {
        FieldsPrefixErr(env, config, i + 1, |fs|);
        return Err(value.error);
      }
      fields := fields[i := Pair(fields[i].key, value.value)];
      assert fields[..i + 1] == fields[..i] + [fields[i]];
      i := i + 1;
    }
    assert fields[..i] == fields;
    return Ok(fields);
  }

  // ---------------------------------------------------------------------------
  // plugins_run_function

  /** The scoring plugins the engine can hold: the base class, the
      profile-proximity scorer, and any other scorer, given by what each of
      its named functions returns. */
  datatype ScoringPlugin =
    | Base(base: BaseScoringPlugin)
    | ProfileProximity(config: Json, loads: Loads)
    | Custom(config: Json, call: (string, AccessRequest, LlmPlugin) -> Result<Json>)

  /** `getattr(plugin, name)(request, llm)`. The built-in scorers have
      `compute_scores` (the proximity scorer only) and the inherited
      one-argument `score`; any other name is treated as one they lack. */
  function Invoke(p: ScoringPlugin, name: string, request: AccessRequest, llm: LlmPlugin): (r: Result<Json>)
    ensures p.ProfileProximity? && name == "compute_scores" ==> r == ProximityScore(request, llm, p.loads)
    ensures p.Custom? ==> r == p.call(name, request, llm)
    ensures !p.Custom? && name == "score" ==> r == Err(TypeError)
    ensures !p.Custom? && name != "score" && !(p.ProfileProximity? && name == "compute_scores") ==> r == Err(AttributeError)
  {
    match p
    case Custom(_, call) => call(name, request, llm)
    case ProfileProximity(_, loads) =>
      if name == "score" then Err(TypeError)
      else if name == "compute_scores" then ProximityScore(request, llm, loads)
      else Err(AttributeError)
    case Base(_) =>
      if name == "score" then Err(TypeError) else Err(AttributeError)
  }

  /** The results of calling `name` on each plugin, in order; the first
      failure otherwise. */
  function RunAll(plugins: seq<ScoringPlugin>, name: string, request: AccessRequest, llm: LlmPlugin): Result<seq<Json>>
    decreases |plugins|
  {
    if plugins == [] then Ok([])
    else
      var rs :- RunAll(plugins[..|plugins| - 1], name, request, llm);
      var x :- Invoke(plugins[|plugins| - 1], name, request, llm);
      Ok(rs + [x])
  }

  /** One result per plugin, each from the same call, when every call
      succeeds; otherwise the error of the first plugin that fails. */
  lemma {:induction false} RunAllSpec(plugins: seq<ScoringPlugin>, name: string, request: AccessRequest, llm: LlmPlugin)
    ensures var r := RunAll(plugins, name, request, llm);
            (r.Ok? <==> forall i :: 0 <= i < |plugins| ==> Invoke(plugins[i], name, request, llm).Ok?)
            && (r.Ok? ==> |r.value| == |plugins|
                          && forall i :: 0 <= i < |plugins| ==> Invoke(plugins[i], name, request, llm) == Ok(r.value[i]))
            && (r.Err? ==> exists k :: 0 <= k < |plugins|
                             && (forall i :: 0 <= i < k ==> Invoke(plugins[i], name, request, llm).Ok?)
                             && Invoke(plugins[k], name, request, llm) == Err(r.error))
    decreases |plugins|
  {
    if plugins != [] {
      var n := |plugins| - 1;
      var front := plugins[..n];
      RunAllSpec(front, name, request, llm);
      assert forall i :: 0 <= i < n ==> front[i] == plugins[i];
      var r0 := RunAll(front, name, request, llm);
      if r0.Err? {
        var k :| 0 <= k < n && (forall i :: 0 <= i < k ==> Invoke(front[i], name, request, llm).Ok?)
                 && Invoke(front[k], name, request, llm) == Err(r0.error);
        assert Invoke(plugins[k], name, request, llm) == Err(r0.error);
      }
    }
  }

  lemma {:induction false} RunAllPrefixErr(plugins: seq<ScoringPlugin>, i: nat, name: string, request: AccessRequest, llm: LlmPlugin)
    requires i <= |plugins|
    requires RunAll(plugins[..i], name, request, llm).Err?
    ensures RunAll(plugins, name, request, llm) == RunAll(plugins[..i], name, request, llm)
    decreases |plugins| - i
  {
    if i < |plugins| {
      var n := |plugins|;
      assert RunAll(plugins[..n - 1], name, request, llm) == RunAll(plugins[..i], name, request, llm) by {
        assert plugins[..n - 1][..i] == plugins[..i];
        RunAllPrefixErr(plugins[..n - 1], i, name, request, llm);
      }
    } else {
      assert plugins[..i] == plugins;
    }
  }

  /** `plugins_run_function(plugins, name, request, llm)`: appends each
      plugin's result in turn. */
  method PluginsRunFunction(plugins: seq<ScoringPlugin>, name: string, request: AccessRequest, llm: LlmPlugin)
    returns (r: Result<seq<Json>>)
    ensures r == RunAll(plugins, name, request, llm)
  {
    var results: seq<Json> := [];
    var i := 0;
    while i < |plugins|
      invariant 0 <= i <= |plugins|
      invariant RunAll(plugins[..i], name, request, llm) == Ok(results)
    {
      var x := Invoke(plugins[i], name, request, llm);
      assert plugins[..i + 1][..i] == plugins[..i];
      if x.Err? {
        RunAllPrefixErr(plugins, i + 1, name, request, llm);
        return Err(x.error);
      }
      results := results + [x.value];
      i := i + 1;
    }
    assert plugins[..i] == plugins;
    r := Ok(results);
  }
}
