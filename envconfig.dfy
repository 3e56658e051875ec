/** The configuration built from environment variables when no configuration
    file is given (`_config_from_environment`).

    A variable `GADJIT__GADJIT__<OPTION>` sets an option of the `gadjit`
    section; `GADJIT__<KIND>__PLUGINS__<N>__<KEY>` sets a key of the N-th
    plugin of that kind, and `GADJIT__<KIND>__PLUGINS__<N>__<KEY>__<SUB>` a
    key inside a dictionary held under KEY. The variable name is split on
    `__`, so the first word only has to start with `GADJIT_`. */
module EnvConfig {
  import opened Wrappers
  import opened Text
  import opened Dicts
  import opened JsonValue

  type Config = Dict<string, Json>

  const Prefix: string := "GADJIT_"
  const Separator: string := "__"
  const GadjitSection: string := "gadjit"

  // ---------------------------------------------------------------------------
  // int(text)

  predicate IsDigit(c: char)
  {
    '0' <= c <= '9'
  }

  /** Decimal digits, with single underscores allowed between two digits. */
  predicate ValidDigits(b: string)
  {
    b != [] && IsDigit(b[0]) && IsDigit(b[|b| - 1])
    && (forall i :: 0 <= i < |b| ==> IsDigit(b[i]) || b[i] == '_')
    && (forall i :: 0 <= i < |b| - 1 ==> b[i] == '_' ==> b[i + 1] != '_')
  }

  /** The number the digits spell, underscores skipped. */
  function DigitsValue(b: string): nat
    decreases |b|
  {
    if b == [] then 0
    else if IsDigit(b[|b| - 1]) then DigitsValue(b[..|b| - 1]) * 10 + (b[|b| - 1] as int - '0' as int)
    else DigitsValue(b[..|b| - 1])
  }

  /** `int(text)`: surrounding whitespace, an optional sign, then digits
      (ASCII only); anything else raises ValueError. */
  function ParseInt(text: string): (r: Result<int>)
    ensures r.Err? ==> r.error.ValueError?
  {
    match ParseSigned(Strip(text))
    case None => Err(ValueError("invalid literal for int() with base 10: '" + text + "'"))
    case Some(v) => Ok(v)
  }

  /** An optional sign followed by digits. */
  function ParseSigned(t: string): Option<int>
  {
    var negative := t != [] && t[0] == '-';
    var body := if t != [] && (t[0] == '-' || t[0] == '+') then t[1..] else t;
    if !ValidDigits(body) then None
    else if negative then Some(-(DigitsValue(body) as int))
    else Some(DigitsValue(body))
  }

  /** The decimal spelling of a natural number. */
  function NatString(n: nat): (s: string)
    ensures s != [] && forall i :: 0 <= i < |s| ==> IsDigit(s[i])
  {
    if n < 10 then [('0' as int + n) as char]
    else NatString(n / 10) + [('0' as int + n % 10) as char]
  }

  lemma {:induction false} DigitsValueNatString(n: nat)
    ensures DigitsValue(NatString(n)) == n
  {
    var s := NatString(n);
    if n < 10 {
      assert s[..0] == [];
    } else {
      DigitsValueNatString(n / 10);
      assert s[..|s| - 1] == NatString(n / 10);
    }
  }

  lemma AllDigitsValid(s: string)
    requires s != [] && forall i :: 0 <= i < |s| ==> IsDigit(s[i])
    ensures ValidDigits(s)
    ensures !IsSpace(s[0]) && !IsSpace(s[|s| - 1]) && s[0] != '-' && s[0] != '+'
  {
  }

  /** `int` reads back every number written in decimal, with or without a
      minus sign. */
  lemma ParseIntNatString(n: nat)
    ensures ParseInt(NatString(n)) == Ok(n)
    ensures ParseInt("-" + NatString(n)).Ok? && ParseInt("-" + NatString(n)).value == -(n as int)
  {
    DigitsValueNatString(n);
    ParseIntDigits(NatString(n));
    ParseIntNegativeDigits(NatString(n));
  }

  lemma ParseIntDigits(s: string)
    requires s != [] && forall i :: 0 <= i < |s| ==> IsDigit(s[i])
    ensures ParseInt(s) == Ok(DigitsValue(s))
  {
    assert Strip(s) == s && ParseSigned(s) == Some(DigitsValue(s)) by {
      AllDigitsValid(s);
      StripNoEdges(s);
    }
    ParseIntOf(s, DigitsValue(s));
  }

  lemma ParseIntOf(t: string, v: int)
    requires ParseSigned(Strip(t)) == Some(v)
    ensures ParseInt(t) == Ok(v)
  {
  }

  lemma ParseIntNegativeDigits(s: string)
    requires s != [] && forall i :: 0 <= i < |s| ==> IsDigit(s[i])
    ensures ParseInt("-" + s).Ok? && ParseInt("-" + s).value == -(DigitsValue(s) as int)
  {
    AllDigitsValid(s);
    var m := "-" + s;
    SignedNegative(s);
    assert m[0] == '-' && m[|m| - 1] == s[|s| - 1];
    ParseIntNoEdges(m);
  }

  lemma SignedNegative(s: string)
    requires ValidDigits(s)
    ensures ParseSigned("-" + s).Some? && ParseSigned("-" + s).value == -(DigitsValue(s) as int)
  {
    assert ("-" + s)[1..] == s;
  }

  /** Text without surrounding whitespace is parsed as it is. */
  lemma ParseIntNoEdges(t: string)
    requires t != [] && !IsSpace(t[0]) && !IsSpace(t[|t| - 1])
    ensures ParseSigned(t).Some? ==> ParseInt(t).Ok? && ParseInt(t).value == ParseSigned(t).value
  {
    StripNoEdges(t);
  }

  // ---------------------------------------------------------------------------
  // One environment entry

  /** `value.lower() in ["true"] if value.lower() in ["true", "false"] else
      value`. */
  function Coerce(value: string): (j: Json)
    ensures j.JBool? <==> Lower(value) == "true" || Lower(value) == "false"
    ensures j.JBool? ==> (j.b <==> Lower(value) == "true")
    ensures !j.JBool? ==> j == JStr(value)
  {
    if Lower(value) == "true" then JBool(true)
    else if Lower(value) == "false" then JBool(false)
    else JStr(value)
  }

  /** The entry appended for a plugin index that is one past the end. */
  const NewPluginEntry: Json := JObj([Pair("name", JNull), Pair("enabled", JNull), Pair("config", JNull)])

  /** Python list indexing: a negative index counts from the end. */
  function PyIndex(idx: int, n: nat): (r: Option<nat>)
    ensures r.Some? <==> -(n as int) <= idx < n
    ensures r.Some? ==> r.value < n && (idx >= 0 ==> r.value == idx) && (idx < 0 ==> r.value == n + idx)
  {
    if 0 <= idx < n then Some(idx)
    else if -(n as int) <= idx < 0 then Some(n + idx)
    else None
  }

  /** `try: plugins[idx] except IndexError: plugins.append({...})`. */
  function EnsureIndex(items: seq<Json>, idx: int): (r: seq<Json>)
    ensures PyIndex(idx, |items|).Some? ==> r == items
    ensures PyIndex(idx, |items|).None? ==> r == items + [NewPluginEntry]
  {
    if PyIndex(idx, |items|).Some? then items else items + [NewPluginEntry]
  }

  /** Sets `entry[key]` to the coerced value, or, with a sub-key, stores the
      raw value under `entry[key][sub]`: the key must be present, a falsy
      value there is first replaced by `{}`, and anything else but a
      dictionary has no `update`. */
  function SetPluginKey(entry: Json, key: string, sub: Option<string>, value: string): (r: Result<Json>)
    ensures r.Ok? ==> r.value.JObj?
    ensures !entry.JObj? ==> r == Err(TypeError)
    ensures entry.JObj? && sub.None? ==>
              r.Ok? && Get(r.value.fields, key) == Some(Coerce(value))
              && forall k :: k != key ==> Get(r.value.fields, k) == Get(entry.fields, k)
    ensures entry.JObj? && sub.Some? && Get(entry.fields, key).None? ==> r == Err(KeyError(key))
    ensures entry.JObj? && sub.Some? && Get(entry.fields, key).Some? ==>
              var cur := Get(entry.fields, key).value;
              (Truthy(cur) && !cur.JObj? ==> r == Err(AttributeError))
              && (cur.JObj? || !Truthy(cur) ==>
                    var inner := if Truthy(cur) then cur.fields else [];
                    r.Ok? && Get(r.value.fields, key) == Some(JObj(Put(inner, sub.value, JStr(value))))
                    && forall k :: k != key ==> Get(r.value.fields, k) == Get(entry.fields, k))
  {
    match entry
    case JObj(fs) =>
      if sub.None? then Ok(JObj(Put(fs, key, Coerce(value))))
      else
        (match Get(fs, key)
         case None => Err(KeyError(key))
         case Some(cur) =>
           var d := if Truthy(cur) then cur else JObj([]);
           (match d
            case JObj(dfs) => Ok(JObj(Put(fs, key, JObj(Put(dfs, sub.value, JStr(value))))))
            case _ => Err(AttributeError)))
    case _ => Err(TypeError)
  }

  /** `config.setdefault("gadjit", {})[parts[2].lower()] = coerced value`. */
  function ApplyGadjit(config: Config, parts: seq<string>, value: string): Result<Config>
  {
    if |parts| < 3 then Err(IndexError)
    else
      match GetOr(config, GadjitSection, JObj([]))
      case JObj(fs) => Ok(Put(config, GadjitSection, JObj(Put(fs, Lower(parts[2]), Coerce(value)))))
      case _ => Err(TypeError)
  }

  /** The list a plugin section holds so far (none yet: empty). */
  function PluginList(config: Config, listKey: string): seq<Json>
  {
    var held: Option<Json> := Get(config, listKey);
    match held
    case Some(JArr(xs)) => xs
    case _ => []
  }

  /** `if not listKey in config: config[listKey] = []`. */
  function WithList(config: Config, listKey: string): (r: Config)
    ensures listKey in Keys(config) ==> r == config
    ensures listKey !in Keys(config) ==> r == Put(config, listKey, JArr([]))
  {
    if listKey in Keys(config) then config else Put(config, listKey, JArr([]))
  }

  /** `plugins[idx][key] = ...` on the list of one plugin kind, after the
      append for an index one past the end. */
  function SetInList(items: seq<Json>, idx: int, key: string, sub: Option<string>, value: string): (r: Result<seq<Json>>)
    ensures PyIndex(idx, |items| + 1).None? ==> r == Err(IndexError)
    ensures var items1 := EnsureIndex(items, idx);
            PyIndex(idx, |items| + 1).Some? ==>
              var i := PyIndex(idx, |items1|).value;
              (r.Err? <==> SetPluginKey(items1[i], key, sub, value).Err?)
              && (r.Err? ==> r.error == SetPluginKey(items1[i], key, sub, value).error)
              && (r.Ok? ==> |r.value| == |items1| && r.value[i] == SetPluginKey(items1[i], key, sub, value).value
                            && forall j :: 0 <= j < |items1| && j != i ==> r.value[j] == items1[j])
    ensures (forall i :: 0 <= i < |items| ==> items[i].JObj?) ==>
              (r.Ok? ==> forall i :: 0 <= i < |r.value| ==> r.value[i].JObj?) && (r.Err? ==> r.error != TypeError)
  {
    var items1 := EnsureIndex(items, idx);
    match PyIndex(idx, |items1|)
    case None => Err(IndexError)
    case Some(i) =>
      var entry :- SetPluginKey(items1[i], key, sub, value);
      Ok(items1[i := entry])
  }

  /** `config[f"{section}_plugins"][int(parts[3])][parts[4].lower()] = ...`,
      creating the list and appending one entry as needed. */
  function ApplyPlugin(config: Config, parts: seq<string>, value: string): Result<Config>
    requires |parts| >= 2
  {
    if |parts| < 4 then Err(IndexError)
    else
      var idx :- ParseInt(parts[3]);
      if |parts| < 5 then Err(IndexError)
      else
        var listKey := Lower(parts[1]) + "_plugins";
        var sub := if |parts| > 5 then Some(Lower(parts[5])) else None;
        var config1 := WithList(config, listKey);
        var held: Option<Json> := Get(config1, listKey);
        match held
        case Some(JArr(items)) =>
          var items1 :- SetInList(items, idx, Lower(parts[4]), sub, value);
          Ok(Put(config1, listKey, JArr(items1)))
        case _ => Err(TypeError)
  }

  /** The effect of one environment variable on the configuration. */
  function ApplyEntry(config: Config, name: string, value: string): Result<Config>
  {
    if !StartsWith(name, Prefix) then Ok(config)
    else
      var parts := SplitBy(name, Separator);
      if |parts| < 2 then Err(IndexError)
      else if Lower(parts[1]) == GadjitSection then ApplyGadjit(config, parts, value)
      else ApplyPlugin(config, parts, value)
  }

  /** The configuration after the given variables, in order, from `{}`,
      each applied by `step`. */
  function Replay(step: (Config, string, string) -> Result<Config>, environ: seq<(string, string)>): Result<Config>
    decreases |environ|
  {
    if environ == [] then Ok([])
    else
      var config :- Replay(step, environ[..|environ| - 1]);
      step(config, environ[|environ| - 1].0, environ[|environ| - 1].1)
  }

  /** The configuration the environment variables describe. */
  function FromEnvironment(environ: seq<(string, string)>): Result<Config>
  {
    Replay(ApplyEntry, environ)
  }

  lemma {:induction false} ReplayPrefixErr(step: (Config, string, string) -> Result<Config>,
                                           environ: seq<(string, string)>, i: nat)
    requires i <= |environ|
    requires Replay(step, environ[..i]).Err?
    ensures Replay(step, environ) == Replay(step, environ[..i])
    decreases |environ| - i
  {
    if i < |environ| {
      var n := |environ|;
      assert Replay(step, environ[..n - 1]) == Replay(step, environ[..i]) by {
        assert environ[..n - 1][..i] == environ[..i];
        ReplayPrefixErr(step, environ[..n - 1], i);
      }
    } else {
      assert environ[..i] == environ;
    }
  }

  lemma ReplayNext(step: (Config, string, string) -> Result<Config>, environ: seq<(string, string)>,
                   i: nat, config: Config)
    requires i < |environ| && Replay(step, environ[..i]) == Ok(config)
    ensures Replay(step, environ[..i + 1]) == step(config, environ[i].0, environ[i].1)
  {
    assert environ[..i + 1][..i] == environ[..i];
  }

  /** `_config_from_environment()`, over the variables in `os.environ`
      order. */
  method ConfigFromEnvironment(environ: seq<(string, string)>) returns (r: Result<Config>)
    ensures r == FromEnvironment(environ)
  {
    var config: Config := [];
    var i := 0;
    while i < |environ|
      invariant 0 <= i <= |environ|
      invariant Replay(ApplyEntry, environ[..i]) == Ok(config)
    {
      var (name, value) := environ[i];
      var next := ApplyEntry(config, name, value);
      ReplayNext(ApplyEntry, environ, i, config);
      if next.Err? {
        ReplayPrefixErr(ApplyEntry, environ, i + 1);
        return Err(next.error);
      }
      config := next.value;
      i := i + 1;
    }
    assert environ[..i] == environ;
    r := Ok(config);
  }

  // ---------------------------------------------------------------------------
  // What the environment configuration promises

  /** Variables without the prefix are ignored. */
  lemma IgnoresOtherVariables(config: Config, name: string, value: string)
    requires !StartsWith(name, Prefix)
    ensures ApplyEntry(config, name, value) == Ok(config)
  {
  }

  /** A prefixed name without any `__` has no section and raises
      IndexError; this is what single-underscore names such as
      `GADJIT_GADJIT_LOG_LEVEL` do. */
  lemma SingleUnderscoreIndexError(config: Config, name: string, value: string)
    requires StartsWith(name, Prefix)
    requires forall j :: !OccursAt(name, Separator, j)
    ensures ApplyEntry(config, name, value) == Err(IndexError)
  {
    assert IndexOf(name, Separator).None?;
  }

  /** The shape the environment configuration keeps: `gadjit` holds a dictionary and every
      other key a list of dictionaries. */
  ghost predicate WellShaped(config: Config)
  {
    forall k :: Get(config, k).Some? ==> ShapedAt(k, Get(config, k).value)
  }

  ghost predicate ShapedAt(k: string, v: Json)
  {
    if k == GadjitSection then v.JObj?
    else v.JArr? && forall i :: 0 <= i < |v.items| ==> v.items[i].JObj?
  }

  /** A `gadjit` option is stored, coerced, under its lower-cased name;
      nothing else changes. */
  lemma GadjitOption(config: Config, name: string, value: string)
    requires WellShaped(config)
    requires StartsWith(name, Prefix)
    requires var parts := SplitBy(name, Separator);
             |parts| >= 3 && Lower(parts[1]) == GadjitSection
    ensures var r := ApplyEntry(config, name, value);
            var option := Lower(SplitBy(name, Separator)[2]);
            r.Ok? && Get(r.value, GadjitSection).Some? && Get(r.value, GadjitSection).value.JObj?
            && Get(Get(r.value, GadjitSection).value.fields, option) == Some(Coerce(value))
            && (forall o :: o != option ==>
                  Get(Get(r.value, GadjitSection).value.fields, o)
                  == Get(GetOr(config, GadjitSection, JObj([])).fields, o))
            && (forall k :: k != GadjitSection ==> Get(r.value, k) == Get(config, k))
  {
    var g := GetOr(config, GadjitSection, JObj([]));
    assert g.JObj?;
  }

  /** A plugin variable whose index parses, on a list the configuration
      holds after `WithList`, fails or sets as `SetInList` says. */
  lemma ApplyPluginAt(config: Config, parts: seq<string>, value: string, items: seq<Json>)
    requires |parts| >= 5 && ParseInt(parts[3]).Ok?
    requires var listKey := Lower(parts[1]) + "_plugins";
             Get(WithList(config, listKey), listKey) == Some(JArr(items))
    ensures var listKey := Lower(parts[1]) + "_plugins";
            var sub := if |parts| > 5 then Some(Lower(parts[5])) else None;
            var r := SetInList(items, ParseInt(parts[3]).value, Lower(parts[4]), sub, value);
            ApplyPlugin(config, parts, value)
              == if r.Ok? then Ok(Put(WithList(config, listKey), listKey, JArr(r.value))) else Err(r.error)
  {
  }

  /** An index one past the end of a plugin list appends a fresh entry
      (`name`, `enabled` and `config` all `None`) and sets the key in it. */
  lemma PluginAppend(config: Config, parts: seq<string>, value: string)
    requires WellShaped(config)
    requires |parts| == 5 && Lower(parts[1]) != GadjitSection
    requires ParseInt(parts[3]) == Ok(|PluginList(config, Lower(parts[1]) + "_plugins")|)
    ensures var listKey := Lower(parts[1]) + "_plugins";
            var before := PluginList(config, listKey);
            var r := ApplyPlugin(config, parts, value);
            r.Ok? && Get(r.value, listKey)
                       == Some(JArr(before + [JObj(Put(NewPluginEntry.fields, Lower(parts[4]), Coerce(value)))]))
  {
    var listKey := Lower(parts[1]) + "_plugins";
    var before := PluginList(config, listKey);
    var items1 := before + [JObj(Put(NewPluginEntry.fields, Lower(parts[4]), Coerce(value)))];
    var config1 := WithList(config, listKey);
    assert Get(config1, listKey) == Some(JArr(before)) by {
      WithListHeld(config, parts[1]);
    }
    assert SetInList(before, |before|, Lower(parts[4]), None, value) == Ok(items1) by {
      SetInListAppend(before, Lower(parts[4]), value);
    }
    assert ApplyPlugin(config, parts, value) == Ok(Put(config1, listKey, JArr(items1))) by {
      ApplyPluginAt(config, parts, value, before);
    }
  }

  lemma WithListHeld(config: Config, section: string)
    requires WellShaped(config)
    ensures var listKey := Lower(section) + "_plugins";
            Get(WithList(config, listKey), listKey) == Some(JArr(PluginList(config, listKey)))
  {
    WithListShaped(config, section);
  }

  lemma SetInListAppend(items: seq<Json>, key: string, value: string)
    ensures SetInList(items, |items|, key, None, value)
         == Ok(items + [JObj(Put(NewPluginEntry.fields, key, Coerce(value)))])
  {
    var n := |items|;
    var e := JObj(Put(NewPluginEntry.fields, key, Coerce(value)));
    assert EnsureIndex(items, n) == items + [NewPluginEntry];
    assert PyIndex(n, n + 1) == Some(n);
    assert SetPluginKey(NewPluginEntry, key, None, value) == Ok(e);
    assert (items + [NewPluginEntry])[n := e] == items + [e];
  }

  /** An index more than one past the end (or before the start) raises
      IndexError even after the append. */
  lemma PluginIndexTooFar(config: Config, name: string, value: string, idx: int)
    requires WellShaped(config)
    requires StartsWith(name, Prefix)
    requires var parts := SplitBy(name, Separator);
             |parts| >= 5 && Lower(parts[1]) != GadjitSection && ParseInt(parts[3]) == Ok(idx)
    requires var n := |PluginList(config, Lower(SplitBy(name, Separator)[1]) + "_plugins")|;
             idx > n || idx < -(n + 1)
    ensures ApplyEntry(config, name, value) == Err(IndexError)
  {
    var parts := SplitBy(name, Separator);
    var listKey := Lower(parts[1]) + "_plugins";
    var items := PluginList(config, listKey);
    var sub := if |parts| > 5 then Some(Lower(parts[5])) else None;
    assert Get(WithList(config, listKey), listKey) == Some(JArr(items)) by {
      WithListHeld(config, parts[1]);
    }
    assert SetInList(items, idx, Lower(parts[4]), sub, value) == Err(IndexError);
    assert ApplyPlugin(config, parts, value) == Err(IndexError) by {
      ApplyPluginAt(config, parts, value, items);
    }
  }

  /** A sub-key needs the key to be there already: `name`, `enabled` and
      `config` always are, any other key only once set. */
  lemma SubKeyMissing(config: Config, name: string, value: string, idx: nat)
    requires WellShaped(config)
    requires StartsWith(name, Prefix)
    requires var parts := SplitBy(name, Separator);
             |parts| > 5 && Lower(parts[1]) != GadjitSection && ParseInt(parts[3]) == Ok(idx)
    requires var parts := SplitBy(name, Separator);
             var items := PluginList(config, Lower(parts[1]) + "_plugins");
             idx < |items| && Lower(parts[4]) !in Keys(items[idx].fields)
    ensures ApplyEntry(config, name, value) == Err(KeyError(Lower(SplitBy(name, Separator)[4])))
  {
    var parts := SplitBy(name, Separator);
    var listKey := Lower(parts[1]) + "_plugins";
    WithListShaped(config, parts[1]);
    var items := PluginList(config, listKey);
    assert idx < |items|;
    assert Get(config, listKey).Some?;
    assert ShapedAt(listKey, Get(config, listKey).value);
    assert items[idx].JObj?;
    assert SetPluginKey(items[idx], Lower(parts[4]), Some(Lower(parts[5])), value) == Err(KeyError(Lower(parts[4])));
  }

  /** Adding the list of a plugin kind keeps the shape, and the list is then
      the one the kind held so far. */
  lemma WithListShaped(config: Config, section: string)
    requires WellShaped(config)
    ensures var listKey := Lower(section) + "_plugins";
            listKey != GadjitSection
            && WellShaped(WithList(config, listKey))
            && Get(WithList(config, listKey), listKey) == Some(JArr(PluginList(config, listKey)))
  {
    var listKey := Lower(section) + "_plugins";
    assert |listKey| >= 8;
    var c := WithList(config, listKey);
    forall k | Get(c, k).Some? ensures ShapedAt(k, Get(c, k).value) {
      if k != listKey {
        assert Get(c, k) == Get(config, k);
      }
    }
    if listKey in Keys(config) {
      assert ShapedAt(listKey, Get(config, listKey).value);
    }
  }

  /** Every entry keeps the configuration well shaped, and so never meets a
      value of the wrong kind (no TypeError). */
  lemma ApplyEntryShaped(config: Config, name: string, value: string)
    requires WellShaped(config)
    ensures var r := ApplyEntry(config, name, value);
            (r.Ok? ==> WellShaped(r.value)) && (r.Err? ==> r.error != TypeError)
  {
    if StartsWith(name, Prefix) {
      var parts := SplitBy(name, Separator);
      if |parts| >= 2 {
        if Lower(parts[1]) == GadjitSection {
          ApplyGadjitShaped(config, parts, value);
        } else {
          ApplyPluginShaped(config, parts, value);
        }
      }
    }
  }

  lemma ApplyGadjitShaped(config: Config, parts: seq<string>, value: string)
    requires WellShaped(config)
    ensures var r := ApplyGadjit(config, parts, value);
            (r.Ok? ==> WellShaped(r.value)) && (r.Err? ==> r.error != TypeError)
  {
    if |parts| >= 3 {
      var g := GetOr(config, GadjitSection, JObj([]));
      assert g.JObj?;
      var r := Put(config, GadjitSection, JObj(Put(g.fields, Lower(parts[2]), Coerce(value))));
      forall k | Get(r, k).Some? ensures ShapedAt(k, Get(r, k).value) {
        if k != GadjitSection {
          assert Get(r, k) == Get(config, k);
        }
      }
    }
  }

  lemma ApplyPluginShaped(config: Config, parts: seq<string>, value: string)
    requires WellShaped(config)
    requires |parts| >= 2 && Lower(parts[1]) != GadjitSection
    ensures var r := ApplyPlugin(config, parts, value);
            (r.Ok? ==> WellShaped(r.value)) && (r.Err? ==> r.error != TypeError)
  {
    if |parts| >= 5 && ParseInt(parts[3]).Ok? {
      var listKey := Lower(parts[1]) + "_plugins";
      WithListShaped(config, parts[1]);
      var config1 := WithList(config, listKey);
      var items := PluginList(config, listKey);
      assert ShapedAt(listKey, Get(config1, listKey).value);
      var sub := if |parts| > 5 then Some(Lower(parts[5])) else None;
      var items1 := SetInList(items, ParseInt(parts[3]).value, Lower(parts[4]), sub, value);
      if items1.Ok? {
        var r := Put(config1, listKey, JArr(items1.value));
        forall k | Get(r, k).Some? ensures ShapedAt(k, Get(r, k).value) {
          if k != listKey {
            assert Get(r, k) == Get(config1, k);
          }
        }
      }
    }
  }

  /** The whole environment configuration keeps the shape and never raises TypeError. */
  lemma {:induction false} FromEnvironmentShaped(environ: seq<(string, string)>)
    ensures var r := FromEnvironment(environ);
            (r.Ok? ==> WellShaped(r.value)) && (r.Err? ==> r.error != TypeError)
    decreases |environ|
  {
    if environ != [] {
      var n := |environ| - 1;
      var prev := FromEnvironment(environ[..n]);
      assert (prev.Ok? ==> WellShaped(prev.value)) && (prev.Err? ==> prev.error != TypeError) by {
        FromEnvironmentShaped(environ[..n]);
      }
      if prev.Ok? {
        ApplyEntryShaped(prev.value, environ[n].0, environ[n].1);
      }
    }
  }
}
