/** The configuration registry: the default settings, the deep merge of the user's
    settings over them, the option properties, the index-to-models resolution, and the
    predicates that decide when the save/delete hooks dispatch work. */
module Apps {
  import opened Py
  import opened Models
  import opened Mixins

  /** `DEFAULT_TRAMPOLINE`. */
  const DefaultTrampoline: Value := Dict([
    ("CONNECTIONS", Dict([("default", Dict([("hosts", Str("localhost"))]))])),
    ("INDICES", Dict([])),
    ("OPTIONS", DefaultOptionsValue)])

  /** `DEFAULT_TRAMPOLINE['OPTIONS']`. */
  const DefaultOptionsValue: Value := Dict([
    ("fail_silently", Bool(true)),
    ("disabled", Bool(false)),
    ("celery_queue", Null)])

  // ---------------------------------------------------------------------------
  // recursive_update

  /** The value `recursive_update(d, u)` leaves once the loop has handled the items of `u`
      from position `i` on. Its loop writes into `d`, so a `d` that is not a dict raises at
      the first item: `d.get` (AttributeError) for a mapping item, `d[k] = ...`
      (TypeError) for any other; with no item left, `d` is returned as it is. */
  function Update(d: Value, u: Value, i: nat): Result<Value>
    requires u.Dict? && i <= |u.entries|
    decreases u, |u.entries| - i
  {
    if i == |u.entries| then Ok(d)
    else if !d.Dict? then Err(if u.entries[i].1.Dict? then AttributeError else TypeError)
    else
      var k := u.entries[i].0;
      match Override(Get(d.entries, k), u.entries[i].1)
      case Err(e) => Err(e)
      case Ok(w) => Update(Dict(Put(d.entries, k, w)), u, i + 1)
  }

  /** The value `d[k]` gets from the override `v`: a mapping is merged into the old value
      (an empty dict when the key is absent), anything else replaces it. */
  function Override(current: Option<Value>, v: Value): Result<Value>
    decreases v, if v.Dict? then |v.entries| + 1 else 0
  {
    if v.Dict? then Update(current.GetOr(Dict([])), v, 0) else Ok(v)
  }

  /** `recursive_update(d, u)`: for each item of `u` in order, a mapping is merged
      recursively into `d.get(k, {})` and stored back, anything else overwrites `d[k]`. */
  method RecursiveUpdate(d: Value, u: Entries) returns (r: Result<Value>)
    ensures r == Update(d, Dict(u), 0)
    decreases Dict(u)
  {
    var cur := d;
    var i := 0;
    while i < |u|
      invariant 0 <= i <= |u|
      invariant Update(d, Dict(u), 0) == Update(cur, Dict(u), i)
    {
      UpdateAt(cur, u, i);
      var (k, v) := u[i];
      if !cur.Dict? {
        return Err(if v.Dict? then AttributeError else TypeError);
      }
      var w := v;
      if v.Dict? {
        assert v < Dict(u) by { assert u[i] in u; }
        var merged := RecursiveUpdate(Get(cur.entries, k).GetOr(Dict([])), v.entries);
        if merged.Err? {
          return Err(merged.error);
        }
        w := merged.value;
      }
      cur := Dict(Put(cur.entries, k, w));
      i := i + 1;
    }
    return Ok(cur);
  }

  /** The item at `i` of the loop in `recursive_update`, taken apart. */
  lemma UpdateAt(cur: Value, u: Entries, i: nat)
    requires i < |u|
    ensures !cur.Dict? ==> Update(cur, Dict(u), i) == Err(if u[i].1.Dict? then AttributeError else TypeError)
    ensures cur.Dict? ==>
              var o := Override(Get(cur.entries, u[i].0), u[i].1);
              && (o.Err? ==> Update(cur, Dict(u), i) == Err(o.error))
              && (o.Ok? ==> Update(cur, Dict(u), i) == Update(Dict(Put(cur.entries, u[i].0, o.value)), Dict(u), i + 1))
              && (u[i].1.Dict? ==> o == Update(Get(cur.entries, u[i].0).GetOr(Dict([])), u[i].1, 0))
              && (!u[i].1.Dict? ==> o == Ok(u[i].1))
  {
  }

  /** The value the merge of the pending items into `d` leaves under `k`. */
  function MergedGet(d: Value, pending: Entries, k: string): Option<Value>
    requires d.Dict?
  {
    match Get(pending, k)
    case None => Get(d.entries, k)
    case Some(v) =>
      var o := Override(Get(d.entries, k), v);
      if o.Ok? then Some(o.value) else None
  }

  /** One step of the merge: the item at `i` is applied, then the rest. */
  lemma UpdateStep(d: Value, u: Value, i: nat)
    requires d.Dict? && u.Dict? && i < |u.entries|
    requires Update(d, u, i).Ok?
    ensures Override(Get(d.entries, u.entries[i].0), u.entries[i].1).Ok?
    ensures Update(d, u, i)
            == Update(Dict(Put(d.entries, u.entries[i].0,
                               Override(Get(d.entries, u.entries[i].0), u.entries[i].1).value)), u, i + 1)
  {
  }

  /** Looking a key up in the items from `i` on: the item at `i` answers for its own key,
      and with distinct keys no later item carries that key. */
  lemma GetFrom(e: Entries, i: nat, k: string)
    requires i < |e| && DistinctKeys(e)
    ensures k == e[i].0 ==> Get(e[i..], k) == Some(e[i].1) && Get(e[i + 1..], k).None?
    ensures k != e[i].0 ==> Get(e[i..], k) == Get(e[i + 1..], k)
  {
    assert e[i..][1..] == e[i + 1..];
  }

  lemma {:induction false} UpdateFromGet(d: Value, u: Value, i: nat, k: string)
    requires d.Dict? && u.Dict? && i <= |u.entries| && DistinctKeys(u.entries)
    requires Update(d, u, i).Ok?
    ensures Update(d, u, i).value.Dict?
    ensures Get(u.entries[i..], k).Some? ==> Override(Get(d.entries, k), Get(u.entries[i..], k).value).Ok?
    ensures Get(Update(d, u, i).value.entries, k) == MergedGet(d, u.entries[i..], k)
    decreases |u.entries| - i
  {
    if i < |u.entries| {
      var k0 := u.entries[i].0;
      UpdateStep(d, u, i);
      var w := Override(Get(d.entries, k0), u.entries[i].1).value;
      var d' := Dict(Put(d.entries, k0, w));
      UpdateFromGet(d', u, i + 1, k);
      GetPut(d.entries, k0, w, k);
      GetFrom(u.entries, i, k);
    } else {
      assert u.entries[i..] == [];
    }
  }

  /** What the merge leaves under each key: a key only in the base keeps its base value,
      a non-mapping override replaces the base value, and a mapping override holds the
      recursive merge of that mapping into the base value. */
  lemma UpdateGet(d: Value, u: Value, k: string)
    requires d.Dict? && u.Dict? && DistinctKeys(u.entries)
    requires Update(d, u, 0).Ok?
    ensures Update(d, u, 0).value.Dict?
    ensures !HasKey(u.entries, k) ==> Get(Update(d, u, 0).value.entries, k) == Get(d.entries, k)
    ensures Get(u.entries, k).Some? && !Get(u.entries, k).value.Dict? ==>
              Get(Update(d, u, 0).value.entries, k) == Get(u.entries, k)
    ensures Get(u.entries, k).Some? && Get(u.entries, k).value.Dict? ==>
              var base := Get(d.entries, k).GetOr(Dict([]));
              Update(base, Get(u.entries, k).value, 0).Ok?
              && Get(Update(d, u, 0).value.entries, k) == Some(Update(base, Get(u.entries, k).value, 0).value)
  {
    UpdateFromGet(d, u, 0, k);
    assert u.entries[0..] == u.entries;
  }

  // ---------------------------------------------------------------------------
  // The settings and the option properties

  /** The merge writes into its base and never removes a key: the keys of `d` stay, in
      their positions, and the result is a dict. */
  lemma {:induction false} UpdateKeepsKeys(d: Value, u: Value, i: nat)
    requires d.Dict? && u.Dict? && i <= |u.entries|
    requires Update(d, u, i).Ok?
    ensures Update(d, u, i).value.Dict?
    ensures |Update(d, u, i).value.entries| >= |d.entries|
    ensures forall j :: 0 <= j < |d.entries| ==> Update(d, u, i).value.entries[j].0 == d.entries[j].0
    decreases |u.entries| - i
  {
    if i < |u.entries| {
      var k := u.entries[i].0;
      var w := Override(Get(d.entries, k), u.entries[i].1).value;
      UpdateKeepsKeys(Dict(Put(d.entries, k, w)), u, i + 1);
    }
  }

  /** The `settings` property: the user's `TRAMPOLINE` (an empty dict when unset) merged
      over a fresh copy of the defaults. A setting that is not a mapping has no `items`;
      otherwise the three default sections stay, in their order. */
  function Settings(user: Option<Value>): (r: Result<Value>)
    ensures user.None? ==> r == Ok(DefaultTrampoline)
    ensures user.Some? && !user.value.Dict? ==> r == Err(AttributeError)
    ensures r.Ok? ==> r.value.Dict? && |r.value.entries| >= 3
                      && r.value.entries[0].0 == "CONNECTIONS" && r.value.entries[1].0 == "INDICES"
                      && r.value.entries[2].0 == "OPTIONS"
  {
    var u := user.GetOr(Dict([]));
    if !u.Dict? then Err(AttributeError)
    else
      var r := Update(DefaultTrampoline, u, 0);
      if r.Ok? then
        UpdateKeepsKeys(DefaultTrampoline, u, 0);
        r
      else r
  }

  /** The `indices` property: `settings['INDICES']`, which is always there once the
      settings can be built. */
  function Indices(user: Option<Value>): (r: Result<Value>)
    ensures r.Ok? <==> Settings(user).Ok?
    ensures r.Err? ==> r.error == Settings(user).error
    ensures r.Ok? ==> Get(Settings(user).value.entries, "INDICES") == Some(r.value)
  {
    var s :- Settings(user);
    assert s.entries[1].0 == "INDICES";
    Subscript(s, Str("INDICES"))
  }

  /** `settings['OPTIONS'][name]`, behind `should_fail_silently`, `is_disabled` and
      `celery_queue`: the `OPTIONS` section is always there; it answers for a name it holds,
      and raises for one it does not hold or when it is not a mapping. */
  function OptionValue(user: Option<Value>, name: string): (r: Result<Value>)
    ensures Settings(user).Err? ==> r == Err(Settings(user).error)
    ensures Settings(user).Ok? ==>
              var o := Get(Settings(user).value.entries, "OPTIONS");
              && o.Some?
              && (r.Ok? <==> o.value.Dict? && HasKey(o.value.entries, name))
              && (r.Ok? ==> Get(o.value.entries, name) == Some(r.value))
  {
    var s :- Settings(user);
    assert s.entries[2].0 == "OPTIONS";
    var options :- Subscript(s, Str("OPTIONS"));
    Subscript(options, Str(name))
  }

  lemma DefaultSections()
    ensures Get(DefaultTrampoline.entries, "OPTIONS") == Some(DefaultOptionsValue)
    ensures Get(DefaultTrampoline.entries, "INDICES") == Some(Dict([]))
  {
    var e := DefaultTrampoline.entries;
    assert e[1..][1..] == [("OPTIONS", DefaultOptionsValue)];
    assert Get(e[1..][1..], "OPTIONS") == Some(DefaultOptionsValue);
    assert e[1..][0].0 == "INDICES" && e[0].0 == "CONNECTIONS";
  }

  lemma DefaultOptionEntries()
    ensures Get(DefaultOptionsValue.entries, "fail_silently") == Some(Bool(true))
    ensures Get(DefaultOptionsValue.entries, "disabled") == Some(Bool(false))
    ensures Get(DefaultOptionsValue.entries, "celery_queue") == Some(Null)
  {
    var e := DefaultOptionsValue.entries;
    assert e[1..][1..] == [("celery_queue", Null)];
    assert e[1..][0].0 == "disabled" && e[0].0 == "fail_silently";
  }

  /** With no user settings an option reads straight from the default `OPTIONS`. */
  lemma NoUserOptions(name: string)
    ensures OptionValue(None, name) == Subscript(DefaultOptionsValue, Str(name))
  {
    assert Settings(None) == Ok(DefaultTrampoline);
    DefaultSections();
    assert Subscript(DefaultTrampoline, Str("OPTIONS")) == Ok(DefaultOptionsValue);
  }

  /** With no user settings the options are the defaults: fail silently, enabled, no queue. */
  lemma DefaultOptions()
    ensures OptionValue(None, "fail_silently") == Ok(Bool(true))
    ensures OptionValue(None, "disabled") == Ok(Bool(false))
    ensures OptionValue(None, "celery_queue") == Ok(Null)
  {
    NoUserOptions("fail_silently");
    NoUserOptions("disabled");
    NoUserOptions("celery_queue");
    DefaultOptionEntries();
  }

  /** With no user settings no index is configured. */
  lemma DefaultIndices()
    ensures Indices(None) == Ok(Dict([]))
  {
    assert Settings(None) == Ok(DefaultTrampoline);
    DefaultSections();
  }

  /** An option the user's `OPTIONS` sets to a non-mapping value reads as that value; an
      option it leaves out keeps its default; with no `OPTIONS` at all every option keeps
      its default. */
  lemma OptionOverride(u: Value, name: string)
    requires u.Dict? && DistinctKeys(u.entries)
    requires Get(u.entries, "OPTIONS").Some? ==>
               Get(u.entries, "OPTIONS").value.Dict? && DistinctKeys(Get(u.entries, "OPTIONS").value.entries)
    requires Settings(Some(u)).Ok?
    ensures !HasKey(u.entries, "OPTIONS") ==> OptionValue(Some(u), name) == Subscript(DefaultOptionsValue, Str(name))
    ensures Get(u.entries, "OPTIONS").Some? ==>
              var uo := Get(u.entries, "OPTIONS").value.entries;
              && (!HasKey(uo, name) ==> OptionValue(Some(u), name) == Subscript(DefaultOptionsValue, Str(name)))
              && (Get(uo, name).Some? && !Get(uo, name).value.Dict? ==> OptionValue(Some(u), name) == Ok(Get(uo, name).value))
  {
    var s := Settings(Some(u)).value;
    assert Update(DefaultTrampoline, u, 0) == Ok(s);
    OptionValueFrom(Some(u), name);
    DefaultSections();
    UpdateGet(DefaultTrampoline, u, "OPTIONS");
    var o := Get(s.entries, "OPTIONS").value;
    if Get(u.entries, "OPTIONS").Some? {
      var uo := Get(u.entries, "OPTIONS").value;
      UpdateGet(DefaultOptionsValue, uo, name);
      if !HasKey(uo.entries, name) {
        SubscriptByGet(o, DefaultOptionsValue, name);
      }
    } else {
      assert o == DefaultOptionsValue;
    }
  }

  /** Once the settings are built, an option is `name` looked up in their `OPTIONS` section. */
  lemma OptionValueFrom(user: Option<Value>, name: string)
    requires Settings(user).Ok?
    ensures Get(Settings(user).value.entries, "OPTIONS").Some?
    ensures OptionValue(user, name) == Subscript(Get(Settings(user).value.entries, "OPTIONS").value, Str(name))
  {
    var s := Settings(user).value;
    assert s.entries[2].0 == "OPTIONS";
    assert Subscript(s, Str("OPTIONS")) == Ok(Get(s.entries, "OPTIONS").value);
  }

  /** Two dicts that agree on a key agree on subscripting it. */
  lemma SubscriptByGet(x: Value, y: Value, k: string)
    requires x.Dict? && y.Dict? && Get(x.entries, k) == Get(y.entries, k)
    ensures Subscript(x, Str(k)) == Subscript(y, Str(k))
  {
  }

  // ---------------------------------------------------------------------------
  // Index models

  /** `indices[index_name]['models']`, or the empty list when a key is missing. */
  function ModelsOf(indices: Value, indexName: Value): Result<seq<Value>> {
    var entry := Subscript(indices, indexName);
    var models := if entry.Ok? then Subscript(entry.value, Str("models")) else entry;
    if models.Err? && models.error == KeyError then Ok([])
    else
      var m :- models;
      Iterate(m)
  }

  /** The model paths `get_index_models(index_name)` walks through. */
  function IndexModelPaths(user: Option<Value>, indexName: Value): Result<seq<Value>> {
    var indices := Indices(user);
    if indices.Err? && indices.error == KeyError then Ok([])
    else
      var ind :- indices;
      ModelsOf(ind, indexName)
  }

  /** The index of the last '.' in `s`. */
  function LastDot(s: string): (r: Option<nat>)
    ensures r.None? ==> forall j :: 0 <= j < |s| ==> s[j] != '.'
    ensures r.Some? ==> r.value < |s| && s[r.value] == '.'
                        && forall j :: r.value < j < |s| ==> s[j] != '.'
  {
    if s == [] then None
    else if s[|s| - 1] == '.' then Some(|s| - 1)
    else LastDot(s[..|s| - 1])
  }

  /** `path.rsplit('.', 1)` unpacked into (module path, class name). */
  function SplitModelPath(path: Value): (r: Result<(string, string)>)
    ensures r.Err? ==> r.error == AttributeError || r.error == ValueError
    ensures r.Ok? ==> path.Str? && path.s == r.value.0 + "." + r.value.1
                      && forall j :: 0 <= j < |r.value.1| ==> r.value.1[j] != '.'
    ensures path.Str? ==> (r.Ok? <==> exists j :: 0 <= j < |path.s| && path.s[j] == '.')
  {
    if !path.Str? then Err(AttributeError)
    else
      match LastDot(path.s)
      case None => Err(ValueError)
      case Some(j) =>
        assert path.s == path.s[..j] + "." + path.s[j + 1..];
        Ok((path.s[..j], path.s[j + 1..]))
  }

  /** `getattr(__import__(module_path), model_name)` for one model path. */
  function ResolveModel(modules: Modules, path: Value): (r: Result<ModelClass>)
    ensures r.Ok? ==> SplitModelPath(path).Ok?
                      && var (m, n) := SplitModelPath(path).value;
                         m in modules && n in modules[m] && r.value == modules[m][n]
  {
    var (m, n) :- SplitModelPath(path);
    if m !in modules then Err(ImportError)
    else if n !in modules[m] then Err(AttributeError)
    else Ok(modules[m][n])
  }

  /** The outcome of each path, in list order. */
  function Resolutions(modules: Modules, paths: seq<Value>): (rs: seq<Result<ModelClass>>)
    ensures |rs| == |paths| && forall j :: 0 <= j < |paths| ==> rs[j] == ResolveModel(modules, paths[j])
  {
    seq(|paths|, j requires 0 <= j < |paths| => ResolveModel(modules, paths[j]))
  }

  /** The models of a list of outcomes, or the first failure among them. */
  function Collect(rs: seq<Result<ModelClass>>): Result<seq<ModelClass>> {
    if rs == [] then Ok([])
    else
      var m :- rs[0];
      var rest :- Collect(rs[1..]);
      Ok([m] + rest)
  }

  /** The models a list of model paths resolves to, or the first failure. */
  function ResolveAll(modules: Modules, paths: seq<Value>): Result<seq<ModelClass>> {
    Collect(Resolutions(modules, paths))
  }

  lemma {:induction false} CollectSpec(rs: seq<Result<ModelClass>>)
    ensures var r := Collect(rs);
            && (r.Ok? <==> forall j :: 0 <= j < |rs| ==> rs[j].Ok?)
            && (r.Ok? ==> |r.value| == |rs| && forall j :: 0 <= j < |rs| ==> rs[j] == Ok(r.value[j]))
            && (r.Err? ==> exists j :: 0 <= j < |rs| && rs[j] == Err(r.error)
                                       && forall t :: 0 <= t < j ==> rs[t].Ok?)
  {
    if rs != [] {
      CollectSpec(rs[1..]);
      var rest := Collect(rs[1..]);
      if rs[0].Ok? && rest.Err? {
        var j :| 0 <= j < |rs[1..]| && rs[1..][j] == Err(rest.error)
                 && forall t :: 0 <= t < j ==> rs[1..][t].Ok?;
        assert rs[j + 1] == Err(rest.error);
      }
    }
  }

  /** One model per path, in list order, when every path resolves; otherwise the failure
      of the first path that does not. */
  lemma ResolveAllSpec(modules: Modules, paths: seq<Value>)
    ensures var r := ResolveAll(modules, paths);
            && (r.Ok? <==> forall j :: 0 <= j < |paths| ==> ResolveModel(modules, paths[j]).Ok?)
            && (r.Ok? ==> |r.value| == |paths|
                          && forall j :: 0 <= j < |paths| ==> ResolveModel(modules, paths[j]) == Ok(r.value[j]))
            && (r.Err? ==> exists j :: 0 <= j < |paths| && ResolveModel(modules, paths[j]) == Err(r.error)
                                       && forall t :: 0 <= t < j ==> ResolveModel(modules, paths[t]).Ok?)
  {
    var rs := Resolutions(modules, paths);
    CollectSpec(rs);
    if Collect(rs).Err? {
      var j :| 0 <= j < |rs| && rs[j] == Err(Collect(rs).error) && forall t :: 0 <= t < j ==> rs[t].Ok?;
      assert ResolveModel(modules, paths[j]) == Err(Collect(rs).error);
    }
  }

  /** What `get_index_models(index_name)` returns or raises. */
  function IndexModels(user: Option<Value>, modules: Modules, indexName: Value): Result<seq<ModelClass>> {
    var paths :- IndexModelPaths(user, indexName);
    ResolveAll(modules, paths)
  }

  /** The models found so far in front of what the rest collects to. */
  function Prefixed(models: seq<ModelClass>, r: Result<seq<ModelClass>>): Result<seq<ModelClass>> {
    if r.Ok? then Ok(models + r.value) else r
  }

  /** One step of the loop: a resolved path moves its model into the prefix; a failed one
      is the outcome of the whole list. */
  lemma CollectStep(rs: seq<Result<ModelClass>>, j: nat, models: seq<ModelClass>)
    requires j < |rs|
    ensures rs[j].Ok? ==> Prefixed(models, Collect(rs[j..])) == Prefixed(models + [rs[j].value], Collect(rs[j + 1..]))
    ensures rs[j].Err? ==> Prefixed(models, Collect(rs[j..])) == Err(rs[j].error)
  {
    assert rs[j..][0] == rs[j];
    assert rs[j..][1..] == rs[j + 1..];
    if rs[j].Ok? && Collect(rs[j + 1..]).Ok? {
      var rest := Collect(rs[j + 1..]).value;
      assert models + ([rs[j].value] + rest) == (models + [rs[j].value]) + rest;
    }
  }

  /** The loop of `get_index_models`: split, import and look up each path in turn. */
  method ResolvePaths(modules: Modules, paths: seq<Value>) returns (r: Result<seq<ModelClass>>)
    ensures r == ResolveAll(modules, paths)
  {
    ghost var rs := Resolutions(modules, paths);
    var models: seq<ModelClass> := [];
    var j := 0;
    assert rs[0..] == rs;
    assert Collect(rs) == Prefixed([], Collect(rs)) by {
      if Collect(rs).Ok? {
        assert [] + Collect(rs).value == Collect(rs).value;
      }
    }
    while j < |paths|
      invariant 0 <= j <= |paths|
      invariant Collect(rs) == Prefixed(models, Collect(rs[j..]))
    {
      CollectStep(rs, j, models);
      var m := ResolveModel(modules, paths[j]);
      if m.Err? {
        return Err(m.error);
      }
      models := models + [m.value];
      j := j + 1;
    }
    assert rs[j..] == [];
    assert models + [] == models;
    return Ok(models);
  }

  /** `get_index_models(index_name)`: one model per path, in list order; the empty list for
      an unknown index or one without 'models'. */
  method GetIndexModels(user: Option<Value>, modules: Modules, indexName: Value)
    returns (r: Result<seq<ModelClass>>)
    ensures r == IndexModels(user, modules, indexName)
  {
    var paths := IndexModelPaths(user, indexName);
    if paths.Err? {
      return Err(paths.error);
    }
    r := ResolvePaths(modules, paths.value);
  }

  /** An index name the registry does not know resolves to no models. */
  lemma UnknownIndexHasNoModels(user: Option<Value>, indexName: string)
    requires Indices(user).Ok? && Indices(user).value.Dict?
    requires !HasKey(Indices(user).value.entries, indexName)
    ensures IndexModelPaths(user, Str(indexName)) == Ok([])
  {
  }

  /** The concatenation of the models lists of `names`, in order. */
  function ConcatModels(indices: Value, names: seq<Value>): Result<seq<Value>> {
    if names == [] then Ok([])
    else
      var first :- ModelsOf(indices, names[0]);
      var rest :- ConcatModels(indices, names[1..]);
      Ok(first + rest)
  }

  /** The paths gathered so far in front of what the rest concatenates to. */
  function PrefixedPaths(paths: seq<Value>, r: Result<seq<Value>>): Result<seq<Value>> {
    if r.Ok? then Ok(paths + r.value) else r
  }

  /** One step of the loop: the models of `names[j]` join the gathered paths; a failure
      there is the outcome of the whole list. */
  lemma ConcatStep(indices: Value, names: seq<Value>, j: nat, paths: seq<Value>)
    requires j < |names|
    ensures var models := ModelsOf(indices, names[j]);
            && (models.Ok? ==> PrefixedPaths(paths, ConcatModels(indices, names[j..]))
                               == PrefixedPaths(paths + models.value, ConcatModels(indices, names[j + 1..])))
            && (models.Err? ==> PrefixedPaths(paths, ConcatModels(indices, names[j..])) == Err(models.error))
  {
    assert names[j..][0] == names[j];
    assert names[j..][1..] == names[j + 1..];
    var models := ModelsOf(indices, names[j]);
    if models.Ok? && ConcatModels(indices, names[j + 1..]).Ok? {
      var rest := ConcatModels(indices, names[j + 1..]).value;
      assert paths + (models.value + rest) == (paths + models.value) + rest;
    }
  }

  /** The `model_paths` property as a value. */
  function ModelPathsOf(user: Option<Value>): Result<seq<Value>> {
    var ind :- Indices(user);
    var names :- Iterate(ind);
    ConcatModels(ind, names)
  }

  /** The settings of a user whose only entry sets INDICES to a value that is not a mapping:
      `indices` is that value. */
  lemma IndicesReplaced(v: Value)
    requires !v.Dict?
    ensures Indices(Some(Dict([("INDICES", v)]))) == Ok(v)
  {
    var user := Dict([("INDICES", v)]);
    var merged := Put(DefaultTrampoline.entries, "INDICES", v);
    DefaultSections();
    assert Override(Get(DefaultTrampoline.entries, "INDICES"), v) == Ok(v);
    assert Update(Dict(merged), user, 1) == Ok(Dict(merged));
    assert Settings(Some(user)) == Update(DefaultTrampoline, user, 0) == Ok(Dict(merged));
    GetPut(DefaultTrampoline.entries, "INDICES", v, "INDICES");
    assert Get(merged, "INDICES") == Some(v);
  }

  /** INDICES given as a list: iterating it yields its items, and subscripting the list with
      an item that is no valid position raises IndexError, which `model_paths` does not catch. */
  lemma ListIndicesRaiseIndexError()
    ensures ModelPathsOf(Some(Dict([("INDICES", List([Int(5)]))]))) == Err(IndexError)
  {
    var listed := List([Int(5)]);
    IndicesReplaced(listed);
    assert Iterate(listed) == Ok([Int(5)]);
    assert ModelsOf(listed, Int(5)) == Err(IndexError);
    assert ConcatModels(listed, [Int(5)]) == Err(IndexError);
  }

  /** The loop of `model_paths`: `+=` each index's models list, skipping an index whose
      entry has no 'models'. */
  method AppendModels(indices: Value, names: seq<Value>) returns (r: Result<seq<Value>>)
    ensures r == ConcatModels(indices, names)
  {
    var paths: seq<Value> := [];
    var j := 0;
    assert names[0..] == names;
    assert ConcatModels(indices, names) == PrefixedPaths([], ConcatModels(indices, names)) by {
      if ConcatModels(indices, names).Ok? {
        assert [] + ConcatModels(indices, names).value == ConcatModels(indices, names).value;
      }
    }
    while j < |names|
      invariant 0 <= j <= |names|
      invariant ConcatModels(indices, names) == PrefixedPaths(paths, ConcatModels(indices, names[j..]))
    {
      ConcatStep(indices, names, j, paths);
      var models := ModelsOf(indices, names[j]);
      if models.Err? {
        return Err(models.error);
      }
      paths := paths + models.value;
      j := j + 1;
    }
    assert names[j..] == [];
    assert paths + [] == paths;
    return Ok(paths);
  }

  /** `model_paths`: every index's models list appended in iteration order; an index
      without 'models' adds nothing; duplicates stay. */
  method ModelPaths(user: Option<Value>) returns (r: Result<seq<Value>>)
    ensures r == ModelPathsOf(user)
  {
    var ind := Indices(user);
    if ind.Err? {
      return Err(ind.error);
    }
    var names := Iterate(ind.value);
    if names.Err? {
      return Err(names.error);
    }
    r := AppendModels(ind.value, names.value);
  }

  /** A path is in the concatenation exactly when some index lists it. */
  lemma {:induction false} ConcatModelsMember(indices: Value, names: seq<Value>, p: Value)
    requires ConcatModels(indices, names).Ok?
    ensures p in ConcatModels(indices, names).value <==>
              exists j :: 0 <= j < |names| && ModelsOf(indices, names[j]).Ok?
                                           && p in ModelsOf(indices, names[j]).value
  {
    if names != [] {
      ConcatModelsMember(indices, names[1..], p);
      if p in ConcatModels(indices, names[1..]).value {
        var j :| 0 <= j < |names[1..]| && ModelsOf(indices, names[1..][j]).Ok?
                 && p in ModelsOf(indices, names[1..][j]).value;
        assert names[j + 1] == names[1..][j];
      }
      if exists j :: 0 <= j < |names| && ModelsOf(indices, names[j]).Ok? && p in ModelsOf(indices, names[j]).value {
        var j :| 0 <= j < |names| && ModelsOf(indices, names[j]).Ok? && p in ModelsOf(indices, names[j]).value;
        if j > 0 {
          assert names[1..][j - 1] == names[j];
        }
      }
    }
  }

  /** The dotted path `class_prepared_check_indexable` looks for. */
  function SenderPath(model: ModelClass): string {
    model.modulePath + "." + model.name
  }

  /** `class_prepared_check_indexable`: the save and delete hooks are connected for a
      model exactly when some index of the registry lists its dotted path. */
  function ConnectsHooks(user: Option<Value>, model: ModelClass): (r: Result<bool>)
    ensures r.Ok? <==> ModelPathsOf(user).Ok?
    ensures r.Ok? ==> (r.value <==>
              exists j :: 0 <= j < |Iterate(Indices(user).value).value|
                && var names := Iterate(Indices(user).value).value;
                   ModelsOf(Indices(user).value, names[j]).Ok?
                   && Str(SenderPath(model)) in ModelsOf(Indices(user).value, names[j]).value)
  {
    var paths :- ModelPathsOf(user);
    var ind := Indices(user).value;
    ConcatModelsMember(ind, Iterate(ind).value, Str(SenderPath(model)));
    Ok(Str(SenderPath(model)) in paths)
  }

  // ---------------------------------------------------------------------------
  // Hooks

  datatype Signal = PostSave | PostDelete

  /** What a connected hook does with an instance. */
  datatype HookAction =
    | Nothing
    | IndexOnCommit            // `transaction.on_commit(lambda: instance.es_index())`
    | IndexAfter(countdown: int) // `instance.es_index(countdown=...)`
    | Delete                   // `instance.es_delete()`

  /** `post_save_es_index` and `post_delete_es_delete`. After a save, indexing is
      scheduled only for an indexable instance that needs an update, after commit when the
      framework offers `on_commit` and with a one-second countdown otherwise. After a
      delete, the document is always deleted. */
  function OnSignal(signal: Signal, r: Record, hasOnCommit: bool): (a: HookAction)
    ensures signal == PostDelete ==> a == Delete
    ensures signal == PostSave ==> (a != Nothing <==> IsIndexable(r) && r.updateNeeded)
    ensures signal == PostSave && a != Nothing ==>
              if hasOnCommit then a == IndexOnCommit else a == IndexAfter(1)
  {
    match signal
    case PostDelete => Delete
    case PostSave =>
      if !(IsIndexable(r) && r.updateNeeded) then Nothing
      else if hasOnCommit then IndexOnCommit
      else IndexAfter(1)
  }
}
