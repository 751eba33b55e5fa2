/** The tool registry of the pod runner: tools are named in a configuration
    file by module, class and constructor arguments, and each name maps to
    either a constructed instance or `None` when anything about it failed. */
module Registry {
  import opened Wrappers
  import opened Text

  /** A value of a tool's `config` mapping: a string, or any other YAML value
      (number, boolean, list), which is passed through untouched. */
  datatype ConfigValue = Str(s: string) | NonStr(token: int)

  /** Keyword arguments handed to a tool class. */
  type Kwargs = map<string, ConfigValue>

  /** The process environment, as `os.getenv` sees it. */
  type Env = map<string, string>

  /** A constructed tool object (opaque). */
  datatype Instance = Instance(id: nat)

  /** A class found by importing `moduleName` and reading its attribute `className`. */
  datatype ClassRef = ClassRef(moduleName: string, className: string)

  /** One entry of the tools file. `moduleName` and `className` are `None` when
      the `module` or `class` key is missing; `config` lists the items of the
      `config` mapping in order, and is empty when that key is absent, null or `{}`. */
  datatype ToolConfig = ToolConfig(
    moduleName: Option<string>,
    className: Option<string>,
    config: seq<(string, ConfigValue)>)

  /** What the import machinery can find (module name to the attribute names it
      defines) and what calling a class with keyword arguments does: `None`
      stands for a constructor that raised. */
  datatype Loader = Loader(
    modules: map<string, set<string>>,
    construct: (ClassRef, Kwargs) -> Option<Instance>)

  // ---------------------------------------------------------------------------
  // Environment indirection

  /** A string ending in `_env` names an environment variable. */
  predicate IsEnvRef(v: ConfigValue) {
    v.Str? && EndsWith(v.s, EnvToken)
  }

  /** `value.replace('_env', '').upper()` */
  function EnvVarName(value: string): (r: string)
    ensures |r| <= |value|
    ensures !Contains(value, EnvToken) ==> r == Upper(value)
  {
    if !Contains(value, EnvToken) then StripEnvTokensAbsent(value); Upper(StripEnvTokens(value))
    else Upper(StripEnvTokens(value))
  }

  /** A reference `x_env` whose stem holds no other `_env` names the variable `X`. */
  lemma EnvVarNameOfSuffix(stem: string)
    requires !Contains(stem, EnvToken)
    ensures EnvVarName(stem + EnvToken) == Upper(stem)
  {
    StripEnvTokensOfSuffix(stem);
    StripEnvTokensAbsent(stem);
  }

  /** Every "_env" in the value is dropped, also one inside a word: the value
      "db_environment_env" names the variable DBIRONMENT, not DB_ENVIRONMENT. */
  lemma InnerTokenDropped(a: string, b: string)
    requires '_' !in a && '_' !in b
    ensures EnvVarName(a + EnvToken + b + EnvToken) == Upper(a + b)
  {
    StripEnvTokensAround(a, b + EnvToken);
    assert a + EnvToken + b + EnvToken == a + EnvToken + (b + EnvToken);
    StripEnvTokensOfSuffix(b);
    StripEnvTokensNoUnderscore(a);
    StripEnvTokensNoUnderscore(b);
  }

  /** `os.getenv(v)` is truthy: set and not empty. */
  predicate IsSet(env: Env, v: string) {
    v in env && env[v] != ""
  }

  /** The argument a config value becomes, or `None` when it refers to an unset variable. */
  function ResolveValue(v: ConfigValue, env: Env): (r: Option<ConfigValue>)
    ensures r.None? <==> IsEnvRef(v) && !IsSet(env, EnvVarName(v.s))
    ensures !IsEnvRef(v) ==> r == Some(v)
    ensures IsEnvRef(v) && r.Some? ==> r.value.Str? && r.value.s != "" && r.value.s == env[EnvVarName(v.s)]
  {
    if IsEnvRef(v) then
      var name := EnvVarName(v.s);
      if IsSet(env, name) then Some(Str(env[name])) else None
    else Some(v)
  }

  predicate AllResolve(config: seq<(string, ConfigValue)>, env: Env) {
    forall i :: 0 <= i < |config| ==> ResolveValue(config[i].1, env).Some?
  }

  function KeysOf(config: seq<(string, ConfigValue)>): set<string> {
    set i | 0 <= i < |config| :: config[i].0
  }

  /** The argument bound to `key`, if any. */
  function Arg(kwargs: Kwargs, key: string): Option<ConfigValue> {
    if key in kwargs then Some(kwargs[key]) else None
  }

  /** Item `i` is the last one with its key (always so for a real mapping). */
  predicate LastWithKey(config: seq<(string, ConfigValue)>, i: nat)
    requires i < |config|
  {
    forall j :: i < j < |config| ==> config[j].0 != config[i].0
  }

  /** The keyword arguments built from `config`, or `None` as soon as one
      referenced variable is unset (the items are taken in order, a later key
      overriding an earlier one). */
  function ResolveKwargs(config: seq<(string, ConfigValue)>, env: Env): (r: Option<Kwargs>)
    decreases |config|
  {
    if config == [] then Some(map[])
    else
      var (key, value) := config[|config| - 1];
      match ResolveKwargs(config[..|config| - 1], env)
      case None => None
      case Some(m) =>
        match ResolveValue(value, env)
        case None => None
        case Some(x) => Some(m[key := x])
  }

  /** The arguments exist exactly when every referenced variable is set. */
  lemma {:induction false} ResolveKwargsDefined(config: seq<(string, ConfigValue)>, env: Env)
    ensures ResolveKwargs(config, env).Some? <==> AllResolve(config, env)
    decreases |config|
  {
    if config != [] {
      var front := config[..|config| - 1];
      var last := |config| - 1;
      ResolveKwargsDefined(front, env);
      assert forall i :: 0 <= i < |front| ==> front[i] == config[i];
      if AllResolve(front, env) && ResolveValue(config[last].1, env).Some? {
        forall i | 0 <= i < |config| ensures ResolveValue(config[i].1, env).Some? {
          if i < last { assert front[i] == config[i]; }
        }
      }
    }
  }

  lemma KeysOfSnoc(config: seq<(string, ConfigValue)>)
    requires config != []
    ensures KeysOf(config) == KeysOf(config[..|config| - 1]) + {config[|config| - 1].0}
  {
    var front := config[..|config| - 1];
    forall k | k in KeysOf(config) ensures k in KeysOf(front) + {config[|config| - 1].0} {
      var i :| 0 <= i < |config| && config[i].0 == k;
      if i < |front| { assert front[i].0 == k; }
    }
    forall k | k in KeysOf(front) ensures k in KeysOf(config) {
      var i :| 0 <= i < |front| && front[i].0 == k;
      assert config[i].0 == k;
    }
  }

  /** Defined arguments have exactly the keys of `config`. */
  lemma {:induction false} ResolveKwargsKeys(config: seq<(string, ConfigValue)>, env: Env)
    ensures ResolveKwargs(config, env).Some? ==> ResolveKwargs(config, env).value.Keys == KeysOf(config)
    decreases |config|
  {
    if config != [] && ResolveKwargs(config, env).Some? {
      ResolveKwargsKeys(config[..|config| - 1], env);
      KeysOfSnoc(config);
    }
  }

  /** In defined arguments each key is bound to the resolved value of its last item. */
  lemma {:induction false} ResolveKwargsValues(config: seq<(string, ConfigValue)>, env: Env)
    ensures ResolveKwargs(config, env).Some? ==>
              forall i :: 0 <= i < |config| && LastWithKey(config, i) ==>
                Arg(ResolveKwargs(config, env).value, config[i].0) == ResolveValue(config[i].1, env)
    decreases |config|
  {
    if config != [] && ResolveKwargs(config, env).Some? {
      var front := config[..|config| - 1];
      var last := |config| - 1;
      var key := config[last].0;
      var x := ResolveValue(config[last].1, env);
      var m := ResolveKwargs(front, env).value;
      var r := ResolveKwargs(config, env).value;
      ResolveKwargsValues(front, env);
      assert r == m[key := x.value];
      forall i | 0 <= i < |config| && LastWithKey(config, i)
        ensures Arg(r, config[i].0) == ResolveValue(config[i].1, env)
      {
        if i < last {
          assert front[i] == config[i];
          assert config[i].0 != key;
          assert LastWithKey(front, i) by {
            forall j | i < j < |front| ensures front[j].0 != front[i].0 { assert front[j] == config[j]; }
          }
        }
      }
    }
  }

  /** The loop of `register_tool` that builds `init_kwargs`. */
  method ResolveConfig(config: seq<(string, ConfigValue)>, env: Env) returns (kwargs: Option<Kwargs>)
    ensures kwargs == ResolveKwargs(config, env)
  {
    var acc: Kwargs := map[];
    var i := 0;
    while i < |config|
      invariant 0 <= i <= |config|
      invariant ResolveKwargs(config[..i], env) == Some(acc)
    {
      var (key, value) := config[i];
      assert config[..i + 1][..i] == config[..i];
      if value.Str? && EndsWith(value.s, EnvToken) {
        var envVar := Upper(StripEnvTokens(value.s));
        if envVar in env && env[envVar] != "" {
          acc := acc[key := Str(env[envVar])];
        } else {
          assert !ResolveValue(config[i].1, env).Some?;
          ResolveKwargsDefined(config, env);
          return None;
        }
      } else {
        acc := acc[key := value];
      }
      i := i + 1;
    }
    assert config[..i] == config;
    kwargs := Some(acc);
  }

  // ---------------------------------------------------------------------------
  // One registration

  /** `importlib.import_module(module)` then `getattr(..., class)`; `None` for a
      missing key, an unknown module or a missing attribute. */
  function Locate(cfg: ToolConfig, loader: Loader): (r: Option<ClassRef>)
    ensures r.Some? <==> cfg.moduleName.Some? && cfg.className.Some?
                         && cfg.moduleName.value in loader.modules
                         && cfg.className.value in loader.modules[cfg.moduleName.value]
    ensures r.Some? ==> r.value.moduleName == cfg.moduleName.value && r.value.className == cfg.className.value
  {
    if cfg.moduleName.None? || cfg.className.None? then None
    else if cfg.moduleName.value !in loader.modules then None
    else if cfg.className.value !in loader.modules[cfg.moduleName.value] then None
    else Some(ClassRef(cfg.moduleName.value, cfg.className.value))
  }

  /** The constructor call registration makes, if it makes one. */
  datatype Attempt = NotAttempted | Attempted(cls: ClassRef, kwargs: Kwargs)

  /** A class is called exactly when it was found and every referenced variable
      is set; it then gets exactly the resolved arguments, none when `config`
      is empty. */
  function Plan(cfg: ToolConfig, env: Env, loader: Loader): (a: Attempt)
    ensures a.Attempted? <==> Locate(cfg, loader).Some? && AllResolve(cfg.config, env)
    ensures a.Attempted? ==> Locate(cfg, loader) == Some(a.cls)
    ensures a.Attempted? ==> a.kwargs.Keys == KeysOf(cfg.config)
    ensures a.Attempted? ==> forall i :: 0 <= i < |cfg.config| && LastWithKey(cfg.config, i) ==>
                               Arg(a.kwargs, cfg.config[i].0) == ResolveValue(cfg.config[i].1, env)
    ensures a.Attempted? && cfg.config == [] ==> a.kwargs == map[]
  {
    ResolveKwargsDefined(cfg.config, env);
    ResolveKwargsKeys(cfg.config, env);
    ResolveKwargsValues(cfg.config, env);
    match Locate(cfg, loader)
    case None => NotAttempted
    case Some(cls) =>
      if |cfg.config| == 0 then Attempted(cls, map[])
      else
        match ResolveKwargs(cfg.config, env)
        case None => NotAttempted
        case Some(kwargs) => Attempted(cls, kwargs)
  }

  /** What the registry records for one tool: the instance, or `None`. */
  function Outcome(cfg: ToolConfig, env: Env, loader: Loader): (r: Option<Instance>)
    ensures Plan(cfg, env, loader).NotAttempted? ==> r.None?
    ensures Plan(cfg, env, loader).Attempted? ==>
              r == loader.construct(Plan(cfg, env, loader).cls, Plan(cfg, env, loader).kwargs)
  {
    match Plan(cfg, env, loader)
    case NotAttempted => None
    case Attempted(cls, kwargs) => loader.construct(cls, kwargs)
  }

  /** The constructor calls one registration makes: none or one. */
  function Calls(a: Attempt): seq<(ClassRef, Kwargs)> {
    if a.Attempted? then [(a.cls, a.kwargs)] else []
  }

  /** An unset or empty variable behind any `_env` value makes the tool
      unavailable, and its class is never called. */
  lemma UnsetVariableMakesUnavailable(cfg: ToolConfig, env: Env, loader: Loader, i: nat)
    requires i < |cfg.config| && IsEnvRef(cfg.config[i].1)
    requires !IsSet(env, EnvVarName(cfg.config[i].1.s))
    ensures Plan(cfg, env, loader) == NotAttempted
    ensures Outcome(cfg, env, loader) == None
  {
    assert ResolveValue(cfg.config[i].1, env).None?;
  }

  // ---------------------------------------------------------------------------
  // Many registrations

  /** The table after registering `entries` in order on top of `tools`. */
  function RegisterAll(tools: map<string, Option<Instance>>, entries: seq<(string, ToolConfig)>,
                       env: Env, loader: Loader): (r: map<string, Option<Instance>>)
    ensures tools.Keys <= r.Keys
    decreases |entries|
  {
    if entries == [] then tools
    else
      var (name, cfg) := entries[|entries| - 1];
      RegisterAll(tools, entries[..|entries| - 1], env, loader)[name := Outcome(cfg, env, loader)]
  }

  predicate LastNamed(entries: seq<(string, ToolConfig)>, i: nat)
    requires i < |entries|
  {
    forall j :: i < j < |entries| ==> entries[j].0 != entries[i].0
  }

  predicate Named(entries: seq<(string, ToolConfig)>, n: string) {
    exists i :: 0 <= i < |entries| && entries[i].0 == n
  }

  /** Registering adds exactly the names registered; the others keep their entry. */
  lemma {:induction false} RegisterAllDomain(tools: map<string, Option<Instance>>,
      entries: seq<(string, ToolConfig)>, env: Env, loader: Loader, n: string)
    ensures n in RegisterAll(tools, entries, env, loader) <==> n in tools || Named(entries, n)
    ensures !Named(entries, n) && n in tools ==> RegisterAll(tools, entries, env, loader)[n] == tools[n]
    decreases |entries|
  {
    if entries != [] {
      var front := entries[..|entries| - 1];
      var last := |entries| - 1;
      RegisterAllDomain(tools, front, env, loader, n);
      forall i | 0 <= i < |front| && front[i].0 == n ensures entries[i].0 == n {
        assert front[i] == entries[i];
      }
      if entries[last].0 != n && Named(entries, n) {
        var i :| 0 <= i < |entries| && entries[i].0 == n;
        assert i != last;
        assert front[i].0 == n;
      }
    }
  }

  /** Failures are isolated: a name's entry is the outcome of its own (last)
      configuration, whatever the other entries are. */
  lemma {:induction false} RegisterAllIsolation(tools: map<string, Option<Instance>>,
      entries: seq<(string, ToolConfig)>, env: Env, loader: Loader, i: nat)
    requires i < |entries| && LastNamed(entries, i)
    ensures var t := RegisterAll(tools, entries, env, loader);
            entries[i].0 in t && t[entries[i].0] == Outcome(entries[i].1, env, loader)
    decreases |entries|
  {
    var front := entries[..|entries| - 1];
    var last := |entries| - 1;
    if i < last {
      assert entries[last].0 != entries[i].0;
      assert front[i] == entries[i];
      assert LastNamed(front, i) by {
        forall j | i < j < |front| ensures front[j].0 != front[i].0 { assert front[j] == entries[j]; }
      }
      RegisterAllIsolation(tools, front, env, loader, i);
    }
  }

  /** Two runs over entries with the same names, and the same configuration
      wherever the name is `n`, leave the same entry for `n`. */
  lemma {:induction false} SameEntryForName(tools: map<string, Option<Instance>>,
      e1: seq<(string, ToolConfig)>, e2: seq<(string, ToolConfig)>, env: Env, loader: Loader, n: string)
    requires |e1| == |e2|
    requires forall i :: 0 <= i < |e1| ==> e1[i].0 == e2[i].0 && (e1[i].0 == n ==> e1[i].1 == e2[i].1)
    ensures var t1 := RegisterAll(tools, e1, env, loader);
            var t2 := RegisterAll(tools, e2, env, loader);
            (n in t1 <==> n in t2) && (n in t1 ==> t1[n] == t2[n])
    decreases |e1|
  {
    if e1 != [] {
      var k := |e1| - 1;
      SameEntryForName(tools, e1[..k], e2[..k], env, loader, n);
    }
  }

  /** Changing one tool's configuration does not change another tool's entry. */
  lemma ChangingOneEntryKeepsOthers(tools: map<string, Option<Instance>>,
      before: seq<(string, ToolConfig)>, name: string, c1: ToolConfig, c2: ToolConfig,
      after: seq<(string, ToolConfig)>, env: Env, loader: Loader, n: string)
    requires n != name
    ensures var t1 := RegisterAll(tools, before + [(name, c1)] + after, env, loader);
            var t2 := RegisterAll(tools, before + [(name, c2)] + after, env, loader);
            (n in t1 <==> n in t2) && (n in t1 ==> t1[n] == t2[n])
  {
    var e1 := before + [(name, c1)] + after;
    var e2 := before + [(name, c2)] + after;
    forall i | 0 <= i < |e1| ensures e1[i].0 == e2[i].0 && (e1[i].0 == n ==> e1[i].1 == e2[i].1) {
      if i < |before| { assert e1[i] == before[i] == e2[i]; }
      else if i > |before| { assert e1[i] == after[i - |before| - 1] == e2[i]; }
    }
    SameEntryForName(tools, e1, e2, env, loader, n);
  }

  // ---------------------------------------------------------------------------
  // Lookups

  /** `tools.get(name)`: `None` for an unknown name and for a failed one. */
  function Lookup(tools: map<string, Option<Instance>>, name: string): Option<Instance> {
    if name in tools then tools[name] else None
  }

  /** A lookup gives an instance exactly when the name is registered with one. */
  lemma LookupSpec(tools: map<string, Option<Instance>>, name: string)
    ensures Lookup(tools, name).Some? <==> name in tools && tools[name].Some?
    ensures Lookup(tools, name).Some? ==> Lookup(tools, name) == tools[name]
  {
  }

  /** The instances available for `names`, in order, duplicates kept. */
  function Available(tools: map<string, Option<Instance>>, names: seq<string>): (r: seq<Instance>)
    ensures |r| <= |names|
    decreases |names|
  {
    if names == [] then []
    else
      Available(tools, names[..|names| - 1])
        + match Lookup(tools, names[|names| - 1]) case Some(x) => [x] case None => []
  }

  /** Requesting `a` then `b` yields what `a` yields followed by what `b` yields. */
  lemma {:induction false} AvailableAppend(tools: map<string, Option<Instance>>, a: seq<string>, b: seq<string>)
    ensures Available(tools, a + b) == Available(tools, a) + Available(tools, b)
    decreases |b|
  {
    if b == [] {
      assert a + b == a;
    } else {
      var b' := b[..|b| - 1];
      AvailableAppend(tools, a, b');
      assert (a + b)[..|a + b| - 1] == a + b';
    }
  }

  /** The positions of `names` whose tool is available, ascending: `Available`
      takes exactly these names, in this order, and skips every other one. */
  function AvailableAt(tools: map<string, Option<Instance>>, names: seq<string>): (idx: seq<nat>)
    ensures |idx| == |Available(tools, names)|
    ensures forall j :: 0 <= j < |idx| ==>
              idx[j] < |names| && Lookup(tools, names[idx[j]]) == Some(Available(tools, names)[j])
    ensures forall j, k :: 0 <= j < k < |idx| ==> idx[j] < idx[k]
    ensures forall i :: 0 <= i < |names| && Lookup(tools, names[i]).Some? ==> i in idx
    decreases |names|
  {
    if names == [] then []
    else
      var front := names[..|names| - 1];
      var last := |names| - 1;
      assert forall i :: 0 <= i < |front| ==> front[i] == names[i];
      AvailableAt(tools, front) + (if Lookup(tools, names[last]).Some? then [last] else [])
  }

  // ---------------------------------------------------------------------------
  // The registry object

  class ToolRegistry {
    var tools: map<string, Option<Instance>>
    /** Every constructor call made so far, with its arguments. */
    ghost var constructorCalls: seq<(ClassRef, Kwargs)>

    constructor ()
      ensures tools == map[] && constructorCalls == []
    {
      tools := map[];
      constructorCalls := [];
    }

    /** `register_tool`: only the entry for `name` changes; it becomes the
        instance, or `None` when anything failed. No exception escapes. */
    method RegisterTool(name: string, cfg: ToolConfig, env: Env, loader: Loader)
      modifies this
      ensures tools == old(tools)[name := Outcome(cfg, env, loader)]
      ensures forall k :: k in old(tools) && k != name ==> k in tools && tools[k] == old(tools)[k]
      ensures constructorCalls == old(constructorCalls) + Calls(Plan(cfg, env, loader))
    {
      if cfg.moduleName.None? || cfg.className.None? {
        tools := tools[name := None];  // KeyError
        return;
      }
      var moduleName, className := cfg.moduleName.value, cfg.className.value;
      if moduleName !in loader.modules || className !in loader.modules[moduleName] {
        tools := tools[name := None];  // ImportError or AttributeError
        return;
      }
      var cls := ClassRef(moduleName, className);
      var instance: Option<Instance>;
      if |cfg.config| > 0 {
        var kwargs := ResolveConfig(cfg.config, env);
        if kwargs.None? {
          tools := tools[name := None];  // a referenced variable is unset
          return;
        }
        instance := loader.construct(cls, kwargs.value);
        constructorCalls := constructorCalls + [(cls, kwargs.value)];
      } else {
        instance := loader.construct(cls, map[]);
        constructorCalls := constructorCalls + [(cls, map[])];
      }
      tools := tools[name := instance];
    }

    /** The registration loop over the entries of the tools file. */
    method RegisterTools(entries: seq<(string, ToolConfig)>, env: Env, loader: Loader)
      modifies this
      ensures tools == RegisterAll(old(tools), entries, env, loader)
    {
      var i := 0;
      while i < |entries|
        invariant 0 <= i <= |entries|
        invariant tools == RegisterAll(old(tools), entries[..i], env, loader)
      {
        assert entries[..i + 1][..i] == entries[..i];
        RegisterTool(entries[i].0, entries[i].1, env, loader);
        i := i + 1;
      }
      assert entries[..i] == entries;
    }

    /** `get_tool`: `None` for an unknown name and for a name that failed. */
    function GetTool(name: string): (r: Option<Instance>)
      reads this
      ensures r.None? <==> name !in tools || tools[name].None?
      ensures r.Some? ==> tools[name] == r
    {
      Lookup(tools, name)
    }

    /** `get_tools`: the available instances for `names`, in request order. */
    method GetTools(names: seq<string>) returns (r: seq<Instance>)
      ensures r == Available(tools, names)
    {
      r := [];
      var i := 0;
      while i < |names|
        invariant 0 <= i <= |names|
        invariant r == Available(tools, names[..i])
      {
        assert names[..i + 1][..i] == names[..i];
        var tool := GetTool(names[i]);
        if tool.Some? {
          r := r + [tool.value];
        }
        i := i + 1;
      }
      assert names[..i] == names;
    }
  }

  /** Requesting three names of which the middle one failed yields the other two. */
  lemma SkipsFailedTool(tools: map<string, Option<Instance>>, a: string, b: string, c: string, x: Instance, z: Instance)
    requires Lookup(tools, a) == Some(x) && Lookup(tools, b) == None && Lookup(tools, c) == Some(z)
    ensures Available(tools, [a, b, c]) == [x, z]
  {
    assert [a, b, c][..2] == [a, b];
    assert [a, b][..1] == [a];
    assert [a][..0] == [];
    assert Available(tools, [a]) == [x];
    assert Available(tools, [a, b]) == [x];
  }
}
