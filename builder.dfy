/**
 * WorldConfigurationBuilder: the mutable builder. Its four bags and the
 * invocation-strategy slot are fields that the registration methods update in
 * place; `Build` expands plugins, sorts and copies the bags into a
 * WorldConfiguration, and resets the fields.
 *
 * Every method is proved to change the fields exactly as the functions of
 * BuilderModel say; the properties of those functions are in BuilderProperties.
 * A thrown WorldConfigurationException is an `err` result: the calls already
 * made, including earlier items of the same call, keep their effect.
 */
module Builder {
  import opened Registration
  import opened PrioritySort
  import opened BuilderModel

  class WorldConfigurationBuilder {
    var managers: seq<Registerable>
    var systems: seq<Registerable>
    var fieldResolvers: seq<Registerable>
    var plugins: seq<Registerable>
    var invocationStrategy: Option<Item>

    /** Stands for the injection cache, reflection, and the plugins' setup code. */
    const env: Environment

    ghost function Snapshot(): State
      reads this
    {
      State(managers, systems, fieldResolvers, plugins, invocationStrategy)
    }

    ghost predicate Valid()
      reads this
    {
      BuilderModel.Valid(Snapshot())
    }

    constructor (env: Environment)
      ensures Valid() && Snapshot() == Empty && this.env == env
    {
      this.env := env;
      invocationStrategy := None;
      managers, systems, fieldResolvers, plugins := [], [], [], [];
    }

    /** `reset()`: every bag empty, no invocation strategy. */
    method Reset()
      modifies this
      ensures Snapshot() == Empty
    {
      invocationStrategy := None;
      managers := [];
      systems := [];
      fieldResolvers := [];
      plugins := [];
    }

    /** `containsType`: whether some entry's concrete class is exactly `t`. */
    static method ContainsType(bag: seq<Registerable>, t: ClassName) returns (found: bool)
      ensures found <==> t in Types(bag)
    {
      for k := 0 to |bag|
        invariant forall j :: 0 <= j < k ==> bag[j].ItemType() != t
      {
        if bag[k].ItemType() == t {
          assert bag[k] in bag;
          return true;
        }
      }
      return false;
    }

    /**
     * The loop shared by `with(priority, managers...)`, `addSystems` and
     * `addPlugins`: append each item unless its class is already in the bag,
     * stopping at the first that is.
     */
    static method Append(bag: seq<Registerable>, items: seq<Item>, priority: int32, passive: bool)
      returns (r: seq<Registerable>, clash: Option<ClassName>)
      ensures Added(r, clash) == AddItems(bag, items, priority, passive)
    {
      ghost var k := FirstClash(Types(bag), items);
      r, clash := bag, None;
      for j := 0 to |items|
        invariant r == bag + Wrap(items[..j], priority, passive)
        invariant j <= k
      {
        ClashAt(bag, items, j, priority, passive);
        var present := ContainsType(r, items[j].cls);
        if present {
          clash := Some(items[j].cls);
          return;
        }
        WrapSnoc(items, j, priority, passive);
        r := r + [Registerable(items[j], priority, passive)];
      }
      assert items[..|items|] == items;
    }

    /** `with(priority, managers...)`; `with(managers...)` is the NORMAL default. */
    method WithManagers(items: seq<Item>, priority: int32 := NORMAL) returns (err: Option<ConfigurationError>)
      requires Valid()
      modifies this`managers
      ensures Valid()
      ensures var k := FirstClash(Types(old(managers)), items);
        managers == old(managers) + Wrap(items[..k], priority, false)
        && err == if k < |items| then Some(DuplicateManager(items[k].cls)) else None
    {
      AddItemsFacts(managers, items, priority, false);
      var clash;
      managers, clash := Append(managers, items, priority, false);
      err := if clash.Some? then Some(DuplicateManager(clash.value)) else None;
    }

    /** `with(priority, systems...)`: active systems. */
    method WithSystems(items: seq<Item>, priority: int32 := NORMAL) returns (err: Option<ConfigurationError>)
      requires Valid()
      modifies this`systems
      ensures Valid()
      ensures var k := FirstClash(Types(old(systems)), items);
        systems == old(systems) + Wrap(items[..k], priority, false)
        && err == if k < |items| then Some(DuplicateSystem(items[k].cls)) else None
    {
      err := AddSystems(priority, items, false);
    }

    /** `withPassive(priority, systems...)`: passive systems. */
    method WithPassive(items: seq<Item>, priority: int32 := NORMAL) returns (err: Option<ConfigurationError>)
      requires Valid()
      modifies this`systems
      ensures Valid()
      ensures var k := FirstClash(Types(old(systems)), items);
        systems == old(systems) + Wrap(items[..k], priority, true)
        && err == if k < |items| then Some(DuplicateSystem(items[k].cls)) else None
    {
      err := AddSystems(priority, items, true);
    }

    /** `addSystems`: the passive flag is stored as given. */
    method AddSystems(priority: int32, items: seq<Item>, passive: bool) returns (err: Option<ConfigurationError>)
      requires Valid()
      modifies this`systems
      ensures Valid()
      ensures var k := FirstClash(Types(old(systems)), items);
        systems == old(systems) + Wrap(items[..k], priority, passive)
        && err == if k < |items| then Some(DuplicateSystem(items[k].cls)) else None
    {
      AddItemsFacts(systems, items, priority, passive);
      var clash;
      systems, clash := Append(systems, items, priority, passive);
      err := if clash.Some? then Some(DuplicateSystem(clash.value)) else None;
    }

    /** `with(plugins...)`, through `addPlugins`. */
    method WithPlugins(items: seq<Item>) returns (err: Option<ConfigurationError>)
      requires Valid()
      modifies this`plugins
      ensures Valid()
      ensures var k := FirstClash(Types(old(plugins)), items);
        plugins == old(plugins) + Wrap(items[..k], NORMAL, false)
        && err == if k < |items| then Some(DuplicatePlugin(items[k].cls)) else None
    {
      AddItemsFacts(plugins, items, NORMAL, false);
      var clash;
      plugins, clash := Append(plugins, items, NORMAL, false);
      err := if clash.Some? then Some(DuplicatePlugin(clash.value)) else None;
    }

    /** `dependsOnManager`: a default instance unless the class is present. */
    method DependsOnManager(priority: int32, t: ClassName) returns (err: Option<ConfigurationError>)
      requires Valid()
      modifies this`managers
      ensures Valid()
      ensures t in Types(old(managers)) ==> managers == old(managers) && err == None
      ensures t !in Types(old(managers)) && t in env.constructible ==>
        managers == old(managers) + [Registerable(Item(t, 0), priority, false)] && err == None
      ensures t !in Types(old(managers)) && t !in env.constructible ==>
        managers == old(managers) && err == Some(ReflectionFailure(t))
    {
      DependFacts(managers, env, t, priority);
      err := None;
      var present := ContainsType(managers, t);
      if !present {
        match NewInstance(env, t) {
          case None => err := Some(ReflectionFailure(t));
          case Some(x) => managers := managers + [Registerable(x, priority, false)];
        }
      }
    }

    /** `dependsOnSystem`: a default instance unless the class is present. */
    method DependsOnSystem(priority: int32, t: ClassName) returns (err: Option<ConfigurationError>)
      requires Valid()
      modifies this`systems
      ensures Valid()
      ensures t in Types(old(systems)) ==> systems == old(systems) && err == None
      ensures t !in Types(old(systems)) && t in env.constructible ==>
        systems == old(systems) + [Registerable(Item(t, 0), priority, false)] && err == None
      ensures t !in Types(old(systems)) && t !in env.constructible ==>
        systems == old(systems) && err == Some(ReflectionFailure(t))
    {
      DependFacts(systems, env, t, priority);
      err := None;
      var present := ContainsType(systems, t);
      if !present {
        match NewInstance(env, t) {
          case None => err := Some(ReflectionFailure(t));
          case Some(x) => systems := systems + [Registerable(x, priority, false)];
        }
      }
    }

    /** `dependsOnPlugin`: a default instance unless the class is present. */
    method DependsOnPlugin(t: ClassName) returns (err: Option<ConfigurationError>)
      requires Valid()
      modifies this`plugins
      ensures Valid()
      ensures t in Types(old(plugins)) ==> plugins == old(plugins) && err == None
      ensures t !in Types(old(plugins)) && t in env.constructible ==>
        plugins == old(plugins) + [Registerable(Item(t, 0), NORMAL, false)] && err == None
      ensures t !in Types(old(plugins)) && t !in env.constructible ==>
        plugins == old(plugins) && err == Some(ReflectionFailure(t))
    {
      DependFacts(plugins, env, t, NORMAL);
      err := None;
      var present := ContainsType(plugins, t);
      if !present {
        match NewInstance(env, t) {
          case None => err := Some(ReflectionFailure(t));
          case Some(x) => plugins := plugins + [Registerable(x, NORMAL, false)];
        }
      }
    }

    /** `dependsOn(priority, types...)`; `dependsOn(types...)` is the NORMAL default. */
    method DependsOn(types: seq<ClassName>, priority: int32 := NORMAL) returns (err: Option<ConfigurationError>)
      requires Valid()
      modifies this
      ensures Valid()
      ensures var step := DependsOnAll(old(Snapshot()), env, types, priority);
        Snapshot() == step.state && err == step.error
    {
      err := None;
      for k := 0 to |types|
        invariant Valid() && err == None
        invariant DependsOnAll(old(Snapshot()), env, types, priority) == DependsOnAll(Snapshot(), env, types[k..], priority)
      {
        var t := types[k];
        assert types[k..][0] == t && types[k..][1..] == types[k + 1..];
        match KindOf(env, t) {
          case SystemKind => err := DependsOnSystem(priority, t);
          case ManagerKind => err := DependsOnManager(priority, t);
          case PluginKind =>
            if priority != NORMAL {
              err := Some(PluginPriority(t));
            } else {
              err := DependsOnPlugin(t);
            }
          case UnsupportedKind => err := Some(UnsupportedType(t));
        }
        if err.Some? {
          return;
        }
      }
    }

    /** `register(fieldResolvers...)`: appended at NORMAL priority, never checked for duplicates. */
    method RegisterResolvers(items: seq<Item>)
      modifies this`fieldResolvers
      ensures fieldResolvers == old(fieldResolvers) + Wrap(items, NORMAL, false)
    {
      for k := 0 to |items|
        invariant fieldResolvers == old(fieldResolvers) + Wrap(items[..k], NORMAL, false)
      {
        assert Wrap(items[..k + 1], NORMAL, false) == Wrap(items[..k], NORMAL, false) + [Registerable(items[k], NORMAL, false)];
        fieldResolvers := fieldResolvers + [Registerable(items[k], NORMAL, false)];
      }
      assert items[..|items|] == items;
    }

    /** `register(strategy)`: replaces any earlier strategy; `None` stands for null. */
    method RegisterStrategy(strategy: Option<Item>)
      modifies this`invocationStrategy
      ensures invocationStrategy == strategy
    {
      invocationStrategy := strategy;
    }

    /** One call made by a plugin's setup on this builder. */
    method Perform(a: Action) returns (err: Option<ConfigurationError>)
      requires Valid()
      modifies this
      ensures Valid()
      ensures var step := Apply(old(Snapshot()), env, a);
        Snapshot() == step.state && err == step.error
    {
      match a {
        case WithManagers(items, priority) => err := WithManagers(items, priority);
        case WithSystems(items, priority, passive) =>
          if passive {
            err := WithPassive(items, priority);
          } else {
            err := WithSystems(items, priority);
          }
        case WithPlugins(items) => err := WithPlugins(items);
        case DependsOn(types, priority) => err := DependsOn(types, priority);
        case RegisterResolvers(items) =>
          RegisterResolvers(items);
          err := None;
        case RegisterStrategy(strategy) =>
          RegisterStrategy(strategy);
          err := None;
      }
    }

    /** `plugin.setup(this)` for a plugin of class `plugin`. */
    method Setup(plugin: ClassName) returns (err: Option<ConfigurationError>)
      requires Valid()
      modifies this
      ensures Valid()
      ensures var step := RunScript(old(Snapshot()), env, SetupOf(env, plugin));
        Snapshot() == step.state && err == step.error
    {
      var script := SetupOf(env, plugin);
      err := None;
      for k := 0 to |script|
        invariant Valid() && err == None
        invariant RunScript(old(Snapshot()), env, script) == RunScript(Snapshot(), env, script[k..])
      {
        assert script[k..][0] == script[k] && script[k..][1..] == script[k + 1..];
        err := Perform(script[k]);
        if err.Some? {
          return;
        }
      }
    }

    /**
     * One turn of `appendPlugins`' loop: the setup of the plugin at `i`. With
     * `done` the plugins whose setup already ran, expansion from `i` is this
     * setup, then expansion from `i + 1` on the new state unless the setup threw.
     */
    method SetupAt(i: nat, ghost done: seq<ClassName>, ghost target: Expansion)
      returns (err: Option<ConfigurationError>, ghost done': seq<ClassName>)
      requires Valid() && i < |plugins|
      requires Expand(Snapshot(), env, i).state == target.state
      requires Expand(Snapshot(), env, i).error == target.error
      requires done + Expand(Snapshot(), env, i).invoked == target.invoked
      modifies this
      ensures Valid() && i < |plugins|
      ensures done' == done + [old(plugins[i].ItemType())]
      ensures 0 <= |Universe(Snapshot(), env)| - (i + 1) < |Universe(old(Snapshot()), env)| - i
      ensures err.Some? ==> Snapshot() == target.state && err == target.error && done' == target.invoked
      ensures err.None? ==>
        Expand(Snapshot(), env, i + 1).state == target.state
        && Expand(Snapshot(), env, i + 1).error == target.error
        && done' + Expand(Snapshot(), env, i + 1).invoked == target.invoked
    {
      var c := plugins[i].ItemType();
      ExpansionShrinks(Snapshot(), env, i);
      ExpandStep(Snapshot(), env, i);
      err := Setup(c);
      done' := done + [c];
      if err.None? {
        TraceStep(done, c, Expand(Snapshot(), env, i + 1).invoked, target.invoked);
      }
    }

    /**
     * `appendPlugins`: run the setup of every plugin in the bag, including those
     * the setups append, re-reading the bag's size on every step. `invoked` names
     * the plugins whose setup ran, in order.
     */
    method AppendPlugins() returns (err: Option<ConfigurationError>, ghost invoked: seq<ClassName>)
      requires Valid()
      modifies this
      ensures Valid()
      ensures var e := Expand(old(Snapshot()), env, 0);
        Snapshot() == e.state && err == e.error && invoked == e.invoked
    {
      err, invoked := None, [];
      ghost var target := Expand(old(Snapshot()), env, 0);
      var i := 0;
      while i < |plugins|
        invariant Valid() && i <= |plugins| && err == None
        invariant Expand(Snapshot(), env, i).state == target.state
        invariant Expand(Snapshot(), env, i).error == target.error
        invariant invoked + Expand(Snapshot(), env, i).invoked == target.invoked
        decreases |Universe(Snapshot(), env)| - i
      {
        err, invoked := SetupAt(i, invoked, target);
        if err.Some? {
          return;
        }
        i := i + 1;
      }
      assert invoked + [] == invoked;
    }

    /** The items of a sorted bag, copied out in order. */
    static method CopyItems(bag: seq<Registerable>) returns (out: seq<Item>)
      ensures out == ItemsOf(bag)
    {
      out := [];
      for k := 0 to |bag|
        invariant out == ItemsOf(bag[..k])
      {
        out := out + [bag[k].item];
      }
      assert bag[..|bag|] == bag;
    }

    /**
     * `registerManagers`: the bag sorted by descending priority, and the managers
     * in that order. `registerManagers` sorts the field in place; `Assembly` stores
     * the sorted bag back into the field.
     */
    static method RegisterManagers(bag: seq<Registerable>) returns (sorted: seq<Registerable>, out: seq<Item>)
      ensures sorted == SortByPriority(bag)
      ensures out == ItemsOf(sorted)
    {
      sorted := SortByPriority(bag);
      out := CopyItems(sorted);
    }

    /** `registerSystems`: the bag sorted, and the (system, passive) pairs in that order. */
    static method RegisterSystems(bag: seq<Registerable>) returns (sorted: seq<Registerable>, out: seq<(Item, bool)>)
      ensures sorted == SortByPriority(bag)
      ensures out == SystemEntries(sorted)
    {
      sorted := SortByPriority(bag);
      out := [];
      for k := 0 to |sorted|
        invariant out == SystemEntries(sorted[..k])
      {
        out := out + [(sorted[k].item, sorted[k].passive)];
      }
      assert sorted[..|sorted|] == sorted;
    }

    /**
     * `registerFieldResolvers`: a resolver chain only when some resolver was
     * registered; the bag is sorted only then.
     */
    static method RegisterFieldResolvers(bag: seq<Registerable>) returns (sorted: seq<Registerable>, chain: Option<seq<Item>>)
      ensures sorted == SortByPriority(bag)
      ensures chain == ResolverChain(bag)
    {
      sorted, chain := bag, None;
      if |bag| > 0 {
        sorted := SortByPriority(bag);
        var handler := CopyItems(sorted);
        chain := Some(handler);
      } else {
        assert SortByPriority(bag) == [];
      }
    }

    /**
     * The part of `build()` after expansion: copy managers, systems, the
     * resolver chain and the strategy (only when set) into a new configuration,
     * then reset.
     */
    method Assembly() returns (config: WorldConfiguration)
      modifies this
      ensures config == Assemble(old(Snapshot()))
      ensures Snapshot() == Empty
    {
      var ms, ss, chain;
      managers, ms := RegisterManagers(managers);
      systems, ss := RegisterSystems(systems);
      fieldResolvers, chain := RegisterFieldResolvers(fieldResolvers);
      config := WorldConfiguration(ms, ss, chain, invocationStrategy);
      Reset();
    }

    /**
     * `build()`: expand plugins, then assemble the configuration and reset. An
     * exception during expansion leaves the builder as expansion left it.
     */
    method Build() returns (r: Result<WorldConfiguration>)
      requires Valid()
      modifies this
      ensures Valid()
      ensures var b := BuildSpec(old(Snapshot()), env);
        Snapshot() == b.state && r == b.result
      ensures r.Success? ==> Snapshot() == Empty
    {
      var err, invoked := AppendPlugins();
      if err.Some? {
        return Failure(err.value);
      }
      var config := Assembly();
      r := Success(config);
    }
  }
}
