/**
 * The world-configuration builder as values: its state, the effect of every
 * registration call, plugin expansion and `build`. The class in module Builder
 * is proved to behave exactly as these functions say.
 *
 * Reflection is replaced by an Environment: a classifier (which class tokens
 * denote managers, systems or plugins), the set of classes whose default
 * constructor succeeds, and each plugin class's `setup` as a fixed script of
 * builder calls.
 */
module BuilderModel {
  import opened Registration
  import opened PrioritySort

  /** What the injection cache and the plugin check make of a class token. */
  datatype Kind = ManagerKind | SystemKind | PluginKind | UnsupportedKind

  /** One call a plugin's `setup` makes on the builder it is handed. */
  datatype Action =
    | WithManagers(managers: seq<Item>, priority: int32)
    | WithSystems(systems: seq<Item>, priority: int32, passive: bool)
    | WithPlugins(plugins: seq<Item>)
    | DependsOn(types: seq<ClassName>, priority: int32)
    | RegisterResolvers(resolvers: seq<Item>)
    | RegisterStrategy(strategy: Option<Item>)

  datatype Environment = Environment(
    kinds: map<ClassName, Kind>,
    constructible: set<ClassName>,
    setups: map<ClassName, seq<Action>>)

  /** Classes the classifier does not know are unsupported. */
  function KindOf(env: Environment, t: ClassName): Kind
  {
    if t in env.kinds then env.kinds[t] else UnsupportedKind
  }

  /** A plugin class without a script has a `setup` that registers nothing. */
  function SetupOf(env: Environment, t: ClassName): seq<Action>
  {
    if t in env.setups then env.setups[t] else []
  }

  /** `ClassReflection.newInstance`: a fresh object of exactly class `t`, or a reflection failure. */
  function NewInstance(env: Environment, t: ClassName): (r: Option<Item>)
    ensures r.Some? ==> r.value.cls == t
    ensures r.None? <==> t !in env.constructible
  {
    if t in env.constructible then Some(Item(t, 0)) else None
  }

  /** The builder's fields. */
  datatype State = State(
    managers: seq<Registerable>,
    systems: seq<Registerable>,
    fieldResolvers: seq<Registerable>,
    plugins: seq<Registerable>,
    invocationStrategy: Option<Item>)

  /** A freshly constructed or reset builder. */
  const Empty: State := State([], [], [], [], None)

  /** Managers, systems and plugins are each unique per concrete class; resolvers are not checked. */
  predicate Valid(s: State)
  {
    UniqueTypes(s.managers) && UniqueTypes(s.systems) && UniqueTypes(s.plugins)
  }

  /** The state after a call, and the exception it threw, if any. */
  datatype Step = Step(state: State, error: Option<ConfigurationError>)

  // ---------------------------------------------------------------------------
  // Explicit registration: with / withPassive

  /**
   * The position at which registering `items` one by one, into a bag whose
   * classes are `seen`, meets a class already present: either one of `seen` or
   * the class of an earlier item. `|items|` when there is none.
   */
  function FirstClash(seen: set<ClassName>, items: seq<Item>): (k: nat)
    ensures k <= |items|
    ensures forall j :: 0 <= j < k ==> items[j].cls !in seen
    ensures forall i, j :: 0 <= i < j < k ==> items[i].cls != items[j].cls
    ensures k < |items| ==> items[k].cls in seen + ClassesOf(items[..k])
    decreases |items|
  {
    if items == [] || items[0].cls in seen then 0
    else
      var k' := FirstClash(seen + {items[0].cls}, items[1..]);
      FirstClashStep(seen, items, k');
      1 + k'
  }

  /** The recursive case of FirstClash: the first item is new, so the clash moves one place on. */
  lemma FirstClashStep(seen: set<ClassName>, items: seq<Item>, k': nat)
    requires items != [] && items[0].cls !in seen
    requires k' <= |items| - 1
    requires forall j :: 0 <= j < k' ==> items[1..][j].cls !in seen + {items[0].cls}
    requires forall i, j :: 0 <= i < j < k' ==> items[1..][i].cls != items[1..][j].cls
    requires k' < |items| - 1 ==> items[1..][k'].cls in seen + {items[0].cls} + ClassesOf(items[1..][..k'])
    ensures forall j :: 0 <= j < 1 + k' ==> items[j].cls !in seen
    ensures forall i, j :: 0 <= i < j < 1 + k' ==> items[i].cls != items[j].cls
    ensures 1 + k' < |items| ==> items[1 + k'].cls in seen + ClassesOf(items[..1 + k'])
  {
    assert forall j :: 0 < j <= k' ==> items[j] == items[1..][j - 1];
    if 1 + k' < |items| {
      ClassesOfPrefix(items, k');
    }
  }

  lemma ClassesOfPrefix(items: seq<Item>, k: nat)
    requires 0 < |items| && k < |items|
    ensures ClassesOf(items[..k + 1]) == {items[0].cls} + ClassesOf(items[1..][..k])
  {
    assert items[..k + 1] == [items[0]] + items[1..][..k];
  }

  /**
   * Registering items one by one, the item at `j` is refused exactly when it is
   * the one FirstClash names: its class is then already in the bag so far.
   */
  lemma ClashAt(bag: seq<Registerable>, items: seq<Item>, j: nat, priority: int32, passive: bool)
    requires j < |items| && j <= FirstClash(Types(bag), items)
    ensures items[j].cls in Types(bag + Wrap(items[..j], priority, passive))
      <==> j == FirstClash(Types(bag), items)
  {
    TypesConcat(bag, Wrap(items[..j], priority, passive));
    TypesWrap(items[..j], priority, passive);
    if items[j].cls in ClassesOf(items[..j]) {
      var x :| x in items[..j] && x.cls == items[j].cls;
      var i :| 0 <= i < j && items[..j][i] == x;
    }
  }

  lemma WrapSnoc(items: seq<Item>, j: nat, priority: int32, passive: bool)
    requires j < |items|
    ensures Wrap(items[..j + 1], priority, passive)
      == Wrap(items[..j], priority, passive) + [Registerable(items[j], priority, passive)]
  {
  }

  /** A bag after a `with` call, and the class it rejected, if any. */
  datatype Added = Added(bag: seq<Registerable>, clash: Option<ClassName>)

  /**
   * `with(priority, items...)` on one bag: items are appended in order until one
   * whose class is already present; that one is rejected and the items before it
   * stay appended.
   */
  function AddItems(bag: seq<Registerable>, items: seq<Item>, priority: int32, passive: bool): Added
  {
    var k := FirstClash(Types(bag), items);
    Added(bag + Wrap(items[..k], priority, passive), if k < |items| then Some(items[k].cls) else None)
  }

  // ---------------------------------------------------------------------------
  // Dependency registration: dependsOn

  /**
   * `dependsOnManager` / `dependsOnSystem` / `dependsOnPlugin` on one bag:
   * nothing to do when the class is present, otherwise a default instance is
   * appended. None when that instance cannot be constructed.
   */
  function Depend(bag: seq<Registerable>, env: Environment, t: ClassName, priority: int32): Option<seq<Registerable>>
  {
    if t in Types(bag) then Some(bag)
    else match NewInstance(env, t)
      case None => None
      case Some(x) => Some(bag + [Registerable(x, priority, false)])
  }

  /** `dependsOn(priority, t)` for one class token. */
  function DependOne(s: State, env: Environment, t: ClassName, priority: int32): Step
  {
    match KindOf(env, t)
    case SystemKind =>
      (match Depend(s.systems, env, t, priority)
       case None => Step(s, Some(ReflectionFailure(t)))
       case Some(b) => Step(s.(systems := b), None))
    case ManagerKind =>
      (match Depend(s.managers, env, t, priority)
       case None => Step(s, Some(ReflectionFailure(t)))
       case Some(b) => Step(s.(managers := b), None))
    case PluginKind =>
      if priority != NORMAL then Step(s, Some(PluginPriority(t)))
      else
        (match Depend(s.plugins, env, t, NORMAL)
         case None => Step(s, Some(ReflectionFailure(t)))
         case Some(b) => Step(s.(plugins := b), None))
    case UnsupportedKind => Step(s, Some(UnsupportedType(t)))
  }

  /** `dependsOn(priority, types...)`: one token after another, stopping at the first exception. */
  function DependsOnAll(s: State, env: Environment, types: seq<ClassName>, priority: int32): Step
    decreases |types|
  {
    if types == [] then Step(s, None)
    else
      var step := DependOne(s, env, types[0], priority);
      if step.error.Some? then step else DependsOnAll(step.state, env, types[1..], priority)
  }

  // ---------------------------------------------------------------------------
  // Any registration call, and a plugin's setup script

  function DuplicateError(clash: Option<ClassName>, err: ClassName -> ConfigurationError): Option<ConfigurationError>
  {
    match clash
    case None => None
    case Some(t) => Some(err(t))
  }

  /** The effect of one call on the builder. */
  function Apply(s: State, env: Environment, a: Action): Step
  {
    match a
    case WithManagers(items, priority) =>
      var r := AddItems(s.managers, items, priority, false);
      Step(s.(managers := r.bag), DuplicateError(r.clash, t => DuplicateManager(t)))
    case WithSystems(items, priority, passive) =>
      var r := AddItems(s.systems, items, priority, passive);
      Step(s.(systems := r.bag), DuplicateError(r.clash, t => DuplicateSystem(t)))
    case WithPlugins(items) =>
      var r := AddItems(s.plugins, items, NORMAL, false);
      Step(s.(plugins := r.bag), DuplicateError(r.clash, t => DuplicatePlugin(t)))
    case DependsOn(types, priority) => DependsOnAll(s, env, types, priority)
    case RegisterResolvers(items) =>
      Step(s.(fieldResolvers := s.fieldResolvers + Wrap(items, NORMAL, false)), None)
    case RegisterStrategy(strategy) => Step(s.(invocationStrategy := strategy), None)
  }

  /** A setup script: its calls in order, stopping at the first exception. */
  function RunScript(s: State, env: Environment, script: seq<Action>): Step
    decreases |script|
  {
    if script == [] then Step(s, None)
    else
      var step := Apply(s, env, script[0]);
      if step.error.Some? then step else RunScript(step.state, env, script[1..])
  }

  // ---------------------------------------------------------------------------
  // Plugin expansion (appendPlugins)

  /** Plugin classes a call may add to the plugin bag. */
  function ActionPluginClasses(a: Action): set<ClassName>
  {
    match a
    case WithPlugins(items) => ClassesOf(items)
    case DependsOn(types, _) => set t | t in types
    case _ => {}
  }

  function ScriptPluginClasses(script: seq<Action>): set<ClassName>
    decreases |script|
  {
    if script == [] then {} else ActionPluginClasses(script[0]) + ScriptPluginClasses(script[1..])
  }

  /** Every plugin class any setup script may add. */
  function SetupPluginClasses(env: Environment): set<ClassName>
  {
    set c, t | c in env.setups.Keys && t in ScriptPluginClasses(env.setups[c]) :: t
  }

  /** The plugin classes that can ever be in the bag during expansion: finite, so expansion ends. */
  function Universe(s: State, env: Environment): set<ClassName>
  {
    Types(s.plugins) + SetupPluginClasses(env)
  }

  /** The result of expansion: the final state, the exception if any, and whose setups ran. */
  datatype Expansion = Expansion(state: State, error: Option<ConfigurationError>, invoked: seq<ClassName>)

  /** `invoked` names the plugins of `plugins` from index `i` on, in bag order. */
  predicate InBagOrder(invoked: seq<ClassName>, plugins: seq<Registerable>, i: nat)
  {
    i + |invoked| <= |plugins| && forall k :: 0 <= k < |invoked| ==> invoked[k] == plugins[i + k].ItemType()
  }

  /**
   * `appendPlugins` from index `i`: run the setup of the plugin at `i`, then go
   * on with the bag as that setup left it. The setups that ran are those of the
   * plugins at `i`, `i + 1`, ... of the final bag, in order, and on success every
   * plugin of the final bag from `i` on had its setup run. Nothing registered
   * is removed and the bags stay unique.
   */
  function Expand(s: State, env: Environment, i: nat): (r: Expansion)
    requires Valid(s) && i <= |s.plugins|
    ensures Valid(r.state) && Grows(s, r.state)
    ensures InBagOrder(r.invoked, r.state.plugins, i)
    ensures r.error.None? ==> i + |r.invoked| == |r.state.plugins|
    decreases |Universe(s, env)| - i
  {
    if i == |s.plugins| then Expansion(s, None, [])
    else
      var c := s.plugins[i].ItemType();
      var step := RunScript(s, env, SetupOf(env, c));
      ExpansionShrinks(s, env, i);
      if step.error.Some? then
        InvokedShift(c, [], step.state.plugins, i);
        Expansion(step.state, step.error, [c])
      else
        var rest := Expand(step.state, env, i + 1);
        InvokedShift(c, rest.invoked, rest.state.plugins, i);
        Expansion(rest.state, rest.error, [c] + rest.invoked)
  }

  /** One step of expansion: the setup at `i` runs, then expansion goes on from `i + 1` unless it threw. */
  lemma ExpandStep(s: State, env: Environment, i: nat)
    requires Valid(s) && i < |s.plugins|
    ensures var c := s.plugins[i].ItemType(); var step := RunScript(s, env, SetupOf(env, c));
      Valid(step.state) && i + 1 <= |step.state.plugins|
      && Expand(s, env, i)
        == if step.error.Some? then Expansion(step.state, step.error, [c])
           else var rest := Expand(step.state, env, i + 1); Expansion(rest.state, rest.error, [c] + rest.invoked)
  {
    ExpansionShrinks(s, env, i);
  }

  /** Moving the next invoked plugin from the pending part of a trace to the done part. */
  lemma TraceStep(done: seq<ClassName>, c: ClassName, rest: seq<ClassName>, trace: seq<ClassName>)
    requires done + ([c] + rest) == trace
    ensures (done + [c]) + rest == trace
  {
  }

  lemma InvokedShift(c: ClassName, invoked: seq<ClassName>, plugins: seq<Registerable>, i: nat)
    requires i < |plugins| && plugins[i].ItemType() == c
    requires InBagOrder(invoked, plugins, i + 1)
    ensures InBagOrder([c] + invoked, plugins, i)
  {
    var r := [c] + invoked;
    forall k | 0 <= k < |r| ensures r[k] == plugins[i + k].ItemType() {
      if k > 0 {
        assert r[k] == invoked[k - 1];
      }
    }
  }

  // ---------------------------------------------------------------------------
  // Assembly (build)

  /** The configuration handed to the world. */
  datatype WorldConfiguration = WorldConfiguration(
    managers: seq<Item>,
    systems: seq<(Item, bool)>,
    fieldResolvers: Option<seq<Item>>,
    invocationStrategy: Option<Item>)

  /** The (system, passive) pairs of a bag, in bag order. */
  function SystemEntries(bag: seq<Registerable>): seq<(Item, bool)>
  {
    seq(|bag|, k requires 0 <= k < |bag| => (bag[k].item, bag[k].passive))
  }

  /** The resolver chain: present only when a resolver was registered. */
  function ResolverChain(bag: seq<Registerable>): Option<seq<Item>>
  {
    if |bag| > 0 then Some(ItemsOf(SortByPriority(bag))) else None
  }

  /** registerManagers, registerSystems, registerFieldResolvers, registerInvocationStrategies. */
  function Assemble(s: State): WorldConfiguration
  {
    WorldConfiguration(
      ItemsOf(SortByPriority(s.managers)),
      SystemEntries(SortByPriority(s.systems)),
      ResolverChain(s.fieldResolvers),
      s.invocationStrategy)
  }

  datatype BuildOutcome = BuildOutcome(state: State, result: Result<WorldConfiguration>)

  /** `build()`: expand plugins, assemble, reset; an exception during expansion skips the reset. */
  function BuildSpec(s: State, env: Environment): BuildOutcome
    requires Valid(s)
  {
    var e := Expand(s, env, 0);
    match e.error
    case Some(err) => BuildOutcome(e.state, Failure(err))
    case None => BuildOutcome(Empty, Success(Assemble(e.state)))
  }

  // ---------------------------------------------------------------------------
  // What every call preserves

  /** `t` grows `s`: every bag of `s` is a prefix of the same bag of `t`. */
  predicate Grows(s: State, t: State)
  {
    s.managers <= t.managers && s.systems <= t.systems
    && s.fieldResolvers <= t.fieldResolvers && s.plugins <= t.plugins
  }

  /** `with` keeps a bag unique, only appends, and appends only classes of `items`. */
  lemma AddItemsFacts(bag: seq<Registerable>, items: seq<Item>, priority: int32, passive: bool)
    requires UniqueTypes(bag)
    ensures var r := AddItems(bag, items, priority, passive);
      UniqueTypes(r.bag) && bag <= r.bag && Types(r.bag) <= Types(bag) + ClassesOf(items)
  {
    var k := FirstClash(Types(bag), items);
    var w := Wrap(items[..k], priority, passive);
    var r := bag + w;
    TypesConcat(bag, w);
    TypesWrap(items[..k], priority, passive);
    assert ClassesOf(items[..k]) <= ClassesOf(items) by {
      forall t | t in ClassesOf(items[..k]) ensures t in ClassesOf(items) {
        var x :| x in items[..k] && x.cls == t;
        assert x in items;
      }
    }
    forall i, j | 0 <= i < j < |r| ensures r[i].ItemType() != r[j].ItemType() {
      if j >= |bag| {
        assert r[j].ItemType() == items[j - |bag|].cls;
        if i < |bag| {
          assert r[i] in bag;
          assert r[i].ItemType() in Types(bag);
        } else {
          assert r[i].ItemType() == items[i - |bag|].cls;
        }
      }
    }
    assert bag <= r;
  }

  /** `dependsOn` on one bag keeps it unique, only appends, and appends only `t`. */
  lemma DependFacts(bag: seq<Registerable>, env: Environment, t: ClassName, priority: int32)
    requires UniqueTypes(bag)
    ensures var r := Depend(bag, env, t, priority);
      r.Some? ==> UniqueTypes(r.value) && bag <= r.value && Types(r.value) <= Types(bag) + {t}
  {
    if t !in Types(bag) && t in env.constructible {
      var x := Registerable(Item(t, 0), priority, false);
      var r := bag + [x];
      TypesConcat(bag, [x]);
      assert x.ItemType() == t && x in [x];
      assert forall y :: y in [x] ==> y == x;
      assert Types([x]) == {t};
      forall i, j | 0 <= i < j < |r| ensures r[i].ItemType() != r[j].ItemType() {
        if j == |bag| {
          assert r[i] in bag;
        }
      }
    }
  }

  lemma DependOneFacts(s: State, env: Environment, t: ClassName, priority: int32)
    requires Valid(s)
    ensures var r := DependOne(s, env, t, priority).state;
      Valid(r) && Grows(s, r) && Types(r.plugins) <= Types(s.plugins) + {t}
      && r.invocationStrategy == s.invocationStrategy
  {
    DependFacts(s.managers, env, t, priority);
    DependFacts(s.systems, env, t, priority);
    DependFacts(s.plugins, env, t, NORMAL);
  }

  lemma {:induction false} DependsOnAllFacts(s: State, env: Environment, types: seq<ClassName>, priority: int32)
    requires Valid(s)
    ensures var r := DependsOnAll(s, env, types, priority).state;
      Valid(r) && Grows(s, r) && Types(r.plugins) <= Types(s.plugins) + (set t | t in types)
      && r.invocationStrategy == s.invocationStrategy
    decreases |types|
  {
    if types != [] {
      DependOneFacts(s, env, types[0], priority);
      var step := DependOne(s, env, types[0], priority);
      if step.error.None? {
        DependsOnAllFacts(step.state, env, types[1..], priority);
        assert (set t | t in types[1..]) <= (set t | t in types) by {
          forall t | t in types[1..] ensures t in types { }
        }
      }
    }
  }

  /** Every call keeps the invariant, only appends, and adds only the plugin classes it names. */
  lemma ApplyFacts(s: State, env: Environment, a: Action)
    requires Valid(s)
    ensures var r := Apply(s, env, a).state;
      Valid(r) && Grows(s, r) && Types(r.plugins) <= Types(s.plugins) + ActionPluginClasses(a)
  {
    match a
    case WithManagers(items, priority) => AddItemsFacts(s.managers, items, priority, false);
    case WithSystems(items, priority, passive) => AddItemsFacts(s.systems, items, priority, passive);
    case WithPlugins(items) => AddItemsFacts(s.plugins, items, NORMAL, false);
    case DependsOn(types, priority) => DependsOnAllFacts(s, env, types, priority);
    case RegisterResolvers(items) =>
    case RegisterStrategy(strategy) =>
  }

  lemma {:induction false} RunScriptFacts(s: State, env: Environment, script: seq<Action>)
    requires Valid(s)
    ensures var r := RunScript(s, env, script).state;
      Valid(r) && Grows(s, r) && Types(r.plugins) <= Types(s.plugins) + ScriptPluginClasses(script)
    decreases |script|
  {
    if script != [] {
      ApplyFacts(s, env, script[0]);
      var step := Apply(s, env, script[0]);
      if step.error.None? {
        RunScriptFacts(step.state, env, script[1..]);
      }
    }
  }

  lemma SetupWithinUniverse(env: Environment, c: ClassName)
    ensures ScriptPluginClasses(SetupOf(env, c)) <= SetupPluginClasses(env)
  {
    if c in env.setups {
      forall t | t in ScriptPluginClasses(env.setups[c]) ensures t in SetupPluginClasses(env) {
        assert c in env.setups.Keys;
      }
    }
  }

  /**
   * Termination of expansion: a setup leaves the invariant intact and adds only
   * plugin classes of the universe, so the plugin bag, unique per class, cannot
   * outgrow it.
   */
  lemma ExpansionShrinks(s: State, env: Environment, i: nat)
    requires Valid(s) && i < |s.plugins|
    ensures var s' := RunScript(s, env, SetupOf(env, s.plugins[i].ItemType())).state;
      Valid(s') && Grows(s, s') && i + 1 <= |s'.plugins|
      && 0 <= |Universe(s', env)| - (i + 1) < |Universe(s, env)| - i
  {
    var c := s.plugins[i].ItemType();
    var s' := RunScript(s, env, SetupOf(env, c)).state;
    RunScriptFacts(s, env, SetupOf(env, c));
    SetupWithinUniverse(env, c);
    assert Universe(s', env) <= Universe(s, env);
    SubsetCard(Universe(s', env), Universe(s, env));
    UniqueTypesCard(s'.plugins);
    SubsetCard(Types(s'.plugins), Universe(s', env));
    assert |s.plugins| <= |s'.plugins|;
  }
}
