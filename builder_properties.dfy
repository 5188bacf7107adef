/**
 * What the builder promises, stated over the model in BuilderModel and proved:
 * duplicate rejection, idempotent dependencies, plugin expansion that runs every
 * setup once, stable descending order in the output, passive flags passed
 * through, and reset on build. The last group replays the scenarios of the
 * builder's own tests.
 */
module BuilderProperties {
  import opened Registration
  import opened PrioritySort
  import opened BuilderModel

  /** No two items share a concrete class. */
  predicate DistinctClasses(items: seq<Item>)
  {
    forall i, j :: 0 <= i < j < |items| ==> items[i].cls != items[j].cls
  }

  /** The classes of a bag, in bag order. */
  function ClassSeq(bag: seq<Registerable>): seq<ClassName>
  {
    seq(|bag|, k requires 0 <= k < |bag| => bag[k].ItemType())
  }

  // ---------------------------------------------------------------------------
  // Registration

  /**
   * `with` succeeds exactly when the items' classes are distinct and none is in
   * the bag yet; then every item is appended, in order. Otherwise the first item
   * whose class is already present (in the bag or earlier in the call) is named
   * in the error, and the items before it stay appended.
   */
  lemma WithRejectsDuplicates(bag: seq<Registerable>, items: seq<Item>, priority: int32, passive: bool)
    ensures var r := AddItems(bag, items, priority, passive);
      r.clash.None? <==> DistinctClasses(items) && ClassesOf(items) !! Types(bag)
    ensures var r := AddItems(bag, items, priority, passive);
      r.clash.None? ==> r.bag == bag + Wrap(items, priority, passive)
    ensures var r := AddItems(bag, items, priority, passive);
      r.clash.Some? ==> exists k :: (0 <= k < |items| && r.clash.value == items[k].cls
        && items[k].cls in Types(bag) + ClassesOf(items[..k])
        && r.bag == bag + Wrap(items[..k], priority, passive))
  {
    var k := FirstClash(Types(bag), items);
    if k == |items| {
      assert items[..k] == items;
      forall t | t in ClassesOf(items) ensures t !in Types(bag) {
        var x :| x in items && x.cls == t;
        var j :| 0 <= j < |items| && items[j] == x;
      }
    } else {
      var t := items[k].cls;
      assert items[k] in items;
      if t !in Types(bag) {
        var x :| x in items[..k] && x.cls == t;
        var i :| 0 <= i < k && items[..k][i] == x;
        assert items[i].cls == items[k].cls;
        assert !DistinctClasses(items);
      } else {
        assert t in ClassesOf(items);
      }
    }
  }

  /** A class already in the bag cannot be registered again by a later call. */
  lemma WithRejectsPresentClass(bag: seq<Registerable>, x: Item, priority: int32, passive: bool)
    requires x.cls in Types(bag)
    ensures AddItems(bag, [x], priority, passive) == Added(bag, Some(x.cls))
  {
    assert [x][..0] == [];
  }

  /** Resolvers are never checked for duplicates: every `register` call appends. */
  lemma RegisterResolversAppends(s: State, env: Environment, items: seq<Item>)
    ensures Apply(s, env, RegisterResolvers(items))
      == Step(s.(fieldResolvers := s.fieldResolvers + Wrap(items, NORMAL, false)), None)
  {
  }

  /** The last `register(strategy)` wins. */
  lemma {:induction false} StrategyLastWins(s: State, env: Environment, a: Option<Item>, b: Option<Item>)
    ensures RunScript(s, env, [RegisterStrategy(a), RegisterStrategy(b)])
      == Step(s.(invocationStrategy := b), None)
  {
    var s1 := Apply(s, env, RegisterStrategy(a)).state;
    assert [RegisterStrategy(a), RegisterStrategy(b)][1..] == [RegisterStrategy(b)];
    assert RunScript(s1, env, [RegisterStrategy(b)]) == Step(s1.(invocationStrategy := b), None) by {
      assert [RegisterStrategy(b)][1..] == [];
    }
  }

  // ---------------------------------------------------------------------------
  // Dependencies

  /** The bag `dependsOn` adds a class of kind `k` to. */
  function BagOf(s: State, k: Kind): seq<Registerable>
  {
    match k
    case ManagerKind => s.managers
    case SystemKind => s.systems
    case _ => s.plugins
  }

  /** A manager, system or plugin class already present: `dependsOn` changes nothing. */
  lemma DependsOnPresentIsNoop(s: State, env: Environment, t: ClassName, priority: int32)
    requires KindOf(env, t) != UnsupportedKind
    requires KindOf(env, t) == PluginKind ==> priority == NORMAL
    requires t in Types(BagOf(s, KindOf(env, t)))
    ensures DependOne(s, env, t, priority) == Step(s, None)
  {
  }

  /**
   * A manager or system class not yet present: exactly one default instance is
   * appended, at the requested priority, and nothing else changes.
   */
  lemma DependsOnAppendsOnce(s: State, env: Environment, t: ClassName, priority: int32)
    requires KindOf(env, t) == ManagerKind || KindOf(env, t) == SystemKind
    requires t !in Types(BagOf(s, KindOf(env, t))) && t in env.constructible
    ensures var step := DependOne(s, env, t, priority);
      var x := Registerable(Item(t, 0), priority, false);
      step.error == None
      && step.state == (if KindOf(env, t) == ManagerKind
                        then s.(managers := s.managers + [x])
                        else s.(systems := s.systems + [x]))
  {
  }

  lemma InAppended(bag: seq<Registerable>, x: Registerable)
    ensures x.ItemType() in Types(bag + [x])
  {
    assert (bag + [x])[|bag|] == x;
  }

  /** `dependsOn` is idempotent: once it succeeded, repeating it changes nothing. */
  lemma DependsOnIdempotent(s: State, env: Environment, t: ClassName, priority: int32)
    requires DependOne(s, env, t, priority).error.None?
    ensures var s' := DependOne(s, env, t, priority).state;
      DependOne(s', env, t, priority) == Step(s', None)
  {
    var k := KindOf(env, t);
    if k != UnsupportedKind && t !in Types(BagOf(s, k)) {
      InAppended(BagOf(s, k), Registerable(Item(t, 0), if k == PluginKind then NORMAL else priority, false));
    }
  }

  /** The exceptions `dependsOn` raises for one class token, each leaving the state unchanged. */
  lemma DependsOnErrors(s: State, env: Environment, t: ClassName, priority: int32)
    ensures KindOf(env, t) == PluginKind && priority != NORMAL ==>
      DependOne(s, env, t, priority) == Step(s, Some(PluginPriority(t)))
    ensures KindOf(env, t) == UnsupportedKind ==>
      DependOne(s, env, t, priority) == Step(s, Some(UnsupportedType(t)))
    ensures (KindOf(env, t) != UnsupportedKind && (KindOf(env, t) == PluginKind ==> priority == NORMAL)
      && t !in Types(BagOf(s, KindOf(env, t))) && t !in env.constructible) ==>
      DependOne(s, env, t, priority) == Step(s, Some(ReflectionFailure(t)))
  {
  }

  // ---------------------------------------------------------------------------
  // Plugin expansion

  /**
   * A successful expansion from a valid builder invoked the setup of every plugin
   * in the final bag, the ones registered before `build` first, each exactly once.
   */
  lemma ExpansionInvokesEachPluginOnce(s: State, env: Environment)
    requires Valid(s)
    requires Expand(s, env, 0).error.None?
    ensures var e := Expand(s, env, 0);
      s.plugins <= e.state.plugins
      && e.invoked == ClassSeq(e.state.plugins)
      && ClassSeq(s.plugins) <= e.invoked
      && (forall a, b :: 0 <= a < b < |e.invoked| ==> e.invoked[a] != e.invoked[b])
  {
    var e := Expand(s, env, 0);
    assert |e.invoked| == |e.state.plugins|;
    assert e.invoked == ClassSeq(e.state.plugins);
    assert ClassSeq(s.plugins) == ClassSeq(e.state.plugins)[..|s.plugins|];
  }

  /**
   * A plugin whose setup begins by registering an instance of its own class (as
   * `with(this)` does) stops expansion there: `addPlugins` finds the class in
   * the bag and throws DuplicatePlugin, and nothing is changed.
   */
  lemma SelfRegistrationStopsExpansion(s: State, env: Environment, i: nat, q: Item, rest: seq<Action>)
    requires Valid(s) && i < |s.plugins| && q.cls == s.plugins[i].ItemType()
    requires SetupOf(env, q.cls) == [WithPlugins([q])] + rest
    ensures Expand(s, env, i) == Expansion(s, Some(DuplicatePlugin(q.cls)), [q.cls])
  {
    assert s.plugins[i] in s.plugins;
    WithRejectsPresentClass(s.plugins, q, NORMAL, false);
    ExpandStep(s, env, i);
    assert SetupOf(env, q.cls)[0] == WithPlugins([q]);
  }

  /** A build whose first plugin registers itself again fails and keeps the builder as it was. */
  lemma SelfRegisteringPluginFails(s: State, env: Environment, q: Item, rest: seq<Action>)
    requires Valid(s) && s.plugins != [] && q.cls == s.plugins[0].ItemType()
    requires SetupOf(env, q.cls) == [WithPlugins([q])] + rest
    ensures BuildSpec(s, env) == BuildOutcome(s, Failure(DuplicatePlugin(q.cls)))
  {
    SelfRegistrationStopsExpansion(s, env, 0, q, rest);
  }

  // ---------------------------------------------------------------------------
  // Assembly

  /** A successful build assembles the expanded bags and leaves the builder empty. */
  lemma BuildSucceeds(s: State, env: Environment)
    requires Valid(s) && BuildSpec(s, env).result.Success?
    ensures Expand(s, env, 0).error.None?
    ensures BuildSpec(s, env) == BuildOutcome(Empty, Success(Assemble(Expand(s, env, 0).state)))
  {
  }

  /**
   * A successful build hands out, from the bags as expansion left them: the
   * managers, the (system, passive) pairs and the resolver chain in the order of
   * any stable descending-priority sort (they are all the same), the resolver
   * chain only when some resolver was registered, and the strategy only when set.
   */
  lemma BuildOutputOrder(s: State, env: Environment)
    requires Valid(s) && BuildSpec(s, env).result.Success?
    ensures var e := Expand(s, env, 0).state; var c := BuildSpec(s, env).result.value;
      (forall ms :: IsStableSortOf(ms, e.managers) ==> c.managers == ItemsOf(ms))
      && (forall ss :: IsStableSortOf(ss, e.systems) ==> c.systems == SystemEntries(ss))
      && (c.fieldResolvers.Some? <==> |e.fieldResolvers| > 0)
      && (forall rs :: IsStableSortOf(rs, e.fieldResolvers) && |e.fieldResolvers| > 0 ==>
            c.fieldResolvers == Some(ItemsOf(rs)))
      && c.invocationStrategy == e.invocationStrategy
  {
    var e := Expand(s, env, 0).state;
    BuildSucceeds(s, env);
    forall ms | IsStableSortOf(ms, e.managers) ensures ItemsOf(SortByPriority(e.managers)) == ItemsOf(ms) {
      StableSortUnique(ms, SortByPriority(e.managers), e.managers);
    }
    forall ss | IsStableSortOf(ss, e.systems) ensures SystemEntries(SortByPriority(e.systems)) == SystemEntries(ss) {
      StableSortUnique(ss, SortByPriority(e.systems), e.systems);
    }
    forall rs | IsStableSortOf(rs, e.fieldResolvers) ensures ItemsOf(SortByPriority(e.fieldResolvers)) == ItemsOf(rs) {
      StableSortUnique(rs, SortByPriority(e.fieldResolvers), e.fieldResolvers);
    }
  }

  /**
   * `out` carries every entry of `bag` as its (item, passive) pair, and nothing
   * else: one output pair per entry.
   */
  predicate KeepsPassiveFlags(out: seq<(Item, bool)>, bag: seq<Registerable>)
  {
    |out| == |bag|
    && (forall r :: r in bag ==> (r.item, r.passive) in out)
    && (forall k :: 0 <= k < |out| ==>
          exists j :: 0 <= j < |bag| && bag[j].item == out[k].0 && bag[j].passive == out[k].1)
  }

  /**
   * Every system entry reaches the output with its own passive flag, and the
   * output holds nothing else: `with` yields active systems, `withPassive`
   * passive ones.
   */
  lemma BuildKeepsPassiveFlags(s: State, env: Environment)
    requires Valid(s) && BuildSpec(s, env).result.Success?
    ensures KeepsPassiveFlags(BuildSpec(s, env).result.value.systems, Expand(s, env, 0).state.systems)
  {
    var e := Expand(s, env, 0).state;
    BuildSucceeds(s, env);
    EntriesOfPermutation(SortByPriority(e.systems), e.systems);
  }

  lemma EntriesOfPermutation(ss: seq<Registerable>, bag: seq<Registerable>)
    requires multiset(ss) == multiset(bag)
    ensures KeepsPassiveFlags(SystemEntries(ss), bag)
  {
    var out := SystemEntries(ss);
    assert |ss| == |multiset(ss)| == |bag|;
    forall r | r in bag ensures (r.item, r.passive) in out {
      assert r in multiset(ss);
      var k :| 0 <= k < |ss| && ss[k] == r;
      assert out[k] == (r.item, r.passive);
    }
    forall k | 0 <= k < |out|
      ensures exists j :: 0 <= j < |bag| && bag[j].item == out[k].0 && bag[j].passive == out[k].1
    {
      assert ss[k] in multiset(bag);
      var j :| 0 <= j < |bag| && bag[j] == ss[k];
    }
  }

  /** After a successful build the builder is empty again, and building it again gives nothing. */
  lemma BuildResetsBuilder(s: State, env: Environment)
    requires Valid(s) && BuildSpec(s, env).result.Success?
    ensures BuildSpec(s, env).state == Empty
    ensures BuildSpec(BuildSpec(s, env).state, env)
      == BuildOutcome(Empty, Success(WorldConfiguration([], [], None, None)))
  {
    BuildSucceeds(s, env);
    assert SortByPriority([]) == [];
    assert ItemsOf([]) == [] && SystemEntries([]) == [];
  }

  /** A build that fails during expansion skips the reset: earlier registrations stay. */
  lemma FailedBuildKeepsRegistrations(s: State, env: Environment)
    requires Valid(s) && BuildSpec(s, env).result.Failure?
    ensures Grows(s, BuildSpec(s, env).state)
  {
  }

  // ---------------------------------------------------------------------------
  // Scenarios of the builder's tests

  /** A builder holding only the given managers. */
  function WithOnlyManagers(managers: seq<Registerable>): State
  {
    State(managers, [], [], [], None)
  }

  /** `with(a, b, a)` on managers is refused with the repeated class; `a` and `b` stay registered. */
  lemma DuplicateManagersRefused(env: Environment, a: Item, b: Item, a2: Item)
    requires a.cls != b.cls && a2.cls == a.cls
    ensures Apply(Empty, env, WithManagers([a, b, a2], NORMAL))
      == Step(WithOnlyManagers(Wrap([a, b], NORMAL, false)), Some(DuplicateManager(a.cls)))
  {
    var items := [a, b, a2];
    assert FirstClash({}, items) == 2 by {
      assert items[1..] == [b, a2] && items[1..][1..] == [a2];
      assert a.cls in {a.cls} + {b.cls};
    }
    assert items[..2] == [a, b];
  }

  /**
   * Managers registered as A and C at NORMAL and then B at HIGHEST come out as
   * B, A, C: higher priority first, registration order among equals.
   */
  lemma PriorityOrderExample(env: Environment, a: Item, b: Item, c: Item)
    requires a.cls != b.cls && b.cls != c.cls && a.cls != c.cls
    ensures var s := WithOnlyManagers([Registerable(a, NORMAL, false), Registerable(c, NORMAL, false),
                                       Registerable(b, HIGHEST, false)]);
      Valid(s) && BuildSpec(s, env).result == Success(WorldConfiguration([b, a, c], [], None, None))
  {
    var ra, rb, rc := Registerable(a, NORMAL, false), Registerable(b, HIGHEST, false), Registerable(c, NORMAL, false);
    var s := WithOnlyManagers([ra, rc, rb]);
    UniqueThree(ra, rc, rb);
    BuildWithoutPlugins(s, env);
    AssembleOnlyManagers([ra, rc, rb]);
    OrderExampleSort(ra, rb, rc);
    ItemsOfThree(rb, ra, rc);
  }

  lemma AssembleOnlyManagers(managers: seq<Registerable>)
    ensures Assemble(WithOnlyManagers(managers))
      == WorldConfiguration(ItemsOf(SortByPriority(managers)), [], None, None)
  {
    assert SortByPriority([]) == [];
    assert SystemEntries([]) == [];
  }

  lemma ItemsOfThree(x: Registerable, y: Registerable, z: Registerable)
    ensures ItemsOf([x, y, z]) == [x.item, y.item, z.item]
  {
    var r := ItemsOf([x, y, z]);
    assert |r| == 3 && r[0] == x.item && r[1] == y.item && r[2] == z.item;
  }

  lemma UniqueThree(x: Registerable, y: Registerable, z: Registerable)
    requires x.ItemType() != y.ItemType() && y.ItemType() != z.ItemType() && x.ItemType() != z.ItemType()
    ensures UniqueTypes([x, y, z])
  {
    var bag := [x, y, z];
    forall i, j | 0 <= i < j < 3 ensures bag[i].ItemType() != bag[j].ItemType() {
      if i == 0 && j == 1 {
      } else if i == 0 {
        assert j == 2;
      } else {
        assert i == 1 && j == 2;
      }
    }
  }

  /** With no plugin registered, `build` assembles the bags as they are. */
  lemma BuildWithoutPlugins(s: State, env: Environment)
    requires Valid(s) && s.plugins == []
    ensures BuildSpec(s, env) == BuildOutcome(Empty, Success(Assemble(s)))
  {
    assert Expand(s, env, 0) == Expansion(s, None, []);
  }

  lemma OrderExampleSort(ra: Registerable, rb: Registerable, rc: Registerable)
    requires ra.priority == NORMAL && rc.priority == NORMAL && rb.priority == HIGHEST
    ensures SortByPriority([ra, rc, rb]) == [rb, ra, rc]
  {
    forall p ensures AtPriority([rb, ra, rc], p) == AtPriority([ra, rc, rb], p) {
      OrderExampleRuns(ra, rb, rc, p);
    }
    StableSortUnique(SortByPriority([ra, rc, rb]), [rb, ra, rc], [ra, rc, rb]);
  }

  lemma OrderExampleRuns(ra: Registerable, rb: Registerable, rc: Registerable, p: int32)
    requires ra.priority == NORMAL && rc.priority == NORMAL && rb.priority == HIGHEST
    ensures AtPriority([rb, ra, rc], p) == AtPriority([ra, rc, rb], p)
  {
    RunsOfThree(rb, ra, rc, p);
    RunsOfThree(ra, rc, rb, p);
  }

  /** The runs of a three-entry bag, one append at a time. */
  lemma RunsOfThree(x: Registerable, y: Registerable, z: Registerable, p: int32)
    ensures AtPriority([x, y, z], p)
      == (if x.priority == p then [x] else []) + (if y.priority == p then [y] else [])
         + (if z.priority == p then [z] else [])
  {
    AtPrioritySnoc([], x, p);
    AtPrioritySnoc([x], y, p);
    AtPrioritySnoc([x, y], z, p);
    assert [] + [x] == [x] && [x] + [y] == [x, y] && [x, y] + [z] == [x, y, z];
  }

  /**
   * `dependsOn(HIGH, SysA, PlugB)` registers system SysA at HIGH and then
   * refuses the plugin for its priority: the earlier token keeps its effect.
   */
  lemma PartialDependsOn(env: Environment, sys: ClassName, plugin: ClassName)
    requires KindOf(env, sys) == SystemKind && sys in env.constructible
    requires KindOf(env, plugin) == PluginKind
    ensures DependsOnAll(Empty, env, [sys, plugin], HIGH)
      == Step(Empty.(systems := [Registerable(Item(sys, 0), HIGH, false)]), Some(PluginPriority(plugin)))
  {
    assert [sys, plugin][1..] == [plugin];
  }

  /** `dependsOn(m)` for a manager class not yet present appends one default instance. */
  lemma DependOnNewManager(s: State, env: Environment, m: ClassName)
    requires KindOf(env, m) == ManagerKind && m in env.constructible && m !in Types(s.managers)
    ensures RunScript(s, env, [DependsOn([m], NORMAL)])
      == Step(s.(managers := s.managers + [Registerable(Item(m, 0), NORMAL, false)]), None)
  {
    var t := s.(managers := s.managers + [Registerable(Item(m, 0), NORMAL, false)]);
    assert DependOne(s, env, m, NORMAL) == Step(t, None);
    assert [m][1..] == [];
    assert DependsOnAll(s, env, [m], NORMAL) == DependsOnAll(t, env, [], NORMAL);
    assert [DependsOn([m], NORMAL)][1..] == [];
    assert RunScript(s, env, [DependsOn([m], NORMAL)]) == RunScript(t, env, []);
  }

  /** `dependsOn(m)` for a manager class already present changes nothing. */
  lemma DependOnPresentManager(s: State, env: Environment, m: ClassName)
    requires KindOf(env, m) == ManagerKind && m in Types(s.managers)
    ensures RunScript(s, env, [DependsOn([m], NORMAL)]) == Step(s, None)
  {
    assert DependOne(s, env, m, NORMAL) == Step(s, None);
    assert [m][1..] == [];
    assert DependsOnAll(s, env, [m], NORMAL) == DependsOnAll(s, env, [], NORMAL);
    assert [DependsOn([m], NORMAL)][1..] == [];
    assert RunScript(s, env, [DependsOn([m], NORMAL)]) == RunScript(s, env, []);
  }

  /**
   * Two plugins whose setups both depend on manager class `m`: the build hands
   * out a single default instance of `m`.
   */
  lemma SharedDependency(env: Environment, p1: Item, p2: Item, m: ClassName)
    requires p1.cls != p2.cls
    requires KindOf(env, m) == ManagerKind && m in env.constructible
    requires SetupOf(env, p1.cls) == [DependsOn([m], NORMAL)] && SetupOf(env, p2.cls) == [DependsOn([m], NORMAL)]
    ensures var s := Empty.(plugins := Wrap([p1, p2], NORMAL, false));
      Valid(s) && BuildSpec(s, env).result == Success(WorldConfiguration([Item(m, 0)], [], None, None))
  {
    var s := Empty.(plugins := Wrap([p1, p2], NORMAL, false));
    var x := Registerable(Item(m, 0), NORMAL, false);
    var s1 := s.(managers := [x]);
    assert s.plugins[0].ItemType() == p1.cls && s.plugins[1].ItemType() == p2.cls;
    assert Valid(s);
    DependOnNewManager(s, env, m);
    assert [] + [x] == [x];
    ExpandStep(s, env, 0);
    InAppended([], x);
    DependOnPresentManager(s1, env, m);
    ExpandStep(s1, env, 1);
    assert Expand(s1, env, 2) == Expansion(s1, None, []);
    assert SortByPriority([x]) == [x] by {
      assert [x][..0] == [];
    }
    assert SortByPriority([]) == [];
    assert ItemsOf([x]) == [Item(m, 0)];
    assert ItemsOf([]) == [] && SystemEntries([]) == [];
  }

  /** `with(plugin)` for a plugin class not yet present appends it. */
  lemma RegisterNewPlugin(s: State, env: Environment, q: Item)
    requires q.cls !in Types(s.plugins)
    ensures RunScript(s, env, [WithPlugins([q])])
      == Step(s.(plugins := s.plugins + [Registerable(q, NORMAL, false)]), None)
  {
    assert [WithPlugins([q])][1..] == [];
    assert FirstClash(Types(s.plugins), [q]) == 1 by {
      assert [q][1..] == [];
    }
    assert [q][..1] == [q];
    assert Wrap([q], NORMAL, false) == [Registerable(q, NORMAL, false)];
  }

  /** `with(system)` on a builder without systems registers it, active. */
  lemma RegisterFirstSystem(s: State, env: Environment, x: Item)
    requires s.systems == []
    ensures RunScript(s, env, [WithSystems([x], NORMAL, false)])
      == Step(s.(systems := [Registerable(x, NORMAL, false)]), None)
  {
    assert [WithSystems([x], NORMAL, false)][1..] == [];
    assert FirstClash(Types([]), [x]) == 1 by {
      assert [x][1..] == [];
    }
    assert [x][..1] == [x];
    assert Wrap([x], NORMAL, false) == [Registerable(x, NORMAL, false)];
  }

  /**
   * A plugin whose setup registers a second plugin, whose setup registers a
   * system: both setups run, outer first, and the system is in the configuration.
   */
  lemma NestedPlugins(env: Environment, outer: Item, inner: Item, sys: Item)
    requires outer.cls != inner.cls
    requires SetupOf(env, outer.cls) == [WithPlugins([inner])]
    requires SetupOf(env, inner.cls) == [WithSystems([sys], NORMAL, false)]
    ensures var s := Empty.(plugins := [Registerable(outer, NORMAL, false)]);
      Valid(s) && Expand(s, env, 0).invoked == [outer.cls, inner.cls]
      && BuildSpec(s, env).result == Success(WorldConfiguration([], [(sys, false)], None, None))
  {
    var ro, ri, rs := Registerable(outer, NORMAL, false), Registerable(inner, NORMAL, false), Registerable(sys, NORMAL, false);
    var s := Empty.(plugins := [ro]);
    var s1 := s.(plugins := [ro, ri]);
    var s2 := s1.(systems := [rs]);
    assert Types([ro]) == {outer.cls} by {
      assert ro in [ro];
    }
    RegisterNewPlugin(s, env, inner);
    assert [ro] + [ri] == [ro, ri];
    ExpandStep(s, env, 0);
    assert s1.plugins[1].ItemType() == inner.cls;
    RegisterFirstSystem(s1, env, sys);
    ExpandStep(s1, env, 1);
    assert Expand(s2, env, 2) == Expansion(s2, None, []);
    assert SortByPriority([rs]) == [rs] by {
      assert [rs][..0] == [];
    }
    assert SortByPriority([]) == [];
    assert SystemEntries([rs]) == [(sys, false)];
    assert ItemsOf([]) == [];
  }
}
