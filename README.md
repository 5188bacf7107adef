# WorldConfigurationBuilder, modelled in Dafny

`WorldConfigurationBuilder` (artemis-odb-contrib) collects the managers, systems,
field resolvers and plugins of an artemis-odb world, plus an optional system
invocation strategy. It then turns them into one `WorldConfiguration`. Each of the
four collections is a bag of `Registerable` entries: an item with a priority and
a passive flag.

- `with`, `withPassive` and `register` append entries.
  - `with` and `withPassive` refuse a second object of a concrete class already
    in the bag.
  - `register` of field resolvers never refuses.
- `dependsOn` adds a default instance of a class unless one is present.
  - It refuses plugins with a non-default priority and classes that are neither
    managers, systems nor plugins.
- `build` first expands plugins. It runs the setup of every plugin in the bag,
  including plugins that setups append while it runs.
  - It then sorts each bag by descending priority, keeping registration order
    among equal priorities.
  - It copies the bags into the configuration and resets the builder.

The project has five files:

- `registration.dfy` (module `Registration`): the entries, the priority
  constants, Java's 32-bit `int` as `int32`, and the exception kinds.
- `priority_sort.dfy` (module `PrioritySort`): the ordering. It has a
  declarative "stable descending sort" (`IsStableSortOf`) and a function meeting
  it, `SortByPriority`. It also proves that the definition fixes the result.
- `builder_model.dfy` (module `BuilderModel`): the builder's fields as a value
  `State`, with one function per call. `Expand` is plugin expansion and
  `BuildSpec` is `build`.
  - An `Environment` stands in for reflection: which class tokens are managers,
    systems or plugins, which classes can be constructed by default, and each
    plugin class's `setup` as a script of builder calls.
- `builder.dfy` (module `Builder`): the mutable builder as a class with the same
  fields.
  - Every method is proved to leave the fields as the `BuilderModel` function
    says and to keep each bag unique per class.
  - The loops of the source (`containsType`, the `with` loops, `dependsOn`,
    `appendPlugins`, the copy loops of `build`) are loops here.
- `builder_properties.dfy` (module `BuilderProperties`): what the builder
  promises, proved over the model, and the scenarios of the builder's tests.

A thrown `WorldConfigurationException` is an `Option<ConfigurationError>` result,
or a `Failure` for `build`. Everything the call did before the throw keeps its
effect.

## Model

| member | source | states |
|---|---|---|
| Builder.WorldConfigurationBuilder.constructor | contrib-core/src/main/java/net/mostlyoriginal/api/utils/builder/WorldConfigurationBuilder.java:32-35 | a new builder has four empty bags and no strategy |
| Builder.WorldConfigurationBuilder.Reset | contrib-core/src/main/java/net/mostlyoriginal/api/utils/builder/WorldConfigurationBuilder.java:115-121 | every bag is empty and the strategy is unset |
| Builder.WorldConfigurationBuilder.ContainsType | contrib-core/src/main/java/net/mostlyoriginal/api/utils/builder/WorldConfigurationBuilder.java:367-374 | true exactly when some entry's concrete class is the given one |
| Builder.WorldConfigurationBuilder.Append | contrib-core/src/main/java/net/mostlyoriginal/api/utils/builder/WorldConfigurationBuilder.java:176-186 | the shared `with` loop yields the bag and clash that `AddItems` specifies: items appended until the first already-present class |
| Builder.WorldConfigurationBuilder.WithManagers | contrib-core/src/main/java/net/mostlyoriginal/api/utils/builder/WorldConfigurationBuilder.java:159-186 | appends the managers before the first clash at the given priority (NORMAL by default); reports that clash as DuplicateManager; keeps managers unique |
| Builder.WorldConfigurationBuilder.WithSystems | contrib-core/src/main/java/net/mostlyoriginal/api/utils/builder/WorldConfigurationBuilder.java:270-290 | the same for active systems, with DuplicateSystem |
| Builder.WorldConfigurationBuilder.WithPassive | contrib-core/src/main/java/net/mostlyoriginal/api/utils/builder/WorldConfigurationBuilder.java:323-343 | the same for passive systems |
| Builder.WorldConfigurationBuilder.AddSystems | contrib-core/src/main/java/net/mostlyoriginal/api/utils/builder/WorldConfigurationBuilder.java:348-357 | the passive flag is stored as given; duplicates are refused as DuplicateSystem |
| Builder.WorldConfigurationBuilder.WithPlugins | contrib-core/src/main/java/net/mostlyoriginal/api/utils/builder/WorldConfigurationBuilder.java:379-388 | plugins are appended at NORMAL, not passive; duplicates are refused as DuplicatePlugin |
| Builder.WorldConfigurationBuilder.DependsOnManager | contrib-core/src/main/java/net/mostlyoriginal/api/utils/builder/WorldConfigurationBuilder.java:239-243 | no change if the class is present; otherwise one default instance at the priority, or ReflectionFailure with nothing changed |
| Builder.WorldConfigurationBuilder.DependsOnSystem | contrib-core/src/main/java/net/mostlyoriginal/api/utils/builder/WorldConfigurationBuilder.java:245-249 | the same for systems |
| Builder.WorldConfigurationBuilder.DependsOnPlugin | contrib-core/src/main/java/net/mostlyoriginal/api/utils/builder/WorldConfigurationBuilder.java:251-255 | the same for plugins, always at NORMAL |
| Builder.WorldConfigurationBuilder.DependsOn | contrib-core/src/main/java/net/mostlyoriginal/api/utils/builder/WorldConfigurationBuilder.java:196-237 | the state and error are those of `DependsOnAll`: token by token, stopping at the first exception |
| Builder.WorldConfigurationBuilder.RegisterResolvers | contrib-core/src/main/java/net/mostlyoriginal/api/utils/builder/WorldConfigurationBuilder.java:129-134 | every resolver is appended at NORMAL, with no duplicate check |
| Builder.WorldConfigurationBuilder.RegisterStrategy | contrib-core/src/main/java/net/mostlyoriginal/api/utils/builder/WorldConfigurationBuilder.java:142-145 | the strategy slot holds the new strategy |
| Builder.WorldConfigurationBuilder.Perform | contrib-core/src/main/java/net/mostlyoriginal/api/utils/builder/WorldConfigurationBuilder.java:68 | a call made by a plugin's setup changes the builder as `Apply` says |
| Builder.WorldConfigurationBuilder.Setup | contrib-core/src/main/java/net/mostlyoriginal/api/utils/builder/WorldConfigurationBuilder.java:67-68 | running a plugin's setup changes the builder as `RunScript` on its script says |
| Builder.WorldConfigurationBuilder.SetupAt | contrib-core/src/main/java/net/mostlyoriginal/api/utils/builder/WorldConfigurationBuilder.java:67-69 | one turn of the loop: expansion from i is the setup of plugin i followed by expansion from i + 1, and the trace gains that plugin; the unexpanded plugin classes strictly decrease |
| Builder.WorldConfigurationBuilder.AppendPlugins | contrib-core/src/main/java/net/mostlyoriginal/api/utils/builder/WorldConfigurationBuilder.java:63-72 | the final state, the error and the trace of setups the loop ran are those of `Expand` from index 0, with the bag size re-read on every step |
| Builder.WorldConfigurationBuilder.CopyItems | contrib-core/src/main/java/net/mostlyoriginal/api/utils/builder/WorldConfigurationBuilder.java:97-99 | the output holds the bag's items in bag order |
| Builder.WorldConfigurationBuilder.RegisterManagers | contrib-core/src/main/java/net/mostlyoriginal/api/utils/builder/WorldConfigurationBuilder.java:95-100 | returns the bag sorted by descending priority, stably, and the managers in that order |
| Builder.WorldConfigurationBuilder.RegisterSystems | contrib-core/src/main/java/net/mostlyoriginal/api/utils/builder/WorldConfigurationBuilder.java:105-110 | returns the bag sorted by descending priority, stably, and the (system, passive) pairs in that order |
| Builder.WorldConfigurationBuilder.RegisterFieldResolvers | contrib-core/src/main/java/net/mostlyoriginal/api/utils/builder/WorldConfigurationBuilder.java:77-90 | returns the sorted bag, and a resolver chain in sorted order exactly when some resolver was registered |
| Builder.WorldConfigurationBuilder.Assembly | contrib-core/src/main/java/net/mostlyoriginal/api/utils/builder/WorldConfigurationBuilder.java:44-50 | the bags are sorted in place, the configuration is `Assemble` of the bags, and the builder is empty afterwards |
| Builder.WorldConfigurationBuilder.Build | contrib-core/src/main/java/net/mostlyoriginal/api/utils/builder/WorldConfigurationBuilder.java:42-51 | state and result are as `BuildSpec` says; on success the builder is empty |
| BuilderModel.NewInstance | contrib-core/src/main/java/net/mostlyoriginal/api/utils/builder/WorldConfigurationBuilder.java:241 | a reflective instance has exactly the requested class and fails exactly when the class is not constructible |
| BuilderModel.FirstClash | contrib-core/src/main/java/net/mostlyoriginal/api/utils/builder/WorldConfigurationBuilder.java:176-186 | the first item whose class is in the bag or earlier in the call; all items before it are new and pairwise distinct |
| BuilderModel.ClashAt | contrib-core/src/main/java/net/mostlyoriginal/api/utils/builder/WorldConfigurationBuilder.java:179-181 | the `containsType` guard fires at item j exactly when j is the first clash |
| BuilderModel.AddItemsFacts | contrib-core/src/main/java/net/mostlyoriginal/api/utils/builder/WorldConfigurationBuilder.java:176-186 | `with` keeps a bag unique, only appends, and adds only classes of the given items |
| BuilderModel.DependFacts | contrib-core/src/main/java/net/mostlyoriginal/api/utils/builder/WorldConfigurationBuilder.java:239-255 | a dependency keeps a bag unique, only appends, and adds only the requested class |
| BuilderModel.DependOneFacts | contrib-core/src/main/java/net/mostlyoriginal/api/utils/builder/WorldConfigurationBuilder.java:212-237 | one `dependsOn` token keeps the invariant, only appends, and leaves the strategy alone |
| BuilderModel.DependsOnAllFacts | contrib-core/src/main/java/net/mostlyoriginal/api/utils/builder/WorldConfigurationBuilder.java:212-237 | the same for a whole `dependsOn` call |
| BuilderModel.ApplyFacts | contrib-core/src/main/java/net/mostlyoriginal/api/utils/builder/WorldConfigurationBuilder.java:68 | every call a setup can make keeps the invariant, only appends, and adds only the plugin classes it names |
| BuilderModel.RunScriptFacts | contrib-core/src/main/java/net/mostlyoriginal/api/utils/builder/WorldConfigurationBuilder.java:68 | the same for a whole setup |
| BuilderModel.Expand | contrib-core/src/main/java/net/mostlyoriginal/api/utils/builder/WorldConfigurationBuilder.java:63-72 | the invoked setups are those of the final plugins from the start index, in bag order, covering the whole bag on success; the invariant holds and nothing is removed |
| BuilderModel.ExpansionShrinks | contrib-core/src/main/java/net/mostlyoriginal/api/utils/builder/WorldConfigurationBuilder.java:66-69 | each setup reduces the number of plugin classes still unexpanded, so expansion terminates |
| BuilderModel.ExpandStep | contrib-core/src/main/java/net/mostlyoriginal/api/utils/builder/WorldConfigurationBuilder.java:66-69 | expansion at i runs the setup of plugin i, then goes on from i + 1 on the new state unless that setup threw |
| PrioritySort.Insert | contrib-core/src/main/java/net/mostlyoriginal/api/utils/builder/WorldConfigurationBuilder.java:96 | inserting keeps the bag sorted, adds exactly the entry, and places it last among its priority |
| PrioritySort.SortByPriority | contrib-core/src/main/java/net/mostlyoriginal/api/utils/builder/WorldConfigurationBuilder.java:96 | the result is a stable descending sort and a permutation of the bag |
| PrioritySort.StableSortUnique | contrib-core/src/main/java/net/mostlyoriginal/api/utils/builder/WorldConfigurationBuilder.java:96 | two stable descending sorts of one bag are equal |
| PrioritySort.AtPriorityMembership | contrib-core/src/main/java/net/mostlyoriginal/api/utils/builder/WorldConfigurationBuilder.java:96 | an entry is in a priority's run exactly when it is in the bag with that priority |
| Registration.UniqueTypesCard | contrib-core/src/main/java/net/mostlyoriginal/api/utils/builder/WorldConfigurationBuilder.java:367-374 | a bag unique per class has as many classes as entries |
| BuilderProperties.WithRejectsDuplicates | contrib-core/src/main/java/net/mostlyoriginal/api/utils/builder/WorldConfigurationBuilder.java:176-186 | `with` succeeds if and only if the classes are distinct and new; on success every item is appended; on a clash the reported class is present and the items before it stay |
| BuilderProperties.WithRejectsPresentClass | contrib-core/src/main/java/net/mostlyoriginal/api/utils/builder/WorldConfigurationBuilder.java:179-181 | re-registering a present class changes nothing and names that class |
| BuilderProperties.RegisterResolversAppends | contrib-core/src/main/java/net/mostlyoriginal/api/utils/builder/WorldConfigurationBuilder.java:129-134 | registering resolvers always appends and never fails |
| BuilderProperties.StrategyLastWins | contrib-core/src/main/java/net/mostlyoriginal/api/utils/builder/WorldConfigurationBuilder.java:142-145 | of two strategy registrations, the later one is kept |
| BuilderProperties.DependsOnPresentIsNoop | contrib-core/src/main/java/net/mostlyoriginal/api/utils/builder/WorldConfigurationBuilder.java:239-255 | `dependsOn` on a present manager, system or plugin class changes nothing |
| BuilderProperties.DependsOnAppendsOnce | contrib-core/src/main/java/net/mostlyoriginal/api/utils/builder/WorldConfigurationBuilder.java:239-249 | for a new manager or system class, exactly one default instance is appended at the priority |
| BuilderProperties.DependsOnIdempotent | contrib-core/src/main/java/net/mostlyoriginal/api/utils/builder/WorldConfigurationBuilder.java:212-255 | repeating a successful `dependsOn` changes nothing |
| BuilderProperties.DependsOnErrors | contrib-core/src/main/java/net/mostlyoriginal/api/utils/builder/WorldConfigurationBuilder.java:222-233 | a plugin with a non-default priority gives PluginPriority, an unknown kind gives UnsupportedType, and a failed construction gives ReflectionFailure; each leaves the state unchanged |
| BuilderProperties.ExpansionInvokesEachPluginOnce | contrib-core/src/main/java/net/mostlyoriginal/api/utils/builder/WorldConfigurationBuilder.java:63-72 | a successful expansion ran every final plugin's setup once, in bag order, starting with the plugins registered before `build` |
| BuilderProperties.SelfRegistrationStopsExpansion | contrib-core/src/main/java/net/mostlyoriginal/api/utils/builder/WorldConfigurationBuilder.java:379-388 | for any bag and position, a plugin whose setup begins by registering its own class stops expansion there with DuplicatePlugin, with nothing changed and only its own setup run |
| BuilderProperties.SelfRegisteringPluginFails | contrib-core/src/test/java/net/mostlyoriginal/api/utils/builder/WorldConfigurationBuilderPluginTest.java:81-91 | a build whose first plugin registers its own class again fails with DuplicatePlugin and leaves the builder as it was |
| BuilderProperties.BuildSucceeds | contrib-core/src/main/java/net/mostlyoriginal/api/utils/builder/WorldConfigurationBuilder.java:42-51 | a successful build assembled the expanded bags and reset the builder |
| BuilderProperties.BuildOutputOrder | contrib-core/src/main/java/net/mostlyoriginal/api/utils/builder/WorldConfigurationBuilder.java:95-110 | the output order equals every stable descending sort of the expanded bags; a resolver chain exists iff resolvers were registered; the strategy is passed through |
| BuilderProperties.BuildKeepsPassiveFlags | contrib-core/src/main/java/net/mostlyoriginal/api/utils/builder/WorldConfigurationBuilder.java:105-110 | every system reaches the output with its own passive flag, and nothing else does |
| BuilderProperties.EntriesOfPermutation | contrib-core/src/main/java/net/mostlyoriginal/api/utils/builder/WorldConfigurationBuilder.java:107-109 | any permutation of the systems bag yields the same (system, passive) pairs, one per entry |
| BuilderProperties.BuildResetsBuilder | contrib-core/src/test/java/net/mostlyoriginal/api/utils/builder/WorldConfigurationBuilderSystemTest.java:61-67 | after a successful build the builder is empty, and building again yields an empty configuration |
| BuilderProperties.FailedBuildKeepsRegistrations | contrib-core/src/main/java/net/mostlyoriginal/api/utils/builder/WorldConfigurationBuilder.java:42-51 | a build failing during expansion keeps every earlier registration |
| BuilderProperties.BuildWithoutPlugins | contrib-core/src/main/java/net/mostlyoriginal/api/utils/builder/WorldConfigurationBuilder.java:42-51 | with no plugins, build assembles the bags as they are |
| BuilderProperties.DuplicateManagersRefused | contrib-core/src/test/java/net/mostlyoriginal/api/utils/builder/WorldConfigurationBuilderManagerTest.java:26-29 | `with(A, B, A)` is refused naming A, and A and B stay registered |
| BuilderProperties.PriorityOrderExample | contrib-core/src/test/java/net/mostlyoriginal/api/utils/builder/WorldConfigurationBuilderManagerTest.java:67-75 | A and C at NORMAL, then B at HIGHEST, come out as B, A, C |
| BuilderProperties.PartialDependsOn | contrib-core/src/test/java/net/mostlyoriginal/api/utils/builder/WorldConfigurationBuilderPluginTest.java:76-79 | `dependsOn(HIGH, system, plugin)` registers the system, then fails with PluginPriority |
| BuilderProperties.DependOnNewManager | contrib-core/src/main/java/net/mostlyoriginal/api/utils/builder/WorldConfigurationBuilder.java:239-243 | a setup calling `dependsOn(m)` for a new manager appends one default instance |
| BuilderProperties.DependOnPresentManager | contrib-core/src/main/java/net/mostlyoriginal/api/utils/builder/WorldConfigurationBuilder.java:239-243 | the same call for a present manager changes nothing |
| BuilderProperties.SharedDependency | contrib-core/src/test/java/net/mostlyoriginal/api/utils/builder/WorldConfigurationBuilderManagerTest.java:31-43 | two plugins depending on one manager class yield exactly one instance of it |
| BuilderProperties.RegisterNewPlugin | contrib-core/src/main/java/net/mostlyoriginal/api/utils/builder/WorldConfigurationBuilder.java:379-388 | a setup registering a new plugin class appends it |
| BuilderProperties.RegisterFirstSystem | contrib-core/src/test/java/net/mostlyoriginal/api/utils/builder/WorldConfigurationBuilderSystemTest.java:45-51 | `with(system)` registers the system as active |
| BuilderProperties.NestedPlugins | contrib-core/src/test/java/net/mostlyoriginal/api/utils/builder/WorldConfigurationBuilderPluginTest.java:37-50 | a plugin registering a plugin that registers a system runs both setups, outer first, and the system is configured |

## Left out

- Reflection (`ClassReflection.newInstance`, `isAssignableFrom`) and the injection cache's classification (`getFieldClassType`) are an `Environment`. Default construction gives an item with id 0.
- A plugin's `setup` is arbitrary Java code. It is modelled as a fixed script of builder calls, chosen by the plugin's concrete class, so setup code that branches on builder state is not modelled.
- `build` called from inside a plugin's setup is not modelled.
- `Sort.instance().sort` is not part of this model. Its contract is taken to be a stable sort by descending priority. `SortByPriority` meets that contract, and `StableSortUnique` shows that every such sort gives the same order.
- `WorldConfiguration`, `FieldHandler`, `CachedInjector` and `InjectionCache` internals are not modelled. The configuration is a record of the ordered managers, (system, passive) pairs, the resolver chain and the strategy.
- The `activePlugin` field holds the plugin being set up. It is cleared after a successful expansion; a throwing setup leaves it set. Nothing reads it, so it is omitted.
- `Registerable.java` is not part of this model. `Registerable.of(x)` is taken to mean priority NORMAL and not passive, and `of(x, p)` to mean priority p and not passive.
- `EntityCompositionTracker`, the component generator and its model classes, and the `Homing` component are outside the builder and are not modelled.
- Object identity is an `Item`'s class plus a numeric id. Mocks and anonymous classes are just distinct class tokens.
- Self-registration: a plugin whose setup calls `with(this)` is refused by the `containsType` check in `addPlugins` (WorldConfigurationBuilder.java:382-384), so expansion stops with DuplicatePlugin and cannot recurse (`SelfRegistrationStopsExpansion`).
