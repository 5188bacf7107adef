/**
 * The entries the world-configuration builder keeps: registered items wrapped with
 * their priority and passive flag, the priority constants, and the one error kind
 * the builder raises.
 */
module Registration {

  /** Java's `int`, the type of a priority. */
  newtype int32 = x: int | -0x8000_0000 <= x < 0x8000_0000

  // WorldConfigurationBuilder.Priority: named bands; any int32 is a legal priority.
  const LOWEST: int32 := -0x8000_0000
  const LOW: int32 := -10000
  const OPERATIONS: int32 := -1000
  const NORMAL: int32 := 0
  const HIGH: int32 := 10000
  const HIGHEST: int32 := 0x7fff_ffff

  /** A class token: two items are of the same type exactly when their names are equal. */
  type ClassName = string

  /**
   * A registered object (manager, system, plugin, field resolver or invocation
   * strategy): `cls` is its concrete runtime class and `id` tells apart distinct
   * objects of one class.
   */
  datatype Item = Item(cls: ClassName, id: nat)

  /** The builder's wrapper around one registered item. */
  datatype Registerable = Registerable(item: Item, priority: int32, passive: bool)
  {
    function ItemType(): ClassName { item.cls }
  }

  datatype Option<T> = None | Some(value: T)

  /** WorldConfigurationException, one variant per place the builder throws it. */
  datatype ConfigurationError =
    | DuplicateManager(cls: ClassName)    // "Manager of type ... registered twice"
    | DuplicateSystem(cls: ClassName)     // "System of type ... registered twice"
    | DuplicatePlugin(cls: ClassName)     // "Plugin of type ... registered twice"
    | PluginPriority(cls: ClassName)      // "Priority not supported on plugins."
    | UnsupportedType(cls: ClassName)     // "Unsupported type. Only supports managers and systems."
    | ReflectionFailure(cls: ClassName)   // "Unable to instance ... via reflection."

  datatype Result<T> = Success(value: T) | Failure(error: ConfigurationError)

  /** The concrete classes present in a bag. */
  function Types(bag: seq<Registerable>): set<ClassName>
  {
    set r | r in bag :: r.ItemType()
  }

  /** The classes of a sequence of items. */
  function ClassesOf(items: seq<Item>): set<ClassName>
  {
    set x | x in items :: x.cls
  }

  /** The builder's invariant on a bag: no two entries share a concrete class. */
  predicate UniqueTypes(bag: seq<Registerable>)
  {
    forall i, j :: 0 <= i < j < |bag| ==> bag[i].ItemType() != bag[j].ItemType()
  }

  /** The entries that registering `items` one by one appends to a bag. */
  function Wrap(items: seq<Item>, priority: int32, passive: bool): seq<Registerable>
  {
    seq(|items|, k requires 0 <= k < |items| => Registerable(items[k], priority, passive))
  }

  /** The items of a bag, in bag order. */
  function ItemsOf(bag: seq<Registerable>): seq<Item>
  {
    seq(|bag|, k requires 0 <= k < |bag| => bag[k].item)
  }

  lemma TypesConcat(a: seq<Registerable>, b: seq<Registerable>)
    ensures Types(a + b) == Types(a) + Types(b)
  {
    forall t | t in Types(a + b) ensures t in Types(a) + Types(b) {
      var r :| r in a + b && r.ItemType() == t;
      if r in a { assert t in Types(a); } else { assert r in b; }
    }
    forall t | t in Types(a) + Types(b) ensures t in Types(a + b) {
      if t in Types(a) {
        var r :| r in a && r.ItemType() == t;
        assert r in a + b;
      } else {
        var r :| r in b && r.ItemType() == t;
        assert r in a + b;
      }
    }
  }

  lemma TypesWrap(items: seq<Item>, priority: int32, passive: bool)
    ensures Types(Wrap(items, priority, passive)) == ClassesOf(items)
  {
    var w := Wrap(items, priority, passive);
    forall t | t in Types(w) ensures t in ClassesOf(items) {
      var r :| r in w && r.ItemType() == t;
      var k :| 0 <= k < |w| && w[k] == r;
      assert items[k] in items;
    }
    forall t | t in ClassesOf(items) ensures t in Types(w) {
      var x :| x in items && x.cls == t;
      var k :| 0 <= k < |items| && items[k] == x;
      assert w[k] in w;
    }
  }

  /** A bag with unique types has as many classes as entries. */
  lemma {:induction false} UniqueTypesCard(bag: seq<Registerable>)
    requires UniqueTypes(bag)
    ensures |Types(bag)| == |bag|
  {
    if bag != [] {
      var init, last := bag[..|bag| - 1], bag[|bag| - 1];
      assert bag == init + [last];
      assert UniqueTypes(init) by {
        forall i, j | 0 <= i < j < |init| ensures init[i].ItemType() != init[j].ItemType() {
          assert init[i] == bag[i] && init[j] == bag[j];
        }
      }
      UniqueTypesCard(init);
      TypesConcat(init, [last]);
      assert Types([last]) == {last.ItemType()};
      assert forall k :: 0 <= k < |init| ==> init[k].ItemType() != last.ItemType() by {
        forall k | 0 <= k < |init| ensures init[k].ItemType() != last.ItemType() {
          assert init[k] == bag[k];
        }
      }
      assert last.ItemType() !in Types(init);
    }
  }

  /** A subset of a finite set is no larger. */
  lemma {:induction false} SubsetCard<T>(a: set<T>, b: set<T>)
    requires a <= b
    ensures |a| <= |b|
    decreases |a|
  {
    if a != {} {
      var x :| x in a;
      SubsetCard(a - {x}, b - {x});
    }
  }
}
