/**
 * The composite demo (src/bin/composite.rs): wood and cars have fixed
 * weights, and a sea container or a tanker weighs what its cargo weighs,
 * however deeply the cargo is nested. Cargo is owned by its container, so a
 * finished component is a value; a container being loaded is an object.
 */
module Composite {

  /** Every kind of component; a container holds its cargo in loading order. */
  datatype Component =
    | Wood
    | Car
    | SeaContainer(items: seq<Component>)
    | Tanker(items: seq<Component>)

  /** `weight` of each component type. */
  function Weight(c: Component): (w: nat)
    ensures c == Wood ==> w == 320
    ensures c == Car ==> w == 2200
    ensures (c.SeaContainer? || c.Tanker?) ==> w == TotalWeight(c.items)
    decreases c, 1
  {
    match c
    case Wood => 320
    case Car => 2200
    case SeaContainer(items) => TotalWeight(items)
    case Tanker(items) => TotalWeight(items)
  }

  /** The sum over the items' weights, taken in order. */
  function TotalWeight(items: seq<Component>): (w: nat)
    ensures items == [] ==> w == 0
    decreases items, 0
  {
    if items == [] then 0
    else TotalWeight(items[..|items| - 1]) + Weight(items[|items| - 1])
  }

  /** The weight of two loads put one after the other is the sum of their weights. */
  lemma {:induction false} TotalWeightAppend(a: seq<Component>, b: seq<Component>)
    ensures TotalWeight(a + b) == TotalWeight(a) + TotalWeight(b)
    decreases |b|
  {
    if b == [] {
      assert a + b == a;
    } else {
      var init := b[..|b| - 1];
      assert (a + b)[..|a + b| - 1] == a + init;
      assert (a + b)[|a + b| - 1] == b[|b| - 1];
      TotalWeightAppend(a, init);
    }
  }

  /** A load of one item weighs what the item weighs. */
  lemma TotalWeightSingle(x: Component)
    ensures TotalWeight([x]) == Weight(x)
  {
    assert [x][..0] == [];
  }

  /** An item put in front of a load adds its own weight. */
  lemma {:induction false} TotalWeightCons(x: Component, post: seq<Component>)
    ensures TotalWeight([x] + post) == Weight(x) + TotalWeight(post)
  {
    TotalWeightAppend([x], post);
    TotalWeightSingle(x);
  }

  /** Taking one item out of a load makes it lighter by exactly that item's weight. */
  lemma {:induction false} TotalWeightRemove(b: seq<Component>, k: nat)
    requires k < |b|
    ensures TotalWeight(b) == TotalWeight(b[..k] + b[k + 1..]) + Weight(b[k])
  {
    var pre, x, post := b[..k], b[k], b[k + 1..];
    calc {
      TotalWeight(b);
      { assert b == pre + ([x] + post); }
      TotalWeight(pre + ([x] + post));
      { TotalWeightAppend(pre, [x] + post); }
      TotalWeight(pre) + TotalWeight([x] + post);
      { TotalWeightCons(x, post); }
      TotalWeight(pre) + Weight(x) + TotalWeight(post);
      { TotalWeightAppend(pre, post); }
      TotalWeight(pre + post) + Weight(x);
    }
  }

  /** Dropping the last item of `a` and an equal item of `b` keeps two permutations permutations. */
  lemma RemoveMatching<T>(a: seq<T>, b: seq<T>, k: nat)
    requires multiset(a) == multiset(b) && a != [] && k < |b| && b[k] == a[|a| - 1]
    ensures multiset(a[..|a| - 1]) == multiset(b[..k] + b[k + 1..])
  {
    var x, init, pre, post := a[|a| - 1], a[..|a| - 1], b[..k], b[k + 1..];
    assert a == init + [x];
    assert b == pre + [x] + post;
    calc {
      multiset(init) + multiset{x};
      multiset(a);
      multiset(b);
      multiset(pre) + multiset{x} + multiset(post);
      multiset(pre + post) + multiset{x};
    }
    forall y ensures multiset(init)[y] == multiset(pre + post)[y] {
      assert (multiset(init) + multiset{x})[y] == (multiset(pre + post) + multiset{x})[y];
    }
  }

  /** The order in which cargo was loaded does not change the weight. */
  lemma {:induction false} TotalWeightPermutation(a: seq<Component>, b: seq<Component>)
    requires multiset(a) == multiset(b)
    ensures TotalWeight(a) == TotalWeight(b)
    decreases |a|
  {
    if a != [] {
      var x := a[|a| - 1];
      var init := a[..|a| - 1];
      assert a == init + [x];
      assert x in multiset(b);
      var k :| 0 <= k < |b| && b[k] == x;
      var pre, post := b[..k], b[k + 1..];
      RemoveMatching(a, b, k);
      TotalWeightPermutation(init, pre + post);
      TotalWeightRemove(b, k);
    }
  }

  /** How many pieces of wood and how many cars a component holds, at any depth. */
  function Woods(c: Component): nat
    decreases c, 1
  {
    match c
    case Wood => 1
    case Car => 0
    case SeaContainer(items) => TotalWoods(items)
    case Tanker(items) => TotalWoods(items)
  }

  function TotalWoods(items: seq<Component>): nat
    decreases items, 0
  {
    if items == [] then 0 else TotalWoods(items[..|items| - 1]) + Woods(items[|items| - 1])
  }

  function Cars(c: Component): nat
    decreases c, 1
  {
    match c
    case Wood => 0
    case Car => 1
    case SeaContainer(items) => TotalCars(items)
    case Tanker(items) => TotalCars(items)
  }

  function TotalCars(items: seq<Component>): nat
    decreases items, 0
  {
    if items == [] then 0 else TotalCars(items[..|items| - 1]) + Cars(items[|items| - 1])
  }

  /** A nested load weighs 320 per piece of wood plus 2200 per car in it, whatever its shape. */
  lemma {:induction false} WeightCountsLeaves(c: Component)
    ensures Weight(c) == 320 * Woods(c) + 2200 * Cars(c)
    decreases c, 1
  {
    match c
    case Wood =>
    case Car =>
    case SeaContainer(items) => TotalWeightCountsLeaves(items);
    case Tanker(items) => TotalWeightCountsLeaves(items);
  }

  lemma {:induction false} TotalWeightCountsLeaves(items: seq<Component>)
    ensures TotalWeight(items) == 320 * TotalWoods(items) + 2200 * TotalCars(items)
    decreases items, 0
  {
    if items != [] {
      TotalWeightCountsLeaves(items[..|items| - 1]);
      WeightCountsLeaves(items[|items| - 1]);
    }
  }

  datatype ContainerKind = Sea | Tank

  /** A sea container or a tanker while it is being loaded. */
  class Container {
    const kind: ContainerKind
    var items: seq<Component>

    constructor (kind: ContainerKind)
      ensures this.kind == kind && items == []
    {
      this.kind := kind;
      items := [];
    }

    /** The finished container, moved out as a component. */
    function AsComponent(): Component
      reads this
    {
      if kind == Sea then SeaContainer(items) else Tanker(items)
    }

    /** `add_cargo`: the cargo goes last, and the container gets heavier by exactly its weight. */
    method AddCargo(cargo: Component)
      modifies this
      ensures items == old(items) + [cargo]
      ensures Weight(AsComponent()) == old(Weight(AsComponent())) + Weight(cargo)
    {
      items := items + [cargo];
      assert items[..|items| - 1] == old(items);
    }
  }

  /** The two containers of `main`: two woods and a car, then a wood and two cars. */
  method LoadContainers() returns (container: Component, container2: Component)
    ensures container == SeaContainer([Wood, Wood, Car])
    ensures container2 == SeaContainer([Wood, Car, Car])
  {
    var c := new Container(Sea);
    c.AddCargo(Wood);
    c.AddCargo(Wood);
    c.AddCargo(Car);
    container := c.AsComponent();
    var c2 := new Container(Sea);
    c2.AddCargo(Wood);
    c2.AddCargo(Car);
    c2.AddCargo(Car);
    container2 := c2.AsComponent();
  }

  /** The demo in `main`: the weights it reports for both containers, the car and the tanker. */
  method CompositeDemo() returns (weight1: nat, weight2: nat, weight3: nat, tankerWeight: nat)
    ensures weight1 == 2840 && weight2 == 4720 && weight3 == 2200 && tankerWeight == 9760
  {
    var container, container2 := LoadContainers();
    weight1, weight2, weight3 := Weight(container), Weight(container2), Weight(Car);
    var tanker := new Container(Tank);
    tanker.AddCargo(container);
    tanker.AddCargo(container2);
    tanker.AddCargo(Car);
    tankerWeight := Weight(tanker.AsComponent());
  }
}
