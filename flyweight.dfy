/**
 * The flyweight demo (src/bin/flyweight.rs): trees carry their own position
 * but share their heavy data through a factory cache keyed by colour and
 * texture name. Shared data is a `TreeExtendData` object, so sharing is
 * reference identity.
 */
module Flyweight {

  datatype Color = Red | Green | Yellow

  /** An `f32` coordinate, carried as its bit pattern and never computed with. */
  datatype F32 = F32(bits: bv32)

  /** The data worth sharing; never changed once made. */
  class TreeExtendData {
    const color: Color
    const textureName: string
    const texture: seq<bv8>

    constructor (color: Color, textureName: string, texture: seq<bv8>)
      ensures this.color == color && this.textureName == textureName && this.texture == texture
    {
      this.color := color;
      this.textureName := textureName;
      this.texture := texture;
    }
  }

  datatype Tree = Tree(x: F32, y: F32, data: TreeExtendData)

  class Forest {
    var trees: seq<Tree>

    constructor ()
      ensures trees == []
    {
      trees := [];
    }

    method Add(tree: Tree)
      modifies this
      ensures trees == old(trees) + [tree]
    {
      trees := trees + [tree];
    }
  }

  class TreeFactory {
    var cache: map<(Color, string), TreeExtendData>

    /** Every cached entry describes the colour and texture name it is filed under. */
    predicate Valid()
      reads this
    {
      forall key | key in cache :: cache[key].color == key.0 && cache[key].textureName == key.1
    }

    constructor ()
      ensures cache == map[] && Valid()
    {
      cache := map[];
    }

    /**
     * `make`: caches new data for the key only if the key is not cached yet,
     * so the first texture given for a key is the one kept, then returns a
     * tree at `(x, y)` sharing the cached data.
     */
    method Make(color: Color, textureName: string, texture: seq<bv8>, x: F32, y: F32) returns (tree: Tree)
      requires Valid()
      modifies this
      ensures Valid()
      ensures (color, textureName) in cache
      ensures (color, textureName) in old(cache) ==> cache == old(cache)
      ensures (color, textureName) !in old(cache) ==>
        fresh(cache[(color, textureName)]) && cache[(color, textureName)].texture == texture &&
        cache == old(cache)[(color, textureName) := cache[(color, textureName)]]
      ensures |cache| == |old(cache)| + if (color, textureName) in old(cache) then 0 else 1
      ensures tree == Tree(x, y, cache[(color, textureName)])
      ensures tree.data.color == color && tree.data.textureName == textureName
    {
      var key := (color, textureName);
      if key !in cache {
        var data := new TreeExtendData(color, textureName, texture);
        cache := cache[key := data];
      }
      tree := Tree(x, y, cache[key]);
    }
  }

  /** Two trees made from the same key, with no other call in between, share their data. */
  method MakeTwice(factory: TreeFactory, color: Color, textureName: string,
                   texture1: seq<bv8>, texture2: seq<bv8>, x1: F32, y1: F32, x2: F32, y2: F32)
    returns (tree1: Tree, tree2: Tree)
    requires factory.Valid()
    modifies factory
    ensures factory.Valid()
    ensures tree1.data == tree2.data
    ensures (color, textureName) !in old(factory.cache) ==> tree2.data.texture == texture1
  {
    tree1 := factory.Make(color, textureName, texture1, x1, y1);
    tree2 := factory.Make(color, textureName, texture2, x2, y2);
  }

  /** 1024 zero bytes, the texture of every tree in `main`. */
  function Blank(): (t: seq<bv8>)
    ensures |t| == 1024 && forall i :: 0 <= i < |t| ==> t[i] == 0
  {
    seq(1024, _ => 0)
  }

  /** The first three calls of `main`: three new keys, so three new entries. */
  method MakeFirstThree(factory: TreeFactory, texture: seq<bv8>) returns (trees: seq<Tree>)
    requires factory.cache == map[] && factory.Valid()
    modifies factory
    ensures factory.Valid() && |factory.cache| == 3 && |trees| == 3
    ensures factory.cache == map[(Red, "a") := trees[0].data, (Green, "b") := trees[1].data,
                                 (Yellow, "c") := trees[2].data]
    ensures trees[0].data != trees[1].data && trees[0].data != trees[2].data && trees[1].data != trees[2].data
  {
    var tree1 := factory.Make(Red, "a", texture, F32(0x4120_0000), F32(0x4120_0000));
    var tree2 := factory.Make(Green, "b", texture, F32(0x41A0_0000), F32(0x41A0_0000));
    var tree3 := factory.Make(Yellow, "c", texture, F32(0x41F0_0000), F32(0x41F0_0000));
    trees := [tree1, tree2, tree3];
  }

  /** The last three calls of `main`: the same three keys again, so the cache stays as it is. */
  method MakeSecondThree(factory: TreeFactory, texture: seq<bv8>, first: seq<Tree>) returns (trees: seq<Tree>)
    requires |first| == 3 && factory.Valid()
    requires factory.cache == map[(Red, "a") := first[0].data, (Green, "b") := first[1].data,
                                  (Yellow, "c") := first[2].data]
    modifies factory
    ensures factory.cache == old(factory.cache) && |trees| == 3
    ensures forall i :: 0 <= i < 3 ==> trees[i].data == first[i].data
  {
    var tree4 := factory.Make(Red, "a", texture, F32(0xC120_0000), F32(0xC120_0000));
    var tree5 := factory.Make(Green, "b", texture, F32(0xC1A0_0000), F32(0xC1A0_0000));
    var tree6 := factory.Make(Yellow, "c", texture, F32(0xC1F0_0000), F32(0xC1F0_0000));
    trees := [tree4, tree5, tree6];
  }

  /** The six `add` calls of `main`, in order. */
  method PlantSix(forest: Forest, t1: Tree, t2: Tree, t3: Tree, t4: Tree, t5: Tree, t6: Tree)
    requires forest.trees == []
    modifies forest
    ensures forest.trees == [t1, t2, t3, t4, t5, t6]
  {
    forest.Add(t1);
    forest.Add(t2);
    forest.Add(t3);
    forest.Add(t4);
    forest.Add(t5);
    forest.Add(t6);
  }

  /**
   * The demo in `main`: six trees over three keys leave three cached entries,
   * six trees in the forest, and the trees three apart share their data.
   * Coordinates are the IEEE 754 bit patterns of 10.0, 20.0, 30.0 and their negatives.
   */
  method FlyweightDemo() returns (factory: TreeFactory, forest: Forest)
    ensures |factory.cache| == 3 && |forest.trees| == 6
    ensures forall i :: 0 <= i < 3 ==> forest.trees[i].data == forest.trees[i + 3].data
    ensures forall i, j :: 0 <= i < j < 3 ==> forest.trees[i].data != forest.trees[j].data
  {
    forest := new Forest();
    factory := new TreeFactory();
    var texture := Blank();
    var first := MakeFirstThree(factory, texture);
    var second := MakeSecondThree(factory, texture, first);
    PlantSix(forest, first[0], first[1], first[2], second[0], second[1], second[2]);
  }
}
