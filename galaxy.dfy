/** Galaxy.java: a background galaxy image with a position. Its builder and
    its event modifiers read the same two child names the same way. */
module Galaxies {
  import opened Common
  import opened Nodes
  import opened Builder

  const PosKey := "pos"
  const SpriteKey := "sprite"

  /** The fields of a galaxy, as one value. */
  datatype GalaxyData = GalaxyData(name: Option<string>, position: Option<Coord>, sprite: Option<Sprite>)

  /** One child, in the constructor or in `applyModifiers`: `pos` and
      `sprite` overwrite their field (with null on REMOVE or a malformed
      child); any other name is ignored. */
  function Apply(num: NumberSyntax, g: GalaxyData, c: Node): GalaxyData {
    if c.name == PosKey then g.(position := AsCoordinate(num, c))
    else if c.name == SpriteKey then g.(sprite := AsSprite(c))
    else g
  }

  /** The galaxy after the children `cs`, in order. */
  function ApplyAll(num: NumberSyntax, g: GalaxyData, cs: seq<Node>): GalaxyData {
    if cs == [] then g else Apply(num, ApplyAll(num, g, cs[..|cs| - 1]), cs[|cs| - 1])
  }

  /** The galaxy a node describes before its children: the name is the
      first argument when there is one, the position is the origin and
      there is no sprite. */
  function Initial(n: Node): GalaxyData {
    GalaxyData(if |n.args| > 0 then Some(n.args[0]) else None, Some(Origin), None)
  }

  /** The last `pos` child and the last `sprite` child win; without one,
      the field keeps the value it had; the name never changes. */
  lemma {:induction false} LastWins(num: NumberSyntax, g: GalaxyData, cs: seq<Node>)
    ensures ApplyAll(num, g, cs).name == g.name
    ensures ApplyAll(num, g, cs).position ==
      match LastNamed(cs, PosKey) case None => g.position case Some(c) => AsCoordinate(num, c)
    ensures ApplyAll(num, g, cs).sprite ==
      match LastNamed(cs, SpriteKey) case None => g.sprite case Some(c) => AsSprite(c)
  {
    if cs != [] {
      LastWins(num, g, cs[..|cs| - 1]);
    }
  }

  /** A REMOVE `pos` or `sprite` modifier leaves the field null. */
  lemma RemoveClears(num: NumberSyntax, g: GalaxyData, c: Node)
    requires c.flag == Remove
    ensures c.name == PosKey ==> Apply(num, g, c).position.None?
    ensures c.name == SpriteKey ==> Apply(num, g, c).sprite.None?
  {
  }

  /** A galaxy object. */
  class Galaxy {
    const name: Option<string>
    var position: Option<Coord>
    var sprite: Option<Sprite>

    function Data(): GalaxyData
      reads this
    {
      GalaxyData(name, position, sprite)
    }

    /** `new Galaxy(node)`. */
    constructor (num: NumberSyntax, n: Node)
      ensures Data() == ApplyAll(num, Initial(n), n.children)
    {
      name := if |n.args| > 0 then Some(n.args[0]) else None;
      position, sprite := Some(Origin), None;
      new;
      ApplyModifiers(num, n);
    }

    /** `applyModifiers(node)`: the same child loop as the constructor's. */
    method ApplyModifiers(num: NumberSyntax, node: Node)
      modifies this
      ensures Data() == ApplyAll(num, old(Data()), node.children)
    {
      ghost var g0 := Data();
      for i := 0 to |node.children|
        invariant Data() == ApplyAll(num, g0, node.children[..i])
      {
        var child := node.children[i];
        assert node.children[..i + 1][..i] == node.children[..i];
        if child.name == PosKey {
          position := AsCoordinate(num, child);
        } else if child.name == SpriteKey {
          sprite := AsSprite(child);
        }
      }
      assert node.children[..|node.children|] == node.children;
    }
  }
}
