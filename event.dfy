/** Event.java: an event's links and unlinks between star systems and the
    modifier nodes it applies to the map's entities. Applying an event to a
    map is `GalacticMaps.GalacticMap.ApplyEvent`. */
module Events {
  import opened Common
  import opened Nodes
  import opened Builder

  const LinkKey := "link"
  const UnlinkKey := "unlink"

  /** The entity names an event's modifier nodes dispatch on. */
  const GalaxyKey := "galaxy"
  const GovernmentKey := "government"
  const PlanetKey := "planet"
  const SystemKey := "system"
  const WormholeKey := "wormhole"

  /** `ALLOWED_MODIFICATIONS`: the child names kept as modifier nodes. */
  const AllowedModifications: seq<string> :=
    [GalaxyKey, GovernmentKey, "fleet", PlanetKey, "news", "shipyard", SystemKey, "outfitter"]

  /** The fields of an event, as one value. */
  datatype EventValue = EventValue(
    name: Option<string>,
    links: map<string, string>,
    unlinks: map<string, string>,
    modifiers: seq<Node>)

  /** The event before the constructor looks at the children. */
  function Initial(n: Node): EventValue {
    EventValue(if |n.args| > 0 then Some(n.args[0]) else None, map[], map[], [])
  }

  /** One child of the constructor: `link` and `unlink` record their first
      argument mapped to their second (a child with fewer than two is
      skipped), and a child with an allowed name is kept. */
  function Absorb(e: EventValue, c: Node): EventValue {
    if c.name == LinkKey then e.(links := Put(e.links, c))
    else if c.name == UnlinkKey then e.(unlinks := Put(e.unlinks, c))
    else if c.name in AllowedModifications then e.(modifiers := e.modifiers + [c])
    else e
  }

  function AbsorbAll(e: EventValue, cs: seq<Node>): EventValue {
    if cs == [] then e else Absorb(AbsorbAll(e, cs[..|cs| - 1]), cs[|cs| - 1])
  }

  /** The nodes of a list whose names are allowed, in order. */
  function Allowed(cs: seq<Node>): seq<Node> {
    if cs == [] then []
    else Allowed(cs[..|cs| - 1]) + (if cs[|cs| - 1].name in AllowedModifications then [cs[|cs| - 1]] else [])
  }

  /** `Allowed` keeps exactly the nodes with an allowed name. */
  lemma {:induction false} AllowedExactly(cs: seq<Node>, x: Node)
    ensures x in Allowed(cs) <==> x in cs && x.name in AllowedModifications
  {
    if cs != [] {
      var init, c := cs[..|cs| - 1], cs[|cs| - 1];
      AllowedExactly(init, x);
      assert cs == init + [c];
    }
  }

  /** One child changes the link map only when it is a `link` child, the
      unlink map only when it is an `unlink` child, and never the name. */
  lemma AbsorbStep(e: EventValue, c: Node)
    ensures Absorb(e, c).name == e.name
    ensures Absorb(e, c).links == if c.name == LinkKey then Put(e.links, c) else e.links
    ensures Absorb(e, c).unlinks == if c.name == UnlinkKey then Put(e.unlinks, c) else e.unlinks
  {
  }

  /** Putting the nodes of a list filtered by name, one more node at a time. */
  lemma PairsFiltered(m: map<string, string>, named: seq<Node>, c: Node, key: string)
    ensures Pairs(m, named + (if c.name == key then [c] else [])) ==
      if c.name == key then Put(Pairs(m, named), c) else Pairs(m, named)
  {
    if c.name == key {
      assert (named + [c])[..|named|] == named;
    } else {
      assert named + [] == named;
    }
  }

  /** The event's name never changes, and its link and unlink maps are the
      pairs of its `link` and `unlink` children, the last one for a key
      winning (see `Builder.PairsLastWins`). */
  lemma {:induction false} ConstructedLinks(e: EventValue, cs: seq<Node>)
    ensures AbsorbAll(e, cs).name == e.name
    ensures AbsorbAll(e, cs).links == Pairs(e.links, NamedChildren(cs, LinkKey))
    ensures AbsorbAll(e, cs).unlinks == Pairs(e.unlinks, NamedChildren(cs, UnlinkKey))
  {
    if cs != [] {
      var init, c := cs[..|cs| - 1], cs[|cs| - 1];
      ConstructedLinks(e, init);
      AbsorbStep(AbsorbAll(e, init), c);
      PairsFiltered(e.links, NamedChildren(init, LinkKey), c, LinkKey);
      PairsFiltered(e.unlinks, NamedChildren(init, UnlinkKey), c, UnlinkKey);
    }
  }

  /** The modifier nodes are the children with an allowed name, in source
      order; `link` and `unlink` are not among them. */
  lemma {:induction false} ConstructedModifiers(e: EventValue, cs: seq<Node>)
    ensures AbsorbAll(e, cs).modifiers == e.modifiers + Allowed(cs)
  {
    if cs != [] {
      var init, c := cs[..|cs| - 1], cs[|cs| - 1];
      ConstructedModifiers(e, init);
      assert LinkKey !in AllowedModifications && UnlinkKey !in AllowedModifications;
    } else {
      assert e.modifiers + [] == e.modifiers;
    }
  }

  /** The kinds of entity `apply` looks up by a modifier node's label. */
  datatype Entity = GalaxyEntity | GovernmentEntity | PlanetEntity | SystemEntity | WormholeEntity

  /** Where `apply` sends a modifier node: nowhere when it has no label
      (the node is skipped) or its name is none of the five entity names,
      otherwise the entity of that kind named by the label. */
  function Target(node: Node): Option<(Entity, string)> {
    if |node.args| == 0 then None
    else
      var key := node.args[0];
      if node.name == GalaxyKey then Some((GalaxyEntity, key))
      else if node.name == GovernmentKey then Some((GovernmentEntity, key))
      else if node.name == PlanetKey then Some((PlanetEntity, key))
      else if node.name == SystemKey then Some((SystemEntity, key))
      else if node.name == WormholeKey then Some((WormholeEntity, key))
      else None
  }

  /** A node without a label is skipped; a labelled node of one of the five
      entity names targets the entity its label names. */
  lemma TargetCases(node: Node)
    ensures |node.args| == 0 ==> Target(node).None?
    ensures Target(node).Some? ==> Target(node).value.1 == node.args[0]
    ensures Target(node).Some? <==>
      |node.args| > 0 && node.name in [GalaxyKey, GovernmentKey, PlanetKey, SystemKey, WormholeKey]
  {
  }

  /** The `wormhole` branch of `apply` is never taken: `wormhole` is not an
      allowed modification, so no modifier node of a constructed event is
      named so. */
  lemma {:induction false} WormholeUnreachable(n: Node, j: int)
    requires 0 <= j < |AbsorbAll(Initial(n), n.children).modifiers|
    ensures var t := Target(AbsorbAll(Initial(n), n.children).modifiers[j]);
      t.None? || t.value.0 != WormholeEntity
  {
    var ms := AbsorbAll(Initial(n), n.children).modifiers;
    ConstructedModifiers(Initial(n), n.children);
    assert ms == Allowed(n.children);
    AllowedExactly(n.children, ms[j]);
    assert WormholeKey !in AllowedModifications;
  }

  /** An event object. */
  class Event {
    const name: Option<string>
    var linkMap: map<string, string>
    var unlinkMap: map<string, string>
    var modifierNodes: seq<Node>

    ghost function Data(): EventValue
      reads this
    {
      EventValue(name, linkMap, unlinkMap, modifierNodes)
    }

    /** `new Event(node)`. */
    constructor (n: Node)
      ensures Data() == AbsorbAll(Initial(n), n.children)
    {
      name := if |n.args| > 0 then Some(n.args[0]) else None;
      linkMap, unlinkMap, modifierNodes := map[], map[], [];
      new;
      ghost var e0 := Data();
      for i := 0 to |n.children|
        invariant Data() == AbsorbAll(e0, n.children[..i])
      {
        var child := n.children[i];
        var args := child.args;
        assert n.children[..i + 1][..i] == n.children[..i];
        if child.name == LinkKey {
          if |args| >= 2 {
            AddLink(args[0], args[1]);
          }
        } else if child.name == UnlinkKey {
          if |args| >= 2 {
            AddUnlink(args[0], args[1]);
          }
        } else if child.name in AllowedModifications {
          AddModifierNode(child);
        }
      }
      assert n.children[..|n.children|] == n.children;
    }

    /** `addLink(key, value)`. */
    method AddLink(key: string, value: string)
      modifies this
      ensures Data() == old(Data()).(links := old(linkMap)[key := value])
    {
      linkMap := linkMap[key := value];
    }

    /** `addUnlink(key, value)`. */
    method AddUnlink(key: string, value: string)
      modifies this
      ensures Data() == old(Data()).(unlinks := old(unlinkMap)[key := value])
    {
      unlinkMap := unlinkMap[key := value];
    }

    /** `addModifierNode(node)`. */
    method AddModifierNode(node: Node)
      modifies this
      ensures Data() == old(Data()).(modifiers := old(modifierNodes) + [node])
    {
      modifierNodes := modifierNodes + [node];
    }

    /** `getLink(key)`: the system `key` is linked to, or null. */
    function GetLink(key: string): (r: Option<string>)
      reads this
      ensures r.Some? <==> key in linkMap
      ensures r.Some? ==> r.value == linkMap[key]
    {
      if key in linkMap then Some(linkMap[key]) else None
    }

    /** `getUnlink(key)`: the system `key` is unlinked from, or null. */
    function GetUnlink(key: string): (r: Option<string>)
      reads this
      ensures r.Some? <==> key in unlinkMap
      ensures r.Some? ==> r.value == unlinkMap[key]
    {
      if key in unlinkMap then Some(unlinkMap[key]) else None
    }
  }
}
