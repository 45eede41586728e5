/** Wormhole.java: a wormhole's display name, whether the map shows it, and
    the links it makes between star systems. */
module Wormholes {
  import opened Common
  import opened Nodes
  import opened Builder

  const DisplayNameKey := "display name"
  const MappableKey := "mappable"
  const LinkKey := "link"

  /** The display name a wormhole starts with and falls back to. */
  const Unnamed := "???"

  /** The fields of a wormhole, as one value. */
  datatype WormholeData = WormholeData(
    name: Option<string>,
    displayName: Option<string>,
    mappable: bool,
    links: map<string, string>)

  /** The wormhole before the constructor looks at the children. */
  function Initial(n: Node): WormholeData {
    WormholeData(if |n.args| > 0 then Some(n.args[0]) else None, Some(Unnamed), false, map[])
  }

  /** One child of the constructor: the display name is whatever
      `asString` gives (null included), `mappable` sets the flag, and a
      `link` with two arguments maps the first to the second. */
  function Absorb(w: WormholeData, c: Node): WormholeData {
    if c.name == DisplayNameKey then w.(displayName := AsString(c))
    else if c.name == MappableKey then w.(mappable := true)
    else if c.name == LinkKey then w.(links := Put(w.links, c))
    else w
  }

  function AbsorbAll(w: WormholeData, cs: seq<Node>): WormholeData {
    if cs == [] then w else Absorb(AbsorbAll(w, cs[..|cs| - 1]), cs[|cs| - 1])
  }

  /** Whether some node of the list has the name. */
  predicate AnyNamed(cs: seq<Node>, key: string) {
    exists j :: 0 <= j < |cs| && cs[j].name == key
  }

  /** The constructor: the name never changes and the last `display
      name` child sets the display name. */
  lemma {:induction false} ConstructedNames(w: WormholeData, cs: seq<Node>)
    ensures AbsorbAll(w, cs).name == w.name
    ensures AbsorbAll(w, cs).displayName ==
      match LastNamed(cs, DisplayNameKey) case None => w.displayName case Some(c) => AsString(c)
  {
    if cs != [] {
      ConstructedNames(w, cs[..|cs| - 1]);
    }
  }

  /** The wormhole is mappable exactly when some `mappable` child is
      present (or it already was). */
  lemma {:induction false} ConstructedMappable(w: WormholeData, cs: seq<Node>)
    ensures AbsorbAll(w, cs).mappable <==> w.mappable || AnyNamed(cs, MappableKey)
  {
    if cs != [] {
      var init, c := cs[..|cs| - 1], cs[|cs| - 1];
      ConstructedMappable(w, init);
      if AnyNamed(cs, MappableKey) && c.name != MappableKey {
        var j :| 0 <= j < |cs| && cs[j].name == MappableKey;
        assert init[j].name == MappableKey;
      }
      if AnyNamed(init, MappableKey) {
        var j :| 0 <= j < |init| && init[j].name == MappableKey;
        assert cs[j].name == MappableKey;
      }
    }
  }

  /** The links are the `link` children's pairs, the last one for a key
      winning (see `PairsLastWins`). */
  lemma {:induction false} ConstructedLinks(w: WormholeData, cs: seq<Node>)
    ensures AbsorbAll(w, cs).links == Pairs(w.links, NamedChildren(cs, LinkKey))
  {
    if cs != [] {
      var init, c := cs[..|cs| - 1], cs[|cs| - 1];
      ConstructedLinks(w, init);
      if c.name == LinkKey {
        var named := NamedChildren(init, LinkKey);
        assert (named + [c])[..|named|] == named;
      } else {
        assert NamedChildren(init, LinkKey) + [] == NamedChildren(init, LinkKey);
      }
    }
  }

  /** One child of `applyModifiers`: a display name that comes out null
      falls back to "???", `mappable` follows the flag, and a REMOVE `link`
      clears every link whatever its arguments. */
  function Modify(w: WormholeData, c: Node): WormholeData {
    if c.name == DisplayNameKey then w.(displayName := Some(AsString(c).GetOr(Unnamed)))
    else if c.name == MappableKey then w.(mappable := c.flag != Remove)
    else if c.name == LinkKey then w.(links := if c.flag == Remove then map[] else Put(w.links, c))
    else w
  }

  function ModifyAll(w: WormholeData, cs: seq<Node>): WormholeData {
    if cs == [] then w else Modify(ModifyAll(w, cs[..|cs| - 1]), cs[|cs| - 1])
  }

  /** The links `applyModifiers` leaves, looking at the `link` children
      only. */
  function LinksAfter(m: map<string, string>, cs: seq<Node>): map<string, string> {
    if cs == [] then m
    else
      var c := cs[|cs| - 1];
      var before := LinksAfter(m, cs[..|cs| - 1]);
      if c.name != LinkKey then before else if c.flag == Remove then map[] else Put(before, c)
  }

  /** The modifiers: the name never changes; the last `display name`
      child decides the display name, which is never null afterwards; the
      last `mappable` child decides the flag; the links evolve as
      `LinksAfter` says. */
  lemma {:induction false} Modified(w: WormholeData, cs: seq<Node>)
    ensures ModifyAll(w, cs).name == w.name
    ensures ModifyAll(w, cs).displayName ==
      match LastNamed(cs, DisplayNameKey) case None => w.displayName case Some(c) => Some(AsString(c).GetOr(Unnamed))
    ensures ModifyAll(w, cs).mappable ==
      match LastNamed(cs, MappableKey) case None => w.mappable case Some(c) => c.flag != Remove
    ensures ModifyAll(w, cs).links == LinksAfter(w.links, cs)
  {
    if cs != [] {
      Modified(w, cs[..|cs| - 1]);
    }
  }

  /** A REMOVE `link` modifier discards every link made before it: the
      links afterwards depend only on the children after it. */
  lemma {:induction false} RemoveLinkForgets(m: map<string, string>, cs: seq<Node>, j: nat)
    requires j < |cs| && cs[j].name == LinkKey && cs[j].flag == Remove
    ensures LinksAfter(m, cs) == LinksAfter(map[], cs[j + 1..])
    decreases |cs|
  {
    if |cs| - 1 > j {
      var init := cs[..|cs| - 1];
      RemoveLinkForgets(m, init, j);
      assert cs[j + 1..][..|cs[j + 1..]| - 1] == init[j + 1..];
    }
  }

  /** Without REMOVE `link` modifiers, links are only ever put. */
  lemma {:induction false} LinksOnlyPut(m: map<string, string>, cs: seq<Node>)
    requires forall j :: 0 <= j < |cs| && cs[j].name == LinkKey ==> cs[j].flag != Remove
    ensures LinksAfter(m, cs) == Pairs(m, NamedChildren(cs, LinkKey))
  {
    if cs != [] {
      var init, c := cs[..|cs| - 1], cs[|cs| - 1];
      LinksOnlyPut(m, init);
      if c.name == LinkKey {
        var named := NamedChildren(init, LinkKey);
        assert (named + [c])[..|named|] == named;
      } else {
        assert NamedChildren(init, LinkKey) + [] == NamedChildren(init, LinkKey);
      }
    }
  }

  /** A wormhole object. */
  class Wormhole {
    const name: Option<string>
    var displayName: Option<string>
    var mappable: bool
    var links: map<string, string>

    function Data(): WormholeData
      reads this
    {
      WormholeData(name, displayName, mappable, links)
    }

    /** `new Wormhole(node)`. */
    constructor (n: Node)
      ensures Data() == AbsorbAll(Initial(n), n.children)
    {
      name := if |n.args| > 0 then Some(n.args[0]) else None;
      displayName, mappable, links := Some(Unnamed), false, map[];
      new;
      ghost var w0 := Data();
      for i := 0 to |n.children|
        invariant Data() == AbsorbAll(w0, n.children[..i])
      {
        var child := n.children[i];
        assert n.children[..i + 1][..i] == n.children[..i];
        if child.name == DisplayNameKey {
          displayName := AsString(child);
        } else if child.name == MappableKey {
          mappable := true;
        } else if child.name == LinkKey {
          if |child.args| >= 2 {
            links := links[child.args[0] := child.args[1]];
          }
        }
      }
      assert n.children[..|n.children|] == n.children;
    }

    /** `applyModifiers(node)`. */
    method ApplyModifiers(node: Node)
      modifies this
      ensures Data() == ModifyAll(old(Data()), node.children)
    {
      ghost var w0 := Data();
      for i := 0 to |node.children|
        invariant Data() == ModifyAll(w0, node.children[..i])
      {
        var child := node.children[i];
        assert node.children[..i + 1][..i] == node.children[..i];
        if child.name == DisplayNameKey {
          displayName := AsString(child);
          if displayName.None? {
            displayName := Some(Unnamed);
          }
        } else if child.name == MappableKey {
          mappable := child.flag != Remove;
        } else if child.name == LinkKey {
          if child.flag == Remove {
            links := map[];
          } else if |child.args| >= 2 {
            links := links[child.args[0] := child.args[1]];
          }
        }
      }
      assert node.children[..|node.children|] == node.children;
    }

    /** `getLink(s)`: the system the wormhole leads to from `s`, or null. */
    function GetLink(s: string): (r: Option<string>)
      reads this
      ensures r.Some? <==> s in links
      ensures r.Some? ==> r.value == links[s]
    {
      if s in links then Some(links[s]) else None
    }
  }
}
