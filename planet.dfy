/** Planet.java: a planet built from a `planet` node and patched by event
    modifiers, including the tribute it demands and the fleets that defend
    it. */
module Planets {
  import opened Common
  import opened Nodes
  import opened Builder

  /** The fields of a planet, as one value. The shipyard and outfitter lists
      hold whatever `asString` gave, null included. */
  datatype PlanetData = PlanetData(
    name: Option<string>,
    attributes: seq<string>,
    landscape: Option<Sprite>,
    music: Option<string>,
    description: string,
    spaceport: string,
    port: Option<Node>,
    government: Option<string>,
    shipyards: seq<Option<string>>,
    outfitters: seq<Option<string>>,
    requiredReputation: real,
    bribe: real,
    security: real,
    wormhole: Option<string>,
    tributeValue: Int32,
    tributeThreshold: Int32,
    tributeFleets: map<string, Int32>)

  /** The child names the planet builders recognise. */
  datatype PlanetKind =
    | Attributes | Landscape | Music | Description | Spaceport | Port | Government
    | Shipyard | Outfitter | RequiredReputation | Bribe | Security | Wormhole | Tribute | Unknown

  const AttributesKey := "attributes"
  const LandscapeKey := "landscape"
  const MusicKey := "music"
  const DescriptionKey := "description"
  const SpaceportKey := "spaceport"
  const PortKey := "port"
  const GovernmentKey := "government"
  const ShipyardKey := "shipyard"
  const OutfitterKey := "outfitter"
  const RequiredReputationKey := "required reputation"
  const BribeKey := "bribe"
  const SecurityKey := "security"
  const WormholeKey := "wormhole"
  const TributeKey := "tribute"
  const ThresholdKey := "threshold"
  const FleetKey := "fleet"

  /** The defaults a REMOVE modifier restores. */
  const DefaultBribe := 0.01
  const DefaultSecurity := 0.25
  const DefaultThreshold: Int32 := 4000

  /** Which branch of the constructor's `equals` chain a child name takes. */
  function KindOf(name: string): PlanetKind {
    if name == AttributesKey then Attributes
    else if name == LandscapeKey then Landscape
    else if name == MusicKey then Music
    else if name == DescriptionKey then Description
    else if name == SpaceportKey then Spaceport
    else if name == PortKey then Port
    else if name == GovernmentKey then Government
    else if name == ShipyardKey then Shipyard
    else if name == OutfitterKey then Outfitter
    else if name == RequiredReputationKey then RequiredReputation
    else if name == BribeKey then Bribe
    else if name == SecurityKey then Security
    else if name == WormholeKey then Wormhole
    else if name == TributeKey then Tribute
    else Unknown
  }

  lemma KindOfAttributes(name: string)
    ensures KindOf(name) == Attributes <==> name == AttributesKey
  {
  }

  lemma KindOfDescription(name: string)
    ensures KindOf(name) == Description <==> name == DescriptionKey
  {
  }

  lemma KindOfSpaceport(name: string)
    ensures KindOf(name) == Spaceport <==> name == SpaceportKey
  {
  }

  lemma KindOfShipyard(name: string)
    ensures KindOf(name) == Shipyard <==> name == ShipyardKey
  {
  }

  lemma KindOfOutfitter(name: string)
    ensures KindOf(name) == Outfitter <==> name == OutfitterKey
  {
  }

  /** The branch each child of a list takes in the constructor. */
  function Kinds(cs: seq<Node>): seq<PlanetKind> {
    seq(|cs|, j requires 0 <= j < |cs| => KindOf(cs[j].name))
  }

  /** The five list-like branches are taken by exactly the children of
      their own name. */
  lemma KindsMark(cs: seq<Node>, k: PlanetKind, key: string)
    requires (k, key) in {(Attributes, AttributesKey), (Description, DescriptionKey),
      (Spaceport, SpaceportKey), (Shipyard, ShipyardKey), (Outfitter, OutfitterKey)}
    ensures Marks(cs, Kinds(cs), k, key)
  {
    forall j | 0 <= j < |cs|
      ensures Kinds(cs)[j] == k <==> cs[j].name == key
    {
      match k
      case Attributes => KindOfAttributes(cs[j].name);
      case Description => KindOfDescription(cs[j].name);
      case Spaceport => KindOfSpaceport(cs[j].name);
      case Shipyard => KindOfShipyard(cs[j].name);
      case Outfitter => KindOfOutfitter(cs[j].name);
    }
  }

  // ---------------------------------------------------------------- tribute

  /** The fleets after `addTributeFleet`: a repeated fleet adds to its count, with Java's
      `int` wrap-around; a new fleet is inserted with the count. */
  function AddedFleet(fleets: map<string, Int32>, fleet: string, count: Int32): (r: map<string, Int32>)
    ensures fleet in r && r - {fleet} == fleets - {fleet}
    ensures fleet in fleets ==> r[fleet] == Wrap32(fleets[fleet] + count)
    ensures fleet !in fleets ==> r[fleet] == count
  {
    if fleet in fleets then fleets[fleet := Wrap32(fleets[fleet] + count)] else fleets[fleet := count]
  }

  /** The count a `fleet` grandchild gives, or None when its name or count
      is missing or the count does not parse (the source catches every
      exception of that call). */
  function FleetCount(num: NumberSyntax, g: Node): Option<Int32> {
    if |g.args| < 2 then None else num.parseInt(g.args[1])
  }

  /** A `threshold` grandchild without an argument: reading it throws
      IndexOutOfBoundsException, which only the handler around the whole
      tribute catches. */
  predicate Aborts(g: Node) {
    g.name == ThresholdKey && g.args == []
  }

  /** A `fleet` grandchild that adds a count to the fleet named `fleet`. */
  predicate Lists(num: NumberSyntax, g: Node, fleet: string) {
    g.name == FleetKey && FleetCount(num, g).Some? && g.args[0] == fleet
  }

  /** What one grandchild that does not cut the loop does: `threshold`
      sets the threshold when it parses, `fleet` adds a fleet when its
      name and count are there and the count parses. */
  function GrandStep(num: NumberSyntax, d: PlanetData, g: Node): PlanetData
    requires !Aborts(g)
  {
    if g.name == ThresholdKey then
      match num.parseInt(g.args[0]) case Some(v) => d.(tributeThreshold := v) case None => d
    else if g.name == FleetKey then
      match FleetCount(num, g)
      case Some(v) => d.(tributeFleets := AddedFleet(d.tributeFleets, g.args[0], v))
      case None => d
    else d
  }

  /** The tribute's grandchild loop on `gs`, which an aborting threshold
      ends with what has been done so far. */
  function Grands(num: NumberSyntax, d: PlanetData, gs: seq<Node>): PlanetData
    decreases |gs|
  {
    if gs == [] then d
    else if Aborts(gs[0]) then d
    else Grands(num, GrandStep(num, d, gs[0]), gs[1..])
  }

  /** A `tribute` child that is not a REMOVE modifier: without a value
      nothing happens; an unparsable value is skipped but the grandchildren
      are still read. */
  function TributeOf(num: NumberSyntax, d: PlanetData, c: Node): PlanetData {
    if c.args == [] then d
    else
      var d' := match num.parseInt(c.args[0]) case Some(v) => d.(tributeValue := v) case None => d;
      Grands(num, d', c.children)
  }

  /** The tribute cases: a missing value skips the whole child, grandchildren
      included; otherwise the value is set when it parses and the
      grandchildren are read either way. */
  lemma TributeCases(num: NumberSyntax, d: PlanetData, c: Node)
    ensures c.args == [] ==> TributeOf(num, d, c) == d
    ensures c.args != [] && num.parseInt(c.args[0]).None? ==>
      TributeOf(num, d, c) == Grands(num, d, c.children)
    ensures c.args != [] && num.parseInt(c.args[0]).Some? ==>
      TributeOf(num, d, c) == Grands(num, d.(tributeValue := num.parseInt(c.args[0]).value), c.children)
  {
  }

  /** The grandchild loop touches only the threshold and the fleets. */
  lemma {:induction false} GrandsTouchOnlyTribute(num: NumberSyntax, d: PlanetData, gs: seq<Node>)
    ensures Grands(num, d, gs) == d.(tributeThreshold := Grands(num, d, gs).tributeThreshold,
      tributeFleets := Grands(num, d, gs).tributeFleets)
    decreases |gs|
  {
    if gs != [] && !Aborts(gs[0]) {
      GrandsTouchOnlyTribute(num, GrandStep(num, d, gs[0]), gs[1..]);
    }
  }

  /** A threshold without an argument cuts the loop: the grandchildren
      after it are never read. */
  lemma {:induction false} GrandsAbort(num: NumberSyntax, d: PlanetData, gs: seq<Node>, j: nat)
    requires j < |gs| && Aborts(gs[j])
    ensures Grands(num, d, gs) == Grands(num, d, gs[..j])
    decreases j
  {
    if j > 0 && !Aborts(gs[0]) {
      assert gs[1..][..j - 1] == gs[..j][1..];
      GrandsAbort(num, GrandStep(num, d, gs[0]), gs[1..], j - 1);
    }
  }

  /** No grandchild cuts the loop. */
  predicate NoAbort(gs: seq<Node>) {
    forall j :: 0 <= j < |gs| ==> !Aborts(gs[j])
  }

  /** Some grandchild of `gs` adds a count to `fleet`. */
  predicate Listed(num: NumberSyntax, gs: seq<Node>, fleet: string) {
    exists j :: 0 <= j < |gs| && Lists(num, gs[j], fleet)
  }

  lemma ListedCons(num: NumberSyntax, gs: seq<Node>, fleet: string)
    requires gs != []
    ensures Listed(num, gs, fleet) <==> Lists(num, gs[0], fleet) || Listed(num, gs[1..], fleet)
  {
    if Listed(num, gs, fleet) {
      var j :| 0 <= j < |gs| && Lists(num, gs[j], fleet);
      if j > 0 {
        assert gs[1..][j - 1] == gs[j];
      }
    }
    if Listed(num, gs[1..], fleet) {
      var j :| 0 <= j < |gs[1..]| && Lists(num, gs[1..][j], fleet);
      assert gs[j + 1] == gs[1..][j];
    }
  }

  /** The sum of the counts the grandchildren add to `fleet`. */
  function FleetSum(num: NumberSyntax, gs: seq<Node>, fleet: string): int
    decreases |gs|
  {
    if gs == [] then 0
    else (if Lists(num, gs[0], fleet) then FleetCount(num, gs[0]).value as int else 0) + FleetSum(num, gs[1..], fleet)
  }

  /** The count a fleet has, 0 when it is absent. */
  function Held(fleets: map<string, Int32>, fleet: string): int {
    if fleet in fleets then fleets[fleet] as int else 0
  }

  /** One grandchild adds to `fleet` exactly when it lists it. */
  lemma GrandStepFleet(num: NumberSyntax, d: PlanetData, g: Node, fleet: string)
    requires !Aborts(g)
    ensures fleet in GrandStep(num, d, g).tributeFleets <==> fleet in d.tributeFleets || Lists(num, g, fleet)
    ensures fleet in GrandStep(num, d, g).tributeFleets ==>
      GrandStep(num, d, g).tributeFleets[fleet] ==
        Wrap32(Held(d.tributeFleets, fleet) + if Lists(num, g, fleet) then FleetCount(num, g).value as int else 0)
  {
  }

  /** Without an aborting threshold, a fleet is present exactly when it
      was before or some grandchild lists it, and its count is the 32-bit
      wrapped total of what it had and every count listed for it. */
  lemma {:induction false} GrandsFleets(num: NumberSyntax, d: PlanetData, gs: seq<Node>, fleet: string)
    requires NoAbort(gs)
    ensures fleet in Grands(num, d, gs).tributeFleets <==> fleet in d.tributeFleets || Listed(num, gs, fleet)
    ensures fleet in Grands(num, d, gs).tributeFleets ==>
      Grands(num, d, gs).tributeFleets[fleet] == Wrap32(Held(d.tributeFleets, fleet) + FleetSum(num, gs, fleet))
    decreases |gs|
  {
    if gs == [] {
      assert !Listed(num, gs, fleet);
    } else {
      var g := gs[0];
      assert !Aborts(g);
      var d' := GrandStep(num, d, g);
      assert NoAbort(gs[1..]) by {
        forall j | 0 <= j < |gs[1..]| ensures !Aborts(gs[1..][j]) {
          assert gs[1..][j] == gs[j + 1];
        }
      }
      GrandsFleets(num, d', gs[1..], fleet);
      ListedCons(num, gs, fleet);
      GrandStepFleet(num, d, g, fleet);
      var here := if Lists(num, g, fleet) then FleetCount(num, g).value as int else 0;
      Wrap32Add(Held(d.tributeFleets, fleet) + here, FleetSum(num, gs[1..], fleet));
    }
  }

  // ---------------------------------------------------------- construction

  /** The fields before the constructor looks at the children: the name is
      the first argument when there is one. */
  function Initial(n: Node): PlanetData {
    PlanetData(
      if |n.args| > 0 then Some(n.args[0]) else None,
      [], None, None, "\t", "\t", None, None, [], [],
      0.0, DefaultBribe, DefaultSecurity, None, 0, DefaultThreshold, map[])
  }

  /** The paragraph a `description` or `spaceport` child appends. */
  function Paragraph(c: Node): string {
    JavaText(AsString(c)) + "\n"
  }

  /** The constructor's handling of one child, given the branch its name
      selects. Scalars use `asDouble`'s default of 0. */
  function Absorb(num: NumberSyntax, d: PlanetData, c: Node, k: PlanetKind): PlanetData {
    match k
    case Attributes => d.(attributes := c.args)
    case Landscape => d.(landscape := AsSprite(c))
    case Music => d.(music := AsString(c))
    case Description => d.(description := d.description + Paragraph(c))
    case Spaceport => d.(spaceport := d.spaceport + Paragraph(c))
    case Port => d.(port := Some(c))
    case Government => d.(government := AsString(c))
    case Shipyard => d.(shipyards := d.shipyards + [AsString(c)])
    case Outfitter => d.(outfitters := d.outfitters + [AsString(c)])
    case RequiredReputation => d.(requiredReputation := AsDouble(num, c, 0.0))
    case Bribe => d.(bribe := AsDouble(num, c, 0.0))
    case Security => d.(security := AsDouble(num, c, 0.0))
    case Wormhole => d.(wormhole := AsString(c))
    case Tribute => TributeOf(num, d, c)
    case Unknown => d
  }

  /** The planet after the constructor has handled the first `i` children,
      the children taking the branches `ks` (the constructor uses
      `Kinds(n.children)`). */
  function Built(num: NumberSyntax, n: Node, ks: seq<PlanetKind>, i: nat): PlanetData
    requires i <= |n.children| && |ks| == |n.children|
  {
    if i == 0 then Initial(n) else Absorb(num, Built(num, n, ks, i - 1), n.children[i - 1], ks[i - 1])
  }

  /** What one child does to the name and the list-like fields. */
  lemma AbsorbStep(num: NumberSyntax, d: PlanetData, c: Node, k: PlanetKind)
    ensures Absorb(num, d, c, k).name == d.name
    ensures Absorb(num, d, c, k).attributes == if k == Attributes then c.args else d.attributes
    ensures Absorb(num, d, c, k).description == d.description + (if k == Description then Paragraph(c) else "")
    ensures Absorb(num, d, c, k).spaceport == d.spaceport + (if k == Spaceport then Paragraph(c) else "")
    ensures Absorb(num, d, c, k).shipyards == d.shipyards + (if k == Shipyard then [AsString(c)] else [])
    ensures Absorb(num, d, c, k).outfitters == d.outfitters + (if k == Outfitter then [AsString(c)] else [])
  {
    if k == Tribute {
      TributeTouchesOnlyTribute(num, d, c);
    }
    assert d.description + "" == d.description;
    assert d.spaceport + "" == d.spaceport;
    assert d.shipyards + [] == d.shipyards;
    assert d.outfitters + [] == d.outfitters;
  }

  /** The text `start` with the paragraphs of the given children appended,
      in order. */
  function Paragraphs(start: string, cs: seq<Node>): string {
    if cs == [] then start else Paragraphs(start, cs[..|cs| - 1]) + Paragraph(cs[|cs| - 1])
  }

  /** `asString` of each of the given children, in order. */
  function Strings(cs: seq<Node>): (r: seq<Option<string>>)
    ensures |r| == |cs|
  {
    if cs == [] then [] else Strings(cs[..|cs| - 1]) + [AsString(cs[|cs| - 1])]
  }

  /** The last `attributes` child replaces the list, so it alone counts. */
  lemma {:induction false} BuiltAttributes(num: NumberSyntax, n: Node, ks: seq<PlanetKind>, i: nat)
    requires i <= |n.children|
    requires Marks(n.children, ks, Attributes, AttributesKey)
    ensures Built(num, n, ks, i).attributes ==
      match LastNamed(n.children[..i], AttributesKey) case None => [] case Some(c) => c.args
  {
    if i > 0 {
      BuiltAttributes(num, n, ks, i - 1);
      AbsorbStep(num, Built(num, n, ks, i - 1), n.children[i - 1], ks[i - 1]);
      assert n.children[..i][..i - 1] == n.children[..i - 1];
    }
  }

  /** The `description` children each add a paragraph to a text that
      starts as a tab, in order. */
  lemma {:induction false} BuiltDescription(num: NumberSyntax, n: Node, ks: seq<PlanetKind>, i: nat)
    requires i <= |n.children|
    requires Marks(n.children, ks, Description, DescriptionKey)
    ensures Built(num, n, ks, i).description == Paragraphs("\t", NamedChildren(n.children[..i], DescriptionKey))
  {
    if i > 0 {
      BuiltDescription(num, n, ks, i - 1);
      AbsorbStep(num, Built(num, n, ks, i - 1), n.children[i - 1], ks[i - 1]);
      NamedChildrenPrefix(n.children, i, DescriptionKey);
      ParagraphsSnoc("\t", NamedChildren(n.children[..i - 1], DescriptionKey), n.children[i - 1], DescriptionKey);
    }
  }

  /** The same for the `spaceport` children. */
  lemma {:induction false} BuiltSpaceport(num: NumberSyntax, n: Node, ks: seq<PlanetKind>, i: nat)
    requires i <= |n.children|
    requires Marks(n.children, ks, Spaceport, SpaceportKey)
    ensures Built(num, n, ks, i).spaceport == Paragraphs("\t", NamedChildren(n.children[..i], SpaceportKey))
  {
    if i > 0 {
      BuiltSpaceport(num, n, ks, i - 1);
      AbsorbStep(num, Built(num, n, ks, i - 1), n.children[i - 1], ks[i - 1]);
      NamedChildrenPrefix(n.children, i, SpaceportKey);
      ParagraphsSnoc("\t", NamedChildren(n.children[..i - 1], SpaceportKey), n.children[i - 1], SpaceportKey);
    }
  }

  lemma ParagraphsSnoc(start: string, cs: seq<Node>, c: Node, key: string)
    ensures Paragraphs(start, cs + (if c.name == key then [c] else [])) ==
      Paragraphs(start, cs) + (if c.name == key then Paragraph(c) else "")
  {
    if c.name == key {
      assert (cs + [c])[..|cs|] == cs;
    } else {
      assert cs + [] == cs;
      assert Paragraphs(start, cs) + "" == Paragraphs(start, cs);
    }
  }

  /** `shipyard` and `outfitter` children each add their first argument
      (or null) to their list, in order. */
  lemma {:induction false} BuiltOffers(num: NumberSyntax, n: Node, ks: seq<PlanetKind>, i: nat, k: PlanetKind, key: string)
    requires i <= |n.children|
    requires (k, key) in {(Shipyard, ShipyardKey), (Outfitter, OutfitterKey)}
    requires Marks(n.children, ks, k, key)
    ensures (if k == Shipyard then Built(num, n, ks, i).shipyards else Built(num, n, ks, i).outfitters) ==
      Strings(NamedChildren(n.children[..i], key))
  {
    if i > 0 {
      BuiltOffers(num, n, ks, i - 1, k, key);
      AbsorbStep(num, Built(num, n, ks, i - 1), n.children[i - 1], ks[i - 1]);
      NamedChildrenPrefix(n.children, i, key);
      var cs := NamedChildren(n.children[..i - 1], key);
      var c := n.children[i - 1];
      if c.name == key {
        assert (cs + [c])[..|cs|] == cs;
      } else {
        assert cs + [] == cs;
      }
    }
  }

  /** The constructor's promises, for the branches the children's names
      select: the name is the first argument, the last `attributes` child
      wins, descriptions accumulate paragraphs after a tab, and shipyards
      and outfitters accumulate in order. */
  lemma Constructed(num: NumberSyntax, n: Node)
    ensures var d := Built(num, n, Kinds(n.children), |n.children|);
      && d.name == (if |n.args| > 0 then Some(n.args[0]) else None)
      && d.attributes == (match LastNamed(n.children, AttributesKey) case None => [] case Some(c) => c.args)
      && d.description == Paragraphs("\t", NamedChildren(n.children, DescriptionKey))
      && d.spaceport == Paragraphs("\t", NamedChildren(n.children, SpaceportKey))
      && d.shipyards == Strings(NamedChildren(n.children, ShipyardKey))
      && d.outfitters == Strings(NamedChildren(n.children, OutfitterKey))
  {
    var cs, ks := n.children, Kinds(n.children);
    assert cs[..|cs|] == cs;
    BuiltName(num, n, ks, |cs|);
    KindsMark(cs, Attributes, AttributesKey);
    BuiltAttributes(num, n, ks, |cs|);
    KindsMark(cs, Description, DescriptionKey);
    BuiltDescription(num, n, ks, |cs|);
    KindsMark(cs, Spaceport, SpaceportKey);
    BuiltSpaceport(num, n, ks, |cs|);
    KindsMark(cs, Shipyard, ShipyardKey);
    BuiltOffers(num, n, ks, |cs|, Shipyard, ShipyardKey);
    KindsMark(cs, Outfitter, OutfitterKey);
    BuiltOffers(num, n, ks, |cs|, Outfitter, OutfitterKey);
  }

  lemma {:induction false} BuiltName(num: NumberSyntax, n: Node, ks: seq<PlanetKind>, i: nat)
    requires i <= |n.children| && |ks| == |n.children|
    ensures Built(num, n, ks, i).name == if |n.args| > 0 then Some(n.args[0]) else None
  {
    if i > 0 {
      BuiltName(num, n, ks, i - 1);
      AbsorbStep(num, Built(num, n, ks, i - 1), n.children[i - 1], ks[i - 1]);
    }
  }

  // ------------------------------------------------------------- modifiers

  /** The state of `applyModifiers`' loop: the planet, the two local
      "modified" flags, and whether a NullPointerException has ended it. */
  datatype Pass = Pass(d: PlanetData, descriptionModified: bool, spaceportModified: bool, thrown: bool)

  /** The eight branches of `applyModifiers` that test the planet's own
      name rather than the child's. */
  predicate ByPlanetName(k: PlanetKind) {
    k in {Landscape, Music, Description, Spaceport, Port, Government, Shipyard, Outfitter}
  }

  /** The branch `applyModifiers` takes for a child named `childName` on a
      planet named `planetName`: `attributes` by the child's name; then,
      comparing the planet's name, `landscape` through `outfitter`; then the
      rest by the child's name. None: the planet has no name and the
      comparison throws NullPointerException. */
  function ModifierKind(planetName: Option<string>, childName: string): Option<PlanetKind> {
    if childName == AttributesKey then Some(Attributes)
    else match planetName
      case None => None
      case Some(p) =>
        if ByPlanetName(KindOf(p)) then Some(KindOf(p))
        else if KindOf(childName) in {RequiredReputation, Bribe, Security, Wormhole, Tribute} then Some(KindOf(childName))
        else Some(Unknown)
  }

  /** The branch each child of a modifier node takes on a planet. */
  function ModifierKinds(planetName: Option<string>, cs: seq<Node>): seq<Option<PlanetKind>> {
    seq(|cs|, j requires 0 <= j < |cs| => ModifierKind(planetName, cs[j].name))
  }

  /** `applyModifiers`' handling of one child, given the branch it takes.
      `description` and `spaceport` replace the text only until the loop
      has modified it once; scalars fall back to their defaults. */
  function Edit(num: NumberSyntax, d: PlanetData, c: Node, k: PlanetKind,
                descriptionModified: bool, spaceportModified: bool): PlanetData {
    match k
    case Attributes => d.(attributes := ModifiedList(d.attributes, c))
    case Landscape => d.(landscape := AsSprite(c))
    case Music => d.(music := AsString(c))
    case Description => d.(description := ModifyDescription(d.description, descriptionModified, c))
    case Spaceport => d.(spaceport := ModifyDescription(d.spaceport, spaceportModified, c))
    case Port => d.(port := CheckRemoval(c))
    case Government => d.(government := AsString(c))
    case Shipyard => d.(shipyards := d.shipyards + [AsString(c)])
    case Outfitter => d.(outfitters := d.outfitters + [AsString(c)])
    case RequiredReputation => d.(requiredReputation := AsDouble(num, c, 0.0))
    case Bribe => d.(bribe := AsDouble(num, c, DefaultBribe))
    case Security => d.(security := AsDouble(num, c, DefaultSecurity))
    case Wormhole => d.(wormhole := AsString(c))
    case Tribute =>
      if c.flag == Remove then d.(tributeValue := 0, tributeThreshold := DefaultThreshold, tributeFleets := map[])
      else TributeOf(num, d, c)
    case Unknown => d
  }

  /** One turn of the loop: a throw ends it, and a description branch
      marks its text as modified. */
  function Modify(num: NumberSyntax, s: Pass, c: Node, k: Option<PlanetKind>): Pass {
    if s.thrown then s
    else match k
      case None => s.(thrown := true)
      case Some(k) =>
        Pass(Edit(num, s.d, c, k, s.descriptionModified, s.spaceportModified),
          s.descriptionModified || k == Description, s.spaceportModified || k == Spaceport, false)
  }

  /** The loop state after the first `i` children of `node`. */
  function Modified(num: NumberSyntax, s: Pass, node: Node, ks: seq<Option<PlanetKind>>, i: nat): Pass
    requires i <= |node.children| && |ks| == |node.children|
  {
    if i == 0 then s else Modify(num, Modified(num, s, node, ks, i - 1), node.children[i - 1], ks[i - 1])
  }

  /** What a REMOVE modifier restores: the default bribe, security and
      tribute. */
  lemma RemoveRestores(num: NumberSyntax, s: Pass, c: Node, k: PlanetKind)
    requires !s.thrown && c.flag == Remove
    ensures k == Bribe ==> Modify(num, s, c, Some(k)).d.bribe == DefaultBribe
    ensures k == Security ==> Modify(num, s, c, Some(k)).d.security == DefaultSecurity
    ensures k == Tribute ==> var t := Modify(num, s, c, Some(k)).d;
      t.tributeValue == 0 && t.tributeThreshold == DefaultThreshold && t.tributeFleets == map[]
  {
  }

  /** Only a planet without a name throws, and only on a child other than
      `attributes`. */
  lemma ModifierKindThrows(planetName: Option<string>, childName: string)
    ensures ModifierKind(planetName, childName).None? <==> planetName.None? && childName != AttributesKey
  {
  }

  /** On a planet whose name is not one of the eight names, a modifier
      child named `description` (or any of the eight) takes no branch: the
      source compares the planet's name where it means the child's. */
  lemma ModifierIgnoresDescription(p: string, childName: string)
    requires !ByPlanetName(KindOf(p))
    requires ByPlanetName(KindOf(childName))
    ensures ModifierKind(Some(p), childName) == Some(Unknown)
  {
  }

  /** On a planet named after one of the eight branches, every child not
      named `attributes` takes that branch, whatever its own name. */
  lemma ModifierFollowsPlanetName(p: string, childName: string)
    requires ByPlanetName(KindOf(p)) && childName != AttributesKey
    ensures ModifierKind(Some(p), childName) == Some(KindOf(p))
  {
  }

  /** A `tribute` child touches only the three tribute fields. */
  lemma TributeTouchesOnlyTribute(num: NumberSyntax, d: PlanetData, c: Node)
    ensures var t := TributeOf(num, d, c);
      t == d.(tributeValue := t.tributeValue, tributeThreshold := t.tributeThreshold, tributeFleets := t.tributeFleets)
  {
    if c.args != [] {
      GrandsTouchOnlyTribute(num, match num.parseInt(c.args[0]) case Some(v) => d.(tributeValue := v) case None => d, c.children);
    }
  }

  /** What one turn does to the throw flag, the name, the attributes and
      the description. */
  lemma ModifyStep(num: NumberSyntax, s: Pass, c: Node, k: Option<PlanetKind>)
    ensures Modify(num, s, c, k).thrown == (s.thrown || k.None?)
    ensures Modify(num, s, c, k).d.name == s.d.name
    ensures Modify(num, s, c, k).d.attributes ==
      if !s.thrown && k == Some(Attributes) then ModifiedList(s.d.attributes, c) else s.d.attributes
    ensures s.descriptionModified ==>
      Modify(num, s, c, k).descriptionModified && s.d.description <= Modify(num, s, c, k).d.description
  {
    if !s.thrown && k == Some(Tribute) && c.flag != Remove {
      TributeTouchesOnlyTribute(num, s.d, c);
    }
  }

  /** Once the loop has modified the description, later children only
      append to it: the "modified" flag persists across the loop. */
  lemma {:induction false} DescriptionOnlyGrows(num: NumberSyntax, s: Pass, node: Node, ks: seq<Option<PlanetKind>>, i: nat)
    requires i <= |node.children| && |ks| == |node.children|
    requires s.descriptionModified
    ensures Modified(num, s, node, ks, i).descriptionModified
    ensures s.d.description <= Modified(num, s, node, ks, i).d.description
  {
    if i > 0 {
      DescriptionOnlyGrows(num, s, node, ks, i - 1);
      ModifyStep(num, Modified(num, s, node, ks, i - 1), node.children[i - 1], ks[i - 1]);
    }
  }

  /** A list of `attributes` modifiers, each applied with `modifyList` in
      turn. */
  function ListEdits(original: seq<string>, cs: seq<Node>): seq<string> {
    if cs == [] then original else ModifiedList(ListEdits(original, cs[..|cs| - 1]), cs[|cs| - 1])
  }

  /** On a named planet every child takes a branch, and exactly the
      children named `attributes` take that one. */
  lemma NamedPlanetKinds(p: string, cs: seq<Node>)
    ensures Marks(cs, ModifierKinds(Some(p), cs), Some(Attributes), AttributesKey)
    ensures forall j :: 0 <= j < |cs| ==> ModifierKinds(Some(p), cs)[j].Some?
  {
  }

  /** On a named planet nothing throws, and the attributes are exactly
      the `modifyList` edits of the `attributes` children, in order. */
  lemma {:induction false} ModifiedAttributes(num: NumberSyntax, s: Pass, node: Node, ks: seq<Option<PlanetKind>>, i: nat)
    requires i <= |node.children| && !s.thrown
    requires Marks(node.children, ks, Some(Attributes), AttributesKey)
    requires forall j :: 0 <= j < |ks| ==> ks[j].Some?
    ensures !Modified(num, s, node, ks, i).thrown
    ensures Modified(num, s, node, ks, i).d.name == s.d.name
    ensures Modified(num, s, node, ks, i).d.attributes ==
      ListEdits(s.d.attributes, NamedChildren(node.children[..i], AttributesKey))
  {
    if i > 0 {
      ModifiedAttributes(num, s, node, ks, i - 1);
      var c := node.children[i - 1];
      ModifyStep(num, Modified(num, s, node, ks, i - 1), c, ks[i - 1]);
      NamedChildrenPrefix(node.children, i, AttributesKey);
      var cs := NamedChildren(node.children[..i - 1], AttributesKey);
      if c.name == AttributesKey {
        assert (cs + [c])[..|cs|] == cs;
      } else {
        assert cs + [] == cs;
      }
    }
  }

  /** A planet object. */
  class Planet {
    const name: Option<string>
    var attributes: seq<string>
    var landscape: Option<Sprite>
    var music: Option<string>
    var description: string
    var spaceport: string
    var port: Option<Node>
    var government: Option<string>
    var shipyards: seq<Option<string>>
    var outfitters: seq<Option<string>>
    var requiredReputation: real
    var bribe: real
    var security: real
    var wormhole: Option<string>
    var tributeValue: Int32
    var tributeThreshold: Int32
    var tributeFleets: map<string, Int32>

    function Data(): PlanetData
      reads this
    {
      PlanetData(name, attributes, landscape, music, description, spaceport, port, government,
        shipyards, outfitters, requiredReputation, bribe, security, wormhole,
        tributeValue, tributeThreshold, tributeFleets)
    }

    /** `new Planet(node)`. */
    constructor (num: NumberSyntax, n: Node)
      ensures Data() == Built(num, n, Kinds(n.children), |n.children|)
    {
      name := if |n.args| > 0 then Some(n.args[0]) else None;
      attributes, landscape, music := [], None, None;
      description, spaceport, port, government := "\t", "\t", None, None;
      shipyards, outfitters := [], [];
      requiredReputation, bribe, security, wormhole := 0.0, DefaultBribe, DefaultSecurity, None;
      tributeValue, tributeThreshold, tributeFleets := 0, DefaultThreshold, map[];
      new;
      AbsorbChildren(num, n);
    }

    /** The constructor's child loop. */
    method AbsorbChildren(num: NumberSyntax, n: Node)
      requires Data() == Initial(n)
      modifies this
      ensures Data() == Built(num, n, Kinds(n.children), |n.children|)
    {
      ghost var ks := Kinds(n.children);
      for i := 0 to |n.children|
        invariant Data() == Built(num, n, ks, i)
      {
        var child := n.children[i];
        AbsorbChild(num, child, KindOf(child.name));
      }
    }

    /** One turn of the constructor's child loop, by the kind of child. */
    method AbsorbChild(num: NumberSyntax, c: Node, k: PlanetKind)
      modifies this
      ensures Data() == Absorb(num, old(Data()), c, k)
    {
      match k
      case Attributes | Description | Spaceport | Shipyard | Outfitter => AbsorbList(num, c, k);
      case Landscape | Music | Port | Government | Wormhole => AbsorbText(num, c, k);
      case RequiredReputation => requiredReputation := AsDouble(num, c, 0.0);
      case Bribe => bribe := AsDouble(num, c, 0.0);
      case Security => security := AsDouble(num, c, 0.0);
      case Tribute => ReadTribute(num, c);
      case Unknown =>
    }

    /** The branches that replace or extend a list or a text. */
    method AbsorbList(num: NumberSyntax, c: Node, k: PlanetKind)
      requires k in {Attributes, Description, Spaceport, Shipyard, Outfitter}
      modifies this
      ensures Data() == Absorb(num, old(Data()), c, k)
    {
      if k == Attributes {
        attributes := c.args;
      } else if k == Description {
        description := description + Paragraph(c);
      } else if k == Spaceport {
        spaceport := spaceport + Paragraph(c);
      } else if k == Shipyard {
        shipyards := shipyards + [AsString(c)];
      } else {
        outfitters := outfitters + [AsString(c)];
      }
    }

    /** The branches that set a field from the child's first argument. */
    method AbsorbText(num: NumberSyntax, c: Node, k: PlanetKind)
      requires k in {Landscape, Music, Port, Government, Wormhole}
      modifies this
      ensures Data() == Absorb(num, old(Data()), c, k)
    {
      if k == Landscape {
        landscape := AsSprite(c);
      } else if k == Music {
        music := AsString(c);
      } else if k == Port {
        port := Some(c);
      } else if k == Government {
        government := AsString(c);
      } else {
        wormhole := AsString(c);
      }
    }

    /** The body of a `tribute` child that is not a REMOVE modifier. */
    method ReadTribute(num: NumberSyntax, c: Node)
      modifies this
      ensures Data() == TributeOf(num, old(Data()), c)
    {
      if c.args == [] {
        return;
      }
      var v := num.parseInt(c.args[0]);
      if v.Some? {
        tributeValue := v.value;
      }
      ReadGrands(num, c.children);
    }

    /** The tribute's grandchild loop, left early by a threshold without an
        argument. */
    method ReadGrands(num: NumberSyntax, gs: seq<Node>)
      modifies this
      ensures Data() == Grands(num, old(Data()), gs)
    {
      ghost var d0 := Data();
      var i := 0;
      while i < |gs|
        invariant i <= |gs|
        invariant Grands(num, Data(), gs[i..]) == Grands(num, d0, gs)
      {
        var g := gs[i];
        assert gs[i..][0] == g && gs[i..][1..] == gs[i + 1..];
        if Aborts(g) {
          return;
        }
        if g.name == ThresholdKey {
          var t := num.parseInt(g.args[0]);
          if t.Some? {
            tributeThreshold := t.value;
          }
        } else if g.name == FleetKey {
          var count := FleetCount(num, g);
          if count.Some? {
            AddTributeFleet(g.args[0], count.value);
          }
        }
        i := i + 1;
      }
    }

    /** `addTributeFleet`. */
    method AddTributeFleet(fleet: string, count: Int32)
      modifies this
      ensures tributeFleets == AddedFleet(old(tributeFleets), fleet, count)
      ensures Data() == old(Data()).(tributeFleets := tributeFleets)
    {
      if fleet in tributeFleets {
        tributeFleets := tributeFleets[fleet := Wrap32(tributeFleets[fleet] + count)];
      } else {
        tributeFleets := tributeFleets[fleet := count];
      }
    }

    /** `applyModifiers(node)`; `thrown` reports the NullPointerException
        that ends the loop on a planet without a name. */
    method ApplyModifiers(num: NumberSyntax, node: Node) returns (thrown: bool)
      modifies this
      ensures var p := Modified(num, Pass(old(Data()), false, false, false), node,
        ModifierKinds(name, node.children), |node.children|);
        Data() == p.d && thrown == p.thrown
    {
      ghost var ks := ModifierKinds(name, node.children);
      var descriptionModified, spaceportModified := false, false;
      thrown := false;
      for i := 0 to |node.children|
        invariant Pass(Data(), descriptionModified, spaceportModified, thrown) ==
          Modified(num, Pass(old(Data()), false, false, false), node, ks, i)
      {
        if !thrown {
          var child := node.children[i];
          var k := ModifierKind(name, child.name);
          descriptionModified, spaceportModified, thrown :=
            ModifyChild(num, child, k, descriptionModified, spaceportModified);
        }
      }
    }

    /** One turn of `applyModifiers`' loop, by the branch the child takes. */
    method ModifyChild(num: NumberSyntax, c: Node, k: Option<PlanetKind>,
                       descriptionModified: bool, spaceportModified: bool)
      returns (descriptionModified': bool, spaceportModified': bool, thrown: bool)
      modifies this
      ensures Pass(Data(), descriptionModified', spaceportModified', thrown) ==
        Modify(num, Pass(old(Data()), descriptionModified, spaceportModified, false), c, k)
    {
      descriptionModified', spaceportModified', thrown := descriptionModified, spaceportModified, false;
      match k
      case None => thrown := true;
      case Some(k) =>
        EditChild(num, c, k, descriptionModified, spaceportModified);
        if k == Description {
          descriptionModified' := true;
        } else if k == Spaceport {
          spaceportModified' := true;
        }
    }

    /** The field updates of one turn, by the branch the child takes. */
    method EditChild(num: NumberSyntax, c: Node, k: PlanetKind, descriptionModified: bool, spaceportModified: bool)
      modifies this
      ensures Data() == Edit(num, old(Data()), c, k, descriptionModified, spaceportModified)
    {
      match k
      case Attributes | Description | Spaceport | Shipyard | Outfitter =>
        EditList(num, c, k, descriptionModified, spaceportModified);
      case Landscape | Music | Port | Government | Wormhole =>
        EditText(num, c, k, descriptionModified, spaceportModified);
      case RequiredReputation => requiredReputation := AsDouble(num, c, 0.0);
      case Bribe => bribe := AsDouble(num, c, DefaultBribe);
      case Security => security := AsDouble(num, c, DefaultSecurity);
      case Tribute =>
        if c.flag == Remove {
          tributeValue, tributeThreshold, tributeFleets := 0, DefaultThreshold, map[];
        } else {
          ReadTribute(num, c);
        }
      case Unknown =>
    }

    /** The branches that edit a list or a text. */
    method EditList(num: NumberSyntax, c: Node, k: PlanetKind, descriptionModified: bool, spaceportModified: bool)
      requires k in {Attributes, Description, Spaceport, Shipyard, Outfitter}
      modifies this
      ensures Data() == Edit(num, old(Data()), c, k, descriptionModified, spaceportModified)
    {
      if k == Attributes {
        attributes := ModifyList(attributes, c);
      } else if k == Description {
        description := ModifyDescription(description, descriptionModified, c);
      } else if k == Spaceport {
        spaceport := ModifyDescription(spaceport, spaceportModified, c);
      } else if k == Shipyard {
        shipyards := shipyards + [AsString(c)];
      } else {
        outfitters := outfitters + [AsString(c)];
      }
    }

    /** The branches that set a field from the child's first argument. */
    method EditText(num: NumberSyntax, c: Node, k: PlanetKind, descriptionModified: bool, spaceportModified: bool)
      requires k in {Landscape, Music, Port, Government, Wormhole}
      modifies this
      ensures Data() == Edit(num, old(Data()), c, k, descriptionModified, spaceportModified)
    {
      if k == Landscape {
        landscape := AsSprite(c);
      } else if k == Music {
        music := AsString(c);
      } else if k == Port {
        port := CheckRemoval(c);
      } else if k == Government {
        government := AsString(c);
      } else {
        wormhole := AsString(c);
      }
    }
  }
}
