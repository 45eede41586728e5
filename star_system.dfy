/** StarSystem.java: a star system built from a `system` node, patched by
    event modifiers, and searched for its named orbital objects. */
module StarSystems {
  import opened Common
  import opened Nodes
  import opened Builder
  import opened StellarObjects

  /** The fields of a star system, as one value. */
  datatype SystemData = SystemData(
    name: Option<string>,
    inaccessible: bool,
    hidden: bool,
    shrouded: bool,
    position: Option<Coord>,
    government: Option<string>,
    attributes: seq<string>,
    music: Option<string>,
    arrivalHyper: real,
    arrivalJump: real,
    departureHyper: real,
    departureJump: real,
    habitable: real,
    invisibleFence: real,
    jumpRange: real,
    hyperlinks: seq<string>,
    asteroids: map<string, seq<real>>,
    minables: map<string, seq<real>>,
    commodities: map<string, real>,
    hazards: map<string, real>,
    starfieldDensity: real,
    objects: seq<StellarObject>)

  /** The child names the system builders recognise. */
  datatype ChildKind =
    | Inaccessible | Hidden | Shrouded | Pos | Government | Attributes | Music | Object | Link
    | Habitable | InvisibleFence | JumpRange | StarfieldDensity | Arrival | Departure
    | Trade | Hazard | Asteroid | Minable | Unknown

  /** The number of names the builders' `equals` chains test. */
  const EntryCount := 19

  const InaccessibleKey := "inaccessible"
  const HiddenKey := "hidden"
  const ShroudedKey := "shrouded"
  const PosKey := "pos"
  const GovernmentKey := "government"
  const AttributesKey := "attributes"
  const MusicKey := "music"
  const LinkKey := "link"
  const HabitableKey := "habitable"
  const InvisibleFenceKey := "invisible fence"
  const JumpRangeKey := "jump range"
  const StarfieldDensityKey := "starfield density"
  const ArrivalKey := "arrival"
  const DepartureKey := "departure"
  const TradeKey := "trade"
  const HazardKey := "hazard"
  const AsteroidKey := "asteroid"
  const MinableKey := "minable"
  const JumpKey := "jump"

  /** The `i`-th name the constructor's `equals` chain tests, in source
      order, with the branch it selects. */
  function Entry(i: nat): (string, ChildKind) {
    match i
    case 0 => (InaccessibleKey, Inaccessible)
    case 1 => (HiddenKey, Hidden)
    case 2 => (ShroudedKey, Shrouded)
    case 3 => (PosKey, Pos)
    case 4 => (GovernmentKey, Government)
    case 5 => (AttributesKey, Attributes)
    case 6 => (MusicKey, Music)
    case 7 => (ObjectKey, Object)
    case 8 => (LinkKey, Link)
    case 9 => (HabitableKey, Habitable)
    case 10 => (InvisibleFenceKey, InvisibleFence)
    case 11 => (JumpRangeKey, JumpRange)
    case 12 => (StarfieldDensityKey, StarfieldDensity)
    case 13 => (ArrivalKey, Arrival)
    case 14 => (DepartureKey, Departure)
    case 15 => (TradeKey, Trade)
    case 16 => (HazardKey, Hazard)
    case 17 => (AsteroidKey, Asteroid)
    case 18 => (MinableKey, Minable)
    case _ => ("", Unknown)
  }

  /** The branch the chain takes for `name` once the first `i` tests have
      failed: the first later entry with that name, or no branch at all. */
  function KindFrom(name: string, i: nat): ChildKind
    requires i <= EntryCount
    decreases EntryCount - i
  {
    if i == EntryCount then Unknown
    else if Entry(i).0 == name then Entry(i).1
    else KindFrom(name, i + 1)
  }

  /** Which branch of the `equals` chain a child name takes. */
  function KindOf(name: string): ChildKind {
    KindFrom(name, 0)
  }

  /** The chain stops at the first entry with the name. */
  lemma {:induction false} KindFromFinds(name: string, i: nat, j: nat)
    requires i <= j < EntryCount && Entry(j).0 == name
    requires forall m :: i <= m < j ==> Entry(m).0 != name
    ensures KindFrom(name, i) == Entry(j).1
    decreases j - i
  {
    if i < j {
      KindFromFinds(name, i + 1, j);
    }
  }

  /** The chain selects a branch only through an entry with the name. */
  lemma {:induction false} KindFromMisses(name: string, i: nat, k: ChildKind)
    requires i <= EntryCount && k != Unknown
    requires forall m :: i <= m < EntryCount && Entry(m).1 == k ==> Entry(m).0 != name
    ensures KindFrom(name, i) != k
    decreases EntryCount - i
  {
    if i < EntryCount {
      KindFromMisses(name, i + 1, k);
    }
  }

  /** The `j`-th branch is taken exactly by the `j`-th name, when no
      earlier entry has that name and no other entry selects that branch. */
  lemma KindOfEntry(name: string, j: nat)
    requires j < EntryCount
    requires forall m :: 0 <= m < j ==> Entry(m).0 != Entry(j).0
    requires forall m :: 0 <= m < EntryCount && m != j ==> Entry(m).1 != Entry(j).1
    ensures KindOf(name) == Entry(j).1 <==> name == Entry(j).0
  {
    if name == Entry(j).0 {
      KindFromFinds(name, 0, j);
    } else {
      KindFromMisses(name, 0, Entry(j).1);
    }
  }

  lemma KindOfAttributes(name: string)
    ensures KindOf(name) == Attributes <==> name == AttributesKey
  {
    KindOfEntry(name, 5);
  }

  lemma KindOfObject(name: string)
    ensures KindOf(name) == Object <==> name == ObjectKey
  {
    KindOfEntry(name, 7);
  }

  lemma KindOfLink(name: string)
    ensures KindOf(name) == Link <==> name == LinkKey
  {
    KindOfEntry(name, 8);
  }

  lemma KindOfArrival(name: string)
    ensures KindOf(name) == Arrival <==> name == ArrivalKey
  {
    KindOfEntry(name, 13);
  }

  /** The branch each child of a list takes. */
  function Kinds(cs: seq<Node>): seq<ChildKind> {
    seq(|cs|, j requires 0 <= j < |cs| => KindOf(cs[j].name))
  }

  /** The three list branches are taken by exactly the children of their
      own name. */
  lemma KindsMark(cs: seq<Node>, k: ChildKind, key: string)
    requires (k, key) in {(Attributes, AttributesKey), (Object, ObjectKey), (Link, LinkKey)}
    ensures Marks(cs, Kinds(cs), k, key)
  {
    forall j | 0 <= j < |cs|
      ensures Kinds(cs)[j] == k <==> cs[j].name == key
    {
      if k == Attributes {
        KindOfAttributes(cs[j].name);
      } else if k == Object {
        KindOfObject(cs[j].name);
      } else {
        KindOfLink(cs[j].name);
      }
    }
  }

  /** The fields before the constructor looks at the children. */
  function Initial(n: Node): SystemData {
    SystemData(
      if |n.args| > 0 then Some(n.args[0]) else None,
      false, false, false, None, Some(""), [], None,
      0.0, 0.0, 0.0, 0.0, 0.0, 10000.0, 0.0,
      [], map[], map[], map[], map[], 1.0, [])
  }

  /** The hyper and jump distances an `arrival` or `departure` child with
      grandchildren sets: a `link` grandchild sets the first, a `jump`
      grandchild the second. */
  function Approach(num: NumberSyntax, hyper: real, jump: real, gs: seq<Node>): (real, real)
  {
    if gs == [] then (hyper, jump)
    else
      var (h, j) := Approach(num, hyper, jump, gs[..|gs| - 1]);
      var g := gs[|gs| - 1];
      if g.name == LinkKey then (AsDouble(num, g, 0.0), j)
      else if g.name == JumpKey then (h, AsDouble(num, g, 0.0))
      else (h, j)
  }

  /** The hyper and jump distances an `arrival` or `departure` child sets:
      from its grandchildren when it has some, otherwise both from its own
      value. */
  function Distances(num: NumberSyntax, hyper: real, jump: real, c: Node): (real, real) {
    if |c.children| > 0 then Approach(num, hyper, jump, c.children)
    else (AsDouble(num, c, 0.0), AsDouble(num, c, 0.0))
  }

  /** The last `link` grandchild fixes the hyper distance and the last
      `jump` grandchild the jump distance; without them the distance keeps
      its value. */
  lemma {:induction false} ApproachLastWins(num: NumberSyntax, hyper: real, jump: real, gs: seq<Node>)
    ensures Approach(num, hyper, jump, gs).0 ==
      match LastNamed(gs, LinkKey) case None => hyper case Some(g) => AsDouble(num, g, 0.0)
    ensures Approach(num, hyper, jump, gs).1 ==
      match LastNamed(gs, JumpKey) case None => jump case Some(g) => AsDouble(num, g, 0.0)
  {
    if gs != [] {
      ApproachLastWins(num, hyper, jump, gs[..|gs| - 1]);
    }
  }

  /** The constructor's handling of one child, given the branch its name
      selects. */
  function Absorb(num: NumberSyntax, d: SystemData, c: Node, k: ChildKind): SystemData {
    match k
    case Inaccessible => d.(inaccessible := true)
    case Hidden => d.(hidden := true)
    case Shrouded => d.(shrouded := true)
    case Pos => d.(position := AsCoordinate(num, c))
    case Government => d.(government := AsString(c))
    case Attributes => d.(attributes := d.attributes + c.args)
    case Music => d.(music := AsString(c))
    case Object => d.(objects := d.objects + [ObjectOf(num, c)])
    case Link => d.(hyperlinks := d.hyperlinks + c.args)
    case Habitable => d.(habitable := AsDouble(num, c, 0.0))
    case InvisibleFence => d.(invisibleFence := AsDouble(num, c, 0.0))
    case JumpRange => d.(jumpRange := AsDouble(num, c, 0.0))
    case StarfieldDensity => d.(starfieldDensity := AsDouble(num, c, 0.0))
    case Arrival =>
      var p := Distances(num, d.arrivalHyper, d.arrivalJump, c);
      d.(arrivalHyper := p.0, arrivalJump := p.1)
    case Departure =>
      var p := Distances(num, d.departureHyper, d.departureJump, c);
      d.(departureHyper := p.0, departureJump := p.1)
    case Trade => d.(commodities := MapDouble(num, c, d.commodities))
    case Hazard => d.(hazards := MapDouble(num, c, d.hazards))
    case Asteroid => d.(asteroids := ArrayStored(num, c, d.asteroids))
    case Minable => d.(minables := ArrayStored(num, c, d.minables))
    case Unknown => d
  }

  /** The system after the constructor has handled the first `i` children,
      the children taking the branches `ks` (the constructor uses
      `Kinds(n.children)`). */
  function Built(num: NumberSyntax, n: Node, ks: seq<ChildKind>, i: nat): SystemData
    requires i <= |n.children| && |ks| == |n.children|
  {
    if i == 0 then Initial(n) else Absorb(num, Built(num, n, ks, i - 1), n.children[i - 1], ks[i - 1])
  }

  /** What one child does to the name and the three lists: only its own
      branch touches a list, and only by appending. */
  lemma AbsorbStep(num: NumberSyntax, d: SystemData, c: Node, k: ChildKind)
    ensures Absorb(num, d, c, k).name == d.name
    ensures Absorb(num, d, c, k).attributes == d.attributes + (if k == Attributes then c.args else [])
    ensures Absorb(num, d, c, k).hyperlinks == d.hyperlinks + (if k == Link then c.args else [])
    ensures Absorb(num, d, c, k).objects == d.objects + (if k == Object then [ObjectOf(num, c)] else [])
  {
    if k != Attributes { assert d.attributes + [] == d.attributes; }
    if k != Link { assert d.hyperlinks + [] == d.hyperlinks; }
    if k != Object { assert d.objects + [] == d.objects; }
  }

  /** All the arguments of the given nodes, in order. */
  function AllArgs(cs: seq<Node>): seq<string> {
    if cs == [] then [] else AllArgs(cs[..|cs| - 1]) + cs[|cs| - 1].args
  }

  lemma AllArgsSnoc(cs: seq<Node>, extra: seq<Node>)
    requires |extra| <= 1
    ensures AllArgs(cs + extra) == AllArgs(cs) + (if extra == [] then [] else extra[0].args)
  {
    if extra == [] {
      assert cs + extra == cs;
      assert AllArgs(cs) + [] == AllArgs(cs);
    } else {
      assert (cs + extra)[..|cs|] == cs;
    }
  }

  /** The objects built from the given nodes, in order. */
  function ObjectsOf(num: NumberSyntax, cs: seq<Node>): (os: seq<StellarObject>)
    ensures |os| == |cs|
  {
    if cs == [] then [] else ObjectsOf(num, cs[..|cs| - 1]) + [ObjectOf(num, cs[|cs| - 1])]
  }

  lemma ObjectsOfSnoc(num: NumberSyntax, cs: seq<Node>, extra: seq<Node>)
    requires |extra| <= 1
    ensures ObjectsOf(num, cs + extra) == ObjectsOf(num, cs) + (if extra == [] then [] else [ObjectOf(num, extra[0])])
  {
    if extra == [] {
      assert cs + extra == cs;
      assert ObjectsOf(num, cs) + [] == ObjectsOf(num, cs);
    } else {
      assert (cs + extra)[..|cs|] == cs;
    }
  }

  /** The list an `attributes` or a `link` child extends. */
  function ArgList(d: SystemData, key: string): seq<string> {
    if key == AttributesKey then d.attributes else d.hyperlinks
  }

  /** The branch a list key selects. */
  function ListKind(key: string): ChildKind {
    if key == AttributesKey then Attributes else Link
  }

  /** During construction, `attributes` and `link` children accumulate all
      their arguments, in order. */
  lemma {:induction false} BuiltArgs(num: NumberSyntax, n: Node, ks: seq<ChildKind>, i: nat, key: string)
    requires i <= |n.children|
    requires key == AttributesKey || key == LinkKey
    requires Marks(n.children, ks, ListKind(key), key)
    ensures ArgList(Built(num, n, ks, i), key) == AllArgs(NamedChildren(n.children[..i], key))
  {
    if i > 0 {
      var c := n.children[i - 1];
      var before := NamedChildren(n.children[..i - 1], key);
      BuiltArgs(num, n, ks, i - 1, key);
      AbsorbStep(num, Built(num, n, ks, i - 1), c, ks[i - 1]);
      NamedChildrenPrefix(n.children, i, key);
      if c.name == key {
        AllArgsSnoc(before, [c]);
      } else {
        AllArgsSnoc(before, []);
        assert before + [] == before;
      }
    }
  }

  /** During construction, `object` children append their objects, in
      order. */
  lemma {:induction false} BuiltObjects(num: NumberSyntax, n: Node, ks: seq<ChildKind>, i: nat)
    requires i <= |n.children|
    requires Marks(n.children, ks, Object, ObjectKey)
    ensures Built(num, n, ks, i).objects == ObjectsOf(num, NamedChildren(n.children[..i], ObjectKey))
  {
    if i > 0 {
      var c := n.children[i - 1];
      var before := NamedChildren(n.children[..i - 1], ObjectKey);
      BuiltObjects(num, n, ks, i - 1);
      AbsorbStep(num, Built(num, n, ks, i - 1), c, ks[i - 1]);
      NamedChildrenPrefix(n.children, i, ObjectKey);
      if c.name == ObjectKey {
        ObjectsOfSnoc(num, before, [c]);
      } else {
        ObjectsOfSnoc(num, before, []);
        assert before + [] == before;
      }
    }
  }

  /** What `new StarSystem(node)` leaves in the three lists: all arguments
      of the `attributes` and of the `link` children in order, and one
      object per `object` child in order (the name is stated by the
      constructor). */
  lemma Constructed(num: NumberSyntax, n: Node)
    ensures var d := Built(num, n, Kinds(n.children), |n.children|);
      && d.attributes == AllArgs(NamedChildren(n.children, AttributesKey))
      && d.hyperlinks == AllArgs(NamedChildren(n.children, LinkKey))
      && d.objects == ObjectsOf(num, NamedChildren(n.children, ObjectKey))
  {
    var ks, m := Kinds(n.children), |n.children|;
    assert n.children[..m] == n.children;
    KindsMark(n.children, Attributes, AttributesKey);
    KindsMark(n.children, Link, LinkKey);
    KindsMark(n.children, Object, ObjectKey);
    BuiltArgs(num, n, ks, m, AttributesKey);
    BuiltArgs(num, n, ks, m, LinkKey);
    BuiltObjects(num, n, ks, m);
  }

  /** An `arrival` (or `departure`) child with grandchildren takes its hyper
      distance from the last `link` and its jump distance from the last
      `jump` grandchild; without grandchildren both take the child's value. */
  lemma ArrivalRule(num: NumberSyntax, d: SystemData, c: Node)
    requires c.name == ArrivalKey
    ensures var e := Absorb(num, d, c, KindOf(c.name));
      && (|c.children| > 0 ==>
        && e.arrivalHyper ==
           (match LastNamed(c.children, LinkKey) case None => d.arrivalHyper case Some(g) => AsDouble(num, g, 0.0))
        && e.arrivalJump ==
           (match LastNamed(c.children, JumpKey) case None => d.arrivalJump case Some(g) => AsDouble(num, g, 0.0)))
      && (|c.children| == 0 ==> e.arrivalHyper == e.arrivalJump == AsDouble(num, c, 0.0))
      && e.departureHyper == d.departureHyper
  {
    KindOfArrival(c.name);
    ApproachLastWins(num, d.arrivalHyper, d.arrivalJump, c.children);
  }

  /** `applyModifiers`' handling of one child of the modifier node `node`.
      `objectsModified` is declared inside the loop, so it is always false
      here: ADD appends an object, NORMAL replaces the list by one object,
      REMOVE clears it. The `attributes` branch edits the list with the
      enclosing node, not with the child. */
  function Modify(num: NumberSyntax, d: SystemData, node: Node, c: Node, k: ChildKind): SystemData {
    match k
    case Inaccessible => d.(inaccessible := c.flag != Remove)
    case Hidden => d.(hidden := c.flag != Remove)
    case Shrouded => d.(shrouded := c.flag != Remove)
    case Pos => d.(position := AsCoordinate(num, c))
    case Government => d.(government := AsString(c))
    case Attributes => d.(attributes := ModifiedList(d.attributes, node))
    case Music => d.(music := AsString(c))
    case Object =>
      d.(objects := if c.flag == Add then d.objects + [ObjectOf(num, c)]
                    else if c.flag != Remove then [ObjectOf(num, c)]
                    else [])
    case Link =>
      d.(hyperlinks := if c.flag == Remove then (if |c.args| > 0 then RemoveFirst(d.hyperlinks, c.args[0]) else [])
                       else d.hyperlinks + c.args)
    case Habitable => d.(habitable := AsDouble(num, c, 0.0))
    case InvisibleFence => d.(invisibleFence := AsDouble(num, c, 0.0))
    case JumpRange => d.(jumpRange := AsDouble(num, c, 0.0))
    case StarfieldDensity => d.(starfieldDensity := AsDouble(num, c, 0.0))
    case Trade => d.(commodities := MapDouble(num, c, d.commodities))
    case Hazard => d.(hazards := MapDouble(num, c, d.hazards))
    case Asteroid => d.(asteroids := ArrayStored(num, c, d.asteroids))
    case Minable => d.(minables := ArrayStored(num, c, d.minables))
    // `applyModifiers` has no arrival or departure branch
    case Arrival => d
    case Departure => d
    case Unknown => d
  }

  /** The flag rules of the modifiers: `inaccessible`, `hidden` and
      `shrouded` become `flag != REMOVE`. */
  lemma ModifierFlags(num: NumberSyntax, d: SystemData, node: Node, c: Node)
    ensures var e := Modify(num, d, node, c, KindOf(c.name));
      && (c.name == InaccessibleKey ==> e.inaccessible == (c.flag != Remove))
      && (c.name == HiddenKey ==> e.hidden == (c.flag != Remove))
      && (c.name == ShroudedKey ==> e.shrouded == (c.flag != Remove))
  {
    if c.name == InaccessibleKey {
      KindOfEntry(c.name, 0);
    } else if c.name == HiddenKey {
      KindOfEntry(c.name, 1);
    } else if c.name == ShroudedKey {
      KindOfEntry(c.name, 2);
    }
  }

  /** A REMOVE `link` modifier with arguments cuts out the first occurrence
      of its first argument only, one without arguments clears the list, and
      any other `link` modifier appends every argument. */
  lemma ModifierLinks(num: NumberSyntax, d: SystemData, node: Node, c: Node)
    requires c.name == LinkKey
    ensures var h := Modify(num, d, node, c, KindOf(c.name)).hyperlinks;
      && (c.flag == Remove && c.args != [] ==>
            var i := FirstIndex(d.hyperlinks, c.args[0]);
            h == if i < |d.hyperlinks| then d.hyperlinks[..i] + d.hyperlinks[i + 1..] else d.hyperlinks)
      && (c.flag == Remove && c.args == [] ==> h == [])
      && (c.flag != Remove ==> h == d.hyperlinks + c.args)
  {
    KindOfLink(c.name);
    if c.flag == Remove && c.args != [] {
      RemoveFirstCuts(d.hyperlinks, c.args[0]);
    }
  }

  /** An ADD `object` modifier appends one object, a NORMAL one leaves
      exactly that object, a REMOVE one clears the list. */
  lemma ModifierObjects(num: NumberSyntax, d: SystemData, node: Node, c: Node)
    requires c.name == ObjectKey
    ensures var os := Modify(num, d, node, c, KindOf(c.name)).objects;
      && (c.flag == Add ==> os == d.objects + [ObjectOf(num, c)])
      && (c.flag == Normal ==> os == [ObjectOf(num, c)])
      && (c.flag == Remove ==> os == [])
  {
    KindOfObject(c.name);
  }

  /** What one modifier child does to the three lists. */
  lemma ModifyStep(num: NumberSyntax, d: SystemData, node: Node, c: Node, k: ChildKind)
    ensures Modify(num, d, node, c, k).attributes ==
      if k == Attributes then ModifiedList(d.attributes, node) else d.attributes
    ensures k != Link ==> Modify(num, d, node, c, k).hyperlinks == d.hyperlinks
    ensures k != Object ==> Modify(num, d, node, c, k).objects == d.objects
  {
  }

  /** The system after `applyModifiers(node)` has handled the first `i`
      children, the children taking the branches `ks`. */
  function Modified(num: NumberSyntax, d: SystemData, node: Node, ks: seq<ChildKind>, i: nat): SystemData
    requires i <= |node.children| && |ks| == |node.children|
  {
    if i == 0 then d else Modify(num, Modified(num, d, node, ks, i - 1), node, node.children[i - 1], ks[i - 1])
  }

  /** Because the `attributes` branch reads the enclosing node, a NORMAL
      modifier with at least one `attributes` child leaves exactly the
      modifier node's own arguments as the attribute list, whatever the
      children say. */
  lemma {:induction false} ModifiedAttributesFromEnclosingNode(
    num: NumberSyntax, d: SystemData, node: Node, ks: seq<ChildKind>, i: nat)
    requires i <= |node.children| && node.flag == Normal
    requires Marks(node.children, ks, Attributes, AttributesKey)
    ensures Modified(num, d, node, ks, i).attributes ==
      if NamedChildren(node.children[..i], AttributesKey) == [] then d.attributes else node.args
  {
    if i > 0 {
      var c := node.children[i - 1];
      var before := NamedChildren(node.children[..i - 1], AttributesKey);
      ModifiedAttributesFromEnclosingNode(num, d, node, ks, i - 1);
      ModifyStep(num, Modified(num, d, node, ks, i - 1), node, c, ks[i - 1]);
      NamedChildrenPrefix(node.children, i, AttributesKey);
      if c.name == AttributesKey {
        assert |NamedChildren(node.children[..i], AttributesKey)| == |before| + 1;
      } else {
        assert NamedChildren(node.children[..i], AttributesKey) == before + [] == before;
      }
    }
  }

  /** A modifier without a `link` child leaves the hyperlinks alone. */
  lemma {:induction false} ModifiedKeepsLinks(num: NumberSyntax, d: SystemData, node: Node, ks: seq<ChildKind>, i: nat)
    requires i <= |node.children|
    requires Marks(node.children, ks, Link, LinkKey)
    requires NamedChildren(node.children[..i], LinkKey) == []
    ensures Modified(num, d, node, ks, i).hyperlinks == d.hyperlinks
  {
    if i > 0 {
      NamedChildrenPrefix(node.children, i, LinkKey);
      ModifiedKeepsLinks(num, d, node, ks, i - 1);
      ModifyStep(num, Modified(num, d, node, ks, i - 1), node, node.children[i - 1], ks[i - 1]);
    }
  }

  /** A modifier without an `object` child leaves the objects alone. */
  lemma {:induction false} ModifiedKeepsObjects(num: NumberSyntax, d: SystemData, node: Node, ks: seq<ChildKind>, i: nat)
    requires i <= |node.children|
    requires Marks(node.children, ks, Object, ObjectKey)
    requires NamedChildren(node.children[..i], ObjectKey) == []
    ensures Modified(num, d, node, ks, i).objects == d.objects
  {
    if i > 0 {
      NamedChildrenPrefix(node.children, i, ObjectKey);
      ModifiedKeepsObjects(num, d, node, ks, i - 1);
      ModifyStep(num, Modified(num, d, node, ks, i - 1), node, node.children[i - 1], ks[i - 1]);
    }
  }

  /** What `applyModifiers(node)` does to the three lists: a NORMAL modifier
      with an `attributes` child sets the attributes to its own arguments,
      and without a `link` or an `object` child the hyperlinks or the
      objects are left alone. */
  lemma AppliedModifier(num: NumberSyntax, d: SystemData, node: Node)
    ensures var e := Modified(num, d, node, Kinds(node.children), |node.children|);
      && (node.flag == Normal ==>
          e.attributes == if NamedChildren(node.children, AttributesKey) == [] then d.attributes else node.args)
      && (NamedChildren(node.children, LinkKey) == [] ==> e.hyperlinks == d.hyperlinks)
      && (NamedChildren(node.children, ObjectKey) == [] ==> e.objects == d.objects)
  {
    var ks, m := Kinds(node.children), |node.children|;
    assert node.children[..m] == node.children;
    KindsMark(node.children, Attributes, AttributesKey);
    KindsMark(node.children, Link, LinkKey);
    KindsMark(node.children, Object, ObjectKey);
    if node.flag == Normal {
      ModifiedAttributesFromEnclosingNode(num, d, node, ks, m);
    }
    if NamedChildren(node.children, LinkKey) == [] {
      ModifiedKeepsLinks(num, d, node, ks, m);
    }
    if NamedChildren(node.children, ObjectKey) == [] {
      ModifiedKeepsObjects(num, d, node, ks, m);
    }
  }

  /** The size of an object tree. */
  function Size(o: StellarObject): nat {
    1 + |Descendants(o)|
  }

  /** The total size of the trees in a work list. */
  function Weight(q: seq<StellarObject>): nat {
    if q == [] then 0 else Size(q[0]) + Weight(q[1..])
  }

  /** The trees of a work list flattened, each root before its descendants. */
  function Flat(q: seq<StellarObject>): (s: seq<StellarObject>)
    ensures |s| == Weight(q)
  {
    if q == [] then [] else [q[0]] + Descendants(q[0]) + Flat(q[1..])
  }

  lemma {:induction false} FlatConcat(a: seq<StellarObject>, b: seq<StellarObject>)
    ensures Flat(a + b) == Flat(a) + Flat(b)
  {
    if a != [] {
      assert (a + b)[0] == a[0];
      assert (a + b)[1..] == a[1..] + b;
      FlatConcat(a[1..], b);
    } else {
      assert a + b == b;
    }
  }

  lemma {:induction false} DescendantsAreFlat(o: StellarObject, i: nat)
    requires i <= |o.children|
    ensures DescendantsFrom(o, i) == Flat(o.children[i..])
    decreases |o.children| - i
  {
    if i < |o.children| {
      DescendantsAreFlat(o, i + 1);
      assert o.children[i..][1..] == o.children[i + 1..];
    }
  }

  /** The work list after one step of `getAllNamedObjects`: the head is
      dropped, and its children are queued when it has named children. */
  function NextQueue(q: seq<StellarObject>): seq<StellarObject>
    requires q != []
  {
    q[1..] + (if HasNamedChildren(q[0]) then q[0].children else [])
  }

  lemma NextQueueLighter(q: seq<StellarObject>)
    requires q != []
    ensures Weight(NextQueue(q)) < Weight(q)
  {
    var o := q[0];
    FlatConcat(q[1..], if HasNamedChildren(o) then o.children else []);
    DescendantsAreFlat(o, 0);
  }

  /** What the work-list loop of `getAllNamedObjects` collects from a queue:
      each object it takes from the front, if named, in the order taken. */
  function NamedScan(q: seq<StellarObject>): seq<StellarObject>
    decreases Weight(q)
  {
    if q == [] then []
    else
      NextQueueLighter(q);
      (if q[0].IsNamed() then [q[0]] else []) + NamedScan(NextQueue(q))
  }

  lemma NamedScanStep(q: seq<StellarObject>)
    requires q != []
    ensures NamedScan(q) == (if q[0].IsNamed() then [q[0]] else []) + NamedScan(NextQueue(q))
  {
  }

  /** The named objects of a list, in order. */
  function NamedOnly(s: seq<StellarObject>): (r: seq<StellarObject>)
    ensures forall k :: 0 <= k < |r| ==> r[k].IsNamed()
  {
    if s == [] then [] else (if s[0].IsNamed() then [s[0]] else []) + NamedOnly(s[1..])
  }

  lemma {:induction false} NamedOnlyConcat(a: seq<StellarObject>, b: seq<StellarObject>)
    ensures NamedOnly(a + b) == NamedOnly(a) + NamedOnly(b)
  {
    if a != [] {
      assert (a + b)[0] == a[0];
      assert (a + b)[1..] == a[1..] + b;
      NamedOnlyConcat(a[1..], b);
    } else {
      assert a + b == b;
    }
  }

  lemma {:induction false} NoNamedOnly(s: seq<StellarObject>)
    requires !AnyNamed(s)
    ensures NamedOnly(s) == []
  {
    if s != [] {
      assert !s[0].IsNamed();
      forall k | 0 <= k < |s[1..]|
        ensures !s[1..][k].IsNamed()
      {
        assert s[1..][k] == s[k + 1];
      }
      NoNamedOnly(s[1..]);
    }
  }

  /** `getAllNamedObjects` returns exactly the named objects of the whole
      object forest, each as often as it occurs there: pruning the children
      of an object without named children loses nothing. */
  lemma {:induction false} NamedScanIsExact(q: seq<StellarObject>)
    ensures multiset(NamedScan(q)) == multiset(NamedOnly(Flat(q)))
    decreases Weight(q)
  {
    if q != [] {
      var o, rest := q[0], q[1..];
      var head := if o.IsNamed() then [o] else [];
      var inner := NamedOnly(Descendants(o));
      NextQueueLighter(q);
      calc {
        multiset(NamedScan(q));
        { NamedScanStep(q); }
        multiset(head + NamedScan(NextQueue(q)));
        multiset(head) + multiset(NamedScan(NextQueue(q)));
        { NamedScanIsExact(NextQueue(q)); }
        multiset(head) + multiset(NamedOnly(Flat(NextQueue(q))));
        { NextQueueNamed(q); }
        multiset(head) + multiset(NamedOnly(Flat(rest)) + inner);
        multiset(head + inner + NamedOnly(Flat(rest)));
        { FlatNamed(q); }
        multiset(NamedOnly(Flat(q)));
      }
    }
  }

  /** The named objects of a flattened work list: the head if named, then
      the named descendants of the head, then those of the rest. */
  lemma FlatNamed(q: seq<StellarObject>)
    requires q != []
    ensures NamedOnly(Flat(q)) ==
      (if q[0].IsNamed() then [q[0]] else []) + NamedOnly(Descendants(q[0])) + NamedOnly(Flat(q[1..]))
  {
    var o := q[0];
    assert Flat(q) == [o] + Descendants(o) + Flat(q[1..]);
    NamedOnlyConcat([o] + Descendants(o), Flat(q[1..]));
    NamedOnlyConcat([o], Descendants(o));
    assert [o][1..] == [];
  }

  /** The named objects the rest of the scan can reach: those of the rest
      of the list, then the named descendants of the head, which are
      queued exactly when there are some. */
  lemma NextQueueNamed(q: seq<StellarObject>)
    requires q != []
    ensures NamedOnly(Flat(NextQueue(q))) == NamedOnly(Flat(q[1..])) + NamedOnly(Descendants(q[0]))
  {
    var o := q[0];
    var kids := if HasNamedChildren(o) then o.children else [];
    FlatConcat(q[1..], kids);
    NamedOnlyConcat(Flat(q[1..]), Flat(kids));
    DescendantsAreFlat(o, 0);
    assert o.children[0..] == o.children;
    if !HasNamedChildren(o) {
      HasNamedChildrenIffNamedDescendant(o);
      NoNamedOnly(Descendants(o));
      assert NamedOnly(Flat(q[1..])) + [] == NamedOnly(Flat(q[1..]));
    }
  }

  /** A star system object. */
  class StarSystem {
    const name: Option<string>
    var inaccessible: bool
    var hidden: bool
    var shrouded: bool
    var position: Option<Coord>
    var government: Option<string>
    var attributes: seq<string>
    var music: Option<string>
    var arrivalHyper: real
    var arrivalJump: real
    var departureHyper: real
    var departureJump: real
    var habitable: real
    var invisibleFence: real
    var jumpRange: real
    var hyperlinks: seq<string>
    var asteroids: map<string, seq<real>>
    var minables: map<string, seq<real>>
    var commodities: map<string, real>
    var hazards: map<string, real>
    var starfieldDensity: real
    var objects: seq<StellarObject>

    function Data(): SystemData
      reads this
    {
      SystemData(name, inaccessible, hidden, shrouded, position, government, attributes, music,
        arrivalHyper, arrivalJump, departureHyper, departureJump, habitable, invisibleFence,
        jumpRange, hyperlinks, asteroids, minables, commodities, hazards, starfieldDensity, objects)
    }

    /** `new StarSystem(node)`. */
    constructor (num: NumberSyntax, n: Node)
      ensures name == if |n.args| > 0 then Some(n.args[0]) else None
      ensures Data() == Built(num, n, Kinds(n.children), |n.children|)
    {
      name := if |n.args| > 0 then Some(n.args[0]) else None;
      inaccessible, hidden, shrouded := false, false, false;
      position, government, attributes, music := None, Some(""), [], None;
      arrivalHyper, arrivalJump, departureHyper, departureJump := 0.0, 0.0, 0.0, 0.0;
      habitable, invisibleFence, jumpRange := 0.0, 10000.0, 0.0;
      hyperlinks, asteroids, minables, commodities, hazards := [], map[], map[], map[], map[];
      starfieldDensity, objects := 1.0, [];
      new;
      AbsorbChildren(num, n);
    }

    /** The constructor's child loop. */
    method AbsorbChildren(num: NumberSyntax, n: Node)
      requires Data() == Initial(n)
      modifies this
      ensures Data() == Built(num, n, Kinds(n.children), |n.children|)
    {
      ghost var ks := Kinds(n.children);
      for i := 0 to |n.children|
        invariant Data() == Built(num, n, ks, i)
      {
        var child := n.children[i];
        AbsorbChild(num, child, KindOf(child.name));
      }
    }

    /** One turn of the constructor's child loop, by the kind of child. */
    method AbsorbChild(num: NumberSyntax, c: Node, k: ChildKind)
      modifies this
      ensures Data() == Absorb(num, old(Data()), c, k)
    {
      match k
      case Inaccessible | Hidden | Shrouded => AbsorbFlag(num, c, k);
      case Pos | Government | Music => AbsorbText(num, c, k);
      case Attributes | Object | Link => AbsorbList(num, c, k);
      case Habitable | InvisibleFence | JumpRange | StarfieldDensity => AbsorbScalar(num, c, k);
      case Arrival | Departure => AbsorbApproach(num, c, k);
      case Trade | Hazard => AbsorbTable(num, c, k);
      case Asteroid | Minable => AbsorbArrayTable(num, c, k);
      case Unknown =>
    }

    method AbsorbFlag(num: NumberSyntax, c: Node, k: ChildKind)
      requires k in {Inaccessible, Hidden, Shrouded}
      modifies this
      ensures Data() == Absorb(num, old(Data()), c, k)
    {
      if k == Inaccessible {
        inaccessible := true;
      } else if k == Hidden {
        hidden := true;
      } else {
        shrouded := true;
      }
    }

    method AbsorbText(num: NumberSyntax, c: Node, k: ChildKind)
      requires k in {Pos, Government, Music}
      modifies this
      ensures Data() == Absorb(num, old(Data()), c, k)
    {
      if k == Pos {
        position := AsCoordinate(num, c);
      } else if k == Government {
        government := AsString(c);
      } else {
        music := AsString(c);
      }
    }

    method AbsorbList(num: NumberSyntax, c: Node, k: ChildKind)
      requires k in {Attributes, Object, Link}
      modifies this
      ensures Data() == Absorb(num, old(Data()), c, k)
    {
      if k == Attributes {
        attributes := Appended(attributes, c.args);
      } else if k == Object {
        var o := NewStellarObject(num, c);
        objects := objects + [o];
      } else {
        hyperlinks := Appended(hyperlinks, c.args);
      }
    }

    method AbsorbScalar(num: NumberSyntax, c: Node, k: ChildKind)
      requires k in {Habitable, InvisibleFence, JumpRange, StarfieldDensity}
      modifies this
      ensures Data() == Absorb(num, old(Data()), c, k)
    {
      ghost var d := Data();
      var v := AsDouble(num, c, 0.0);
      if k == Habitable {
        habitable := v;
        assert Data() == d.(habitable := v);
      } else if k == InvisibleFence {
        invisibleFence := v;
        assert Data() == d.(invisibleFence := v);
      } else if k == JumpRange {
        jumpRange := v;
        assert Data() == d.(jumpRange := v);
      } else {
        starfieldDensity := v;
        assert Data() == d.(starfieldDensity := v);
      }
    }

    method AbsorbApproach(num: NumberSyntax, c: Node, k: ChildKind)
      requires k in {Arrival, Departure}
      modifies this
      ensures Data() == Absorb(num, old(Data()), c, k)
    {
      if k == Arrival {
        arrivalHyper, arrivalJump := ApproachOf(num, arrivalHyper, arrivalJump, c);
      } else {
        departureHyper, departureJump := ApproachOf(num, departureHyper, departureJump, c);
      }
    }

    /** The distances an `arrival` or `departure` child sets. */
    static method ApproachOf(num: NumberSyntax, hyper: real, jump: real, c: Node) returns (h: real, j: real)
      ensures (h, j) == Distances(num, hyper, jump, c)
    {
      if |c.children| > 0 {
        h, j := Approaches(num, hyper, jump, c.children);
      } else {
        h := AsDouble(num, c, 0.0);
        j := AsDouble(num, c, 0.0);
      }
    }

    method AbsorbTable(num: NumberSyntax, c: Node, k: ChildKind)
      requires k in {Trade, Hazard}
      modifies this
      ensures Data() == Absorb(num, old(Data()), c, k)
    {
      if k == Trade {
        commodities := MapDouble(num, c, commodities);
      } else {
        hazards := MapDouble(num, c, hazards);
      }
    }

    method AbsorbArrayTable(num: NumberSyntax, c: Node, k: ChildKind)
      requires k in {Asteroid, Minable}
      modifies this
      ensures Data() == Absorb(num, old(Data()), c, k)
    {
      if k == Asteroid {
        asteroids := MapDoubleArray(num, c, asteroids);
      } else {
        minables := MapDoubleArray(num, c, minables);
      }
    }

    /** The loop that adds every item to the end of a list, in order: the
        arguments of an `attributes` or `link` child, or the children queued
        by `getAllNamedObjects`. */
    static method Appended<T>(list: seq<T>, args: seq<T>) returns (r: seq<T>)
      ensures r == list + args
    {
      r := list;
      for k := 0 to |args|
        invariant r == list + args[..k]
      {
        assert args[..k + 1] == args[..k] + [args[k]];
        r := r + [args[k]];
      }
      assert args[..|args|] == args;
    }

    /** The grandchild loop of an `arrival` or `departure` child. */
    static method Approaches(num: NumberSyntax, hyper: real, jump: real, gs: seq<Node>)
      returns (h: real, j: real)
      ensures (h, j) == Approach(num, hyper, jump, gs)
    {
      h, j := hyper, jump;
      for k := 0 to |gs|
        invariant (h, j) == Approach(num, hyper, jump, gs[..k])
      {
        assert gs[..k + 1][..k] == gs[..k];
        var g := gs[k];
        if g.name == LinkKey {
          h := AsDouble(num, g, 0.0);
        } else if g.name == JumpKey {
          j := AsDouble(num, g, 0.0);
        }
      }
      assert gs[..|gs|] == gs;
    }

    /** `applyModifiers(node)`. */
    method ApplyModifiers(num: NumberSyntax, node: Node)
      modifies this
      ensures Data() == Modified(num, old(Data()), node, Kinds(node.children), |node.children|)
    {
      ghost var ks := Kinds(node.children);
      for i := 0 to |node.children|
        invariant Data() == Modified(num, old(Data()), node, ks, i)
      {
        var child := node.children[i];
        ModifyChild(num, node, child, KindOf(child.name));
      }
    }

    /** One turn of `applyModifiers`' loop, by the kind of child. The
        source's `objectsModified` flag is declared inside the loop, so it
        is false on every turn and only its initial value matters. */
    method ModifyChild(num: NumberSyntax, node: Node, c: Node, k: ChildKind)
      modifies this
      ensures Data() == Modify(num, old(Data()), node, c, k)
    {
      match k
      case Inaccessible | Hidden | Shrouded => ModifyFlag(num, node, c, k);
      case Pos | Government | Music => ModifyText(num, node, c, k);
      case Attributes | Object | Link => ModifyListField(num, node, c, k, false);
      case Habitable | InvisibleFence | JumpRange | StarfieldDensity => ModifyScalar(num, node, c, k);
      case Trade | Hazard => ModifyTable(num, node, c, k);
      case Asteroid | Minable => ModifyArrayTable(num, node, c, k);
      case Arrival | Departure | Unknown =>
    }

    method ModifyFlag(num: NumberSyntax, node: Node, c: Node, k: ChildKind)
      requires k in {Inaccessible, Hidden, Shrouded}
      modifies this
      ensures Data() == Modify(num, old(Data()), node, c, k)
    {
      if k == Inaccessible {
        inaccessible := c.flag != Remove;
      } else if k == Hidden {
        hidden := c.flag != Remove;
      } else {
        shrouded := c.flag != Remove;
      }
    }

    method ModifyText(num: NumberSyntax, node: Node, c: Node, k: ChildKind)
      requires k in {Pos, Government, Music}
      modifies this
      ensures Data() == Modify(num, old(Data()), node, c, k)
    {
      if k == Pos {
        position := AsCoordinate(num, c);
      } else if k == Government {
        government := AsString(c);
      } else {
        music := AsString(c);
      }
    }

    method ModifyListField(num: NumberSyntax, node: Node, c: Node, k: ChildKind, objectsModified: bool)
      requires k in {Attributes, Object, Link}
      requires !objectsModified
      modifies this
      ensures Data() == Modify(num, old(Data()), node, c, k)
    {
      if k == Attributes {
        attributes := ModifyList(attributes, node);
      } else if k == Object {
        if c.flag == Add || objectsModified {
          var o := NewStellarObject(num, c);
          objects := objects + [o];
        } else {
          objects := [];
          if c.flag != Remove {
            var o := NewStellarObject(num, c);
            objects := objects + [o];
          }
        }
      } else {
        if c.flag == Remove {
          if |c.args| > 0 {
            hyperlinks := RemoveFirst(hyperlinks, c.args[0]);
          } else {
            hyperlinks := [];
          }
        } else {
          hyperlinks := Appended(hyperlinks, c.args);
        }
      }
    }

    method ModifyScalar(num: NumberSyntax, node: Node, c: Node, k: ChildKind)
      requires k in {Habitable, InvisibleFence, JumpRange, StarfieldDensity}
      modifies this
      ensures Data() == Modify(num, old(Data()), node, c, k)
    {
      ghost var d := Data();
      var v := AsDouble(num, c, 0.0);
      if k == Habitable {
        assert Modify(num, d, node, c, k) == d.(habitable := v);
        habitable := v;
      } else if k == InvisibleFence {
        assert Modify(num, d, node, c, k) == d.(invisibleFence := v);
        invisibleFence := v;
      } else if k == JumpRange {
        assert Modify(num, d, node, c, k) == d.(jumpRange := v);
        jumpRange := v;
      } else {
        assert Modify(num, d, node, c, k) == d.(starfieldDensity := v);
        starfieldDensity := v;
      }
    }

    method ModifyTable(num: NumberSyntax, node: Node, c: Node, k: ChildKind)
      requires k in {Trade, Hazard}
      modifies this
      ensures Data() == Modify(num, old(Data()), node, c, k)
    {
      if k == Trade {
        commodities := MapDouble(num, c, commodities);
      } else {
        hazards := MapDouble(num, c, hazards);
      }
    }

    method ModifyArrayTable(num: NumberSyntax, node: Node, c: Node, k: ChildKind)
      requires k in {Asteroid, Minable}
      modifies this
      ensures Data() == Modify(num, old(Data()), node, c, k)
    {
      if k == Asteroid {
        asteroids := MapDoubleArray(num, c, asteroids);
      } else {
        minables := MapDoubleArray(num, c, minables);
      }
    }

    /** `addHyperlink`: appends; nothing else changes. */
    method AddHyperlink(h: string)
      modifies this
      ensures Data() == old(Data()).(hyperlinks := old(hyperlinks) + [h])
    {
      hyperlinks := hyperlinks + [h];
    }

    /** `removeHyperlink`: removes the first occurrence. Java's list holds no
        null, so removing null changes nothing. */
    method RemoveHyperlink(h: Option<string>)
      modifies this
      ensures Data() == old(Data()).(hyperlinks := if h.Some? then RemoveFirst(old(hyperlinks), h.value) else old(hyperlinks))
    {
      if h.Some? {
        hyperlinks := RemoveFirst(hyperlinks, h.value);
      }
    }

    /** One turn of `getAllNamedObjects`'s loop: the head is taken (and kept
        when named), its children are queued when it has named children, and
        it leaves the work list. */
    static method ScanHead(q: seq<StellarObject>) returns (taken: seq<StellarObject>, rest: seq<StellarObject>)
      requires q != []
      ensures taken == (if q[0].IsNamed() then [q[0]] else [])
      ensures rest == NextQueue(q)
    {
      var obj := q[0];
      taken := [];
      if obj.IsNamed() {
        taken := [obj];
      }
      rest := q;
      if HasNamedChildren(obj) {
        rest := Appended(rest, obj.children);
      }
      rest := rest[1..];
    }

    /** `getAllNamedObjects`: a breadth-first work list over the object
        forest, collecting the named objects. */
    method GetAllNamedObjects() returns (named: seq<StellarObject>)
      ensures named == NamedScan(objects)
    {
      var unchecked := objects;
      named := [];
      while |unchecked| > 0
        invariant named + NamedScan(unchecked) == NamedScan(objects)
        decreases Weight(unchecked)
      {
        ghost var before := unchecked;
        var taken;
        taken, unchecked := ScanHead(unchecked);
        NextQueueLighter(before);
        NamedScanStep(before);
        named := named + taken;
      }
    }
  }
}
