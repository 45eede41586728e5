/** GalacticMap.java without its drawing half: the map's settings, the
    registries of star systems, galaxies, governments, wormholes and planets
    filled by `load`, and the events `load` then applies (Event.java's
    `apply`). The registries' contents are specified as one value, a
    `World`, so that the effect of loading and of each event is a function
    of the previous contents. */
module GalacticMaps {
  import opened Common
  import opened Nodes
  import opened Builder
  import StellarObjects
  import StarSystems
  import Planets
  import Galaxies
  import Wormholes
  import Events

  const PaintKey := "paint"
  const EventKey := "event"
  const EventListKey := "event list"
  const PluginsOnlyKey := "plugins only"
  const IncludeHiddenKey := "include hidden"
  const IncludeUnmappableKey := "include unmappable wormholes"
  const PaintUninhabitedKey := "paint uninhabited"

  /** The paint mode a map has unless a `paint` child sets one. */
  const DefaultPaintMode := "government"
  /** The government `getGovernment` falls back to. */
  const FallbackGovernment := "Uninhabited"
  /** The planet attribute that marks a planet as uninhabited. */
  const UninhabitedAttribute := "uninhabited"

  /** The name a node's first argument gives, if it has one. */
  function NameOf(n: Node): Option<string> {
    if |n.args| > 0 then Some(n.args[0]) else None
  }

  // ---------------------------------------------------------------------
  // The map's settings (the constructor)
  // ---------------------------------------------------------------------

  /** The fields the constructor sets from the map node's children. */
  datatype Settings = Settings(
    pluginsOnly: bool,
    paintMode: Option<string>,
    includeHidden: bool,
    includeUnmappableWormholes: bool,
    paintUninhabited: bool,
    events: seq<Option<string>>)

  function InitialSettings(): Settings {
    Settings(false, Some(DefaultPaintMode), false, false, false, [])
  }

  /** `Main.getEventList(key)`: the named list, or an empty list when no
      list has that name. */
  function EventList(lists: map<string, seq<string>>, key: string): seq<string> {
    if key in lists then lists[key] else []
  }

  /** A list of event names as entries of `events`. */
  function Entries(names: seq<string>): seq<Option<string>> {
    if names == [] then [] else [Some(names[0])] + Entries(names[1..])
  }

  /** The `j`-th entry is the `j`-th name. */
  lemma {:induction false} EntriesAt(names: seq<string>)
    ensures |Entries(names)| == |names|
    ensures forall j :: 0 <= j < |names| ==> Entries(names)[j] == Some(names[j])
  {
    if names != [] {
      EntriesAt(names[1..]);
    }
  }

  /** One child of the constructor. An `event` child adds whatever
      `asString` gives (null included); an `event list` child adds the
      events of the list its argument names, and nothing when it has no
      argument. */
  function Configure(lists: map<string, seq<string>>, s: Settings, c: Node): Settings {
    if c.name == PaintKey then s.(paintMode := AsString(c))
    else if c.name == EventKey then s.(events := s.events + [AsString(c)])
    else if c.name == EventListKey then
      if |c.args| == 0 then s else s.(events := s.events + Entries(EventList(lists, c.args[0])))
    else if c.name == PluginsOnlyKey then s.(pluginsOnly := true)
    else if c.name == IncludeHiddenKey then s.(includeHidden := true)
    else if c.name == IncludeUnmappableKey then s.(includeUnmappableWormholes := true)
    else if c.name == PaintUninhabitedKey then s.(paintUninhabited := true)
    else s
  }

  function ConfigureAll(lists: map<string, seq<string>>, s: Settings, cs: seq<Node>): Settings {
    if cs == [] then s else Configure(lists, ConfigureAll(lists, s, cs[..|cs| - 1]), cs[|cs| - 1])
  }

  /** Whether some node of the list has the name. */
  predicate Present(cs: seq<Node>, key: string) {
    exists j :: 0 <= j < |cs| && cs[j].name == key
  }

  lemma PresentSnoc(cs: seq<Node>, key: string)
    requires cs != []
    ensures Present(cs, key) <==> Present(cs[..|cs| - 1], key) || cs[|cs| - 1].name == key
  {
    var init := cs[..|cs| - 1];
    if Present(cs, key) && cs[|cs| - 1].name != key {
      var j :| 0 <= j < |cs| && cs[j].name == key;
      assert init[j].name == key;
    }
    if Present(init, key) {
      var j :| 0 <= j < |init| && init[j].name == key;
      assert cs[j].name == key;
    }
  }

  /** One child sets a flag exactly when it has the flag's name. */
  lemma ConfigureFlags(lists: map<string, seq<string>>, s: Settings, c: Node)
    ensures Configure(lists, s, c).pluginsOnly <==> s.pluginsOnly || c.name == PluginsOnlyKey
    ensures Configure(lists, s, c).includeHidden <==> s.includeHidden || c.name == IncludeHiddenKey
    ensures Configure(lists, s, c).includeUnmappableWormholes <==>
      s.includeUnmappableWormholes || c.name == IncludeUnmappableKey
    ensures Configure(lists, s, c).paintUninhabited <==> s.paintUninhabited || c.name == PaintUninhabitedKey
  {
  }

  /** Each of the four flags is set exactly when a child of its name is
      present; nothing clears one. */
  lemma {:induction false} SettingsPluginsOnly(lists: map<string, seq<string>>, s: Settings, cs: seq<Node>)
    ensures ConfigureAll(lists, s, cs).pluginsOnly <==> s.pluginsOnly || Present(cs, PluginsOnlyKey)
  {
    if cs != [] {
      SettingsPluginsOnly(lists, s, cs[..|cs| - 1]);
      ConfigureFlags(lists, ConfigureAll(lists, s, cs[..|cs| - 1]), cs[|cs| - 1]);
      PresentSnoc(cs, PluginsOnlyKey);
    }
  }

  lemma {:induction false} SettingsIncludeHidden(lists: map<string, seq<string>>, s: Settings, cs: seq<Node>)
    ensures ConfigureAll(lists, s, cs).includeHidden <==> s.includeHidden || Present(cs, IncludeHiddenKey)
  {
    if cs != [] {
      SettingsIncludeHidden(lists, s, cs[..|cs| - 1]);
      ConfigureFlags(lists, ConfigureAll(lists, s, cs[..|cs| - 1]), cs[|cs| - 1]);
      PresentSnoc(cs, IncludeHiddenKey);
    }
  }

  lemma {:induction false} SettingsIncludeUnmappable(lists: map<string, seq<string>>, s: Settings, cs: seq<Node>)
    ensures ConfigureAll(lists, s, cs).includeUnmappableWormholes <==>
      s.includeUnmappableWormholes || Present(cs, IncludeUnmappableKey)
  {
    if cs != [] {
      SettingsIncludeUnmappable(lists, s, cs[..|cs| - 1]);
      ConfigureFlags(lists, ConfigureAll(lists, s, cs[..|cs| - 1]), cs[|cs| - 1]);
      PresentSnoc(cs, IncludeUnmappableKey);
    }
  }

  lemma {:induction false} SettingsPaintUninhabited(lists: map<string, seq<string>>, s: Settings, cs: seq<Node>)
    ensures ConfigureAll(lists, s, cs).paintUninhabited <==> s.paintUninhabited || Present(cs, PaintUninhabitedKey)
  {
    if cs != [] {
      SettingsPaintUninhabited(lists, s, cs[..|cs| - 1]);
      ConfigureFlags(lists, ConfigureAll(lists, s, cs[..|cs| - 1]), cs[|cs| - 1]);
      PresentSnoc(cs, PaintUninhabitedKey);
    }
  }

  /** The paint mode stays "government" unless a `paint` child is present;
      then the last one decides, a REMOVE or argument-less one giving null. */
  lemma {:induction false} SettingsPaintMode(lists: map<string, seq<string>>, s: Settings, cs: seq<Node>)
    ensures ConfigureAll(lists, s, cs).paintMode ==
      match LastNamed(cs, PaintKey) case None => s.paintMode case Some(c) => AsString(c)
  {
    if cs != [] {
      SettingsPaintMode(lists, s, cs[..|cs| - 1]);
      ConfigurePaint(lists, ConfigureAll(lists, s, cs[..|cs| - 1]), cs[|cs| - 1]);
    }
  }

  /** Only a `paint` child sets the paint mode. */
  lemma ConfigurePaint(lists: map<string, seq<string>>, s: Settings, c: Node)
    ensures Configure(lists, s, c).paintMode == if c.name == PaintKey then AsString(c) else s.paintMode
  {
  }

  /** What one child contributes to `events`. */
  function Contribution(lists: map<string, seq<string>>, c: Node): seq<Option<string>> {
    if c.name == EventKey then [AsString(c)]
    else if c.name == EventListKey && |c.args| > 0 then Entries(EventList(lists, c.args[0]))
    else []
  }

  /** The events the children contribute, in source order. */
  function Contributions(lists: map<string, seq<string>>, cs: seq<Node>): seq<Option<string>> {
    if cs == [] then [] else Contribution(lists, cs[0]) + Contributions(lists, cs[1..])
  }

  lemma {:induction false} ContributionsSnoc(lists: map<string, seq<string>>, cs: seq<Node>, c: Node)
    ensures Contributions(lists, cs + [c]) == Contributions(lists, cs) + Contribution(lists, c)
  {
    if cs == [] {
      assert [] + [c] == [c];
      assert Contributions(lists, [c][1..]) == [];
    } else {
      assert (cs + [c])[0] == cs[0];
      assert (cs + [c])[1..] == cs[1..] + [c];
      ContributionsSnoc(lists, cs[1..], c);
    }
  }

  /** `events` gains, in source order, each `event` child's entry and each
      `event list` child's list; the other children add nothing. */
  lemma {:induction false} SettingsEvents(lists: map<string, seq<string>>, s: Settings, cs: seq<Node>)
    ensures ConfigureAll(lists, s, cs).events == s.events + Contributions(lists, cs)
  {
    if cs == [] {
      assert s.events + [] == s.events;
    } else {
      var init, c := cs[..|cs| - 1], cs[|cs| - 1];
      var prev := ConfigureAll(lists, s, init);
      calc {
        ConfigureAll(lists, s, cs).events;
      ==
        Configure(lists, prev, c).events;
      == { ConfigureEvents(lists, prev, c); }
        prev.events + Contribution(lists, c);
      == { SettingsEvents(lists, s, init); }
        (s.events + Contributions(lists, init)) + Contribution(lists, c);
      ==
        s.events + (Contributions(lists, init) + Contribution(lists, c));
      == { ContributionsSnoc(lists, init, c); assert init + [c] == cs; }
        s.events + Contributions(lists, cs);
      }
    }
  }

  /** One child appends its contribution to `events`. */
  lemma ConfigureEvents(lists: map<string, seq<string>>, s: Settings, c: Node)
    ensures Configure(lists, s, c).events == s.events + Contribution(lists, c)
  {
    if c.name != EventKey && (c.name != EventListKey || |c.args| == 0) {
      assert s.events + [] == s.events;
    }
  }

  // ---------------------------------------------------------------------
  // The registries, as values
  // ---------------------------------------------------------------------

  /** Government.java: a government is its name; its colour, the only
      thing its constructor and `applyModifiers` read, is not modelled. */
  datatype Government = Government(name: Option<string>)

  /** The contents of the five registries, each entity as its field
      values. Each registry is keyed by entity name, an unnamed entity
      under the null key. */
  datatype World = World(
    systems: map<Option<string>, StarSystems.SystemData>,
    galaxies: map<Option<string>, Galaxies.GalaxyData>,
    governments: map<Option<string>, Government>,
    wormholes: map<Option<string>, Wormholes.WormholeData>,
    planets: map<Option<string>, Planets.PlanetData>)

  /** The entity each constructor builds from a node. */
  function SystemOf(num: NumberSyntax, n: Node): StarSystems.SystemData {
    StarSystems.Built(num, n, StarSystems.Kinds(n.children), |n.children|)
  }

  function GalaxyOf(num: NumberSyntax, n: Node): Galaxies.GalaxyData {
    Galaxies.ApplyAll(num, Galaxies.Initial(n), n.children)
  }

  function WormholeOf(n: Node): Wormholes.WormholeData {
    Wormholes.AbsorbAll(Wormholes.Initial(n), n.children)
  }

  function PlanetOf(num: NumberSyntax, n: Node): Planets.PlanetData {
    Planets.Built(num, n, Planets.Kinds(n.children), |n.children|)
  }

  /** Whether `load` looks at a node: with `plugins only` set, only nodes
      read from a plugin. */
  predicate Considered(n: Node, pluginsOnly: bool) {
    n.fromPlugin || !pluginsOnly
  }

  /** One turn of `load`'s first loop: an entity is built from each node of
      one of the five kinds and put under its name, replacing any entity
      of that kind with the same name. */
  function Populate(num: NumberSyntax, w: World, n: Node, pluginsOnly: bool): World {
    if !Considered(n, pluginsOnly) then w
    else if n.name == Events.SystemKey then w.(systems := w.systems[NameOf(n) := SystemOf(num, n)])
    else if n.name == Events.GalaxyKey then w.(galaxies := w.galaxies[NameOf(n) := GalaxyOf(num, n)])
    else if n.name == Events.GovernmentKey then w.(governments := w.governments[NameOf(n) := Government(NameOf(n))])
    else if n.name == Events.WormholeKey then w.(wormholes := w.wormholes[NameOf(n) := WormholeOf(n)])
    else if n.name == Events.PlanetKey then w.(planets := w.planets[NameOf(n) := PlanetOf(num, n)])
    else w
  }

  function Populated(num: NumberSyntax, w: World, ns: seq<Node>, pluginsOnly: bool): World {
    if ns == [] then w else Populate(num, Populated(num, w, ns[..|ns| - 1], pluginsOnly), ns[|ns| - 1], pluginsOnly)
  }

  /** The nodes `load` builds an entity of one kind from, in order. */
  function Kept(ns: seq<Node>, pluginsOnly: bool, key: string): seq<Node> {
    if ns == [] then []
    else
      var n := ns[|ns| - 1];
      Kept(ns[..|ns| - 1], pluginsOnly, key) + (if Considered(n, pluginsOnly) && n.name == key then [n] else [])
  }

  /** `Kept` holds exactly the considered nodes of the kind. */
  lemma {:induction false} KeptExactly(ns: seq<Node>, pluginsOnly: bool, key: string, x: Node)
    ensures x in Kept(ns, pluginsOnly, key) <==> x in ns && x.name == key && Considered(x, pluginsOnly)
  {
    if ns != [] {
      KeptExactly(ns[..|ns| - 1], pluginsOnly, key, x);
      assert ns == ns[..|ns| - 1] + [ns[|ns| - 1]];
    }
  }

  /** The last node of a list with the name `k`. */
  function LastNamedAs(ns: seq<Node>, k: Option<string>): Option<Node> {
    if ns == [] then None
    else if NameOf(ns[|ns| - 1]) == k then Some(ns[|ns| - 1])
    else LastNamedAs(ns[..|ns| - 1], k)
  }

  /** The registry after putting an entity built by `f` from each node. */
  function Register<V>(m: map<Option<string>, V>, ns: seq<Node>, f: Node -> V): map<Option<string>, V> {
    if ns == [] then m else Register(m, ns[..|ns| - 1], f)[NameOf(ns[|ns| - 1]) := f(ns[|ns| - 1])]
  }

  /** A later entity with the same name replaces an earlier one: a name is
      registered exactly when it was before or some node carries it, and
      then the entity is the one built from the last such node. */
  lemma {:induction false} RegisterLastWins<V>(m: map<Option<string>, V>, ns: seq<Node>, f: Node -> V, k: Option<string>)
    ensures k in Register(m, ns, f) <==> k in m || LastNamedAs(ns, k).Some?
    ensures LastNamedAs(ns, k).Some? ==> Register(m, ns, f)[k] == f(LastNamedAs(ns, k).value)
    ensures LastNamedAs(ns, k).None? && k in m ==> Register(m, ns, f)[k] == m[k]
  {
    if ns != [] {
      RegisterLastWins(m, ns[..|ns| - 1], f, k);
    }
  }

  /** One turn of `load`'s first loop changes a registry only for a
      considered node of its kind. */
  lemma PopulateSystems(num: NumberSyntax, w: World, n: Node, pluginsOnly: bool)
    ensures Populate(num, w, n, pluginsOnly).systems ==
      if Considered(n, pluginsOnly) && n.name == Events.SystemKey then w.systems[NameOf(n) := SystemOf(num, n)] else w.systems
  {
  }

  lemma PopulateGalaxies(num: NumberSyntax, w: World, n: Node, pluginsOnly: bool)
    ensures Populate(num, w, n, pluginsOnly).galaxies ==
      if Considered(n, pluginsOnly) && n.name == Events.GalaxyKey then w.galaxies[NameOf(n) := GalaxyOf(num, n)] else w.galaxies
  {
  }

  lemma PopulateGovernments(num: NumberSyntax, w: World, n: Node, pluginsOnly: bool)
    ensures Populate(num, w, n, pluginsOnly).governments ==
      if Considered(n, pluginsOnly) && n.name == Events.GovernmentKey then w.governments[NameOf(n) := Government(NameOf(n))] else w.governments
  {
  }

  lemma PopulateWormholes(num: NumberSyntax, w: World, n: Node, pluginsOnly: bool)
    ensures Populate(num, w, n, pluginsOnly).wormholes ==
      if Considered(n, pluginsOnly) && n.name == Events.WormholeKey then w.wormholes[NameOf(n) := WormholeOf(n)] else w.wormholes
  {
  }

  lemma PopulatePlanets(num: NumberSyntax, w: World, n: Node, pluginsOnly: bool)
    ensures Populate(num, w, n, pluginsOnly).planets ==
      if Considered(n, pluginsOnly) && n.name == Events.PlanetKey then w.planets[NameOf(n) := PlanetOf(num, n)] else w.planets
  {
  }

  /** `load`'s first loop fills each registry from the considered nodes of
      its kind alone, in order. */
  lemma {:induction false} PopulatedSystems(num: NumberSyntax, w: World, ns: seq<Node>, pluginsOnly: bool)
    ensures Populated(num, w, ns, pluginsOnly).systems ==
      Register(w.systems, Kept(ns, pluginsOnly, Events.SystemKey), n => SystemOf(num, n))
  {
    if ns != [] {
      var init, n := ns[..|ns| - 1], ns[|ns| - 1];
      PopulatedSystems(num, w, init, pluginsOnly);
      PopulateSystems(num, Populated(num, w, init, pluginsOnly), n, pluginsOnly);
      var kept := Kept(init, pluginsOnly, Events.SystemKey);
      if Considered(n, pluginsOnly) && n.name == Events.SystemKey {
        assert (kept + [n])[..|kept|] == kept;
      } else {
        assert kept + [] == kept;
      }
    }
  }

  lemma {:induction false} PopulatedGalaxies(num: NumberSyntax, w: World, ns: seq<Node>, pluginsOnly: bool)
    ensures Populated(num, w, ns, pluginsOnly).galaxies ==
      Register(w.galaxies, Kept(ns, pluginsOnly, Events.GalaxyKey), n => GalaxyOf(num, n))
  {
    if ns != [] {
      var init, n := ns[..|ns| - 1], ns[|ns| - 1];
      PopulatedGalaxies(num, w, init, pluginsOnly);
      PopulateGalaxies(num, Populated(num, w, init, pluginsOnly), n, pluginsOnly);
      var kept := Kept(init, pluginsOnly, Events.GalaxyKey);
      if Considered(n, pluginsOnly) && n.name == Events.GalaxyKey {
        assert (kept + [n])[..|kept|] == kept;
      } else {
        assert kept + [] == kept;
      }
    }
  }

  lemma {:induction false} PopulatedGovernments(num: NumberSyntax, w: World, ns: seq<Node>, pluginsOnly: bool)
    ensures Populated(num, w, ns, pluginsOnly).governments ==
      Register(w.governments, Kept(ns, pluginsOnly, Events.GovernmentKey), n => Government(NameOf(n)))
  {
    if ns != [] {
      var init, n := ns[..|ns| - 1], ns[|ns| - 1];
      PopulatedGovernments(num, w, init, pluginsOnly);
      PopulateGovernments(num, Populated(num, w, init, pluginsOnly), n, pluginsOnly);
      var kept := Kept(init, pluginsOnly, Events.GovernmentKey);
      if Considered(n, pluginsOnly) && n.name == Events.GovernmentKey {
        assert (kept + [n])[..|kept|] == kept;
      } else {
        assert kept + [] == kept;
      }
    }
  }

  lemma {:induction false} PopulatedWormholes(num: NumberSyntax, w: World, ns: seq<Node>, pluginsOnly: bool)
    ensures Populated(num, w, ns, pluginsOnly).wormholes ==
      Register(w.wormholes, Kept(ns, pluginsOnly, Events.WormholeKey), n => WormholeOf(n))
  {
    if ns != [] {
      var init, n := ns[..|ns| - 1], ns[|ns| - 1];
      PopulatedWormholes(num, w, init, pluginsOnly);
      PopulateWormholes(num, Populated(num, w, init, pluginsOnly), n, pluginsOnly);
      var kept := Kept(init, pluginsOnly, Events.WormholeKey);
      if Considered(n, pluginsOnly) && n.name == Events.WormholeKey {
        assert (kept + [n])[..|kept|] == kept;
      } else {
        assert kept + [] == kept;
      }
    }
  }

  lemma {:induction false} PopulatedPlanets(num: NumberSyntax, w: World, ns: seq<Node>, pluginsOnly: bool)
    ensures Populated(num, w, ns, pluginsOnly).planets ==
      Register(w.planets, Kept(ns, pluginsOnly, Events.PlanetKey), n => PlanetOf(num, n))
  {
    if ns != [] {
      var init, n := ns[..|ns| - 1], ns[|ns| - 1];
      PopulatedPlanets(num, w, init, pluginsOnly);
      PopulatePlanets(num, Populated(num, w, init, pluginsOnly), n, pluginsOnly);
      var kept := Kept(init, pluginsOnly, Events.PlanetKey);
      if Considered(n, pluginsOnly) && n.name == Events.PlanetKey {
        assert (kept + [n])[..|kept|] == kept;
      } else {
        assert kept + [] == kept;
      }
    }
  }

  // ---------------------------------------------------------------------
  // Applying an event to the registries (Event.java's `apply`)
  // ---------------------------------------------------------------------

  /** The registries after a step, and whether the step ended normally
      (`false` is the NullPointerException of a failed lookup, or of a
      planet modifier on an unnamed planet, which ends `load`). */
  datatype Outcome = Outcome(w: World, ok: bool)

  /** `getGovernment(key)`: the government of that name, else the
      "Uninhabited" one, else null. */
  function GovernmentLookup(governments: map<Option<string>, Government>, key: Option<string>): (g: Option<Government>)
    ensures key in governments ==> g == Some(governments[key])
    ensures key !in governments ==>
      g == if Some(FallbackGovernment) in governments then Some(governments[Some(FallbackGovernment)]) else None
  {
    if key in governments then Some(governments[key])
    else if Some(FallbackGovernment) in governments then Some(governments[Some(FallbackGovernment)])
    else None
  }

  /** A planet's `applyModifiers`, as a value. */
  function PlanetModified(num: NumberSyntax, d: Planets.PlanetData, node: Node): Planets.Pass {
    Planets.Modified(num, Planets.Pass(d, false, false, false), node,
      Planets.ModifierKinds(d.name, node.children), |node.children|)
  }

  /** A system's `applyModifiers`, as a value. */
  function SystemModified(num: NumberSyntax, d: StarSystems.SystemData, node: Node): StarSystems.SystemData {
    StarSystems.Modified(num, d, node, StarSystems.Kinds(node.children), |node.children|)
  }

  /** One modifier node of `apply`: the entity its label names applies the
      node's modifiers; a lookup that finds nothing throws. A government
      found (directly or by the fallback) changes only its colour. */
  function ModifyEntity(num: NumberSyntax, w: World, node: Node): Outcome {
    match Events.Target(node)
    case None => Outcome(w, true)
    case Some((entity, tag)) =>
      var key := Some(tag);
      match entity
      case GalaxyEntity =>
        if key in w.galaxies
        then Outcome(w.(galaxies := w.galaxies[key := Galaxies.ApplyAll(num, w.galaxies[key], node.children)]), true)
        else Outcome(w, false)
      case GovernmentEntity => Outcome(w, GovernmentLookup(w.governments, key).Some?)
      case PlanetEntity =>
        if key in w.planets
        then
          var p := PlanetModified(num, w.planets[key], node);
          Outcome(w.(planets := w.planets[key := p.d]), !p.thrown)
        else Outcome(w, false)
      case SystemEntity =>
        if key in w.systems
        then Outcome(w.(systems := w.systems[key := SystemModified(num, w.systems[key], node)]), true)
        else Outcome(w, false)
      case WormholeEntity =>
        if key in w.wormholes
        then Outcome(w.(wormholes := w.wormholes[key := Wormholes.ModifyAll(w.wormholes[key], node.children)]), true)
        else Outcome(w, false)
  }

  /** The modifier nodes of an event in order, stopping at the first that
      throws. */
  function ModifyEntities(num: NumberSyntax, o: Outcome, nodes: seq<Node>): Outcome {
    if nodes == [] then o
    else
      var prev := ModifyEntities(num, o, nodes[..|nodes| - 1]);
      if !prev.ok then prev else ModifyEntity(num, prev.w, nodes[|nodes| - 1])
  }

  /** The labelled nodes of a list, in order. */
  function Labelled(nodes: seq<Node>): seq<Node> {
    if nodes == [] then []
    else Labelled(nodes[..|nodes| - 1]) + (if |nodes[|nodes| - 1].args| > 0 then [nodes[|nodes| - 1]] else [])
  }

  /** A modifier node without a label is skipped and the nodes after it are
      still applied: the outcome is that of the labelled nodes alone. */
  lemma {:induction false} UnlabelledSkipped(num: NumberSyntax, o: Outcome, nodes: seq<Node>)
    ensures ModifyEntities(num, o, nodes) == ModifyEntities(num, o, Labelled(nodes))
  {
    if nodes != [] {
      var init, n := nodes[..|nodes| - 1], nodes[|nodes| - 1];
      UnlabelledSkipped(num, o, init);
      var l := Labelled(init);
      if |n.args| > 0 {
        assert (l + [n])[..|l|] == l;
      } else {
        assert l + [] == l;
      }
    }
  }

  /** The systems' hyperlink lists after `addHyperlink` and
      `removeHyperlink` (removing null changes nothing). */
  function Linked(d: StarSystems.SystemData, h: string): StarSystems.SystemData {
    d.(hyperlinks := d.hyperlinks + [h])
  }

  function Unlinked(d: StarSystems.SystemData, h: Option<string>): StarSystems.SystemData {
    if h.Some? then d.(hyperlinks := RemoveFirst(d.hyperlinks, h.value)) else d
  }

  /** One turn of the link loop: `k`'s system gains a hyperlink to `v`,
      then `v`'s system one to `k`; either lookup may throw. */
  function LinkStep(w: World, k: string, v: string): Outcome {
    if Some(k) !in w.systems then Outcome(w, false)
    else
      var w1 := w.(systems := w.systems[Some(k) := Linked(w.systems[Some(k)], v)]);
      if Some(v) !in w1.systems then Outcome(w1, false)
      else Outcome(w1.(systems := w1.systems[Some(v) := Linked(w1.systems[Some(v)], k)]), true)
  }

  /** The link loop over the keys in the order the map yields them. */
  function LinkAll(o: Outcome, links: map<string, string>, keys: seq<string>): Outcome
    requires forall j :: 0 <= j < |keys| ==> keys[j] in links
  {
    if keys == [] then o
    else
      var prev := LinkAll(o, links, keys[..|keys| - 1]);
      var k := keys[|keys| - 1];
      if !prev.ok then prev else LinkStep(prev.w, k, links[k])
  }

  /** One turn of the unlink loop for key `k`, whose partner `target` is
      what the LINK map gives for `k` (null when it has no entry): `k`'s
      system loses its hyperlink to the partner, then the partner's system
      (looked up by that possibly null name) loses its hyperlink to `k`. */
  function UnlinkStep(w: World, k: string, target: Option<string>): Outcome {
    if Some(k) !in w.systems then Outcome(w, false)
    else
      var w1 := w.(systems := w.systems[Some(k) := Unlinked(w.systems[Some(k)], target)]);
      if target !in w1.systems then Outcome(w1, false)
      else Outcome(w1.(systems := w1.systems[target := Unlinked(w1.systems[target], Some(k))]), true)
  }

  /** `linkMap.get(k)`. */
  function Partner(links: map<string, string>, k: string): Option<string> {
    if k in links then Some(links[k]) else None
  }

  /** The unlink loop over the unlink map's keys, partners taken from the
      link map. */
  function UnlinkAll(o: Outcome, links: map<string, string>, keys: seq<string>): Outcome {
    if keys == [] then o
    else
      var prev := UnlinkAll(o, links, keys[..|keys| - 1]);
      var k := keys[|keys| - 1];
      if !prev.ok then prev else UnlinkStep(prev.w, k, Partner(links, k))
  }

  /** `ks` lists each key of `m` exactly once, as `keySet()` iterates. */
  ghost predicate Enumerates(ks: seq<string>, m: map<string, string>) {
    && (forall j :: 0 <= j < |ks| ==> ks[j] in m)
    && (forall k :: k in m ==> k in ks)
    && (forall i, j :: 0 <= i < j < |ks| ==> ks[i] != ks[j])
  }

  /** A key order for every map: the order `HashMap.keySet()` iterates in,
      which the program does not control. */
  ghost predicate EnumeratesAll(order: map<string, string> -> seq<string>) {
    forall m :: Enumerates(order(m), m)
  }

  /** `apply`: the modifier nodes first, then the links, then the unlinks,
      stopping at the first exception. */
  function EventOutcome(num: NumberSyntax, w: World, e: Events.EventValue, linkKeys: seq<string>, unlinkKeys: seq<string>): Outcome
    requires forall j :: 0 <= j < |linkKeys| ==> linkKeys[j] in e.links
  {
    var a := ModifyEntities(num, Outcome(w, true), e.modifiers);
    if !a.ok then a
    else
      var b := LinkAll(a, e.links, linkKeys);
      if !b.ok then b else UnlinkAll(b, e.links, unlinkKeys)
  }

  /** `load`'s second loop: the events named in `events`, in order, each
      looked up by name (a name no event has throws). */
  function RunEvents(num: NumberSyntax, o: Outcome, evs: seq<Option<Events.EventValue>>,
                     order: map<string, string> -> seq<string>): Outcome
    requires EnumeratesAll(order)
  {
    if evs == [] then o
    else
      var prev := RunEvents(num, o, evs[..|evs| - 1], order);
      if !prev.ok then prev
      else
        match evs[|evs| - 1]
        case None => Outcome(prev.w, false)
        case Some(e) =>
          assert Enumerates(order(e.links), e.links);
          EventOutcome(num, prev.w, e, order(e.links), order(e.unlinks))
  }

  /** `Main.getEvent(name)` for each name, as values. */
  ghost function Lookups(names: seq<Option<string>>, known: map<Option<string>, Events.Event>): seq<Option<Events.EventValue>>
    reads known.Values
  {
    if names == [] then []
    else
      var name := names[|names| - 1];
      Lookups(names[..|names| - 1], known) + [if name in known then Some(known[name].Data()) else None]
  }

  // ---------------------------------------------------------------------
  // Properties of the link loops
  // ---------------------------------------------------------------------

  /** `w'` has the systems of `w`, each with its hyperlinks extended. */
  ghost predicate Grown(w: World, w': World) {
    && w'.systems.Keys == w.systems.Keys
    && forall k :: k in w.systems ==> w.systems[k].hyperlinks <= w'.systems[k].hyperlinks
  }

  lemma GrownTrans(a: World, b: World, c: World)
    requires Grown(a, b) && Grown(b, c)
    ensures Grown(a, c)
  {
    forall k | k in a.systems
      ensures a.systems[k].hyperlinks <= c.systems[k].hyperlinks
    {
      PrefixTrans(a.systems[k].hyperlinks, b.systems[k].hyperlinks, c.systems[k].hyperlinks);
    }
  }

  lemma PrefixTrans(a: seq<string>, b: seq<string>, c: seq<string>)
    requires a <= b && b <= c
    ensures a <= c
  {
    assert b[..|a|] == a;
    assert c[..|b|] == b;
    assert c[..|b|][..|a|] == c[..|a|];
  }

  lemma PrefixHas(a: seq<string>, b: seq<string>, x: string)
    requires a <= b && x in a
    ensures x in b
  {
    var i :| 0 <= i < |a| && a[i] == x;
    assert b[i] == x;
  }

  /** A link step that completes only appends, and leaves `k`'s system
      linked to `v` and `v`'s system linked to `k`. */
  lemma LinkStepLinks(w: World, k: string, v: string)
    requires LinkStep(w, k, v).ok
    ensures Grown(w, LinkStep(w, k, v).w)
    ensures var s := LinkStep(w, k, v).w.systems;
      Some(k) in s && v in s[Some(k)].hyperlinks && Some(v) in s && k in s[Some(v)].hyperlinks
  {
    var w1 := w.(systems := w.systems[Some(k) := Linked(w.systems[Some(k)], v)]);
    var s := LinkStep(w, k, v).w.systems;
    assert v in w1.systems[Some(k)].hyperlinks by {
      assert w1.systems[Some(k)].hyperlinks[|w.systems[Some(k)].hyperlinks|] == v;
    }
    assert k in s[Some(v)].hyperlinks by {
      assert s[Some(v)].hyperlinks[|w1.systems[Some(v)].hyperlinks|] == k;
    }
    PrefixHas(w1.systems[Some(k)].hyperlinks, s[Some(k)].hyperlinks, v);
    forall key | key in w.systems
      ensures w.systems[key].hyperlinks <= s[key].hyperlinks
    {
      PrefixTrans(w.systems[key].hyperlinks, w1.systems[key].hyperlinks, s[key].hyperlinks);
    }
  }

  /** A link loop that completes only appends hyperlinks. */
  lemma {:induction false} LinkAllGrows(w: World, links: map<string, string>, keys: seq<string>)
    requires forall j :: 0 <= j < |keys| ==> keys[j] in links
    requires LinkAll(Outcome(w, true), links, keys).ok
    ensures Grown(w, LinkAll(Outcome(w, true), links, keys).w)
  {
    if keys != [] {
      var init, k := keys[..|keys| - 1], keys[|keys| - 1];
      LinkAllGrows(w, links, init);
      var prev := LinkAll(Outcome(w, true), links, init);
      LinkStepLinks(prev.w, k, links[k]);
      GrownTrans(w, prev.w, LinkStep(prev.w, k, links[k]).w);
    }
  }

  /** Each link goes both ways: once the link loop has completed, every
      key's system has a hyperlink to its partner and the partner's system
      has one back. */
  lemma {:induction false} LinkedBothWays(w: World, links: map<string, string>, keys: seq<string>, j: int)
    requires forall i :: 0 <= i < |keys| ==> keys[i] in links
    requires LinkAll(Outcome(w, true), links, keys).ok
    requires 0 <= j < |keys|
    ensures var s := LinkAll(Outcome(w, true), links, keys).w.systems;
      var k := keys[j];
      && Some(k) in s && links[k] in s[Some(k)].hyperlinks
      && Some(links[k]) in s && k in s[Some(links[k])].hyperlinks
  {
    var init, last := keys[..|keys| - 1], keys[|keys| - 1];
    var prev := LinkAll(Outcome(w, true), links, init);
    var r := LinkStep(prev.w, last, links[last]);
    LinkStepLinks(prev.w, last, links[last]);
    if j < |keys| - 1 {
      LinkedBothWays(w, links, init, j);
      var k := keys[j];
      assert init[j] == k;
      PrefixHas(prev.w.systems[Some(k)].hyperlinks, r.w.systems[Some(k)].hyperlinks, links[k]);
      PrefixHas(prev.w.systems[Some(links[k])].hyperlinks, r.w.systems[Some(links[k])].hyperlinks, k);
    }
  }

  /** The unlink loop reads its partner from the link map: an unlink whose
      key the same event does not link looks up the system named null,
      which throws unless an unnamed system is registered, and its key's
      system loses nothing. */
  lemma UnlinkWithoutLink(w: World, links: map<string, string>, k: string)
    requires Some(k) in w.systems && k !in links && None !in w.systems
    ensures !UnlinkStep(w, k, Partner(links, k)).ok
    ensures UnlinkStep(w, k, Partner(links, k)).w == w
  {
    assert w.systems[Some(k) := Unlinked(w.systems[Some(k)], None)] == w.systems;
  }

  /** The unlink turn as evidently intended, its partner read from the
      UNLINK map: when both systems are registered it completes, and each
      of the two systems loses one hyperlink to the other and nothing
      else. */
  lemma IntendedUnlink(w: World, unlinks: map<string, string>, k: string)
    requires k in unlinks && unlinks[k] != k
    requires Some(k) in w.systems && Some(unlinks[k]) in w.systems
    ensures var r := UnlinkStep(w, k, Partner(unlinks, k));
      var v := unlinks[k];
      && r.ok
      && r.w.systems.Keys == w.systems.Keys
      && multiset(r.w.systems[Some(k)].hyperlinks) == multiset(w.systems[Some(k)].hyperlinks) - multiset{v}
      && multiset(r.w.systems[Some(v)].hyperlinks) == multiset(w.systems[Some(v)].hyperlinks) - multiset{k}
  {
    var v := unlinks[k];
    var dk, dv := w.systems[Some(k)], w.systems[Some(v)];
    var w1 := w.(systems := w.systems[Some(k) := Unlinked(dk, Some(v))]);
    assert Partner(unlinks, k) == Some(v);
    assert w1.systems[Some(v)] == dv;
    var r := UnlinkStep(w, k, Some(v));
    assert r == Outcome(w1.(systems := w1.systems[Some(v) := Unlinked(dv, Some(k))]), true);
    RemoveFirstMultiset(dk.hyperlinks, v);
    RemoveFirstMultiset(dv.hyperlinks, k);
  }

  // ---------------------------------------------------------------------
  // `isUninhabited`
  // ---------------------------------------------------------------------

  /** A planet that does not make its system inhabited: marked
      "uninhabited", or a wormhole. */
  predicate Quiet(p: Planets.PlanetData) {
    UninhabitedAttribute in p.attributes || p.wormhole.Some?
  }

  /** `isUninhabited`'s loop over the named objects: the planet of each
      object's name is looked up (a missing one throws, `None` here), and
      the first one that is not quiet answers false. */
  function Uninhabited(objs: seq<StellarObjects.StellarObject>, planets: map<Option<string>, Planets.PlanetData>): Option<bool> {
    if objs == [] then Some(true)
    else if objs[0].name !in planets then None
    else if !Quiet(planets[objs[0].name]) then Some(false)
    else Uninhabited(objs[1..], planets)
  }

  /** When every named object has a planet, a system is uninhabited exactly
      when all its planets are quiet; in particular when it has no named
      object. */
  lemma {:induction false} UninhabitedIff(objs: seq<StellarObjects.StellarObject>, planets: map<Option<string>, Planets.PlanetData>)
    requires forall j :: 0 <= j < |objs| ==> objs[j].name in planets
    ensures Uninhabited(objs, planets) == Some(forall j :: 0 <= j < |objs| ==> Quiet(planets[objs[j].name]))
  {
    if objs != [] {
      forall j | 0 <= j < |objs[1..]|
        ensures objs[1..][j].name in planets
      {
        assert objs[1..][j] == objs[j + 1];
      }
      UninhabitedIff(objs[1..], planets);
      if Quiet(planets[objs[0].name]) {
        forall j | 0 <= j < |objs| && j > 0
          ensures Quiet(planets[objs[j].name]) <==> Quiet(planets[objs[1..][j - 1].name])
        {
          assert objs[1..][j - 1] == objs[j];
        }
        if forall j :: 0 <= j < |objs[1..]| ==> Quiet(planets[objs[1..][j].name]) {
          forall j | 0 <= j < |objs|
            ensures Quiet(planets[objs[j].name])
          {
            if j > 0 {
              assert objs[1..][j - 1] == objs[j];
            }
          }
        }
      }
    }
  }

  /** `isUninhabited` throws only when some named object has no planet. */
  lemma {:induction false} UninhabitedThrows(objs: seq<StellarObjects.StellarObject>, planets: map<Option<string>, Planets.PlanetData>)
    requires Uninhabited(objs, planets).None?
    ensures exists j :: 0 <= j < |objs| && objs[j].name !in planets
  {
    if objs[0].name in planets {
      UninhabitedThrows(objs[1..], planets);
      var j :| 0 <= j < |objs[1..]| && objs[1..][j].name !in planets;
      assert objs[j + 1] == objs[1..][j];
    }
  }

  // ---------------------------------------------------------------------
  // The map object
  // ---------------------------------------------------------------------


  /** A map object. Its registries hold the entities' field values: the map
      is the only holder of the entities `load` builds, so modifying one in
      place is replacing its entry. */
  class GalacticMap {
    const name: Option<string>
    var pluginsOnly: bool
    var paintMode: Option<string>
    var includeHidden: bool
    var includeUnmappableWormholes: bool
    var paintUninhabited: bool
    var events: seq<Option<string>>

    var systems: map<Option<string>, StarSystems.SystemData>
    var galaxies: map<Option<string>, Galaxies.GalaxyData>
    var governments: map<Option<string>, Government>
    var wormholes: map<Option<string>, Wormholes.WormholeData>
    var planets: map<Option<string>, Planets.PlanetData>

    ghost function Config(): Settings
      reads this
    {
      Settings(pluginsOnly, paintMode, includeHidden, includeUnmappableWormholes, paintUninhabited, events)
    }

    /** The registries' contents. */
    ghost function Entities(): World
      reads this
    {
      World(systems, galaxies, governments, wormholes, planets)
    }

    /** `new GalacticMap(node)`: `lists` stands for the event lists
        `Main.getEventList` reads. */
    constructor (n: Node, lists: map<string, seq<string>>)
      ensures Config() == ConfigureAll(lists, InitialSettings(), n.children)
      ensures name == NameOf(n)
      ensures Entities() == World(map[], map[], map[], map[], map[])
    {
      name := NameOf(n);
      pluginsOnly, paintMode, includeHidden := false, Some(DefaultPaintMode), false;
      includeUnmappableWormholes, paintUninhabited, events := false, false, [];
      systems, galaxies, governments, wormholes, planets := map[], map[], map[], map[], map[];
      new;
      for i := 0 to |n.children|
        invariant Config() == ConfigureAll(lists, InitialSettings(), n.children[..i])
        invariant Entities() == World(map[], map[], map[], map[], map[])
      {
        assert n.children[..i + 1][..i] == n.children[..i];
        ConfigureChild(lists, n.children[i]);
      }
      assert n.children[..|n.children|] == n.children;
    }

    /** One turn of the constructor's child loop. */
    method ConfigureChild(lists: map<string, seq<string>>, child: Node)
      modifies this
      ensures Config() == Configure(lists, old(Config()), child)
      ensures Entities() == old(Entities())
    {
      if child.name == PaintKey {
        paintMode := AsString(child);
      } else if child.name == EventKey {
        events := events + [AsString(child)];
      } else if child.name == EventListKey {
        if |child.args| > 0 {
          AddEvents(EventList(lists, child.args[0]));
        }
      } else {
        SetFlag(lists, child);
      }
    }

    /** The four flag branches of the constructor's child loop. */
    method SetFlag(lists: map<string, seq<string>>, child: Node)
      requires child.name != PaintKey && child.name != EventKey && child.name != EventListKey
      modifies this
      ensures Config() == Configure(lists, old(Config()), child)
      ensures Entities() == old(Entities())
    {
      if child.name == PluginsOnlyKey {
        pluginsOnly := true;
      } else if child.name == IncludeHiddenKey {
        includeHidden := true;
      } else if child.name == IncludeUnmappableKey {
        includeUnmappableWormholes := true;
      } else if child.name == PaintUninhabitedKey {
        paintUninhabited := true;
      }
    }

    /** The `event list` branch's loop: each event of the list, in order. */
    method AddEvents(list: seq<string>)
      modifies this
      ensures Config() == old(Config()).(events := old(events) + Entries(list))
      ensures Entities() == old(Entities())
    {
      for j := 0 to |list|
        invariant Config() == old(Config()).(events := old(events) + Entries(list[..j]))
        invariant Entities() == old(Entities())
      {
        EntriesSnoc(list, j);
        events := events + [Some(list[j])];
      }
      assert list[..|list|] == list;
    }

    static lemma EntriesSnoc(list: seq<string>, j: nat)
      requires j < |list|
      ensures Entries(list[..j + 1]) == Entries(list[..j]) + [Some(list[j])]
    {
      var a := Entries(list[..j + 1]);
      var b := Entries(list[..j]) + [Some(list[j])];
      EntriesAt(list[..j + 1]);
      EntriesAt(list[..j]);
      assert |a| == |b|;
      forall i | 0 <= i < |a|
        ensures a[i] == b[i]
      {
        if i < j {
          assert list[..j + 1][i] == list[..j][i];
        }
      }
    }

    // ---- lookups ----

    /** `getSystem(key)`: the system of that name, or null. */
    function GetSystem(key: Option<string>): (s: Option<StarSystems.SystemData>)
      reads this
      ensures s.Some? <==> key in systems
      ensures s.Some? ==> s.value == systems[key]
    {
      if key in systems then Some(systems[key]) else None
    }

    /** `getGalaxy(key)`: the galaxy of that name, or null. */
    function GetGalaxy(key: Option<string>): (g: Option<Galaxies.GalaxyData>)
      reads this
      ensures g.Some? <==> key in galaxies
      ensures g.Some? ==> g.value == galaxies[key]
    {
      if key in galaxies then Some(galaxies[key]) else None
    }

    /** `getGovernment(key)`: the government of that name, falling back to
        "Uninhabited", or null when neither is registered. */
    function GetGovernment(key: Option<string>): (g: Option<Government>)
      reads this
      ensures g.Some? <==> key in governments || Some(FallbackGovernment) in governments
      ensures key in governments ==> g == Some(governments[key])
      ensures key !in governments && g.Some? ==> g.value == governments[Some(FallbackGovernment)]
    {
      GovernmentLookup(governments, key)
    }

    /** `getWormhole(key)`: the wormhole of that name, or null. */
    function GetWormhole(key: Option<string>): (w: Option<Wormholes.WormholeData>)
      reads this
      ensures w.Some? <==> key in wormholes
      ensures w.Some? ==> w.value == wormholes[key]
    {
      if key in wormholes then Some(wormholes[key]) else None
    }

    /** `getPlanet(key)`: the planet of that name, or null. */
    function GetPlanet(key: Option<string>): (p: Option<Planets.PlanetData>)
      reads this
      ensures p.Some? <==> key in planets
      ensures p.Some? ==> p.value == planets[key]
    {
      if key in planets then Some(planets[key]) else None
    }

    // ---- registration ----

    /** `addStarSystem(system)`: put under its name, replacing any other. */
    method AddStarSystem(s: StarSystems.StarSystem)
      modifies this
      ensures Config() == old(Config())
      ensures Entities() == old(Entities()).(systems := old(systems)[s.name := s.Data()])
    {
      systems := systems[s.name := s.Data()];
    }

    /** `addGalaxy(galaxy)`. */
    method AddGalaxy(g: Galaxies.Galaxy)
      modifies this
      ensures Config() == old(Config())
      ensures Entities() == old(Entities()).(galaxies := old(galaxies)[g.name := g.Data()])
    {
      galaxies := galaxies[g.name := g.Data()];
    }

    /** `addGovernment(government)`. */
    method AddGovernment(g: Government)
      modifies this
      ensures Config() == old(Config())
      ensures Entities() == old(Entities()).(governments := old(governments)[g.name := g])
    {
      governments := governments[g.name := g];
    }

    /** `addWormhole(wormhole)`. */
    method AddWormhole(w: Wormholes.Wormhole)
      modifies this
      ensures Config() == old(Config())
      ensures Entities() == old(Entities()).(wormholes := old(wormholes)[w.name := w.Data()])
    {
      wormholes := wormholes[w.name := w.Data()];
    }

    /** `addPlanet(planet)`. */
    method AddPlanet(p: Planets.Planet)
      modifies this
      ensures Config() == old(Config())
      ensures Entities() == old(Entities()).(planets := old(planets)[p.name := p.Data()])
    {
      planets := planets[p.name := p.Data()];
    }

    // ---- load ----

    /** `load()`: `nodes` stands for `Main.getNodes()`, `known` for the
        events `Main.getEvent` finds by name, and `order` for the order in
        which a `HashMap` yields its keys. `ok` is false when an exception
        ended the loading. */
    method Load(num: NumberSyntax, nodes: seq<Node>, known: map<Option<string>, Events.Event>,
                order: map<string, string> -> seq<string>) returns (ok: bool)
      requires EnumeratesAll(order)
      modifies this
      ensures Config() == old(Config())
      ensures Outcome(Entities(), ok) ==
        RunEvents(num, Outcome(Populated(num, old(Entities()), nodes, pluginsOnly), true), Lookups(events, known), order)
    {
      BuildEntities(num, nodes);
      ok := ApplyEvents(num, known, order);
    }

    /** `load`'s first loop. */
    method BuildEntities(num: NumberSyntax, nodes: seq<Node>)
      modifies this
      ensures Config() == old(Config())
      ensures Entities() == Populated(num, old(Entities()), nodes, pluginsOnly)
    {
      for i := 0 to |nodes|
        invariant Config() == old(Config())
        invariant Entities() == Populated(num, old(Entities()), nodes[..i], pluginsOnly)
      {
        assert nodes[..i + 1][..i] == nodes[..i];
        AddEntity(num, nodes[i]);
      }
      assert nodes[..|nodes|] == nodes;
    }

    /** One turn of `load`'s first loop: the entity is built by its class's
        constructor and registered. */
    method AddEntity(num: NumberSyntax, n: Node)
      modifies this
      ensures Config() == old(Config())
      ensures Entities() == Populate(num, old(Entities()), n, pluginsOnly)
    {
      if !n.fromPlugin && pluginsOnly {
        return;
      }
      if n.name == Events.SystemKey {
        var s := new StarSystems.StarSystem(num, n);
        AddStarSystem(s);
      } else if n.name == Events.GalaxyKey {
        var g := new Galaxies.Galaxy(num, n);
        Galaxies.LastWins(num, Galaxies.Initial(n), n.children);
        AddGalaxy(g);
      } else if n.name == Events.GovernmentKey {
        AddGovernment(Government(NameOf(n)));
      } else if n.name == Events.WormholeKey {
        var w := new Wormholes.Wormhole(n);
        Wormholes.ConstructedNames(Wormholes.Initial(n), n.children);
        AddWormhole(w);
      } else if n.name == Events.PlanetKey {
        var p := new Planets.Planet(num, n);
        Planets.BuiltName(num, n, Planets.Kinds(n.children), |n.children|);
        AddPlanet(p);
      }
    }

    /** `load`'s second loop: each event named in `events`, in order. */
    method ApplyEvents(num: NumberSyntax, known: map<Option<string>, Events.Event>,
                       order: map<string, string> -> seq<string>) returns (ok: bool)
      requires EnumeratesAll(order)
      modifies this
      ensures Config() == old(Config())
      ensures Outcome(Entities(), ok) == RunEvents(num, Outcome(old(Entities()), true), Lookups(events, known), order)
    {
      ok := true;
      for i := 0 to |events|
        invariant Config() == old(Config())
        invariant Outcome(Entities(), ok) == RunEvents(num, Outcome(old(Entities()), true), Lookups(events[..i], known), order)
      {
        assert events[..i + 1][..i] == events[..i];
        if ok {
          var name := events[i];
          if name !in known {
            ok := false;
          } else {
            var e := known[name];
            assert Enumerates(order(e.linkMap), e.linkMap) && Enumerates(order(e.unlinkMap), e.unlinkMap);
            ok := ApplyEvent(num, e, order(e.linkMap), order(e.unlinkMap));
          }
        }
      }
      assert events[..|events|] == events;
    }

    /** `event.apply(this)`: Event.java's `apply`, with `linkKeys` and
        `unlinkKeys` the orders in which the event's two maps yield their
        keys. */
    method ApplyEvent(num: NumberSyntax, e: Events.Event, linkKeys: seq<string>, unlinkKeys: seq<string>)
      returns (ok: bool)
      requires Enumerates(linkKeys, e.linkMap) && Enumerates(unlinkKeys, e.unlinkMap)
      modifies this
      ensures Config() == old(Config())
      ensures Outcome(Entities(), ok) == EventOutcome(num, old(Entities()), e.Data(), linkKeys, unlinkKeys)
    {
      ok := ModifyAll(num, e.modifierNodes);
      if !ok {
        return;
      }
      ok := AddLinks(e.linkMap, linkKeys);
      if !ok {
        return;
      }
      ok := RemoveLinks(e.linkMap, unlinkKeys);
    }

    /** `apply`'s loop over the modifier nodes. */
    method ModifyAll(num: NumberSyntax, nodes: seq<Node>) returns (ok: bool)
      modifies this
      ensures Config() == old(Config())
      ensures Outcome(Entities(), ok) == ModifyEntities(num, Outcome(old(Entities()), true), nodes)
    {
      ok := true;
      for i := 0 to |nodes|
        invariant Config() == old(Config())
        invariant Outcome(Entities(), ok) == ModifyEntities(num, Outcome(old(Entities()), true), nodes[..i])
      {
        assert nodes[..i + 1][..i] == nodes[..i];
        if ok {
          ok := Modify(num, nodes[i]);
        }
      }
      assert nodes[..|nodes|] == nodes;
    }

    /** One turn of `apply`'s modifier loop, dispatched on the node's name
        (`map.getX(label).applyModifiers(node)`). */
    method Modify(num: NumberSyntax, node: Node) returns (ok: bool)
      modifies this
      ensures Config() == old(Config())
      ensures Outcome(Entities(), ok) == ModifyEntity(num, old(Entities()), node)
    {
      if |node.args| == 0 {
        return true;
      }
      var key := Some(node.args[0]);
      if node.name == Events.GalaxyKey {
        var g := GetGalaxy(key);
        if g.None? {
          return false;
        }
        galaxies := galaxies[key := Galaxies.ApplyAll(num, g.value, node.children)];
        ok := true;
      } else if node.name == Events.GovernmentKey {
        ok := GetGovernment(key).Some?;
      } else if node.name == Events.PlanetKey {
        var p := GetPlanet(key);
        if p.None? {
          return false;
        }
        var r := PlanetModified(num, p.value, node);
        planets := planets[key := r.d];
        ok := !r.thrown;
      } else if node.name == Events.SystemKey {
        var s := GetSystem(key);
        if s.None? {
          return false;
        }
        systems := systems[key := SystemModified(num, s.value, node)];
        ok := true;
      } else if node.name == Events.WormholeKey {
        var w := GetWormhole(key);
        if w.None? {
          return false;
        }
        wormholes := wormholes[key := Wormholes.ModifyAll(w.value, node.children)];
        ok := true;
      } else {
        ok := true;
      }
    }

    /** `apply`'s link loop. */
    method AddLinks(links: map<string, string>, keys: seq<string>) returns (ok: bool)
      requires forall j :: 0 <= j < |keys| ==> keys[j] in links
      modifies this
      ensures Config() == old(Config())
      ensures Outcome(Entities(), ok) == LinkAll(Outcome(old(Entities()), true), links, keys)
    {
      ok := true;
      for i := 0 to |keys|
        invariant Config() == old(Config())
        invariant Outcome(Entities(), ok) == LinkAll(Outcome(old(Entities()), true), links, keys[..i])
      {
        assert keys[..i + 1][..i] == keys[..i];
        if ok {
          ok := Link(keys[i], links[keys[i]]);
        }
      }
      assert keys[..|keys|] == keys;
    }

    /** One turn of the link loop: `getSystem(k).addHyperlink(v)`, then
        `getSystem(v).addHyperlink(k)`. */
    method Link(k: string, v: string) returns (ok: bool)
      modifies this
      ensures Config() == old(Config())
      ensures Outcome(Entities(), ok) == LinkStep(old(Entities()), k, v)
    {
      var s := GetSystem(Some(k));
      if s.None? {
        return false;
      }
      systems := systems[Some(k) := Linked(s.value, v)];
      var t := GetSystem(Some(v));
      if t.None? {
        return false;
      }
      systems := systems[Some(v) := Linked(t.value, k)];
      return true;
    }

    /** `apply`'s unlink loop. */
    method RemoveLinks(links: map<string, string>, keys: seq<string>) returns (ok: bool)
      modifies this
      ensures Config() == old(Config())
      ensures Outcome(Entities(), ok) == UnlinkAll(Outcome(old(Entities()), true), links, keys)
    {
      ok := true;
      for i := 0 to |keys|
        invariant Config() == old(Config())
        invariant Outcome(Entities(), ok) == UnlinkAll(Outcome(old(Entities()), true), links, keys[..i])
      {
        assert keys[..i + 1][..i] == keys[..i];
        if ok {
          ok := Unlink(keys[i], if keys[i] in links then Some(links[keys[i]]) else None);
        }
      }
      assert keys[..|keys|] == keys;
    }

    /** One turn of the unlink loop: `getSystem(k).removeHyperlink(target)`,
        then `getSystem(target).removeHyperlink(k)`. */
    method Unlink(k: string, target: Option<string>) returns (ok: bool)
      modifies this
      ensures Config() == old(Config())
      ensures Outcome(Entities(), ok) == UnlinkStep(old(Entities()), k, target)
    {
      var s := GetSystem(Some(k));
      if s.None? {
        return false;
      }
      systems := systems[Some(k) := Unlinked(s.value, target)];
      var t := GetSystem(target);
      if t.None? {
        return false;
      }
      systems := systems[target := Unlinked(t.value, Some(k))];
      return true;
    }

    // ---- isUninhabited ----

    /** StarSystem.java's `isUninhabited(map)` for a system `s`: `None` is
        the NullPointerException of a named object without a planet. */
    method IsUninhabited(s: StarSystems.StarSystem) returns (r: Option<bool>)
      ensures r == Uninhabited(StarSystems.NamedScan(s.objects), planets)
    {
      var named := s.GetAllNamedObjects();
      if |named| == 0 {
        return Some(true);
      }
      for i := 0 to |named|
        invariant Uninhabited(named[i..], planets) == Uninhabited(named, planets)
      {
        assert named[i..][1..] == named[i + 1..];
        var planet := GetPlanet(named[i].name);
        if planet.None? {
          return None;
        }
        if !(UninhabitedAttribute in planet.value.attributes) && planet.value.wormhole.None? {
          return Some(false);
        }
      }
      return Some(true);
    }
  }
}
