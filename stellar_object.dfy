/** StellarObject.java: the orbital objects of a star system, each with an
    optional name and a tree of nested objects. Nothing in the program
    changes an object once its constructor is done, so an object is a value
    here. */
module StellarObjects {
  import opened Common
  import opened Nodes
  import opened Builder

  /** The child names the object builder recognises. */
  const SpriteKey := "sprite"
  const DistanceKey := "distance"
  const PeriodKey := "period"
  const OffsetKey := "offset"
  const ObjectKey := "object"

  datatype StellarObject = StellarObject(
    name: Option<string>,
    sprite: Option<Sprite>,
    distance: real,
    period: real,
    offset: real,
    children: seq<StellarObject>)
  {
    /** `isNamed`. */
    predicate IsNamed() {
      name.Some?
    }
  }

  /** The object `new StellarObject(n)` builds. */
  function ObjectOf(num: NumberSyntax, n: Node): StellarObject
    decreases n, 1, 0
  {
    Absorbed(num, n, |n.children|)
  }

  /** The object after the constructor has handled the first `i` children:
      a name only when the node has an argument, then one field update per
      recognised child, the last one of each kind winning, and a nested
      object appended for each `object` child. */
  function Absorbed(num: NumberSyntax, n: Node, i: nat): StellarObject
    requires i <= |n.children|
    decreases n, 0, i
  {
    if i == 0 then
      StellarObject(if |n.args| > 0 then Some(n.args[0]) else None, None, 0.0, 0.0, 0.0, [])
    else
      var o := Absorbed(num, n, i - 1);
      var c := n.children[i - 1];
      if c.name == SpriteKey then o.(sprite := AsSprite(c))
      else if c.name == DistanceKey then o.(distance := AsDouble(num, c, 0.0))
      else if c.name == PeriodKey then o.(period := AsDouble(num, c, 0.0))
      else if c.name == OffsetKey then o.(offset := AsDouble(num, c, 0.0))
      else if c.name == ObjectKey then o.(children := o.children + [ObjectOf(num, c)])
      else o
  }

  /** The constructor: the child loop, building nested objects recursively. */
  method NewStellarObject(num: NumberSyntax, n: Node) returns (o: StellarObject)
    ensures o == ObjectOf(num, n)
    decreases n
  {
    o := StellarObject(None, None, 0.0, 0.0, 0.0, []);
    if |n.args| > 0 {
      o := o.(name := Some(n.args[0]));
    }
    for i := 0 to |n.children|
      invariant o == Absorbed(num, n, i)
    {
      var child := n.children[i];
      if child.name == SpriteKey {
        o := o.(sprite := AsSprite(child));
      } else if child.name == DistanceKey {
        o := o.(distance := AsDouble(num, child, 0.0));
      } else if child.name == PeriodKey {
        o := o.(period := AsDouble(num, child, 0.0));
      } else if child.name == OffsetKey {
        o := o.(offset := AsDouble(num, child, 0.0));
      } else if child.name == ObjectKey {
        var nested := NewStellarObject(num, child);
        o := o.(children := o.children + [nested]);
      }
    }
  }

  /** The value a scalar field takes: the default when no child sets it,
      otherwise what the last child of that name gives. */
  function LastDouble(num: NumberSyntax, cs: seq<Node>, key: string): real {
    match LastNamed(cs, key)
    case None => 0.0
    case Some(c) => AsDouble(num, c, 0.0)
  }

  /** An orbital field by its child name. */
  function Orbital(o: StellarObject, key: string): real {
    if key == DistanceKey then o.distance
    else if key == PeriodKey then o.period
    else o.offset
  }

  /** The name comes from the first argument only, whatever the children. */
  lemma {:induction false} AbsorbedName(num: NumberSyntax, n: Node, i: nat)
    requires i <= |n.children|
    ensures Absorbed(num, n, i).name == if |n.args| > 0 then Some(n.args[0]) else None
  {
    if i > 0 {
      AbsorbedName(num, n, i - 1);
    }
  }

  /** `distance`, `period` and `offset` default to 0 and are set by the
      last child of their name. */
  lemma {:induction false} AbsorbedOrbital(num: NumberSyntax, n: Node, i: nat, key: string)
    requires i <= |n.children|
    requires key == DistanceKey || key == PeriodKey || key == OffsetKey
    ensures Orbital(Absorbed(num, n, i), key) == LastDouble(num, n.children[..i], key)
  {
    if i > 0 {
      AbsorbedOrbital(num, n, i - 1, key);
      assert n.children[..i][..i - 1] == n.children[..i - 1];
    }
  }

  /** The sprite is absent by default and set by the last `sprite` child. */
  lemma {:induction false} AbsorbedSprite(num: NumberSyntax, n: Node, i: nat)
    requires i <= |n.children|
    ensures Absorbed(num, n, i).sprite ==
      match LastNamed(n.children[..i], SpriteKey)
      case None => None
      case Some(c) => AsSprite(c)
  {
    if i > 0 {
      AbsorbedSprite(num, n, i - 1);
      assert n.children[..i][..i - 1] == n.children[..i - 1];
    }
  }

  /** Nested `object` children become the object's children, in source
      order, each built recursively. */
  lemma {:induction false} AbsorbedChildren(num: NumberSyntax, n: Node, i: nat)
    requires i <= |n.children|
    ensures var objs := NamedChildren(n.children[..i], ObjectKey);
      && |Absorbed(num, n, i).children| == |objs|
      && forall k :: 0 <= k < |objs| ==> Absorbed(num, n, i).children[k] == ObjectOf(num, objs[k])
  {
    if i > 0 {
      AbsorbedChildren(num, n, i - 1);
      assert n.children[..i][..i - 1] == n.children[..i - 1];
    }
  }

  /** `hasNamedChildren`: scans the children in order, each being named or
      having named children itself. */
  predicate HasNamedChildren(o: StellarObject)
    decreases o, 1, 0
  {
    NamedFrom(o, 0)
  }

  predicate NamedFrom(o: StellarObject, i: nat)
    requires i <= |o.children|
    decreases o, 0, |o.children| - i
  {
    i < |o.children| &&
    (o.children[i].IsNamed() || HasNamedChildren(o.children[i]) || NamedFrom(o, i + 1))
  }

  /** The strict descendants of an object, depth first. */
  function Descendants(o: StellarObject): seq<StellarObject>
    decreases o, 1, 0
  {
    DescendantsFrom(o, 0)
  }

  function DescendantsFrom(o: StellarObject, i: nat): seq<StellarObject>
    requires i <= |o.children|
    decreases o, 0, |o.children| - i
  {
    if i == |o.children| then []
    else [o.children[i]] + Descendants(o.children[i]) + DescendantsFrom(o, i + 1)
  }

  /** Some object of the list is named. */
  predicate AnyNamed(os: seq<StellarObject>) {
    exists k :: 0 <= k < |os| && os[k].IsNamed()
  }

  lemma AnyNamedConcat(a: seq<StellarObject>, b: seq<StellarObject>)
    ensures AnyNamed(a + b) <==> AnyNamed(a) || AnyNamed(b)
  {
    if AnyNamed(a + b) {
      var k :| 0 <= k < |a + b| && (a + b)[k].IsNamed();
      if k >= |a| {
        assert b[k - |a|].IsNamed();
      }
    }
    if AnyNamed(a) {
      var k :| 0 <= k < |a| && a[k].IsNamed();
      assert (a + b)[k].IsNamed();
    }
    if AnyNamed(b) {
      var k :| 0 <= k < |b| && b[k].IsNamed();
      assert (a + b)[|a| + k].IsNamed();
    }
  }

  /** `hasNamedChildren` holds exactly when some strict descendant, at any
      depth, is named. */
  lemma {:induction false} HasNamedChildrenIffNamedDescendant(o: StellarObject)
    ensures HasNamedChildren(o) <==> AnyNamed(Descendants(o))
    decreases o, 1, 0
  {
    NamedFromIff(o, 0);
  }

  lemma {:induction false} NamedFromIff(o: StellarObject, i: nat)
    requires i <= |o.children|
    ensures NamedFrom(o, i) <==> AnyNamed(DescendantsFrom(o, i))
    decreases o, 0, |o.children| - i
  {
    if i < |o.children| {
      var c := o.children[i];
      HasNamedChildrenIffNamedDescendant(c);
      NamedFromIff(o, i + 1);
      AnyNamedConcat([c] + Descendants(c), DescendantsFrom(o, i + 1));
      AnyNamedConcat([c], Descendants(c));
      assert AnyNamed([c]) <==> c.IsNamed() by {
        if c.IsNamed() {
          assert [c][0].IsNamed();
        }
      }
    }
  }
}
