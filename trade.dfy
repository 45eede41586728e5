/** Trade.java: the program-wide table of commodity price ranges, filled
    from `trade` nodes. The Java class keeps the table in a static field;
    here it is the one field of a `Trade` object that every call shares. */
module Trades {
  import opened Common
  import opened Nodes
  import opened Builder

  const CommodityKey := "commodity"

  /** The table after the children `cs` of `trade` nodes, in order: each
      `commodity` child goes through `mapDoubleArray`, the rest are
      ignored. */
  function Commodities(num: NumberSyntax, m: map<string, seq<real>>, cs: seq<Node>): map<string, seq<real>> {
    if cs == [] then m
    else
      var before := Commodities(num, m, cs[..|cs| - 1]);
      var c := cs[|cs| - 1];
      if c.name == CommodityKey then ArrayStored(num, c, before) else before
  }

  /** Only `commodity` children matter. */
  lemma {:induction false} OnlyCommodities(num: NumberSyntax, m: map<string, seq<real>>, cs: seq<Node>)
    ensures Commodities(num, m, cs) == Commodities(num, m, NamedChildren(cs, CommodityKey))
  {
    if cs != [] {
      var init, c := cs[..|cs| - 1], cs[|cs| - 1];
      OnlyCommodities(num, m, init);
      var named := NamedChildren(init, CommodityKey);
      if c.name == CommodityKey {
        assert (named + [c])[..|named|] == named;
      } else {
        assert named + [] == named;
      }
    }
  }

  /** The table accumulates: reading two `trade` nodes one after the
      other is reading their children in sequence. */
  lemma {:induction false} Accumulates(num: NumberSyntax, m: map<string, seq<real>>, a: seq<Node>, b: seq<Node>)
    ensures Commodities(num, Commodities(num, m, a), b) == Commodities(num, m, a + b)
  {
    if b == [] {
      assert a + b == a;
    } else {
      Accumulates(num, m, a, b[..|b| - 1]);
      assert (a + b)[..|a + b| - 1] == a + b[..|b| - 1];
    }
  }

  /** Every stored price array has at least one price. */
  ghost predicate NonEmpty(m: map<string, seq<real>>) {
    forall k :: k in m ==> |m[k]| >= 1
  }

  /** `mapDoubleArray` only stores what follows the key, and needs at
      least one such argument. */
  lemma {:induction false} CommoditiesNonEmpty(num: NumberSyntax, m: map<string, seq<real>>, cs: seq<Node>)
    requires NonEmpty(m)
    ensures NonEmpty(Commodities(num, m, cs))
  {
    if cs != [] {
      CommoditiesNonEmpty(num, m, cs[..|cs| - 1]);
    }
  }

  /** The shared commodity table. */
  class Trade {
    var commodities: map<string, seq<real>>

    ghost predicate Valid()
      reads this
    {
      NonEmpty(commodities)
    }

    constructor ()
      ensures Valid() && commodities == map[]
    {
      commodities := map[];
    }

    /** `addTradeInfo(node)`. */
    method AddTradeInfo(num: NumberSyntax, node: Node)
      requires Valid()
      modifies this
      ensures Valid()
      ensures commodities == Commodities(num, old(commodities), node.children)
    {
      ghost var m0 := commodities;
      for i := 0 to |node.children|
        invariant commodities == Commodities(num, m0, node.children[..i])
      {
        var child := node.children[i];
        assert node.children[..i + 1][..i] == node.children[..i];
        if child.name == CommodityKey {
          commodities := MapDoubleArray(num, child, commodities);
        }
      }
      assert node.children[..|node.children|] == node.children;
      CommoditiesNonEmpty(num, m0, node.children);
    }

    /** `getCommodityData`: the stored prices, or null. */
    function GetCommodityData(commodity: string): (r: Option<seq<real>>)
      reads this
      ensures r.Some? <==> commodity in commodities
      ensures r.Some? ==> r.value == commodities[commodity]
    {
      if commodity in commodities then Some(commodities[commodity]) else None
    }

    /** `getMinCommodityPrice`: the first price, or 0 for an unknown
        commodity. */
    function GetMinCommodityPrice(commodity: string): (r: real)
      requires Valid()
      reads this
      ensures commodity !in commodities ==> r == 0.0
      ensures commodity in commodities ==> r == commodities[commodity][0]
    {
      match GetCommodityData(commodity)
      case None => 0.0
      case Some(arr) => arr[0]
    }

    /** `getMaxCommodityPrice`: the second price, or 0 for an unknown
        commodity; None where the array holds a single price and Java
        throws ArrayIndexOutOfBoundsException. */
    function GetMaxCommodityPrice(commodity: string): (r: Option<real>)
      reads this
      ensures commodity !in commodities ==> r == Some(0.0)
      ensures commodity in commodities ==>
        (r.None? <==> |commodities[commodity]| < 2) &&
        (r.Some? ==> r.value == commodities[commodity][1])
    {
      match GetCommodityData(commodity)
      case None => Some(0.0)
      case Some(arr) => if |arr| < 2 then None else Some(arr[1])
    }
  }
}
