/** The generic tree node of the data files (Node.java), and the heap of
    node objects the parser builds them in. */
module Nodes {
  import opened Common

  /** A node's modification flag. */
  datatype Flag = Normal | Add | Remove {
    /** The integer constants Node.NORMAL, Node.ADD and Node.REMOVE. */
    function Code(): (c: int)
      ensures this == Normal <==> c == 0
      ensures this == Add <==> c == 1
      ensures this == Remove <==> c == -1
    {
      match this
      case Normal => 0
      case Add => 1
      case Remove => -1
    }
  }

  /** A node as its getters expose it: name, flag, arguments in source
      order, children in source order, and where it came from. */
  datatype Node = Node(
    name: string,
    flag: Flag,
    args: seq<string>,
    children: seq<Node>,
    line: int,
    file: string,
    fromPlugin: bool)

  /** The last node of the list with the given name: the one a builder
      that assigns a field for every such child leaves in force. */
  function LastNamed(cs: seq<Node>, name: string): (r: Option<Node>)
    ensures r.Some? ==> r.value in cs && r.value.name == name
    ensures r.None? ==> forall k :: 0 <= k < |cs| ==> cs[k].name != name
  {
    if cs == [] then None
    else if cs[|cs| - 1].name == name then Some(cs[|cs| - 1])
    else LastNamed(cs[..|cs| - 1], name)
  }

  /** The nodes of the list with the given name, in order. */
  function NamedChildren(cs: seq<Node>, name: string): (r: seq<Node>)
    ensures forall k :: 0 <= k < |r| ==> r[k].name == name && r[k] in cs
    ensures |r| <= |cs|
  {
    if cs == [] then []
    else NamedChildren(cs[..|cs| - 1], name) + (if cs[|cs| - 1].name == name then [cs[|cs| - 1]] else [])
  }

  /** The node `LastNamed` finds is the last one with the name: no later
      node of the list has it. */
  lemma {:induction false} LastNamedIsLast(cs: seq<Node>, name: string)
    ensures LastNamed(cs, name).Some? ==>
      exists k :: 0 <= k < |cs| && cs[k] == LastNamed(cs, name).value &&
        forall j :: k < j < |cs| ==> cs[j].name != name
  {
    if cs != [] && cs[|cs| - 1].name != name {
      var init := cs[..|cs| - 1];
      LastNamedIsLast(init, name);
      if LastNamed(init, name).Some? {
        var k :| 0 <= k < |init| && init[k] == LastNamed(init, name).value &&
          forall j :: k < j < |init| ==> init[j].name != name;
        assert cs[k] == LastNamed(cs, name).value;
      }
    } else if cs != [] {
      assert cs[|cs| - 1] == LastNamed(cs, name).value;
    }
  }

  /** `NamedChildren` keeps exactly the nodes with the name: a node is in
      the result if and only if it is in the list and has the name. */
  lemma {:induction false} NamedChildrenExact(cs: seq<Node>, name: string)
    ensures forall x :: x in NamedChildren(cs, name) <==> x in cs && x.name == name
  {
    if cs != [] {
      var init := cs[..|cs| - 1];
      NamedChildrenExact(init, name);
      assert cs == init + [cs[|cs| - 1]];
    }
  }

  /** `NamedChildren` keeps the source order: filtering two lists one after
      the other is filtering their concatenation. */
  lemma {:induction false} NamedChildrenConcat(cs: seq<Node>, ds: seq<Node>, name: string)
    ensures NamedChildren(cs + ds, name) == NamedChildren(cs, name) + NamedChildren(ds, name)
    decreases |ds|
  {
    if ds == [] {
      assert cs + ds == cs;
    } else {
      var init := ds[..|ds| - 1];
      assert (cs + ds)[..|cs + ds| - 1] == cs + init;
      NamedChildrenConcat(cs, init, name);
    }
  }

  /** Extending a prefix of a child list by one child extends its filtered
      list by that child exactly when the child has the name. */
  lemma NamedChildrenPrefix(cs: seq<Node>, i: nat, name: string)
    requires 0 < i <= |cs|
    ensures NamedChildren(cs[..i], name) ==
      NamedChildren(cs[..i - 1], name) + (if cs[i - 1].name == name then [cs[i - 1]] else [])
  {
    assert cs[..i][..i - 1] == cs[..i - 1];
  }

  /** `ks`, the branch each child of `cs` takes in a builder's dispatch,
      sends exactly the children named `key` to the branch `k`. */
  ghost predicate Marks<K>(cs: seq<Node>, ks: seq<K>, k: K, key: string) {
    |ks| == |cs| && forall j :: 0 <= j < |cs| ==> (ks[j] == k <==> cs[j].name == key)
  }

  /** The three flag codes are distinct, so a flag is recovered from its code. */
  lemma FlagCodeInjective(a: Flag, b: Flag)
    ensures a.Code() == b.Code() ==> a == b
  {
    match a
    case Normal =>
    case Add =>
    case Remove =>
  }

  /** The Node objects created so far. A node object is a reference (an index
      into `records`); `records[r]` holds the fields fixed at construction and
      `kids[r]` the references in its mutable child list. */
  class NodeHeap {
    var records: seq<Node>
    var kids: seq<seq<nat>>
    /** The program-wide count of constructed nodes. */
    var totalNodeCount: nat

    ghost predicate Valid()
      reads this
    {
      && |kids| == |records|
      && (forall r :: 0 <= r < |records| ==> records[r].children == [])
      // a child is always constructed after its parent: the references form a forest
      && (forall r, k :: 0 <= r < |kids| && 0 <= k < |kids[r]| ==> r < kids[r][k] < |records|)
    }

    constructor (countSoFar: nat)
      ensures Valid()
      ensures records == [] && kids == [] && totalNodeCount == countSoFar
    {
      records, kids, totalNodeCount := [], [], countSoFar;
    }

    /** `new Node(...)`: a fresh node with an empty child list; the global
        node count goes up by exactly one. */
    method NewNode(name: string, flag: Flag, args: seq<string>, line: int, file: string, fromPlugin: bool)
      returns (r: nat)
      requires Valid()
      modifies this
      ensures Valid()
      ensures r == old(|records|)
      ensures records == old(records) + [Node(name, flag, args, [], line, file, fromPlugin)]
      ensures kids == old(kids) + [[]]
      ensures totalNodeCount == old(totalNodeCount) + 1
    {
      r := |records|;
      records := records + [Node(name, flag, args, [], line, file, fromPlugin)];
      kids := kids + [[]];
      totalNodeCount := totalNodeCount + 1;
    }

    /** `addChild`: appends at the end of the parent's child list; every other
        list, and every node's own fields, are unchanged. */
    method AddChild(parent: nat, child: nat)
      requires Valid() && parent < child < |records|
      modifies this
      ensures Valid()
      ensures kids == old(kids)[parent := old(kids[parent]) + [child]]
      ensures records == old(records) && totalNodeCount == old(totalNodeCount)
    {
      kids := kids[parent := kids[parent] + [child]];
    }

    /** The node value of reference `r`, with its whole subtree. */
    function Tree(r: nat): (n: Node)
      requires Valid() && r < |records|
      reads this
      decreases |records| - r, 1, 0
    {
      records[r].(children := Subtrees(r, kids[r]))
    }

    function Subtrees(parent: nat, refs: seq<nat>): (ns: seq<Node>)
      requires Valid()
      requires forall k :: 0 <= k < |refs| ==> parent < refs[k] < |records|
      reads this
      ensures |ns| == |refs|
      decreases |records| - parent, 0, |refs|
    {
      if refs == [] then [] else [Tree(refs[0])] + Subtrees(parent, refs[1..])
    }
  }
}
