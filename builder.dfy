/** Builder.java: the field helpers every entity builder uses to read a
    child node, and the list, map and description edits that carry the
    ADD / REMOVE / NORMAL merge rules of event modifiers. */
module Builder {
  import opened Common
  import opened Nodes

  /** An opaque sprite reference, standing for `new Sprite(node)`: the image
      it names is resolved elsewhere. */
  datatype Sprite = Sprite(node: Node)

  /** `checkRemoval`: no node for a REMOVE node, the node itself otherwise. */
  function CheckRemoval(node: Node): Option<Node>
  {
    if node.flag == Remove then None else Some(node)
  }

  lemma CheckRemovalCases(node: Node)
    ensures CheckRemoval(node).None? <==> node.flag == Remove
    ensures CheckRemoval(node).Some? ==> CheckRemoval(node).value == node
  {
  }

  /** `asString`: the first argument, or null for a REMOVE node or a node
      without arguments. Extra arguments only draw a warning. */
  function AsString(node: Node): Option<string>
  {
    if node.flag == Remove || |node.args| < 1 then None else Some(node.args[0])
  }

  lemma AsStringCases(node: Node)
    ensures AsString(node).None? <==> node.flag == Remove || node.args == []
    ensures AsString(node).Some? ==> AsString(node).value == node.args[0]
  {
  }

  /** `asInt`, with the given default (the two-argument form uses 0). */
  function AsInt(num: NumberSyntax, node: Node, def: Int32): Int32
  {
    if node.flag == Remove || |node.args| < 1 then def
    else match num.parseInt(node.args[0])
      case Some(v) => v
      case None => def
  }

  lemma AsIntCases(num: NumberSyntax, node: Node, def: Int32)
    // the default on REMOVE, on a missing argument and on a parse failure
    ensures node.flag == Remove || node.args == [] ==> AsInt(num, node, def) == def
    ensures node.flag != Remove && node.args != [] && num.parseInt(node.args[0]).None? ==>
      AsInt(num, node, def) == def
    // the parsed first argument otherwise
    ensures node.flag != Remove && node.args != [] && num.parseInt(node.args[0]).Some? ==>
      AsInt(num, node, def) == num.parseInt(node.args[0]).value
  {
  }

  /** `asDouble`, with the given default (the two-argument form uses 0). */
  function AsDouble(num: NumberSyntax, node: Node, def: real): real
  {
    if node.flag == Remove || |node.args| < 1 then def
    else match num.parseDouble(node.args[0])
      case Some(v) => v
      case None => def
  }

  lemma AsDoubleCases(num: NumberSyntax, node: Node, def: real)
    ensures node.flag == Remove || node.args == [] ==> AsDouble(num, node, def) == def
    ensures node.flag != Remove && node.args != [] && num.parseDouble(node.args[0]).None? ==>
      AsDouble(num, node, def) == def
    ensures node.flag != Remove && node.args != [] && num.parseDouble(node.args[0]).Some? ==>
      AsDouble(num, node, def) == num.parseDouble(node.args[0]).value
  {
  }

  /** `asCoordinate`: the point given by the first two arguments, or null
      on REMOVE, with fewer than two arguments, or when either fails to
      parse. */
  function AsCoordinate(num: NumberSyntax, node: Node): Option<Coord>
  {
    if node.flag == Remove || |node.args| < 2 then None
    else match (num.parseDouble(node.args[0]), num.parseDouble(node.args[1]))
      case (Some(x), Some(y)) => Some(Coord(x, y))
      case _ => None
  }

  lemma AsCoordinateCases(num: NumberSyntax, node: Node)
    ensures AsCoordinate(num, node).None? <==>
      node.flag == Remove || |node.args| < 2
      || num.parseDouble(node.args[0]).None? || num.parseDouble(node.args[1]).None?
    ensures AsCoordinate(num, node).Some? ==>
      AsCoordinate(num, node).value ==
        Coord(num.parseDouble(node.args[0]).value, num.parseDouble(node.args[1]).value)
  {
  }

  /** `asSprite`: a sprite for the node, or null on REMOVE or without a
      file name. */
  function AsSprite(node: Node): Option<Sprite>
  {
    if node.flag == Remove || |node.args| < 1 then None else Some(Sprite(node))
  }

  lemma AsSpriteCases(node: Node)
    ensures AsSprite(node).None? <==> node.flag == Remove || node.args == []
    ensures AsSprite(node).Some? ==> AsSprite(node).value.node == node
  {
  }

  /** `mapDouble` on the map `dest`, giving the map afterwards. */
  function MapDouble(num: NumberSyntax, node: Node, dest: map<string, real>): map<string, real>
  {
    if |node.args| < 2 then dest
    else if node.flag == Remove then dest - {node.args[0]}
    else match num.parseDouble(node.args[1])
      case Some(v) => dest[node.args[0] := v]
      case None => dest
  }

  /** Only the key named by the first argument is touched: removed on
      REMOVE, set to the parsed second argument otherwise, and nothing
      happens with fewer than two arguments or an unparsable value. */
  lemma MapDoubleCases(num: NumberSyntax, node: Node, dest: map<string, real>)
    // fewer than two arguments leaves the map alone, even for REMOVE
    ensures |node.args| < 2 ==> MapDouble(num, node, dest) == dest
    ensures |node.args| >= 2 ==> MapDouble(num, node, dest) - {node.args[0]} == dest - {node.args[0]}
    ensures |node.args| >= 2 && node.flag == Remove ==> node.args[0] !in MapDouble(num, node, dest)
    ensures |node.args| >= 2 && node.flag != Remove ==>
      match num.parseDouble(node.args[1])
      case Some(v) => node.args[0] in MapDouble(num, node, dest) && MapDouble(num, node, dest)[node.args[0]] == v
      case None => MapDouble(num, node, dest) == dest
  {
  }

  /** Every string parsed as a double, or None when one of them fails. */
  function ParseAll(num: NumberSyntax, ss: seq<string>): (r: Option<seq<real>>)
    ensures r.Some? ==> |r.value| == |ss|
  {
    if ss == [] then Some([])
    else match (num.parseDouble(ss[0]), ParseAll(num, ss[1..]))
      case (Some(v), Some(vs)) => Some([v] + vs)
      case _ => None
  }

  /** ParseAll succeeds exactly when every string parses, and then yields
      the parsed values position by position. */
  lemma {:induction false} ParseAllAt(num: NumberSyntax, ss: seq<string>)
    ensures ParseAll(num, ss).Some? <==> forall i :: 0 <= i < |ss| ==> num.parseDouble(ss[i]).Some?
    ensures ParseAll(num, ss).Some? ==>
      forall i :: 0 <= i < |ss| ==> ParseAll(num, ss).value[i] == num.parseDouble(ss[i]).value
  {
    if ss != [] {
      ParseAllAt(num, ss[1..]);
      if num.parseDouble(ss[0]).Some? && ParseAll(num, ss[1..]).Some? {
        forall i | 0 <= i < |ss|
          ensures ParseAll(num, ss).value[i] == num.parseDouble(ss[i]).value
        {
          if i > 0 {
            assert ss[i] == ss[1..][i - 1];
          }
        }
      } else if num.parseDouble(ss[0]).Some? {
        var i :| 0 <= i < |ss[1..]| && num.parseDouble(ss[1..][i]).None?;
        assert num.parseDouble(ss[i + 1]).None?;
      }
    }
  }

  /** The map `mapDoubleArray` leaves behind. */
  function ArrayStored(num: NumberSyntax, node: Node, dest: map<string, seq<real>>): map<string, seq<real>>
  {
    if |node.args| < 2 then dest
    else if node.flag == Remove then dest - {node.args[0]}
    else match ParseAll(num, node.args[1..])
      case Some(ds) => dest[node.args[0] := ds]
      case None => dest
  }

  /** `mapDoubleArray` on the map `dest`, giving the map afterwards: every
      argument after the key is parsed into a fresh array, and the array is
      stored only if all of them parse. */
  method MapDoubleArray(num: NumberSyntax, node: Node, dest: map<string, seq<real>>)
    returns (d: map<string, seq<real>>)
    ensures d == ArrayStored(num, node, dest)
    ensures |node.args| < 2 ==> d == dest
    ensures |node.args| >= 2 && node.flag == Remove ==> d == dest - {node.args[0]}
    ensures |node.args| >= 2 && node.flag != Remove ==>
      d == match ParseAll(num, node.args[1..])
           case Some(ds) => dest[node.args[0] := ds]
           case None => dest
  {
    var args := node.args;
    if |args| < 2 {
      return dest;
    }
    if node.flag == Remove {
      return dest - {args[0]};
    }
    var doubles := new real[|args| - 1];
    var i := 0;
    while i < doubles.Length
      invariant 0 <= i <= doubles.Length
      invariant ParseAll(num, args[1..][..i]) == Some(doubles[..i])
    {
      var v := num.parseDouble(args[i + 1]);
      if v.None? {
        // NumberFormatException: the map is left alone
        assert args[1..][..i + 1][i] == args[i + 1];
        ParseAllAt(num, args[1..][..i + 1]);
        PrefixFails(num, args[1..], i + 1);
        return dest;
      }
      doubles[i] := v.value;
      ParseAllSnoc(num, args[1..][..i], args[i + 1]);
      assert args[1..][..i + 1] == args[1..][..i] + [args[i + 1]];
      assert doubles[..i + 1] == doubles[..i] + [v.value];
      i := i + 1;
    }
    assert args[1..][..i] == args[1..];
    assert doubles[..] == doubles[..i];
    d := dest[args[0] := doubles[..]];
  }

  lemma {:induction false} ParseAllSnoc(num: NumberSyntax, ss: seq<string>, s: string)
    requires ParseAll(num, ss).Some? && num.parseDouble(s).Some?
    ensures ParseAll(num, ss + [s]) == Some(ParseAll(num, ss).value + [num.parseDouble(s).value])
  {
    if ss == [] {
      assert ss + [s] == [s] && [s][1..] == [];
      var v := num.parseDouble(s).value;
      assert ParseAll(num, [s][1..]) == Some([]);
      assert ParseAll(num, [s]) == Some([v] + []);
      assert [v] + [] == [] + [v];
    } else {
      assert (ss + [s])[1..] == ss[1..] + [s];
      ParseAllSnoc(num, ss[1..], s);
      assert ([num.parseDouble(ss[0]).value] + ParseAll(num, ss[1..]).value) + [num.parseDouble(s).value]
        == [num.parseDouble(ss[0]).value] + (ParseAll(num, ss[1..]).value + [num.parseDouble(s).value]);
    }
  }

  /** A failing prefix makes the whole parse fail. */
  lemma PrefixFails(num: NumberSyntax, ss: seq<string>, n: nat)
    requires n <= |ss| && ParseAll(num, ss[..n]).None?
    ensures ParseAll(num, ss).None?
  {
    ParseAllAt(num, ss[..n]);
    ParseAllAt(num, ss);
    var i :| 0 <= i < n && num.parseDouble(ss[..n][i]).None?;
    assert ss[..n][i] == ss[i];
  }

  /** `List.remove(Object)`: drops the first element equal to `x`, if any. */
  function RemoveFirst(s: seq<string>, x: string): seq<string>
  {
    if s == [] then []
    else if s[0] == x then s[1..]
    else [s[0]] + RemoveFirst(s[1..], x)
  }

  /** The index of the first occurrence of `x`, or |s| when there is none. */
  function FirstIndex(s: seq<string>, x: string): (i: nat)
    ensures i <= |s|
    ensures i < |s| ==> s[i] == x
    ensures x !in s[..i]
  {
    if s == [] then 0
    else if s[0] == x then 0
    else
      var j := FirstIndex(s[1..], x);
      assert s[..j + 1] == [s[0]] + s[1..][..j];
      j + 1
  }

  /** RemoveFirst cuts out exactly the first occurrence and keeps the order
      of everything else. */
  lemma {:induction false} RemoveFirstCuts(s: seq<string>, x: string)
    ensures var i := FirstIndex(s, x);
      RemoveFirst(s, x) == if i < |s| then s[..i] + s[i + 1..] else s
  {
    if s != [] && s[0] != x {
      var t := s[1..];
      RemoveFirstCuts(t, x);
      var j := FirstIndex(t, x);
      assert FirstIndex(s, x) == j + 1;
      if j < |t| {
        assert RemoveFirst(s, x) == s[..j + 1] + s[j + 2..] by {
          assert [s[0]] + t[..j] == s[..j + 1];
          assert t[j + 1..] == s[j + 2..];
          assert [s[0]] + (t[..j] + t[j + 1..]) == ([s[0]] + t[..j]) + t[j + 1..];
        }
      } else {
        assert RemoveFirst(s, x) == s by {
          assert [s[0]] + t == s;
        }
      }
    }
  }

  /** RemoveFirst takes away one copy of `x`, and nothing when there is none. */
  lemma {:induction false} RemoveFirstMultiset(s: seq<string>, x: string)
    ensures multiset(RemoveFirst(s, x)) == multiset(s) - multiset{x}
  {
    if s != [] {
      assert s == [s[0]] + s[1..];
      if s[0] != x {
        RemoveFirstMultiset(s[1..], x);
        assert multiset(s) == multiset{s[0]} + multiset(s[1..]);
      }
    }
  }

  /** The arguments of a REMOVE list modifier removed one after the other,
      each at its first occurrence. */
  function RemoveEach(s: seq<string>, xs: seq<string>): seq<string>
  {
    if xs == [] then s else RemoveFirst(RemoveEach(s, xs[..|xs| - 1]), xs[|xs| - 1])
  }

  /** Removing the arguments in turn takes away one copy of each. */
  lemma {:induction false} RemoveEachMultiset(s: seq<string>, xs: seq<string>)
    ensures multiset(RemoveEach(s, xs)) == multiset(s) - multiset(xs)
  {
    if xs != [] {
      var init, last := xs[..|xs| - 1], xs[|xs| - 1];
      RemoveEachMultiset(s, init);
      RemoveFirstMultiset(RemoveEach(s, init), last);
      assert xs == init + [last];
      MinusStep(multiset(s), multiset(init), last);
    }
  }

  lemma MinusStep(a: multiset<string>, b: multiset<string>, x: string)
    ensures a - (b + multiset{x}) == (a - b) - multiset{x}
  {
  }

  /** The list `modifyList` returns. */
  function ModifiedList(original: seq<string>, node: Node): seq<string>
  {
    match node.flag
    case Add => original + node.args
    case Remove => if node.args == [] then [] else RemoveEach(original, node.args)
    case Normal => node.args
  }

  /** `modifyList`: the list a list modifier leaves in place of `original`. */
  method ModifyList(original: seq<string>, node: Node) returns (r: seq<string>)
    ensures r == ModifiedList(original, node)
    ensures node.flag == Add ==> r == original + node.args
    ensures node.flag == Remove && node.args == [] ==> r == []
    ensures node.flag == Remove && node.args != [] ==> r == RemoveEach(original, node.args)
    // NORMAL replaces the whole list by the node's arguments
    ensures node.flag == Normal ==> r == node.args
  {
    var args := node.args;
    var newList := original;
    if node.flag == Add {
      for i := 0 to |args|
        invariant newList == original + args[..i]
      {
        assert args[..i + 1] == args[..i] + [args[i]];
        newList := newList + [args[i]];
      }
      assert args[..|args|] == args;
      return newList;
    } else if node.flag == Remove {
      if |args| == 0 {
        return [];
      }
      for i := 0 to |args|
        invariant newList == RemoveEach(original, args[..i])
      {
        assert args[..i + 1][..i] == args[..i];
        newList := RemoveFirst(newList, args[i]);
      }
      assert args[..|args|] == args;
      return newList;
    }
    return args;
  }

  /** `modifyDescription`: a description modifier appends a paragraph when
      it is flagged ADD or an earlier child already modified the text;
      otherwise REMOVE resets the text and NORMAL starts it afresh. A
      missing argument appends Java's "null". */
  function ModifyDescription(original: string, priorChanges: bool, node: Node): (d: string)
    ensures node.flag == Add || priorChanges ==>
      original <= d && d[|original|..] == JavaText(AsString(node)) + "\n"
    ensures !(node.flag == Add || priorChanges) && node.flag == Remove ==> d == "\t"
    ensures !(node.flag == Add || priorChanges) && node.flag == Normal ==>
      d == "\t" + JavaText(AsString(node)) + "\n"
  {
    if node.flag == Add || priorChanges then original + JavaText(AsString(node)) + "\n"
    else if node.flag == Remove then "\t"
    else "\t" + JavaText(AsString(node)) + "\n"
  }

  /** `put(args.get(0), args.get(1))` guarded by the IndexOutOfBounds
      handler, as the wormhole and event builders write it: a node with
      fewer than two arguments leaves the map alone. */
  function Put(m: map<string, string>, c: Node): map<string, string> {
    if |c.args| < 2 then m else m[c.args[0] := c.args[1]]
  }

  /** The map after putting every node of `cs`, in order. */
  function Pairs(m: map<string, string>, cs: seq<Node>): map<string, string> {
    if cs == [] then m else Put(Pairs(m, cs[..|cs| - 1]), cs[|cs| - 1])
  }

  /** The value the last node of `cs` with key `k` and a value gives. */
  function LastPair(cs: seq<Node>, k: string): Option<string> {
    if cs == [] then None
    else if |cs[|cs| - 1].args| >= 2 && cs[|cs| - 1].args[0] == k then Some(cs[|cs| - 1].args[1])
    else LastPair(cs[..|cs| - 1], k)
  }

  /** A later entry with the same key overwrites an earlier one: a key is
      present exactly when it was before or some node gives it a value,
      and then its value is the last one given. */
  lemma {:induction false} PairsLastWins(m: map<string, string>, cs: seq<Node>, k: string)
    ensures k in Pairs(m, cs) <==> k in m || LastPair(cs, k).Some?
    ensures LastPair(cs, k).Some? ==> Pairs(m, cs)[k] == LastPair(cs, k).value
    ensures LastPair(cs, k).None? && k in m ==> Pairs(m, cs)[k] == m[k]
  {
    if cs != [] {
      PairsLastWins(m, cs[..|cs| - 1], k);
    }
  }
}
