/** Parser.java: turning the lines of one data file into node objects and a
    forest of parent/child references, by the tab-depth stack machine of
    `parse`. */
module Parsing {
  import opened Common
  import opened Nodes
  import opened Lexer

  /** The stack after popping until it holds at most `tabs` nodes. The top
      of the stack is the last element. */
  function Popped(stack: seq<nat>, tabs: nat): (s: seq<nat>)
    ensures |s| <= tabs || s == stack
    ensures s <= stack
  {
    if |stack| > tabs then stack[..tabs] else stack
  }

  /** The stack adjustment at the start of each line of `parse`: the node
      of the previous line is pushed when this line has more tabs than that
      one, otherwise nodes are popped until at most `tabs` remain. */
  method AdjustStack(stack: seq<nat>, current: Option<nat>, tabs: nat, lastTabs: nat)
    returns (s: seq<nat>)
    ensures s == if tabs > lastTabs && current.Some? then stack + [current.value] else Popped(stack, tabs)
  {
    s := stack;
    if tabs > lastTabs && current.Some? {
      s := s + [current.value];
    } else {
      while |s| > tabs
        invariant s <= stack
        invariant |s| >= tabs || s == stack
        decreases |s|
      {
        s := s[..|s| - 1];
      }
    }
  }

  /** The shape of each line. */
  function Shapes(lines: seq<string>): (shs: seq<Shape>)
    ensures |shs| == |lines|
  {
    if lines == [] then [] else [LineShape(lines[0])] + Shapes(lines[1..])
  }

  lemma {:induction false} ShapesSnoc(lines: seq<string>, line: string)
    ensures Shapes(lines + [line]) == Shapes(lines) + [LineShape(line)]
  {
    if lines != [] {
      assert (lines + [line])[1..] == lines[1..] + [line];
      ShapesSnoc(lines[1..], line);
    }
  }

  lemma ShapesPrefix(lines: seq<string>, i: nat)
    requires i < |lines|
    ensures Shapes(lines[..i + 1]) == Shapes(lines[..i]) + [LineShape(lines[i])]
  {
    assert lines[..i + 1] == lines[..i] + [lines[i]];
    ShapesSnoc(lines[..i], lines[i]);
  }

  /** The part of `parse`'s state that decides the forest: the node stack,
      the previous line's tab count, the previous line's node, the top-level
      nodes handed over so far, and every node's child references. */
  datatype ParseState = ParseState(stack: seq<nat>, lastTabs: nat, current: Option<nat>,
                                   added: seq<nat>, kids: seq<seq<nat>>)

  /** The stack and the current node refer to existing nodes, and the stack
      never holds more nodes than the previous line had tabs. */
  predicate Sane(s: ParseState) {
    && (forall k :: 0 <= k < |s.stack| ==> s.stack[k] < |s.kids|)
    && (s.current.Some? ==> s.current.value < |s.kids|)
    && |s.stack| <= s.lastTabs
  }

  /** The stack a line with `tabs` leading tabs is attached under. */
  function StackFor(s: ParseState, tabs: nat): seq<nat> {
    if tabs > s.lastTabs && s.current.Some? then s.stack + [s.current.value] else Popped(s.stack, tabs)
  }

  /** One turn of `parse`'s loop on the state: the stack is adjusted, the
      line's node (if any) becomes reference `|kids|` with no children and is
      handed over when the stack is empty or appended to the children of the
      stack top otherwise, and `lastTabs` becomes the line's tab count. None
      where Java throws. */
  function Step(s: ParseState, line: string): (r: Option<ParseState>)
    requires Sane(s)
    ensures r.None? <==> LineShape(line).MissingName?
    ensures r.Some? ==> Sane(r.value) && r.value.lastTabs == Tabs(line)
  {
    var tabs := Tabs(line);
    var st := StackFor(s, tabs);
    match LineShape(line)
    case MissingName => None
    case NoNode => Some(ParseState(st, tabs, None, s.added, s.kids))
    case Made(_, _, _) =>
      var r := |s.kids|;
      var kids := s.kids + [[]];
      if st == [] then Some(ParseState(st, tabs, Some(r), s.added + [r], kids))
      else Some(ParseState(st, tabs, Some(r), s.added, kids[st[|st| - 1] := kids[st[|st| - 1]] + [r]]))
  }

  /** The state after `parse` has read the given lines from `s`; none when
      one of them makes Java throw. */
  function Run(s: ParseState, lines: seq<string>): (r: Option<ParseState>)
    requires Sane(s)
    ensures r.Some? ==> Sane(r.value)
    decreases |lines|
  {
    if lines == [] then Some(s)
    else match Run(s, lines[..|lines| - 1])
      case None => None
      case Some(t) => Step(t, lines[|lines| - 1])
  }

  /** Reading one more line continues from the state after the earlier ones. */
  lemma RunPrefix(s: ParseState, lines: seq<string>, i: nat, t: ParseState)
    requires Sane(s) && i < |lines| && Run(s, lines[..i]) == Some(t)
    ensures Run(s, lines[..i + 1]) == Step(t, lines[i])
  {
    assert lines[..i + 1][..i] == lines[..i];
  }

  /** No line is a lone `add` or `remove`. */
  predicate NoneThrows(lines: seq<string>) {
    forall i :: 0 <= i < |lines| ==> !LineShape(lines[i]).MissingName?
  }

  lemma NoneThrowsSnoc(lines: seq<string>)
    requires lines != []
    ensures NoneThrows(lines) <==>
      NoneThrows(lines[..|lines| - 1]) && !LineShape(lines[|lines| - 1]).MissingName?
  {
    assert forall i :: 0 <= i < |lines| - 1 ==> lines[..|lines| - 1][i] == lines[i];
  }

  /** `parse` gets through the lines exactly when none of them is a lone
      `add` or `remove`. */
  lemma {:induction false} RunCompletes(s: ParseState, lines: seq<string>)
    requires Sane(s)
    ensures Run(s, lines).Some? <==> NoneThrows(lines)
    decreases |lines|
  {
    if lines != [] {
      RunCompletes(s, lines[..|lines| - 1]);
      NoneThrowsSnoc(lines);
    }
  }

  /** A line without leading tabs is always handed over as a top-level
      node: its node is a root of the forest. */
  lemma UnindentedIsTopLevel(s: ParseState, line: string)
    requires Sane(s) && Tabs(line) == 0 && LineShape(line).Made?
    ensures Step(s, line).Some?
    ensures Step(s, line).value.added == s.added + [|s.kids|]
    ensures Step(s, line).value.kids == s.kids + [[]]
  {
    assert StackFor(s, 0) == [];
  }

  /** A line indented deeper than the line before it, when that line made
      a node, becomes that node's last child. */
  lemma DeeperIsLastChild(s: ParseState, line: string)
    requires Sane(s) && Tabs(line) > s.lastTabs && s.current.Some? && LineShape(line).Made?
    ensures var r := Step(s, line);
      && r.Some?
      && r.value.added == s.added
      && r.value.kids == (s.kids + [[]])[s.current.value := s.kids[s.current.value] + [|s.kids|]]
  {
  }

  /** When no line of a file is indented, every node the file makes is a
      top-level node without children: the forest is flat. */
  lemma {:induction false} FlatFileIsFlat(s: ParseState, lines: seq<string>)
    requires Sane(s)
    requires forall i :: 0 <= i < |lines| ==> Tabs(lines[i]) == 0
    ensures var r := Run(s, lines);
      r.Some? ==>
        && |r.value.kids| >= |s.kids|
        && r.value.kids[..|s.kids|] == s.kids
        && (forall p :: |s.kids| <= p < |r.value.kids| ==> r.value.kids[p] == [])
        && r.value.added == s.added + Range(|s.kids|, |r.value.kids|)
    decreases |lines|
  {
    if lines != [] {
      var init := lines[..|lines| - 1];
      var line := lines[|lines| - 1];
      FlatFileIsFlat(s, init);
      var t := Run(s, init);
      if t.Some? && !LineShape(line).MissingName? {
        assert StackFor(t.value, 0) == [];
        if LineShape(line).Made? {
          RangeSnoc(|s.kids|, |t.value.kids|);
          assert (t.value.kids + [[]])[..|s.kids|] == t.value.kids[..|s.kids|];
        }
      }
    }
  }

  /** The references `lo`, `lo + 1`, ..., `hi - 1`. */
  function Range(lo: nat, hi: nat): (r: seq<nat>)
    ensures |r| == if lo <= hi then hi - lo else 0
    ensures forall k :: 0 <= k < |r| ==> r[k] == lo + k
    decreases hi - lo
  {
    if lo < hi then Range(lo, hi - 1) + [hi - 1] else []
  }

  lemma RangeSnoc(lo: nat, hi: nat)
    requires lo <= hi
    ensures Range(lo, hi + 1) == Range(lo, hi) + [hi]
  {
  }

  class Parser {
    const file: string
    const isConfig: bool
    const isPlugin: bool
    /** The node objects of the whole program. */
    const heap: NodeHeap

    var currentNode: Option<nat>
    var lineNumber: int
    /** The top-level nodes handed to `Main.addNode` (or, for a config file,
        `Main.addConfigNode`), in order. */
    var added: seq<nat>

    constructor (file: string, isConfig: bool, isPlugin: bool, heap: NodeHeap)
      ensures this.file == file && this.isConfig == isConfig && this.isPlugin == isPlugin
      ensures this.heap == heap
      ensures currentNode == None && lineNumber == 0 && added == []
    {
      this.file := file;
      this.isConfig := isConfig;
      this.isPlugin := isPlugin;
      this.heap := heap;
      currentNode := None;
      lineNumber := 0;
      added := [];
    }

    /** The parser's state between two lines: the stack and the current
        node refer to existing node objects. */
    ghost predicate StackOk(stack: seq<nat>)
      reads this, heap
    {
      && heap.Valid()
      && (forall k :: 0 <= k < |stack| ==> stack[k] < |heap.records|)
      && (currentNode.Some? ==> currentNode.value < |heap.records|)
    }

    /** `makeNewNode`: tokenizes the trimmed line and builds the node its
        tokens describe, with the current line number and provenance. `ok`
        is false where Java throws IndexOutOfBoundsException (a lone `add`
        or `remove`). */
    method MakeNewNode(line: string) returns (ok: bool, node: Option<nat>)
      requires heap.Valid()
      modifies heap
      ensures heap.Valid()
      ensures ok <==> !LineShape(line).MissingName?
      ensures LineShape(line).Made? ==>
        var sh := LineShape(line);
        && node == Some(old(|heap.records|))
        && heap.records == old(heap.records) + [Node(sh.name, sh.flag, sh.args, [], lineNumber, file, isPlugin)]
        && heap.kids == old(heap.kids) + [[]]
        && heap.totalNodeCount == old(heap.totalNodeCount) + 1
      ensures !LineShape(line).Made? ==>
        node == None && heap.records == old(heap.records) && heap.kids == old(heap.kids)
        && heap.totalNodeCount == old(heap.totalNodeCount)
    {
      var data := Tokenize(Trim(line));
      if |data| == 0 {
        return true, None;
      }
      // the first token is the name, the rest are arguments
      var nodeName := data[0];
      data := data[1..];
      var flag := Normal;
      if nodeName == "add" || nodeName == "remove" {
        flag := if nodeName == "add" then Add else Remove;
        if |data| == 0 {
          return false, None;
        }
        nodeName := data[0];
        data := data[1..];
      }
      var r := heap.NewNode(nodeName, flag, data, lineNumber, file, isPlugin);
      return true, Some(r);
    }

    /** One turn of the loop of `parse`: count the tabs, push the previous
        line's node or pop to the tab count, make the node, and attach it. */
    method ParseLine(line: string, stack: seq<nat>, lastTabs: nat, ghost lo: nat)
      returns (ok: bool, stack': seq<nat>, tabs: nat, ghost sh: Shape)
      requires StackOk(stack)
      // `lo` bounds from below the nodes this parse has made
      requires lo <= |heap.records|
      requires forall k :: 0 <= k < |stack| ==> lo <= stack[k]
      requires currentNode.Some? ==> lo <= currentNode.value
      requires |stack| <= lastTabs
      modifies this, heap
      ensures sh == LineShape(line)
      ensures tabs == Tabs(line)
      // the line's turn on the forest is `Step`: a new node is handed over
      // when the adjusted stack is empty and otherwise becomes the last child
      // of its top; `lastTabs` becomes this line's tab count
      ensures Step(ParseState(stack, lastTabs, old(currentNode), old(added), old(heap.kids)), line) ==
        if ok then Some(ParseState(stack', tabs, currentNode, added, heap.kids)) else None
      ensures lineNumber == old(lineNumber) + 1
      ensures ok <==> !sh.MissingName?
      // the previous node is pushed exactly when the line is indented deeper
      ensures stack' == if tabs > lastTabs && old(currentNode).Some?
                        then stack + [old(currentNode).value]
                        else Popped(stack, tabs)
      ensures heap.Valid()
      ensures ok ==> StackOk(stack')
      ensures ok ==> heap.records == old(heap.records) + Records([sh], lineNumber)
      ensures ok ==> currentNode == if sh.Made? then Some(old(|heap.records|)) else None
      ensures heap.totalNodeCount - old(heap.totalNodeCount) == |heap.records| - old(|heap.records|)
      ensures old(heap.records) <= heap.records && |added| >= old(|added|)
      ensures ok ==> (forall k :: 0 <= k < |stack'| ==> lo <= stack'[k])
      ensures ok ==> (currentNode.Some? ==> lo <= currentNode.value)
      // only the child list of a node of this parse changes
      ensures |heap.kids| >= old(|heap.kids|)
      ensures forall p :: 0 <= p < lo ==> heap.kids[p] == old(heap.kids[p])
    {
      ghost var s0 := ParseState(stack, lastTabs, currentNode, added, heap.kids);
      sh := LineShape(line);
      lineNumber := lineNumber + 1;
      tabs := CountLeadingTabs(line);
      stack' := AdjustStack(stack, currentNode, tabs, lastTabs);
      assert stack' == StackFor(s0, tabs);
      StackFloor(stack, stack', currentNode, tabs, lastTabs, lo);
      var node;
      ok, node := MakeNewNode(line);
      currentNode := node;
      if ok && node.Some? {
        Attach(node.value, stack');
      }
      assert sh.Made? ==> node == Some(|s0.kids|);
    }

    /** The end of each turn of `parse`: a new node is handed over as a
        top-level node when the stack is empty, and otherwise becomes the
        last child of the stack top. */
    method Attach(r: nat, stack: seq<nat>)
      requires heap.Valid() && r + 1 == |heap.records|
      requires forall k :: 0 <= k < |stack| ==> stack[k] < r
      modifies this, heap
      ensures heap.Valid()
      ensures heap.records == old(heap.records) && heap.totalNodeCount == old(heap.totalNodeCount)
      ensures lineNumber == old(lineNumber) && currentNode == old(currentNode)
      ensures if stack == []
              then added == old(added) + [r] && heap.kids == old(heap.kids)
              else added == old(added) &&
                   heap.kids == old(heap.kids)[stack[|stack| - 1] := old(heap.kids)[stack[|stack| - 1]] + [r]]
    {
      if stack == [] {
        added := added + [r];
      } else {
        heap.AddChild(stack[|stack| - 1], r);
      }
    }

    /** The node records made from lines of the given shapes, the first
        of them being line number `first`. */
    function Records(shapes: seq<Shape>, first: int): (ns: seq<Node>)
      ensures |ns| <= |shapes|
      decreases |shapes|
    {
      if shapes == [] then []
      else
        var rest := Records(shapes[1..], first + 1);
        match shapes[0]
        case Made(name, flag, args) => [Node(name, flag, args, [], first, file, isPlugin)] + rest
        case _ => rest
    }

    lemma {:induction false} RecordsSnoc(shapes: seq<Shape>, sh: Shape, first: int)
      ensures Records(shapes + [sh], first) == Records(shapes, first) + Records([sh], first + |shapes|)
      decreases |shapes|
    {
      if shapes != [] {
        assert (shapes + [sh])[1..] == shapes[1..] + [sh];
        RecordsSnoc(shapes[1..], sh, first + 1);
      }
    }

    /** One more line read by `parse` extends the records by that line's. */
    lemma RecordsStep(start: seq<Node>, shapes: seq<Shape>, sh: Shape, first: int, prev: seq<Node>, now: seq<Node>)
      requires prev == start + Records(shapes, first)
      requires now == prev + Records([sh], first + |shapes|)
      ensures now == start + Records(shapes + [sh], first)
    {
      RecordsSnoc(shapes, sh, first);
    }

    /** The stack entries after one line are the earlier entries or the
        previous line's node. */
    lemma StackFloor(stack0: seq<nat>, stack: seq<nat>, cur: Option<nat>, tabs: nat, lastTabs: nat, lo: nat)
      requires stack == if tabs > lastTabs && cur.Some? then stack0 + [cur.value] else Popped(stack0, tabs)
      requires forall k :: 0 <= k < |stack0| ==> lo <= stack0[k]
      requires cur.Some? ==> lo <= cur.value
      ensures forall k :: 0 <= k < |stack| ==> lo <= stack[k]
    {
      forall k | 0 <= k < |stack|
        ensures lo <= stack[k]
      {
        if k < |stack0| {
          assert stack[k] == stack0[k];
        }
      }
    }

    /** One turn of `parse`'s loop, with the records of the lines before it
        already made. */
    method ParseStep(line: string, stack: seq<nat>, lastTabs: nat,
                     ghost start: seq<Node>, ghost shapes: seq<Shape>, ghost first: int)
      returns (ok: bool, stack': seq<nat>, tabs: nat, ghost sh: Shape)
      requires StackOk(stack) && |stack| <= lastTabs
      requires heap.records == start + Records(shapes, first)
      requires lineNumber == first - 1 + |shapes|
      requires forall k :: 0 <= k < |stack| ==> |start| <= stack[k]
      requires currentNode.Some? ==> |start| <= currentNode.value
      modifies this, heap
      ensures sh == LineShape(line)
      ensures ok <==> !sh.MissingName?
      ensures lineNumber == old(lineNumber) + 1
      ensures heap.Valid()
      ensures ok ==> StackOk(stack')
      ensures Step(ParseState(stack, lastTabs, old(currentNode), old(added), old(heap.kids)), line) ==
        if ok then Some(ParseState(stack', tabs, currentNode, added, heap.kids)) else None
      ensures ok ==> heap.records == start + Records(shapes + [sh], first)
      ensures heap.totalNodeCount - old(heap.totalNodeCount) == |heap.records| - old(|heap.records|)
      ensures old(heap.records) <= heap.records && |added| >= old(|added|)
      ensures ok ==> (forall k :: 0 <= k < |stack'| ==> |start| <= stack'[k])
      ensures ok ==> (currentNode.Some? ==> |start| <= currentNode.value)
      ensures forall p :: 0 <= p < |start| ==> heap.kids[p] == old(heap.kids[p])
    {
      ghost var prev := heap.records;
      ok, stack', tabs, sh := ParseLine(line, stack, lastTabs, |start|);
      if ok {
        RecordsStep(start, shapes, sh, first, prev, heap.records);
      }
    }

    /** `parse`, with the file's lines given: stops at the first line that
        makes Java throw. */
    method Parse(lines: seq<string>) returns (ok: bool)
      requires heap.Valid()
      modifies this, heap
      ensures heap.Valid()
      ensures old(heap.records) <= heap.records
      ensures ok <==> NoneThrows(lines)
      ensures ok ==> lineNumber == old(lineNumber) + |lines|
      ensures ok ==> heap.records == old(heap.records) + Records(Shapes(lines), old(lineNumber) + 1)
      // the forest: the top-level nodes handed over and every node's
      // children are those of the fold of `Step` over the lines
      ensures ok ==> var r := Run(ParseState([], 0, None, old(added), old(heap.kids)), lines);
        r.Some? && added == r.value.added && heap.kids == r.value.kids
      ensures heap.totalNodeCount - old(heap.totalNodeCount) == |heap.records| - old(|heap.records|)
      // nodes that existed before are left alone
      ensures forall p :: 0 <= p < old(|heap.kids|) ==> heap.kids[p] == old(heap.kids[p])
      ensures |added| >= old(|added|)
    {
      ghost var start := heap.records;
      ghost var startKids := heap.kids;
      ghost var count0 := heap.totalNodeCount;
      ghost var first := lineNumber + 1;
      ghost var shapes: seq<Shape> := [];
      ghost var init := ParseState([], 0, None, added, heap.kids);
      var stack: seq<nat> := [];
      var tabs := 0;
      var lastTabs := 0;
      currentNode := None;
      ok := true;
      var i := 0;
      while i < |lines|
        invariant 0 <= i <= |lines|
        invariant ok
        invariant StackOk(stack)
        invariant shapes == Shapes(lines[..i])
        invariant lineNumber == first - 1 + i
        invariant heap.records == start + Records(shapes, first)
        invariant heap.totalNodeCount - count0 == |heap.records| - |start|
        invariant forall k :: 0 <= k < |stack| ==> |start| <= stack[k]
        invariant currentNode.Some? ==> |start| <= currentNode.value
        invariant forall p :: 0 <= p < |startKids| ==> heap.kids[p] == startKids[p]
        invariant |added| >= old(|added|)
        invariant Run(init, lines[..i]) == Some(ParseState(stack, lastTabs, currentNode, added, heap.kids))
      {
        ghost var sh;
        ghost var before := ParseState(stack, lastTabs, currentNode, added, heap.kids);
        ok, stack, tabs, sh := ParseStep(lines[i], stack, lastTabs, start, shapes, first);
        if !ok {
          assert LineShape(lines[i]).MissingName?;
          return;
        }
        RunPrefix(init, lines, i, before);
        ShapesPrefix(lines, i);
        shapes := shapes + [sh];
        lastTabs := tabs;
        i := i + 1;
      }
      assert lines[..i] == lines;
      RunCompletes(init, lines);
    }
  }
}
