/** Turning one line of a data file into tokens and a node shape
    (Parser.makeNewNode, Parser.countLeadingTabs). */
module Lexer {
  import opened Nodes

  // ---------------------------------------------------------------------
  // Java's String.trim: drop every leading and trailing char <= ' '.

  function TrimStart(s: string): string {
    if s != [] && s[0] <= ' ' then TrimStart(s[1..]) else s
  }

  function TrimEnd(s: string): string {
    if s != [] && s[|s| - 1] <= ' ' then TrimEnd(s[..|s| - 1]) else s
  }

  function Trim(s: string): string {
    TrimEnd(TrimStart(s))
  }

  lemma {:induction false} TrimStartDrops(s: string)
    ensures var r := TrimStart(s);
      && |r| <= |s| && r == s[|s| - |r|..]
      && (r != [] ==> r[0] > ' ')
      && (forall k :: 0 <= k < |s| - |r| ==> s[k] <= ' ')
    decreases |s|
  {
    if s != [] && s[0] <= ' ' {
      TrimStartDrops(s[1..]);
    }
  }

  lemma {:induction false} TrimEndDrops(s: string)
    ensures var r := TrimEnd(s);
      && |r| <= |s| && r == s[..|r|]
      && (r != [] ==> r[|r| - 1] > ' ')
      && (forall k :: |r| <= k < |s| ==> s[k] <= ' ')
    decreases |s|
  {
    if s != [] && s[|s| - 1] <= ' ' {
      TrimEndDrops(s[..|s| - 1]);
    }
  }

  /** `String.trim`: the result is the part of `s` from offset `i` on that
      starts and ends with a character above ' ', and everything cut off on
      either side is at most ' '. */
  lemma TrimCuts(s: string) returns (i: nat)
    ensures var t := Trim(s);
      && i + |t| <= |s| && t == s[i..i + |t|]
      && (t != [] ==> t[0] > ' ' && t[|t| - 1] > ' ')
      && (forall k :: 0 <= k < i ==> s[k] <= ' ')
      && (forall k :: i + |t| <= k < |s| ==> s[k] <= ' ')
  {
    TrimStartDrops(s);
    var u := TrimStart(s);
    TrimEndDrops(u);
    i := |s| - |u|;
    var t := Trim(s);
    assert t == u[..|t|];
    forall k | i + |t| <= k < |s|
      ensures s[k] <= ' '
    {
      assert s[k] == u[k - i];
    }
  }

  // ---------------------------------------------------------------------
  // The token grammar, stated one token at a time.

  /** Index of the first `c` in `s`, or |s| when there is none. */
  function Find(s: string, c: char): (j: nat)
    ensures j <= |s|
    ensures j < |s| ==> s[j] == c
    ensures forall k :: 0 <= k < j ==> s[k] != c
  {
    if s == [] then 0 else if s[0] == c then 0 else 1 + Find(s[1..], c)
  }

  /** Index of the first space or `#` in `s`, or |s| when there is none:
      where an unquoted token stops. */
  function WordEnd(s: string): (j: nat)
    ensures j <= |s|
    ensures j < |s| ==> s[j] == ' ' || s[j] == '#'
    ensures forall k :: 0 <= k < j ==> s[k] != ' ' && s[k] != '#'
  {
    if s == [] then 0 else if s[0] == ' ' || s[0] == '#' then 0 else 1 + WordEnd(s[1..])
  }

  predicate IsQuote(c: char) {
    c == '"' || c == '`'
  }

  /** The tokens of (an already trimmed) line. Spaces separate tokens. A
      token that starts with `"` or a backtick runs, without that quote, to
      the next identical quote, keeping spaces and `#`; an unterminated one
      runs to the end of the line and is dropped if empty. Any other token
      runs to the next space or `#`; an unquoted `#` ends the line. */
  function Lex(s: string): seq<string>
    decreases |s|
  {
    if s == [] then []
    else if s[0] == ' ' then Lex(s[1..])
    else if IsQuote(s[0]) then
      var body := s[1..];
      var j := Find(body, s[0]);
      if j < |body| then [body[..j]] + Lex(body[j + 1..])
      else if body != [] then [body] else []
    else
      var j := WordEnd(s);
      if j == |s| then [s]
      else if s[j] == '#' then (if j == 0 then [] else [s[..j]])
      else [s[..j]] + Lex(s[j + 1..])
  }

  /** The tokens still to come when an unquoted token `cur` is in progress
      and `r` is the rest of the line. */
  function WordRest(cur: string, r: string): seq<string> {
    var j := WordEnd(r);
    if j == |r| then [cur + r]
    else if r[j] == '#' then [cur + r[..j]]
    else [cur + r[..j]] + Lex(r[j + 1..])
  }

  /** The tokens still to come when a token quoted by `q` is in progress. */
  function QuoteRest(q: char, cur: string, r: string): seq<string> {
    var j := Find(r, q);
    if j < |r| then [cur + r[..j]] + Lex(r[j + 1..])
    else if cur + r != [] then [cur + r] else []
  }

  lemma WordRestStep(cur: string, r: string)
    requires r != [] && r[0] != ' ' && r[0] != '#'
    ensures WordRest(cur, r) == WordRest(cur + [r[0]], r[1..])
  {
    var j := WordEnd(r);
    assert WordEnd(r[1..]) == j - 1;
    assert cur + r[..j] == cur + [r[0]] + r[1..][..j - 1];
    if j < |r| {
      assert r[1..][j - 1 + 1..] == r[j + 1..];
    } else {
      assert cur + r == cur + [r[0]] + r[1..];
    }
  }

  lemma QuoteRestStep(q: char, cur: string, r: string)
    requires r != [] && r[0] != q
    ensures QuoteRest(q, cur, r) == QuoteRest(q, cur + [r[0]], r[1..])
  {
    var j := Find(r, q);
    assert Find(r[1..], q) == j - 1;
    if j < |r| {
      assert cur + r[..j] == cur + [r[0]] + r[1..][..j - 1];
      assert r[1..][j - 1 + 1..] == r[j + 1..];
    } else {
      assert cur + r == cur + [r[0]] + r[1..];
    }
  }

  lemma WordStart(s: string)
    requires s != [] && s[0] != ' ' && s[0] != '#' && !IsQuote(s[0])
    ensures Lex(s) == WordRest([s[0]], s[1..])
  {
    var j := WordEnd(s);
    assert WordEnd(s[1..]) == j - 1;
    assert s[..j] == [s[0]] + s[1..][..j - 1];
    if j < |s| {
      assert s[1..][j - 1 + 1..] == s[j + 1..];
    } else {
      assert s == [s[0]] + s[1..];
    }
  }

  lemma QuoteStart(s: string)
    requires s != [] && IsQuote(s[0])
    ensures Lex(s) == QuoteRest(s[0], [], s[1..])
  {
    var body := s[1..];
    var j := Find(body, s[0]);
    if j < |body| {
      assert [] + body[..j] == body[..j];
    } else {
      assert [] + body == body;
    }
  }

  lemma SpaceSkipped(r: string)
    requires r != [] && r[0] == ' '
    ensures Lex(r) == Lex(r[1..])
  {
  }

  lemma CommentStart(cur: string, r: string)
    requires r != [] && r[0] == '#'
    ensures Lex(r) == []
    ensures WordRest(cur, r) == [cur]
  {
    assert cur + r[..0] == cur;
  }

  lemma WordStops(cur: string, r: string)
    requires r != [] && r[0] == ' '
    ensures WordRest(cur, r) == [cur] + Lex(r[1..])
  {
    assert cur + r[..0] == cur;
  }

  lemma QuoteCloses(q: char, cur: string, r: string)
    requires r != [] && r[0] == q
    ensures QuoteRest(q, cur, r) == [cur] + Lex(r[1..])
  {
    assert cur + r[..0] == cur;
  }

  /** The tokens still to come, given the scanner's state and the rest `r`
      of the line. */
  function Pending(isEmpty: bool, splitOn: char, cur: string, r: string): seq<string> {
    if isEmpty then Lex(r)
    else if splitOn == ' ' then WordRest(cur, r)
    else QuoteRest(splitOn, cur, r)
  }

  /** The scanner of `makeNewNode` as a state machine over the rest `r` of
      the trimmed line: `isEmpty` says no token is open, `splitOn` is the
      character that will close the open token and `cur` its text so far. */
  function Scan(isEmpty: bool, splitOn: char, cur: string, r: string): seq<string>
    decreases |r|
  {
    if r == [] then (if cur == [] then [] else [cur])
    else
      var c := r[0];
      if isEmpty && c == ' ' then Scan(true, splitOn, cur, r[1..])
      else if isEmpty && IsQuote(c) then Scan(false, c, cur, r[1..])
      else
        var q := if isEmpty then ' ' else splitOn;
        if c == q then [cur] + Scan(true, q, [], r[1..])
        else if c == '#' && q == ' ' then (if cur == [] then [] else [cur])
        else Scan(false, q, cur + [c], r[1..])
  }

  /** The state machine yields exactly the tokens of the grammar `Lex`, from
      every state the scanner can be in. */
  lemma {:induction false} ScanIsPending(isEmpty: bool, splitOn: char, cur: string, r: string)
    requires isEmpty ==> cur == []
    requires !isEmpty && splitOn == ' ' ==> cur != []
    requires splitOn == ' ' || IsQuote(splitOn)
    ensures Scan(isEmpty, splitOn, cur, r) == Pending(isEmpty, splitOn, cur, r)
    decreases |r|
  {
    if r == [] {
      PendingAtEnd(isEmpty, splitOn, cur);
    } else {
      var c := r[0];
      var q := if isEmpty then ' ' else splitOn;
      if isEmpty && c == ' ' {
        SpaceSkipped(r);
        ScanIsPending(true, splitOn, cur, r[1..]);
      } else if isEmpty && IsQuote(c) {
        QuoteStart(r);
        ScanIsPending(false, c, cur, r[1..]);
      } else if c == q {
        if c == ' ' {
          WordStops(cur, r);
        } else {
          QuoteCloses(c, cur, r);
        }
        ScanIsPending(true, q, [], r[1..]);
      } else if c == '#' && q == ' ' {
        CommentStart(cur, r);
      } else {
        if q != ' ' {
          QuoteRestStep(q, cur, r);
        } else if !isEmpty {
          WordRestStep(cur, r);
        } else {
          WordStart(r);
          assert cur + [c] == [c];
        }
        ScanIsPending(false, q, cur + [c], r[1..]);
      }
    }
  }

  /** The character loop of `makeNewNode`: the tokens of the trimmed line,
      in order. */
  method Tokenize(t: string) returns (data: seq<string>)
    ensures data == Lex(t)
  {
    data := [];
    var splitOn := ' ';
    var cur := "";
    var isEmpty := true;
    var i := 0;
    ghost var stopped := false;
    while i < |t|
      invariant 0 <= i <= |t|
      invariant !stopped
      invariant Scan(true, ' ', "", t) == data + Scan(isEmpty, splitOn, cur, t[i..])
    {
      var c := t[i];
      ghost var r := t[i..];
      ghost var before := Scan(isEmpty, splitOn, cur, r);
      assert r[0] == c && r[1..] == t[i + 1..];
      i := i + 1;
      if isEmpty && c != ' ' {
        isEmpty := false;
        if c == '"' {
          // the token will end with a double quote; this one is dropped
          splitOn := '"';
          assert before == Scan(isEmpty, splitOn, cur, t[i..]);
          continue;
        } else if c == '`' {
          // the token will end with a backtick; this one is dropped
          splitOn := '`';
          assert before == Scan(isEmpty, splitOn, cur, t[i..]);
          continue;
        } else {
          // the token ends where its word does
          splitOn := ' ';
        }
      } else if isEmpty {
        assert before == Scan(isEmpty, splitOn, cur, t[i..]);
        continue;
      }

      if c == splitOn {
        assert before == [cur] + Scan(true, splitOn, [], t[i..]);
        assert data + ([cur] + Scan(true, splitOn, [], t[i..])) == (data + [cur]) + Scan(true, splitOn, [], t[i..]);
        data := data + [cur];
        cur := "";
        isEmpty := true;
        continue;
      } else if c == '#' && splitOn == ' ' {
        // everything after a comment mark is ignored
        assert before == if cur == [] then [] else [cur];
        stopped := true;
        break;
      }
      assert before == Scan(isEmpty, splitOn, cur + [c], t[i..]);
      cur := cur + [c];
    }
    if !stopped {
      assert t[i..] == [];
    }
    // a token may also end at the end of the line
    if cur != [] {
      data := data + [cur];
    }
    ScanIsPending(true, ' ', "", t);
  }

  lemma PendingAtEnd(isEmpty: bool, splitOn: char, cur: string)
    requires isEmpty ==> cur == []
    requires !isEmpty && splitOn == ' ' ==> cur != []
    ensures Pending(isEmpty, splitOn, cur, []) == if cur == [] then [] else [cur]
  {
    assert cur + [] == cur;
  }

  // ---------------------------------------------------------------------
  // Properties of the token grammar.

  /** Some quote character of `s` is immediately followed by the same quote. */
  ghost predicate HasQuotePair(s: string) {
    exists i :: 0 <= i < |s| - 1 && IsQuote(s[i]) && s[i + 1] == s[i]
  }

  lemma QuotePairShift(s: string, off: nat)
    requires off <= |s| && HasQuotePair(s[off..])
    ensures HasQuotePair(s)
  {
    var rest := s[off..];
    var i :| 0 <= i < |rest| - 1 && IsQuote(rest[i]) && rest[i + 1] == rest[i];
    assert s[off + i] == rest[i] && s[off + i + 1] == rest[i + 1];
  }

  /** Spaces between tokens never make a token: an empty token comes only
      from a quote immediately followed by the same quote. */
  lemma {:induction false} EmptyTokenNeedsQuotePair(s: string, k: nat)
    requires k < |Lex(s)| && Lex(s)[k] == []
    ensures HasQuotePair(s)
    decreases |s|
  {
    if s[0] == ' ' {
      EmptyTokenNeedsQuotePair(s[1..], k);
      QuotePairShift(s, 1);
    } else if IsQuote(s[0]) {
      var body := s[1..];
      var j := Find(body, s[0]);
      if k == 0 {
        assert j == 0 && 1 < |s| && s[1] == s[0];
      } else {
        assert body[j + 1..] == s[j + 2..];
        EmptyTokenNeedsQuotePair(s[j + 2..], k - 1);
        QuotePairShift(s, j + 2);
      }
    } else {
      var j := WordEnd(s);
      assert k > 0;
      EmptyTokenNeedsQuotePair(s[j + 1..], k - 1);
      QuotePairShift(s, j + 1);
    }
  }

  /** Without quote characters, every token is a non-empty run of the line
      that holds no space and no `#`. */
  lemma {:induction false} UnquotedTokensAreWords(s: string, k: nat)
    requires forall i :: 0 <= i < |s| ==> !IsQuote(s[i])
    requires k < |Lex(s)|
    ensures Lex(s)[k] != [] && ' ' !in Lex(s)[k] && '#' !in Lex(s)[k]
    decreases |s|
  {
    if s[0] == ' ' {
      UnquotedTokensAreWords(s[1..], k);
    } else {
      var j := WordEnd(s);
      if k > 0 {
        UnquotedTokensAreWords(s[j + 1..], k - 1);
      } else {
        assert Lex(s)[0] == s[..j];
      }
    }
  }

  /** Inside a token opened by a quote, spaces and `#` are kept: the token is
      everything up to the matching quote, and tokenizing resumes after it. */
  lemma QuotedToken(q: char, body: string, rest: string)
    requires IsQuote(q) && q !in body
    ensures Lex([q] + body + [q] + rest) == [body] + Lex(rest)
  {
    var s := [q] + body + [q] + rest;
    assert s[1..] == body + [q] + rest;
    FindPrefix(body, q, rest);
    assert s[1..][..|body|] == body;
    assert s[1..][|body| + 1..] == rest;
  }

  lemma {:induction false} FindPrefix(body: string, q: char, rest: string)
    requires q !in body
    ensures Find(body + [q] + rest, q) == |body|
  {
    if body != [] {
      assert (body + [q] + rest)[1..] == body[1..] + [q] + rest;
      FindPrefix(body[1..], q, rest);
    }
  }

  /** An unquoted `#` discards the rest of the line. */
  lemma CommentEndsLine(rest: string)
    ensures Lex(['#'] + rest) == []
  {
  }

  /** A final unterminated quoted token is still a token when non-empty. */
  lemma UnterminatedQuote(q: char, body: string)
    requires IsQuote(q) && q !in body && body != []
    ensures Lex([q] + body) == [body]
  {
    assert ([q] + body)[1..] == body;
  }

  // ---------------------------------------------------------------------
  // From tokens to a node.

  /** What `makeNewNode` makes of a line: no node, a node, or (when `add`
      or `remove` is not followed by a name) an IndexOutOfBoundsException. */
  datatype Shape = NoNode | Made(name: string, flag: Flag, args: seq<string>) | MissingName

  function ShapeOf(tokens: seq<string>): (sh: Shape)
    ensures sh.NoNode? <==> tokens == []
    ensures sh.MissingName? <==> |tokens| == 1 && tokens[0] in {"add", "remove"}
    ensures sh.Made? && sh.flag == Normal ==> [sh.name] + sh.args == tokens
    ensures sh.Made? && sh.flag != Normal ==>
      tokens == [if sh.flag == Add then "add" else "remove", sh.name] + sh.args
  {
    if tokens == [] then NoNode
    else if tokens[0] == "add" || tokens[0] == "remove" then
      var flag := if tokens[0] == "add" then Add else Remove;
      if |tokens| < 2 then MissingName else Made(tokens[1], flag, tokens[2..])
    else Made(tokens[0], Normal, tokens[1..])
  }

  /** The shape of one raw line. */
  function LineShape(line: string): Shape {
    ShapeOf(Lex(Trim(line)))
  }

  /** An empty line, a line of whitespace, and a line whose first token
      starts with `#` make no node. */
  lemma {:induction false} BlankOrCommentLineMakesNoNode(line: string)
    requires forall i :: 0 <= i < |line| ==> line[i] <= ' '
    ensures LineShape(line) == NoNode
  {
    AllBlankTrims(line);
  }

  lemma {:induction false} AllBlankTrims(s: string)
    requires forall i :: 0 <= i < |s| ==> s[i] <= ' '
    ensures TrimStart(s) == []
  {
    if s != [] {
      AllBlankTrims(s[1..]);
    }
  }

  lemma CommentLineMakesNoNode(spaces: string, rest: string)
    requires forall i :: 0 <= i < |spaces| ==> spaces[i] == ' '
    ensures Lex(spaces + ['#'] + rest) == []
    decreases |spaces|
  {
    if spaces != [] {
      assert (spaces + ['#'] + rest)[1..] == spaces[1..] + ['#'] + rest;
      CommentLineMakesNoNode(spaces[1..], rest);
    }
  }

  // ---------------------------------------------------------------------
  // Indentation.

  /** The number of leading tab characters. */
  function Tabs(line: string): (n: nat)
    ensures n <= |line|
    ensures forall k :: 0 <= k < n ==> line[k] == '\t'
    ensures n < |line| ==> line[n] != '\t'
  {
    if line != [] && line[0] == '\t' then 1 + Tabs(line[1..]) else 0
  }

  /** `countLeadingTabs`: the length of the longest all-tab prefix. */
  method CountLeadingTabs(line: string) returns (i: nat)
    ensures i == Tabs(line)
  {
    i := 0;
    while i < |line| && line[i] == '\t'
      invariant i <= Tabs(line)
    {
      i := i + 1;
    }
  }
}
