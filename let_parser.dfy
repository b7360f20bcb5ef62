/** The recursive-descent parser of the LET interpreter. A Parser owns a
    token queue that it consumes from the front; each call of Parse builds
    one tree node from the head token and, for the four compound forms,
    parses their sub-expressions and required punctuation in surface order.
    Where the program ends the process (a wrong token, or slicing an empty
    queue), the model returns an error instead. */
module LetParser {
  import opened Results
  import opened LetScanner

  /** A variable and the value bound to it; values travel as strings. */
  datatype Binding = Binding(varname: string, value: string)

  /** A tree node: the kind and text of the token it was built from, whether
      it is a leaf, its children in surface order and the environment the
      evaluator recorded on it (empty until evaluation). */
  datatype Node = Node(kind: Kind, termsym: bool, text: string, children: seq<Node>, env: seq<Binding>)

  datatype ParseError =
    | UnexpectedToken(message: string)  // a required token of another kind was next
    | IndexOutOfRange                   // a token was taken from an empty queue

  const ExpectLParen := "Expected Left Parenthesis, Unexpected Token Received Instead"
  const ExpectComma := "Expected Comma, Unexpected Token Received Instead"
  const ExpectRParen := "Expected Right Parenthesis, Unexpected Token Received Instead"
  const ExpectIsZero := "Expected Iszero, Unexpected Token Received Instead"
  const ExpectThen := "Expected Then, Unexpected Token Received Instead"
  const ExpectElse := "Expected Else, Unexpected Token Received Instead"
  const ExpectIdentifier := "Expected Identifier, Unexpected Token Received Instead"
  const ExpectEquals := "Expected Equals, Unexpected Token Received Instead"
  const ExpectIn := "Expected In, Unexpected Token Received Instead"

  // ---------------------------------------------------------------------------
  // Queue primitives.

  /** Take the head token off a queue; an empty queue is an index error. */
  function PopTQ(q: seq<Token>): (r: Result<(Token, seq<Token>), ParseError>)
    ensures r.Ok? <==> |q| > 0
    ensures r.Ok? ==> [r.value.0] + r.value.1 == q
    ensures r.Err? ==> r.error == IndexOutOfRange
  {
    if |q| == 0 then Err(IndexOutOfRange) else Ok((q[0], q[1..]))
  }

  /** The kind and text at the head of a queue, or (Unknown, "") when it is
      empty. */
  function Peek(q: seq<Token>): (r: (Kind, string))
    ensures |q| == 0 ==> r == (Unknown, "")
    ensures |q| > 0 ==> [Token(r.0, r.1)] + q[1..] == q
  {
    if |q| == 0 then (Unknown, "") else (q[0].kind, q[0].text)
  }

  /** Require the head token to have kind tt, consuming it when advance is
      set; any other kind fails with the message err. */
  function Expect(q: seq<Token>, tt: Kind, advance: bool, err: string): (r: Result<seq<Token>, ParseError>)
    ensures Peek(q).0 != tt ==> r == Err(UnexpectedToken(err))
    ensures r.Ok? <==> Peek(q).0 == tt && (advance ==> |q| > 0)
    ensures r.Ok? && advance ==> [q[0]] + r.value == q
    ensures r.Ok? && !advance ==> r.value == q
  {
    if Peek(q).0 != tt then Err(UnexpectedToken(err))
    else if advance then
      var (_, rest) :- PopTQ(q);
      Ok(rest)
    else Ok(q)
  }

  /** Peeking sees exactly the token that popping would take. */
  lemma PeekThenPop(q: seq<Token>)
    ensures PopTQ(q).Ok? ==> Peek(q) == (PopTQ(q).value.0.kind, PopTQ(q).value.0.text)
    ensures PopTQ(q).Err? ==> Peek(q) == (Unknown, "")
  {
  }

  // ---------------------------------------------------------------------------
  // Tree shapes.

  /** The number of children each node kind is built with. */
  function Arity(k: Kind): nat {
    match k
    case Minus => 2
    case IsZero => 1
    case If => 3
    case Let => 3
    case _ => 0
  }

  /** The trees a parse can build: every node has the children its kind
      demands and no environment yet, only leaves are terminal, an if
      tests an iszero node, and a let binds an identifier leaf. */
  predicate Shaped(n: Node)
    decreases n
  {
    |n.children| == Arity(n.kind) && n.termsym == (Arity(n.kind) == 0) && n.env == []
    && (n.kind == If ==> n.children[0].kind == IsZero)
    && (n.kind == Let ==> n.children[0].kind == Identifier && n.children[0].children == [])
    && forall i | 0 <= i < |n.children| :: Shaped(n.children[i])
  }

  // ---------------------------------------------------------------------------
  // The parse as a function of the queue.

  /** One parse call: the node built from the head token and the queue left
      after it. */
  function ParseExpr(q: seq<Token>): (r: Result<(Node, seq<Token>), ParseError>)
    ensures r.Ok? ==> |r.value.1| < |q|
    decreases |q|, 1
  {
    var (tok, q1) :- PopTQ(q);
    ParseAfter(tok, q1)
  }

  /** The rest of a parse call once the head token tok is taken: its form
      decides what is read next, and any other kind is a leaf. */
  function ParseAfter(tok: Token, q1: seq<Token>): (r: Result<(Node, seq<Token>), ParseError>)
    ensures r.Ok? ==> |r.value.1| <= |q1|
    decreases |q1|, 3
  {
    match tok.kind
    case Minus => ParseMinus(tok.text, q1)
    case IsZero => ParseIsZero(tok.text, q1)
    case If => ParseIf(tok.text, q1)
    case Let => ParseLet(tok.text, q1)
    case _ => Ok((Node(tok.kind, true, tok.text, [], []), q1))
  }

  /** `minus ( e , e )` after the minus token. */
  function ParseMinus(text: string, q1: seq<Token>): (r: Result<(Node, seq<Token>), ParseError>)
    ensures r.Ok? ==> |r.value.1| < |q1|
    decreases |q1|, 2
  {
    var q2 :- Expect(q1, LParen, true, ExpectLParen);
    var left :- ParseExpr(q2);
    var q4 :- Expect(left.1, Comma, true, ExpectComma);
    var right :- ParseExpr(q4);
    var q6 :- Expect(right.1, RParen, true, ExpectRParen);
    Ok((Node(Minus, false, text, [left.0, right.0], []), q6))
  }

  /** `iszero ( e )` after the iszero token. */
  function ParseIsZero(text: string, q1: seq<Token>): (r: Result<(Node, seq<Token>), ParseError>)
    ensures r.Ok? ==> |r.value.1| < |q1|
    decreases |q1|, 2
  {
    var q2 :- Expect(q1, LParen, true, ExpectLParen);
    var inner :- ParseExpr(q2);
    var q4 :- Expect(inner.1, RParen, true, ExpectRParen);
    Ok((Node(IsZero, false, text, [inner.0], []), q4))
  }

  /** `if e then e else e` after the if token; the test must start with
      iszero, which is checked without consuming it. */
  function ParseIf(text: string, q1: seq<Token>): (r: Result<(Node, seq<Token>), ParseError>)
    ensures r.Ok? ==> |r.value.1| < |q1|
    decreases |q1|, 2
  {
    var q2 :- Expect(q1, IsZero, false, ExpectIsZero);
    var test :- ParseExpr(q2);
    var q4 :- Expect(test.1, Then, true, ExpectThen);
    var yes :- ParseExpr(q4);
    var q6 :- Expect(yes.1, Else, true, ExpectElse);
    var no :- ParseExpr(q6);
    Ok((Node(If, false, text, [test.0, yes.0, no.0], []), no.1))
  }

  /** `let x = e in e` after the let token; the name must be an identifier,
      which is checked without consuming it. */
  function ParseLet(text: string, q1: seq<Token>): (r: Result<(Node, seq<Token>), ParseError>)
    ensures r.Ok? ==> |r.value.1| < |q1|
    decreases |q1|, 2
  {
    var q2 :- Expect(q1, Identifier, false, ExpectIdentifier);
    var id :- ParseExpr(q2);
    var q4 :- Expect(id.1, Equals, true, ExpectEquals);
    var bound :- ParseExpr(q4);
    var q6 :- Expect(bound.1, In, true, ExpectIn);
    var body :- ParseExpr(q6);
    Ok((Node(Let, false, text, [id.0, bound.0, body.0], []), body.1))
  }

  // How each compound form's parse function reads a successful run of steps.

  lemma MinusSteps(text: string, q1: seq<Token>, q2: seq<Token>, left: Node, q3: seq<Token>,
                   q4: seq<Token>, right: Node, q5: seq<Token>, q6: seq<Token>)
    requires Expect(q1, LParen, true, ExpectLParen) == Ok(q2) && ParseExpr(q2) == Ok((left, q3))
    requires Expect(q3, Comma, true, ExpectComma) == Ok(q4) && ParseExpr(q4) == Ok((right, q5))
    requires Expect(q5, RParen, true, ExpectRParen) == Ok(q6)
    ensures ParseMinus(text, q1) == Ok((Node(Minus, false, text, [left, right], []), q6))
  {
  }

  lemma IsZeroSteps(text: string, q1: seq<Token>, q2: seq<Token>, inner: Node, q3: seq<Token>,
                    q4: seq<Token>)
    requires Expect(q1, LParen, true, ExpectLParen) == Ok(q2) && ParseExpr(q2) == Ok((inner, q3))
    requires Expect(q3, RParen, true, ExpectRParen) == Ok(q4)
    ensures ParseIsZero(text, q1) == Ok((Node(IsZero, false, text, [inner], []), q4))
  {
  }

  lemma IfSteps(text: string, q1: seq<Token>, q2: seq<Token>, test: Node, q3: seq<Token>,
                q4: seq<Token>, yes: Node, q5: seq<Token>, q6: seq<Token>, no: Node, q7: seq<Token>)
    requires Expect(q1, IsZero, false, ExpectIsZero) == Ok(q2) && ParseExpr(q2) == Ok((test, q3))
    requires Expect(q3, Then, true, ExpectThen) == Ok(q4) && ParseExpr(q4) == Ok((yes, q5))
    requires Expect(q5, Else, true, ExpectElse) == Ok(q6) && ParseExpr(q6) == Ok((no, q7))
    ensures ParseIf(text, q1) == Ok((Node(If, false, text, [test, yes, no], []), q7))
  {
  }

  lemma LetSteps(text: string, q1: seq<Token>, q2: seq<Token>, id: Node, q3: seq<Token>,
                 q4: seq<Token>, bound: Node, q5: seq<Token>, q6: seq<Token>, body: Node, q7: seq<Token>)
    requires Expect(q1, Identifier, false, ExpectIdentifier) == Ok(q2) && ParseExpr(q2) == Ok((id, q3))
    requires Expect(q3, Equals, true, ExpectEquals) == Ok(q4) && ParseExpr(q4) == Ok((bound, q5))
    requires Expect(q5, In, true, ExpectIn) == Ok(q6) && ParseExpr(q6) == Ok((body, q7))
    ensures ParseLet(text, q1) == Ok((Node(Let, false, text, [id, bound, body], []), q7))
  {
  }

  // The successful runs of steps behind each compound form's parse: the
  // queue after each step and the sub-trees parsed on the way.

  datatype MinusRun = MinusRun(q2: seq<Token>, left: Node, q3: seq<Token>, q4: seq<Token>,
                               right: Node, q5: seq<Token>, q6: seq<Token>)

  datatype ThreeRun = ThreeRun(q2: seq<Token>, first: Node, q3: seq<Token>, q4: seq<Token>,
                               second: Node, q5: seq<Token>, q6: seq<Token>, third: Node, q7: seq<Token>)

  function MinusParts(text: string, q1: seq<Token>): (m: MinusRun)
    requires ParseMinus(text, q1).Ok?
    ensures Expect(q1, LParen, true, ExpectLParen) == Ok(m.q2) && ParseExpr(m.q2) == Ok((m.left, m.q3))
    ensures Expect(m.q3, Comma, true, ExpectComma) == Ok(m.q4) && ParseExpr(m.q4) == Ok((m.right, m.q5))
    ensures Expect(m.q5, RParen, true, ExpectRParen) == Ok(m.q6)
    ensures ParseMinus(text, q1).value == (Node(Minus, false, text, [m.left, m.right], []), m.q6)
    ensures |m.q2| < |q1| && |m.q4| < |m.q3| < |m.q2|
  {
    var q2 := Expect(q1, LParen, true, ExpectLParen).value;
    var (left, q3) := ParseExpr(q2).value;
    var q4 := Expect(q3, Comma, true, ExpectComma).value;
    var (right, q5) := ParseExpr(q4).value;
    MinusRun(q2, left, q3, q4, right, q5, Expect(q5, RParen, true, ExpectRParen).value)
  }

  function IfParts(text: string, q1: seq<Token>): (t: ThreeRun)
    requires ParseIf(text, q1).Ok?
    ensures Expect(q1, IsZero, false, ExpectIsZero) == Ok(t.q2) && ParseExpr(t.q2) == Ok((t.first, t.q3))
    ensures Expect(t.q3, Then, true, ExpectThen) == Ok(t.q4) && ParseExpr(t.q4) == Ok((t.second, t.q5))
    ensures Expect(t.q5, Else, true, ExpectElse) == Ok(t.q6) && ParseExpr(t.q6) == Ok((t.third, t.q7))
    ensures ParseIf(text, q1).value == (Node(If, false, text, [t.first, t.second, t.third], []), t.q7)
    ensures t.q2 == q1 && |q1| > 0 && q1[0].kind == IsZero
    ensures |t.q4| < |t.q3| < |t.q2| && |t.q6| < |t.q5| < |t.q4|
  {
    var q2 := Expect(q1, IsZero, false, ExpectIsZero).value;
    var (test, q3) := ParseExpr(q2).value;
    var q4 := Expect(q3, Then, true, ExpectThen).value;
    var (yes, q5) := ParseExpr(q4).value;
    var q6 := Expect(q5, Else, true, ExpectElse).value;
    var (no, q7) := ParseExpr(q6).value;
    ThreeRun(q2, test, q3, q4, yes, q5, q6, no, q7)
  }

  function LetParts(text: string, q1: seq<Token>): (t: ThreeRun)
    requires ParseLet(text, q1).Ok?
    ensures Expect(q1, Identifier, false, ExpectIdentifier) == Ok(t.q2) && ParseExpr(t.q2) == Ok((t.first, t.q3))
    ensures Expect(t.q3, Equals, true, ExpectEquals) == Ok(t.q4) && ParseExpr(t.q4) == Ok((t.second, t.q5))
    ensures Expect(t.q5, In, true, ExpectIn) == Ok(t.q6) && ParseExpr(t.q6) == Ok((t.third, t.q7))
    ensures ParseLet(text, q1).value == (Node(Let, false, text, [t.first, t.second, t.third], []), t.q7)
    ensures t.q2 == q1 && |q1| > 0 && q1[0].kind == Identifier
    ensures |t.q4| < |t.q3| < |t.q2| && |t.q6| < |t.q5| < |t.q4|
  {
    var q2 := Expect(q1, Identifier, false, ExpectIdentifier).value;
    var (id, q3) := ParseExpr(q2).value;
    var q4 := Expect(q3, Equals, true, ExpectEquals).value;
    var (bound, q5) := ParseExpr(q4).value;
    var q6 := Expect(q5, In, true, ExpectIn).value;
    var (body, q7) := ParseExpr(q6).value;
    ThreeRun(q2, id, q3, q4, bound, q5, q6, body, q7)
  }

  /** Three appends to an empty child list, proved on its own: inside the
      node methods the same step is far more costly for the solver. */
  lemma AppendThree(a: Node, b: Node, c: Node)
    ensures [] + [a] + [b] + [c] == [a, b, c]
  {
  }

  // ---------------------------------------------------------------------------
  // The parser object: the queue is a field consumed in place.

  class Parser {
    var tQ: seq<Token>

    constructor(tokens: seq<Token>)
      ensures tQ == tokens
    {
      tQ := tokens;
    }

    /** The head token's kind and text, without consuming it. */
    function PeekTQ(): (r: (Kind, string))
      reads this
      ensures r == Peek(tQ)
    {
      if |tQ| <= 0 then (Unknown, "") else (tQ[0].kind, tQ[0].text)
    }

    /** Drop the head token. */
    method AdvanceToken() returns (out: Outcome<ParseError>)
      modifies this
      ensures var p := PopTQ(old(tQ));
        (out.Pass? <==> p.Ok?) && (p.Ok? ==> tQ == p.value.1) && (p.Err? ==> out == Fail(p.error))
    {
      var p := PopTQ(tQ);
      if p.Err? {
        return Fail(p.error);
      }
      tQ := p.value.1;
      return Pass;
    }

    /** Check the head token's kind, consuming it when advance is set. */
    method Expected(tt: Kind, advance: bool, err: string) returns (out: Outcome<ParseError>)
      modifies this
      ensures var e := Expect(old(tQ), tt, advance, err);
        (out.Pass? <==> e.Ok?) && (e.Ok? ==> tQ == e.value) && (e.Err? ==> out == Fail(e.error))
    {
      var (nextT, _) := PeekTQ();
      if tt != nextT {
        return Fail(UnexpectedToken(err));
      }
      if advance {
        out := AdvanceToken();
        return;
      }
      return Pass;
    }

    /** A fresh leaf node from the head token, which is consumed. */
    method InitTreeNd() returns (r: Result<Node, ParseError>)
      modifies this
      ensures var p := PopTQ(old(tQ));
        (r.Ok? <==> p.Ok?)
        && (p.Ok? ==> r.value == Node(p.value.0.kind, true, p.value.0.text, [], []) && tQ == p.value.1)
        && (p.Err? ==> r == Err(p.error))
    {
      var (ttype, tvalue) := PeekTQ();
      var nd := Node(ttype, true, tvalue, [], []);
      :- AdvanceToken();
      return Ok(nd);
    }

    /** Parse one expression from the queue, leaving the rest in the queue. */
    method Parse() returns (r: Result<Node, ParseError>)
      modifies this
      decreases |tQ|, 1
      ensures var e := ParseExpr(old(tQ));
        (r.Ok? <==> e.Ok?) && (e.Ok? ==> e.value == (r.value, tQ)) && (e.Err? ==> r == Err(e.error))
    {
      var parent :- InitTreeNd();
      if parent.kind == Minus {
        r := ParseMinusNode(parent);
      } else if parent.kind == IsZero {
        r := ParseIsZeroNode(parent);
      } else if parent.kind == If {
        r := ParseIfNode(parent);
      } else if parent.kind == Let {
        r := ParseLetNode(parent);
      } else {
        r := Ok(parent);
      }
    }

    // The four compound forms of Parse, one method each.

    method ParseMinusNode(parent0: Node) returns (r: Result<Node, ParseError>)
      requires parent0 == Node(Minus, true, parent0.text, [], [])
      modifies this
      decreases |tQ|, 2
      ensures var e := ParseMinus(parent0.text, old(tQ));
        (r.Ok? <==> e.Ok?) && (e.Ok? ==> e.value == (r.value, tQ)) && (e.Err? ==> r == Err(e.error))
    {
      ghost var q1 := tQ;
      var parent := parent0.(termsym := false);
      :- Expected(LParen, true, ExpectLParen);
      ghost var q2 := tQ;
      var left :- Parse();
      ghost var q3 := tQ;
      :- Expected(Comma, true, ExpectComma);
      ghost var q4 := tQ;
      var right :- Parse();
      ghost var q5 := tQ;
      :- Expected(RParen, true, ExpectRParen);
      parent := parent.(children := parent.children + [left] + [right]);
      assert parent == Node(Minus, false, parent0.text, [left, right], []);
      MinusSteps(parent.text, q1, q2, left, q3, q4, right, q5, tQ);
      return Ok(parent);
    }

    method ParseIsZeroNode(parent0: Node) returns (r: Result<Node, ParseError>)
      requires parent0 == Node(IsZero, true, parent0.text, [], [])
      modifies this
      decreases |tQ|, 2
      ensures var e := ParseIsZero(parent0.text, old(tQ));
        (r.Ok? <==> e.Ok?) && (e.Ok? ==> e.value == (r.value, tQ)) && (e.Err? ==> r == Err(e.error))
    {
      var parent := parent0.(termsym := false);
      :- Expected(LParen, true, ExpectLParen);
      var expressionChild :- Parse();
      :- Expected(RParen, true, ExpectRParen);
      parent := parent.(children := parent.children + [expressionChild]);
      assert parent == Node(IsZero, false, parent0.text, [expressionChild], []);
      return Ok(parent);
    }

    method ParseIfNode(parent0: Node) returns (r: Result<Node, ParseError>)
      requires parent0 == Node(If, true, parent0.text, [], [])
      modifies this
      decreases |tQ|, 2
      ensures var e := ParseIf(parent0.text, old(tQ));
        (r.Ok? <==> e.Ok?) && (e.Ok? ==> e.value == (r.value, tQ)) && (e.Err? ==> r == Err(e.error))
    {
      ghost var q1 := tQ;
      var parent := parent0.(termsym := false);
      :- Expected(IsZero, false, ExpectIsZero);
      ghost var q2 := tQ;
      var test :- Parse();
      ghost var q3 := tQ;
      :- Expected(Then, true, ExpectThen);
      ghost var q4 := tQ;
      var thenCase :- Parse();
      ghost var q5 := tQ;
      :- Expected(Else, true, ExpectElse);
      ghost var q6 := tQ;
      var elseCase :- Parse();
      parent := parent.(children := parent.children + [test] + [thenCase] + [elseCase]);
      AppendThree(test, thenCase, elseCase);
      assert parent == Node(If, false, parent0.text, [test, thenCase, elseCase], []);
      IfSteps(parent.text, q1, q2, test, q3, q4, thenCase, q5, q6, elseCase, tQ);
      return Ok(parent);
    }

    method ParseLetNode(parent0: Node) returns (r: Result<Node, ParseError>)
      requires parent0 == Node(Let, true, parent0.text, [], [])
      modifies this
      decreases |tQ|, 2
      ensures var e := ParseLet(parent0.text, old(tQ));
        (r.Ok? <==> e.Ok?) && (e.Ok? ==> e.value == (r.value, tQ)) && (e.Err? ==> r == Err(e.error))
    {
      ghost var q1 := tQ;
      var parent := parent0.(termsym := false);
      :- Expected(Identifier, false, ExpectIdentifier);
      ghost var q2 := tQ;
      var id :- Parse();
      ghost var q3 := tQ;
      :- Expected(Equals, true, ExpectEquals);
      ghost var q4 := tQ;
      var firstChild :- Parse();
      ghost var q5 := tQ;
      :- Expected(In, true, ExpectIn);
      ghost var q6 := tQ;
      var secondChild :- Parse();
      parent := parent.(children := parent.children + [id] + [firstChild] + [secondChild]);
      AppendThree(id, firstChild, secondChild);
      assert parent == Node(Let, false, parent0.text, [id, firstChild, secondChild], []);
      LetSteps(parent.text, q1, q2, id, q3, q4, firstChild, q5, q6, secondChild, tQ);
      return Ok(parent);
    }
  }

  /** Parse a whole token queue from a fresh parser; tokens left over after
      the first expression (the end marker among them) are not examined. */
  method ParseInput(tokens: seq<Token>) returns (r: Result<Node, ParseError>)
    ensures var e := ParseExpr(tokens);
      (r.Ok? <==> e.Ok?) && (e.Ok? ==> r.value == e.value.0) && (e.Err? ==> r == Err(e.error))
  {
    var par := new Parser(tokens);
    r := par.Parse();
  }
}
