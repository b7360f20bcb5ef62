/** What the parser guarantees: the trees it builds are well shaped, it is
    inverted by printing the tree back as tokens, and its error cases. */
module LetParserFacts {
  import opened Results
  import opened LetScanner
  import opened LetParser

  // ---------------------------------------------------------------------------
  // Shape of parsed trees.

  /** A successful parse builds a well-shaped tree whose root carries the
      kind and text of the head token. */
  lemma {:induction false} ParsedShaped(q: seq<Token>)
    ensures var r := ParseExpr(q);
      r.Ok? ==> Shaped(r.value.0) && r.value.0.kind == q[0].kind && r.value.0.text == q[0].text
    decreases |q|, 1
  {
    if |q| > 0 {
      var tok := q[0];
      match tok.kind
      case Minus => MinusShaped(tok.text, q[1..]);
      case IsZero => IsZeroShaped(tok.text, q[1..]);
      case If => IfShaped(tok.text, q[1..]);
      case Let => LetShaped(tok.text, q[1..]);
      case _ =>
    }
  }

  /** The shape of one parsed sub-expression. */
  lemma ChildShaped(q: seq<Token>, n: Node, rest: seq<Token>)
    requires ParseExpr(q) == Ok((n, rest))
    ensures Shaped(n) && |q| > 0 && n.kind == q[0].kind && n.text == q[0].text
    decreases |q|, 2
  {
    ParsedShaped(q);
  }

  lemma {:induction false} MinusShaped(text: string, q1: seq<Token>)
    ensures var r := ParseMinus(text, q1);
      r.Ok? ==> Shaped(r.value.0) && r.value.0.kind == Minus && r.value.0.text == text
    decreases |q1|, 4
  {
    if ParseMinus(text, q1).Ok? {
      var m := MinusParts(text, q1);
      var q2, left, q3, q4, right, q5, q6 := m.q2, m.left, m.q3, m.q4, m.right, m.q5, m.q6;
      TwoChildrenShaped(Minus, text, q2, left, q3, q4, right, q5);
    }
  }

  lemma {:induction false} IsZeroShaped(text: string, q1: seq<Token>)
    ensures var r := ParseIsZero(text, q1);
      r.Ok? ==> Shaped(r.value.0) && r.value.0.kind == IsZero && r.value.0.text == text
    decreases |q1|, 4
  {
    var e2 := Expect(q1, LParen, true, ExpectLParen);
    if e2.Ok? {
      ParsedShaped(e2.value);
    }
  }

  lemma {:induction false} IfShaped(text: string, q1: seq<Token>)
    ensures var r := ParseIf(text, q1);
      r.Ok? ==> Shaped(r.value.0) && r.value.0.kind == If && r.value.0.text == text
    decreases |q1|, 4
  {
    if ParseIf(text, q1).Ok? {
      var t := IfParts(text, q1);
      var q2, test, q3, q4, yes, q5, q6, no, q7 := t.q2, t.first, t.q3, t.q4, t.second, t.q5, t.q6, t.third, t.q7;
      var n := Node(If, false, text, [test, yes, no], []);
      assert ParseIf(text, q1).value.0 == n;
      ThreeChildrenShaped(If, text, q2, test, q3, q4, yes, q5, q6, no, q7);
    }
  }

  lemma {:induction false} LetShaped(text: string, q1: seq<Token>)
    ensures var r := ParseLet(text, q1);
      r.Ok? ==> Shaped(r.value.0) && r.value.0.kind == Let && r.value.0.text == text
    decreases |q1|, 4
  {
    if ParseLet(text, q1).Ok? {
      var t := LetParts(text, q1);
      var q2, id, q3, q4, bound, q5, q6, body, q7 := t.q2, t.first, t.q3, t.q4, t.second, t.q5, t.q6, t.third, t.q7;
      ThreeChildrenShaped(Let, text, q2, id, q3, q4, bound, q5, q6, body, q7);
    }
  }

  lemma TwoChildrenShaped(k: Kind, text: string, q2: seq<Token>, left: Node, q3: seq<Token>,
                           q4: seq<Token>, right: Node, q5: seq<Token>)
    requires Arity(k) == 2 && |q4| <= |q2|
    requires ParseExpr(q2) == Ok((left, q3)) && ParseExpr(q4) == Ok((right, q5))
    ensures Shaped(Node(k, false, text, [left, right], []))
    decreases |q2|, 3
  {
    ChildShaped(q2, left, q3);
    ChildShaped(q4, right, q5);
    ShapedTwo(k, text, left, right);
  }

  lemma ThreeChildrenShaped(k: Kind, text: string, q2: seq<Token>, c0: Node, q3: seq<Token>,
                            q4: seq<Token>, c1: Node, q5: seq<Token>, q6: seq<Token>, c2: Node, q7: seq<Token>)
    requires Arity(k) == 3 && |q4| <= |q2| && |q6| <= |q2|
    requires ParseExpr(q2) == Ok((c0, q3)) && ParseExpr(q4) == Ok((c1, q5)) && ParseExpr(q6) == Ok((c2, q7))
    requires k == If ==> |q2| > 0 && q2[0].kind == IsZero
    requires k == Let ==> |q2| > 0 && q2[0].kind == Identifier
    ensures Shaped(Node(k, false, text, [c0, c1, c2], []))
    decreases |q2|, 3
  {
    ChildShaped(q2, c0, q3);
    ChildShaped(q4, c1, q5);
    ChildShaped(q6, c2, q7);
    ShapedThree(k, text, c0, c1, c2);
  }

  /** One level of Shaped, for a node of two well-shaped children. */
  lemma ShapedTwo(k: Kind, text: string, c0: Node, c1: Node)
    requires Arity(k) == 2 && Shaped(c0) && Shaped(c1)
    ensures Shaped(Node(k, false, text, [c0, c1], []))
  {
    var n := Node(k, false, text, [c0, c1], []);
    assert forall i | 0 <= i < 2 :: n.children[i] == c0 || n.children[i] == c1;
  }

  /** One level of Shaped, for a node of three well-shaped children whose
      first child suits an if or a let. */
  lemma ShapedThree(k: Kind, text: string, c0: Node, c1: Node, c2: Node)
    requires Arity(k) == 3 && Shaped(c0) && Shaped(c1) && Shaped(c2)
    requires k == If ==> c0.kind == IsZero
    requires k == Let ==> c0.kind == Identifier
    ensures Shaped(Node(k, false, text, [c0, c1, c2], []))
  {
    var n := Node(k, false, text, [c0, c1, c2], []);
    assert forall i | 0 <= i < 3 :: n.children[i] == c0 || n.children[i] == c1 || n.children[i] == c2;
  }

  // ---------------------------------------------------------------------------
  // Printing a tree back as tokens.

  /** The token a separator kind is written with. */
  function Canonical(k: Kind): Token
    requires IsKeyword(k) || IsPunctuation(k)
  {
    Token(k, if IsKeyword(k) then Spelling(k) else PunctuationSpelling(k))
  }

  /** The tokens of a well-shaped tree, followed by rest. Separators are
      written in their canonical spelling. */
  function UnparseOnto(n: Node, rest: seq<Token>): (r: seq<Token>)
    requires Shaped(n)
    ensures |r| > |rest| && r[0] == Token(n.kind, n.text)
    decreases n
  {
    var head := Token(n.kind, n.text);
    match n.kind
    case Minus =>
      [head, Canonical(LParen)]
      + UnparseOnto(n.children[0], [Canonical(Comma)]
      + UnparseOnto(n.children[1], [Canonical(RParen)] + rest))
    case IsZero =>
      [head, Canonical(LParen)] + UnparseOnto(n.children[0], [Canonical(RParen)] + rest)
    case If =>
      [head]
      + UnparseOnto(n.children[0], [Canonical(Then)]
      + UnparseOnto(n.children[1], [Canonical(Else)]
      + UnparseOnto(n.children[2], rest)))
    case Let =>
      [head]
      + UnparseOnto(n.children[0], [Canonical(Equals)]
      + UnparseOnto(n.children[1], [Canonical(In)]
      + UnparseOnto(n.children[2], rest)))
    case _ => [head] + rest
  }

  /** A well-shaped compound node is its kind, text and children put
      together. */
  lemma Rebuild(n: Node)
    requires Shaped(n) && Arity(n.kind) > 0
    ensures Arity(n.kind) == 1 ==> n == Node(n.kind, false, n.text, [n.children[0]], [])
    ensures Arity(n.kind) == 2 ==> n == Node(n.kind, false, n.text, [n.children[0], n.children[1]], [])
    ensures Arity(n.kind) == 3 ==>
      n == Node(n.kind, false, n.text, [n.children[0], n.children[1], n.children[2]], [])
  {
  }

  // The printed tokens of each compound form after its head token.

  lemma MinusPrinted(n: Node, rest: seq<Token>)
    requires Shaped(n) && n.kind == Minus
    ensures UnparseOnto(n, rest)[1..]
            == [Canonical(LParen)] + UnparseOnto(n.children[0], [Canonical(Comma)]
               + UnparseOnto(n.children[1], [Canonical(RParen)] + rest))
  {
  }

  lemma IsZeroPrinted(n: Node, rest: seq<Token>)
    requires Shaped(n) && n.kind == IsZero
    ensures UnparseOnto(n, rest)[1..]
            == [Canonical(LParen)] + UnparseOnto(n.children[0], [Canonical(RParen)] + rest)
  {
  }

  lemma IfPrinted(n: Node, rest: seq<Token>)
    requires Shaped(n) && n.kind == If
    ensures UnparseOnto(n, rest)[1..]
            == UnparseOnto(n.children[0], [Canonical(Then)] + UnparseOnto(n.children[1], [Canonical(Else)]
               + UnparseOnto(n.children[2], rest)))
  {
  }

  lemma LetPrinted(n: Node, rest: seq<Token>)
    requires Shaped(n) && n.kind == Let
    ensures UnparseOnto(n, rest)[1..]
            == UnparseOnto(n.children[0], [Canonical(Equals)] + UnparseOnto(n.children[1], [Canonical(In)]
               + UnparseOnto(n.children[2], rest)))
  {
  }

  /** Parsing the printed tokens of a well-shaped tree gives the tree back
      and leaves whatever followed untouched. */
  lemma {:induction false} ParseUnparse(n: Node, rest: seq<Token>)
    requires Shaped(n)
    ensures ParseExpr(UnparseOnto(n, rest)) == Ok((n, rest))
    decreases n, 1
  {
    var q := UnparseOnto(n, rest);
    match n.kind
    case Minus => MinusUnparse(n, rest);
    case IsZero => IsZeroUnparse(n, rest);
    case If => IfUnparse(n, rest);
    case Let => LetUnparse(n, rest);
    case _ =>
      assert q == [Token(n.kind, n.text)] + rest;
      assert n == Node(n.kind, true, n.text, [], []);
  }

  lemma {:induction false} MinusUnparse(n: Node, rest: seq<Token>)
    requires Shaped(n) && n.kind == Minus
    ensures var q := UnparseOnto(n, rest); ParseMinus(n.text, q[1..]) == Ok((n, rest))
    decreases n, 0
  {
    var c0 := n.children[0];
    var c1 := n.children[1];
    var q5 := [Canonical(RParen)] + rest;
    var q4 := UnparseOnto(c1, q5);
    var q3 := [Canonical(Comma)] + q4;
    var q2 := UnparseOnto(c0, q3);
    var q1 := [Canonical(LParen)] + q2;
    MinusPrinted(n, rest);
    assert Expect(q1, LParen, true, ExpectLParen) == Ok(q2);
    assert Expect(q3, Comma, true, ExpectComma) == Ok(q4);
    assert Expect(q5, RParen, true, ExpectRParen) == Ok(rest);
    ParseUnparse(c0, q3);
    ParseUnparse(c1, q5);
    MinusSteps(n.text, q1, q2, c0, q3, q4, c1, q5, rest);
    Rebuild(n);
  }

  lemma {:induction false} IsZeroUnparse(n: Node, rest: seq<Token>)
    requires Shaped(n) && n.kind == IsZero
    ensures var q := UnparseOnto(n, rest); ParseIsZero(n.text, q[1..]) == Ok((n, rest))
    decreases n, 0
  {
    var c0 := n.children[0];
    var q3 := [Canonical(RParen)] + rest;
    var q2 := UnparseOnto(c0, q3);
    var q1 := [Canonical(LParen)] + q2;
    IsZeroPrinted(n, rest);
    assert Expect(q1, LParen, true, ExpectLParen) == Ok(q2);
    assert Expect(q3, RParen, true, ExpectRParen) == Ok(rest);
    ParseUnparse(c0, q3);
    IsZeroSteps(n.text, q1, q2, c0, q3, rest);
    Rebuild(n);
  }

  lemma {:induction false} IfUnparse(n: Node, rest: seq<Token>)
    requires Shaped(n) && n.kind == If
    ensures var q := UnparseOnto(n, rest); ParseIf(n.text, q[1..]) == Ok((n, rest))
    decreases n, 0
  {
    var c0 := n.children[0];
    var c1 := n.children[1];
    var c2 := n.children[2];
    var q6 := UnparseOnto(c2, rest);
    var q5 := [Canonical(Else)] + q6;
    var q4 := UnparseOnto(c1, q5);
    var q3 := [Canonical(Then)] + q4;
    var q1 := UnparseOnto(c0, q3);
    IfPrinted(n, rest);
    assert q1[0].kind == IsZero;
    assert Expect(q1, IsZero, false, ExpectIsZero) == Ok(q1);
    assert Expect(q3, Then, true, ExpectThen) == Ok(q4);
    assert Expect(q5, Else, true, ExpectElse) == Ok(q6);
    ParseUnparse(c0, q3);
    ParseUnparse(c1, q5);
    ParseUnparse(c2, rest);
    IfSteps(n.text, q1, q1, c0, q3, q4, c1, q5, q6, c2, rest);
    Rebuild(n);
  }

  lemma {:induction false} LetUnparse(n: Node, rest: seq<Token>)
    requires Shaped(n) && n.kind == Let
    ensures var q := UnparseOnto(n, rest); ParseLet(n.text, q[1..]) == Ok((n, rest))
    decreases n, 0
  {
    var c0 := n.children[0];
    var c1 := n.children[1];
    var c2 := n.children[2];
    var q6 := UnparseOnto(c2, rest);
    var q5 := [Canonical(In)] + q6;
    var q4 := UnparseOnto(c1, q5);
    var q3 := [Canonical(Equals)] + q4;
    var q1 := UnparseOnto(c0, q3);
    LetPrinted(n, rest);
    assert q1[0].kind == Identifier;
    assert Expect(q1, Identifier, false, ExpectIdentifier) == Ok(q1);
    assert Expect(q3, Equals, true, ExpectEquals) == Ok(q4);
    assert Expect(q5, In, true, ExpectIn) == Ok(q6);
    ParseUnparse(c0, q3);
    ParseUnparse(c1, q5);
    ParseUnparse(c2, rest);
    LetSteps(n.text, q1, q1, c0, q3, q4, c1, q5, q6, c2, rest);
    Rebuild(n);
  }

  // ---------------------------------------------------------------------------
  // The parser only ever consumes from the front of the queue.

  /** r is what is left of q after dropping a prefix. */
  predicate IsSuffix(r: seq<Token>, q: seq<Token>) {
    |r| <= |q| && r == q[|q| - |r|..]
  }

  lemma SuffixTrans(a: seq<Token>, b: seq<Token>, c: seq<Token>)
    requires IsSuffix(a, b) && IsSuffix(b, c)
    ensures IsSuffix(a, c)
  {
    assert c[|c| - |b|..][|b| - |a|..] == c[|c| - |a|..];
  }

  /** Dropping the head token, or nothing, leaves a suffix. */
  lemma ExpectSuffix(q: seq<Token>, tt: Kind, advance: bool, err: string)
    requires Expect(q, tt, advance, err).Ok?
    ensures IsSuffix(Expect(q, tt, advance, err).value, q)
  {
    if advance {
      assert q[1..] == q[|q| - |q[1..]|..];
    } else {
      assert q == q[0..];
    }
  }

  /** A successful parse leaves a suffix of its input: the tokens of the
      expression are taken from the front and nothing else is touched. */
  lemma {:induction false} ParseConsumes(q: seq<Token>)
    ensures var r := ParseExpr(q); r.Ok? ==> IsSuffix(r.value.1, q)
    decreases |q|, 1
  {
    if ParseExpr(q).Ok? {
      var tok, q1 := q[0], q[1..];
      assert IsSuffix(q1, q) by { assert q1 == q[|q| - |q1|..]; }
      match tok.kind
      case Minus => MinusConsumes(tok.text, q1); SuffixTrans(ParseExpr(q).value.1, q1, q);
      case IsZero => IsZeroConsumes(tok.text, q1); SuffixTrans(ParseExpr(q).value.1, q1, q);
      case If => IfConsumes(tok.text, q1); SuffixTrans(ParseExpr(q).value.1, q1, q);
      case Let => LetConsumes(tok.text, q1); SuffixTrans(ParseExpr(q).value.1, q1, q);
      case _ =>
    }
  }

  lemma ChildConsumes(q: seq<Token>, n: Node, rest: seq<Token>)
    requires ParseExpr(q) == Ok((n, rest))
    ensures IsSuffix(rest, q)
    decreases |q|, 2
  {
    ParseConsumes(q);
  }

  lemma {:induction false} MinusConsumes(text: string, q1: seq<Token>)
    ensures var r := ParseMinus(text, q1); r.Ok? ==> IsSuffix(r.value.1, q1)
    decreases |q1|, 4
  {
    if ParseMinus(text, q1).Ok? {
      var m := MinusParts(text, q1);
      var q2, left, q3, q4, right, q5, q6 := m.q2, m.left, m.q3, m.q4, m.right, m.q5, m.q6;
      ExpectSuffix(q1, LParen, true, ExpectLParen);
      ChildConsumes(q2, left, q3);
      ExpectSuffix(q3, Comma, true, ExpectComma);
      ChildConsumes(q4, right, q5);
      ExpectSuffix(q5, RParen, true, ExpectRParen);
      SuffixTrans(q3, q2, q1);
      SuffixTrans(q4, q3, q1);
      SuffixTrans(q5, q4, q1);
      SuffixTrans(q6, q5, q1);
    }
  }

  lemma {:induction false} IsZeroConsumes(text: string, q1: seq<Token>)
    ensures var r := ParseIsZero(text, q1); r.Ok? ==> IsSuffix(r.value.1, q1)
    decreases |q1|, 4
  {
    var e2 := Expect(q1, LParen, true, ExpectLParen);
    if e2.Ok? {
      ExpectSuffix(q1, LParen, true, ExpectLParen);
      var q2 := e2.value;
      ParseConsumes(q2);
      var p := ParseExpr(q2);
      if p.Ok? {
        var q3 := p.value.1;
        SuffixTrans(q3, q2, q1);
        var e4 := Expect(q3, RParen, true, ExpectRParen);
        if e4.Ok? {
          ExpectSuffix(q3, RParen, true, ExpectRParen);
          SuffixTrans(e4.value, q3, q1);
        }
      }
    }
  }

  lemma {:induction false} IfConsumes(text: string, q1: seq<Token>)
    ensures var r := ParseIf(text, q1); r.Ok? ==> IsSuffix(r.value.1, q1)
    decreases |q1|, 4
  {
    if ParseIf(text, q1).Ok? {
      var t := IfParts(text, q1);
      var q2, test, q3, q4, yes, q5, q6, no, q7 := t.q2, t.first, t.q3, t.q4, t.second, t.q5, t.q6, t.third, t.q7;
      ThreeConsume(q2, test, q3, q4, yes, q5, q6, no, q7);
    }
  }

  lemma {:induction false} LetConsumes(text: string, q1: seq<Token>)
    ensures var r := ParseLet(text, q1); r.Ok? ==> IsSuffix(r.value.1, q1)
    decreases |q1|, 4
  {
    if ParseLet(text, q1).Ok? {
      var t := LetParts(text, q1);
      var q2, id, q3, q4, bound, q5, q6, body, q7 := t.q2, t.first, t.q3, t.q4, t.second, t.q5, t.q6, t.third, t.q7;
      ThreeConsume(q2, id, q3, q4, bound, q5, q6, body, q7);
    }
  }

  /** Three sub-expressions parsed in turn, separated by single tokens. */
  lemma ThreeConsume(q2: seq<Token>, c0: Node, q3: seq<Token>, q4: seq<Token>, c1: Node,
                     q5: seq<Token>, q6: seq<Token>, c2: Node, q7: seq<Token>)
    requires |q4| < |q3| < |q2| && |q6| < |q5| < |q4|
    requires ParseExpr(q2) == Ok((c0, q3)) && ParseExpr(q4) == Ok((c1, q5)) && ParseExpr(q6) == Ok((c2, q7))
    requires q3 == [q3[0]] + q4 && q5 == [q5[0]] + q6
    ensures IsSuffix(q7, q2)
    decreases |q2|, 3
  {
    ChildConsumes(q2, c0, q3);
    ChildConsumes(q4, c1, q5);
    ChildConsumes(q6, c2, q7);
    assert IsSuffix(q4, q3) by { assert q4 == q3[|q3| - |q4|..]; }
    assert IsSuffix(q6, q5) by { assert q6 == q5[|q5| - |q6|..]; }
    SuffixTrans(q4, q3, q2);
    SuffixTrans(q5, q4, q2);
    SuffixTrans(q6, q5, q2);
    SuffixTrans(q7, q6, q2);
  }

  // ---------------------------------------------------------------------------
  // Error cases and leaves.

  /** Parsing an empty queue is the out-of-range pop. */
  lemma EmptyQueue()
    ensures ParseExpr([]) == Err(IndexOutOfRange)
  {
  }

  /** A head token of a kind without children is a leaf on its own; the rest
      of the queue is not looked at. */
  lemma LeafToken(t: Token, q: seq<Token>)
    requires Arity(t.kind) == 0
    ensures ParseExpr([t] + q) == Ok((Node(t.kind, true, t.text, [], []), q))
  {
    assert ([t] + q)[1..] == q;
  }

  /** A parse call takes the head token and goes on after it. */
  lemma Dispatch(t: Token, q: seq<Token>)
    ensures ParseExpr([t] + q) == ParseAfter(t, q)
  {
    assert ([t] + q)[0] == t && ([t] + q)[1..] == q;
  }

  /** The form each compound head token goes on to parse. */
  lemma AfterForms(t: Token, q: seq<Token>)
    ensures t.kind == Minus ==> ParseAfter(t, q) == ParseMinus(t.text, q)
    ensures t.kind == IsZero ==> ParseAfter(t, q) == ParseIsZero(t.text, q)
    ensures t.kind == If ==> ParseAfter(t, q) == ParseIf(t.text, q)
    ensures t.kind == Let ==> ParseAfter(t, q) == ParseLet(t.text, q)
  {
  }

  /** An if whose next token is not iszero is rejected, and an accepted if
      starts its test with iszero. */
  lemma IfNeedsIsZero(text: string, q: seq<Token>)
    ensures Peek(q).0 != IsZero ==> ParseExpr([Token(If, text)] + q) == Err(UnexpectedToken(ExpectIsZero))
    ensures ParseExpr([Token(If, text)] + q).Ok? ==> |q| > 0 && q[0].kind == IsZero
  {
    Dispatch(Token(If, text), q);
    AfterForms(Token(If, text), q);
    IfRejects(text, q);
  }

  lemma IfRejects(text: string, q: seq<Token>)
    ensures Peek(q).0 != IsZero ==> ParseIf(text, q) == Err(UnexpectedToken(ExpectIsZero))
    ensures ParseIf(text, q).Ok? ==> |q| > 0 && q[0].kind == IsZero
  {
    if Peek(q).0 != IsZero {
      assert Expect(q, IsZero, false, ExpectIsZero) == Err(UnexpectedToken(ExpectIsZero));
    }
  }

  /** A let whose next token is not an identifier is rejected; an accepted
      let binds the identifier it starts with. */
  lemma LetNeedsIdentifier(text: string, q: seq<Token>)
    ensures Peek(q).0 != Identifier ==> ParseExpr([Token(Let, text)] + q) == Err(UnexpectedToken(ExpectIdentifier))
    ensures var r := ParseExpr([Token(Let, text)] + q);
      r.Ok? ==> |q| > 0 && |r.value.0.children| == 3 && r.value.0.children[0] == Node(Identifier, true, q[0].text, [], [])
  {
    Dispatch(Token(Let, text), q);
    AfterForms(Token(Let, text), q);
    LetRejects(text, q);
  }

  lemma LetRejects(text: string, q: seq<Token>)
    ensures Peek(q).0 != Identifier ==> ParseLet(text, q) == Err(UnexpectedToken(ExpectIdentifier))
    ensures var r := ParseLet(text, q);
      r.Ok? ==> |q| > 0 && |r.value.0.children| == 3 && r.value.0.children[0] == Node(Identifier, true, q[0].text, [], [])
  {
    if Peek(q).0 != Identifier {
      assert Expect(q, Identifier, false, ExpectIdentifier) == Err(UnexpectedToken(ExpectIdentifier));
    } else if ParseLet(text, q).Ok? {
      var t := LetParts(text, q);
      LeafFirst(q);
    }
  }

  /** An identifier at the head parses to a leaf of its text. */
  lemma LeafFirst(q: seq<Token>)
    requires |q| > 0 && q[0].kind == Identifier
    ensures ParseExpr(q) == Ok((Node(Identifier, true, q[0].text, [], []), q[1..]))
  {
  }

  /** A minus whose next token is not an opening parenthesis is rejected. */
  lemma MinusNeedsParen(text: string, q: seq<Token>)
    ensures Peek(q).0 != LParen ==> ParseExpr([Token(Minus, text)] + q) == Err(UnexpectedToken(ExpectLParen))
  {
    Dispatch(Token(Minus, text), q);
    AfterForms(Token(Minus, text), q);
    if Peek(q).0 != LParen {
      assert Expect(q, LParen, true, ExpectLParen) == Err(UnexpectedToken(ExpectLParen));
    }
  }
}
