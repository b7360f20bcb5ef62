/** The interpreter end to end, as its main program drives it: tokenize the
    whole text, parse one expression from the token queue, evaluate it
    under the empty environment. Reading the file and printing are not
    part of the model. */
module LetPipeline {
  import opened Results
  import opened Decimal
  import opened LetScanner
  import opened LetScannerFacts
  import opened LetParser
  import opened LetParserFacts
  import opened LetEvaluator
  import opened LetEvaluatorFacts

  /** Where the run stopped: the parser or the evaluator ending the
      process. */
  datatype Failure = ParseFailed(parseError: ParseError) | EvalFailed(evalError: EvalError)

  /** Parse one expression from the front of the queue and evaluate it;
      tokens after the expression are ignored. */
  function ParseAndEvaluate(tokens: seq<Token>): (r: Result<string, Failure>)
    ensures ParseExpr(tokens).Err? ==> r == Err(ParseFailed(ParseExpr(tokens).error))
    ensures ParseExpr(tokens).Ok? ==>
      var e := Evaluate(ParseExpr(tokens).value.0, []);
      (r.Ok? <==> e.Ok?) && (e.Ok? ==> r.value == e.value.0) && (e.Err? ==> r == Err(EvalFailed(e.error)))
  {
    match ParseExpr(tokens)
    case Err(pe) => Err(ParseFailed(pe))
    case Ok((n, _)) =>
      match Evaluate(n, [])
      case Err(ee) => Err(EvalFailed(ee))
      case Ok((v, _)) => Ok(v)
  }

  /** The value the interpreter prints for a program text. */
  function Interpret(text: string, v: Variant): Result<string, Failure> {
    ParseAndEvaluate(Tokenize(text, v))
  }

  /** main: tokenize, parse, evaluate, with the objects of each stage. */
  method Run(text: string) returns (r: Result<string, Failure>)
    ensures r == Interpret(text, AsWritten)
  {
    var tokens := TokenizeAll(text);
    var root := ParseInput(tokens);
    if root.Err? {
      return Err(ParseFailed(root.error));
    }
    var evaluator := new Evaluator(root.value);
    var value := evaluator.Eval();
    if value.Err? {
      return Err(EvalFailed(value.error));
    }
    return Ok(value.value);
  }

  /** Given the printed tokens of any well-shaped tree with digit literals,
      followed by anything at all, the interpreter computes the tree's
      typed meaning under the empty environment, and fails only on a
      non-integer operand. */
  lemma PrintedTreeMeaning(n: Node, rest: seq<Token>)
    requires Shaped(n) && Literals(n)
    ensures var r := ParseAndEvaluate(UnparseOnto(n, rest)); var d := Denote(n, map[]);
      (r.Ok? <==> d.Some?) && (r.Ok? ==> Decode(r.value) == d.value)
      && (r.Err? ==> r.error.EvalFailed? && r.error.evalError.NotAnInteger?)
  {
    ParseUnparse(n, rest);
    EvaluateAgrees(n, []);
    assert DecodeEnv([]) == map[];
  }

  /** For any program text: when it parses, the tree is well shaped and the
      interpreter computes its typed meaning under the empty environment,
      failing only on a non-integer operand; otherwise the run stops with
      the parse error. */
  lemma InterpretMeaning(text: string, v: Variant)
    ensures var p := ParseExpr(Tokenize(text, v)); var r := Interpret(text, v);
      (p.Err? ==> r == Err(ParseFailed(p.error)))
      && (p.Ok? ==>
            Shaped(p.value.0) && Literals(p.value.0)
            && var d := Denote(p.value.0, map[]);
            (r.Ok? <==> d.Some?) && (r.Ok? ==> Decode(r.value) == d.value)
            && (r.Err? ==> r.error.EvalFailed? && r.error.evalError.NotAnInteger?))
  {
    var ts := Tokenize(text, v);
    TokenizeShape(text, v);
    assert DigitTokens(ts) by {
      forall i | 0 <= i < |ts| && ts[i].kind == Integer
        ensures |ts[i].text| > 0 && AllDigits(ts[i].text)
      {
        assert i < |ts| - 1;
        assert WellFormed(ts[i]);
      }
    }
    if ParseExpr(ts).Ok? {
      ParsedShaped(ts);
      ParsedLiterals(ts);
      EvaluateAgrees(ParseExpr(ts).value.0, []);
      assert DecodeEnv([]) == map[];
    }
  }

  // ---------------------------------------------------------------------------
  // Worked programs, given as the token queues the scanner produces.

  function Tok(k: Kind): Token
    requires IsKeyword(k) || IsPunctuation(k)
  {
    Canonical(k)
  }

  const EndMarker := Token(EOF, "EOF")

  function Leaf(k: Kind, text: string): Node {
    Node(k, true, text, [], [])
  }

  /** let x = 1 in let x = 2 in x: the inner binding shadows the outer. */
  lemma Shadowing()
    ensures ParseAndEvaluate([Tok(Let), Token(Identifier, "x"), Tok(Equals), Token(Integer, "1"), Tok(In),
                              Tok(Let), Token(Identifier, "x"), Tok(Equals), Token(Integer, "2"), Tok(In),
                              Token(Identifier, "x"), EndMarker]) == Ok("2")
  {
    var n := NestedLets();
    var q := [Tok(Let), Token(Identifier, "x"), Tok(Equals), Token(Integer, "1"), Tok(In),
              Tok(Let), Token(Identifier, "x"), Tok(Equals), Token(Integer, "2"), Tok(In),
              Token(Identifier, "x"), EndMarker];
    NestedLetsPrinted();
    ParseUnparse(n, [EndMarker]);
    assert ParseExpr(q) == Ok((n, [EndMarker]));
    NestedLetsValue();
  }

  function NestedLets(): (n: Node)
    ensures Shaped(n)
  {
    var x := Leaf(Identifier, "x");
    var inner := Node(Let, false, "let", [x, Leaf(Integer, "2"), x], []);
    assert Shaped(inner);
    Node(Let, false, "let", [x, Leaf(Integer, "1"), inner], [])
  }

  lemma NestedLetsPrinted()
    ensures UnparseOnto(NestedLets(), [EndMarker])
         == [Tok(Let), Token(Identifier, "x"), Tok(Equals), Token(Integer, "1"), Tok(In),
             Tok(Let), Token(Identifier, "x"), Tok(Equals), Token(Integer, "2"), Tok(In),
             Token(Identifier, "x"), EndMarker]
  {
  }

  lemma NestedLetsValue()
    ensures Evaluate(NestedLets(), []).Ok? && Evaluate(NestedLets(), []).value.0 == "2"
  {
    var b1 := [Binding("x", "1")];
    LookupShadowed(b1, "x", "2");
  }

  /** minus(2, 7) is -5: subtraction is not clamped at zero. */
  lemma NegativeDifference()
    ensures ParseAndEvaluate([Tok(Minus), Tok(LParen), Token(Integer, "2"), Tok(Comma), Token(Integer, "7"),
                              Tok(RParen), EndMarker]) == Ok("-5")
  {
    var n := TwoMinusSeven();
    var q := [Tok(Minus), Tok(LParen), Token(Integer, "2"), Tok(Comma), Token(Integer, "7"),
              Tok(RParen), EndMarker];
    TwoMinusSevenPrinted();
    ParseUnparse(n, [EndMarker]);
    assert ParseExpr(q) == Ok((n, [EndMarker]));
    TwoMinusSevenValue();
  }

  function TwoMinusSeven(): (n: Node)
    ensures Shaped(n)
  {
    Node(Minus, false, "minus", [Leaf(Integer, "2"), Leaf(Integer, "7")], [])
  }

  lemma TwoMinusSevenPrinted()
    ensures UnparseOnto(TwoMinusSeven(), [EndMarker])
         == [Tok(Minus), Tok(LParen), Token(Integer, "2"), Tok(Comma), Token(Integer, "7"),
             Tok(RParen), EndMarker]
  {
  }

  lemma TwoMinusSevenValue()
    ensures Evaluate(TwoMinusSeven(), []).Ok? && Evaluate(TwoMinusSeven(), []).value.0 == "-5"
  {
    assert Atoi("2") == Some(2) && Atoi("7") == Some(7);
    assert DigitChar(5) == '5';
  }

  /** An integer literal evaluates to its own text, leading zeros and all. */
  lemma LiteralTextKept()
    ensures ParseAndEvaluate([Token(Integer, "007"), EndMarker]) == Ok("007")
  {
    LeafToken(Token(Integer, "007"), [EndMarker]);
  }

  /** if minus(1, 1) then 1 else 2 is rejected by the parser: the test of an
      if must start with iszero. */
  lemma IfTestMustBeIsZero()
    ensures ParseAndEvaluate(IfOnMinus()) == Err(ParseFailed(UnexpectedToken(ExpectIsZero)))
  {
    var q := IfOnMinus()[1..];
    assert Peek(q).0 == Minus;
    IfNeedsIsZero(Tok(If).text, q);
    assert [Tok(If)] + q == IfOnMinus();
  }

  function IfOnMinus(): seq<Token> {
    [Tok(If), Tok(Minus), Tok(LParen), Token(Integer, "1"), Tok(Comma), Token(Integer, "1"), Tok(RParen),
     Tok(Then), Token(Integer, "1"), Tok(Else), Token(Integer, "2"), EndMarker]
  }

  /** iszero of a boolean ends the run: booleans are not integers. */
  lemma IsZeroOfBoolean()
    ensures ParseAndEvaluate([Tok(IsZero), Tok(LParen), Tok(IsZero), Tok(LParen), Token(Integer, "0"),
                              Tok(RParen), Tok(RParen), EndMarker])
            == Err(EvalFailed(NotAnInteger("true")))
  {
    var n := DoubleIsZero();
    var q := [Tok(IsZero), Tok(LParen), Tok(IsZero), Tok(LParen), Token(Integer, "0"),
              Tok(RParen), Tok(RParen), EndMarker];
    DoubleIsZeroPrinted();
    ParseUnparse(n, [EndMarker]);
    assert ParseExpr(q) == Ok((n, [EndMarker]));
    DoubleIsZeroFails();
  }

  function DoubleIsZero(): (n: Node)
    ensures Shaped(n)
  {
    Node(IsZero, false, "iszero", [Node(IsZero, false, "iszero", [Leaf(Integer, "0")], [])], [])
  }

  lemma DoubleIsZeroPrinted()
    ensures UnparseOnto(DoubleIsZero(), [EndMarker])
         == [Tok(IsZero), Tok(LParen), Tok(IsZero), Tok(LParen), Token(Integer, "0"),
             Tok(RParen), Tok(RParen), EndMarker]
  {
  }

  lemma DoubleIsZeroFails()
    ensures Evaluate(DoubleIsZero(), []) == Err(NotAnInteger("true"))
  {
    assert Atoi("0") == Some(0);
    BooleansAreNotIntegers(true);
  }

  /** let x = 1 in x, or any text with the same non-blank characters: as
      written the scanner loses the final single-letter x, the let parses
      the end marker as its body and the program prints nothing; with the
      last letter kept it prints 1. */
  lemma LetX(text: string)
    requires Rest(text, 0) == "letx=1inx"
    ensures Interpret(text, AsWritten) == Ok("")
    ensures Interpret(text, Intended) == Ok("1")
  {
    LetXTokenize(text);
    assert Tok(Let) == Token(Let, "let") && Tok(Equals) == Token(Equals, "=") && Tok(In) == Token(In, "in");
    assert Tokenize(text, AsWritten) == LetXQueue + [EndMarker];
    assert Tokenize(text, Intended) == LetXQueue + [Token(Identifier, "x"), EndMarker];
    LetXCut();
    LetXFull();
  }

  /** The same program written without blanks. */
  lemma LetXUnspaced()
    ensures Interpret("letx=1inx", AsWritten) == Ok("")
    ensures Interpret("letx=1inx", Intended) == Ok("1")
  {
    var t := "letx=1inx";
    assert t[0..] == t;
    NonBlankKeeps(t);
    LetX(t);
  }

  const LetXQueue := [Tok(Let), Token(Identifier, "x"), Tok(Equals), Token(Integer, "1"), Tok(In)]

  /** The queue as written: the let's body is the end marker, which
      evaluates to nothing. */
  lemma LetXCut()
    ensures ParseAndEvaluate(LetXQueue + [EndMarker]) == Ok("")
  {
    var n := LetOneIn(EOF, "EOF");
    LetOneInPrinted(EOF, "EOF", []);
    assert LetXQueue + [EndMarker] + [] == LetXQueue + [EndMarker];
    ParseUnparse(n, []);
    assert ParseExpr(LetXQueue + [EndMarker]) == Ok((n, []));
    assert Evaluate(n, []).value.0 == "";
  }

  /** The queue as intended: the body is x, bound to 1. */
  lemma LetXFull()
    ensures ParseAndEvaluate(LetXQueue + [Token(Identifier, "x"), EndMarker]) == Ok("1")
  {
    var n := LetOneIn(Identifier, "x");
    LetOneInPrinted(Identifier, "x", [EndMarker]);
    assert LetXQueue + [Token(Identifier, "x")] + [EndMarker] == LetXQueue + [Token(Identifier, "x"), EndMarker];
    ParseUnparse(n, [EndMarker]);
    assert ParseExpr(LetXQueue + [Token(Identifier, "x"), EndMarker]) == Ok((n, [EndMarker]));
    LookupShadowed([], "x", "1");
    assert Evaluate(n, []).value.0 == "1";
  }

  /** let x = 1 in a leaf body. */
  function LetOneIn(k: Kind, text: string): (n: Node)
    requires Arity(k) == 0
    ensures Shaped(n)
  {
    Node(Let, false, "let", [Leaf(Identifier, "x"), Leaf(Integer, "1"), Leaf(k, text)], [])
  }

  lemma LetOneInPrinted(k: Kind, text: string, rest: seq<Token>)
    requires Arity(k) == 0
    ensures UnparseOnto(LetOneIn(k, text), rest) == LetXQueue + [Token(k, text)] + rest
  {
  }
}
