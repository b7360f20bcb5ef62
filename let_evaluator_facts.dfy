/** What the evaluator guarantees: it only records environments on the tree,
    it agrees with a typed reference semantics of LET over a map
    environment, and the per-form behaviour (one branch of an if, the
    binding name of a let never evaluated, minus and iszero on integers). */
module LetEvaluatorFacts {
  import opened Results
  import opened Decimal
  import opened LetScanner
  import opened LetParser
  import opened LetEvaluator
  import opened LetParserFacts

  // ---------------------------------------------------------------------------
  // Evaluation changes nothing but recorded environments.

  /** Replacing a child by one that differs only in recorded environments
      leaves the stripped tree as it was. */
  lemma StripReplace(n: Node, i: nat, c: Node, b: seq<Binding>)
    requires i < |n.children| && Strip(c) == Strip(n.children[i])
    ensures Strip(n.(env := b, children := n.children[i := c])) == Strip(n)
  {
    var m := n.(env := b, children := n.children[i := c]);
    assert Strip(m).children == Strip(n).children by {
      forall j | 0 <= j < |n.children|
        ensures Strip(m).children[j] == Strip(n).children[j]
      {
        if j == i {
          assert Strip(m).children[j] == Strip(c);
        }
      }
    }
  }

  /** A successful evaluation returns the same tree, with the environment of
      every visited node recorded and nothing else changed. */
  lemma {:induction false} OnlyEnvironmentsChange(n: Node, b: seq<Binding>)
    ensures var r := Evaluate(n, b); r.Ok? ==> Strip(r.value.1) == Strip(n)
    decreases n, 1
  {
    var r := Evaluate(n, b);
    if r.Ok? {
      match n.kind
      case Let => LetKeepsTree(n, b);
      case Minus => MinusKeepsTree(n, b);
      case IsZero =>
        OnlyEnvironmentsChange(n.children[0], b);
        StripReplace(n, 0, Evaluate(n.children[0], b).value.1, b);
      case If => IfKeepsTree(n, b);
      case _ =>
        assert Strip(r.value.1).children == Strip(n).children;
    }
  }

  lemma {:induction false} LetKeepsTree(n: Node, b: seq<Binding>)
    requires n.kind == Let
    ensures var r := Evaluate(n, b); r.Ok? ==> Strip(r.value.1) == Strip(n)
    decreases n, 0
  {
    var r := Evaluate(n, b);
    if r.Ok? {
      var name := n.children[0].text;
      var e1 := Evaluate(n.children[1], b);
      var e2 := Evaluate(n.children[2], b + [Binding(name, e1.value.0)]);
      OnlyEnvironmentsChange(n.children[1], b);
      OnlyEnvironmentsChange(n.children[2], b + [Binding(name, e1.value.0)]);
      var m := n.(env := b, children := n.children[1 := e1.value.1]);
      StripReplace(n, 1, e1.value.1, b);
      StripReplace(m, 2, e2.value.1, b);
      assert r.value.1 == m.(env := b, children := m.children[2 := e2.value.1]);
    }
  }

  lemma {:induction false} MinusKeepsTree(n: Node, b: seq<Binding>)
    requires n.kind == Minus
    ensures var r := Evaluate(n, b); r.Ok? ==> Strip(r.value.1) == Strip(n)
    decreases n, 0
  {
    var r := Evaluate(n, b);
    if r.Ok? {
      var e1 := Evaluate(n.children[0], b);
      var e2 := Evaluate(n.children[1], b);
      OnlyEnvironmentsChange(n.children[0], b);
      OnlyEnvironmentsChange(n.children[1], b);
      var m := n.(env := b, children := n.children[0 := e1.value.1]);
      StripReplace(n, 0, e1.value.1, b);
      StripReplace(m, 1, e2.value.1, b);
      assert r.value.1 == m.(env := b, children := m.children[1 := e2.value.1]);
    }
  }

  lemma {:induction false} IfKeepsTree(n: Node, b: seq<Binding>)
    requires n.kind == If
    ensures var r := Evaluate(n, b); r.Ok? ==> Strip(r.value.1) == Strip(n)
    decreases n, 0
  {
    var r := Evaluate(n, b);
    if r.Ok? {
      var e0 := Evaluate(n.children[0], b);
      OnlyEnvironmentsChange(n.children[0], b);
      var m := n.(env := b, children := n.children[0 := e0.value.1]);
      StripReplace(n, 0, e0.value.1, b);
      var j := if e0.value.0 == "true" then 1 else 2;
      var ej := Evaluate(n.children[j], b);
      OnlyEnvironmentsChange(n.children[j], b);
      StripReplace(m, j, ej.value.1, b);
      assert r.value.1 == m.(env := b, children := m.children[j := ej.value.1]);
    }
  }

  // ---------------------------------------------------------------------------
  // Per-form behaviour.

  /** The name a let binds is read from its first child, which is never
      evaluated and so records no environment; the body sees the name bound
      to the value of the bound expression, shadowing any earlier binding. */
  lemma LetBinds(n: Node, b: seq<Binding>)
    requires n.kind == Let && |n.children| == 3
    ensures var r := Evaluate(n, b); var e1 := Evaluate(n.children[1], b);
      r.Ok? ==> (e1.Ok? && r.value.1.children[0] == n.children[0]
                 && r == Ok((Evaluate(n.children[2], b + [Binding(n.children[0].text, e1.value.0)]).value.0, r.value.1)))
    ensures var e1 := Evaluate(n.children[1], b);
      e1.Ok? ==> LookupBinding(b + [Binding(n.children[0].text, e1.value.0)], n.children[0].text) == e1.value.0
    ensures var r := Evaluate(n, b); var e1 := Evaluate(n.children[1], b);
      r.Ok? ==> r.value.1.children[1].env == b
                && r.value.1.children[2].env == b + [Binding(n.children[0].text, e1.value.0)]
  {
    var e1 := Evaluate(n.children[1], b);
    if e1.Ok? {
      LookupShadowed(b, n.children[0].text, e1.value.0);
    }
  }

  /** Only one branch of an if is evaluated: the second child when the test
      yields "true", the third otherwise; the other branch is left as it
      was. */
  lemma IfOneBranch(n: Node, b: seq<Binding>)
    requires n.kind == If && |n.children| == 3
    ensures var r := Evaluate(n, b); var t := Evaluate(n.children[0], b);
      r.Ok? ==> (t.Ok?
                 && (t.value.0 == "true" ==> r.value.0 == Evaluate(n.children[1], b).value.0
                                             && r.value.1.children[2] == n.children[2])
                 && (t.value.0 != "true" ==> r.value.0 == Evaluate(n.children[2], b).value.0
                                             && r.value.1.children[1] == n.children[1]))
  {
  }

  /** minus is integer subtraction of its operands' values, without any
      clamping; an operand that is not an integer is an error. */
  lemma MinusSubtracts(n: Node, b: seq<Binding>)
    requires n.kind == Minus && |n.children| == 2
    ensures var r := Evaluate(n, b);
      var e1 := Evaluate(n.children[0], b); var e2 := Evaluate(n.children[1], b);
      r.Ok? <==> e1.Ok? && e2.Ok? && Atoi(e1.value.0).Some? && Atoi(e2.value.0).Some?
    ensures var r := Evaluate(n, b);
      var e1 := Evaluate(n.children[0], b); var e2 := Evaluate(n.children[1], b);
      r.Ok? ==> Atoi(r.value.0) == Some(Atoi(e1.value.0).value - Atoi(e2.value.0).value)
    ensures var e1 := Evaluate(n.children[0], b);
      e1.Ok? && Atoi(e1.value.0).None? ==> Evaluate(n, b) == Err(NotAnInteger(e1.value.0))
  {
    var e1 := Evaluate(n.children[0], b);
    var e2 := Evaluate(n.children[1], b);
    if e1.Ok? && e2.Ok? && Atoi(e1.value.0).Some? && Atoi(e2.value.0).Some? {
      AtoiItoa(Atoi(e1.value.0).value - Atoi(e2.value.0).value);
    }
  }

  /** iszero yields "true" exactly when its operand's value is the integer
      0, and "false" for any other integer; anything else is an error. */
  lemma IsZeroTests(n: Node, b: seq<Binding>)
    requires n.kind == IsZero && |n.children| == 1
    ensures var r := Evaluate(n, b); var e := Evaluate(n.children[0], b);
      r.Ok? <==> e.Ok? && Atoi(e.value.0).Some?
    ensures var r := Evaluate(n, b); var e := Evaluate(n.children[0], b);
      r.Ok? ==> ((r.value.0 == "true" <==> Atoi(e.value.0) == Some(0))
                 && (r.value.0 == "true" || r.value.0 == "false"))
  {
  }

  /** A node of a kind without children evaluates to its literal text
      when it is an integer, to its binding when it is an identifier, and to
      "" otherwise; it records the environment and changes nothing else. */
  lemma LeafValues(n: Node, b: seq<Binding>)
    requires Arity(n.kind) == 0
    ensures var r := Evaluate(n, b); r.Ok? && r.value.1 == n.(env := b)
    ensures n.kind == Integer ==> Evaluate(n, b).value.0 == n.text
    ensures n.kind == Identifier ==> Evaluate(n, b).value.0 == LookupBinding(b, n.text)
    ensures n.kind != Integer && n.kind != Identifier ==> Evaluate(n, b).value.0 == ""
  {
  }

  /** The booleans iszero produces are not integers, so feeding one to
      minus or iszero ends the evaluation. */
  lemma BooleansAreNotIntegers(v: bool)
    ensures Atoi(FormatBool(v)) == None
  {
    var s := FormatBool(v);
    assert !Decimal.IsDigit(s[0]) && s[0] != '+' && s[0] != '-';
  }

  // ---------------------------------------------------------------------------
  // A typed reference semantics.

  /** The values of LET: integers, booleans, and no value (an unbound
      variable or a node that has none). */
  datatype Val = IntV(i: int) | BoolV(b: bool) | NoV

  /** The value a string stands for. */
  function Decode(s: string): (v: Val)
    ensures Atoi(s).Some? <==> v.IntV?
    ensures v.IntV? ==> Atoi(s) == Some(v.i)
  {
    match Atoi(s)
    case Some(i) => IntV(i)
    case None => if s == "true" then BoolV(true) else if s == "false" then BoolV(false) else NoV
  }

  /** An environment as a map: later bindings overwrite earlier ones. */
  function DecodeEnv(b: seq<Binding>): map<string, Val> {
    if b == [] then map[] else DecodeEnv(b[..|b| - 1])[b[|b| - 1].varname := Decode(b[|b| - 1].value)]
  }

  /** Every integer literal is a nonempty string of digits, as the scanner
      produces them. */
  predicate Literals(n: Node)
    decreases n
  {
    (n.kind == Integer ==> |n.text| > 0 && AllDigits(n.text))
    && forall i | 0 <= i < |n.children| :: Literals(n.children[i])
  }

  /** The meaning of a well-shaped tree in env; None is a run-time type
      error (an operand of minus or iszero that is not an integer). */
  function Denote(n: Node, env: map<string, Val>): (r: Option<Val>)
    requires Shaped(n) && Literals(n)
    decreases n
  {
    match n.kind
    case Let =>
      var v1 :- Denote(n.children[1], env);
      Denote(n.children[2], env[n.children[0].text := v1])
    case Minus =>
      var x :- Denote(n.children[0], env);
      var y :- Denote(n.children[1], env);
      if x.IntV? && y.IntV? then Some(IntV(x.i - y.i)) else None
    case IsZero =>
      var x :- Denote(n.children[0], env);
      if x.IntV? then Some(BoolV(x.i == 0)) else None
    case If =>
      var t :- Denote(n.children[0], env);
      if t == BoolV(true) then Denote(n.children[1], env) else Denote(n.children[2], env)
    case Identifier => Some(if n.text in env then env[n.text] else NoV)
    case Integer => Some(IntV(DigitsValue(n.text)))
    case _ => Some(NoV)
  }

  /** Looking a name up in the binding list is looking it up in the map. */
  lemma {:induction false} DecodeLookup(b: seq<Binding>, name: string)
    ensures Decode(LookupBinding(b, name)) == if name in DecodeEnv(b) then DecodeEnv(b)[name] else NoV
  {
    if b == [] {
      assert Atoi("") == None;
    } else if b[|b| - 1].varname != name {
      DecodeLookup(b[..|b| - 1], name);
    }
  }

  /** Extending the binding list is updating the map. */
  lemma DecodeExtend(b: seq<Binding>, name: string, value: string)
    ensures DecodeEnv(b + [Binding(name, value)]) == DecodeEnv(b)[name := Decode(value)]
  {
    assert (b + [Binding(name, value)])[..|b|] == b;
  }

  lemma DecodeBool(v: bool)
    ensures Decode(FormatBool(v)) == BoolV(v)
  {
    BooleansAreNotIntegers(v);
  }

  lemma DecodeItoa(i: int)
    ensures Decode(Itoa(i)) == IntV(i)
  {
    AtoiItoa(i);
  }

  /** The string-passing evaluator computes the typed meaning of a parsed
      tree: it succeeds exactly when the meaning is defined, then returns
      text for that value, and its only failure is a non-integer operand. */
  lemma {:induction false} EvaluateAgrees(n: Node, b: seq<Binding>)
    requires Shaped(n) && Literals(n)
    ensures var e := Evaluate(n, b); var d := Denote(n, DecodeEnv(b));
      (e.Ok? <==> d.Some?) && (e.Ok? ==> Decode(e.value.0) == d.value) && (e.Err? ==> e.error.NotAnInteger?)
    decreases n
  {
    match n.kind
    case Let => LetAgrees(n, b);
    case Minus => MinusAgrees(n, b);
    case IsZero => IsZeroAgrees(n, b);
    case If => IfAgrees(n, b);
    case Identifier => DecodeLookup(b, n.text);
    case Integer =>
      assert Atoi(n.text) == Some(DigitsValue(n.text) as int);
    case _ =>
      assert Atoi("") == None;
  }

  lemma {:induction false} LetAgrees(n: Node, b: seq<Binding>)
    requires Shaped(n) && Literals(n) && n.kind == Let
    ensures var e := Evaluate(n, b); var d := Denote(n, DecodeEnv(b));
      (e.Ok? <==> d.Some?) && (e.Ok? ==> Decode(e.value.0) == d.value) && (e.Err? ==> e.error.NotAnInteger?)
    decreases n, 0
  {
    var c0, c1, c2 := n.children[0], n.children[1], n.children[2];
    EvaluateAgrees(c1, b);
    var e1 := Evaluate(c1, b);
    if e1.Ok? {
      var b2 := b + [Binding(c0.text, e1.value.0)];
      DecodeExtend(b, c0.text, e1.value.0);
      EvaluateAgrees(c2, b2);
    }
  }

  lemma {:induction false} MinusAgrees(n: Node, b: seq<Binding>)
    requires Shaped(n) && Literals(n) && n.kind == Minus
    ensures var e := Evaluate(n, b); var d := Denote(n, DecodeEnv(b));
      (e.Ok? <==> d.Some?) && (e.Ok? ==> Decode(e.value.0) == d.value) && (e.Err? ==> e.error.NotAnInteger?)
    decreases n, 0
  {
    EvaluateAgrees(n.children[0], b);
    EvaluateAgrees(n.children[1], b);
    var e1 := Evaluate(n.children[0], b);
    var e2 := Evaluate(n.children[1], b);
    if e1.Ok? && e2.Ok? && Atoi(e1.value.0).Some? && Atoi(e2.value.0).Some? {
      DecodeItoa(Atoi(e1.value.0).value - Atoi(e2.value.0).value);
    }
  }

  lemma {:induction false} IsZeroAgrees(n: Node, b: seq<Binding>)
    requires Shaped(n) && Literals(n) && n.kind == IsZero
    ensures var e := Evaluate(n, b); var d := Denote(n, DecodeEnv(b));
      (e.Ok? <==> d.Some?) && (e.Ok? ==> Decode(e.value.0) == d.value) && (e.Err? ==> e.error.NotAnInteger?)
    decreases n, 0
  {
    EvaluateAgrees(n.children[0], b);
    var e := Evaluate(n.children[0], b);
    if e.Ok? && Atoi(e.value.0).Some? {
      DecodeBool(Atoi(e.value.0).value == 0);
    }
  }

  lemma {:induction false} IfAgrees(n: Node, b: seq<Binding>)
    requires Shaped(n) && Literals(n) && n.kind == If
    ensures var e := Evaluate(n, b); var d := Denote(n, DecodeEnv(b));
      (e.Ok? <==> d.Some?) && (e.Ok? ==> Decode(e.value.0) == d.value) && (e.Err? ==> e.error.NotAnInteger?)
    decreases n, 0
  {
    EvaluateAgrees(n.children[0], b);
    var t := Evaluate(n.children[0], b);
    if t.Ok? {
      assert t.value.0 == "true" <==> Decode(t.value.0) == BoolV(true) by {
        if t.value.0 == "true" {
          BooleansAreNotIntegers(true);
        }
      }
      EvaluateAgrees(n.children[1], b);
      EvaluateAgrees(n.children[2], b);
    }
  }

  // ---------------------------------------------------------------------------
  // Literals come from the scanner.

  /** Every integer token of the queue is a nonempty run of digits. */
  predicate DigitTokens(q: seq<Token>) {
    forall i | 0 <= i < |q| :: q[i].kind == Integer ==> |q[i].text| > 0 && AllDigits(q[i].text)
  }

  lemma DigitTokensSuffix(r: seq<Token>, q: seq<Token>)
    requires IsSuffix(r, q) && DigitTokens(q)
    ensures DigitTokens(r)
  {
    forall i | 0 <= i < |r| && r[i].kind == Integer
      ensures |r[i].text| > 0 && AllDigits(r[i].text)
    {
      assert r[i] == q[|q| - |r| + i];
    }
  }

  /** The parser copies integer leaves from the tokens, so a queue whose
      integer tokens are digit runs parses to a tree satisfying Literals. */
  lemma {:induction false} ParsedLiterals(q: seq<Token>)
    requires DigitTokens(q)
    ensures var r := ParseExpr(q); r.Ok? ==> Literals(r.value.0)
    decreases |q|, 1
  {
    if ParseExpr(q).Ok? {
      var tok, q1 := q[0], q[1..];
      assert IsSuffix(q1, q) by { assert q1 == q[|q| - |q1|..]; }
      DigitTokensSuffix(q1, q);
      match tok.kind
      case Minus => MinusLiterals(tok.text, q1);
      case IsZero => IsZeroLiterals(tok.text, q1);
      case If => IfLiterals(tok.text, q1);
      case Let => LetLiterals(tok.text, q1);
      case _ =>
    }
  }

  /** One parsed sub-expression satisfies Literals, and so does what is left. */
  lemma ChildLiterals(q: seq<Token>, n: Node, rest: seq<Token>)
    requires DigitTokens(q) && ParseExpr(q) == Ok((n, rest))
    ensures Literals(n) && DigitTokens(rest)
    decreases |q|, 2
  {
    ParsedLiterals(q);
    ChildConsumes(q, n, rest);
    DigitTokensSuffix(rest, q);
  }

  /** Expecting a token leaves digit-run integer tokens behind. */
  lemma ExpectDigits(q: seq<Token>, tt: Kind, advance: bool, err: string)
    requires DigitTokens(q) && Expect(q, tt, advance, err).Ok?
    ensures DigitTokens(Expect(q, tt, advance, err).value)
  {
    ExpectSuffix(q, tt, advance, err);
    DigitTokensSuffix(Expect(q, tt, advance, err).value, q);
  }

  lemma {:induction false} MinusLiterals(text: string, q1: seq<Token>)
    requires DigitTokens(q1)
    ensures var r := ParseMinus(text, q1); r.Ok? ==> Literals(r.value.0)
    decreases |q1|, 4
  {
    if ParseMinus(text, q1).Ok? {
      var m := MinusParts(text, q1);
      ExpectDigits(q1, LParen, true, ExpectLParen);
      ChildLiterals(m.q2, m.left, m.q3);
      ExpectDigits(m.q3, Comma, true, ExpectComma);
      ChildLiterals(m.q4, m.right, m.q5);
      var n := Node(Minus, false, text, [m.left, m.right], []);
      assert forall i | 0 <= i < 2 :: n.children[i] == m.left || n.children[i] == m.right;
    }
  }

  lemma {:induction false} IsZeroLiterals(text: string, q1: seq<Token>)
    requires DigitTokens(q1)
    ensures var r := ParseIsZero(text, q1); r.Ok? ==> Literals(r.value.0)
    decreases |q1|, 4
  {
    var e2 := Expect(q1, LParen, true, ExpectLParen);
    if e2.Ok? {
      ExpectDigits(q1, LParen, true, ExpectLParen);
      ParsedLiterals(e2.value);
    }
  }

  lemma {:induction false} IfLiterals(text: string, q1: seq<Token>)
    requires DigitTokens(q1)
    ensures var r := ParseIf(text, q1); r.Ok? ==> Literals(r.value.0)
    decreases |q1|, 4
  {
    if ParseIf(text, q1).Ok? {
      var t := IfParts(text, q1);
      ThreeChildrenLiterals(If, text, t);
    }
  }

  lemma {:induction false} LetLiterals(text: string, q1: seq<Token>)
    requires DigitTokens(q1)
    ensures var r := ParseLet(text, q1); r.Ok? ==> Literals(r.value.0)
    decreases |q1|, 4
  {
    if ParseLet(text, q1).Ok? {
      var t := LetParts(text, q1);
      ThreeChildrenLiterals(Let, text, t);
    }
  }

  /** The three sub-expressions of an if or a let, parsed in turn. */
  lemma ThreeChildrenLiterals(k: Kind, text: string, t: ThreeRun)
    requires k != Integer && DigitTokens(t.q2)
    requires |t.q4| < |t.q3| < |t.q2| && |t.q6| < |t.q5| < |t.q4|
    requires ParseExpr(t.q2) == Ok((t.first, t.q3)) && ParseExpr(t.q4) == Ok((t.second, t.q5))
    requires ParseExpr(t.q6) == Ok((t.third, t.q7))
    requires t.q3 == [t.q3[0]] + t.q4 && t.q5 == [t.q5[0]] + t.q6
    ensures Literals(Node(k, false, text, [t.first, t.second, t.third], []))
    decreases |t.q2|, 3
  {
    ChildLiterals(t.q2, t.first, t.q3);
    assert IsSuffix(t.q4, t.q3) by { assert t.q4 == t.q3[|t.q3| - |t.q4|..]; }
    DigitTokensSuffix(t.q4, t.q3);
    ChildLiterals(t.q4, t.second, t.q5);
    assert IsSuffix(t.q6, t.q5) by { assert t.q6 == t.q5[|t.q5| - |t.q6|..]; }
    DigitTokensSuffix(t.q6, t.q5);
    ChildLiterals(t.q6, t.third, t.q7);
    var n := Node(k, false, text, [t.first, t.second, t.third], []);
    assert forall i | 0 <= i < 3 :: n.children[i] == t.first || n.children[i] == t.second || n.children[i] == t.third;
  }
}
