/** The evaluator of the LET interpreter. Values travel as strings: the
    decimal text of an integer, "true" or "false", or "" for a node with no
    value. Evaluation walks the tree with an environment that lets extend
    by appending, records on every node it visits the environment it was
    evaluated under, and fails where the program ends the process (an
    operand that is not an integer) or would index a missing child. */
module LetEvaluator {
  import opened Results
  import opened Decimal
  import opened LetScanner
  import opened LetParser

  datatype EvalError =
    | NotAnInteger(text: string)  // Atoi rejected an operand of minus or iszero
    | MissingChild                // a compound node lacks a child its kind reads

  // ---------------------------------------------------------------------------
  // Environments.

  /** The value of the last binding of name in b, or "" when name is unbound. */
  function LookupBinding(b: seq<Binding>, name: string): string {
    if b == [] then ""
    else if b[|b| - 1].varname == name then b[|b| - 1].value
    else LookupBinding(b[..|b| - 1], name)
  }

  /** b[i] is the last binding of name in b. */
  predicate LastBinding(b: seq<Binding>, name: string, i: int) {
    0 <= i < |b| && b[i].varname == name && forall j | i < j < |b| :: b[j].varname != name
  }

  /** An unbound name looks up as "", and a bound one as the value of its
      last binding: a later binding shadows every earlier one. */
  lemma {:induction false} LookupLast(b: seq<Binding>, name: string)
    ensures (forall i | 0 <= i < |b| :: b[i].varname != name) ==> LookupBinding(b, name) == ""
    ensures forall i | LastBinding(b, name, i) :: LookupBinding(b, name) == b[i].value
    decreases |b|
  {
    if b != [] && b[|b| - 1].varname != name {
      var p := b[..|b| - 1];
      LookupLast(p, name);
      forall i | LastBinding(b, name, i) ensures LastBinding(p, name, i) {
        assert i < |b| - 1;
      }
    }
  }

  /** bindLookup: scan the whole environment front to back, keeping the
      value of every binding of name met on the way. */
  method BindLookup(b: seq<Binding>, name: string) returns (str: string)
    ensures str == LookupBinding(b, name)
  {
    str := "";
    var i := 0;
    while i < |b|
      invariant 0 <= i <= |b|
      invariant str == LookupBinding(b[..i], name)
    {
      if b[i].varname == name {
        str := b[i].value;
      }
      assert b[..i + 1][..i] == b[..i];
      i := i + 1;
    }
    assert b[..i] == b;
  }

  /** A new binding of name is what name now means. */
  lemma LookupShadowed(b: seq<Binding>, name: string, value: string)
    ensures LookupBinding(b + [Binding(name, value)], name) == value
  {
  }

  /** A new binding of another name leaves name's meaning alone. */
  lemma LookupOther(b: seq<Binding>, other: string, value: string, name: string)
    requires other != name
    ensures LookupBinding(b + [Binding(other, value)], name) == LookupBinding(b, name)
  {
    assert (b + [Binding(other, value)])[..|b|] == b;
  }

  // ---------------------------------------------------------------------------
  // Evaluation.

  /** The tree with every recorded environment erased. */
  function Strip(n: Node): (r: Node)
    ensures r.kind == n.kind && r.text == n.text && r.termsym == n.termsym && r.env == []
    ensures |r.children| == |n.children|
    decreases n
  {
    Node(n.kind, n.termsym, n.text, seq(|n.children|, i requires 0 <= i < |n.children| => Strip(n.children[i])), [])
  }

  /** evaluate: the value of n under b, and n as it stands afterwards, with
      the environment recorded on every node that was visited. */
  function Evaluate(n: Node, b: seq<Binding>): (r: Result<(string, Node), EvalError>)
    ensures r.Ok? ==> r.value.1.env == b
    ensures r.Ok? ==> |r.value.1.children| == |n.children|
    decreases n
  {
    match n.kind
    case Let =>
      if |n.children| < 2 then Err(MissingChild)
      else
        var name := n.children[0].text;
        var (v1, a1) :- Evaluate(n.children[1], b);
        if |n.children| < 3 then Err(MissingChild)
        else
          var (v2, a2) :- Evaluate(n.children[2], b + [Binding(name, v1)]);
          Ok((v2, n.(env := b, children := n.children[1 := a1][2 := a2])))
    case Minus =>
      if |n.children| < 1 then Err(MissingChild)
      else
        var (s1, a1) :- Evaluate(n.children[0], b);
        var x := Atoi(s1);
        if x.None? then Err(NotAnInteger(s1))
        else if |n.children| < 2 then Err(MissingChild)
        else
          var (s2, a2) :- Evaluate(n.children[1], b);
          var y := Atoi(s2);
          if y.None? then Err(NotAnInteger(s2))
          else Ok((Itoa(x.value - y.value), n.(env := b, children := n.children[0 := a1][1 := a2])))
    case IsZero =>
      if |n.children| < 1 then Err(MissingChild)
      else
        var (s, a) :- Evaluate(n.children[0], b);
        var x := Atoi(s);
        if x.None? then Err(NotAnInteger(s))
        else Ok((FormatBool(x.value == 0), n.(env := b, children := n.children[0 := a])))
    case If =>
      if |n.children| < 1 then Err(MissingChild)
      else
        var (t, a0) :- Evaluate(n.children[0], b);
        if t == "true" then
          if |n.children| < 2 then Err(MissingChild)
          else
            var (v, a1) :- Evaluate(n.children[1], b);
            Ok((v, n.(env := b, children := n.children[0 := a0][1 := a1])))
        else
          if |n.children| < 3 then Err(MissingChild)
          else
            var (v, a2) :- Evaluate(n.children[2], b);
            Ok((v, n.(env := b, children := n.children[0 := a0][2 := a2])))
    case Identifier => Ok((LookupBinding(b, n.text), n.(env := b)))
    case Integer => Ok((n.text, n.(env := b)))
    case _ => Ok(("", n.(env := b)))
  }

  /** The evaluator object: evaluation starts at the root under the empty
      environment and leaves the recorded environments on the tree. */
  class Evaluator {
    var root: Node

    constructor(r: Node)
      ensures root == r
    {
      root := r;
    }

    method Eval() returns (r: Result<string, EvalError>)
      modifies this
      ensures var e := Evaluate(old(root), []);
        (r.Ok? <==> e.Ok?)
        && (e.Ok? ==> r.value == e.value.0 && root == e.value.1)
        && (e.Err? ==> r == Err(e.error) && root == old(root))
    {
      var e := Evaluate(root, []);
      if e.Err? {
        return Err(e.error);
      }
      root := e.value.1;
      return Ok(e.value.0);
    }
  }
}
