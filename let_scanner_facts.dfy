/** Properties of the scanner model: what every token Lex appends looks like,
    how many it appends, where an unknown character can appear, and what the
    driver loop produces. */
module LetScannerFacts {
  import opened LetScanner

  /** What holds at every control point of Lex: the lexeme being built is a
      nonempty run of digits or of letters spelling no keyword, and the
      current character is at most one non-blank character. */
  predicate Consistent(st: LexState) {
    match st
    case Start(_, _) => true
    case InDigits(lexeme, c, _) => lexeme != "" && Decimal.AllDigits(lexeme) && Delivered(c)
    case AtLetter(c, _, _) => Delivered(c)
    case InLetters(lexeme, c, _) =>
      lexeme != "" && AllLetters(lexeme) && KeyLookup(lexeme) == Identifier && Delivered(c)
    case AtUnknown(c, _, _) => Delivered(c)
    case Done(_, _) => true
  }

  /** A character as the blank-skipping reader hands it out. */
  predicate Delivered(c: string) {
    |c| <= 1 && (c != "" ==> !IsSpace(c[0]))
  }

  /** The tokens Lex can append: integers are digit runs, identifiers are
      letter runs that spell no keyword, keywords and punctuation carry their
      own spelling, and a token of kind EOF carries the one unknown character
      that produced it. */
  predicate WellFormed(t: Token) {
    match t.kind
    case Integer => t.text != "" && Decimal.AllDigits(t.text)
    case Identifier => t.text != "" && AllLetters(t.text) && KeyLookup(t.text) == Identifier
    case EOF =>
      |t.text| == 1 && GetCharType(t.text).charClass == Other && !IsSpace(t.text[0])
      && Lookup(t.text) == EOF
    case Unknown => false
    case _ =>
      (IsKeyword(t.kind) && t.text == Spelling(t.kind))
      || (IsPunctuation(t.kind) && t.text == PunctuationSpelling(t.kind))
  }

  /** The most tokens Lex can still append from a control point. */
  function Budget(st: LexState): nat {
    match st
    case Start(_, _) => 3
    case InDigits(_, _, _) => 3
    case AtLetter(_, _, _) => 2
    case InLetters(_, _, _) => 2
    case AtUnknown(_, _, _) => 1
    case Done(_, _) => 0
  }

  /** What one step may do: keep the control point consistent and append
      at most one well-formed token, within budget; a token of kind EOF ends
      Lex with currentTokenType EOF. */
  predicate GoodMove(st: LexState, m: Move, q: seq<Token>) {
    Consistent(m.next)
    && (m.queue == q
        || (|m.queue| == |q| + 1 && m.queue[..|q|] == q && WellFormed(m.queue[|q|])
            && (m.queue[|q|].kind == EOF ==> m.next.Done? && m.next.current == EOF)))
    && |m.queue| - |q| + Budget(m.next) <= Budget(st)
  }

  lemma StepEmits(text: string, st: LexState, v: Variant, q: seq<Token>)
    requires st.pos <= |text| && !st.Done? && Consistent(st)
    ensures GoodMove(st, Step(text, st, v, q), q)
  {
    match st
    case Start(_, _) => StartEmits(text, st, v, q);
    case InDigits(_, _, _) => DigitsEmit(text, st, v, q);
    case AtLetter(_, _, _) => LetterEmits(text, st, v, q);
    case InLetters(_, _, _) => LettersEmit(text, st, v, q);
    case AtUnknown(_, _, _) => UnknownEmits(text, st, v, q);
  }

  lemma StartEmits(text: string, st: LexState, v: Variant, q: seq<Token>)
    requires st.pos <= |text| && st.Start?
    ensures GoodMove(st, Step(text, st, v, q), q)
  {
  }

  lemma DigitsEmit(text: string, st: LexState, v: Variant, q: seq<Token>)
    requires st.pos <= |text| && st.InDigits? && Consistent(st)
    ensures GoodMove(st, Step(text, st, v, q), q)
  {
    if IsDigitChar(st.c) {
      AllDigitsGrow(st.lexeme, st.c);
    }
  }

  lemma LetterEmits(text: string, st: LexState, v: Variant, q: seq<Token>)
    requires st.pos <= |text| && st.AtLetter? && Consistent(st)
    ensures GoodMove(st, Step(text, st, v, q), q)
  {
  }

  lemma LettersEmit(text: string, st: LexState, v: Variant, q: seq<Token>)
    requires st.pos <= |text| && st.InLetters? && Consistent(st)
    ensures GoodMove(st, Step(text, st, v, q), q)
  {
    if IsLetterChar(st.c) {
      assert AllLetters(st.lexeme + st.c);
    }
  }

  lemma UnknownEmits(text: string, st: LexState, v: Variant, q: seq<Token>)
    requires st.pos <= |text| && st.AtUnknown? && Consistent(st)
    ensures GoodMove(st, Step(text, st, v, q), q)
  {
  }

  lemma AllDigitsGrow(lexeme: string, c: string)
    requires Decimal.AllDigits(lexeme) && |c| <= 1 && IsDigitChar(c)
    ensures Decimal.AllDigits(lexeme + c)
  {
    assert forall i | 0 <= i < |lexeme + c| :: (lexeme + c)[i] == if i < |lexeme| then lexeme[i] else c[0];
  }

  /** From q to o.queue, Lex only appended, at most budget tokens, all well
      formed; a token of kind EOF can only be the last one appended, and
      then currentTokenType ends as EOF. */
  predicate Appends(q: seq<Token>, o: LexOutcome, budget: nat) {
    |q| <= |o.queue| <= |q| + budget && o.queue[..|q|] == q
    && (forall i | |q| <= i < |o.queue| :: WellFormed(o.queue[i]))
    && (forall i | |q| <= i < |o.queue| - 1 :: o.queue[i].kind != EOF)
    && (|o.queue| > |q| && o.queue[|o.queue| - 1].kind == EOF ==> o.current == EOF)
  }

  lemma AppendsAfterMove(st: LexState, m: Move, q: seq<Token>, o: LexOutcome)
    requires GoodMove(st, m, q) && Appends(m.queue, o, Budget(m.next))
    requires m.next.Done? ==> o.queue == m.queue && o.current == m.next.current
    ensures Appends(q, o, Budget(st))
  {
    if m.queue != q {
      assert o.queue[..|q|] == o.queue[..|m.queue|][..|q|];
      assert o.queue[|q|] == m.queue[|q|];
    }
  }

  /** Running Lex from a consistent control point keeps within budget and
      appends only well-formed tokens. */
  lemma {:induction false} ScanEmits(text: string, st: LexState, v: Variant, q: seq<Token>)
    requires st.pos <= |text| && Consistent(st)
    ensures Appends(q, Scan(text, st, v, q), Budget(st))
    decreases |text| - st.pos, Rank(st)
  {
    if !st.Done? {
      var m := Step(text, st, v, q);
      StepEmits(text, st, v, q);
      ScanEmits(text, m.next, v, m.queue);
      AppendsAfterMove(st, m, q, Scan(text, m.next, v, m.queue));
    } else {
      assert Scan(text, st, v, q).queue[..|q|] == q;
    }
  }

  /** One Lex call only appends to the queue, at most three tokens (an
      integer, a word, a punctuation character), all well formed. */
  lemma LexAppends(text: string, pos: nat, cur: Kind, v: Variant, q: seq<Token>)
    requires pos <= |text|
    ensures Appends(q, LexSpec(text, pos, cur, v, q), 3)
  {
    ScanEmits(text, Start(pos, cur), v, q);
  }

  /** The queue the driver ends with, from queue q: q is kept, and after it
      come well-formed tokens and the end marker; a token of kind EOF (an
      unknown character) can only come right before the end marker. */
  predicate Finished(q: seq<Token>, ts: seq<Token>) {
    |ts| > |q| && ts[..|q|] == q && ts[|ts| - 1] == Token(EOF, "EOF")
    && (forall i | |q| <= i < |ts| - 1 :: WellFormed(ts[i]))
    && (forall i | |q| <= i < |ts| - 2 :: ts[i].kind != EOF)
  }

  lemma FinishedAfterLex(q: seq<Token>, o: LexOutcome, ts: seq<Token>)
    requires Appends(q, o, 3) && Finished(o.queue, ts)
    requires o.current == EOF ==> ts == o.queue + [Token(EOF, "EOF")]
    ensures Finished(q, ts)
  {
    assert ts[..|q|] == ts[..|o.queue|][..|q|];
    forall i | |q| <= i < |ts| - 2
      ensures ts[i].kind != EOF
    {
      if i < |o.queue| {
        assert ts[i] == o.queue[i];
      }
    }
  }

  lemma {:induction false} TokenizeFromFinished(text: string, pos: nat, cur: Kind, v: Variant, q: seq<Token>)
    requires pos <= |text|
    ensures Finished(q, TokenizeFrom(text, pos, cur, v, q))
    decreases |text| - pos, if cur == EOF then 0 else 1
  {
    if cur != EOF {
      var o := LexSpec(text, pos, cur, v, q);
      LexAppends(text, pos, cur, v, q);
      TokenizeFromFinished(text, o.pos, o.current, v, o.queue);
      FinishedAfterLex(q, o, TokenizeFrom(text, o.pos, o.current, v, o.queue));
    } else {
      assert TokenizeFrom(text, pos, cur, v, q)[..|q|] == q;
    }
  }

  /** The token queue of a whole input: well-formed tokens, then the end
      marker; a token of kind EOF standing for an unknown character can only
      be the last one before the marker, since it stops the driver. */
  lemma TokenizeShape(text: string, v: Variant)
    ensures var ts := Tokenize(text, v);
      |ts| > 0 && ts[|ts| - 1] == Token(EOF, "EOF")
      && (forall i | 0 <= i < |ts| - 1 :: WellFormed(ts[i]))
      && (forall i | 0 <= i < |ts| - 2 :: ts[i].kind != EOF)
  {
    TokenizeFromFinished(text, 0, LParen, v, []);
  }

  // ---------------------------------------------------------------------------
  // Runs: what Lex does with the non-blank characters that remain.

  /** The non-blank characters from pos on: what the reader will deliver. */
  function Rest(text: string, pos: nat): string
    requires pos <= |text|
  {
    NonBlank(text[pos..])
  }

  /** With only blanks left, Lex appends nothing and sets EOF. */
  lemma EndOfInput(text: string, pos: nat, cur: Kind, v: Variant, q: seq<Token>)
    requires pos <= |text| && Rest(text, pos) == []
    ensures LexSpec(text, pos, cur, v, q) == LexOutcome(q, |text|, EOF)
  {
    NextNonBlankDelivers(text, pos);
  }

  /** Before the end marker, tokenizing is one Lex call and then the rest. */
  lemma TokenizeStep(text: string, pos: nat, cur: Kind, v: Variant, q: seq<Token>)
    requires pos <= |text| && cur != EOF
    ensures var o := LexSpec(text, pos, cur, v, q);
      TokenizeFrom(text, pos, cur, v, q) == TokenizeFrom(text, o.pos, o.current, v, o.queue)
  {
  }

  /** With only blanks left, tokenizing closes the queue with the end marker. */
  lemma TokenizeAtEnd(text: string, pos: nat, cur: Kind, v: Variant, q: seq<Token>)
    requires pos <= |text| && Rest(text, pos) == []
    ensures TokenizeFrom(text, pos, cur, v, q) == q + [Token(EOF, "EOF")]
  {
    if cur != EOF {
      EndOfInput(text, pos, cur, v, q);
    }
  }

  /** The digit loop runs to the end of input when only digits remain: the
      whole run is appended as one integer, blanks between digits ignored. */
  lemma {:induction false} DigitsToEnd(text: string, lexeme: string, c: string, pos: nat, v: Variant, q: seq<Token>)
    requires pos <= |text| && |c| == 1 && IsDigitChar(c) && Decimal.AllDigits(Rest(text, pos))
    ensures Scan(text, InDigits(lexeme, c, pos), v, q)
            == LexOutcome(q + [Token(Integer, lexeme + c + Rest(text, pos))], |text|, Integer)
    decreases |text| - pos
  {
    var w := Rest(text, pos);
    NextNonBlankDelivers(text, pos);
    var (c1, p1) := NextNonBlank(text, pos);
    if w == [] {
      assert lexeme + c + w == lexeme + c;
    } else {
      assert IsDigit(w[0]);
      DigitsToEnd(text, lexeme + c, c1, p1, v, q);
      assert lexeme + c + c1 + Rest(text, p1) == lexeme + c + w;
    }
  }

  /** The digit loop meeting the end of input appends the integer. */
  lemma DigitsCutOff(text: string, lexeme: string, pos: nat, v: Variant, q: seq<Token>)
    requires pos <= |text|
    ensures Scan(text, InDigits(lexeme, "", pos), v, q) == LexOutcome(q + [Token(Integer, lexeme)], pos, Integer)
  {
    var q' := q + [Token(Integer, lexeme)];
    assert Scan(text, InDigits(lexeme, "", pos), v, q) == Scan(text, AtLetter("", pos, Integer), v, q');
    assert Scan(text, AtLetter("", pos, Integer), v, q') == Scan(text, AtUnknown("", pos, Integer), v, q');
  }

  /** A Lex call whose first non-blank character is a digit enters the
      digit loop with the character after it. */
  lemma StartsWithDigit(text: string, pos: nat, cur: Kind, v: Variant, q: seq<Token>)
    requires pos <= |text| && IsDigitChar(NextNonBlank(text, pos).0)
    ensures var (c, p) := NextNonBlank(text, pos); var (c1, p1) := NextNonBlank(text, p);
      LexSpec(text, pos, cur, v, q) == Scan(text, InDigits(c, c1, p1), v, q)
  {
  }

  /** When the non-blank rest of the input is a run of digits, one Lex call
      appends it as one integer and leaves the reader at the end. */
  lemma IntegerToEnd(text: string, pos: nat, cur: Kind, v: Variant, q: seq<Token>)
    requires pos <= |text|
    requires var w := Rest(text, pos); w != [] && Decimal.AllDigits(w)
    ensures LexSpec(text, pos, cur, v, q) == LexOutcome(q + [Token(Integer, Rest(text, pos))], |text|, Integer)
  {
    var w := Rest(text, pos);
    NextNonBlankDelivers(text, pos);
    var (c, p) := NextNonBlank(text, pos);
    NextNonBlankDelivers(text, p);
    var (c1, p1) := NextNonBlank(text, p);
    StartsWithDigit(text, pos, cur, v, q);
    if c1 == "" {
      DigitsCutOff(text, c, p1, v, q);
      assert c == w;
    } else {
      DigitsToEnd(text, c, c1, p1, v, q);
      assert c + c1 + Rest(text, p1) == w;
    }
  }

  /** No nonempty prefix of w spells a keyword. */
  predicate NoKeywordPrefix(w: string) {
    forall n | 0 < n <= |w| :: KeyLookup(w[..n]) == Identifier
  }

  /** The letter loop runs to the end of input when only letters remain and
      no keyword is spelled on the way: the whole word is appended. */
  lemma {:induction false} LettersToEnd(text: string, lexeme: string, c: string, pos: nat, v: Variant, q: seq<Token>)
    requires pos <= |text| && |c| == 1 && IsLetterChar(c) && AllLetters(Rest(text, pos))
    requires NoKeywordPrefix(lexeme + c + Rest(text, pos))
    ensures Scan(text, InLetters(lexeme, c, pos), v, q)
            == LexOutcome(q + [Token(Identifier, lexeme + c + Rest(text, pos))], |text|, Identifier)
    decreases |text| - pos
  {
    var w := Rest(text, pos);
    var grown := lexeme + c;
    assert (grown + w)[..|grown|] == grown;
    NextNonBlankDelivers(text, pos);
    var (c1, p1) := NextNonBlank(text, pos);
    if w == [] {
      assert grown + w == grown;
    } else {
      assert IsLetter(w[0]);
      assert grown + c1 + Rest(text, p1) == grown + w;
      LettersToEnd(text, grown, c1, p1, v, q);
    }
  }

  /** A Lex call whose first non-blank character is not a digit goes
      straight to the word part with that character. */
  lemma StartsWithNonDigit(text: string, pos: nat, cur: Kind, v: Variant, q: seq<Token>)
    requires pos <= |text|
    requires var c := NextNonBlank(text, pos).0; c != "" && !IsDigitChar(c)
    ensures var (c, p) := NextNonBlank(text, pos);
      LexSpec(text, pos, cur, v, q) == Scan(text, AtLetter(c, p, cur), v, q)
  {
  }

  /** A single letter followed only by blanks: dropped as written, an
      identifier as intended. */
  lemma LetterAtEnd(text: string, c: string, pos: nat, cur: Kind, v: Variant, q: seq<Token>)
    requires pos <= |text| && |c| == 1 && IsLetterChar(c) && KeyLookup(c) == Identifier
    requires NextNonBlank(text, pos).0 == ""
    ensures Scan(text, AtLetter(c, pos, cur), v, q)
            == if v == AsWritten then LexOutcome(q, |text|, EOF)
               else LexOutcome(q + [Token(Identifier, c)], |text|, Identifier)
  {
    var p1 := NextNonBlank(text, pos).1;
    if v == Intended {
      assert Scan(text, AtLetter(c, pos, cur), v, q) == Scan(text, InLetters(c, "", p1), v, q);
      LettersCutOff(text, c, p1, v, q);
    }
  }

  /** A letter followed by a further non-blank character enters the letter loop. */
  lemma LetterThenMore(text: string, c: string, pos: nat, cur: Kind, v: Variant, q: seq<Token>)
    requires pos <= |text| && |c| == 1 && IsLetterChar(c) && KeyLookup(c) == Identifier
    requires NextNonBlank(text, pos).0 != ""
    ensures var (c1, p1) := NextNonBlank(text, pos);
      Scan(text, AtLetter(c, pos, cur), v, q) == Scan(text, InLetters(c, c1, p1), v, q)
  {
  }

  /** The word part of Lex on a word that runs to the end of input. */
  lemma WordFrom(text: string, c: string, pos: nat, cur: Kind, v: Variant, q: seq<Token>)
    requires pos <= |text| && |c| == 1 && IsLetterChar(c)
    requires AllLetters(Rest(text, pos)) && NoKeywordPrefix(c + Rest(text, pos))
    ensures Scan(text, AtLetter(c, pos, cur), v, q)
            == if v == AsWritten && Rest(text, pos) == [] then LexOutcome(q, |text|, EOF)
               else LexOutcome(q + [Token(Identifier, c + Rest(text, pos))], |text|, Identifier)
  {
    var w := Rest(text, pos);
    assert (c + w)[..1] == c;
    NextNonBlankDelivers(text, pos);
    var (c1, p1) := NextNonBlank(text, pos);
    if c1 == "" {
      assert c + w == c;
      LetterAtEnd(text, c, pos, cur, v, q);
    } else {
      LetterThenMore(text, c, pos, cur, v, q);
      var w1 := Rest(text, p1);
      assert c1 == [w[0]] && w1 == w[1..];
      assert IsLetter(w[0]);
      assert AllLetters(w1) by {
        forall i | 0 <= i < |w1| ensures IsLetter(w1[i]) {
          assert w1[i] == w[i + 1];
        }
      }
      assert c + c1 + w1 == c + w;
      LettersToEnd(text, c, c1, p1, v, q);
    }
  }

  /** When the non-blank rest of the input is one word spelling no keyword on
      the way, one Lex call appends it as an identifier, except that as
      written a word of a single letter is dropped and Lex reports EOF. */
  lemma WordToEnd(text: string, pos: nat, cur: Kind, v: Variant, q: seq<Token>)
    requires pos <= |text|
    requires var w := Rest(text, pos); w != [] && AllLetters(w) && NoKeywordPrefix(w)
    ensures LexSpec(text, pos, cur, v, q)
            == if v == AsWritten && |Rest(text, pos)| == 1 then LexOutcome(q, |text|, EOF)
               else LexOutcome(q + [Token(Identifier, Rest(text, pos))], |text|, Identifier)
  {
    var w := Rest(text, pos);
    NextNonBlankDelivers(text, pos);
    var (c, p) := NextNonBlank(text, pos);
    StartsWithNonDigit(text, pos, cur, v, q);
    assert c + Rest(text, p) == w;
    WordFrom(text, c, p, cur, v, q);
  }

  /** A letter that does not complete a keyword, with more non-blank input
      ahead, grows the lexeme and the letter loop goes on. */
  lemma LetterGrows(text: string, lexeme: string, c: string, pos: nat, v: Variant, q: seq<Token>)
    requires pos <= |text| && IsLetterChar(c) && KeyLookup(lexeme + c) == Identifier
    requires NextNonBlank(text, pos).0 != ""
    ensures var (c1, p1) := NextNonBlank(text, pos);
      Scan(text, InLetters(lexeme, c, pos), v, q) == Scan(text, InLetters(lexeme + c, c1, p1), v, q)
  {
  }

  /** Keyword priority inside the letter loop: when the word ahead starts
      with a keyword's spelling, the keyword is appended as soon as the lexeme
      spells it, and the rest of the input after it is left unread. */
  lemma {:induction false} LettersToKeyword(text: string, lexeme: string, c: string, pos: nat, k: Kind, v: Variant, q: seq<Token>)
    requires pos <= |text| && IsKeyword(k) && |c| == 1
    requires var w := lexeme + c + Rest(text, pos);
      |lexeme| < |Spelling(k)| <= |w| && w[..|Spelling(k)|] == Spelling(k)
    ensures var o := Scan(text, InLetters(lexeme, c, pos), v, q);
      o.queue == q + [Token(k, Spelling(k))] && o.current == k
      && Rest(text, o.pos) == (lexeme + c + Rest(text, pos))[|Spelling(k)|..]
    decreases |text| - pos
  {
    var sp := Spelling(k);
    var rest := Rest(text, pos);
    var grown := lexeme + c;
    var w := grown + rest;
    assert grown == w[..|grown|] == sp[..|grown|];
    assert c[0] == sp[|lexeme|];
    if |grown| == |sp| {
      assert grown == sp;
      SpellingsRoundTrip(k);
      assert w[|sp|..] == rest;
    } else {
      KeywordPrefixes(k, |grown|);
      NextNonBlankDelivers(text, pos);
      var (c1, p1) := NextNonBlank(text, pos);
      assert c1 == [rest[0]] && Rest(text, p1) == rest[1..];
      LetterGrows(text, lexeme, c, pos, v, q);
      assert grown + c1 + Rest(text, p1) == w;
      LettersToKeyword(text, grown, c1, p1, k, v, q);
    }
  }

  /** Keyword priority for a whole Lex call: when the non-blank input ahead
      starts with a keyword's spelling, one call appends exactly that keyword
      (so `ifx` lexes as `if` and leaves `x` for the next call). */
  lemma KeywordFirst(text: string, pos: nat, cur: Kind, k: Kind, v: Variant, q: seq<Token>)
    requires pos <= |text| && IsKeyword(k)
    requires var w := Rest(text, pos); |Spelling(k)| <= |w| && w[..|Spelling(k)|] == Spelling(k)
    ensures var o := LexSpec(text, pos, cur, v, q);
      o.queue == q + [Token(k, Spelling(k))] && o.current == k
      && Rest(text, o.pos) == Rest(text, pos)[|Spelling(k)|..]
  {
    var sp := Spelling(k);
    var w := Rest(text, pos);
    assert w[0] == sp[0] && IsLetter(sp[0]);
    KeywordPrefixes(k, 1);
    assert sp[..1] == [w[0]];
    var (c, p) := NextNonBlank(text, pos);
    var (c1, p1) := NextNonBlank(text, p);
    TwoLettersAhead(text, pos, cur, v, q);
    LettersToKeyword(text, c, c1, p1, k, v, q);
  }

  /** A Lex call on a word of at least two letters whose first letter is no
      keyword reaches the letter loop with those two letters read. */
  lemma TwoLettersAhead(text: string, pos: nat, cur: Kind, v: Variant, q: seq<Token>)
    requires pos <= |text|
    requires var w := Rest(text, pos); |w| >= 2 && IsLetter(w[0]) && KeyLookup([w[0]]) == Identifier
    ensures var (c, p) := NextNonBlank(text, pos);
      var (c1, p1) := NextNonBlank(text, p);
      |c| == 1 && |c1| == 1 && p <= |text|
      && LexSpec(text, pos, cur, v, q) == Scan(text, InLetters(c, c1, p1), v, q)
      && c + c1 + Rest(text, p1) == Rest(text, pos)
  {
    var w := Rest(text, pos);
    NextNonBlankDelivers(text, pos);
    var (c, p) := NextNonBlank(text, pos);
    var rest := Rest(text, p);
    NextNonBlankDelivers(text, p);
    var (c1, p1) := NextNonBlank(text, p);
    assert c == [w[0]] && rest == w[1..];
    assert c1 == [rest[0]] && Rest(text, p1) == rest[1..];
    assert LexSpec(text, pos, cur, v, q) == Scan(text, InLetters(c, c1, p1), v, q) by {
      StartsWithNonDigit(text, pos, cur, v, q);
      LetterThenMore(text, c, p, cur, v, q);
    }
    assert c + c1 + Rest(text, p1) == w;
  }

  /** A one-letter identifier directly followed by a punctuation character:
      one Lex call appends both and stops after the punctuation. */
  lemma LetterThenPunctuation(text: string, pos: nat, cur: Kind, v: Variant, q: seq<Token>)
    requires pos <= |text|
    requires var w := Rest(text, pos);
      |w| >= 2 && IsLetter(w[0]) && KeyLookup([w[0]]) == Identifier && IsPunctuation(Lookup([w[1]]))
    ensures var w := Rest(text, pos); var o := LexSpec(text, pos, cur, v, q);
      o.queue == q + [Token(Identifier, [w[0]]), Token(Lookup([w[1]]), [w[1]])]
      && o.current == Lookup([w[1]]) && Rest(text, o.pos) == w[2..]
  {
    var w := Rest(text, pos);
    TwoLettersAhead(text, pos, cur, v, q);
    var (c, p) := NextNonBlank(text, pos);
    var (c1, p1) := NextNonBlank(text, p);
    assert c == [w[0]] && c1 == [w[1]] && Rest(text, p1) == w[2..];
    assert !IsLetter(w[1]) && !IsDigit(w[1]);
    var q1 := q + [Token(Identifier, c)];
    assert Scan(text, InLetters(c, c1, p1), v, q) == Scan(text, AtUnknown(c1, p1, Identifier), v, q1);
  }

  /** The letter part of Lex, entered with the first letter of a keyword
      spelled by the input ahead, appends that keyword. */
  lemma LetterStartsKeyword(text: string, c: string, pos: nat, cur: Kind, k: Kind, v: Variant, q: seq<Token>)
    requires pos <= |text| && IsKeyword(k) && |c| == 1
    requires var w := c + Rest(text, pos); |Spelling(k)| <= |w| && w[..|Spelling(k)|] == Spelling(k)
    ensures var o := Scan(text, AtLetter(c, pos, cur), v, q);
      o.queue == q + [Token(k, Spelling(k))] && o.current == k
      && Rest(text, o.pos) == (c + Rest(text, pos))[|Spelling(k)|..]
  {
    var sp := Spelling(k);
    var w := c + Rest(text, pos);
    assert c == sp[..1] && IsLetter(c[0]);
    KeywordPrefixes(k, 1);
    NextNonBlankDelivers(text, pos);
    var (c1, p1) := NextNonBlank(text, pos);
    assert c1 == [w[1]] && Rest(text, p1) == w[2..];
    LetterThenMore(text, c, pos, cur, v, q);
    assert c + c1 + Rest(text, p1) == w;
    LettersToKeyword(text, c, c1, p1, k, v, q);
  }

  /** A one-digit integer directly followed by a letter: the integer is
      appended and Lex goes on to the letter part with that letter. */
  lemma DigitThenLetter(text: string, pos: nat, cur: Kind, v: Variant, q: seq<Token>) returns (p1: nat)
    requires pos <= |text|
    requires var w := Rest(text, pos); |w| >= 2 && IsDigit(w[0]) && IsLetter(w[1])
    ensures var w := Rest(text, pos);
      p1 <= |text| && Rest(text, p1) == w[2..]
      && LexSpec(text, pos, cur, v, q) == Scan(text, AtLetter([w[1]], p1, Integer), v, q + [Token(Integer, [w[0]])])
  {
    var w := Rest(text, pos);
    NextNonBlankDelivers(text, pos);
    var (c, p) := NextNonBlank(text, pos);
    NextNonBlankDelivers(text, p);
    var c1;
    c1, p1 := NextNonBlank(text, p).0, NextNonBlank(text, p).1;
    assert c == [w[0]] && c1 == [w[1]] && Rest(text, p1) == w[2..];
    StartsWithDigit(text, pos, cur, v, q);
    assert Scan(text, InDigits(c, c1, p1), v, q) == Scan(text, AtLetter(c1, p1, Integer), v, q + [Token(Integer, c)]);
  }

  /** A one-digit integer directly followed by a keyword: one Lex call
      appends both, and the keyword ends the call. */
  lemma DigitThenKeyword(text: string, pos: nat, cur: Kind, k: Kind, v: Variant, q: seq<Token>)
    requires pos <= |text| && IsKeyword(k)
    requires var w := Rest(text, pos);
      |w| > |Spelling(k)| && IsDigit(w[0]) && w[1..|Spelling(k)| + 1] == Spelling(k)
    ensures var w := Rest(text, pos); var o := LexSpec(text, pos, cur, v, q);
      o.queue == q + [Token(Integer, [w[0]]), Token(k, Spelling(k))] && o.current == k
      && Rest(text, o.pos) == w[|Spelling(k)| + 1..]
  {
    var sp := Spelling(k);
    var w := Rest(text, pos);
    assert IsLetter(w[1]) by {
      assert w[1] == sp[0] && IsLetter(sp[0]);
    }
    var p1 := DigitThenLetter(text, pos, cur, v, q);
    var q1 := q + [Token(Integer, [w[0]])];
    var w1 := [w[1]] + Rest(text, p1);
    assert |sp| <= |w1| && w1[..|sp|] == sp && w1[|sp|..] == w[|sp| + 1..] by {
      assert w1 == w[1..];
    }
    LetterStartsKeyword(text, [w[1]], p1, Integer, k, v, q1);
    var o := Scan(text, AtLetter([w[1]], p1, Integer), v, q1);
    assert LexSpec(text, pos, cur, v, q) == o;
    assert o.queue == q + [Token(Integer, [w[0]]), Token(k, sp)];
  }

  /** The letter loop meeting the end of input appends the word. */
  lemma LettersCutOff(text: string, lexeme: string, pos: nat, v: Variant, q: seq<Token>)
    requires pos <= |text| && KeyLookup(lexeme) == Identifier
    ensures Scan(text, InLetters(lexeme, "", pos), v, q) == LexOutcome(q + [Token(Identifier, lexeme)], pos, Identifier)
  {
    var q' := q + [Token(Identifier, lexeme)];
    assert Scan(text, InLetters(lexeme, "", pos), v, q) == Scan(text, AtUnknown("", pos, Identifier), v, q');
  }

  // ---------------------------------------------------------------------------
  // Whole inputs, through the tokenize loop.

  /** An input whose non-blank characters are all digits tokenizes to one
      integer of those digits: blanks do not end a run. */
  lemma IntegerTokenize(text: string, v: Variant)
    requires var w := Rest(text, 0); w != [] && Decimal.AllDigits(w)
    ensures Tokenize(text, v) == [Token(Integer, Rest(text, 0)), Token(EOF, "EOF")]
  {
    var w := Rest(text, 0);
    var q1 := [Token(Integer, w)];
    IntegerToEnd(text, 0, LParen, v, []);
    assert LexSpec(text, 0, LParen, v, []) == LexOutcome(q1, |text|, Integer);
    assert TokenizeFrom(text, 0, LParen, v, []) == TokenizeFrom(text, |text|, Integer, v, q1);
    assert text[|text|..] == [];
    EndOfInput(text, |text|, Integer, v, q1);
    assert TokenizeFrom(text, |text|, Integer, v, q1) == TokenizeFrom(text, |text|, EOF, v, q1);
  }

  /** An input whose non-blank characters are one letter: as written the
      letter is lost and only the end marker remains; as intended it is an
      identifier. */
  lemma SingleLetterTokenize(text: string)
    requires var w := Rest(text, 0); |w| == 1 && IsLetter(w[0])
    ensures Tokenize(text, AsWritten) == [Token(EOF, "EOF")]
    ensures Tokenize(text, Intended) == [Token(Identifier, Rest(text, 0)), Token(EOF, "EOF")]
  {
    var w := Rest(text, 0);
    assert w[..1] == w;
    var q1 := [Token(Identifier, w)];
    WordToEnd(text, 0, LParen, AsWritten, []);
    assert LexSpec(text, 0, LParen, AsWritten, []) == LexOutcome([], |text|, EOF);
    assert TokenizeFrom(text, 0, LParen, AsWritten, []) == TokenizeFrom(text, |text|, EOF, AsWritten, []);
    WordToEnd(text, 0, LParen, Intended, []);
    assert LexSpec(text, 0, LParen, Intended, []) == LexOutcome(q1, |text|, Identifier);
    assert TokenizeFrom(text, 0, LParen, Intended, []) == TokenizeFrom(text, |text|, Identifier, Intended, q1);
    assert text[|text|..] == [];
    EndOfInput(text, |text|, Identifier, Intended, q1);
    assert TokenizeFrom(text, |text|, Identifier, Intended, q1) == TokenizeFrom(text, |text|, EOF, Intended, q1);
  }

  /** An input whose non-blank characters are several letters spelling no
      keyword on the way tokenizes to one identifier either way. */
  lemma WordTokenize(text: string, v: Variant)
    requires var w := Rest(text, 0); |w| >= 2 && AllLetters(w) && NoKeywordPrefix(w)
    ensures Tokenize(text, v) == [Token(Identifier, Rest(text, 0)), Token(EOF, "EOF")]
  {
    var w := Rest(text, 0);
    var q1 := [Token(Identifier, w)];
    WordToEnd(text, 0, LParen, v, []);
    assert LexSpec(text, 0, LParen, v, []) == LexOutcome(q1, |text|, Identifier);
    assert TokenizeFrom(text, 0, LParen, v, []) == TokenizeFrom(text, |text|, Identifier, v, q1);
    assert text[|text|..] == [];
    EndOfInput(text, |text|, Identifier, v, q1);
    assert TokenizeFrom(text, |text|, Identifier, v, q1) == TokenizeFrom(text, |text|, EOF, v, q1);
  }

  /** An input whose first non-blank character is neither a letter, a digit
      nor punctuation: that character becomes a token of kind EOF, which
      stops the driver, so nothing after it is read. */
  lemma UnknownEnds(text: string, v: Variant)
    requires var w := Rest(text, 0);
      w != [] && !IsLetter(w[0]) && !IsDigit(w[0]) && Lookup([w[0]]) == EOF
    ensures Tokenize(text, v) == [Token(EOF, [Rest(text, 0)[0]]), Token(EOF, "EOF")]
  {
    var w := Rest(text, 0);
    NextNonBlankDelivers(text, 0);
    var (c, p) := NextNonBlank(text, 0);
    assert c == [w[0]];
    StartsWithNonDigit(text, 0, LParen, v, []);
    assert Scan(text, AtLetter(c, p, LParen), v, []) == Scan(text, AtUnknown(c, p, LParen), v, []);
    assert LexSpec(text, 0, LParen, v, []) == LexOutcome([Token(EOF, c)], p, EOF);
    TokenizeStep(text, 0, LParen, v, []);
    assert TokenizeFrom(text, p, EOF, v, [Token(EOF, c)]) == [Token(EOF, c), Token(EOF, "EOF")];
  }

  /** `1 2` is one integer token `12`. */
  lemma BlanksInsideInteger()
    ensures Tokenize("1 2", AsWritten) == [Token(Integer, "12"), Token(EOF, "EOF")]
  {
    assert Rest("1 2", 0) == "12" by {
      assert "1 2"[0..] == "1 2";
      assert NonBlank("2") == "2";
      assert NonBlank(" 2") == "2";
    }
    IntegerTokenize("1 2", AsWritten);
  }

  /** `ifx`: the keyword `if` is taken as soon as it is spelled, and the
      trailing single letter `x` is then lost as written. */
  lemma KeywordThenLetter()
    ensures Tokenize("ifx", AsWritten) == [Token(If, "if"), Token(EOF, "EOF")]
    ensures Tokenize("ifx", Intended) == [Token(If, "if"), Token(Identifier, "x"), Token(EOF, "EOF")]
  {
    KeywordThenLetterAsWritten();
    KeywordThenLetterIntended();
  }

  /** The first Lex call on `ifx` appends `if` and leaves `x` ahead. */
  lemma IfFirst(v: Variant)
    ensures var o := LexSpec("ifx", 0, LParen, v, []);
      o.queue == [Token(If, "if")] && o.current == If && Rest("ifx", o.pos) == "x"
  {
    var text := "ifx";
    assert Rest(text, 0) == text by {
      assert text[0..] == text;
      assert NonBlank("x") == "x";
      assert NonBlank("fx") == "fx";
    }
    assert text[..2] == "if" && text[2..] == "x";
    KeywordFirst(text, 0, LParen, If, v, []);
  }

  /** Tokenizing `ifx` goes on, after the first Lex call, from `if`. */
  lemma TokenizeAfterIf(v: Variant)
    ensures var o := LexSpec("ifx", 0, LParen, v, []);
      Tokenize("ifx", v) == TokenizeFrom("ifx", o.pos, If, v, [Token(If, "if")])
  {
    IfFirst(v);
  }

  /** After `if`, the second Lex call on `ifx` meets the single letter `x`. */
  lemma AfterIf(v: Variant)
    ensures var o := LexSpec("ifx", 0, LParen, v, []);
      var q1 := [Token(If, "if")];
      LexSpec("ifx", o.pos, If, v, q1)
         == if v == AsWritten then LexOutcome(q1, 3, EOF)
            else LexOutcome(q1 + [Token(Identifier, "x")], 3, Identifier)
  {
    IfFirst(v);
    var o := LexSpec("ifx", 0, LParen, v, []);
    assert "x"[..1] == "x";
    WordToEnd("ifx", o.pos, If, v, [Token(If, "if")]);
  }

  /** The rest of `ifx` after `if`, as intended: `x` and the end marker. */
  lemma RestAfterIfIntended()
    ensures var o := LexSpec("ifx", 0, LParen, Intended, []);
      TokenizeFrom("ifx", o.pos, If, Intended, [Token(If, "if")])
      == [Token(If, "if"), Token(Identifier, "x"), Token(EOF, "EOF")]
  {
    var q1 := [Token(If, "if")];
    var q2 := [Token(If, "if"), Token(Identifier, "x")];
    AfterIf(Intended);
    var o := LexSpec("ifx", 0, LParen, Intended, []);
    assert q1 + [Token(Identifier, "x")] == q2;
    TokenizeStep("ifx", o.pos, If, Intended, q1);
    assert "ifx"[3..] == [];
    TokenizeAtEnd("ifx", 3, Identifier, Intended, q2);
  }

  lemma KeywordThenLetterAsWritten()
    ensures Tokenize("ifx", AsWritten) == [Token(If, "if"), Token(EOF, "EOF")]
  {
    var q1 := [Token(If, "if")];
    var o := LexSpec("ifx", 0, LParen, AsWritten, []);
    assert Tokenize("ifx", AsWritten) == TokenizeFrom("ifx", o.pos, If, AsWritten, q1) by {
      TokenizeAfterIf(AsWritten);
    }
    assert TokenizeFrom("ifx", o.pos, If, AsWritten, q1) == q1 + [Token(EOF, "EOF")] by {
      AfterIf(AsWritten);
      LastLex("ifx", o.pos, If, AsWritten, q1);
    }
  }

  /** `x1`: a letter run ends at the first non-letter, and a digit there is
      neither the start of an integer nor an unknown character, so Lex
      returns without appending it; in both variants the `1` is lost. */
  lemma LetterThenDigit(v: Variant)
    ensures Tokenize("x1", v) == [Token(Identifier, "x"), Token(EOF, "EOF")]
  {
    var text := "x1";
    var q := [Token(Identifier, "x")];
    assert NextNonBlank(text, 0) == ("x", 1);
    assert NextNonBlank(text, 1) == ("1", 2);
    assert NextNonBlank(text, 2) == ("", 2);
    assert KeyLookup("x") == Identifier;
    assert Step(text, Start(0, LParen), v, []) == Move([], AtLetter("x", 1, LParen));
    assert Step(text, AtLetter("x", 1, LParen), v, []) == Move([], InLetters("x", "1", 2));
    assert Step(text, InLetters("x", "1", 2), v, []) == Move(q, AtUnknown("1", 2, Identifier));
    assert Step(text, AtUnknown("1", 2, Identifier), v, q) == Move(q, Done(2, Identifier));
    assert LexSpec(text, 0, LParen, v, []) == LexOutcome(q, 2, Identifier);
    assert LexSpec(text, 2, Identifier, v, q) == LexOutcome(q, 2, EOF);
  }

  /** A Lex call that appends nothing and sets EOF is the last one. */
  lemma LastLex(text: string, pos: nat, cur: Kind, v: Variant, q: seq<Token>)
    requires pos <= |text| && cur != EOF
    requires var o := LexSpec(text, pos, cur, v, q); o.queue == q && o.current == EOF
    ensures TokenizeFrom(text, pos, cur, v, q) == q + [Token(EOF, "EOF")]
  {
  }

  lemma KeywordThenLetterIntended()
    ensures Tokenize("ifx", Intended) == [Token(If, "if"), Token(Identifier, "x"), Token(EOF, "EOF")]
  {
    TokenizeAfterIf(Intended);
    RestAfterIfIntended();
  }

  /** The first three Lex calls on a text whose non-blank characters are
      `letx=1inx`: `let`, then `x` and `=`, then `1` and `in`, leaving the
      final `x` ahead. */
  lemma LetXPrefix(text: string, v: Variant) returns (p: nat)
    requires Rest(text, 0) == "letx=1inx"
    ensures p <= |text| && Rest(text, p) == "x"
    ensures Tokenize(text, v)
            == TokenizeFrom(text, p, In, v, [Token(Let, "let"), Token(Identifier, "x"), Token(Equals, "="),
                                             Token(Integer, "1"), Token(In, "in")])
  {
    var p1 := LexLetOf(text, v);
    var p2 := LexXEquals(text, p1, v);
    p := LexOneIn(text, p2, v);
    assert [Token(Let, "let"), Token(Identifier, "x"), Token(Equals, "=")] + [Token(Integer, "1"), Token(In, "in")]
        == [Token(Let, "let"), Token(Identifier, "x"), Token(Equals, "="), Token(Integer, "1"), Token(In, "in")];
  }

  lemma LexLetOf(text: string, v: Variant) returns (p1: nat)
    requires Rest(text, 0) == "letx=1inx"
    ensures p1 <= |text| && Rest(text, p1) == "x=1inx"
    ensures Tokenize(text, v) == TokenizeFrom(text, p1, Let, v, [Token(Let, "let")])
  {
    var w := "letx=1inx";
    assert w[..3] == "let" && w[3..] == "x=1inx";
    KeywordFirst(text, 0, LParen, Let, v, []);
    var o := LexSpec(text, 0, LParen, v, []);
    assert o.queue == [Token(Let, "let")];
    assert o.current == Let;
    assert Rest(text, o.pos) == "x=1inx";
    TokenizeStep(text, 0, LParen, v, []);
    p1 := o.pos;
  }

  lemma LexXEquals(text: string, p1: nat, v: Variant) returns (p2: nat)
    requires p1 <= |text| && Rest(text, p1) == "x=1inx"
    ensures p2 <= |text| && Rest(text, p2) == "1inx"
    ensures TokenizeFrom(text, p1, Let, v, [Token(Let, "let")])
            == TokenizeFrom(text, p2, Equals, v, [Token(Let, "let"), Token(Identifier, "x"), Token(Equals, "=")])
  {
    var w := "x=1inx";
    var q1 := [Token(Let, "let")];
    assert w[0] == 'x' && [w[0]] == "x" && [w[1]] == "=" && w[2..] == "1inx";
    assert KeyLookup("x") == Identifier && Lookup("=") == Equals;
    LetterThenPunctuation(text, p1, Let, v, q1);
    var o := LexSpec(text, p1, Let, v, q1);
    assert o.queue == [Token(Let, "let"), Token(Identifier, "x"), Token(Equals, "=")];
    assert o.current == Equals;
    assert Rest(text, o.pos) == "1inx";
    TokenizeStep(text, p1, Let, v, q1);
    p2 := o.pos;
  }

  lemma LexOneIn(text: string, p2: nat, v: Variant) returns (p3: nat)
    requires p2 <= |text| && Rest(text, p2) == "1inx"
    ensures p3 <= |text| && Rest(text, p3) == "x"
    ensures var q2 := [Token(Let, "let"), Token(Identifier, "x"), Token(Equals, "=")];
      TokenizeFrom(text, p2, Equals, v, q2) == TokenizeFrom(text, p3, In, v, q2 + [Token(Integer, "1"), Token(In, "in")])
  {
    var w := "1inx";
    var q2 := [Token(Let, "let"), Token(Identifier, "x"), Token(Equals, "=")];
    assert w[1..3] == "in" && w[3..] == "x" && [w[0]] == "1";
    assert Spelling(In) == "in";
    DigitThenKeyword(text, p2, Equals, In, v, q2);
    var o := LexSpec(text, p2, Equals, v, q2);
    assert o.queue == q2 + [Token(Integer, "1"), Token(In, "in")];
    assert o.current == In;
    assert Rest(text, o.pos) == "x";
    TokenizeStep(text, p2, Equals, v, q2);
    p3 := o.pos;
  }

  /** `let x = 1 in x`: as written the final single-letter `x` is lost, so
      the body of the let is missing from the queue; as intended it is the
      last token before the end marker. */
  lemma LetXTokenize(text: string)
    requires Rest(text, 0) == "letx=1inx"
    ensures Tokenize(text, AsWritten)
            == [Token(Let, "let"), Token(Identifier, "x"), Token(Equals, "="), Token(Integer, "1"),
                Token(In, "in"), Token(EOF, "EOF")]
    ensures Tokenize(text, Intended)
            == [Token(Let, "let"), Token(Identifier, "x"), Token(Equals, "="), Token(Integer, "1"),
                Token(In, "in"), Token(Identifier, "x"), Token(EOF, "EOF")]
  {
    LetXLast(text, AsWritten);
    LetXLast(text, Intended);
  }

  lemma LetXLast(text: string, v: Variant)
    requires Rest(text, 0) == "letx=1inx"
    ensures var q3 := [Token(Let, "let"), Token(Identifier, "x"), Token(Equals, "="), Token(Integer, "1"),
                       Token(In, "in")];
      Tokenize(text, v) == if v == AsWritten then q3 + [Token(EOF, "EOF")]
                           else q3 + [Token(Identifier, "x"), Token(EOF, "EOF")]
  {
    var q3 := [Token(Let, "let"), Token(Identifier, "x"), Token(Equals, "="), Token(Integer, "1"),
               Token(In, "in")];
    var p := LetXPrefix(text, v);
    assert "x"[..1] == "x";
    WordToEnd(text, p, In, v, q3);
    TokenizeStep(text, p, In, v, q3);
    assert text[|text|..] == [];
    TokenizeAtEnd(text, |text|, if v == AsWritten then EOF else Identifier, v,
                  if v == AsWritten then q3 else q3 + [Token(Identifier, "x")]);
  }
}
