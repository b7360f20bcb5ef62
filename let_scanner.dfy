/** The scanner of the LET interpreter: character classification, keyword and
    punctuation lookup, a blank-skipping character reader, the Lexer whose Lex
    call appends the tokens of one scanning step, and the driver loop that
    calls Lex until end of input. */
module LetScanner {
  import opened Results
  import Decimal

  /** Token kinds. In the source they are runes: EOF is -1, LParen .. integer
      are 0 .. 12, and Unknown is tokenType(unknown) = 99, which only the
      parser's peek produces, for an empty queue. */
  datatype Kind =
    | EOF | LParen | RParen | Comma | Minus | Equals | IsZero | If | Then
    | Else | Let | In | Identifier | Integer | Unknown

  datatype Token = Token(kind: Kind, text: string)

  /** Character classes: EOF (-1), letter (0), digit (1), unknown (99). */
  datatype CharClass = EndOfText | Letter | Digit | Other

  datatype CharType = CharType(ch: string, charClass: CharClass)

  predicate IsDigit(c: char) {
    Decimal.IsDigit(c)
  }

  predicate IsLetter(c: char) {
    'a' <= c <= 'z' || 'A' <= c <= 'Z'
  }

  /** unicode.IsSpace restricted to Latin-1: tab, newline, vertical tab,
      form feed, carriage return, space, NEL and no-break space. */
  predicate IsSpace(c: char) {
    c == ' ' || c == '\t' || c == '\n' || c == '\U{B}' || c == '\U{C}' || c == '\r'
    || c == '\U{85}' || c == '\U{A0}'
  }

  predicate AllLetters(s: string) {
    forall i | 0 <= i < |s| :: IsLetter(s[i])
  }

  predicate IsKeyword(k: Kind) {
    k == Let || k == In || k == Else || k == Then || k == If || k == IsZero || k == Minus
  }

  predicate IsPunctuation(k: Kind) {
    k == LParen || k == RParen || k == Comma || k == Equals
  }

  /** The surface spelling of each keyword kind. */
  function Spelling(k: Kind): (s: string)
    requires IsKeyword(k)
    ensures |s| >= 2 && AllLetters(s)
  {
    match k
    case Let => "let"
    case In => "in"
    case Else => "else"
    case Then => "then"
    case If => "if"
    case IsZero => "iszero"
    case Minus => "minus"
  }

  /** The one-character spelling of each punctuation kind. */
  function PunctuationSpelling(k: Kind): (s: string)
    requires IsPunctuation(k)
    ensures |s| == 1 && !IsLetter(s[0]) && !IsDigit(s[0]) && !IsSpace(s[0])
  {
    match k
    case LParen => "("
    case RParen => ")"
    case Comma => ","
    case Equals => "="
  }

  /** lookup: the four punctuation strings map to their kinds, everything else to EOF. */
  function Lookup(s: string): (k: Kind)
    ensures k == EOF || (IsPunctuation(k) && PunctuationSpelling(k) == s)
    ensures k == EOF ==> forall p :: IsPunctuation(p) ==> PunctuationSpelling(p) != s
  {
    match s
    case "(" => LParen
    case ")" => RParen
    case "," => Comma
    case "=" => Equals
    case _ => EOF
  }

  /** keyLookup: the seven keyword spellings map to their kinds, everything else to Identifier. */
  function KeyLookup(s: string): (k: Kind)
    ensures k == Identifier || (IsKeyword(k) && Spelling(k) == s)
    ensures k == Identifier ==> forall w :: IsKeyword(w) ==> Spelling(w) != s
  {
    match s
    case "let" => Let
    case "in" => In
    case "else" => Else
    case "then" => Then
    case "if" => If
    case "iszero" => IsZero
    case "minus" => Minus
    case _ => Identifier
  }

  /** getCharType: the empty string is end of input; otherwise the first
      character decides. Punctuation falls in the Other class. */
  function GetCharType(s: string): (ct: CharType)
    ensures ct.ch == s
    ensures ct.charClass == EndOfText <==> s == ""
    ensures ct.charClass == Digit <==> s != "" && IsDigit(s[0])
    ensures ct.charClass == Letter <==> s != "" && IsLetter(s[0])
  {
    if s == "" then CharType(s, EndOfText)
    else if IsDigit(s[0]) then CharType(s, Digit)
    else if IsLetter(s[0]) then CharType(s, Letter)
    else CharType(s, Other)
  }

  /** Keyword and punctuation lookups invert their spellings. */
  lemma SpellingsRoundTrip(k: Kind)
    ensures IsKeyword(k) ==> KeyLookup(Spelling(k)) == k && Lookup(Spelling(k)) == EOF
    ensures IsPunctuation(k) ==>
              Lookup(PunctuationSpelling(k)) == k
              && KeyLookup(PunctuationSpelling(k)) == Identifier
              && GetCharType(PunctuationSpelling(k)).charClass == Other
  {
  }

  /** No keyword spelling is a proper prefix of another keyword spelling,
      so the first keyword a growing lexeme spells is the whole keyword. */
  lemma KeywordPrefixes(k: Kind, n: nat)
    requires IsKeyword(k) && n < |Spelling(k)|
    ensures KeyLookup(Spelling(k)[..n]) == Identifier
  {
    var p := Spelling(k)[..n];
    match k
    case Let =>
      if n == 0 {
        assert p == "";
      } else if n == 1 {
        assert p == "l";
      } else {
        assert p == "le";
      }
    case In =>
      if n == 0 {
        assert p == "";
      } else {
        assert p == "i";
      }
    case Else =>
      if n == 0 {
        assert p == "";
      } else if n == 1 {
        assert p == "e";
      } else if n == 2 {
        assert p == "el";
      } else {
        assert p == "els";
      }
    case Then =>
      if n == 0 {
        assert p == "";
      } else if n == 1 {
        assert p == "t";
      } else if n == 2 {
        assert p == "th";
      } else {
        assert p == "the";
      }
    case If =>
      if n == 0 {
        assert p == "";
      } else {
        assert p == "i";
      }
    case IsZero =>
      if n == 0 {
        assert p == "";
      } else if n == 1 {
        assert p == "i";
      } else if n == 2 {
        assert p == "is";
      } else if n == 3 {
        assert p == "isz";
      } else if n == 4 {
        assert p == "isze";
      } else {
        assert p == "iszer";
      }
    case Minus =>
      if n == 0 {
        assert p == "";
      } else if n == 1 {
        assert p == "m";
      } else if n == 2 {
        assert p == "mi";
      } else if n == 3 {
        assert p == "min";
      } else {
        assert p == "minu";
      }
  }

  // ---------------------------------------------------------------------------
  // The blank-skipping reader.

  /** The next non-blank character at or after pos (as a one-character
      string), and the cursor just past it; "" and the end when only blanks
      remain. */
  function NextNonBlank(text: string, pos: nat): (r: (string, nat))
    requires pos <= |text|
    ensures pos <= r.1 <= |text|
    ensures r.0 == "" ==> r.1 == |text|
    ensures r.0 != "" ==> pos < r.1 && r.0 == [text[r.1 - 1]] && !IsSpace(text[r.1 - 1])
    decreases |text| - pos
  {
    if pos == |text| then ("", pos)
    else if IsSpace(text[pos]) then NextNonBlank(text, pos + 1)
    else ([text[pos]], pos + 1)
  }

  /** Everything the reader skips is blank. */
  lemma {:induction false} NextNonBlankSkipsBlanks(text: string, pos: nat)
    requires pos <= |text|
    ensures var (c, p) := NextNonBlank(text, pos);
      forall i | pos <= i < |text| && (c == "" || i < p - 1) :: IsSpace(text[i])
    decreases |text| - pos
  {
    if pos < |text| && IsSpace(text[pos]) {
      NextNonBlankSkipsBlanks(text, pos + 1);
    }
  }

  /** The text with its blanks removed: what the reader delivers, in order. */
  function NonBlank(s: string): (r: string)
    ensures forall i | 0 <= i < |r| :: !IsSpace(r[i])
  {
    if s == [] then []
    else if IsSpace(s[0]) then NonBlank(s[1..])
    else [s[0]] + NonBlank(s[1..])
  }

  /** A text without blanks is delivered as it stands. */
  lemma {:induction false} NonBlankKeeps(s: string)
    requires forall i | 0 <= i < |s| :: !IsSpace(s[i])
    ensures NonBlank(s) == s
  {
    if s != [] {
      NonBlankKeeps(s[1..]);
    }
  }

  /** The reader hands out NonBlank(text[pos..]) one character at a time. */
  lemma {:induction false} NextNonBlankDelivers(text: string, pos: nat)
    requires pos <= |text|
    ensures var (c, p) := NextNonBlank(text, pos);
      var w := NonBlank(text[pos..]);
      (c == "" <==> w == []) && (c != "" ==> c == [w[0]] && NonBlank(text[p..]) == w[1..])
    decreases |text| - pos
  {
    if pos < |text| {
      assert text[pos..][1..] == text[pos + 1..];
      if IsSpace(text[pos]) {
        NextNonBlankDelivers(text, pos + 1);
      }
    }
  }

  /** A character stream read one rune at a time, as bufio.Scanner with ScanRunes. */
  class CharStream {
    const text: string
    var pos: nat

    ghost predicate Valid()
      reads this
    {
      pos <= |text|
    }

    constructor (text: string)
      ensures Valid() && this.text == text && pos == 0
    {
      this.text := text;
      pos := 0;
    }

    /** getNextNonBlank: read runes until a non-blank one; "" at end of input. */
    method GetNextNonBlank() returns (c: string)
      requires Valid()
      modifies this
      ensures Valid()
      ensures (c, pos) == NextNonBlank(text, old(pos))
    {
      if pos == |text| {
        return "";
      }
      var ch := text[pos];
      pos := pos + 1;
      while IsSpace(ch)
        invariant 0 < pos <= |text| && ch == text[pos - 1]
        invariant NextNonBlank(text, pos - 1) == NextNonBlank(text, old(pos))
        decreases |text| - pos
      {
        if pos == |text| {
          return "";
        }
        ch := text[pos];
        pos := pos + 1;
      }
      c := [ch];
    }
  }

  // ---------------------------------------------------------------------------
  // One call of Lex, as a small-step machine over the control points of its body.

  /** Lex as written, and Lex with the early return at end of input after a
      single letter removed (the lexeme is then emitted like any other). */
  datatype Variant = AsWritten | Intended

  /** The control points of one Lex call. c is the current character as
      delivered by the reader and pos the reader's cursor. */
  datatype LexState =
    | Start(pos: nat, current: Kind)
    | InDigits(lexeme: string, c: string, pos: nat)
    | AtLetter(c: string, pos: nat, current: Kind)
    | InLetters(lexeme: string, c: string, pos: nat)
    | AtUnknown(c: string, pos: nat, current: Kind)
    | Done(pos: nat, current: Kind)

  /** The queue after a step, and the control point reached. */
  datatype Move = Move(queue: seq<Token>, next: LexState)

  /** The token queue after one Lex call, the reader's cursor after it, and
      the value it leaves in currentTokenType. */
  datatype LexOutcome = LexOutcome(queue: seq<Token>, pos: nat, current: Kind)

  function Rank(st: LexState): nat {
    match st
    case Start(_, _) => 5
    case InDigits(_, _, _) => 4
    case AtLetter(_, _, _) => 3
    case InLetters(_, _, _) => 2
    case AtUnknown(_, _, _) => 1
    case Done(_, _) => 0
  }

  predicate IsDigitChar(c: string) {
    c != "" && IsDigit(c[0])
  }

  predicate IsLetterChar(c: string) {
    c != "" && IsLetter(c[0])
  }

  /** One step of Lex: from one control point to the next, appending to the
      queue on the way. Every step reads a character or moves to a later
      control point. */
  function Step(text: string, st: LexState, v: Variant, q: seq<Token>): (m: Move)
    requires st.pos <= |text| && !st.Done?
    ensures st.pos <= m.next.pos <= |text|
    ensures m.next.pos > st.pos || Rank(m.next) < Rank(st)
    ensures st.Start? ==> m.next.pos > st.pos || (m.next == Done(st.pos, EOF) && m.queue == q)
  {
    match st
    case Start(pos, cur) =>
      var (c, p) := NextNonBlank(text, pos);
      if c == "" then Move(q, Done(p, EOF))
      else if IsDigitChar(c) then
        var (c1, p1) := NextNonBlank(text, p);
        Move(q, InDigits(c, c1, p1))
      else Move(q, AtLetter(c, p, cur))
    case InDigits(lexeme, c, pos) =>
      if !IsDigitChar(c) then Move(q + [Token(Integer, lexeme)], AtLetter(c, pos, Integer))
      else
        var (c1, p1) := NextNonBlank(text, pos);
        if c1 == "" then Move(q + [Token(Integer, lexeme + c)], Done(p1, Integer))
        else Move(q, InDigits(lexeme + c, c1, p1))
    case AtLetter(c, pos, cur) =>
      if !IsLetterChar(c) then Move(q, AtUnknown(c, pos, cur))
      else if KeyLookup(c) != Identifier then Move(q + [Token(KeyLookup(c), c)], Done(pos, KeyLookup(c)))
      else
        var (c1, p1) := NextNonBlank(text, pos);
        if c1 == "" && v == AsWritten then Move(q, Done(p1, EOF))
        else Move(q, InLetters(c, c1, p1))
    case InLetters(lexeme, c, pos) =>
      if !IsLetterChar(c) then
        Move(q + [Token(KeyLookup(lexeme), lexeme)], AtUnknown(c, pos, KeyLookup(lexeme)))
      else
        var grown := lexeme + c;
        if KeyLookup(grown) != Identifier then
          Move(q + [Token(KeyLookup(grown), grown)], Done(pos, KeyLookup(grown)))
        else
          var (c1, p1) := NextNonBlank(text, pos);
          if c1 == "" then Move(q + [Token(KeyLookup(grown), grown)], Done(p1, KeyLookup(grown)))
          else Move(q, InLetters(grown, c1, p1))
    case AtUnknown(c, pos, cur) =>
      if GetCharType(c).charClass == Other then Move(q + [Token(Lookup(c), c)], Done(pos, Lookup(c)))
      else Move(q, Done(pos, cur))
  }

  /** Run the machine from st until Lex returns. */
  function Scan(text: string, st: LexState, v: Variant, q: seq<Token>): (o: LexOutcome)
    requires st.pos <= |text|
    ensures st.pos <= o.pos <= |text|
    ensures st.Done? ==> o == LexOutcome(q, st.pos, st.current)
    decreases |text| - st.pos, Rank(st)
  {
    if st.Done? then LexOutcome(q, st.pos, st.current)
    else
      var m := Step(text, st, v, q);
      Scan(text, m.next, v, m.queue)
  }

  /** What one Lex call does when the reader is at pos, currentTokenType
      holds cur and the queue is q. A call either consumes input or ends
      with EOF. */
  function LexSpec(text: string, pos: nat, cur: Kind, v: Variant, q: seq<Token>): (o: LexOutcome)
    requires pos <= |text|
    ensures pos <= o.pos <= |text|
    ensures o.pos > pos || o.current == EOF
  {
    Scan(text, Start(pos, cur), v, q)
  }

  /** The lexer: the tokens found so far, the kind of the last token (EOF once
      the input is exhausted) and the character reader. */
  class Lexer {
    var tokenQueue: seq<Token>
    var currentTokenType: Kind
    const inputBuffer: CharStream

    /** initializer: an empty queue, and currentTokenType at its zero value,
        which is the rune of LParen. */
    constructor (scanner: CharStream)
      ensures inputBuffer == scanner && tokenQueue == [] && currentTokenType == LParen
    {
      inputBuffer := scanner;
      tokenQueue := [];
      currentTokenType := LParen;
    }

    /** The digit loop of Lex: extend the lexeme while digits come, stopping
        at the first other character or at the end of input. On return the
        next step of Lex appends the integer token. */
    method DigitLoop(lexeme0: string, char0: CharType, ghost spec: LexOutcome)
      returns (lexeme: string, currentChar: CharType, isEOF: bool, ghost st: LexState)
      requires inputBuffer.Valid()
      requires char0 == GetCharType(char0.ch) && |char0.ch| <= 1
      requires Scan(inputBuffer.text, InDigits(lexeme0, char0.ch, inputBuffer.pos), AsWritten, tokenQueue) == spec
      modifies this, inputBuffer
      ensures inputBuffer.Valid() && tokenQueue == old(tokenQueue)
      ensures currentChar == GetCharType(currentChar.ch) && |currentChar.ch| <= 1
      ensures st.InDigits? && st.pos <= |inputBuffer.text|
      ensures Scan(inputBuffer.text, st, AsWritten, tokenQueue) == spec
      ensures Step(inputBuffer.text, st, AsWritten, tokenQueue)
              == Move(tokenQueue + [Token(Integer, lexeme)],
                      if isEOF then Done(inputBuffer.pos, Integer)
                      else AtLetter(currentChar.ch, inputBuffer.pos, Integer))
    {
      lexeme, currentChar, isEOF := lexeme0, char0, false;
      st := InDigits(lexeme, currentChar.ch, inputBuffer.pos);
      while true
        invariant inputBuffer.Valid()
        invariant tokenQueue == old(tokenQueue)
        invariant currentChar == GetCharType(currentChar.ch) && |currentChar.ch| <= 1
        invariant st == InDigits(lexeme, currentChar.ch, inputBuffer.pos)
        invariant Scan(inputBuffer.text, st, AsWritten, tokenQueue) == spec
        decreases |inputBuffer.text| - inputBuffer.pos
      {
        if currentChar.charClass != Digit {
          return;
        }
        lexeme := lexeme + currentChar.ch;
        var c := inputBuffer.GetNextNonBlank();
        currentChar := GetCharType(c);
        if currentChar.ch == "" {
          currentTokenType := EOF;
          isEOF := true;
          return;
        }
        st := InDigits(lexeme, currentChar.ch, inputBuffer.pos);
      }
    }

    /** The letter loop of Lex: extend the lexeme while letters come. If it
        spells a keyword the keyword token is appended and Lex is over
        (found); otherwise the loop stops at the first other character or at
        the end of input, and the next step of Lex appends the word. */
    method LetterLoop(lexeme0: string, char0: CharType, ghost spec: LexOutcome)
      returns (lexeme: string, currentChar: CharType, isEOF: bool, found: bool, ghost st: LexState)
      requires inputBuffer.Valid()
      requires char0 == GetCharType(char0.ch) && |char0.ch| <= 1
      requires Scan(inputBuffer.text, InLetters(lexeme0, char0.ch, inputBuffer.pos), AsWritten, tokenQueue) == spec
      modifies this, inputBuffer
      ensures inputBuffer.Valid()
      ensures found ==> spec == LexOutcome(tokenQueue, inputBuffer.pos, currentTokenType)
      ensures !found ==>
                tokenQueue == old(tokenQueue)
                && currentChar == GetCharType(currentChar.ch) && |currentChar.ch| <= 1
                && st.InLetters? && st.pos <= |inputBuffer.text|
                && Scan(inputBuffer.text, st, AsWritten, tokenQueue) == spec
                && Step(inputBuffer.text, st, AsWritten, tokenQueue)
                   == Move(tokenQueue + [Token(KeyLookup(lexeme), lexeme)],
                           if isEOF then Done(inputBuffer.pos, KeyLookup(lexeme))
                           else AtUnknown(currentChar.ch, inputBuffer.pos, KeyLookup(lexeme)))
    {
      lexeme, currentChar, isEOF, found := lexeme0, char0, false, false;
      st := InLetters(lexeme, currentChar.ch, inputBuffer.pos);
      while true
        invariant inputBuffer.Valid()
        invariant tokenQueue == old(tokenQueue)
        invariant currentChar == GetCharType(currentChar.ch) && |currentChar.ch| <= 1
        invariant st == InLetters(lexeme, currentChar.ch, inputBuffer.pos)
        invariant Scan(inputBuffer.text, st, AsWritten, tokenQueue) == spec
        decreases |inputBuffer.text| - inputBuffer.pos
      {
        if currentChar.charClass != Letter {
          return;
        }
        lexeme := lexeme + currentChar.ch;
        currentTokenType := KeyLookup(lexeme);
        if currentTokenType != Identifier {
          tokenQueue := tokenQueue + [Token(currentTokenType, lexeme)];
          lexeme := "";
          found := true;
          return;
        }
        var c := inputBuffer.GetNextNonBlank();
        currentChar := GetCharType(c);
        if currentChar.ch == "" {
          currentTokenType := EOF;
          isEOF := true;
          return;
        }
        st := InLetters(lexeme, currentChar.ch, inputBuffer.pos);
      }
    }

    /** The word part of Lex: a letter starts a word, which ends at a
        keyword, at the first character that is not a letter, or at the end
        of input. On return with stop false, Lex goes on to the character
        that ended the word. */
    method LexWord(lexeme0: string, char0: CharType, ghost spec: LexOutcome)
      returns (currentChar: CharType, stop: bool)
      requires inputBuffer.Valid() && lexeme0 == ""
      requires char0 == GetCharType(char0.ch) && |char0.ch| <= 1 && char0.charClass == Letter
      requires Scan(inputBuffer.text, AtLetter(char0.ch, inputBuffer.pos, currentTokenType), AsWritten, tokenQueue)
               == spec
      modifies this, inputBuffer
      ensures inputBuffer.Valid()
      ensures stop ==> spec == LexOutcome(tokenQueue, inputBuffer.pos, currentTokenType)
      ensures !stop ==>
                currentChar == GetCharType(currentChar.ch) && |currentChar.ch| <= 1
                && Scan(inputBuffer.text, AtUnknown(currentChar.ch, inputBuffer.pos, currentTokenType),
                        AsWritten, tokenQueue) == spec
    {
      var lexeme := lexeme0 + char0.ch;
      assert lexeme == char0.ch;
      currentTokenType := KeyLookup(lexeme);
      if currentTokenType != Identifier {
        // A single letter is never a keyword: every keyword has two or more.
        assert false;
      }

      var c := inputBuffer.GetNextNonBlank();
      currentChar := GetCharType(c);
      if currentChar.ch == "" {
        currentTokenType := EOF;
        return currentChar, true;
      }
      var isEOF, found;
      ghost var st;
      lexeme, currentChar, isEOF, found, st := LetterLoop(lexeme, currentChar, spec);
      if found {
        return currentChar, true;
      }
      currentTokenType := KeyLookup(lexeme);
      tokenQueue := tokenQueue + [Token(currentTokenType, lexeme)];
      stop := isEOF;
    }

    /** Lex: scan one integer, one word, or one integer followed by a word,
        then at most one punctuation character, appending their tokens. */
    method Lex()
      requires inputBuffer.Valid()
      modifies this, inputBuffer
      ensures inputBuffer.Valid()
      ensures LexSpec(inputBuffer.text, old(inputBuffer.pos), old(currentTokenType), AsWritten, old(tokenQueue))
              == LexOutcome(tokenQueue, inputBuffer.pos, currentTokenType)
    {
      ghost var text := inputBuffer.text;
      ghost var spec := LexSpec(text, inputBuffer.pos, currentTokenType, AsWritten, tokenQueue);
      var lexeme := "";
      var isEOF := false;

      var c := inputBuffer.GetNextNonBlank();
      var currentChar := GetCharType(c);
      if currentChar.ch == "" {
        currentTokenType := EOF;
        return;
      }

      if currentChar.charClass == Digit {
        lexeme := lexeme + currentChar.ch;
        assert lexeme == currentChar.ch;
        c := inputBuffer.GetNextNonBlank();
        currentChar := GetCharType(c);
        ghost var st;
        lexeme, currentChar, isEOF, st := DigitLoop(lexeme, currentChar, spec);
        currentTokenType := Integer;
        tokenQueue := tokenQueue + [Token(currentTokenType, lexeme)];
        lexeme := "";
        if isEOF {
          return;
        }
      }
      assert Scan(text, AtLetter(currentChar.ch, inputBuffer.pos, currentTokenType), AsWritten, tokenQueue) == spec;
      if currentChar.charClass != Letter {
        assert Scan(text, AtUnknown(currentChar.ch, inputBuffer.pos, currentTokenType), AsWritten, tokenQueue) == spec;
      }

      if currentChar.charClass == Letter {
        var stop;
        currentChar, stop := LexWord(lexeme, currentChar, spec);
        if stop {
          return;
        }
      }

      if currentChar.charClass == Other {
        currentTokenType := Lookup(currentChar.ch);
        tokenQueue := tokenQueue + [Token(currentTokenType, currentChar.ch)];
      }
    }
  }

  // ---------------------------------------------------------------------------
  // The driver loop of main: call Lex until currentTokenType is EOF, then
  // append the end marker.

  /** The token queue the driver ends with, from reader position pos with
      currentTokenType holding cur and q already queued. */
  function TokenizeFrom(text: string, pos: nat, cur: Kind, v: Variant, q: seq<Token>): (ts: seq<Token>)
    requires pos <= |text|
    ensures |ts| > 0 && ts[|ts| - 1] == Token(EOF, "EOF")
    decreases |text| - pos, if cur == EOF then 0 else 1
  {
    if cur == EOF then q + [Token(EOF, "EOF")]
    else
      var o := LexSpec(text, pos, cur, v, q);
      TokenizeFrom(text, o.pos, o.current, v, o.queue)
  }

  /** The token queue for a whole input: a fresh lexer starts at position 0
      with currentTokenType zero (LParen) and an empty queue. */
  function Tokenize(text: string, v: Variant): (ts: seq<Token>)
    ensures |ts| > 0 && ts[|ts| - 1] == Token(EOF, "EOF")
  {
    TokenizeFrom(text, 0, LParen, v, [])
  }

  /** The tokenizing part of main: a reader over the text, a fresh lexer,
      Lex until EOF, then the end marker. */
  method TokenizeAll(text: string) returns (tokens: seq<Token>)
    ensures tokens == Tokenize(text, AsWritten)
  {
    var contents := new CharStream(text);
    var lexer := new Lexer(contents);
    while lexer.currentTokenType != EOF
      invariant lexer.inputBuffer == contents && contents.Valid() && contents.text == text
      invariant TokenizeFrom(text, contents.pos, lexer.currentTokenType, AsWritten, lexer.tokenQueue)
                == Tokenize(text, AsWritten)
      decreases |text| - contents.pos, lexer.currentTokenType != EOF
    {
      lexer.Lex();
    }
    lexer.tokenQueue := lexer.tokenQueue + [Token(EOF, "EOF")];
    tokens := lexer.tokenQueue;
  }
}
