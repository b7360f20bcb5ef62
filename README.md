# A verified model of the LET interpreter

The LET interpreter reads a program in the small LET language and runs it in three stages:

- **Scanner.** It reads the text one character at a time, skipping blanks, and turns it into a queue of typed tokens.
- **Parser.** A recursive-descent parser builds one tree node per head token: `minus(e, e)`, `iszero(e)`, `if e then e else e`, `let x = e in e`, or a leaf.
- **Evaluator.** It walks the tree with an environment, a list of name/value bindings.
  - Values are strings: the decimal text of an integer, `true`/`false`, or `""`.
  - Every visited node records the environment it was evaluated under.

This project models the three stages and the tokenizing loop of the main program, and proves properties of the model.

| file | module | what it holds |
|---|---|---|
| `results.dfy` | `Results` | `Option`, `Result` and `Outcome`. These stand for the points where the program ends the process. |
| `decimal.dfy` | `Decimal` | The `strconv` functions the evaluator calls (`Atoi`, `Itoa`, `FormatBool`) and their round trip. |
| `let_scanner.dfy` | `LetScanner` | The classifiers and the blank-skipping reader (`CharStream`). The `Lexer` class, whose `Lex` method is proved against `LexSpec`, a small-step machine over the control points of `Lex`. The driver loop `TokenizeAll`. |
| `let_scanner_facts.dfy` | `LetScannerFacts` | What `Lex` appends and how much. Runs of digits and letters, keyword priority, end of input, and whole inputs. |
| `let_parser.dfy` | `LetParser` | The queue primitives, the tree type and the `Parser` class. Its methods are proved against the functional parse `ParseExpr`. |
| `let_parser_facts.dfy` | `LetParserFacts` | Tree shapes. Printing a tree back to tokens, and parsing that round trip. Consumption of a prefix. The rejection rules. |
| `let_evaluator.dfy` | `LetEvaluator` | `bindLookup`, `evaluate` and the `Evaluator` class. |
| `let_evaluator_facts.dfy` | `LetEvaluatorFacts` | The per-form semantics. Only environments are written. A typed reference semantics `Denote` that the string-passing evaluator agrees with. |
| `let_pipeline.dfy` | `LetPipeline` | Tokenize, parse and evaluate end to end, with worked programs. |

How the model is built:

- **`Lex`.** It is a method of the `Lexer` class: it appends to `tokenQueue`, sets `currentTokenType` and advances the reader.
  - Its contract ties the new state to `LexSpec(text, pos, cur, AsWritten, queue)`.
  - `LexSpec` runs `Step` from `Start` until `Done`. `Step` has one transition per control point of `Lex`: the start, the digit loop, the first letter, the letter loop, and the unknown character.
  - `Variant` selects the code as written (`AsWritten`) or with the single-letter early return removed (`Intended`); see Findings.
- **Parser.** Each method of `Parser` consumes `tQ` in place. Its contract ties the result and the new queue to a function that threads the remaining queue: `ParseExpr`, `ParseAfter`, and one function per compound form.
- **Evaluator.** `Evaluate` returns the value and the tree with the environments recorded on it. `Evaluator.Eval` stores that tree in `root`.

## Model

| member | source | states |
|---|---|---|
| `Decimal.Atoi` | let_lang_proj_Trevor_Karl/let_evaluator.go:45-52 | Parsing succeeds exactly on an optional sign followed by at least one decimal digit. The value is the digits' value, unchanged after `+` and negated after `-`. |
| `Decimal.DigitValue` | let_lang_proj_Trevor_Karl/let_evaluator.go:45-52 | A digit's value is below ten. |
| `Decimal.DigitChar` | let_lang_proj_Trevor_Karl/let_evaluator.go:53 | The character written for a value below ten is a digit that reads back as that value. |
| `Decimal.NatDigits` | let_lang_proj_Trevor_Karl/let_evaluator.go:53 | A natural number is written as a nonempty run of digits with no leading zero unless the number is 0. |
| `Decimal.Itoa` | let_lang_proj_Trevor_Karl/let_evaluator.go:53 | The text is nonempty. It is all digits for a non-negative number and a `-` followed by digits for a negative one. |
| `Decimal.FormatBool` | let_lang_proj_Trevor_Karl/let_evaluator.go:60 | The text is `true` exactly when the argument is true, and `false` otherwise. |
| `Decimal.NatDigitsValue` | let_lang_proj_Trevor_Karl/let_evaluator.go:53 | The digits written for a natural number read back as that number. |
| `Decimal.AtoiItoa` | let_lang_proj_Trevor_Karl/let_evaluator.go:45-53 | Reading back the text `Itoa` writes gives the same integer. So a difference computed by `minus` can feed another `minus`. |
| `LetScanner.Spelling` | let_lang_proj_Trevor_Karl/let_scanner.go:63-82 | Every keyword is spelled with two or more letters. |
| `LetScanner.PunctuationSpelling` | let_lang_proj_Trevor_Karl/let_scanner.go:47-60 | Every punctuation kind is one character that is not a letter, a digit or a blank. |
| `LetScanner.Lookup` | let_lang_proj_Trevor_Karl/let_scanner.go:47-60 | `(`, `)`, `,` and `=` map to their kinds. Every other string maps to EOF (both directions). |
| `LetScanner.KeyLookup` | let_lang_proj_Trevor_Karl/let_scanner.go:63-82 | The seven keyword spellings map to their kinds. Every other string maps to Identifier (both directions). |
| `LetScanner.GetCharType` | let_lang_proj_Trevor_Karl/let_scanner.go:85-100 | The class is end of text exactly for `""`, Digit exactly for a leading digit, and Letter exactly for a leading letter. Anything else, punctuation included, is Other. |
| `LetScanner.SpellingsRoundTrip` | let_lang_proj_Trevor_Karl/let_scanner.go:47-100 | `KeyLookup` inverts `Spelling` and `Lookup` inverts `PunctuationSpelling`. Each lookup rejects the other's spellings, and punctuation is in the Other class. |
| `LetScanner.KeywordPrefixes` | let_lang_proj_Trevor_Karl/let_scanner.go:63-82 | No proper prefix of a keyword spells a keyword. |
| `LetScanner.NextNonBlank` | let_lang_proj_Trevor_Karl/let_scanner.go:103-127 | The reader returns the next non-blank character and moves just past it, or returns `""` at the end of the text. |
| `LetScanner.NextNonBlankSkipsBlanks` | let_lang_proj_Trevor_Karl/let_scanner.go:112-124 | Every character the reader passes over is blank. |
| `LetScanner.NonBlank` | let_lang_proj_Trevor_Karl/let_scanner.go:103-127 | What the reader delivers contains no blank. |
| `LetScanner.NonBlankKeeps` | let_lang_proj_Trevor_Karl/let_scanner.go:103-127 | A text without blanks is delivered unchanged. |
| `LetScanner.NextNonBlankDelivers` | let_lang_proj_Trevor_Karl/let_scanner.go:103-127 | Successive reads hand out `NonBlank(text[pos..])` one character at a time. `""` comes exactly when nothing non-blank remains. |
| `LetScanner.CharStream.constructor` | let_lang_proj_Trevor_Karl/main.go:34-36 | A reader over the text starts at position 0. |
| `LetScanner.CharStream.GetNextNonBlank` | let_lang_proj_Trevor_Karl/let_scanner.go:103-127 | The read loop returns and advances exactly as `NextNonBlank` says. |
| `LetScanner.Step` | let_lang_proj_Trevor_Karl/let_scanner.go:142-225 | Every step of `Lex` reads input or moves to a later control point. From the start it either consumes input or stops with EOF and the queue unchanged. |
| `LetScanner.Scan` | let_lang_proj_Trevor_Karl/let_scanner.go:142-225 | Running `Lex` never moves the reader backwards or past the end. |
| `LetScanner.LexSpec` | let_lang_proj_Trevor_Karl/let_scanner.go:142-225 | One `Lex` call consumes input or leaves `currentTokenType` as EOF, so the driver loop ends. |
| `LetScanner.Lexer.constructor` | let_lang_proj_Trevor_Karl/let_scanner.go:137-139 | A new lexer has an empty queue and `currentTokenType` at its zero value, the rune of LParen. |
| `LetScanner.Lexer.DigitLoop` | let_lang_proj_Trevor_Karl/let_scanner.go:156-168 | The digit loop leaves the queue alone. It ends where `LexSpec` next appends the integer, either at the end of input or before the next character. |
| `LetScanner.Lexer.LetterLoop` | let_lang_proj_Trevor_Karl/let_scanner.go:193-212 | The letter loop either appends a keyword and finishes `Lex` as `LexSpec` says, or stops where `LexSpec` next appends the word. |
| `LetScanner.Lexer.LexWord` | let_lang_proj_Trevor_Karl/let_scanner.go:178-219 | The word part of `Lex` (first letter, early return at end of input, loop, emit) ends `Lex` or reaches the unknown-character part in the state `LexSpec` prescribes. |
| `LetScanner.Lexer.Lex` | let_lang_proj_Trevor_Karl/let_scanner.go:142-225 | The new queue, reader position and `currentTokenType` are exactly `LexSpec` of the old ones. |
| `LetScanner.TokenizeFrom` | let_lang_proj_Trevor_Karl/main.go:42-50 | The driver's queue always ends with the end marker `Token(EOF, "EOF")`. |
| `LetScanner.Tokenize` | let_lang_proj_Trevor_Karl/main.go:42-50 | The token queue of a whole input ends with the end marker. |
| `LetScanner.TokenizeAll` | let_lang_proj_Trevor_Karl/main.go:42-50 | The loop calls `Lex` until `currentTokenType` is EOF and then appends the end marker. The result is `Tokenize(text, AsWritten)`. |
| `LetScannerFacts.StepEmits` | let_lang_proj_Trevor_Karl/let_scanner.go:142-225 | Each step of `Lex` keeps the lexeme a run of digits, or of letters spelling no keyword. It appends at most one well-formed token within the per-call budget. An EOF-kind token ends the call with EOF. |
| `LetScannerFacts.StartEmits` | let_lang_proj_Trevor_Karl/let_scanner.go:146-152 | The first step appends nothing. |
| `LetScannerFacts.DigitsEmit` | let_lang_proj_Trevor_Karl/let_scanner.go:156-171 | In the digit loop, the integer appended is a nonempty digit run. |
| `LetScannerFacts.LetterEmits` | let_lang_proj_Trevor_Karl/let_scanner.go:178-191 | At the first letter, anything appended is a keyword with its own spelling. |
| `LetScannerFacts.LettersEmit` | let_lang_proj_Trevor_Karl/let_scanner.go:193-215 | In the letter loop, the word appended is a letter run. It is a keyword exactly when it spells one. |
| `LetScannerFacts.UnknownEmits` | let_lang_proj_Trevor_Karl/let_scanner.go:221-224 | A non-letter, non-digit character is appended with the kind `lookup` gives it. EOF is the kind for anything but punctuation. |
| `LetScannerFacts.AllDigitsGrow` | let_lang_proj_Trevor_Karl/let_scanner.go:161 | Appending a digit to a digit run gives a digit run. |
| `LetScannerFacts.AppendsAfterMove` | let_lang_proj_Trevor_Karl/let_scanner.go:142-225 | A good step followed by good appends is a good append from the earlier queue. |
| `LetScannerFacts.ScanEmits` | let_lang_proj_Trevor_Karl/let_scanner.go:142-225 | From any consistent control point, `Lex` only appends well-formed tokens, within budget. |
| `LetScannerFacts.LexAppends` | let_lang_proj_Trevor_Karl/let_scanner.go:142-225 | One `Lex` call keeps the old queue as a prefix and appends at most three well-formed tokens. An EOF-kind token can only be the last one, and then `currentTokenType` is EOF. |
| `LetScannerFacts.FinishedAfterLex` | let_lang_proj_Trevor_Karl/main.go:42-50 | One `Lex` call followed by the rest of the driver loop keeps the queue shape. |
| `LetScannerFacts.TokenizeFromFinished` | let_lang_proj_Trevor_Karl/main.go:42-50 | The driver keeps the queue it started with. It appends only well-formed tokens and then the end marker, and an unknown-character token can only come just before the marker. |
| `LetScannerFacts.TokenizeShape` | let_lang_proj_Trevor_Karl/main.go:42-50 | Every token before the end marker is well formed: integers are digit runs, identifiers are letter runs that are no keyword, and the rest carry their own spelling. Only the token just before the marker can have kind EOF. |
| `LetScannerFacts.EndOfInput` | let_lang_proj_Trevor_Karl/let_scanner.go:146-150 | With only blanks left, `Lex` appends nothing, reads to the end and sets EOF. |
| `LetScannerFacts.TokenizeStep` | let_lang_proj_Trevor_Karl/main.go:43-49 | Before EOF, the driver makes one `Lex` call and then continues. |
| `LetScannerFacts.LastLex` | let_lang_proj_Trevor_Karl/main.go:43-49 | A `Lex` call that appends nothing and sets EOF is the last one: the driver then only adds the end marker. |
| `LetScannerFacts.TokenizeAtEnd` | let_lang_proj_Trevor_Karl/main.go:43-47 | With only blanks left, the driver closes the queue with the end marker. |
| `LetScannerFacts.DigitsToEnd` | let_lang_proj_Trevor_Karl/let_scanner.go:156-175 | When only digits remain, the digit loop appends the whole run as one integer and leaves `currentTokenType` as Integer. Blanks between the digits are ignored. |
| `LetScannerFacts.DigitsCutOff` | let_lang_proj_Trevor_Karl/let_scanner.go:163-174 | A digit run cut by the end of input is still appended. |
| `LetScannerFacts.StartsWithDigit` | let_lang_proj_Trevor_Karl/let_scanner.go:152-154 | A leading digit enters the digit loop with the next character read. |
| `LetScannerFacts.IntegerToEnd` | let_lang_proj_Trevor_Karl/let_scanner.go:152-175 | If the rest of the input is digits, one `Lex` call appends all of them as one integer. |
| `LetScannerFacts.LettersToEnd` | let_lang_proj_Trevor_Karl/let_scanner.go:193-218 | When only letters remain and no keyword is spelled on the way, the letter loop appends the whole word as an identifier. |
| `LetScannerFacts.StartsWithNonDigit` | let_lang_proj_Trevor_Karl/let_scanner.go:146-178 | A leading non-digit goes straight to the word part. |
| `LetScannerFacts.LetterAtEnd` | let_lang_proj_Trevor_Karl/let_scanner.go:187-191 | A single letter followed only by blanks is dropped and EOF is set, as written. As intended it is an identifier. |
| `LetScannerFacts.LetterThenMore` | let_lang_proj_Trevor_Karl/let_scanner.go:187-193 | A letter with more input ahead enters the letter loop. |
| `LetScannerFacts.WordFrom` | let_lang_proj_Trevor_Karl/let_scanner.go:178-218 | The word part on a word that runs to the end of input appends it, except a single letter as written. |
| `LetScannerFacts.WordToEnd` | let_lang_proj_Trevor_Karl/let_scanner.go:178-218 | The same for a whole `Lex` call whose rest of input is one word. |
| `LetScannerFacts.LetterGrows` | let_lang_proj_Trevor_Karl/let_scanner.go:198-206 | A letter that completes no keyword grows the lexeme, and the loop goes on. |
| `LetScannerFacts.LettersToKeyword` | let_lang_proj_Trevor_Karl/let_scanner.go:198-204 | When the input ahead starts with a keyword, the loop appends that keyword as soon as it is spelled. It sets `currentTokenType` to it and leaves the rest unread. |
| `LetScannerFacts.KeywordFirst` | let_lang_proj_Trevor_Karl/let_scanner.go:178-204 | Keyword priority for a whole `Lex` call: it appends exactly the keyword the input starts with. |
| `LetScannerFacts.TwoLettersAhead` | let_lang_proj_Trevor_Karl/let_scanner.go:178-193 | A word of two or more letters reaches the letter loop with two letters read. |
| `LetScannerFacts.LetterThenPunctuation` | let_lang_proj_Trevor_Karl/let_scanner.go:193-224 | A one-letter identifier followed by punctuation: one call appends both. |
| `LetScannerFacts.LetterStartsKeyword` | let_lang_proj_Trevor_Karl/let_scanner.go:178-204 | The word part entered with a keyword's first letter appends that keyword. |
| `LetScannerFacts.DigitThenLetter` | let_lang_proj_Trevor_Karl/let_scanner.go:152-178 | A one-digit integer followed by a letter: the integer is appended, and `Lex` goes on to the letter. |
| `LetScannerFacts.DigitThenKeyword` | let_lang_proj_Trevor_Karl/let_scanner.go:152-204 | A one-digit integer followed by a keyword: one call appends both. |
| `LetScannerFacts.LettersCutOff` | let_lang_proj_Trevor_Karl/let_scanner.go:206-218 | A multi-letter word cut by the end of input is still appended. |
| `LetScannerFacts.IntegerTokenize` | let_lang_proj_Trevor_Karl/let_scanner.go:152-175 | An input of digits and blanks tokenizes to one integer and the end marker. |
| `LetScannerFacts.SingleLetterTokenize` | let_lang_proj_Trevor_Karl/let_scanner.go:187-191 | An input of one letter tokenizes to the end marker alone as written, and to an identifier then the marker as intended. |
| `LetScannerFacts.WordTokenize` | let_lang_proj_Trevor_Karl/let_scanner.go:178-218 | An input of two or more letters that spells no keyword on the way is one identifier, either way. |
| `LetScannerFacts.UnknownEnds` | let_lang_proj_Trevor_Karl/let_scanner.go:221-224 | A leading character that is no letter, digit or punctuation becomes a token of kind EOF. The driver stops there, so the rest of the input is never read. |
| `LetScannerFacts.BlanksInsideInteger` | let_lang_proj_Trevor_Karl/let_scanner.go:154-162 | `1 2` is the single integer `12`. |
| `LetScannerFacts.KeywordThenLetter` | let_lang_proj_Trevor_Karl/let_scanner.go:178-191 | `ifx` is `if` then nothing as written, and `if` then `x` as intended. |
| `LetScannerFacts.IfFirst` | let_lang_proj_Trevor_Karl/let_scanner.go:198-204 | The first call on `ifx` appends `if` and leaves `x`. |
| `LetScannerFacts.TokenizeAfterIf` | let_lang_proj_Trevor_Karl/main.go:43-49 | Tokenizing `ifx` continues from `if`. |
| `LetScannerFacts.AfterIf` | let_lang_proj_Trevor_Karl/let_scanner.go:187-191 | The second call on `ifx` drops `x` as written and appends it as intended. |
| `LetScannerFacts.RestAfterIfIntended` | let_lang_proj_Trevor_Karl/main.go:42-50 | As intended, `ifx` ends with `x` and the marker. |
| `LetScannerFacts.KeywordThenLetterAsWritten` | let_lang_proj_Trevor_Karl/let_scanner.go:187-191 | As written, `ifx` tokenizes to `if` and the marker. |
| `LetScannerFacts.KeywordThenLetterIntended` | let_lang_proj_Trevor_Karl/let_scanner.go:187-191 | As intended, `ifx` tokenizes to `if`, `x` and the marker. |
| `LetScannerFacts.LetterThenDigit` | let_lang_proj_Trevor_Karl/let_scanner.go:193-224 | `x1` tokenizes to the identifier `x` and the end marker in both variants. The digit that ends the letter run is read and then dropped, because only an unknown character is appended after the loop. |
| `LetScannerFacts.LexLetOf` | let_lang_proj_Trevor_Karl/let_scanner.go:178-204 | On `letx=1inx`, the first call appends `let`. |
| `LetScannerFacts.LexXEquals` | let_lang_proj_Trevor_Karl/let_scanner.go:193-224 | The second call appends `x` and `=`. |
| `LetScannerFacts.LexOneIn` | let_lang_proj_Trevor_Karl/let_scanner.go:152-204 | The third call appends `1` and `in`. |
| `LetScannerFacts.LetXPrefix` | let_lang_proj_Trevor_Karl/main.go:42-50 | Three calls leave the final `x` ahead. |
| `LetScannerFacts.LetXLast` | let_lang_proj_Trevor_Karl/let_scanner.go:187-191 | The final `x` is dropped as written and kept as intended. |
| `LetScannerFacts.LetXTokenize` | let_lang_proj_Trevor_Karl/let_scanner.go:187-191 | `let x = 1 in x` tokenizes to `let x = 1 in` and the marker as written, and to `let x = 1 in x` and the marker as intended. |
| `LetParser.PopTQ` | let_lang_proj_Trevor_Karl/let_parser.go:121-127 | Popping a nonempty queue returns the head and leaves the tail. An empty queue is the out-of-range error. |
| `LetParser.Peek` | let_lang_proj_Trevor_Karl/let_parser.go:141-147 | The head's kind and text, or (Unknown, `""`) for an empty queue. |
| `LetParser.Expect` | let_lang_proj_Trevor_Karl/let_parser.go:150-161 | A kind mismatch fails with the given message. A match with `advance` consumes exactly the head, and a match without it leaves the queue unchanged (both directions). |
| `LetParser.PeekThenPop` | let_lang_proj_Trevor_Karl/let_parser.go:121-147 | Peeking sees exactly the token popping would take. |
| `LetParser.ParseExpr` | let_lang_proj_Trevor_Karl/let_parser.go:179-239 | A successful parse consumes at least one token. |
| `LetParser.ParseAfter` | let_lang_proj_Trevor_Karl/let_parser.go:186-239 | After the head token, parsing never grows the queue. |
| `LetParser.ParseMinus` | let_lang_proj_Trevor_Karl/let_parser.go:188-199 | The `minus` form consumes input. |
| `LetParser.ParseIsZero` | let_lang_proj_Trevor_Karl/let_parser.go:200-207 | The `iszero` form consumes input. |
| `LetParser.ParseIf` | let_lang_proj_Trevor_Karl/let_parser.go:208-222 | The `if` form consumes input. |
| `LetParser.ParseLet` | let_lang_proj_Trevor_Karl/let_parser.go:223-237 | The `let` form consumes input. |
| `LetParser.MinusSteps` | let_lang_proj_Trevor_Karl/let_parser.go:188-199 | `(`, left, `,`, right and `)` in turn build the two-child minus node. |
| `LetParser.IsZeroSteps` | let_lang_proj_Trevor_Karl/let_parser.go:200-207 | `(`, the operand and `)` build the one-child iszero node. |
| `LetParser.IfSteps` | let_lang_proj_Trevor_Karl/let_parser.go:208-222 | An iszero check, the test, `then`, a branch, `else` and a branch build the three-child if node. |
| `LetParser.LetSteps` | let_lang_proj_Trevor_Karl/let_parser.go:223-237 | An identifier check, the name, `=`, the bound expression, `in` and the body build the let node. |
| `LetParser.MinusParts` | let_lang_proj_Trevor_Karl/let_parser.go:188-199 | A successful minus parse is exactly such a run of steps. |
| `LetParser.IfParts` | let_lang_proj_Trevor_Karl/let_parser.go:208-222 | A successful if parse is such a run, and its first token is iszero. |
| `LetParser.LetParts` | let_lang_proj_Trevor_Karl/let_parser.go:223-237 | A successful let parse is such a run, and its first token is an identifier. |
| `LetParser.Parser.constructor` | let_lang_proj_Trevor_Karl/let_parser.go:173 | The parser's queue is the input queue. |
| `LetParser.Parser.PeekTQ` | let_lang_proj_Trevor_Karl/let_parser.go:141-147 | `peekTQ` reads the queue without changing it, as `Peek` says. |
| `LetParser.Parser.AdvanceToken` | let_lang_proj_Trevor_Karl/let_parser.go:136-138 | Drops the head token. It fails on an empty queue. |
| `LetParser.Parser.Expected` | let_lang_proj_Trevor_Karl/let_parser.go:150-161 | The queue and the outcome are exactly `Expect` of the old queue. |
| `LetParser.Parser.InitTreeNd` | let_lang_proj_Trevor_Karl/let_parser.go:164-169 | A leaf node with the head's kind and text, with the head consumed. An empty queue fails. |
| `LetParser.Parser.Parse` | let_lang_proj_Trevor_Karl/let_parser.go:179-239 | The node returned and the queue left are exactly `ParseExpr` of the old queue, including every error. |
| `LetParser.Parser.ParseMinusNode` | let_lang_proj_Trevor_Karl/let_parser.go:188-199 | The minus branch of `parse` matches `ParseMinus`. |
| `LetParser.Parser.ParseIsZeroNode` | let_lang_proj_Trevor_Karl/let_parser.go:200-207 | The iszero branch matches `ParseIsZero`. |
| `LetParser.Parser.ParseIfNode` | let_lang_proj_Trevor_Karl/let_parser.go:208-222 | The if branch matches `ParseIf`. |
| `LetParser.Parser.ParseLetNode` | let_lang_proj_Trevor_Karl/let_parser.go:223-237 | The let branch matches `ParseLet`. |
| `LetParser.ParseInput` | let_lang_proj_Trevor_Karl/let_parser.go:172-176 | The root is the tree `ParseExpr` builds from the whole queue. Leftover tokens are ignored. |
| `LetParserFacts.ParsedShaped` | let_lang_proj_Trevor_Karl/let_parser.go:164-237 | A successful parse builds a tree of fixed shape: minus 2 children, iszero 1, if 3 starting with iszero, let 3 starting with an identifier leaf, every other kind a terminal leaf. The root carries the head token's kind and text. |
| `LetParserFacts.ChildShaped` | let_lang_proj_Trevor_Karl/let_parser.go:164-237 | Every parsed sub-expression is well shaped and built from its head token. |
| `LetParserFacts.MinusShaped` | let_lang_proj_Trevor_Karl/let_parser.go:188-199 | A parsed minus node is well shaped. |
| `LetParserFacts.IsZeroShaped` | let_lang_proj_Trevor_Karl/let_parser.go:200-207 | A parsed iszero node is well shaped. |
| `LetParserFacts.IfShaped` | let_lang_proj_Trevor_Karl/let_parser.go:208-222 | A parsed if node is well shaped. |
| `LetParserFacts.LetShaped` | let_lang_proj_Trevor_Karl/let_parser.go:223-237 | A parsed let node is well shaped. |
| `LetParserFacts.TwoChildrenShaped` | let_lang_proj_Trevor_Karl/let_parser.go:188-199 | Two parsed children make a well-shaped binary node. |
| `LetParserFacts.ThreeChildrenShaped` | let_lang_proj_Trevor_Karl/let_parser.go:208-237 | Three parsed children make a well-shaped if or let node. |
| `LetParserFacts.ShapedTwo` | let_lang_proj_Trevor_Karl/let_parser.go:188-199 | One level of shape for a binary node. |
| `LetParserFacts.ShapedThree` | let_lang_proj_Trevor_Karl/let_parser.go:208-237 | One level of shape for an if or let node. |
| `LetParserFacts.UnparseOnto` | let_lang_proj_Trevor_Karl/let_parser.go:179-239 | The printed tokens of a tree start with its own token. |
| `LetParserFacts.Rebuild` | let_lang_proj_Trevor_Karl/let_parser.go:188-237 | A well-shaped compound node is its kind, text and children. |
| `LetParserFacts.MinusPrinted` | let_lang_proj_Trevor_Karl/let_parser.go:188-199 | Printing a minus node writes `(`, the left child, `,`, the right child and `)`. |
| `LetParserFacts.IsZeroPrinted` | let_lang_proj_Trevor_Karl/let_parser.go:200-207 | Printing an iszero node writes `(`, the operand and `)`. |
| `LetParserFacts.IfPrinted` | let_lang_proj_Trevor_Karl/let_parser.go:208-222 | Printing an if node writes the test, `then`, a branch, `else` and a branch. |
| `LetParserFacts.LetPrinted` | let_lang_proj_Trevor_Karl/let_parser.go:223-237 | Printing a let node writes the name, `=`, the bound expression, `in` and the body. |
| `LetParserFacts.ParseUnparse` | let_lang_proj_Trevor_Karl/let_parser.go:179-239 | Parsing the printed tokens of any well-shaped tree, followed by anything, gives the tree back and leaves what followed untouched. |
| `LetParserFacts.MinusUnparse` | let_lang_proj_Trevor_Karl/let_parser.go:188-199 | The same round trip for minus. |
| `LetParserFacts.IsZeroUnparse` | let_lang_proj_Trevor_Karl/let_parser.go:200-207 | The same round trip for iszero. |
| `LetParserFacts.IfUnparse` | let_lang_proj_Trevor_Karl/let_parser.go:208-222 | The same round trip for if. |
| `LetParserFacts.LetUnparse` | let_lang_proj_Trevor_Karl/let_parser.go:223-237 | The same round trip for let. |
| `LetParserFacts.SuffixTrans` | let_lang_proj_Trevor_Karl/let_parser.go:121-127 | A suffix of a suffix is a suffix. |
| `LetParserFacts.ExpectSuffix` | let_lang_proj_Trevor_Karl/let_parser.go:150-161 | `expected` leaves a suffix of the queue. |
| `LetParserFacts.ParseConsumes` | let_lang_proj_Trevor_Karl/let_parser.go:179-239 | A successful parse takes its tokens from the front and leaves the rest as it was. |
| `LetParserFacts.ChildConsumes` | let_lang_proj_Trevor_Karl/let_parser.go:179-239 | The same for one parsed sub-expression. |
| `LetParserFacts.MinusConsumes` | let_lang_proj_Trevor_Karl/let_parser.go:188-199 | The minus form leaves a suffix. |
| `LetParserFacts.IsZeroConsumes` | let_lang_proj_Trevor_Karl/let_parser.go:200-207 | The iszero form leaves a suffix. |
| `LetParserFacts.IfConsumes` | let_lang_proj_Trevor_Karl/let_parser.go:208-222 | The if form leaves a suffix. |
| `LetParserFacts.LetConsumes` | let_lang_proj_Trevor_Karl/let_parser.go:223-237 | The let form leaves a suffix. |
| `LetParserFacts.ThreeConsume` | let_lang_proj_Trevor_Karl/let_parser.go:208-237 | Three sub-expressions with single separators leave a suffix. |
| `LetParserFacts.EmptyQueue` | let_lang_proj_Trevor_Karl/let_parser.go:121-127 | Parsing an empty queue is the out-of-range pop. |
| `LetParserFacts.LeafToken` | let_lang_proj_Trevor_Karl/let_parser.go:164-169 | A head token of a childless kind, EOF and punctuation included, is a terminal leaf. The rest of the queue is not looked at. |
| `LetParserFacts.Dispatch` | let_lang_proj_Trevor_Karl/let_parser.go:186 | A parse takes the head token and continues after it. |
| `LetParserFacts.AfterForms` | let_lang_proj_Trevor_Karl/let_parser.go:188-237 | Each compound head goes on to its own form: `minus`, `iszero`, `if` and `let` each to their own parse. |
| `LetParserFacts.IfNeedsIsZero` | let_lang_proj_Trevor_Karl/let_parser.go:208-211 | An if whose next token is not iszero is rejected with the iszero message. An accepted if's next token is iszero. |
| `LetParserFacts.IfRejects` | let_lang_proj_Trevor_Karl/let_parser.go:208-211 | The same for the if form after its head. |
| `LetParserFacts.LetNeedsIdentifier` | let_lang_proj_Trevor_Karl/let_parser.go:223-226 | A let whose next token is not an identifier is rejected with the identifier message. An accepted let has three children and binds that identifier as a leaf. |
| `LetParserFacts.LetRejects` | let_lang_proj_Trevor_Karl/let_parser.go:223-226 | The same for the let form after its head. |
| `LetParserFacts.LeafFirst` | let_lang_proj_Trevor_Karl/let_parser.go:164-169 | An identifier at the head is a leaf of its text. |
| `LetParserFacts.MinusNeedsParen` | let_lang_proj_Trevor_Karl/let_parser.go:188-190 | A minus not followed by `(` is rejected with the parenthesis message. |
| `LetEvaluator.LookupLast` | let_lang_proj_Trevor_Karl/let_evaluator.go:9-17 | An unbound name looks up as `""`. A bound one gets the value of its last binding, so later bindings shadow earlier ones. |
| `LetEvaluator.BindLookup` | let_lang_proj_Trevor_Karl/let_evaluator.go:9-17 | The loop over the whole environment returns `LookupBinding`. |
| `LetEvaluator.LookupShadowed` | let_lang_proj_Trevor_Karl/let_evaluator.go:9-17 | A new binding is what its name now means. |
| `LetEvaluator.LookupOther` | let_lang_proj_Trevor_Karl/let_evaluator.go:9-17 | A binding of another name changes nothing. |
| `LetEvaluator.Strip` | let_lang_proj_Trevor_Karl/let_parser.go:20-27 | Erasing environments keeps kind, text, leaf flag and number of children. |
| `LetEvaluator.Evaluate` | let_lang_proj_Trevor_Karl/let_evaluator.go:35-76 | A successful evaluation records its environment on the node and keeps the number of children. |
| `LetEvaluator.Evaluator.constructor` | let_lang_proj_Trevor_Karl/let_evaluator.go:25-27 | The evaluator holds the given root. |
| `LetEvaluator.Evaluator.Eval` | let_lang_proj_Trevor_Karl/let_evaluator.go:30-32 | Evaluation starts at the root under the empty environment. The value is `Evaluate`'s, and the root becomes the annotated tree. |
| `LetEvaluatorFacts.StripReplace` | let_lang_proj_Trevor_Karl/let_evaluator.go:36 | Replacing a child by one that differs only in environments changes nothing else. |
| `LetEvaluatorFacts.OnlyEnvironmentsChange` | let_lang_proj_Trevor_Karl/let_evaluator.go:35-76 | Evaluation changes nothing in the tree but the recorded environments. |
| `LetEvaluatorFacts.LetKeepsTree` | let_lang_proj_Trevor_Karl/let_evaluator.go:38-43 | The same for a let node. |
| `LetEvaluatorFacts.MinusKeepsTree` | let_lang_proj_Trevor_Karl/let_evaluator.go:44-54 | The same for a minus node. |
| `LetEvaluatorFacts.IfKeepsTree` | let_lang_proj_Trevor_Karl/let_evaluator.go:62-68 | The same for an if node. |
| `LetEvaluatorFacts.LetBinds` | let_lang_proj_Trevor_Karl/let_evaluator.go:38-43 | A let evaluates the bound expression under the caller's environment and the body under it plus (name, value). The name looks up as that value there. The name leaf is never visited. |
| `LetEvaluatorFacts.IfOneBranch` | let_lang_proj_Trevor_Karl/let_evaluator.go:62-68 | An if takes the second child when the test gives `true` and the third otherwise. The other branch is left unvisited. |
| `LetEvaluatorFacts.MinusSubtracts` | let_lang_proj_Trevor_Karl/let_evaluator.go:44-54 | A minus succeeds exactly when both operands are integers, and its value is left minus right with no clamping. A non-integer first operand is the error. |
| `LetEvaluatorFacts.IsZeroTests` | let_lang_proj_Trevor_Karl/let_evaluator.go:55-61 | An iszero succeeds exactly on an integer operand. It gives `true` exactly for 0 and `false` otherwise. |
| `LetEvaluatorFacts.LeafValues` | let_lang_proj_Trevor_Karl/let_evaluator.go:69-75 | An integer leaf gives its literal text unchanged, an identifier its binding, and any other childless kind `""`. |
| `LetEvaluatorFacts.BooleansAreNotIntegers` | let_lang_proj_Trevor_Karl/let_evaluator.go:45-60 | `true` and `false` do not parse as integers. |
| `LetEvaluatorFacts.Decode` | let_lang_proj_Trevor_Karl/let_evaluator.go:45-60 | A string stands for an integer exactly when `Atoi` accepts it. |
| `LetEvaluatorFacts.DecodeLookup` | let_lang_proj_Trevor_Karl/let_evaluator.go:9-17 | Looking up in the binding list is looking up in the environment map. |
| `LetEvaluatorFacts.DecodeExtend` | let_lang_proj_Trevor_Karl/let_evaluator.go:41 | Appending a binding updates the map. |
| `LetEvaluatorFacts.DecodeBool` | let_lang_proj_Trevor_Karl/let_evaluator.go:60 | `FormatBool` text stands for the boolean. |
| `LetEvaluatorFacts.DecodeItoa` | let_lang_proj_Trevor_Karl/let_evaluator.go:53 | `Itoa` text stands for the integer. |
| `LetEvaluatorFacts.EvaluateAgrees` | let_lang_proj_Trevor_Karl/let_evaluator.go:35-76 | On any well-shaped tree whose integer leaves are digit runs, the string evaluator succeeds exactly when the typed meaning `Denote` is defined and returns text for that meaning. Its only failure is a non-integer operand. `InterpretMeaning` shows that parsed programs are such trees. |
| `LetEvaluatorFacts.LetAgrees` | let_lang_proj_Trevor_Karl/let_evaluator.go:38-43 | The same for let. |
| `LetEvaluatorFacts.MinusAgrees` | let_lang_proj_Trevor_Karl/let_evaluator.go:44-54 | The same for minus. |
| `LetEvaluatorFacts.IsZeroAgrees` | let_lang_proj_Trevor_Karl/let_evaluator.go:55-61 | The same for iszero. |
| `LetEvaluatorFacts.IfAgrees` | let_lang_proj_Trevor_Karl/let_evaluator.go:62-68 | The same for if. |
| `LetEvaluatorFacts.ParsedLiterals` | let_lang_proj_Trevor_Karl/let_parser.go:164-237 | A successful parse of a queue whose integer tokens are digit runs gives a tree whose integer leaves are digit runs: the parser copies each leaf's text from its token. |
| `LetPipeline.ParseAndEvaluate` | let_lang_proj_Trevor_Karl/main.go:60-72 | A parse error stops the run. Otherwise the result is the evaluation of the parsed tree under the empty environment. |
| `LetPipeline.Run` | let_lang_proj_Trevor_Karl/main.go:42-72 | Tokenize, parse and evaluate with the program's objects gives `Interpret(text, AsWritten)`. |
| `LetPipeline.PrintedTreeMeaning` | let_lang_proj_Trevor_Karl/main.go:60-72 | For the printed tokens of any well-shaped tree whose integer leaves are digit runs, followed by any tokens, the run computes the tree's typed meaning and fails only on a non-integer operand. |
| `LetPipeline.InterpretMeaning` | let_lang_proj_Trevor_Karl/main.go:42-72 | For any program text and either lexer variant: when the tokens parse, the tree is well shaped with digit-run integer leaves, and the run computes its typed meaning under the empty environment, failing only on a non-integer operand. When they do not parse, the run stops with that parse error. |
| `LetPipeline.Shadowing` | let_lang_proj_Trevor_Karl/let_evaluator.go:38-43 | `let x = 1 in let x = 2 in x` gives `2`. |
| `LetPipeline.NestedLets` | let_lang_proj_Trevor_Karl/let_parser.go:223-237 | The nested-let tree is well shaped. |
| `LetPipeline.NestedLetsPrinted` | let_lang_proj_Trevor_Karl/let_parser.go:223-237 | Its printed tokens. |
| `LetPipeline.NestedLetsValue` | let_lang_proj_Trevor_Karl/let_evaluator.go:38-43 | Its value is `2`. |
| `LetPipeline.NegativeDifference` | let_lang_proj_Trevor_Karl/let_evaluator.go:44-54 | `minus(2, 7)` gives `-5`. |
| `LetPipeline.TwoMinusSeven` | let_lang_proj_Trevor_Karl/let_parser.go:188-199 | That tree is well shaped. |
| `LetPipeline.TwoMinusSevenPrinted` | let_lang_proj_Trevor_Karl/let_parser.go:188-199 | Its printed tokens. |
| `LetPipeline.TwoMinusSevenValue` | let_lang_proj_Trevor_Karl/let_evaluator.go:44-54 | Its value is `-5`. |
| `LetPipeline.LiteralTextKept` | let_lang_proj_Trevor_Karl/let_evaluator.go:72-74 | `007` evaluates to `007`, not `7`. |
| `LetPipeline.IfTestMustBeIsZero` | let_lang_proj_Trevor_Karl/let_parser.go:208-211 | `if minus(1, 1) then 1 else 2` is rejected with the iszero message. |
| `LetPipeline.IsZeroOfBoolean` | let_lang_proj_Trevor_Karl/let_evaluator.go:55-59 | `iszero(iszero(0))` stops the run with a non-integer error. |
| `LetPipeline.DoubleIsZero` | let_lang_proj_Trevor_Karl/let_parser.go:200-207 | That tree is well shaped. |
| `LetPipeline.DoubleIsZeroPrinted` | let_lang_proj_Trevor_Karl/let_parser.go:200-207 | Its printed tokens. |
| `LetPipeline.DoubleIsZeroFails` | let_lang_proj_Trevor_Karl/let_evaluator.go:55-59 | Evaluating it fails on `true`. |
| `LetPipeline.LetX` | let_lang_proj_Trevor_Karl/let_scanner.go:187-191 | `let x = 1 in x`, written with any blanks, prints `""` as written and `1` as intended. |
| `LetPipeline.LetXUnspaced` | let_lang_proj_Trevor_Karl/let_scanner.go:187-191 | The same for `letx=1inx`. |
| `LetPipeline.LetXCut` | let_lang_proj_Trevor_Karl/let_parser.go:223-237 | `let x = 1 in` followed by the end marker parses with the marker as the body and prints `""`. |
| `LetPipeline.LetXFull` | let_lang_proj_Trevor_Karl/let_evaluator.go:38-43 | `let x = 1 in x` followed by the end marker prints `1`. |
| `LetPipeline.LetOneIn` | let_lang_proj_Trevor_Karl/let_parser.go:223-237 | A let binding `x` to 1 with any leaf as its body is well shaped. |
| `LetPipeline.LetOneInPrinted` | let_lang_proj_Trevor_Karl/let_parser.go:223-237 | Its printed tokens. |

## Left out

- **I/O.** Reading the file name and the file, and printing the contents, the token queue and the trees (main.go apart from the tokenize loop, and the printers in let_parser.go:15-118) are not modelled. `Run` takes the text as a parameter and returns the printed value.
- **Characters.** `bufio.Scanner`, UTF-8 decoding and the `unicode` classifiers are replaced by a character sequence with a cursor.
  - Letters and digits are ASCII only.
  - Blanks are the Latin-1 characters `unicode.IsSpace` accepts.
  - Non-ASCII letters and digits are not modelled.
- **`os.Exit(1)` and runtime panics.** The parser's exits become `UnexpectedToken` with the same message. Taking a token from an empty queue (a Go panic) becomes `IndexOutOfRange`. The evaluator's exits become `NotAnInteger`.
- **Malformed trees.** `Evaluate` accepts any tree. Where `evaluate` would index a missing child (a panic in Go), it returns `MissingChild`. Trees the parser builds never have a missing child.
- **Integer width.** `strconv.Atoi`/`Itoa` range errors and 64-bit overflow in `minus` are not modelled; integers are unbounded.
- **Shared structure.** Parent back-links, the `par.root` trick (let_parser.go:21, 182-184) and the sharing of slice backing arrays between environments are not modelled.
  - Environments are immutable sequences, and a tree is a value.
  - The environment writes are modelled by returning the annotated tree, which `Evaluator.Eval` stores in `root`.
  - On a failed evaluation the Go program has already exited, so the model leaves `root` as it was.
- `LetScanner.Lex`: it is proved only for `AsWritten`. `Intended` is a property of the specification functions alone, and there is no corrected method.
- **A digit right after a letter run.** As written, `Lex` reads the digit that ends a letter run and drops it, so `x1` scans as `x` (`LetScannerFacts.LetterThenDigit`). Both variants keep this behaviour. No corrected variant is modelled, because the code does not show whether an integer token or an error was intended.
- `LetPipeline.LetX`: it is stated for any text whose non-blank characters are `letx=1inx`. The literal `let x = 1 in x` is not instantiated.

## Findings

| source | as written | input that shows it | evidently intended | confidence | as-written member | corrected member |
|---|---|---|---|---|---|---|
| let_lang_proj_Trevor_Karl/let_scanner.go:187-191 | After a single letter that is not a keyword, reaching the end of input sets EOF and returns without appending the letter. | `x`, `ifx`, or `let x = 1 in x`. The last tokenizes to `let x = 1 in` and the end marker, and the let's body becomes the end marker, so the program prints `""`. | Append the letter as an identifier, as the letter loop does for longer words (let_scanner.go:206-218). `let x = 1 in x` then prints `1`. | not executed | `LetScannerFacts.KeywordThenLetterAsWritten` | `LetScannerFacts.KeywordThenLetterIntended` |
