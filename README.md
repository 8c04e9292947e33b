# simple-lexer in Dafny

This project models the hand-written lexer of `engineer.leepsky` and proves
properties of it. The lexer turns a source text and a file label into a list
of tokens. Each token is one of seven variants and carries a (file, column,
row) location. Scanning stops at the first `Unparsed` failure marker.

- `wrappers.dfy`, module `Wrappers`: the `Option` type.
- `token_model.dfy`, module `TokenModel`: `Token.java` as datatypes. It holds
  the location record, the seven variants, the keyword table and its inverse,
  structural equality, and the setters as functions that return the updated
  token.
- `token_list.dfy`, module `TokenList`: `Tokens.java` as a class. It holds an
  append-only token list and one index that starts at -1. `List.get` becomes
  a `Lookup` that is either the token or the out-of-range failure.
- `lexer_spec.dfy`, module `LexerSpec`: the scanner of `Lexer.java` as pure
  functions.
  - `ParseCharAt(s, file, i, col, row)` is one call of `parseChar` at index
    `i` with the given counters. `LexAt(s, file, i)` is that call with the
    counters the scan holds when it reaches `i`.
  - `Steps`, `ScanSteps` and `Scan` are the loop of `setSource`. `ScanAcc`
    is the same loop seen from inside, with the tokens kept so far.
  - The per-lexeme helpers (`NumberToken`, `StringToken`, `TwoCharToken`,
    `IdentOrKeywordToken`) take the column the cursor holds on the lexeme's
    first character and compute every other column from it, as the code does.
  - The lemmas tie those columns to positions in the text:
    - `Column(s, k)` is the 1-based column of index `k`.
    - `LineOffset(s, k)` is the column counter before index `k` is read.
    - `Row(s, k)` is 1 plus the number of newlines before `k`.
- `lexer.dfy`, module `Lexer`: the code as it runs, except that
  `ParseStringLiteral` runs the corrected string loop of the Findings below.
  - `ParsingState` is a class whose `curIndex`, `col` and `row` the helper
    methods move step by step.
  - `ParseChar` and the `Parse*` methods hold the loops of the source, with
    invariants. Each is proved to produce the token and the final state that
    the matching `LexerSpec` function describes.
  - The `Lexer` class builds its token list in `SetSource`, proved equal to
    `Scan`.
  - `Lexer` also has the `token`/`nextToken`/`prevToken` cursor.
- `scan_examples.dfy`, module `ScanExamples`: whole scans of small inputs.

Notes on the code's behaviour, which the model follows:

- Integer, float and keyword tokens, and the two-character symbols, are
  placed on the column of their last character. The code does not step back
  to the first character for these (Lexer.java:24-30, 127, 179-189, 215-218).
- A string literal is placed `|content| + 1` columns left of its closing
  quote (Lexer.java:21). That is the opening quote's column plus one per
  escape.
- An unknown character is placed one column left of itself (Lexer.java:171
  before 212).
- A string literal opens only on a double quote (Lexer.java:242). A single
  quote is not in any character class, so it scans as an unknown character.
- The string loop accepts the escapes `\r \b \f \n \t \' \"` and no others
  (Lexer.java:146-155). A backslash followed by a backslash is
  `InvalidStringEscape`.
- Two adjacent string literals stay two tokens: `setSource` adds each token
  as `parseChar` returns it (Lexer.java:349-353).
- The number loop takes only digits and dots (Lexer.java:119). `1_0` scans as
  the integer `1` followed by the identifier `_0`.
- `Special.Kind` lacks `SQUARE_OPEN`, `SQUARE_CLOSE`, `LESSER` and `BIGGER`,
  and `Unparsed.Fail` lacks `INVALID_STRING_ESCAPE`, yet the scanner uses all
  five (Lexer.java:106-109, 154, 158). The model's enumerations include them.
- `ExampleApp` calls `Lexer.lex`, which does not exist. The scan entry point
  is the constructor, which calls `setSource` (Lexer.java:40-42).

## Model

| member | source | states |
|---|---|---|
| TokenModel.KeywordKindByName | src/main/java/engineer/leepsky/Token.java:89-95 | `example1` and `example2` map to the two example keyword kinds, every other name to NONE |
| TokenModel.KeywordSpelling | src/main/java/engineer/leepsky/Token.java:89-95 | each keyword kind other than NONE has a spelling that the keyword table maps back to that kind |
| TokenModel.KeywordTableInverse | src/main/java/engineer/leepsky/Token.java:89-95 | a name maps to a keyword exactly when it is the spelling of some kind, and then it is the spelling of the kind it maps to; every other name maps to NONE |
| TokenModel.LocationEquals | src/main/java/engineer/leepsky/Token.java:7 | location records are equal exactly when file, column and row are |
| TokenModel.TokenEquals | src/main/java/engineer/leepsky/Token.java:51-58 | the `equals` methods (the class check of Token.java:385, then location and payload) hold exactly for structurally equal tokens, and never across variants |
| TokenModel.SetLoc | src/main/java/engineer/leepsky/Token.java:15-17 | `setLoc` replaces the location and nothing else; the variant is kept and restoring the old location gives back the token |
| TokenModel.SetName | src/main/java/engineer/leepsky/Token.java:34-36 | `setName` replaces the name and keeps the variant and location |
| TokenModel.SetKeywordKind | src/main/java/engineer/leepsky/Token.java:80-82 | `Keyword.setKind` replaces the kind and keeps the variant and location |
| TokenModel.SetSpecialKind | src/main/java/engineer/leepsky/Token.java:159-161 | `Special.setKind` replaces the kind and keeps the variant and location |
| TokenModel.SetContent | src/main/java/engineer/leepsky/Token.java:208-210 | `setContent` replaces the content and keeps the variant and location |
| TokenModel.SetValue | src/main/java/engineer/leepsky/Token.java:252-254 | `setValue` of an int or float literal replaces the text and keeps the variant and location (also Token.java:296-298) |
| TokenList.At | src/main/java/engineer/leepsky/Tokens.java:17-19 | `List.get` yields the element exactly when the index is in bounds, and otherwise the out-of-range failure carrying that index |
| TokenList.ListEquals | src/main/java/engineer/leepsky/Tokens.java:44 | `List.equals` with `Token.equals` on the elements holds exactly for equal lists |
| TokenList.Tokens.constructor | src/main/java/engineer/leepsky/Tokens.java:9-11 | a fresh cursor has index -1 and an empty list |
| TokenList.Tokens.Add | src/main/java/engineer/leepsky/Tokens.java:13-15 | `add` appends at the end; earlier elements and the index are unchanged |
| TokenList.Tokens.Current | src/main/java/engineer/leepsky/Tokens.java:17-19 | `token()` yields the element at the index exactly when it is in bounds, else the out-of-range failure |
| TokenList.Tokens.NextToken | src/main/java/engineer/leepsky/Tokens.java:21-24 | the index grows by one, the result is the in-bounds test of the new index, the list is unchanged |
| TokenList.Tokens.PrevToken | src/main/java/engineer/leepsky/Tokens.java:26-29 | the index shrinks by one, the result is the in-bounds test of the new index, the list is unchanged |
| TokenList.Tokens.Equals | src/main/java/engineer/leepsky/Tokens.java:39-45 | two cursors are equal exactly when their indices and their lists are |
| TokenList.StepForwardThenBack | src/main/java/engineer/leepsky/Tokens.java:21-29 | a step forward followed by a step back restores the index and leaves the list alone; each step reports the in-bounds test of the index it reached |
| LexerSpec.IsDigit | src/main/java/engineer/leepsky/Lexer.java:119 | the ASCII digits `0` to `9` |
| LexerSpec.IsLetterOrDigit | src/main/java/engineer/leepsky/Lexer.java:167 | the ASCII letters and digits |
| LexerSpec.SpecialSpelling | src/main/java/engineer/leepsky/Lexer.java:44-84 | the source text of each special kind, one of the character constants or a two-character symbol |
| LexerSpec.MakeSpecial | src/main/java/engineer/leepsky/Lexer.java:8-10 | a special token at the cursor's column and row |
| LexerSpec.MakeKeyword | src/main/java/engineer/leepsky/Lexer.java:12-14 | a keyword token at the cursor's column and row |
| LexerSpec.MakeIdent | src/main/java/engineer/leepsky/Lexer.java:16-18 | an identifier placed `|name| - 1` columns left of the cursor |
| LexerSpec.MakeString | src/main/java/engineer/leepsky/Lexer.java:20-22 | a string literal placed `|content| + 1` columns left of the cursor |
| LexerSpec.MakeInt | src/main/java/engineer/leepsky/Lexer.java:24-26 | an integer literal at the cursor's column and row |
| LexerSpec.MakeFloat | src/main/java/engineer/leepsky/Lexer.java:28-30 | a float literal at the cursor's column and row |
| LexerSpec.LineStart | src/main/java/engineer/leepsky/Lexer.java:228-229 | the index just after the last newline before `k`: a newline precedes it, or it is 0, and no newline lies between it and `k` |
| LexerSpec.LineOffset | src/main/java/engineer/leepsky/Lexer.java:228-229 | the column counter before index `k` is read: the characters since the last newline |
| LexerSpec.Row | src/main/java/engineer/leepsky/Lexer.java:228-229 | the row counter at index `k`: 1 at the start, one more after each newline; it is at least 1 |
| LexerSpec.RowCountsNewlines | src/main/java/engineer/leepsky/Lexer.java:228-229 | the row of an index is one more than the newlines before it |
| LexerSpec.SameLine | src/main/java/engineer/leepsky/Lexer.java:228-229 | with no newline in between, the row is the same and the column grows by one per character |
| LexerSpec.OneCharKind | src/main/java/engineer/leepsky/Lexer.java:91-109 | each one-character symbol maps to the special kind spelled by that character |
| LexerSpec.OneCharToken | src/main/java/engineer/leepsky/Lexer.java:90-113 | a space gives no token; every other character of the class gives the special token spelled by it, at the cursor's column |
| LexerSpec.ScanNumber | src/main/java/engineer/leepsky/Lexer.java:118-126 | the digit-and-dot loop from an index: where it stops and whether it saw a dot, or the index of a second dot |
| LexerSpec.ScanNumberShape | src/main/java/engineer/leepsky/Lexer.java:118-126 | the digit-and-dot loop stops at the end of the maximal run with at most one dot seen, or fails on a second dot |
| LexerSpec.NumberToken | src/main/java/engineer/leepsky/Lexer.java:115-130 | a digit starts a maximal run of digits and dots kept verbatim: an IntLiteral without a dot, a FloatLiteral with exactly one, placed on the run's last column; a second dot is InvalidFloat at that dot's column |
| LexerSpec.Unescape | src/main/java/engineer/leepsky/Lexer.java:146-155 | the character after a backslash decoded by the escape table, or nothing for any other letter |
| LexerSpec.EscapeLetter | src/main/java/engineer/leepsky/Lexer.java:146-155 | the inverse of the escape table: the letter it returns decodes back to the character |
| LexerSpec.EscapeLetterUnique | src/main/java/engineer/leepsky/Lexer.java:146-155 | every escape letter is the one chosen for the character it decodes to, so no character has two escapes |
| LexerSpec.EscapeOf | src/main/java/engineer/leepsky/Lexer.java:146-155 | a character is written as a backslash and its escape letter, which decodes back to it, exactly when it has one, else as itself |
| LexerSpec.ScanStringAsWritten | src/main/java/engineer/leepsky/Lexer.java:134-160 | the string loop as written; its only out-of-range outcome is a read at the input's length |
| LexerSpec.ScanString | src/main/java/engineer/leepsky/Lexer.java:134-160 | the string loop with the end of input read as unclosed: it never reads out of range, closes on a quote inside the text and fails at most at the end |
| LexerSpec.ScanStringClosedShape | src/main/java/engineer/leepsky/Lexer.java:135-160 | a closed literal ends on a double quote, spans no newline and has one content character per raw character or escape pair |
| LexerSpec.ScanStringFailShape | src/main/java/engineer/leepsky/Lexer.java:135-160 | an unclosed literal stops at a newline or the end of the input; an invalid escape stops on the character after a backslash that the escape table does not decode; no newline comes before either |
| LexerSpec.StringToken | src/main/java/engineer/leepsky/Lexer.java:132-162 | the cursor ends on the closing quote and the literal lies at the opening column plus one per escape, or the failure lies at the column where it was detected, with no newline crossed |
| LexerSpec.TwoCharToken | src/main/java/engineer/leepsky/Lexer.java:175-205 | `::`, `==` and `->` are taken exactly when the next character completes them, consuming one more index and column; the token is spelled by the characters consumed and lies on the last one |
| LexerSpec.IdentRunEnd | src/main/java/engineer/leepsky/Lexer.java:166-170 | the identifier loop stops inside the text, at or after its start, at the end of the input or on a character that is not a letter, digit or underscore |
| LexerSpec.IdentRunChars | src/main/java/engineer/leepsky/Lexer.java:166-170 | every character the identifier loop passes over is a letter, digit or underscore |
| LexerSpec.TryIdentOrKeyword | src/main/java/engineer/leepsky/Lexer.java:207-224 | an empty name is UnknownSequenceOfCharacters at the cursor; a reserved spelling is that keyword at the cursor; anything else is an identifier placed on its first character |
| LexerSpec.IdentOrKeywordToken | src/main/java/engineer/leepsky/Lexer.java:250-254 | the cursor ends on the last character of the maximal identifier run; an empty run is UnknownSequenceOfCharacters one column left of the cursor, a keyword is spelled by the run and lies on its last column, any other run is an identifier of the run at the cursor's column |
| LexerSpec.ParseCharAt | src/main/java/engineer/leepsky/Lexer.java:226-257 | one call of `parseChar`: a newline counts a row, then the character's class picks the helper; the result is the token, if any, and the index the cursor rests on |
| LexerSpec.ParseCharAtShape | src/main/java/engineer/leepsky/Lexer.java:226-257 | whatever its counters, one step yields no token exactly for a newline or space and then rests where it started; a successful token spans no newline and stays inside the text; every token carries the file and the row counter; UnknownSequenceOfCharacters arises exactly for characters no rule covers |
| LexerSpec.LexAt | src/main/java/engineer/leepsky/Lexer.java:226-257 | one step yields no token exactly for a newline or space; successful tokens span no newline and stay inside the text; every token carries the file and the row; UnknownSequenceOfCharacters arises exactly for characters no rule covers |
| LexerSpec.ParseCharAtDigit | src/main/java/engineer/leepsky/Lexer.java:238-240 | a digit is dispatched to the numeric scanner with the same counters |
| LexerSpec.ParseCharAtQuote | src/main/java/engineer/leepsky/Lexer.java:242-244 | a double quote is dispatched to the string scanner with the same counters |
| LexerSpec.ParseCharAtTwoCharStart | src/main/java/engineer/leepsky/Lexer.java:246-248 | `:`, `=` and `-` are dispatched to the two-character scanner with the same counters |
| LexerSpec.ParseCharAtIdentStart | src/main/java/engineer/leepsky/Lexer.java:250-254 | every other character is dispatched to the identifier scanner with the same counters |
| LexerSpec.LexAtNextCounters | src/main/java/engineer/leepsky/Lexer.java:228-229 | after a step that does not fail, the next character's column counter is the start column plus the characters consumed, or 0 after a newline, and the row grows by one exactly on a newline |
| LexerSpec.ScanSteps | src/main/java/engineer/leepsky/Lexer.java:341-359 | the loop over given steps from an index: each step's token is kept, the loop goes on after the index the step rests on, and stops after an Unparsed token |
| LexerSpec.Scan | src/main/java/engineer/leepsky/Lexer.java:341-359 | the tokens `setSource` builds for a text: the loop over the steps of that text from index 0 |
| LexerSpec.ScanAcc | src/main/java/engineer/leepsky/Lexer.java:341-359 | the same loop with the tokens kept so far as an accumulator, as `tokenList` holds them |
| LexerSpec.Steps | src/main/java/engineer/leepsky/Lexer.java:341-359 | the scan's steps are one per index of the text and never move the cursor back unless they fail |
| LexerSpec.ScanAccIsScanSteps | src/main/java/engineer/leepsky/Lexer.java:341-359 | the loop's view of the scan is the tokens kept so far followed by the scan from the loop's index |
| LexerSpec.LoopSteps | src/main/java/engineer/leepsky/Lexer.java:341-359 | the loop over the steps of the text, from the start with nothing kept, yields the scan |
| LexerSpec.LoopTurn | src/main/java/engineer/leepsky/Lexer.java:347-357 | at each turn the step is `parseChar` with the column counted for this character; a newline leaves column 0 on the next row; any other step that does not fail leaves the column of the character after the one it rests on, on the same row |
| LexerSpec.ScanTokensComeFromSteps | src/main/java/engineer/leepsky/Lexer.java:347-356 | every token of the scan is the token of some step at or after where the scan started |
| LexerSpec.ScanStopsAtFirstFailure | src/main/java/engineer/leepsky/Lexer.java:349-356 | an Unparsed token can only be the last one of the scan |
| LexerSpec.LexAtLocation | src/main/java/engineer/leepsky/Lexer.java:8-30 | identifiers and one-character specials lie on their first character; numbers, keywords and two-character specials on their last; strings on the opening quote plus one column per escape; an unknown character one column left of itself; other failures where detected |
| LexerSpec.LexAtLocationRange | src/main/java/engineer/leepsky/Lexer.java:347 | every token of one step carries the file label, a row from 1 and a column from 0 |
| LexerSpec.ScanLocations | src/main/java/engineer/leepsky/Lexer.java:347-356 | every token of the whole scan carries the file label, a row from 1 and a column from 0 |
| LexerSpec.CleanStepNeverFails | src/main/java/engineer/leepsky/Lexer.java:226-257 | on input without dots or other characters that can fail, no single step yields a failure |
| LexerSpec.CleanInputNeverFails | src/main/java/engineer/leepsky/Lexer.java:226-257 | input made only of blanks, newlines, symbols other than the dot and identifier characters scans with no failure |
| LexerSpec.Turns | src/main/java/engineer/leepsky/Lexer.java:347-356 | the indices at which the loop calls `parseChar`: from 0, each next one just after the index the previous step rests on, ending with the first failing step |
| LexerSpec.TurnsInRange | src/main/java/engineer/leepsky/Lexer.java:347 | every turn lies inside the text, at or after the index the loop started from |
| LexerSpec.ScanFailsAtSomeTurn | src/main/java/engineer/leepsky/Lexer.java:347-356 | the scan holds an Unparsed token exactly when the step at one of the loop's turns fails |
| LexerSpec.ParseCharAtFails | src/main/java/engineer/leepsky/Lexer.java:226-257 | whatever its counters, one step fails exactly when a number meets a second dot, a string literal is unclosed or holds an invalid escape, or no rule covers the character |
| LexerSpec.ScanFailsExactly | src/main/java/engineer/leepsky/Lexer.java:341-359 | the scan of any text holds a failure exactly when one of those three things happens at one of the loop's turns; what lies inside a literal is never a turn |
| LexerSpec.ClosingQuote | src/main/java/engineer/leepsky/Lexer.java:135-136 | the string loop closes the literal on the double quote where it stands |
| LexerSpec.EscapeStep | src/main/java/engineer/leepsky/Lexer.java:140-157 | the string loop reads one written character or escape pair as exactly that one content character |
| LexerSpec.RawCharStep | src/main/java/engineer/leepsky/Lexer.java:140-143 | a character other than a backslash, quote or newline, with text after it, is copied into the content as it stands, even one that has an escape |
| LexerSpec.BadEscapeFails | src/main/java/engineer/leepsky/Lexer.java:144-155 | after any escaped content, a backslash followed by a letter outside the escape table, such as a second backslash, fails with InvalidStringEscape on that letter |
| LexerSpec.BadEscapeToken | src/main/java/engineer/leepsky/Lexer.java:132-162 | the same through `parseStringLiteral`: the failure token lies on the bad letter, at the quote's column plus the written characters up to it |
| LexerSpec.EscapeRoundTrip | src/main/java/engineer/leepsky/Lexer.java:140-157 | escaping any content without a backslash and closing it with a quote reads back exactly that content, ending on the quote |
| LexerSpec.EscapeLength | src/main/java/engineer/leepsky/Lexer.java:145-157 | each escape adds exactly one character to the written text |
| LexerSpec.StringTokenRoundTrip | src/main/java/engineer/leepsky/Lexer.java:132-162 | a quoted, escaped text scans to one string token holding the original content, placed one column right of the quote per escape |
| LexerSpec.StringLiteralRoundTrip | src/main/java/engineer/leepsky/Lexer.java:242-244 | the same round trip through `parseChar`, at the quote's own column and row |
| LexerSpec.CorrectionOnlyAtEnd | src/main/java/engineer/leepsky/Lexer.java:134-136 | the corrected string loop agrees with the code as written wherever that does not read out of range, and reports an unclosed literal at the end of input where it does |
| LexerSpec.ReadPastEndAfterOpeningQuote | src/main/java/engineer/leepsky/Lexer.java:134-135 | with the quote as the last character, the code reads index 1 of a one-character text; the corrected loop reports UnclosedStringLiteral |
| LexerSpec.ReadPastEndAfterEscape | src/main/java/engineer/leepsky/Lexer.java:157 | with an escape ending the input, the code reads index 3 of a three-character text; the corrected loop reports UnclosedStringLiteral |
| Lexer.ParsingState.constructor | src/main/java/engineer/leepsky/Lexer.java:266-272 | the state holds the given index, length, file, column and row |
| Lexer.ParsingState.CurChar | src/main/java/engineer/leepsky/Lexer.java:282-284 | the character of the source under the cursor, for a cursor inside the source |
| Lexer.ParsingState.IncIndex | src/main/java/engineer/leepsky/Lexer.java:274-276 | only the index moves, by the given amount |
| Lexer.ParsingState.IncCol | src/main/java/engineer/leepsky/Lexer.java:298-300 | only the column moves, by the given amount |
| Lexer.ParsingState.IncRow | src/main/java/engineer/leepsky/Lexer.java:306-308 | only the row moves, by the given amount |
| Lexer.ParseNumericToken | src/main/java/engineer/leepsky/Lexer.java:115-130 | the loop yields the token `NumberToken` describes, leaves the cursor on its last index and moves the column by as many places |
| Lexer.ParseStringLiteral | src/main/java/engineer/leepsky/Lexer.java:132-162 | the loop yields the literal on the closing quote or the failure where `ScanString` stops, and moves the column as far as the index |
| Lexer.GetIdentOrKeywordName | src/main/java/engineer/leepsky/Lexer.java:164-173 | the name is the maximal identifier run, and the cursor and column end on its last character (one before the start when it is empty) |
| Lexer.ParseOtherTokens | src/main/java/engineer/leepsky/Lexer.java:175-205 | yields the token `TwoCharToken` describes and moves index and column onto its last character |
| Lexer.ParseChar | src/main/java/engineer/leepsky/Lexer.java:226-257 | one step yields the token `ParseCharAt` gives for the counters it was given and rests on that token's last index; a newline zeroes the column and counts a row; otherwise the column moves with the cursor and the row stays |
| Lexer.Lexer.constructor | src/main/java/engineer/leepsky/Lexer.java:40-42 | a new lexer holds the scan of its source and a cursor at -1 |
| Lexer.Lexer.SetSource | src/main/java/engineer/leepsky/Lexer.java:341-359 | the scanning loop, with its row and column invariant, builds exactly `Scan(source, path)` and resets the cursor to -1 |
| Lexer.Lexer.GetTokens | src/main/java/engineer/leepsky/Lexer.java:36-38 | the lexer's token list |
| Lexer.Lexer.Current | src/main/java/engineer/leepsky/Lexer.java:361-363 | `token()` yields the token under the cursor exactly when it is in bounds, else the out-of-range failure |
| Lexer.Lexer.NextToken | src/main/java/engineer/leepsky/Lexer.java:365-368 | the cursor grows by one and the result is its in-bounds test |
| Lexer.Lexer.PrevToken | src/main/java/engineer/leepsky/Lexer.java:370-373 | the cursor shrinks by one and the result is its in-bounds test |
| Lexer.Lexer.Equals | src/main/java/engineer/leepsky/Lexer.java:381-387 | two lexers are equal exactly when their token lists are, whatever their cursors |
| ScanExamples.RowsAndColumns | src/main/java/engineer/leepsky/Lexer.java:228-229 | `a`, newline, `bb` gives `a` at column 1 row 1 and `bb` at column 1 row 2 |
| ScanExamples.ArrowIsGreedy | src/main/java/engineer/leepsky/Lexer.java:195-199 | `->` is one arrow, at column 2 |
| ScanExamples.DashThenIdentifier | src/main/java/engineer/leepsky/Lexer.java:195-201 | `-x` is a dash at column 1 then identifier `x` at column 2 |
| ScanExamples.FloatLiteralAtLastDigit | src/main/java/engineer/leepsky/Lexer.java:115-130 | `12.5` is one float literal with that text, at column 4 |
| ScanExamples.SecondDotFails | src/main/java/engineer/leepsky/Lexer.java:120-121 | `12.5.6` is only InvalidFloat at column 5 |
| ScanExamples.EscapeDecoded | src/main/java/engineer/leepsky/Lexer.java:146-157 | a quoted `a\nb` is a string literal of `a`, line feed, `b`, at column 2 |
| ScanExamples.KeywordAtLastCharacter | src/main/java/engineer/leepsky/Lexer.java:215-218 | `example1` is the first example keyword at column 8 |
| ScanExamples.LongerNameIsIdentifier | src/main/java/engineer/leepsky/Lexer.java:220-223 | `example1x` is an identifier of the whole text at column 1 |
| ScanExamples.UnknownCharacter | src/main/java/engineer/leepsky/Lexer.java:210-213 | `a $` keeps the identifier `a` and ends with UnknownSequenceOfCharacters at column 2 |
| ScanExamples.LoneQuoteUnclosed | src/main/java/engineer/leepsky/Lexer.java:134-138 | a lone quote scans to UnclosedStringLiteral at column 2 |
| ScanExamples.EscapedBackslashFails | src/main/java/engineer/leepsky/Lexer.java:144-155 | a quoted `\\` is only InvalidStringEscape, at column 3, the second backslash |
| ScanExamples.RawQuoteKept | src/main/java/engineer/leepsky/Lexer.java:140-143 | a quoted `it's` is a string literal of `it's` at column 1: the raw single quote is kept |

## Left out

- `Character.isDigit` and `Character.isLetterOrDigit` (Lexer.java:119, 167) are modelled on ASCII only. Non-ASCII letters and digits, which Java accepts in identifier and number runs, are not covered. Only ASCII digits can start a number either way (Lexer.java:238).
- `toString`, `toStringNL` and `hashCode` in all three files, and `ParsingState.equals`/`hashCode`/`toString`, only render or hash and are not modelled.
- `ExampleApp.java` (console input, file loading, printing) is not part of this model.
- The `Unreachable` exceptions (Lexer.java:86-88, 112, 204) are not modelled. The dispatch in `ParseChar` reaches each helper only for its own character class, and the helpers' preconditions state that.
- The `else` branch at Lexer.java:158 cannot be taken, because the test at Lexer.java:136 already returns on the last index. `Lexer.ParseStringLiteral` asserts this instead of modelling the branch.
- The getters (`getLoc`, `getName`, `getKind`, `getContent`, `getValue`, `getFail`) are field reads of the datatypes and carry no contract. `getTokens` and `curChar` are modelled as functions without a contract of their own.
- `Location` holds `long` columns and rows, and the cursors an `int` index. The model uses unbounded integers and does not model overflow.
- Lexer.Lexer.NextToken: does not model the 32-bit wrap-around of `currentToken` after 2^31 - 1 steps. The same holds for `PrevToken` and for the `Tokens` cursor.
- The `set*` methods of `Token.java` mutate a token in place. The model returns the updated token as a new value, because the lexer never calls them. Aliasing of a token held in several lists is not captured.
- Lexer.ParseStringLiteral: where the code reads past the end of the input and throws `StringIndexOutOfBoundsException`, the method returns UnclosedStringLiteral (see Findings). The code as written is modelled by `LexerSpec.ScanStringAsWritten`.
- LexerSpec.LoopTurn: the column and row after a step are stated only for steps that do not fail. After a failure the scan stops, and the code leaves the counters wherever the helper put them.
- LexerSpec.CleanInputNeverFails: states freedom from failure only for input without dots or double quotes. A number with one dot or a closed literal does not fail either. The exact condition for any input is `LexerSpec.ScanFailsExactly`.
- Java strings count UTF-16 code units, and the model counts one per `char` of `seq<char>`. A character outside the Basic Multilingual Plane counts 2 in the code and 1 in the model. In a text of a double quote, U+1F600, a double quote, a space and `x`, the code puts `x` at column 6 and the model at column 5. An unclosed literal ending in such a character is reported one column off in the same way.
- Java `null` is not modelled. `Tokens.add(null)`, null fields in the `equals` methods of `Token.java` and null elements in `List.equals` have no counterpart in the datatypes.

## Findings

| source | as written | input that shows it | evidently intended | confidence | as-written member | corrected member |
|---|---|---|---|---|---|---|
| src/main/java/engineer/leepsky/Lexer.java:134-135 | after skipping the opening quote, the loop reads `source.charAt(curIndex)` without checking that `curIndex` is below the length | the one-character text `"` (a lone double quote): index 1 is read, which throws StringIndexOutOfBoundsException | the scan ends with UnclosedStringLiteral, as for any other literal that the input ends inside | not executed | LexerSpec.ReadPastEndAfterOpeningQuote | LexerSpec.ScanString |
| src/main/java/engineer/leepsky/Lexer.java:157 | after a valid escape that ends the input, the cursor moves past the end and the loop test at line 135 reads there | the three-character text `"\n` (quote, backslash, `n`): index 3 is read, which throws | UnclosedStringLiteral at the end of the input | not executed | LexerSpec.ReadPastEndAfterEscape | LexerSpec.ScanString |
