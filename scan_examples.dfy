/** Concrete scans: what `new Lexer(source, path)` holds for small inputs,
    one lemma per behaviour of the scanner. Each input is a parameter fixed
    by a precondition, and each proof walks the scan step by step. */
module ScanExamples {
  import opened Wrappers
  import opened TokenModel
  import opened LexerSpec

  /** A newline resets the column and counts a row. */
  lemma RowsAndColumns(s: string, f: string)
    requires s == "a\nbb"
    ensures Scan(s, f) == [Identifier("a", Location(f, 1, 1)), Identifier("bb", Location(f, 1, 2))]
  {
    assert |s| == 4 && s[0] == 'a' && s[1] == '\n' && s[2] == 'b' && s[3] == 'b';
    assert IdentRunEnd(s, 1) == 1;
    assert IdentRunEnd(s, 0) == 1;
    assert s[0..1] == "a";
    assert KeywordKindByName("a") == NoKeyword;
    assert Column(s, 0) == 1 && Row(s, 0) == 1;
    ParseCharAtIdentStart(s, f, 0, Column(s, 0), Row(s, 0));
    assert LexAt(s, f, 0) == Lexed(Some(Identifier("a", Location(f, 1, 1))), 0);
    assert LexAt(s, f, 1) == Lexed(None, 1);
    assert IdentRunEnd(s, 3) == 4;
    assert IdentRunEnd(s, 2) == 4;
    assert s[2..4] == "bb";
    assert LineStart(s, 2) == 2;
    assert Row(s, 2) == 2;
    assert KeywordKindByName("bb") == NoKeyword;
    ParseCharAtIdentStart(s, f, 2, Column(s, 2), Row(s, 2));
    assert LexAt(s, f, 2) == Lexed(Some(Identifier("bb", Location(f, 1, 2))), 3);
    assert ScanSteps(Steps(s, f), 2) == [Identifier("bb", Location(f, 1, 2))];
    assert ScanSteps(Steps(s, f), 1) == ScanSteps(Steps(s, f), 2);
  }

  /** `->` is one arrow, placed on its second character. */
  lemma ArrowIsGreedy(s: string, f: string)
    requires s == "->"
    ensures Scan(s, f) == [Special(Arrow, Location(f, 2, 1))]
  {
    assert |s| == 2 && s[0] == '-' && s[1] == '>';
    assert Column(s, 0) == 1 && Row(s, 0) == 1;
    ParseCharAtTwoCharStart(s, f, 0, Column(s, 0), Row(s, 0));
    assert LexAt(s, f, 0) == Lexed(Some(Special(Arrow, Location(f, 2, 1))), 1);
    assert ScanSteps(Steps(s, f), 2) == [];
    assert ScanSteps(Steps(s, f), 0) == [Special(Arrow, Location(f, 2, 1))] + ScanSteps(Steps(s, f), 2);
  }

  /** A dash not followed by `>` stays a dash. */
  lemma DashThenIdentifier(s: string, f: string)
    requires s == "-x"
    ensures Scan(s, f) == [Special(Dash, Location(f, 1, 1)), Identifier("x", Location(f, 2, 1))]
  {
    assert |s| == 2 && s[0] == '-' && s[1] == 'x';
    assert Column(s, 0) == 1 && Row(s, 0) == 1;
    ParseCharAtTwoCharStart(s, f, 0, Column(s, 0), Row(s, 0));
    assert LexAt(s, f, 0) == Lexed(Some(Special(Dash, Location(f, 1, 1))), 0);
    assert IdentRunEnd(s, 1) == 2;
    assert s[1..2] == "x";
    assert KeywordKindByName("x") == NoKeyword;
    assert LineStart(s, 1) == 0;
    assert Column(s, 1) == 2 && Row(s, 1) == 1;
    ParseCharAtIdentStart(s, f, 1, Column(s, 1), Row(s, 1));
    assert LexAt(s, f, 1) == Lexed(Some(Identifier("x", Location(f, 2, 1))), 1);
    assert ScanSteps(Steps(s, f), 1) == [Identifier("x", Location(f, 2, 1))];
  }

  /** A number with one dot is a float placed on its last digit. */
  lemma FloatLiteralAtLastDigit(s: string, f: string)
    requires s == "12.5"
    ensures Scan(s, f) == [FloatLiteral("12.5", Location(f, 4, 1))]
  {
    assert |s| == 4 && s[0] == '1' && s[1] == '2' && s[2] == '.' && s[3] == '5';
    assert LexAt(s, f, 0) == Lexed(Some(FloatLiteral("12.5", Location(f, 4, 1))), 3) by {
      assert ScanNumber(s, 4, true) == NumEnd(4, true);
      assert ScanNumber(s, 3, true) == NumEnd(4, true);
      assert ScanNumber(s, 2, false) == NumEnd(4, true);
      assert ScanNumber(s, 1, false) == NumEnd(4, true);
      assert ScanNumber(s, 0, false) == NumEnd(4, true);
      assert s[0..4] == "12.5";
      assert Column(s, 0) == 1 && Row(s, 0) == 1;
      ParseCharAtDigit(s, f, 0, Column(s, 0), Row(s, 0));
    }
    assert ScanSteps(Steps(s, f), 4) == [];
    assert ScanSteps(Steps(s, f), 0) == [FloatLiteral("12.5", Location(f, 4, 1))] + ScanSteps(Steps(s, f), 4);
  }

  /** A second dot fails at that dot's column and ends the scan. */
  lemma SecondDotFails(s: string, f: string)
    requires s == "12.5.6"
    ensures Scan(s, f) == [Unparsed(InvalidFloat, Location(f, 5, 1))]
  {
    assert |s| == 6 && s[0] == '1' && s[1] == '2' && s[2] == '.' && s[3] == '5' && s[4] == '.';
    assert ScanNumber(s, 4, true) == NumBadDot(4);
    assert ScanNumber(s, 3, true) == NumBadDot(4);
    assert ScanNumber(s, 2, false) == NumBadDot(4);
    assert ScanNumber(s, 1, false) == NumBadDot(4);
    assert ScanNumber(s, 0, false) == NumBadDot(4);
    assert Column(s, 0) == 1 && Row(s, 0) == 1;
    ParseCharAtDigit(s, f, 0, Column(s, 0), Row(s, 0));
    assert LexAt(s, f, 0) == Lexed(Some(Unparsed(InvalidFloat, Location(f, 5, 1))), 4);
  }

  /** `\n` inside quotes decodes to a line feed; the literal is placed one
      column right of its quote because of the escape. */
  lemma EscapeDecoded(s: string, f: string)
    requires s == "\"a\\nb\""
    ensures Scan(s, f) == [StringLiteral("a\nb", Location(f, 2, 1))]
  {
    assert |s| == 6 && s[0] == '"' && s[1] == 'a' && s[2] == '\\' && s[3] == 'n' && s[4] == 'b' && s[5] == '"';
    assert ScanString(s, 5, "a\nb") == StrClosed(5, "a\nb");
    assert "a\n" + [s[4]] == "a\nb";
    assert ScanString(s, 4, "a\n") == StrClosed(5, "a\nb");
    assert Unescape(s[3]) == Some('\n');
    assert "a" + ['\n'] == "a\n";
    assert ScanString(s, 2, "a") == StrClosed(5, "a\nb");
    assert [] + [s[1]] == "a";
    assert ScanString(s, 1, []) == StrClosed(5, "a\nb");
    assert Column(s, 0) == 1 && Row(s, 0) == 1;
    ParseCharAtQuote(s, f, 0, Column(s, 0), Row(s, 0));
    assert LexAt(s, f, 0) == Lexed(Some(StringLiteral("a\nb", Location(f, 2, 1))), 5);
    assert ScanSteps(Steps(s, f), 6) == [];
    assert ScanSteps(Steps(s, f), 0) == [StringLiteral("a\nb", Location(f, 2, 1))] + ScanSteps(Steps(s, f), 6);
  }

  /** A text made only of identifier characters is one run to its end. */
  lemma {:induction false} RunToEnd(s: string, k: nat)
    requires k <= |s|
    requires forall j | k <= j < |s| :: IsIdentChar(s[j])
    ensures IdentRunEnd(s, k) == |s|
    decreases |s| - k
  {
    if k < |s| {
      RunToEnd(s, k + 1);
    }
  }

  /** An exact keyword spelling is a keyword, placed on its last character. */
  lemma KeywordAtLastCharacter(s: string, f: string)
    requires s == "example1"
    ensures Scan(s, f) == [Keyword(ExampleKeyword1, Location(f, 8, 1))]
  {
    assert LexAt(s, f, 0) == Lexed(Some(Keyword(ExampleKeyword1, Location(f, 8, 1))), 7) by {
      assert |s| == 8 && forall j | 0 <= j < 8 :: IsIdentChar(s[j]);
      RunToEnd(s, 0);
      assert s[0..8] == "example1";
      assert Column(s, 0) == 1 && Row(s, 0) == 1;
      ParseCharAtIdentStart(s, f, 0, Column(s, 0), Row(s, 0));
    }
    assert ScanSteps(Steps(s, f), 8) == [];
    assert ScanSteps(Steps(s, f), 0) == [Keyword(ExampleKeyword1, Location(f, 8, 1))] + ScanSteps(Steps(s, f), 8);
  }

  /** A keyword spelling followed by one more letter is an identifier of
      the whole text, placed on its first character. */
  lemma LongerNameIsIdentifier(s: string, f: string)
    requires s == "example1x"
    ensures Scan(s, f) == [Identifier(s, Location(f, 1, 1))]
  {
    assert LexAt(s, f, 0) == Lexed(Some(Identifier(s, Location(f, 1, 1))), 8) by {
      assert |s| == 9 && forall j | 0 <= j < 9 :: IsIdentChar(s[j]);
      RunToEnd(s, 0);
      assert s[0..9] == s;
      assert KeywordKindByName(s) == NoKeyword;
      assert Column(s, 0) == 1 && Row(s, 0) == 1;
      ParseCharAtIdentStart(s, f, 0, Column(s, 0), Row(s, 0));
      assert IdentOrKeywordToken(s, f, 0, 1, 1) == Lexed(Some(TryIdentOrKeyword(s, f, 9, 1)), 8);
    }
    assert ScanSteps(Steps(s, f), 9) == [];
    assert ScanSteps(Steps(s, f), 0) == [Identifier(s, Location(f, 1, 1))] + ScanSteps(Steps(s, f), 9);
  }

  /** An unknown character fails one column left of itself, after the
      tokens before it. */
  lemma UnknownCharacter(s: string, f: string)
    requires s == "a $"
    ensures Scan(s, f) == [Identifier("a", Location(f, 1, 1)), Unparsed(UnknownSequenceOfCharacters, Location(f, 2, 1))]
  {
    assert |s| == 3 && s[0] == 'a' && s[1] == ' ' && s[2] == '$';
    assert IdentRunEnd(s, 1) == 1;
    assert IdentRunEnd(s, 0) == 1;
    assert s[0..1] == "a";
    assert KeywordKindByName("a") == NoKeyword;
    assert Column(s, 0) == 1 && Row(s, 0) == 1;
    ParseCharAtIdentStart(s, f, 0, Column(s, 0), Row(s, 0));
    assert LexAt(s, f, 0) == Lexed(Some(Identifier("a", Location(f, 1, 1))), 0);
    assert LexAt(s, f, 1) == Lexed(None, 1);
    assert IdentRunEnd(s, 2) == 2;
    assert LineStart(s, 2) == 0;
    assert Column(s, 2) == 3 && Row(s, 2) == 1;
    ParseCharAtIdentStart(s, f, 2, Column(s, 2), Row(s, 2));
    assert LexAt(s, f, 2) == Lexed(Some(Unparsed(UnknownSequenceOfCharacters, Location(f, 2, 1))), 1);
    assert ScanSteps(Steps(s, f), 2) == [Unparsed(UnknownSequenceOfCharacters, Location(f, 2, 1))];
    assert ScanSteps(Steps(s, f), 1) == ScanSteps(Steps(s, f), 2);
  }

  /** A lone opening quote is an unclosed literal just past the end of the
      input (where the code as written reads out of range instead). */
  lemma LoneQuoteUnclosed(s: string, f: string)
    requires s == "\""
    ensures Scan(s, f) == [Unparsed(UnclosedStringLiteral, Location(f, 2, 1))]
  {
    assert |s| == 1 && s[0] == '"';
    assert ScanString(s, 1, []) == StrFail(UnclosedStringLiteral, 1);
    assert Column(s, 0) == 1 && Row(s, 0) == 1;
    ParseCharAtQuote(s, f, 0, Column(s, 0), Row(s, 0));
    assert LexAt(s, f, 0) == Lexed(Some(Unparsed(UnclosedStringLiteral, Location(f, 2, 1))), 1);
  }

  /** An escaped backslash is rejected: the second backslash is no escape
      letter, and the failure lies on it. */
  lemma EscapedBackslashFails(s: string, f: string)
    requires s == "\"\\\\\""
    ensures Scan(s, f) == [Unparsed(InvalidStringEscape, Location(f, 3, 1))]
  {
    assert |s| == 4 && s[0] == '"' && s[1] == '\\' && s[2] == '\\' && s[3] == '"';
    assert Unescape(s[2]).None?;
    assert ScanString(s, 1, []) == StrFail(InvalidStringEscape, 2);
    assert Column(s, 0) == 1 && Row(s, 0) == 1;
    ParseCharAtQuote(s, f, 0, Column(s, 0), Row(s, 0));
    assert LexAt(s, f, 0) == Lexed(Some(Unparsed(InvalidStringEscape, Location(f, 3, 1))), 2);
  }

  /** A raw single quote inside a literal is copied as it stands, although
      it also has an escape. */
  lemma RawQuoteKept(s: string, f: string)
    requires s == "\"it's\""
    ensures Scan(s, f) == [StringLiteral("it's", Location(f, 1, 1))]
  {
    assert |s| == 6 && s[0] == '"' && s[1] == 'i' && s[2] == 't' && s[3] == '\'' && s[4] == 's' && s[5] == '"';
    assert ScanString(s, 5, "it's") == StrClosed(5, "it's");
    assert "it'" + [s[4]] == "it's";
    RawCharStep(s, 4, "it'");
    assert "it" + [s[3]] == "it'";
    RawCharStep(s, 3, "it");
    assert "i" + [s[2]] == "it";
    RawCharStep(s, 2, "i");
    assert [] + [s[1]] == "i";
    RawCharStep(s, 1, []);
    assert ScanString(s, 1, []) == StrClosed(5, "it's");
    assert Column(s, 0) == 1 && Row(s, 0) == 1;
    ParseCharAtQuote(s, f, 0, Column(s, 0), Row(s, 0));
    assert LexAt(s, f, 0) == Lexed(Some(StringLiteral("it's", Location(f, 1, 1))), 5);
    assert ScanSteps(Steps(s, f), 6) == [];
    assert ScanSteps(Steps(s, f), 0) == [StringLiteral("it's", Location(f, 1, 1))] + ScanSteps(Steps(s, f), 6);
  }
}
