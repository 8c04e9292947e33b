/** The scanner of Lexer.java as the code runs it: a mutable parsing state
    that every helper moves forward index by index and column by column, and
    the lexer object that holds the resulting token list and a cursor over it.
    Each method is proved to leave the result and the state that the pure
    functions of LexerSpec describe. */
module Lexer {
  import opened Wrappers
  import opened TokenModel
  import opened LexerSpec
  import opened TokenList

  /** `ParsingState` (Lexer.java:259-338): the cursor of one scan. `col` is
      the column of the character under the cursor once `parseChar` has
      counted it, `row` the 1-based line. */
  class ParsingState {
    var curIndex: int
    const length: int
    const file: string
    var col: int
    var row: int

    constructor (curIndex: int, length: int, file: string, col: int, row: int)
      ensures this.curIndex == curIndex && this.length == length && this.file == file
      ensures this.col == col && this.row == row
    {
      this.curIndex := curIndex;
      this.length := length;
      this.file := file;
      this.col := col;
      this.row := row;
    }

    method IncIndex(i: int)
      modifies this`curIndex
      ensures curIndex == old(curIndex) + i
    {
      curIndex := curIndex + i;
    }

    method IncCol(i: int)
      modifies this`col
      ensures col == old(col) + i
    {
      col := col + i;
    }

    method IncRow(i: int)
      modifies this`row
      ensures row == old(row) + i
    {
      row := row + i;
    }

    /** The character under the cursor. */
    function CurChar(source: string): char
      reads this
      requires 0 <= curIndex < |source|
    {
      source[curIndex]
    }
  }

  /** `parseNumericToken` (Lexer.java:115-130): reads digits and dots,
      failing on a second dot where it stands, and otherwise steps back onto
      the last character of the run. */
  method ParseNumericToken(source: string, st: ParsingState) returns (t: Token)
    requires st.length == |source| && 0 <= st.curIndex < |source| && IsDigit(source[st.curIndex])
    modifies st`curIndex, st`col
    ensures var r := NumberToken(source, st.file, old(st.curIndex), old(st.col), st.row);
      && r.token == Some(t)
      && st.curIndex == r.last
      && st.col == old(st.col) + (r.last - old(st.curIndex))
  {
    ghost var start := st.curIndex;
    ghost var col0 := st.col;
    var number := "";
    var hasDot := false;
    while st.curIndex != |source| && (IsDigit(st.CurChar(source)) || st.CurChar(source) == '.')
      invariant start <= st.curIndex <= |source|
      invariant st.col == col0 + (st.curIndex - start)
      invariant number == source[start..st.curIndex]
      invariant hasDot ==> start < st.curIndex
      invariant ScanNumber(source, st.curIndex, hasDot) == ScanNumber(source, start, false)
      decreases |source| - st.curIndex
    {
      if st.CurChar(source) == '.' && hasDot {
        return Unparsed(InvalidFloat, Location(st.file, st.col, st.row));
      }
      if st.CurChar(source) == '.' {
        hasDot := true;
      }
      number := number + [st.CurChar(source)];
      st.IncIndex(1);
      st.IncCol(1);
    }
    st.IncCol(-1);
    st.IncIndex(-1);
    if hasDot {
      return MakeFloat(number, st.file, st.col, st.row);
    }
    return MakeInt(number, st.file, st.col, st.row);
  }

  /** `parseStringLiteral` (Lexer.java:132-162), with the end of the input
      treated as an unclosed literal where the code reads past it: collects
      raw characters and decoded escapes up to the closing quote, on which
      the cursor ends. */
  method ParseStringLiteral(source: string, st: ParsingState) returns (t: Token)
    requires st.length == |source| && 0 <= st.curIndex < |source| && source[st.curIndex] == '"'
    modifies st`curIndex, st`col
    ensures match ScanString(source, old(st.curIndex) + 1, [])
      case StrClosed(q, content) => t == MakeString(content, st.file, st.col, st.row) && st.curIndex == q
      case StrFail(f, k) => t == Unparsed(f, Location(st.file, st.col, st.row)) && st.curIndex == k
      case StrOutOfBounds(_) => false
    ensures st.col == old(st.col) + (st.curIndex - old(st.curIndex))
  {
    ghost var start := st.curIndex;
    ghost var col0 := st.col;
    var content := "";
    st.IncIndex(1);
    st.IncCol(1);
    while st.curIndex == |source| || source[st.curIndex] != '"'
      invariant start < st.curIndex <= |source|
      invariant st.col == col0 + (st.curIndex - start)
      invariant ScanString(source, st.curIndex, content) == ScanString(source, start + 1, [])
      decreases |source| - st.curIndex
    {
      if st.curIndex == |source| || source[st.curIndex] == '\n' || st.curIndex == |source| - 1 {
        return Unparsed(UnclosedStringLiteral, Location(st.file, st.col, st.row));
      }
      if st.CurChar(source) != '\\' {
        content := content + [source[st.curIndex]];
        st.IncIndex(1);
        st.IncCol(1);
      } else {
        // The test above has already returned on the last index, so the
        // code's branch for a backslash there (Lexer.java:158) is never taken.
        assert st.curIndex != st.length - 1;
        st.IncIndex(1);
        st.IncCol(1);
        var decoded := Unescape(st.CurChar(source));
        if decoded.None? {
          return Unparsed(InvalidStringEscape, Location(st.file, st.col, st.row));
        }
        content := content + [decoded.value];
        st.IncIndex(1);
        st.IncCol(1);
      }
    }
    return MakeString(content, st.file, st.col, st.row);
  }

  /** `getIdentOrKeywordName` (Lexer.java:164-173): the run of letters,
      digits and underscores from the cursor, which then steps back onto the
      run's last character (one before the start when the run is empty). */
  method GetIdentOrKeywordName(source: string, st: ParsingState) returns (name: string)
    requires st.length == |source| && 0 <= st.curIndex < |source|
    modifies st`curIndex, st`col
    ensures var e := IdentRunEnd(source, old(st.curIndex));
      && name == source[old(st.curIndex)..e]
      && st.curIndex == e - 1
      && st.col == old(st.col) + (e - 1 - old(st.curIndex))
  {
    ghost var start := st.curIndex;
    ghost var col0 := st.col;
    name := "";
    while st.curIndex != |source| && IsIdentChar(source[st.curIndex])
      invariant start <= st.curIndex <= |source|
      invariant st.col == col0 + (st.curIndex - start)
      invariant name == source[start..st.curIndex]
      invariant IdentRunEnd(source, st.curIndex) == IdentRunEnd(source, start)
      decreases |source| - st.curIndex
    {
      name := name + [source[st.curIndex]];
      st.IncIndex(1);
      st.IncCol(1);
    }
    st.IncIndex(-1);
    st.IncCol(-1);
  }

  /** `parseOtherTokens` (Lexer.java:175-205): `::`, `==` and `->` when the
      next character completes them, moving the cursor onto it; otherwise
      `:`, `=` or `-`. */
  method ParseOtherTokens(source: string, st: ParsingState) returns (t: Token)
    requires st.length == |source| && 0 <= st.curIndex < |source| && IsTwoCharStart(source[st.curIndex])
    modifies st`curIndex, st`col
    ensures var r := TwoCharToken(source, st.file, old(st.curIndex), old(st.col), st.row);
      && r.token == Some(t)
      && st.curIndex == r.last
      && st.col == old(st.col) + (r.last - old(st.curIndex))
  {
    var c := st.CurChar(source);
    var second, pair, single;
    if c == ':' {
      second, pair, single := ':', DblColon, Colon;
    } else if c == '=' {
      second, pair, single := '=', DblEquals, Equals;
    } else {
      second, pair, single := '>', Arrow, Dash;
    }
    if st.curIndex != |source| - 1 && source[st.curIndex + 1] == second {
      st.IncIndex(1);
      st.IncCol(1);
      return MakeSpecial(pair, st.file, st.col, st.row);
    }
    return MakeSpecial(single, st.file, st.col, st.row);
  }

  /** `parseChar` (Lexer.java:226-257): one step of the scan from the
      character under the cursor. A newline resets the column and counts a
      row and yields nothing; anything else counts a column and is
      dispatched on its class, the column then moving with the cursor. */
  method ParseChar(source: string, st: ParsingState) returns (t: Option<Token>)
    requires st.length == |source| && 0 <= st.curIndex < |source|
    modifies st`curIndex, st`col, st`row
    ensures var r := ParseCharAt(source, st.file, old(st.curIndex), old(st.col) + 1, old(st.row));
      t == r.token && st.curIndex == r.last
    ensures source[old(st.curIndex)] == '\n' ==> st.col == 0 && st.row == old(st.row) + 1
    ensures source[old(st.curIndex)] != '\n' ==>
      st.col == old(st.col) + 1 + (st.curIndex - old(st.curIndex)) && st.row == old(st.row)
  {
    ghost var i := st.curIndex;
    if source[st.curIndex] == '\n' {
      st.col := 0;
      st.IncRow(1);
      return None;
    }
    st.IncCol(1);
    var c := st.CurChar(source);
    if IsOneCharClass(c) {
      t := OneCharToken(c, st.file, st.col, st.row);
    } else if IsDigit(c) {
      ParseCharAtDigit(source, st.file, i, st.col, st.row);
      var token := ParseNumericToken(source, st);
      t := Some(token);
    } else if c == '"' {
      ParseCharAtQuote(source, st.file, i, st.col, st.row);
      var token := ParseStringLiteral(source, st);
      t := Some(token);
    } else if IsTwoCharStart(c) {
      ParseCharAtTwoCharStart(source, st.file, i, st.col, st.row);
      var token := ParseOtherTokens(source, st);
      t := Some(token);
    } else {
      ParseCharAtIdentStart(source, st.file, i, st.col, st.row);
      var name := GetIdentOrKeywordName(source, st);
      t := Some(TryIdentOrKeyword(name, st.file, st.col, st.row));
    }
  }

  /** The lexer object (Lexer.java:32-42, 361-392): the token list of one
      source text and a cursor over it. */
  class Lexer {
    var tokens: seq<Token>
    var currentToken: int

    /** `new Lexer(source, path)`: scans the whole text; the cursor starts
        before the first token. */
    constructor (source: string, path: string)
      ensures tokens == Scan(source, path) && currentToken == -1
    {
      tokens := [];
      currentToken := 0;
      new;
      SetSource(source, path);
    }

    /** `setSource` (Lexer.java:341-359): runs `parseChar` from the first
        index until the end of the text or the first failure, keeping every
        token it yields. */
    method SetSource(source: string, path: string)
      modifies this
      ensures tokens == Scan(source, path) && currentToken == -1
    {
      // Each turn is matched to its step through `LoopTurn`; the dispatch's
      // definition itself is not needed here.
      hide ParseCharAt;
      currentToken := -1;
      var tokenList: seq<Token> := [];
      var st := new ParsingState(0, |source|, path, 0, 1);
      ghost var steps := LoopSteps(source, path);
      while st.curIndex < st.length
        modifies st
        invariant st.length == |source| && st.file == path
        invariant 0 <= st.curIndex <= |source|
        invariant st.col == LineOffset(source, st.curIndex) && st.row == Row(source, st.curIndex)
        invariant ScanAcc(steps, st.curIndex, tokenList) == ScanAcc(steps, 0, [])
        decreases |source| - st.curIndex
      {
        ghost var i := st.curIndex;
        ghost var kept := tokenList;
        LoopTurn(source, path, steps, i, st.col, st.row);
        var newToken := ParseChar(source, st);
        assert newToken == steps[i].token && st.curIndex == steps[i].last;
        if newToken.Some? {
          tokenList := tokenList + [newToken.value];
        }
        if newToken.Some? && newToken.value.Unparsed? {
          break;
        }
        ScanAccTurn(steps, i, kept);
        st.IncIndex(1);
      }
      tokens := tokenList;
    }

    /** `getTokens` (Lexer.java:36-38). */
    function GetTokens(): seq<Token>
      reads this
    {
      tokens
    }

    /** `token()` (Lexer.java:361-363): the token under the cursor, or the
        out-of-range failure. */
    method Current() returns (r: Lookup)
      ensures r.Found? <==> InBounds(currentToken, |tokens|)
      ensures r.Found? ==> r.token == tokens[currentToken]
      ensures r.IndexOutOfBounds? ==> r.index == currentToken
    {
      r := At(tokens, currentToken);
    }

    /** `nextToken` (Lexer.java:365-368): one step forward; reports whether
        the cursor is on a token. */
    method NextToken() returns (inBounds: bool)
      modifies this`currentToken
      ensures currentToken == old(currentToken) + 1
      ensures inBounds <==> InBounds(currentToken, |tokens|)
    {
      currentToken := currentToken + 1;
      inBounds := currentToken >= 0 && currentToken < |tokens|;
    }

    /** `prevToken` (Lexer.java:370-373): one step back; reports whether the
        cursor is on a token. */
    method PrevToken() returns (inBounds: bool)
      modifies this`currentToken
      ensures currentToken == old(currentToken) - 1
      ensures inBounds <==> InBounds(currentToken, |tokens|)
    {
      currentToken := currentToken - 1;
      inBounds := currentToken >= 0 && currentToken < |tokens|;
    }

    /** `equals` (Lexer.java:381-387): two lexers are equal when their token
        lists are, whatever their cursors. */
    function Equals(other: Lexer): (r: bool)
      reads this, other
      ensures r <==> tokens == other.tokens
    {
      ListEquals(tokens, other.tokens)
    }
  }
}
