/** The token model: a location record and a closed set of seven token
    variants, each carrying one location (Token.java). */
module TokenModel {

  /** Where a token was found: file label, column and row (Token.java:7). */
  datatype Location = Location(pathToFile: string, col: int, row: int)

  /** Keyword.Kind (Token.java:68-72); `NONE` is written `NoKeyword`. */
  datatype KeywordKind = ExampleKeyword1 | ExampleKeyword2 | NoKeyword

  /** Special.Kind (Token.java:127-151) together with the four constants the
      scanner uses but the enum lacks: SquareOpen, SquareClose, Lesser and Bigger. */
  datatype SpecialKind =
    | CurlyOpen | CurlyClose | ParenOpen | ParenClose
    | Comma | Equals | DblEquals | Bar | Bang | Plus | Dash | Arrow
    | Asterisk | Slash | Hashtag | Percent | Colon | DblColon | Semicolon | Dot
    | SquareOpen | SquareClose | Lesser | Bigger

  /** Unparsed.Fail (Token.java:329-333) together with InvalidStringEscape,
      which the scanner uses but the enum lacks. */
  datatype Fail =
    | UnclosedStringLiteral | UnknownSequenceOfCharacters | InvalidFloat | InvalidStringEscape

  /** The seven token variants. */
  datatype Token =
    | Identifier(name: string, loc: Location)
    | Keyword(keywordKind: KeywordKind, loc: Location)
    | Special(specialKind: SpecialKind, loc: Location)
    | StringLiteral(content: string, loc: Location)
    | IntLiteral(value: string, loc: Location)
    | FloatLiteral(value: string, loc: Location)
    | Unparsed(fail: Fail, loc: Location)

  /** The reserved spelling of a keyword kind: the inverse of the keyword table. */
  function KeywordSpelling(k: KeywordKind): (name: string)
    requires k != NoKeyword
    ensures KeywordKindByName(name) == k
  {
    match k
    case ExampleKeyword1 => "example1"
    case ExampleKeyword2 => "example2"
  }

  /** The keyword table (Token.java:89-95): a reserved spelling maps to its
      kind, every other name to NoKeyword. */
  function KeywordKindByName(name: string): (k: KeywordKind)
  {
    match name
    case "example1" => ExampleKeyword1
    case "example2" => ExampleKeyword2
    case _ => NoKeyword
  }

  /** A name is a keyword exactly when it is the spelling of some kind, and
      then it is the spelling of the kind the table gives. */
  lemma KeywordTableInverse(name: string)
    ensures KeywordKindByName(name) != NoKeyword <==>
            exists k :: k != NoKeyword && KeywordSpelling(k) == name
    ensures KeywordKindByName(name) != NoKeyword ==> KeywordSpelling(KeywordKindByName(name)) == name
  {
    if KeywordKindByName(name) != NoKeyword {
      assert KeywordSpelling(KeywordKindByName(name)) == name;
    }
  }

  /** Record equality of Location (Token.java:7): component-wise. */
  function LocationEquals(a: Location, b: Location): (r: bool)
    ensures r <==> a == b
  {
    a.pathToFile == b.pathToFile && a.col == b.col && a.row == b.row
  }

  /** The `equals` methods (Token.java:51-58, 110-117, 181-188, 225-232,
      264-271, 308-315, 351-358, 382-388): tokens of different classes are
      never equal; tokens of one class are equal when their locations and
      their payloads are. This coincides with structural equality. */
  function TokenEquals(a: Token, b: Token): (r: bool)
    ensures r <==> a == b
    ensures !SameVariant(a, b) ==> !r
  {
    match (a, b)
    case (Identifier(n1, l1), Identifier(n2, l2)) => LocationEquals(l1, l2) && n1 == n2
    case (Keyword(k1, l1), Keyword(k2, l2)) => LocationEquals(l1, l2) && k1 == k2
    case (Special(k1, l1), Special(k2, l2)) => LocationEquals(l1, l2) && k1 == k2
    case (StringLiteral(c1, l1), StringLiteral(c2, l2)) => LocationEquals(l1, l2) && c1 == c2
    case (IntLiteral(v1, l1), IntLiteral(v2, l2)) => LocationEquals(l1, l2) && v1 == v2
    case (FloatLiteral(v1, l1), FloatLiteral(v2, l2)) => LocationEquals(l1, l2) && v1 == v2
    case (Unparsed(f1, l1), Unparsed(f2, l2)) => LocationEquals(l1, l2) && f1 == f2
    case _ => false
  }

  /** Two tokens are instances of the same Java class. */
  predicate SameVariant(a: Token, b: Token)
  {
    || (a.Identifier? && b.Identifier?)
    || (a.Keyword? && b.Keyword?)
    || (a.Special? && b.Special?)
    || (a.StringLiteral? && b.StringLiteral?)
    || (a.IntLiteral? && b.IntLiteral?)
    || (a.FloatLiteral? && b.FloatLiteral?)
    || (a.Unparsed? && b.Unparsed?)
  }

  /** `setLoc` (Token.java:15-17): only the location changes. */
  function SetLoc(t: Token, loc: Location): (r: Token)
    ensures r.loc == loc && SameVariant(r, t)
    ensures r.(loc := t.loc) == t
  {
    t.(loc := loc)
  }

  /** `Identifier.setName` (Token.java:34-36). */
  function SetName(t: Token, name: string): (r: Token)
    requires t.Identifier?
    ensures r.Identifier? && r.name == name && r.loc == t.loc
  {
    t.(name := name)
  }

  /** `Keyword.setKind` (Token.java:80-82). */
  function SetKeywordKind(t: Token, kind: KeywordKind): (r: Token)
    requires t.Keyword?
    ensures r.Keyword? && r.keywordKind == kind && r.loc == t.loc
  {
    t.(keywordKind := kind)
  }

  /** `Special.setKind` (Token.java:159-161). */
  function SetSpecialKind(t: Token, kind: SpecialKind): (r: Token)
    requires t.Special?
    ensures r.Special? && r.specialKind == kind && r.loc == t.loc
  {
    t.(specialKind := kind)
  }

  /** `StringLiteral.setContent` (Token.java:208-210). */
  function SetContent(t: Token, content: string): (r: Token)
    requires t.StringLiteral?
    ensures r.StringLiteral? && r.content == content && r.loc == t.loc
  {
    t.(content := content)
  }

  /** `IntLiteral.setValue` and `FloatLiteral.setValue` (Token.java:252-254, 296-298). */
  function SetValue(t: Token, value: string): (r: Token)
    requires t.IntLiteral? || t.FloatLiteral?
    ensures SameVariant(r, t) && r.value == value && r.loc == t.loc
  {
    t.(value := value)
  }
}
