/** The token cursor (Tokens.java): an append-only list of tokens with one
    index into it that starts before the first element. */
module TokenList {
  import opened TokenModel

  /** What `token()` yields: the token at the index, or the
      IndexOutOfBoundsException that `List.get` throws. */
  datatype Lookup = Found(token: Token) | IndexOutOfBounds(index: int)

  /** The test `nextToken` and `prevToken` return. */
  predicate InBounds(index: int, size: int)
  {
    0 <= index < size
  }

  /** `List.get(index)` on a token list. */
  function At(list: seq<Token>, index: int): (r: Lookup)
    ensures r.Found? <==> InBounds(index, |list|)
    ensures r.Found? ==> r.token == list[index]
    ensures r.IndexOutOfBounds? ==> r.index == index
  {
    if InBounds(index, |list|) then Found(list[index]) else IndexOutOfBounds(index)
  }

  /** `List.equals` over tokens: same size and pairwise `Token.equals`. */
  function ListEquals(a: seq<Token>, b: seq<Token>): (r: bool)
    ensures r <==> a == b
    decreases |a|
  {
    if |a| != |b| then false
    else if a == [] then true
    else TokenEquals(a[0], b[0]) && ListEquals(a[1..], b[1..])
  }

  class Tokens {
    var currentToken: int
    var tokenList: seq<Token>

    /** A fresh cursor: index -1 and an empty list (Tokens.java:9-11). */
    constructor ()
      ensures currentToken == -1 && tokenList == []
    {
      currentToken := -1;
      tokenList := [];
    }

    /** `add` (Tokens.java:13-15): appends at the end; the index is untouched. */
    method Add(token: Token)
      modifies this`tokenList
      ensures tokenList == old(tokenList) + [token]
      ensures currentToken == old(currentToken)
    {
      tokenList := tokenList + [token];
    }

    /** `token()` (Tokens.java:17-19): the token at the index, or the
        out-of-range failure when the index is not in bounds. */
    method Current() returns (r: Lookup)
      ensures r.Found? <==> InBounds(currentToken, |tokenList|)
      ensures r.Found? ==> r.token == tokenList[currentToken]
      ensures r.IndexOutOfBounds? ==> r.index == currentToken
    {
      r := At(tokenList, currentToken);
    }

    /** `nextToken` (Tokens.java:21-24): one step forward; reports whether the
        new index is in bounds; the list is untouched. */
    method NextToken() returns (inBounds: bool)
      modifies this`currentToken
      ensures currentToken == old(currentToken) + 1
      ensures inBounds <==> InBounds(currentToken, |tokenList|)
      ensures tokenList == old(tokenList)
    {
      currentToken := currentToken + 1;
      inBounds := currentToken >= 0 && currentToken < |tokenList|;
    }

    /** `prevToken` (Tokens.java:26-29): one step back; reports whether the new
        index is in bounds; the list is untouched. */
    method PrevToken() returns (inBounds: bool)
      modifies this`currentToken
      ensures currentToken == old(currentToken) - 1
      ensures inBounds <==> InBounds(currentToken, |tokenList|)
      ensures tokenList == old(tokenList)
    {
      currentToken := currentToken - 1;
      inBounds := currentToken >= 0 && currentToken < |tokenList|;
    }

    /** `equals` (Tokens.java:39-45): same index and equal lists. */
    function Equals(other: Tokens): (r: bool)
      reads this, other
      ensures r <==> currentToken == other.currentToken && tokenList == other.tokenList
    {
      currentToken == other.currentToken && ListEquals(tokenList, other.tokenList)
    }
  }

  /** A step forward followed by a step back leaves the cursor as it was. */
  method StepForwardThenBack(t: Tokens) returns (forward: bool, back: bool)
    modifies t`currentToken
    ensures t.currentToken == old(t.currentToken) && t.tokenList == old(t.tokenList)
    ensures back <==> InBounds(t.currentToken, |t.tokenList|)
    ensures forward <==> InBounds(t.currentToken + 1, |t.tokenList|)
  {
    forward := t.NextToken();
    back := t.PrevToken();
  }
}
