/** The lexer of the Python port (`DTXTLexer` in `ref-impl/python/dtxt.py`). Its constructor
    runs `re.finditer` over the alternation of `TOKEN_SPEC`, drops blanks and comments, and
    raises on the first unexpected character. `ScanAt` states which alternative the regular
    expression engine takes at a position (the first that matches, in `TOKEN_SPEC` order) and
    `TokensFrom` the token list the loop builds; `Tokenize` is the loop, proved against it.

    The scanner takes a flag `fixed`. With `fixed` false it is the code as written, where the
    one-character literals `T`, `F` and `N` are tried before `KEY` with no look-ahead, so a
    key such as `Tag` is split into `T` and `ag`. With `fixed` true a literal is taken only
    when no identifier character follows it, which is what the writer of the same file
    relies on when it prints such keys. */
module PyLexer {
  import opened Values
  import opened Text
  import opened Cursor
  import opened Tokens

  /** The `DTXTError`s the lexer and the parser raise, and the `ValueError` of `int()`. */
  datatype PyError =
    | UnexpectedCharacter(c: char)
    | Expected(expected: Kind, got: Kind)
    | TrailingData(got: Kind)
    | UnexpectedToken(token: Token)
    | ExpectedKey(got: Kind)
    | DuplicateKey(key: string)
    | ExpectedCommaOrBrace(got: Kind)
    | ExpectedCommaOrBracket(got: Kind)
    | InvalidNumber(text: string)
    | InvalidConstructor(text: string)
    | InvalidBigInt(payload: string)
    | InvalidHex(payload: string)
    | UnknownConstructor(name: string)

  // ---------------------------------------------------------------- the NUMBER alternative

  /** The negative look-ahead `(?![A-Za-z0-9_])` holds at `k`. */
  predicate NotIdentAt(s: string, k: nat)
    requires k <= |s|
  {
    k == |s| || !IsIdentChar(s[k])
  }

  /** A candidate end of the number expression, kept when the look-ahead holds there. */
  function Accept(s: string, o: Option<nat>): (r: Option<nat>)
    requires o.Some? ==> o.value <= |s|
    ensures r.Some? ==> o == r && NotIdentAt(s, r.value)
  {
    if o.Some? && NotIdentAt(s, o.value) then o else None
  }

  function OrElse(a: Option<nat>, b: Option<nat>): Option<nat>
  {
    if a.Some? then a else b
  }

  /** The end of the `NUMBER` match at `p`, or `None`. The engine backtracks when the
      look-ahead fails: it tries the optional fraction and exponent taken, then dropped,
      in that order, and keeps the first end an identifier character does not follow. (A
      digit run cannot usefully end early, since a digit would then follow it.) */
  function PyNumberEnd(s: string, p: nat): (r: Option<nat>)
    requires p <= |s|
    ensures r.Some? ==> p < r.value <= |s| && NotIdentAt(s, r.value)
  {
    match StrictInt(s, AfterSign(s, p))
    case None => None
    case Some(b) =>
      var f := StrictFrac(s, b);
      var fracExp := if f.Some? then Accept(s, StrictExp(s, f.value)) else None;
      var fracOnly := if f.Some? then Accept(s, f) else None;
      var expOnly := Accept(s, StrictExp(s, b));
      OrElse(fracExp, OrElse(fracOnly, OrElse(expOnly, Accept(s, Some(b)))))
  }

  // ---------------------------------------------------------------- the other alternatives

  /** A character that cannot appear in a `CONSTRUCTOR` payload. */
  predicate PyPayloadStop(c: char)
  {
    c == '(' || c == ')' || c == ' ' || c == '\t' || c == '\n' || c == '\r'
  }

  /** The first position at or after `p` holding a payload stop, or the end of the input. */
  function PyPayloadEnd(s: string, p: nat): (r: nat)
    requires p <= |s|
    ensures p <= r <= |s|
    ensures forall i :: p <= i < r ==> !PyPayloadStop(s[i])
    ensures r == |s| || PyPayloadStop(s[r])
    decreases |s| - p
  {
    if p < |s| && !PyPayloadStop(s[p]) then PyPayloadEnd(s, p + 1) else p
  }

  /** The position of the `)` that ends a `CONSTRUCTOR` match at `p`: an identifier run, `(`,
      payload characters, and `)`. */
  function ConstructorEnd(s: string, p: nat): (r: Option<nat>)
    requires p <= |s|
    ensures r.Some? ==> p < IdentEnd(s, p) < r.value < |s| && s[IdentEnd(s, p)] == '(' && s[r.value] == ')'
  {
    var n := IdentEnd(s, p);
    if p < n < |s| && s[n] == '(' then
      var c := PyPayloadEnd(s, n + 1);
      if c < |s| && s[c] == ')' then Some(c) else None
    else None
  }

  /** The end of the run of blanks starting at `p`. */
  function BlankEnd(s: string, p: nat): (r: nat)
    requires p <= |s|
    ensures p <= r <= |s|
    ensures forall i :: p <= i < r ==> IsBlank(s[i])
    ensures r == |s| || !IsBlank(s[r])
    decreases |s| - p
  {
    if p < |s| && IsBlank(s[p]) then BlankEnd(s, p + 1) else p
  }

  /** One match of the alternation: text to drop (a comment or blanks), a token, or the
      `MISMATCH` character. */
  datatype Scanned = Skip(next: nat) | Tok(token: Token, next: nat) | Mismatch(c: char)

  /** The `T`, `F` and `N` alternatives: the literal at `p`, if one is taken there. */
  function LiteralAt(s: string, p: nat, fixed: bool): (r: Option<Kind>)
    requires p < |s|
    ensures r.Some? ==> LiteralKind([s[p]]) == r
  {
    if LiteralKind([s[p]]).Some? && (!fixed || NotIdentAt(s, p + 1)) then LiteralKind([s[p]]) else None
  }

  /** The alternative `re.finditer` takes at `p`, in `TOKEN_SPEC` order. A comment runs up to
      its line feed (exclusive); an unterminated string and a lone `/` fall through to
      `MISMATCH`. Every match takes at least one character. */
  function ScanAt(s: string, p: nat, fixed: bool): (r: Scanned)
    requires p < |s|
    ensures (r.Skip? || r.Tok?) ==> p < r.next <= |s|
    ensures r.Tok? ==> r.token.kind != EOF
  {
    var c := s[p];
    if CommentAt(s, p) then Skip(ByteEnd(s, p + 2, '\n'))
    else if c == '`' && ByteEnd(s, p + 1, '`') < |s| then
      var e := ByteEnd(s, p + 1, '`');
      Tok(Token(StringTok, s[p..e + 1]), e + 1)
    else if ConstructorEnd(s, p).Some? then
      var e := ConstructorEnd(s, p).value;
      Tok(Token(ConstructorTok, s[p..e + 1]), e + 1)
    else if PunctKind(c).Some? then Tok(Token(PunctKind(c).value, [c]), p + 1)
    else if PyNumberEnd(s, p).Some? then
      var e := PyNumberEnd(s, p).value;
      Tok(Token(NumberTok, s[p..e]), e)
    else if LiteralAt(s, p, fixed).Some? then Tok(Token(LiteralAt(s, p, fixed).value, [c]), p + 1)
    else if IsIdentChar(c) then Tok(Token(KeyTok, s[p..IdentEnd(s, p)]), IdentEnd(s, p))
    else if IsBlank(c) then Skip(BlankEnd(s, p))
    else Mismatch(c)
  }

  // ---------------------------------------------------------------- the token list

  /** A token list as the lexer leaves it: it ends with the one `EOF` token. */
  predicate WellEnded(ts: seq<Token>)
  {
    |ts| > 0 && ts[|ts| - 1] == EofToken && forall i :: 0 <= i < |ts| - 1 ==> ts[i].kind != EOF
  }

  /** `ts` put in front of the tokens of a result, or the result's error. */
  function Prepend(ts: seq<Token>, r: Result<seq<Token>, PyError>): Result<seq<Token>, PyError>
  {
    match r
    case Ok(rest) => Ok(ts + rest)
    case Err(e) => Err(e)
  }

  lemma PrependPrepend(a: seq<Token>, b: seq<Token>, r: Result<seq<Token>, PyError>)
    ensures Prepend(a, Prepend(b, r)) == Prepend(a + b, r)
  {
    if r.Ok? { assert a + (b + r.value) == (a + b) + r.value; }
  }

  lemma PrependNothing(r: Result<seq<Token>, PyError>)
    ensures Prepend([], r) == r
  {
    if r.Ok? { assert [] + r.value == r.value; }
  }

  /** The tokens the lexer collects from position `p` on, followed by `EOF`, or the error of
      the first unexpected character. */
  function TokensFrom(s: string, p: nat, fixed: bool): (r: Result<seq<Token>, PyError>)
    requires p <= |s|
    ensures r.Ok? ==> WellEnded(r.value)
    decreases |s| - p
  {
    if p == |s| then Ok([EofToken])
    else
      match ScanAt(s, p, fixed)
      case Skip(n) => TokensFrom(s, n, fixed)
      case Tok(t, n) => Prepend([t], TokensFrom(s, n, fixed))
      case Mismatch(c) => Err(UnexpectedCharacter(c))
  }

  /** `DTXTLexer.__init__`: the `finditer` loop. The list it returns is `self.tokens`; an
      error is the `DTXTError` it raises. */
  method Tokenize(text: string, fixed: bool) returns (r: Result<seq<Token>, PyError>)
    ensures r == TokensFrom(text, 0, fixed)
  {
    var tokens: seq<Token> := [];
    var pos: nat := 0;
    PrependNothing(TokensFrom(text, 0, fixed));
    while pos < |text|
      invariant pos <= |text|
      invariant TokensFrom(text, 0, fixed) == Prepend(tokens, TokensFrom(text, pos, fixed))
      decreases |text| - pos
    {
      var mo := ScanAt(text, pos, fixed);
      match mo
      case Skip(n) =>
        pos := n;
      case Tok(t, n) =>
        PrependPrepend(tokens, [t], TokensFrom(text, n, fixed));
        tokens := tokens + [t];
        pos := n;
      case Mismatch(c) =>
        return Err(UnexpectedCharacter(c));
    }
    tokens := tokens + [EofToken];
    return Ok(tokens);
  }

  // ---------------------------------------------------------------- properties

  /** Every token but the last is a real token, the last is `EOF`, and the lexer either
      collects them all or fails with an unexpected character: it never raises a parser
      error. */
  lemma {:induction false} TokensErrors(s: string, p: nat, fixed: bool)
    requires p <= |s|
    ensures TokensFrom(s, p, fixed).Err? ==> TokensFrom(s, p, fixed).error.UnexpectedCharacter?
    decreases |s| - p
  {
    if p < |s| {
      match ScanAt(s, p, fixed)
      case Skip(n) => TokensErrors(s, n, fixed);
      case Tok(t, n) => TokensErrors(s, n, fixed);
      case Mismatch(c) =>
    }
  }

  /** Keys may start with digits: `123key` is not a number, since the look-ahead fails after
      `123`, so it is read as one `KEY`. */
  lemma DigitKey(fixed: bool)
    ensures TokensFrom("123key", 0, fixed) == Ok([Token(KeyTok, "123key"), EofToken])
  {
    DigitKeyTokens("123key", fixed);
  }

  lemma DigitKeyTokens(s: string, fixed: bool)
    requires s == "123key"
    ensures TokensFrom(s, 0, fixed) == Ok([Token(KeyTok, s), EofToken])
  {
    DigitKeyScan(s, fixed);
    assert TokensFrom(s, 6, fixed) == Ok([EofToken]);
    assert TokensFrom(s, 0, fixed) == Prepend([Token(KeyTok, s)], TokensFrom(s, 6, fixed));
    assert [Token(KeyTok, s)] + [EofToken] == [Token(KeyTok, s), EofToken];
  }

  lemma DigitKeyScan(s: string, fixed: bool)
    requires s == "123key"
    ensures ScanAt(s, 0, fixed) == Tok(Token(KeyTok, s), 6)
  {
    DigitKeyIdent(s);
    DigitKeyDigits(s);
    assert PyNumberEnd(s, 0) == None;
    assert ConstructorEnd(s, 0) == None;
    assert s[0..6] == s;
  }

  lemma DigitKeyIdent(s: string)
    requires s == "123key"
    ensures IdentEnd(s, 0) == 6
  {
    assert IdentEnd(s, 5) == 6;
    assert IdentEnd(s, 4) == 6;
    assert IdentEnd(s, 3) == 6;
    assert IdentEnd(s, 2) == 6;
    assert IdentEnd(s, 1) == 6;
  }

  lemma DigitKeyDigits(s: string)
    requires s == "123key"
    ensures DigitsEnd(s, 0) == 3
  {
    assert DigitsEnd(s, 3) == 3;
    assert DigitsEnd(s, 2) == 3;
    assert DigitsEnd(s, 1) == 3;
  }
}
