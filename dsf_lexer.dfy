/** The lexer of the Go `dsf` port (`Lexer`, `NextToken`, `skipWhitespace`, `peek` and
    `isIdentifierChar` in `ref-impl/go/dsf/dsf.go`). The function `Lex` states which token
    `NextToken` returns from a position and where it leaves the position; the class `Lexer`
    holds the method and its loops, proved to agree with it.

    A character of the input stands for one byte: Go indexes the input string bytewise and
    classifies each byte with `unicode.IsSpace`, `unicode.IsLetter` and `unicode.IsDigit`
    applied to the byte's value as a code point, so the classes below are those of the
    Latin-1 range. */
module DsfLexer {
  import opened Values
  import opened Text
  import opened Cursor
  import opened Tokens

  /** `unicode.IsSpace` on a byte: tab, line feed, vertical tab, form feed, carriage return,
      space, next line (0x85) and no-break space (0xA0). */
  predicate IsSpaceByte(c: char)
  {
    c == ' ' || '\t' <= c <= '\r' || c as int == 0x85 || c as int == 0xA0
  }

  /** `unicode.IsLetter` on a byte: the ASCII letters, `ª`, `µ`, `º` and the Latin-1
      letters from 0xC0 to 0xFF except `×` and `÷`. */
  predicate IsLetterByte(c: char)
  {
    IsAsciiLetter(c) || c as int == 0xAA || c as int == 0xB5 || c as int == 0xBA ||
    (0xC0 <= c as int <= 0xFF && c as int != 0xD7 && c as int != 0xF7)
  }

  /** `isIdentifierChar`: a letter, a decimal digit or `_`. */
  predicate IsIdentifierChar(c: char)
  {
    IsLetterByte(c) || IsDigit(c) || c == '_'
  }

  /** The end of the run of spaces starting at `p`. */
  function SpaceEnd(s: string, p: nat): (r: nat)
    requires p <= |s|
    ensures p <= r <= |s|
    ensures forall i :: p <= i < r ==> IsSpaceByte(s[i])
    ensures r == |s| || !IsSpaceByte(s[r])
    decreases |s| - p
  {
    if p < |s| && IsSpaceByte(s[p]) then SpaceEnd(s, p + 1) else p
  }

  /** The end of the run of identifier characters starting at `p`. */
  function WordEnd(s: string, p: nat): (r: nat)
    requires p <= |s|
    ensures p <= r <= |s|
    ensures forall i :: p <= i < r ==> IsIdentifierChar(s[i])
    ensures r == |s| || !IsIdentifierChar(s[r])
    decreases |s| - p
  {
    if p < |s| && IsIdentifierChar(s[p]) then WordEnd(s, p + 1) else p
  }

  /** A byte that ends a constructor payload: `)`, or one the payload may not hold. */
  predicate PayloadStop(c: char)
  {
    c == ')' || c == '(' || IsSpaceByte(c)
  }

  /** The first position at or after `p` holding a payload stop, or the end of the input. */
  function PayloadEnd(s: string, p: nat): (r: nat)
    requires p <= |s|
    ensures p <= r <= |s|
    ensures forall i :: p <= i < r ==> !PayloadStop(s[i])
    ensures r == |s| || PayloadStop(s[r])
    decreases |s| - p
  {
    if p < |s| && !PayloadStop(s[p]) then PayloadEnd(s, p + 1) else p
  }

  /** The errors `NextToken` returns. */
  datatype LexError =
    | UnterminatedString
    | InvalidPayloadChar(c: char)
    | UnterminatedConstructor
    | UnexpectedCharacter(pos: nat, c: char)

  /** What `NextToken` returns, and the position it leaves the lexer at. */
  datatype Lexed = Lexed(result: Result<Token, LexError>, next: nat)

  /** `NextToken` from position `p`: spaces are skipped first. The position never moves
      back, and every token but the end of input takes at least one byte. */
  function Lex(s: string, p: nat): (r: Lexed)
    requires p <= |s|
    ensures p <= r.next <= |s|
    ensures r.result.Ok? ==> Shaped(r.result.value)
    ensures r.result.Ok? && r.result.value.kind != EOF ==> p < r.next
    decreases |s| - p, 1
  {
    TokenAt(s, SpaceEnd(s, p))
  }

  /** `NextToken` once the spaces are skipped: the end of input, a `//` comment (skipped up
      to its line feed, then lexing starts over), punctuation, a string up to the next
      backtick, a number, a word, or an unexpected byte. */
  function TokenAt(s: string, q: nat): (r: Lexed)
    requires q <= |s|
    ensures q <= r.next <= |s|
    ensures r.result.Ok? ==> Shaped(r.result.value)
    ensures r.result.Ok? && r.result.value.kind != EOF ==> q < r.next
    decreases |s| - q, 0
  {
    if q >= |s| then Lexed(Ok(EofToken), q)
    else
      var ch := s[q];
      if ch == '/' && q + 1 < |s| && s[q + 1] == '/' then Lex(s, ByteEnd(s, q + 2, '\n'))
      else if PunctKind(ch).Some? then Lexed(Ok(Token(PunctKind(ch).value, [ch])), q + 1)
      else if ch == '`' then
        var e := ByteEnd(s, q + 1, '`');
        if e >= |s| then Lexed(Err(UnterminatedString), e)
        else Lexed(Ok(Token(StringTok, s[q..e + 1])), e + 1)
      else if NumberToken(s, q).Some? then
        var e := NumberToken(s, q).value;
        Lexed(Ok(Token(NumberTok, s[q..e])), e)
      else if IsIdentifierChar(ch) then WordAt(s, q)
      else Lexed(Err(UnexpectedCharacter(q, ch)), q)
  }

  /** The end of a number token at `q`: a digit or `-` starts a match of the number
      expression, and the byte after the match is not an identifier character. */
  function NumberToken(s: string, q: nat): (r: Option<nat>)
    requires q < |s|
    ensures r.Some? ==> q < r.value <= |s|
    ensures r.Some? ==> GreedyNumberEnd(s, q) == r && (r.value == |s| || !IsIdentifierChar(s[r.value]))
  {
    if IsDigit(s[q]) || s[q] == '-' then
      match GreedyNumberEnd(s, q)
      case None => None
      case Some(e) => if e >= |s| || !IsIdentifierChar(s[e]) then Some(e) else None
    else None
  }

  /** A word at `q`: a constructor when `(` follows it (its payload runs to `)` and may not
      hold a space or `(`), else `T`, `F`, `N` or a key. */
  function WordAt(s: string, q: nat): (r: Lexed)
    requires q < |s| && IsIdentifierChar(s[q])
    ensures q < r.next <= |s|
    ensures r.result.Ok? ==> Shaped(r.result.value)
  {
    var n := WordEnd(s, q);
    var val := s[q..n];
    if n < |s| && s[n] == '(' then
      var c := PayloadEnd(s, n + 1);
      if c >= |s| then Lexed(Err(UnterminatedConstructor), c)
      else if s[c] != ')' then Lexed(Err(InvalidPayloadChar(s[c])), c)
      else Lexed(Ok(Token(ConstructorTok, s[q..c + 1])), c + 1)
    else if LiteralKind(val).Some? then Lexed(Ok(Token(LiteralKind(val).value, val)), n)
    else Lexed(Ok(Token(KeyTok, val)), n)
  }

  /** `Lexer`: the input and the position of the next byte to read. */
  class Lexer {
    const input: string
    var pos: nat

    /** `NewLexer`. */
    constructor(text: string)
      ensures input == text && pos == 0
    {
      input := text;
      pos := 0;
    }

    /** `peek`: the byte after the current one, or 0 when there is none. */
    function Peek(): (r: char)
      reads this
      ensures pos + 1 < |input| ==> r == input[pos + 1]
      ensures pos + 1 >= |input| ==> r == 0 as char
    {
      if pos + 1 < |input| then input[pos + 1] else 0 as char
    }

    /** `NextToken`. A `//` comment is skipped by a recursive call. */
    method NextToken() returns (r: Result<Token, LexError>)
      requires pos <= |input|
      modifies this
      ensures Lex(input, old(pos)) == Lexed(r, pos)
      decreases |input| - pos
    {
      SkipWhitespace();
      if pos >= |input| {
        return Ok(EofToken);
      }
      var ch := input[pos];
      if ch == '/' && Peek() == '/' {
        pos := pos + 2;
        SkipTo('\n');
        r := NextToken();
        return;
      }
      if ch == '{' {
        pos := pos + 1;
        return Ok(Token(BraceOpen, "{"));
      }
      if ch == '}' {
        pos := pos + 1;
        return Ok(Token(BraceClose, "}"));
      }
      if ch == '[' {
        pos := pos + 1;
        return Ok(Token(BracketOpen, "["));
      }
      if ch == ']' {
        pos := pos + 1;
        return Ok(Token(BracketClose, "]"));
      }
      if ch == ':' {
        pos := pos + 1;
        return Ok(Token(Colon, ":"));
      }
      if ch == ',' {
        pos := pos + 1;
        return Ok(Token(Comma, ","));
      }
      if ch == '`' {
        r := LexString();
        return;
      }
      if IsDigit(ch) || ch == '-' {
        var numMatch := GreedyNumberEnd(input, pos);
        if numMatch.Some? {
          var endPos := numMatch.value;
          if endPos >= |input| || !IsIdentifierChar(input[endPos]) {
            var start := pos;
            pos := endPos;
            return Ok(Token(NumberTok, input[start..endPos]));
          }
        }
      }
      if IsIdentifierChar(ch) {
        r := LexWord();
        return;
      }
      return Err(UnexpectedCharacter(pos, ch));
    }

    /** The backtick branch of `NextToken`. */
    method LexString() returns (r: Result<Token, LexError>)
      requires pos < |input| && input[pos] == '`'
      modifies this
      ensures TokenAt(input, old(pos)) == Lexed(r, pos)
    {
      var start := pos;
      pos := pos + 1;
      SkipTo('`');
      if pos >= |input| {
        return Err(UnterminatedString);
      }
      pos := pos + 1;
      return Ok(Token(StringTok, input[start..pos]));
    }

    /** The identifier branch of `NextToken`: a word, and a constructor payload when `(`
        follows it. */
    method LexWord() returns (r: Result<Token, LexError>)
      requires pos < |input| && IsIdentifierChar(input[pos])
      modifies this
      ensures WordAt(input, old(pos)) == Lexed(r, pos)
    {
      var start := pos;
      SkipWord();
      var val := input[start..pos];
      if pos < |input| && input[pos] == '(' {
        pos := pos + 1;
        r := LexPayload(start);
        return;
      }
      if val == "T" {
        return Ok(Token(BoolT, "T"));
      }
      if val == "F" {
        return Ok(Token(BoolF, "F"));
      }
      if val == "N" {
        return Ok(Token(NullN, "N"));
      }
      return Ok(Token(KeyTok, val));
    }

    /** The payload loop of a constructor whose name starts at `start`. */
    method LexPayload(start: nat) returns (r: Result<Token, LexError>)
      requires start < pos <= |input|
      modifies this
      ensures var c := PayloadEnd(input, old(pos));
        if c >= |input| then r == Err(UnterminatedConstructor) && pos == c
        else if input[c] != ')' then r == Err(InvalidPayloadChar(input[c])) && pos == c
        else r == Ok(Token(ConstructorTok, input[start..c + 1])) && pos == c + 1
    {
      ghost var p0 := pos;
      while pos < |input| && input[pos] != ')'
        invariant p0 <= pos <= |input|
        invariant PayloadEnd(input, p0) == PayloadEnd(input, pos)
        decreases |input| - pos
      {
        if IsSpaceByte(input[pos]) || input[pos] == '(' {
          return Err(InvalidPayloadChar(input[pos]));
        }
        pos := pos + 1;
      }
      if pos >= |input| {
        return Err(UnterminatedConstructor);
      }
      pos := pos + 1;
      return Ok(Token(ConstructorTok, input[start..pos]));
    }

    /** `skipWhitespace`. */
    method SkipWhitespace()
      requires pos <= |input|
      modifies this
      ensures pos == SpaceEnd(input, old(pos))
    {
      while pos < |input| && IsSpaceByte(input[pos])
        invariant old(pos) <= pos <= |input|
        invariant SpaceEnd(input, old(pos)) == SpaceEnd(input, pos)
        decreases |input| - pos
      {
        pos := pos + 1;
      }
    }

    /** A scan loop of `NextToken` that stops at `c` or at the end of the input. */
    method SkipTo(c: char)
      requires pos <= |input|
      modifies this
      ensures pos == ByteEnd(input, old(pos), c)
    {
      while pos < |input| && input[pos] != c
        invariant old(pos) <= pos <= |input|
        invariant ByteEnd(input, old(pos), c) == ByteEnd(input, pos, c)
        decreases |input| - pos
      {
        pos := pos + 1;
      }
    }

    /** The identifier loop of `NextToken`. */
    method SkipWord()
      requires pos <= |input|
      modifies this
      ensures pos == WordEnd(input, old(pos))
    {
      while pos < |input| && IsIdentifierChar(input[pos])
        invariant old(pos) <= pos <= |input|
        invariant WordEnd(input, old(pos)) == WordEnd(input, pos)
        decreases |input| - pos
      {
        pos := pos + 1;
      }
    }
  }
}
