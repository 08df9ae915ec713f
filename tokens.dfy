/** The tokens of the two ports that split their input into tokens before parsing
    (`ref-impl/go/dsf/dsf.go` and `ref-impl/python/dtxt.py`), and the pieces of the number
    lexeme both recognise with the regular expression
    `-?(?:0|[1-9]\d*)(?:\.\d+)?(?:[eE][+-]?\d+)?`. */
module Tokens {
  import opened Values
  import opened Text
  import opened Codec
  import opened Cursor

  /** The token kinds: Go's `TokenKind` constants and the group names of Python's
      `TOKEN_SPEC`. (Go also declares `TokenComment`, which its lexer never returns.) */
  datatype Kind =
    | EOF
    | StringTok
    | ConstructorTok
    | BraceOpen
    | BraceClose
    | BracketOpen
    | BracketClose
    | Colon
    | Comma
    | NumberTok
    | BoolT
    | BoolF
    | NullN
    | KeyTok

  /** A token and the text it was read from (a string token keeps its backticks, a
      constructor token its name and parentheses). */
  datatype Token = Token(kind: Kind, text: string)

  /** The end-of-input token; it is also the zero `Token` a Go lexer error leaves behind. */
  const EofToken := Token(EOF, "")

  /** The kinds both parsers accept where a key is expected: identifiers and the literals. */
  predicate KeyKind(k: Kind)
  {
    k == KeyTok || k == BoolT || k == BoolF || k == NullN
  }

  /** What the parsers rely on about the text of a token: a string token has both its
      backticks and a constructor token ends with its `)`. */
  predicate Shaped(t: Token)
  {
    (t.kind == StringTok ==> |t.text| >= 2) &&
    (t.kind == ConstructorTok ==> |t.text| > 0 && t.text[|t.text| - 1] == ')')
  }

  /** The one-character tokens `{ } [ ] : ,`. */
  function PunctKind(c: char): Option<Kind>
  {
    if c == '{' then Some(BraceOpen)
    else if c == '}' then Some(BraceClose)
    else if c == '[' then Some(BracketOpen)
    else if c == ']' then Some(BracketClose)
    else if c == ':' then Some(Colon)
    else if c == ',' then Some(Comma)
    else None
  }

  /** The literal a `T`, `F` or `N` word stands for. */
  function LiteralKind(w: string): Option<Kind>
  {
    if w == "T" then Some(BoolT) else if w == "F" then Some(BoolF) else if w == "N" then Some(NullN) else None
  }

  // ---------------------------------------------------------------- number lexeme pieces

  /** `0|[1-9]\d*` at `a`: the position after it, if it matches. */
  function StrictInt(s: string, a: nat): (r: Option<nat>)
    requires a <= |s|
    ensures r.Some? ==> a < r.value <= |s|
  {
    if a < |s| && s[a] == '0' then Some(a + 1)
    else if a < |s| && '1' <= s[a] <= '9' then Some(DigitsEnd(s, a))
    else None
  }

  /** `\.\d+` at `b`. */
  function StrictFrac(s: string, b: nat): (r: Option<nat>)
    requires b <= |s|
    ensures r.Some? ==> b + 1 < r.value <= |s|
  {
    if b + 1 < |s| && s[b] == '.' && IsDigit(s[b + 1]) then Some(DigitsEnd(s, b + 1)) else None
  }

  /** `[eE][+-]?\d+` at `c`. */
  function StrictExp(s: string, c: nat): (r: Option<nat>)
    requires c <= |s|
    ensures r.Some? ==> c + 1 < r.value <= |s|
  {
    if ExpMarkAt(s, c) && ExpDigits(s, c) < |s| && IsDigit(s[ExpDigits(s, c)]) then
      Some(DigitsEnd(s, ExpDigits(s, c)))
    else None
  }

  /** An optional part: where it ends if it matched, else where it would have started. */
  function Past(o: Option<nat>, p: nat): nat
  {
    if o.Some? then o.value else p
  }

  /** An optional result moved `p` positions on. */
  function Shift(o: Option<nat>, p: nat): Option<nat>
  {
    if o.Some? then Some(p + o.value) else None
  }

  /** The match of the whole expression at `p` as Go's `regexp` reports it (leftmost-first,
      so each optional part is taken whenever it matches), or `None`. */
  function GreedyNumberEnd(s: string, p: nat): (r: Option<nat>)
    requires p <= |s|
    ensures r.Some? ==> p < r.value <= |s|
  {
    match StrictInt(s, AfterSign(s, p))
    case None => None
    case Some(b) =>
      var c := Past(StrictFrac(s, b), b);
      Some(Past(StrictExp(s, c), c))
  }

  /** A character that ends a token in the writers' output: a separator, a closer, a
      colon or a blank. */
  predicate Delim(c: char)
  {
    c == ',' || c == ']' || c == '}' || c == ':' || IsBlank(c)
  }

  /** `t` is written at `p` and followed by the end of the input or a delimiter. */
  predicate Placed(s: string, p: nat, t: string)
  {
    IsAt(s, p, t) && (p + |t| == |s| || Delim(s[p + |t|]))
  }

  /** The end of a placed text is placed. */
  lemma PlacedTail(s: string, q: nat, c: nat, n: nat, a: string, b: string)
    requires Placed(s, q, a + b) && c == q + |a| && n == q + |a + b|
    ensures IsAt(s, q, a) && Placed(s, c, b) && n == c + |b|
  {
    IsAtConcat(s, q, a, b);
  }

  lemma PlacedEmbeds(s: string, p: nat, t: string)
    requires Placed(s, p, t)
    ensures Embeds(s, p, t)
  {
    forall i | 0 <= i < |t| ensures s[p + i] == t[i] { IsAtChar(s, p, t, i); }
  }

  lemma StrictIntShift(s: string, p: nat, t: string, a: nat)
    requires Embeds(s, p, t) && a <= |t|
    ensures StrictInt(s, p + a) == Shift(StrictInt(t, a), p)
  {
    if a < |t| && '1' <= t[a] <= '9' { DigitsEndShift(s, p, t, a); }
  }

  lemma StrictFracShift(s: string, p: nat, t: string, b: nat)
    requires Embeds(s, p, t) && b <= |t|
    ensures StrictFrac(s, p + b) == Shift(StrictFrac(t, b), p)
  {
    if b + 1 < |t| && t[b] == '.' && IsDigit(t[b + 1]) { DigitsEndShift(s, p, t, b + 1); }
  }

  lemma StrictExpShift(s: string, p: nat, t: string, c: nat)
    requires Embeds(s, p, t) && c <= |t|
    ensures StrictExp(s, p + c) == Shift(StrictExp(t, c), p)
  {
    if ExpMarkAt(t, c) {
      ExpShift(s, p, t, c);
      var d := ExpDigits(t, c);
      if d < |t| && IsDigit(t[d]) { DigitsEndShift(s, p, t, d); }
    }
  }

  /** The expression matches `t` written in `s` exactly where it matches `t` alone. */
  lemma GreedyShift(s: string, p: nat, t: string)
    requires Embeds(s, p, t)
    ensures GreedyNumberEnd(s, p) == Shift(GreedyNumberEnd(t, 0), p)
  {
    var a := AfterSign(t, 0);
    assert AfterSign(s, p) == p + a;
    StrictIntShift(s, p, t, a);
    if StrictInt(t, a).Some? {
      var b := StrictInt(t, a).value;
      StrictFracShift(s, p, t, b);
      var c := Past(StrictFrac(t, b), b);
      StrictExpShift(s, p, t, c);
      GreedyParts(s, p, t, a, b, c);
    } else {
      GreedyNone(s, p, t, a);
    }
  }

  /** The match at `p` in `s` assembled from its parts, each one moved by `p`. */
  lemma GreedyParts(s: string, p: nat, t: string, a: nat, b: nat, c: nat)
    requires p + |t| <= |s| && a == AfterSign(t, 0) && AfterSign(s, p) == p + a
    requires StrictInt(t, a) == Some(b) && StrictInt(s, p + a) == Shift(StrictInt(t, a), p)
    requires b <= |t| && StrictFrac(s, p + b) == Shift(StrictFrac(t, b), p)
    requires c == Past(StrictFrac(t, b), b) && c <= |t| && StrictExp(s, p + c) == Shift(StrictExp(t, c), p)
    ensures GreedyNumberEnd(s, p) == Shift(GreedyNumberEnd(t, 0), p)
  {
    assert Past(StrictFrac(s, p + b), p + b) == p + c;
    var e := Past(StrictExp(t, c), c);
    assert Past(StrictExp(s, p + c), p + c) == p + e;
    assert StrictInt(s, AfterSign(s, p)) == Some(p + b);
    GreedyOf(t, 0, b, c, e);
    GreedyOf(s, p, p + b, p + c, p + e);
  }

  lemma GreedyOf(s: string, p: nat, b: nat, c: nat, e: nat)
    requires p <= |s| && StrictInt(s, AfterSign(s, p)) == Some(b)
    requires b <= |s| && Past(StrictFrac(s, b), b) == c && c <= |s| && Past(StrictExp(s, c), c) == e
    ensures GreedyNumberEnd(s, p) == Some(e)
  {
  }

  lemma GreedyNone(s: string, p: nat, t: string, a: nat)
    requires p + |t| <= |s| && a == AfterSign(t, 0) && AfterSign(s, p) == p + a
    requires StrictInt(t, a).None? && StrictInt(s, p + a) == Shift(StrictInt(t, a), p)
    ensures GreedyNumberEnd(s, p) == Shift(GreedyNumberEnd(t, 0), p)
  {
  }

  /** The decimal text of an integer is matched whole, with no fraction or exponent. */
  lemma DecimalGreedy(n: int)
    ensures GreedyNumberEnd(DecimalString(n), 0) == Some(|DecimalString(n)|)
  {
    var r := DecimalString(n);
    DecimalStringShape(n);
    var a := AfterSign(r, 0);
    var d := if n < 0 then r[1..] else r;
    assert a == |r| - |d|;
    forall i | a <= i < |r| ensures IsDigit(r[i]) { assert r[i] == d[i - a]; }
    if r[a] == '0' {
      assert |d| == 1;
    } else {
      DigitsRun(r, a);
    }
  }

  /** A run of digits to the end of the text is scanned to its end. */
  lemma {:induction false} DigitsRun(s: string, a: nat)
    requires a <= |s| && forall i :: a <= i < |s| ==> IsDigit(s[i])
    ensures DigitsEnd(s, a) == |s|
    decreases |s| - a
  {
    if a < |s| { DigitsRun(s, a + 1); }
  }
}
