/** What the Python writers produce, `load` reads back: for every object whose strings,
    instants, keys and numbers can be written without clashing with the syntax,
    `loads(dumps(v))` and `loads(dumps_canonical(v, indent))` give the object again. The
    proof has two stages, as the port has: the lexer turns the written text into the
    token list `ValueToks` describes (`ValueLex`), and the parser reads that list back
    into the value (`ValueParse`).

    With the lexer as written, a key of more than one character that starts with `T`, `F`
    or `N` is split by the lexer (`TagSplit`); the round trip holds for such keys only with
    the look-ahead the writer relies on (`fixed`). */
module PyRoundTrip {
  import opened Values
  import opened Text
  import opened Codec
  import opened Cursor
  import opened Tokens
  import opened Layout
  import opened CursorLayout
  import opened PyLexer
  import opened PyParser
  import opened PyDumps

  /** A key the lexer reads back as one key token: identifier characters that do not start
      a number match, and, with the lexer as written, no `T`, `F` or `N` in front of more
      characters. */
  predicate PyKey(k: string, fixed: bool)
  {
    |k| > 0 && AllIdent(k) && PyNumberEnd(k, 0).None? && (fixed || |k| == 1 || LiteralKind([k[0]]).None?)
  }

  /** A constructor payload the lexer takes whole: no parenthesis and no blank. */
  predicate PayloadText(t: string)
  {
    forall i :: 0 <= i < |t| ==> !PyPayloadStop(t[i])
  }

  /** The Python values whose text the writers and `load` agree on: float lexemes matched
      whole by the number expression that `str(float)` writes back unchanged, strings
      without a backtick, instants whose text is a payload and that the calendar reads back
      as the same instant, and keys as above. Python has one integer type, so no value
      holds a `BigInt`. */
  predicate PyEncodable(v: Value, show: string -> string, cal: Calendar, fixed: bool)
    decreases v
  {
    match v
    case Number(t) => PyNumberEnd(t, 0) == Some(|t|) && IsFloatText(t) && show(t) == t
    case Str(t) => Free(t, '`')
    case Date(t) => DateEncodable(t, cal)
    case BigInt(_) => false
    case Array(a) => forall i :: 0 <= i < |a| ==> PyEncodable(a[i], show, cal, fixed)
    case Object(m) => forall k :: k in m ==> PyKey(k, fixed) && PyEncodable(m[k], show, cal, fixed)
    case _ => true
  }

  /** An instant's `isoformat()` text: it shows a UTC offset as `+00:00` and so holds no
      `Z`, it has no parenthesis or blank, and the calendar reads it back as the same
      instant: `datetime.fromisoformat` when it holds `T`, else the `%Y-%m-%d` date, whose
      text has no offset and so no `+`. */
  predicate DateEncodable(t: string, cal: Calendar)
  {
    Free(t, 'Z') && PayloadText(t) &&
    if Free(t, 'T') then Free(t, '+') && cal.dateOnly(t) == Some(t) else cal.dateTime(t) == Some(t)
  }

  /** An encodable value is its own normal form: the writers print it as it is. */
  lemma {:induction false} NormalFixed(v: Value, show: string -> string, cal: Calendar, fixed: bool)
    requires PyEncodable(v, show, cal, fixed)
    ensures Normal(v) == v
    decreases v
  {
    match v
    case Array(a) =>
      forall i | 0 <= i < |a| ensures Normal(a[i]) == a[i] { NormalFixed(a[i], show, cal, fixed); }
      assert Normal(v).items == a;
    case Object(m) =>
      forall k | k in m ensures Normal(m[k]) == m[k] { NormalFixed(m[k], show, cal, fixed); }
      NormalFields(m);
      assert Normal(v).fields == m;
    case _ =>
  }

  // ---------------------------------------------------------------- number matches

  /** The characters a number match is made of. */
  predicate NumberChar(c: char)
  {
    IsDigit(c) || c == '.' || c == 'e' || c == 'E' || c == '+' || c == '-'
  }

  predicate NumberChars(s: string, x: nat, y: nat)
    requires x <= y <= |s|
  {
    forall i :: x <= i < y ==> NumberChar(s[i])
  }

  /** A whole number match starts with `-` or a digit and holds only number characters. */
  lemma PyNumberChars(t: string)
    requires PyNumberEnd(t, 0) == Some(|t|)
    ensures |t| > 0 && (t[0] == '-' || IsDigit(t[0])) && NumberChars(t, 0, |t|)
  {
    var a := AfterSign(t, 0);
    var b := StrictInt(t, a).value;
    assert NumberChars(t, 0, b);
    var f := StrictFrac(t, b);
    if f.Some? {
      assert NumberChars(t, 0, f.value);
      if StrictExp(t, f.value).Some? { assert NumberChars(t, 0, StrictExp(t, f.value).value); }
    }
    if StrictExp(t, b).Some? { assert NumberChars(t, 0, StrictExp(t, b).value); }
  }

  /** The decimal text of an integer is one whole number match. */
  lemma PyDecimal(n: int)
    ensures PyNumberEnd(DecimalString(n), 0) == Some(|DecimalString(n)|)
  {
    var r := DecimalString(n);
    DecimalStringShape(n);
    var a := AfterSign(r, 0);
    var d := if n < 0 then r[1..] else r;
    assert a == |r| - |d|;
    forall i | a <= i < |r| ensures IsDigit(r[i]) { assert r[i] == d[i - a]; }
    if r[a] != '0' { DigitsRun(r, a); }
    assert StrictInt(r, a) == Some(|r|);
  }

  /** The look-ahead at a candidate end is the same in `s` as in the text `t` written in it. */
  lemma AcceptShift(s: string, p: nat, t: string, o: Option<nat>)
    requires Embeds(s, p, t) && (p + |t| == |s| || !IsIdentChar(s[p + |t|]))
    requires o.Some? ==> o.value <= |t|
    ensures Accept(s, Shift(o, p)) == Shift(Accept(t, o), p)
  {
    if o.Some? && o.value < |t| { assert s[p + o.value] == t[o.value]; }
  }

  /** The number expression matches `t` written in `s`, followed by a character that
      continues neither a number nor an identifier, exactly where it matches `t` alone. */
  lemma PyNumberShift(s: string, p: nat, t: string)
    requires Embeds(s, p, t) && (p + |t| == |s| || !IsIdentChar(s[p + |t|]))
    ensures PyNumberEnd(s, p) == Shift(PyNumberEnd(t, 0), p)
  {
    var a := AfterSign(t, 0);
    assert AfterSign(s, p) == p + a;
    StrictIntShift(s, p, t, a);
    if StrictInt(t, a).Some? {
      var b := StrictInt(t, a).value;
      FracShift(s, p, t, b);
      ExpOnlyShift(s, p, t, b);
      PyNumberParts(s, p, t, a, b);
    } else {
      assert StrictInt(s, AfterSign(s, p)).None?;
      PyNumberNone(s, p);
      PyNumberNone(t, 0);
    }
  }

  /** The four candidates at `p` in `s` from those in `t`, each moved by `p`. */
  lemma PyNumberParts(s: string, p: nat, t: string, a: nat, b: nat)
    requires p + |t| <= |s| && a == AfterSign(t, 0) && AfterSign(s, p) == p + a
    requires StrictInt(t, a) == Some(b) && StrictInt(s, p + a) == Shift(StrictInt(t, a), p)
    requires var f := StrictFrac(s, p + b); var g := StrictFrac(t, b);
      Shift(g, p) == f &&
      (f.Some? ==> Accept(s, StrictExp(s, f.value)) == Shift(Accept(t, StrictExp(t, g.value)), p)) &&
      (f.Some? ==> Accept(s, f) == Shift(Accept(t, g), p))
    requires Accept(s, StrictExp(s, p + b)) == Shift(Accept(t, StrictExp(t, b)), p)
    requires Accept(s, Some(p + b)) == Shift(Accept(t, Some(b)), p)
    ensures PyNumberEnd(s, p) == Shift(PyNumberEnd(t, 0), p)
  {
    var g := StrictFrac(t, b);
    var x1 := if g.Some? then Accept(t, StrictExp(t, g.value)) else None;
    var x2 := if g.Some? then Accept(t, g) else None;
    var x3 := Accept(t, StrictExp(t, b));
    var x4 := Accept(t, Some(b));
    PyNumberOf(t, 0, b, x1, x2, x3, x4);
    assert StrictInt(s, AfterSign(s, p)) == Some(p + b);
    PyNumberOf(s, p, p + b, Shift(x1, p), Shift(x2, p), Shift(x3, p), Shift(x4, p));
    OrElseShift(x3, x4, p);
    OrElseShift(x2, OrElse(x3, x4), p);
    OrElseShift(x1, OrElse(x2, OrElse(x3, x4)), p);
  }

  /** The match assembled from its candidates. */
  lemma PyNumberOf(s: string, p: nat, b: nat, x1: Option<nat>, x2: Option<nat>, x3: Option<nat>, x4: Option<nat>)
    requires p <= |s| && StrictInt(s, AfterSign(s, p)) == Some(b)
    requires x1 == if StrictFrac(s, b).Some? then Accept(s, StrictExp(s, StrictFrac(s, b).value)) else None
    requires x2 == if StrictFrac(s, b).Some? then Accept(s, StrictFrac(s, b)) else None
    requires x3 == Accept(s, StrictExp(s, b)) && x4 == Accept(s, Some(b))
    ensures PyNumberEnd(s, p) == OrElse(x1, OrElse(x2, OrElse(x3, x4)))
  {
  }

  lemma PyNumberNone(s: string, p: nat)
    requires p <= |s| && StrictInt(s, AfterSign(s, p)).None?
    ensures PyNumberEnd(s, p).None?
  {
  }

  lemma OrElseShift(x: Option<nat>, y: Option<nat>, p: nat)
    ensures Shift(OrElse(x, y), p) == OrElse(Shift(x, p), Shift(y, p))
  {
  }

  /** The candidates with a fraction, moved by `p`. */
  lemma FracShift(s: string, p: nat, t: string, b: nat)
    requires Embeds(s, p, t) && (p + |t| == |s| || !IsIdentChar(s[p + |t|])) && b <= |t|
    ensures var f := StrictFrac(s, p + b); var g := StrictFrac(t, b);
      Shift(g, p) == f &&
      (f.Some? ==> Accept(s, StrictExp(s, f.value)) == Shift(Accept(t, StrictExp(t, g.value)), p)) &&
      (f.Some? ==> Accept(s, f) == Shift(Accept(t, g), p))
  {
    StrictFracShift(s, p, t, b);
    var g := StrictFrac(t, b);
    if g.Some? {
      StrictExpShift(s, p, t, g.value);
      AcceptShift(s, p, t, StrictExp(t, g.value));
      AcceptShift(s, p, t, g);
    }
  }

  /** The candidates without a fraction, moved by `p`. */
  lemma ExpOnlyShift(s: string, p: nat, t: string, b: nat)
    requires Embeds(s, p, t) && (p + |t| == |s| || !IsIdentChar(s[p + |t|])) && b <= |t|
    ensures Accept(s, StrictExp(s, p + b)) == Shift(Accept(t, StrictExp(t, b)), p)
    ensures Accept(s, Some(p + b)) == Shift(Accept(t, Some(b)), p)
  {
    StrictExpShift(s, p, t, b);
    AcceptShift(s, p, t, StrictExp(t, b));
    AcceptShift(s, p, t, Some(b));
  }

  // ---------------------------------------------------------------- one match at a time

  /** `TokensFrom` reached through `hops` steps of recursion. A proof about the token lists
      at many positions then does not unfold the lexer at each of them: only `StreamLexer`
      (below) reaches the lexer itself. */
  function Stream(s: string, p: nat, fixed: bool, hops: nat): Result<seq<Token>, PyError>
    requires p <= |s|
    decreases hops
  {
    if hops == 0 then TokensFrom(s, p, fixed) else Stream(s, p, fixed, hops - 1)
  }

  lemma StreamLexer(s: string, p: nat, fixed: bool)
    requires p <= |s|
    ensures Stream(s, p, fixed, 1) == TokensFrom(s, p, fixed)
  {
    assert Stream(s, p, fixed, 1) == Stream(s, p, fixed, 0);
  }

  /** The lexer's tokens from `p` are `toks` followed by its tokens from `e`. */
  predicate Lexes(s: string, p: nat, e: nat, toks: seq<Token>, fixed: bool)
  {
    p <= e <= |s| && Stream(s, p, fixed, 1) == Prepend(toks, Stream(s, e, fixed, 1))
  }

  lemma LexesChain(s: string, p: nat, m: nat, e: nat, a: seq<Token>, b: seq<Token>, fixed: bool)
    requires Lexes(s, p, m, a, fixed) && Lexes(s, m, e, b, fixed)
    ensures Lexes(s, p, e, a + b, fixed)
  {
    PrependPrepend(a, b, Stream(s, e, fixed, 1));
  }

  lemma LexesNone(s: string, p: nat, fixed: bool)
    requires p <= |s|
    ensures Lexes(s, p, p, [], fixed)
  {
    PrependNothing(Stream(s, p, fixed, 1));
  }

  /** A token matched at `p` is the first of the tokens from `p`. */
  lemma LexesTok(s: string, p: nat, t: Token, e: nat, fixed: bool)
    requires p < |s| && ScanAt(s, p, fixed) == Tok(t, e)
    ensures Lexes(s, p, e, [t], fixed)
  {
    StreamLexer(s, p, fixed);
    StreamLexer(s, e, fixed);
  }

  /** Blanks followed by something else are skipped whole. */
  lemma {:induction false} BlankEndRun(s: string, p: nat, g: string)
    requires IsAt(s, p, g) && AllBlank(g) && (p + |g| == |s| || !IsBlank(s[p + |g|]))
    ensures BlankEnd(s, p) == p + |g|
    decreases |g|
  {
    if g != [] {
      IsAtChar(s, p, g, 0);
      IsAtConcat(s, p, g[..1], g[1..]);
      assert g[..1] + g[1..] == g;
      BlankEndRun(s, p + 1, g[1..]);
    }
  }

  lemma BlankLex(s: string, p: nat, q: nat, g: string, fixed: bool)
    requires IsAt(s, p, g) && AllBlank(g) && q == p + |g| && (q == |s| || !IsBlank(s[q]))
    ensures Lexes(s, p, q, [], fixed)
  {
    if g == [] {
      LexesNone(s, p, fixed);
    } else {
      IsAtChar(s, p, g, 0);
      BlankEndRun(s, p, g);
      BlankScan(s, p, fixed);
      LexesSkip(s, p, q, fixed);
    }
  }

  /** Text the lexer drops at `p` adds no token. */
  lemma LexesSkip(s: string, p: nat, q: nat, fixed: bool)
    requires p < |s| && ScanAt(s, p, fixed) == Skip(q)
    ensures Lexes(s, p, q, [], fixed)
  {
    StreamLexer(s, p, fixed);
    StreamLexer(s, q, fixed);
    PrependNothing(TokensFrom(s, q, fixed));
  }

  /** At a blank the lexer drops the run of blanks. */
  lemma BlankScan(s: string, p: nat, fixed: bool)
    requires p < |s| && IsBlank(s[p])
    ensures ScanAt(s, p, fixed) == Skip(BlankEnd(s, p))
  {
    assert IdentEnd(s, p) == p;
    assert ConstructorEnd(s, p).None?;
    assert AfterSign(s, p) == p;
    assert PyNumberEnd(s, p).None?;
    assert LiteralKind([s[p]]).None?;
  }

  /** A punctuation character is read as its token. */
  lemma PunctLex(s: string, p: nat, c: char, fixed: bool)
    requires p < |s| && s[p] == c && PunctKind(c).Some?
    ensures Lexes(s, p, p + 1, [Token(PunctKind(c).value, [c])], fixed)
  {
    assert ScanAt(s, p, fixed) == Tok(Token(PunctKind(c).value, [c]), p + 1);
    LexesTok(s, p, Token(PunctKind(c).value, [c]), p + 1, fixed);
  }

  /** The same, with the token's kind named. */
  lemma KindLex(s: string, p: nat, e: nat, c: char, k: Kind, fixed: bool)
    requires p < |s| && s[p] == c && PunctKind(c) == Some(k) && e == p + 1
    ensures Lexes(s, p, e, [Token(k, [c])], fixed)
  {
    PunctLex(s, p, c, fixed);
  }

  /** A string written at `p` is read as one string token. */
  lemma StringLex(s: string, p: nat, e: nat, t: string, fixed: bool)
    requires IsAt(s, p, "`" + t + "`") && Free(t, '`') && e == p + |t| + 2
    ensures Lexes(s, p, e, [Token(StringTok, "`" + t + "`")], fixed)
  {
    var q := p + 1 + |t|;
    IsAtConcat(s, p, "`" + t, "`");
    IsAtConcat(s, p, "`", t);
    IsAtChar(s, p, "`", 0);
    IsAtChar(s, q, "`", 0);
    ByteEndFree(s, p + 1, t, '`');
    assert s[p..q + 1] == "`" + t + "`";
    StringScan(s, p, q, fixed);
    LexesTok(s, p, Token(StringTok, "`" + t + "`"), e, fixed);
  }

  /** At a backtick with a closing one at `q`, the lexer takes the string up to it. */
  lemma StringScan(s: string, p: nat, q: nat, fixed: bool)
    requires p < q < |s| && s[p] == '`' && ByteEnd(s, p + 1, '`') == q
    ensures ScanAt(s, p, fixed) == Tok(Token(StringTok, s[p..q + 1]), q + 1)
  {
  }

  /** A payload with no stop followed by `)` is scanned whole. */
  lemma {:induction false} PayloadEndRun(s: string, p: nat, t: string)
    requires IsAt(s, p, t) && PayloadText(t) && p + |t| < |s| && s[p + |t|] == ')'
    ensures PyPayloadEnd(s, p) == p + |t|
    decreases |t|
  {
    if t != [] {
      IsAtChar(s, p, t, 0);
      IsAtConcat(s, p, t[..1], t[1..]);
      assert t[..1] + t[1..] == t;
      PayloadEndRun(s, p + 1, t[1..]);
    }
  }

  /** The openers the writers put before a constructor payload. */
  predicate Opener(open: string)
  {
    open == "B(" || open == "D("
  }

  /** `B(..)` or `D(..)` with a payload is read as one constructor token. */
  lemma ConstructorLex(s: string, p: nat, e: nat, open: string, payload: string, fixed: bool)
    requires Opener(open) && IsAt(s, p, open + payload + ")") && PayloadText(payload)
    requires e == p + |payload| + 3
    ensures Lexes(s, p, e, [Token(ConstructorTok, open + payload + ")")], fixed)
  {
    var c := p + 2 + |payload|;
    IsAtConcat(s, p, open + payload, ")");
    IsAtConcat(s, p, open, payload);
    IsAtChar(s, p, open, 0);
    IsAtChar(s, p, open, 1);
    IsAtChar(s, c, ")", 0);
    assert IdentEnd(s, p + 1) == p + 1;
    PayloadEndRun(s, p + 2, payload);
    assert ConstructorEnd(s, p) == Some(c);
    assert s[p..c + 1] == open + payload + ")";
    ConstructorScan(s, p, c, fixed);
    LexesTok(s, p, Token(ConstructorTok, open + payload + ")"), e, fixed);
  }

  /** Where a constructor match ends at `c`, the lexer takes it. */
  lemma ConstructorScan(s: string, p: nat, c: nat, fixed: bool)
    requires p < |s| && s[p] != '/' && s[p] != '`' && ConstructorEnd(s, p) == Some(c)
    ensures ScanAt(s, p, fixed) == Tok(Token(ConstructorTok, s[p..c + 1]), c + 1)
  {
  }

  /** Text free of `(` written at `p` and followed by a delimiter does not start a
      constructor match. */
  lemma NoConstructor(s: string, p: nat, t: string)
    requires Placed(s, p, t) && Free(t, '(')
    ensures ConstructorEnd(s, p).None?
  {
    var n := IdentEnd(s, p);
    if n < p + |t| { IsAtChar(s, p, t, n - p); }
  }

  /** A number match written at `p` and followed by a delimiter is read as one number
      token. */
  lemma NumberLex(s: string, p: nat, e: nat, t: string, fixed: bool)
    requires Placed(s, p, t) && PyNumberEnd(t, 0) == Some(|t|) && e == p + |t|
    ensures Lexes(s, p, e, [Token(NumberTok, t)], fixed)
  {
    PyNumberChars(t);
    IsAtChar(s, p, t, 0);
    assert Free(t, '(');
    NoConstructor(s, p, t);
    PlacedEmbeds(s, p, t);
    PyNumberShift(s, p, t);
    assert s[p..p + |t|] == t;
    NumberScan(s, p, e, fixed);
    LexesTok(s, p, Token(NumberTok, t), e, fixed);
  }

  /** At `-` or a digit, outside a constructor match, the lexer takes the number match. */
  lemma NumberScan(s: string, p: nat, e: nat, fixed: bool)
    requires p < |s| && (s[p] == '-' || IsDigit(s[p])) && ConstructorEnd(s, p).None?
    requires PyNumberEnd(s, p) == Some(e)
    ensures ScanAt(s, p, fixed) == Tok(Token(NumberTok, s[p..e]), e)
  {
  }

  /** `T`, `F` or `N` followed by a delimiter is read as its literal token. */
  lemma LiteralLex(s: string, p: nat, e: nat, w: string, fixed: bool)
    requires (w == "T" || w == "F" || w == "N") && Placed(s, p, w) && e == p + 1
    ensures Lexes(s, p, e, [Token(LiteralKind(w).value, w)], fixed)
  {
    IsAtChar(s, p, w, 0);
    NoConstructor(s, p, w);
    assert [s[p]] == w;
    assert AfterSign(s, p) == p;
    assert PyNumberEnd(s, p).None?;
    assert LiteralAt(s, p, fixed) == LiteralKind(w);
    WordScan(s, p, fixed);
    LexesTok(s, p, Token(LiteralKind(w).value, w), e, fixed);
  }

  /** At a letter, digit or `_` that starts neither a constructor nor a number match, the
      lexer takes a literal or else the identifier run. */
  lemma WordScan(s: string, p: nat, fixed: bool)
    requires p < |s| && IsIdentChar(s[p]) && ConstructorEnd(s, p).None? && PyNumberEnd(s, p).None?
    ensures ScanAt(s, p, fixed) ==
      if LiteralAt(s, p, fixed).Some? then Tok(Token(LiteralAt(s, p, fixed).value, [s[p]]), p + 1)
      else Tok(Token(KeyTok, s[p..IdentEnd(s, p)]), IdentEnd(s, p))
  {
  }

  /** The token a key is read as: a one-character literal keeps its literal kind, which the
      parser accepts as a key. */
  function KeyToken(k: string): (r: Token)
    ensures KeyKind(r.kind) && r.text == k
  {
    Token(if |k| == 1 && LiteralKind(k).Some? then LiteralKind(k).value else KeyTok, k)
  }

  /** A key followed by its colon is read as its key token. */
  lemma KeyLex(s: string, q: nat, k: nat, key: string, fixed: bool)
    requires IsAt(s, q, key) && PyKey(key, fixed) && k == q + |key| && k < |s| && s[k] == ':'
    ensures Lexes(s, q, k, [KeyToken(key)], fixed)
  {
    IsAtChar(s, q, key, 0);
    IdentEndAt(s, q, key);
    assert ConstructorEnd(s, q).None?;
    forall i | 0 <= i < |key| ensures s[q + i] == key[i] { IsAtChar(s, q, key, i); }
    assert Embeds(s, q, key);
    PyNumberShift(s, q, key);
    assert s[q..q + |key|] == key;
    WordScan(s, q, fixed);
    if |key| == 1 && LiteralKind(key).Some? {
      assert [s[q]] == key;
    } else if LiteralKind([s[q]]).Some? {
      assert |key| > 1 && fixed;
      IsAtChar(s, q, key, 1);
      assert LiteralAt(s, q, fixed).None?;
    }
    LexesTok(s, q, KeyToken(key), k, fixed);
  }

  // ---------------------------------------------------------------- the writer's tokens

  /** A comma token, when one is written. */
  function CommaToks(comma: bool): seq<Token>
  {
    if comma then [Token(Comma, ",")] else []
  }

  /** The kind of the token a value that is not a container is read from. */
  function ScalarKind(v: Value): Kind
  {
    match v
    case Null => NullN
    case Bool(b) => if b then BoolT else BoolF
    case Int(_) => NumberTok
    case Number(_) => NumberTok
    case Str(_) => StringTok
    case _ => ConstructorTok
  }

  /** The tokens of a value in a writer's text: a scalar's one token, or a container's
      brackets around its items, each item followed by a comma when another comes after it
      or when the layout puts one after every item (`trailing`, the indented layout). */
  function ValueToks(v: Value, trailing: bool, show: string -> string): (r: seq<Token>)
    ensures |r| > 0
    decreases v, 1
  {
    match v
    case Array(a) =>
      [Token(BracketOpen, "[")] + ItemsToks(ElemParts(a, trailing, show), trailing, 0) + [Token(BracketClose, "]")]
    case Object(m) =>
      [Token(BraceOpen, "{")] + ItemsToks(MemberParts(m, trailing, show), trailing, 0) + [Token(BraceClose, "}")]
    case _ => [Token(ScalarKind(v), ScalarText(v, PyFormats(show)))]
  }

  function ElemParts(a: seq<Value>, trailing: bool, show: string -> string): (r: seq<seq<Token>>)
    ensures |r| == |a|
    ensures forall i :: 0 <= i < |a| ==> r[i] == ValueToks(a[i], trailing, show)
    decreases Array(a), 0
  {
    seq(|a|, i requires 0 <= i < |a| => ValueToks(a[i], trailing, show))
  }

  /** The members in ascending key order: the key token, `:`, and the value's tokens. */
  function MemberParts(m: map<string, Value>, trailing: bool, show: string -> string): (r: seq<seq<Token>>)
    ensures |r| == |m.Keys|
    ensures forall i :: 0 <= i < |r| ==> (SortedKeys(m.Keys)[i] in m &&
      r[i] == [KeyToken(SortedKeys(m.Keys)[i]), Token(Colon, ":")] + ValueToks(m[SortedKeys(m.Keys)[i]], trailing, show))
    decreases Object(m), 0
  {
    var keys := SortedKeys(m.Keys);
    seq(|keys|, i requires 0 <= i < |keys| => [KeyToken(keys[i]), Token(Colon, ":")] + ValueToks(m[keys[i]], trailing, show))
  }

  /** The items from `i` on, each followed by its comma. */
  function ItemsToks(parts: seq<seq<Token>>, trailing: bool, i: nat): seq<Token>
    decreases |parts| - i
  {
    if i >= |parts| then [] else parts[i] + CommaToks(trailing || i + 1 < |parts|) + ItemsToks(parts, trailing, i + 1)
  }

  // ---------------------------------------------------------------- lexing the writer's text

  /** A value's text starts with a character that opens an item. */
  lemma RenderOpens(v: Value, style: Style, level: nat, show: string -> string, cal: Calendar, fixed: bool)
    requires PyEncodable(v, show, cal, fixed)
    ensures var r := Render(v, style, level, PyFormats(show)); |r| > 0 && Opens(r[0])
  {
    match v
    case Array(a) =>
      RenderContainer(v, style, level, PyFormats(show));
      ContainerHead('[', ']', ItemTexts(a, style, level + 1, PyFormats(show)), style.layout, level);
    case Object(m) =>
      RenderContainer(v, style, level, PyFormats(show));
      ContainerHead('{', '}', FieldTexts(m, style, level + 1, PyFormats(show)), style.layout, level);
    case Number(t) => PyNumberChars(t);
    case Int(i) => PyDecimal(i); PyNumberChars(DecimalString(i));
    case _ =>
  }

  /** In a spaced style a gap starts with a comma exactly when the layout writes one there. */
  lemma GapComma(style: Style, level: nat, i: nat, n: nat)
    requires Spaced(style) && i < n
    ensures var g := Gap(style.layout, level, i, n);
      (|g| > 0 && g[0] == ',') <==> (style.layout.Indented? || i + 1 < n)
  {
  }

  /** The gap after an item, up to a character that is not blank, gives its comma token. */
  lemma GapLex(s: string, n: nat, t: nat, g: string, comma: bool, fixed: bool)
    requires IsAt(s, n, g) && CommaGap(g) && t == n + |g| && t < |s| && !IsBlank(s[t])
    requires comma <==> (|g| > 0 && g[0] == ',')
    ensures Lexes(s, n, t, CommaToks(comma), fixed)
  {
    if comma {
      IsAtChar(s, n, g, 0);
      KindLex(s, n, n + 1, ',', Comma, fixed);
      IsAtConcat(s, n, g[..1], g[1..]);
      assert g[..1] + g[1..] == g;
      BlankLex(s, n + 1, t, g[1..], fixed);
      LexesChain(s, n, n + 1, t, [Token(Comma, ",")], [], fixed);
      assert [Token(Comma, ",")] + [] == CommaToks(comma);
    } else {
      BlankLex(s, n, t, g, fixed);
    }
  }

  /** An item followed by its gap, and the gap by the closing bracket when it is empty, is
      followed by a delimiter. */
  lemma ItemPlaced(s: string, q: nat, n: nat, x: string, g: string, t: nat, close: char)
    requires IsAt(s, q, x) && n == q + |x| && IsAt(s, n, g) && CommaGap(g) && t == n + |g| && t < |s|
    requires (close == ']' || close == '}') && (g == [] ==> s[t] == close)
    ensures Placed(s, q, x)
  {
    if g != [] { IsAtChar(s, n, g, 0); }
  }

  /** What follows an item's gap: the next item, which opens a value, or the closer. */
  lemma NextOpens(s: string, t: nat, items: seq<string>, i: nat, g: string, close: char)
    requires i < |items| && AllOpen(items) && (close == ']' || close == '}')
    requires t < |s| && s[t] == (if i + 1 < |items| then items[i + 1][0] else close)
    requires i + 1 < |items| ==> g != []
    ensures !IsBlank(s[t]) && (g == [] ==> s[t] == close)
  {
  }

  /** Any encodable value written at `p` and followed by a delimiter or the end of the text
      is read by the lexer as the value's tokens. */
  lemma {:induction false} ValueLex(s: string, p: nat, e: nat, v: Value, style: Style, level: nat, show: string -> string, cal: Calendar, fixed: bool)
    requires PyEncodable(v, show, cal, fixed) && Spaced(style)
    requires Placed(s, p, Render(v, style, level, PyFormats(show)))
    requires e == p + |Render(v, style, level, PyFormats(show))|
    ensures Lexes(s, p, e, ValueToks(v, style.layout.Indented?, show), fixed)
    decreases v, 2
  {
    match v
    case Array(a) => ArrayLex(s, p, e, a, style, level, show, cal, fixed);
    case Object(m) => ObjectLex(s, p, e, m, style, level, show, cal, fixed);
    case _ => ScalarLex(s, p, e, v, style, level, show, cal, fixed);
  }

  lemma ScalarLex(s: string, p: nat, e: nat, v: Value, style: Style, level: nat, show: string -> string, cal: Calendar, fixed: bool)
    requires PyEncodable(v, show, cal, fixed) && !v.Array? && !v.Object?
    requires Placed(s, p, Render(v, style, level, PyFormats(show)))
    requires e == p + |Render(v, style, level, PyFormats(show))|
    ensures Lexes(s, p, e, ValueToks(v, style.layout.Indented?, show), fixed)
  {
    var r := Render(v, style, level, PyFormats(show));
    assert r == ScalarText(v, PyFormats(show));
    assert ValueToks(v, style.layout.Indented?, show) == [Token(ScalarKind(v), r)];
    ScalarTextLex(s, p, e, v, r, show, cal, fixed);
  }

  /** The lexer at a scalar's text `r`. */
  lemma ScalarTextLex(s: string, p: nat, e: nat, v: Value, r: string, show: string -> string, cal: Calendar, fixed: bool)
    requires PyEncodable(v, show, cal, fixed) && !v.Array? && !v.Object?
    requires r == ScalarText(v, PyFormats(show)) && Placed(s, p, r) && e == p + |r|
    ensures Lexes(s, p, e, [Token(ScalarKind(v), r)], fixed)
  {
    match v
    case Null =>
      assert r == "N";
      LiteralLex(s, p, e, r, fixed);
      assert Lexes(s, p, e, [Token(NullN, r)], fixed);
    case Bool(b) =>
      assert r == if b then "T" else "F";
      LiteralLex(s, p, e, r, fixed);
      assert Lexes(s, p, e, [Token(if b then BoolT else BoolF, r)], fixed);
    case Int(i) =>
      assert r == DecimalString(i);
      PyDecimal(i);
      NumberLex(s, p, e, r, fixed);
      assert Lexes(s, p, e, [Token(NumberTok, r)], fixed);
    case Number(t) =>
      assert r == t;
      NumberLex(s, p, e, r, fixed);
      assert Lexes(s, p, e, [Token(NumberTok, r)], fixed);
    case Str(t) =>
      assert r == "`" + t + "`";
      StringLex(s, p, e, t, fixed);
      assert Lexes(s, p, e, [Token(StringTok, r)], fixed);
    case Date(t) =>
      assert r == "D(" + Printed(t) + ")";
      PrintedPayload(t);
      ConstructorLex(s, p, e, "D(", Printed(t), fixed);
      assert Lexes(s, p, e, [Token(ConstructorTok, r)], fixed);
    case Bytes(bs) =>
      assert r == "B(" + HexUpper(bs) + ")";
      BytesLex(s, p, e, bs, fixed);
      assert Lexes(s, p, e, [Token(ConstructorTok, r)], fixed);
  }

  lemma BytesLex(s: string, p: nat, e: nat, bs: seq<byte>, fixed: bool)
    requires IsAt(s, p, "B(" + HexUpper(bs) + ")") && e == p + |"B(" + HexUpper(bs) + ")"|
    ensures Lexes(s, p, e, [Token(ConstructorTok, "B(" + HexUpper(bs) + ")")], fixed)
  {
    HexUpperChars(bs);
    assert PayloadText(HexUpper(bs));
    ConstructorLex(s, p, e, "B(", HexUpper(bs), fixed);
  }

  /** The lexer at the writer's text of an array. */
  lemma {:induction false} ArrayLex(s: string, p: nat, e: nat, a: seq<Value>, style: Style, level: nat, show: string -> string, cal: Calendar, fixed: bool)
    requires PyEncodable(Array(a), show, cal, fixed) && Spaced(style)
    requires IsAt(s, p, Render(Array(a), style, level, PyFormats(show)))
    requires e == p + |Render(Array(a), style, level, PyFormats(show))|
    ensures Lexes(s, p, e, ValueToks(Array(a), style.layout.Indented?, show), fixed)
    decreases Array(a), 1
  {
    var tr := style.layout.Indented?;
    var items := ItemTexts(a, style, level + 1, PyFormats(show));
    var x := ItemsToks(ElemParts(a, tr, show), tr, 0);
    RenderContainer(Array(a), style, level, PyFormats(show));
    ItemsOpen(a, style, level + 1, show, cal, fixed);
    var q, c := ContainerLex(s, p, e, '[', ']', BracketOpen, BracketClose, items, style, level, fixed);
    ElemsLex(s, q, c, a, 0, style, level, show, cal, fixed);
    LexesChain(s, p, q, c, [Token(BracketOpen, "[")], x, fixed);
    LexesChain(s, p, c, e, [Token(BracketOpen, "[")] + x, [Token(BracketClose, "]")], fixed);
  }

  /** A container's text at `p`: the opening bracket's token, the pieces from `q` to `c`,
      and the closing bracket's token, which ends at `e`. */
  lemma ContainerLex(s: string, p: nat, e: nat, open: char, close: char, ko: Kind, kc: Kind, items: seq<string>, style: Style, level: nat, fixed: bool)
    returns (q: nat, c: nat)
    requires AllOpen(items) && Spaced(style) && (close == ']' || close == '}')
    requires PunctKind(open) == Some(ko) && PunctKind(close) == Some(kc)
    requires IsAt(s, p, Container([open], [close], items, style.layout, level))
    requires e == p + |Container([open], [close], items, style.layout, level)|
    ensures Lexes(s, p, q, [Token(ko, [open])], fixed)
    ensures IsAt(s, q, Concat(Pieces(items, style.layout, level)[0..]) + [close])
    ensures c == q + |Concat(Pieces(items, style.layout, level)[0..])|
    ensures Lexes(s, c, e, [Token(kc, [close])], fixed)
  {
    if items == [] {
      q, c := EmptyLex(s, p, e, open, close, ko, kc, items, style.layout, level, fixed);
    } else {
      q, c := ItemsLead(s, p, e, open, close, ko, kc, items, style, level, fixed);
    }
  }

  lemma EmptyLex(s: string, p: nat, e: nat, open: char, close: char, ko: Kind, kc: Kind, items: seq<string>, layout: Layout, level: nat, fixed: bool)
    returns (q: nat, c: nat)
    requires items == [] && PunctKind(open) == Some(ko) && PunctKind(close) == Some(kc)
    requires IsAt(s, p, Container([open], [close], items, layout, level))
    requires e == p + |Container([open], [close], items, layout, level)|
    ensures Lexes(s, p, q, [Token(ko, [open])], fixed)
    ensures IsAt(s, q, Concat(Pieces(items, layout, level)[0..]) + [close])
    ensures c == q + |Concat(Pieces(items, layout, level)[0..])|
    ensures Lexes(s, c, e, [Token(kc, [close])], fixed)
  {
    q, c := p + 1, p + 1;
    assert Container([open], [close], items, layout, level) == [open] + [close];
    assert Pieces(items, layout, level)[0..] == [];
    IsAtConcat(s, p, [open], [close]);
    IsAtChar(s, p, [open], 0);
    IsAtChar(s, p + 1, [close], 0);
    assert "" + [close] == [close];
    KindLex(s, p, p + 1, open, ko, fixed);
    KindLex(s, c, c + 1, close, kc, fixed);
  }

  /** After the opening bracket, the lead blanks add no token; the items are written from
      `q` to `c`, where the closing bracket is. */
  lemma ItemsLead(s: string, p: nat, e: nat, open: char, close: char, ko: Kind, kc: Kind, items: seq<string>, style: Style, level: nat, fixed: bool)
    returns (q: nat, c: nat)
    requires items != [] && AllOpen(items) && Spaced(style) && (close == ']' || close == '}')
    requires PunctKind(open) == Some(ko) && PunctKind(close) == Some(kc)
    requires IsAt(s, p, Container([open], [close], items, style.layout, level))
    requires e == p + |Container([open], [close], items, style.layout, level)|
    ensures Lexes(s, p, q, [Token(ko, [open])], fixed)
    ensures IsAt(s, q, Concat(Pieces(items, style.layout, level)[0..]) + [close])
    ensures c == q + |Concat(Pieces(items, style.layout, level)[0..])|
    ensures Lexes(s, c, e, [Token(kc, [close])], fixed)
  {
    q, c := LeadBlanks(s, p, e, open, close, items, style, level, fixed);
    KindLex(s, p, p + 1, open, ko, fixed);
    LexesThenNothing(s, p, p + 1, q, [Token(ko, [open])], fixed);
    KindLex(s, c, e, close, kc, fixed);
  }

  lemma LexesThenNothing(s: string, p: nat, m: nat, q: nat, a: seq<Token>, fixed: bool)
    requires Lexes(s, p, m, a, fixed) && Lexes(s, m, q, [], fixed)
    ensures Lexes(s, p, q, a, fixed)
  {
    LexesChain(s, p, m, q, a, [], fixed);
    assert a + [] == a;
  }

  /** The lead blanks after the opening bracket add no token. */
  lemma LeadBlanks(s: string, p: nat, e: nat, open: char, close: char, items: seq<string>, style: Style, level: nat, fixed: bool)
    returns (q: nat, c: nat)
    requires items != [] && AllOpen(items) && Spaced(style)
    requires IsAt(s, p, Container([open], [close], items, style.layout, level))
    requires e == p + |Container([open], [close], items, style.layout, level)|
    ensures p < |s| && s[p] == open && Lexes(s, p + 1, q, [], fixed)
    ensures IsAt(s, q, Concat(Pieces(items, style.layout, level)[0..]) + [close])
    ensures c == q + |Concat(Pieces(items, style.layout, level)[0..])| && c + 1 == e
    ensures c < |s| && s[c] == close
  {
    var lead := Lead(style.layout, level);
    var pieces := Concat(Pieces(items, style.layout, level)[0..]);
    var b;
    b, q := ContainerSplit(s, p, e, open, close, items, style.layout, level);
    c := q + |pieces|;
    LeadLex(s, b, q, items, style, level, close, fixed);
    CloseAt(s, q, c, pieces, close);
  }

  /** The closing bracket after the pieces. */
  lemma CloseAt(s: string, q: nat, c: nat, pieces: string, close: char)
    requires IsAt(s, q, pieces + [close]) && c == q + |pieces|
    ensures c < |s| && s[c] == close
  {
    IsAtConcat(s, q, pieces, [close]);
    IsAtChar(s, c, [close], 0);
  }

  /** The lead of a spaced container is blanks followed by the first piece. */
  lemma LeadLex(s: string, b: nat, q: nat, items: seq<string>, style: Style, level: nat, close: char, fixed: bool)
    requires items != [] && AllOpen(items) && Spaced(style)
    requires IsAt(s, b, Lead(style.layout, level)) && q == b + |Lead(style.layout, level)|
    requires IsAt(s, q, Concat(Pieces(items, style.layout, level)[0..]) + [close])
    ensures Lexes(s, b, q, [], fixed)
  {
    GapShape(style, level, 0, |items|);
    PieceHead(s, q, items, 0, style.layout, level, close);
    BlankLex(s, b, q, Lead(style.layout, level), fixed);
  }


  lemma ItemsOpen(a: seq<Value>, style: Style, level: nat, show: string -> string, cal: Calendar, fixed: bool)
    requires PyEncodable(Array(a), show, cal, fixed)
    ensures AllOpen(ItemTexts(a, style, level, PyFormats(show)))
  {
    forall j | 0 <= j < |a| ensures |Render(a[j], style, level, PyFormats(show))| > 0 && Opens(Render(a[j], style, level, PyFormats(show))[0]) {
      RenderOpens(a[j], style, level, show, cal, fixed);
    }
  }

  /** The lexer over the pieces of an array from item `i` on. */
  lemma {:induction false} ElemsLex(s: string, q: nat, c: nat, a: seq<Value>, i: nat, style: Style, level: nat, show: string -> string, cal: Calendar, fixed: bool)
    requires PyEncodable(Array(a), show, cal, fixed) && Spaced(style) && i <= |a|
    requires IsAt(s, q, Concat(Pieces(ItemTexts(a, style, level + 1, PyFormats(show)), style.layout, level)[i..]) + "]")
    requires c == q + |Concat(Pieces(ItemTexts(a, style, level + 1, PyFormats(show)), style.layout, level)[i..])|
    ensures Lexes(s, q, c, ItemsToks(ElemParts(a, style.layout.Indented?, show), style.layout.Indented?, i), fixed)
    decreases Array(a), 0, |a| - i
  {
    var items := ItemTexts(a, style, level + 1, PyFormats(show));
    var tr := style.layout.Indented?;
    var parts := ElemParts(a, tr, show);
    if i == |a| {
      PieceHead(s, q, items, i, style.layout, level, ']');
      LexesNone(s, q, fixed);
    } else {
      ItemsOpen(a, style, level + 1, show, cal, fixed);
      var n, t := PieceLayout(s, q, items, i, style, level, ']');
      ValueLex(s, q, n, a[i], style, level + 1, show, cal, fixed);
      GapComma(style, level, i, |a|);
      GapLex(s, n, t, Gap(style.layout, level, i, |a|), tr || i + 1 < |a|, fixed);
      ElemsLex(s, t, c, a, i + 1, style, level, show, cal, fixed);
      LexesChain(s, q, n, t, parts[i], CommaToks(tr || i + 1 < |a|), fixed);
      LexesChain(s, q, t, c, parts[i] + CommaToks(tr || i + 1 < |a|), ItemsToks(parts, tr, i + 1), fixed);
    }
  }

  /** Item `i` of a container's pieces written at `q`: it is placed, ends at `n`, its gap
      ends at `t` before a character that is not blank, and the pieces after it follow. */
  lemma PieceLayout(s: string, q: nat, items: seq<string>, i: nat, style: Style, level: nat, close: char)
    returns (n: nat, t: nat)
    requires Spaced(style) && i < |items| && AllOpen(items) && (close == ']' || close == '}')
    requires IsAt(s, q, Concat(Pieces(items, style.layout, level)[i..]) + [close])
    ensures Placed(s, q, items[i]) && n == q + |items[i]|
    ensures IsAt(s, n, Gap(style.layout, level, i, |items|)) && CommaGap(Gap(style.layout, level, i, |items|))
    ensures t == n + |Gap(style.layout, level, i, |items|)| && t < |s| && !IsBlank(s[t])
    ensures IsAt(s, t, Concat(Pieces(items, style.layout, level)[i + 1..]) + [close])
    ensures |Concat(Pieces(items, style.layout, level)[i..])| == t - q + |Concat(Pieces(items, style.layout, level)[i + 1..])|
  {
    var g := Gap(style.layout, level, i, |items|);
    n, t := PieceSplit(s, q, items, i, style.layout, level, close);
    GapShape(style, level, i, |items|);
    PieceHead(s, t, items, i + 1, style.layout, level, close);
    NextOpens(s, t, items, i, g, close);
    ItemPlaced(s, q, n, items[i], g, t, close);
  }

  /** The lexer at the writer's text of an object. */
  lemma {:induction false} ObjectLex(s: string, p: nat, e: nat, m: map<string, Value>, style: Style, level: nat, show: string -> string, cal: Calendar, fixed: bool)
    requires PyEncodable(Object(m), show, cal, fixed) && Spaced(style)
    requires IsAt(s, p, Render(Object(m), style, level, PyFormats(show)))
    requires e == p + |Render(Object(m), style, level, PyFormats(show))|
    ensures Lexes(s, p, e, ValueToks(Object(m), style.layout.Indented?, show), fixed)
    decreases Object(m), 1
  {
    var tr := style.layout.Indented?;
    var fields := FieldTexts(m, style, level + 1, PyFormats(show));
    var x := ItemsToks(MemberParts(m, tr, show), tr, 0);
    RenderContainer(Object(m), style, level, PyFormats(show));
    FieldsOpen(m, style, level, show, cal, fixed);
    var q, c := ContainerLex(s, p, e, '{', '}', BraceOpen, BraceClose, fields, style, level, fixed);
    MembersLex(s, q, c, m, 0, style, level, show, cal, fixed);
    LexesChain(s, p, q, c, [Token(BraceOpen, "{")], x, fixed);
    LexesChain(s, p, c, e, [Token(BraceOpen, "{")] + x, [Token(BraceClose, "}")], fixed);
  }

  lemma FieldsOpen(m: map<string, Value>, style: Style, level: nat, show: string -> string, cal: Calendar, fixed: bool)
    requires PyEncodable(Object(m), show, cal, fixed)
    ensures AllOpen(FieldTexts(m, style, level + 1, PyFormats(show)))
  {
    var fields := FieldTexts(m, style, level + 1, PyFormats(show));
    assert KeysFit(m);
    forall j | 0 <= j < |fields| ensures |fields[j]| > 0 && Opens(fields[j][0]) {
      FieldOpens(m, j, style, level, show);
    }
  }

  /** Every key of `m` is a non-empty run of identifier characters. */
  predicate KeysFit(m: map<string, Value>)
  {
    forall k :: k in m ==> |k| > 0 && AllIdent(k)
  }

  /** A member text starts with its key, which opens an item. */
  lemma FieldOpens(m: map<string, Value>, j: nat, style: Style, level: nat, show: string -> string)
    requires KeysFit(m) && j < |m.Keys|
    ensures var f := FieldTexts(m, style, level + 1, PyFormats(show))[j]; |f| > 0 && Opens(f[0])
  {
    var key := SortedKeys(m.Keys)[j];
    assert key in m;
    assert IsIdentChar(key[0]);
    var r := Render(m[key], style, level + 1, PyFormats(show));
    assert FieldTexts(m, style, level + 1, PyFormats(show))[j] == key + style.colon + r;
    HeadOf(key + style.colon, r);
    HeadOf(key, style.colon);
  }

  lemma HeadOf(a: string, b: string)
    requires |a| > 0
    ensures (a + b)[0] == a[0]
  {
  }

  /** The lexer over the pieces of an object from member `i` on. */
  lemma {:induction false} MembersLex(s: string, q: nat, c: nat, m: map<string, Value>, i: nat, style: Style, level: nat, show: string -> string, cal: Calendar, fixed: bool)
    requires PyEncodable(Object(m), show, cal, fixed) && Spaced(style) && i <= |m.Keys|
    requires IsAt(s, q, Concat(Pieces(FieldTexts(m, style, level + 1, PyFormats(show)), style.layout, level)[i..]) + "}")
    requires c == q + |Concat(Pieces(FieldTexts(m, style, level + 1, PyFormats(show)), style.layout, level)[i..])|
    ensures Lexes(s, q, c, ItemsToks(MemberParts(m, style.layout.Indented?, show), style.layout.Indented?, i), fixed)
    decreases Object(m), 0, |m.Keys| - i
  {
    var fields := FieldTexts(m, style, level + 1, PyFormats(show));
    var tr := style.layout.Indented?;
    var parts := MemberParts(m, tr, show);
    if i == |m.Keys| {
      PieceHead(s, q, fields, i, style.layout, level, '}');
      LexesNone(s, q, fixed);
    } else {
      var t := MemberItemLex(s, q, m, i, style, level, show, cal, fixed);
      MembersLex(s, t, c, m, i + 1, style, level, show, cal, fixed);
      assert ItemsToks(parts, tr, i) == parts[i] + CommaToks(tr || i + 1 < |m.Keys|) + ItemsToks(parts, tr, i + 1);
      LexesChain(s, q, t, c, parts[i] + CommaToks(tr || i + 1 < |m.Keys|), ItemsToks(parts, tr, i + 1), fixed);
    }
  }

  /** Member `i` and the comma after it (when the layout writes one) written at `q` are
      lexed as the member's tokens and the comma, up to `t` where the next piece starts. */
  lemma {:induction false} MemberItemLex(s: string, q: nat, m: map<string, Value>, i: nat, style: Style, level: nat, show: string -> string, cal: Calendar, fixed: bool)
    returns (t: nat)
    requires PyEncodable(Object(m), show, cal, fixed) && Spaced(style) && i < |m.Keys|
    requires IsAt(s, q, Concat(Pieces(FieldTexts(m, style, level + 1, PyFormats(show)), style.layout, level)[i..]) + "}")
    ensures Lexes(s, q, t, MemberParts(m, style.layout.Indented?, show)[i] + CommaToks(style.layout.Indented? || i + 1 < |m.Keys|), fixed)
    ensures IsAt(s, t, Concat(Pieces(FieldTexts(m, style, level + 1, PyFormats(show)), style.layout, level)[i + 1..]) + "}")
    ensures q + |Concat(Pieces(FieldTexts(m, style, level + 1, PyFormats(show)), style.layout, level)[i..])| ==
      t + |Concat(Pieces(FieldTexts(m, style, level + 1, PyFormats(show)), style.layout, level)[i + 1..])|
    decreases Object(m), 0, |m.Keys| - i, 0
  {
    var fields := FieldTexts(m, style, level + 1, PyFormats(show));
    var tr := style.layout.Indented?;
    var parts := MemberParts(m, tr, show);
    var key := SortedKeys(m.Keys)[i];
    assert key in m;
    assert PyKey(key, fixed) && PyEncodable(m[key], show, cal, fixed);
    assert fields[i] == key + style.colon + Render(m[key], style, level + 1, PyFormats(show));
    assert parts[i] == [KeyToken(key), Token(Colon, ":")] + ValueToks(m[key], tr, show);
    FieldsOpen(m, style, level, show, cal, fixed);
    var n;
    n, t := PieceLayout(s, q, fields, i, style, level, '}');
    MemberLex(s, q, n, key, m[key], style, level + 1, show, cal, fixed);
    GapComma(style, level, i, |m.Keys|);
    GapLex(s, n, t, Gap(style.layout, level, i, |m.Keys|), tr || i + 1 < |m.Keys|, fixed);
    LexesChain(s, q, n, t, parts[i], CommaToks(tr || i + 1 < |m.Keys|), fixed);
  }

  /** One member: the key token, `:` (the blanks after it add no token), and the value's
      tokens. */
  lemma {:induction false} MemberLex(s: string, q: nat, n: nat, key: string, v: Value, style: Style, level: nat, show: string -> string, cal: Calendar, fixed: bool)
    requires PyKey(key, fixed) && PyEncodable(v, show, cal, fixed) && Spaced(style)
    requires Placed(s, q, key + style.colon + Render(v, style, level, PyFormats(show)))
    requires n == q + |key + style.colon + Render(v, style, level, PyFormats(show))|
    ensures Lexes(s, q, n, [KeyToken(key), Token(Colon, ":")] + ValueToks(v, style.layout.Indented?, show), fixed)
    decreases v, 3
  {
    var r := Render(v, style, level, PyFormats(show));
    var c := q + |key + style.colon|;
    PlacedTail(s, q, c, n, key + style.colon, r);
    RenderOpens(v, style, level, show, cal, fixed);
    IsAtChar(s, c, r, 0);
    KeyColonLex(s, q, c, key, style.colon, fixed);
    ValueLex(s, c, n, v, style, level, show, cal, fixed);
    LexesChain(s, q, c, n, [KeyToken(key), Token(Colon, ":")], ValueToks(v, style.layout.Indented?, show), fixed);
  }

  /** A key, then the colon text up to a character that is not blank: the key token and
      the colon token. */
  lemma KeyColonLex(s: string, q: nat, c: nat, key: string, colon: string, fixed: bool)
    requires PyKey(key, fixed) && |colon| > 0 && colon[0] == ':' && AllBlank(colon[1..])
    requires IsAt(s, q, key + colon) && c == q + |key + colon| && c < |s| && !IsBlank(s[c])
    ensures Lexes(s, q, c, [KeyToken(key), Token(Colon, ":")], fixed)
  {
    var k := q + |key|;
    IsAtConcat(s, q, key, colon);
    IsAtChar(s, k, colon, 0);
    KeyLex(s, q, k, key, fixed);
    ColonLex(s, k, c, colon, fixed);
    KeyColonChain(s, q, k, c, key, fixed);
  }

  lemma KeyColonChain(s: string, q: nat, k: nat, c: nat, key: string, fixed: bool)
    requires Lexes(s, q, k, [KeyToken(key)], fixed) && Lexes(s, k, c, [Token(Colon, ":")], fixed)
    ensures Lexes(s, q, c, [KeyToken(key), Token(Colon, ":")], fixed)
  {
    LexesChain(s, q, k, c, [KeyToken(key)], [Token(Colon, ":")], fixed);
    assert [KeyToken(key)] + [Token(Colon, ":")] == [KeyToken(key), Token(Colon, ":")];
  }

  /** The colon text up to a character that is not blank is the colon token. */
  lemma ColonLex(s: string, k: nat, c: nat, colon: string, fixed: bool)
    requires |colon| > 0 && colon[0] == ':' && AllBlank(colon[1..])
    requires IsAt(s, k, colon) && c == k + |colon| && c < |s| && !IsBlank(s[c])
    ensures Lexes(s, k, c, [Token(Colon, ":")], fixed)
  {
    IsAtChar(s, k, colon, 0);
    KindLex(s, k, k + 1, ':', Colon, fixed);
    IsAtConcat(s, k, colon[..1], colon[1..]);
    assert colon[..1] + colon[1..] == colon;
    BlankLex(s, k + 1, c, colon[1..], fixed);
    LexesChain(s, k, k + 1, c, [Token(Colon, ":")], [], fixed);
    assert [Token(Colon, ":")] + [] == [Token(Colon, ":")];
  }



  // ---------------------------------------------------------------- parsing the writer's tokens

  /** The tokens `x` stand at index `i` of `toks`. */
  predicate TokensAt(toks: seq<Token>, i: nat, x: seq<Token>)
  {
    i + |x| <= |toks| && toks[i..i + |x|] == x
  }

  lemma TokensAtSplit(toks: seq<Token>, i: nat, x: seq<Token>, y: seq<Token>)
    requires TokensAt(toks, i, x + y)
    ensures TokensAt(toks, i, x) && TokensAt(toks, i + |x|, y)
  {
    var w := toks[i..i + |x| + |y|];
    assert toks[i..i + |x|] == w[..|x|] && w[..|x|] == x;
    assert toks[i + |x|..i + |x| + |y|] == w[|x|..] && w[|x|..] == y;
  }

  lemma TokensAtHead(toks: seq<Token>, i: nat, x: seq<Token>)
    requires TokensAt(toks, i, x) && |x| > 0
    ensures i < |toks| && toks[i] == x[0]
  {
    assert toks[i..i + |x|][0] == toks[i];
  }

  /** A value's tokens start with an opening bracket or a scalar's token, never with a
      closing bracket. */
  lemma ValueToksHead(v: Value, tr: bool, show: string -> string)
    ensures var k := ValueToks(v, tr, show)[0].kind; k != BracketClose && k != BraceClose && k != EOF
  {
  }

  // Scalars: the text of each token, read back.

  lemma StrRead(t: string)
    ensures Inner("`" + t + "`") == t
  {
    assert ("`" + t + "`")[1..|t| + 1] == t;
  }

  lemma IntRead(n: int)
    ensures NumberValue(DecimalString(n)) == Ok(Int(n))
  {
    DecimalStringFree(n, '.');
    DecimalStringFree(n, 'e');
    DecimalStringFree(n, 'E');
    DecimalRoundTrip(n, false);
  }

  /** `D(..)` of a written instant reads back as the instant: `load` undoes the writer's
      `+00:00` to `Z` rewrite with its own `Z` to `+00:00` one. */
  lemma DateRead(t: string, cal: Calendar)
    requires DateEncodable(t, cal)
    ensures ConstructorValue("D(" + Printed(t) + ")", cal) == Ok(Date(t))
  {
    var w := Printed(t);
    PrintedPayload(t);
    PrintedRead(t);
    assert Free(w, '\n') by {
      forall i | 0 <= i < |w| ensures w[i] != '\n' { assert !PyPayloadStop(w[i]); }
    }
    assert AllIdent("D");
    ConstructorRegex("D", w, cal);
    OpenerText("D(", "D", w);
    assert DateValue(w, cal) == Date(t);
  }

  /** The writer's rewrite keeps a payload a payload. */
  lemma PrintedPayload(t: string)
    requires PayloadText(t)
    ensures PayloadText(Printed(t))
  {
    var w := Printed(t);
    forall i | 0 <= i < |w| ensures !PyPayloadStop(w[i]) {
      ReplaceFrom(t, "+00:00", "Z", w[i]);
    }
  }

  /** The reader's `Z` to `+00:00` rewrite undoes the writer's `+00:00` to `Z` one on text
      without a `Z`, and neither touches the `T` that decides between date-time and date. */
  lemma PrintedRead(t: string)
    requires Free(t, 'Z')
    ensures ReplaceAll(Printed(t), "Z", "+00:00") == t
    ensures Free(Printed(t), 'T') <==> Free(t, 'T')
    ensures Free(t, '+') ==> Printed(t) == t
  {
    if Free(t, '+') {
      forall i | 0 <= i < |t| ensures !IsAt(t, i, "+00:00") {
        if IsAt(t, i, "+00:00") { IsAtChar(t, i, "+00:00", 0); }
      }
      ReplaceAbsent(t, "+00:00", "Z");
    }
    ReplaceBack(t);
    ReplaceKeeps(t, "+00:00", "Z", 'T');
    FreeIn(t, 'T');
    FreeIn(Printed(t), 'T');
  }

  lemma FreeIn(s: string, c: char)
    ensures Free(s, c) <==> c !in s
  {
  }

  lemma {:induction false} ReplaceBack(s: string)
    requires Free(s, 'Z')
    ensures ReplaceAll(ReplaceAll(s, "+00:00", "Z"), "Z", "+00:00") == s
    decreases |s|
  {
    var u := ReplaceAll(s, "+00:00", "Z");
    if |s| < 6 {
      assert u == s;
      forall i | 0 <= i < |s| ensures !IsAt(s, i, "Z") {
        if IsAt(s, i, "Z") { IsAtChar(s, i, "Z", 0); }
      }
      ReplaceAbsent(s, "Z", "+00:00");
    } else if s[..6] == "+00:00" {
      var rest := ReplaceAll(s[6..], "+00:00", "Z");
      assert u == "Z" + rest;
      assert u[..1] == "Z" && u[1..] == rest;
      ReplaceBack(s[6..]);
      assert s == "+00:00" + s[6..];
    } else {
      var rest := ReplaceAll(s[1..], "+00:00", "Z");
      assert u == [s[0]] + rest;
      assert u[..1] == [s[0]] && u[1..] == rest;
      assert [s[0]] != "Z";
      ReplaceBack(s[1..]);
      assert s == [s[0]] + s[1..];
    }
  }

  /** A constructor's text, its opener spelt out as the name and `(`. */
  lemma OpenerText(open: string, name: string, payload: string)
    requires open == name + "("
    ensures open + payload + ")" == name + "(" + payload + ")"
  {
  }

  lemma BytesRead(bs: seq<byte>, cal: Calendar)
    ensures ConstructorValue("B(" + HexUpper(bs) + ")", cal) == Ok(Bytes(bs))
  {
    var h := HexUpper(bs);
    HexUpperChars(bs);
    assert Free(h, '\n');
    assert AllIdent("B");
    ConstructorRegex("B", h, cal);
    OpenerText("B(", "B", h);
    HexRoundTrip(bs);
  }

  /** A scalar's token is read back as the scalar. */
  lemma ScalarParse(toks: seq<Token>, i: nat, v: Value, show: string -> string, cal: Calendar, fixed: bool)
    requires WellEnded(toks) && PyEncodable(v, show, cal, fixed) && !v.Array? && !v.Object?
    requires i + 1 < |toks| && toks[i] == Token(ScalarKind(v), ScalarText(v, PyFormats(show)))
    ensures ValueAt(toks, i, cal) == Done(v, i + 1)
  {
    var text := ScalarText(v, PyFormats(show));
    match v
    case Null => LiteralParse(toks, i, cal);
    case Bool(b) => LiteralParse(toks, i, cal);
    case Int(n) =>
      IntRead(n);
      NumberParse(toks, i, text, v, cal);
    case Number(t) =>
      assert NumberValue(t) == Ok(v);
      NumberParse(toks, i, text, v, cal);
    case Str(t) =>
      StrRead(t);
      StringParse(toks, i, text, cal);
    case Date(t) =>
      DateRead(t, cal);
      ConstructorParse(toks, i, text, v, cal);
    case Bytes(bs) =>
      BytesRead(bs, cal);
      ConstructorParse(toks, i, text, v, cal);
  }

  /** A literal token is read as its value. */
  lemma LiteralParse(toks: seq<Token>, i: nat, cal: Calendar)
    requires WellEnded(toks) && i < |toks| && (toks[i].kind == BoolT || toks[i].kind == BoolF || toks[i].kind == NullN)
    ensures ValueAt(toks, i, cal) ==
      Done(if toks[i].kind == NullN then Null else Bool(toks[i].kind == BoolT), i + 1)
  {
  }

  /** A number token is read as the value its text converts to. */
  lemma NumberParse(toks: seq<Token>, i: nat, text: string, v: Value, cal: Calendar)
    requires WellEnded(toks) && i < |toks| && toks[i] == Token(NumberTok, text) && NumberValue(text) == Ok(v)
    ensures ValueAt(toks, i, cal) == Done(v, i + 1)
  {
  }

  /** A string token is read as the text between its backticks. */
  lemma StringParse(toks: seq<Token>, i: nat, text: string, cal: Calendar)
    requires WellEnded(toks) && i < |toks| && toks[i] == Token(StringTok, text)
    ensures ValueAt(toks, i, cal) == Done(Str(Inner(text)), i + 1)
  {
  }

  /** A constructor token is read as the value its text converts to. */
  lemma ConstructorParse(toks: seq<Token>, i: nat, text: string, v: Value, cal: Calendar)
    requires WellEnded(toks) && i < |toks| && toks[i] == Token(ConstructorTok, text) && ConstructorValue(text, cal) == Ok(v)
    ensures ValueAt(toks, i, cal) == Done(v, i + 1)
  {
  }

  /** The parser at a value's tokens reads the value and stops right after them. */
  lemma {:induction false} ValueParse(toks: seq<Token>, i: nat, v: Value, tr: bool, show: string -> string, cal: Calendar, fixed: bool)
    requires WellEnded(toks) && PyEncodable(v, show, cal, fixed)
    requires TokensAt(toks, i, ValueToks(v, tr, show)) && i + |ValueToks(v, tr, show)| < |toks|
    ensures ValueAt(toks, i, cal) == Done(v, i + |ValueToks(v, tr, show)|)
    decreases v, 2
  {
    match v
    case Array(a) => ArrayValueParse(toks, i, a, tr, show, cal, fixed);
    case Object(m) => ObjectValueParse(toks, i, m, tr, show, cal, fixed);
    case _ => ScalarValueParse(toks, i, v, tr, show, cal, fixed);
  }

  lemma {:induction false} ArrayValueParse(toks: seq<Token>, i: nat, a: seq<Value>, tr: bool, show: string -> string, cal: Calendar, fixed: bool)
    requires WellEnded(toks) && PyEncodable(Array(a), show, cal, fixed)
    requires TokensAt(toks, i, ValueToks(Array(a), tr, show)) && i + |ValueToks(Array(a), tr, show)| < |toks|
    ensures ValueAt(toks, i, cal) == Done(Array(a), i + |ValueToks(Array(a), tr, show)|)
    decreases Array(a), 2, 0
  {
    var x := ItemsToks(ElemParts(a, tr, show), tr, 0);
    var j := i + |ValueToks(Array(a), tr, show)|;
    assert ValueToks(Array(a), tr, show) == [Token(BracketOpen, "[")] + x + [Token(BracketClose, "]")];
    ArrayParse(toks, i, j, a, x, tr, show, cal, fixed);
    ArrayValue(toks, i, a, j, cal);
  }

  lemma {:induction false} ObjectValueParse(toks: seq<Token>, i: nat, m: map<string, Value>, tr: bool, show: string -> string, cal: Calendar, fixed: bool)
    requires WellEnded(toks) && PyEncodable(Object(m), show, cal, fixed)
    requires TokensAt(toks, i, ValueToks(Object(m), tr, show)) && i + |ValueToks(Object(m), tr, show)| < |toks|
    ensures ValueAt(toks, i, cal) == Done(Object(m), i + |ValueToks(Object(m), tr, show)|)
    decreases Object(m), 2, 0
  {
    var x := ObjectToks(m, tr, show, cal, fixed);
    var j := i + |ValueToks(Object(m), tr, show)|;
    ObjectParse(toks, i, j, m, x, tr, show, cal, fixed);
    ObjectValue(toks, i, m, j, cal);
  }

  lemma ScalarValueParse(toks: seq<Token>, i: nat, v: Value, tr: bool, show: string -> string, cal: Calendar, fixed: bool)
    requires WellEnded(toks) && PyEncodable(v, show, cal, fixed) && !v.Array? && !v.Object?
    requires TokensAt(toks, i, ValueToks(v, tr, show)) && i + |ValueToks(v, tr, show)| < |toks|
    ensures ValueAt(toks, i, cal) == Done(v, i + |ValueToks(v, tr, show)|)
  {
    assert ValueToks(v, tr, show) == [Token(ScalarKind(v), ScalarText(v, PyFormats(show)))];
    TokensAtHead(toks, i, ValueToks(v, tr, show));
    ScalarParse(toks, i, v, show, cal, fixed);
  }

  lemma ArrayValue(toks: seq<Token>, i: nat, a: seq<Value>, j: nat, cal: Calendar)
    requires WellEnded(toks) && i < |toks| && toks[i].kind == BracketOpen && ArrayAt(toks, i, cal) == Done(a, j)
    ensures ValueAt(toks, i, cal) == Done(Array(a), j)
  {
  }

  lemma ObjectValue(toks: seq<Token>, i: nat, m: map<string, Value>, j: nat, cal: Calendar)
    requires WellEnded(toks) && i < |toks| && toks[i].kind == BraceOpen && ObjectAt(toks, i, cal) == Done(m, j)
    ensures ValueAt(toks, i, cal) == Done(Object(m), j)
  {
  }

  /** A container's tokens: the opening bracket at `i`, then the items and the closing
      bracket. */
  lemma ContainerToks(toks: seq<Token>, i: nat, open: Token, x: seq<Token>, close: Token)
    requires TokensAt(toks, i, [open] + x + [close])
    ensures i < |toks| && toks[i] == open && TokensAt(toks, i + 1, x + [close])
  {
    assert [open] + x + [close] == [open] + (x + [close]);
    TokensAtSplit(toks, i, [open], x + [close]);
    TokensAtHead(toks, i, [open]);
  }

  /** `parse_array` at an array's tokens. */
  lemma {:induction false} ArrayParse(toks: seq<Token>, i: nat, j: nat, a: seq<Value>, x: seq<Token>, tr: bool, show: string -> string, cal: Calendar, fixed: bool)
    requires WellEnded(toks) && PyEncodable(Array(a), show, cal, fixed) && x == ItemsToks(ElemParts(a, tr, show), tr, 0)
    requires TokensAt(toks, i, [Token(BracketOpen, "[")] + x + [Token(BracketClose, "]")]) && j == i + |x| + 2 && j < |toks|
    ensures i < |toks| && toks[i].kind == BracketOpen && ArrayAt(toks, i, cal) == Done(a, j)
    decreases Array(a), 1
  {
    ContainerToks(toks, i, Token(BracketOpen, "["), x, Token(BracketClose, "]"));
    assert a[..0] == [];
    ElemsParse(toks, i + 1, a, 0, tr, show, cal, fixed);
  }

  /** The element loop of `parse_array` at the tokens of the items from `k` on, with the
      first `k` elements read. */
  lemma {:induction false} ElemsParse(toks: seq<Token>, q: nat, a: seq<Value>, k: nat, tr: bool, show: string -> string, cal: Calendar, fixed: bool)
    requires WellEnded(toks) && PyEncodable(Array(a), show, cal, fixed) && k <= |a|
    requires TokensAt(toks, q, ItemsToks(ElemParts(a, tr, show), tr, k) + [Token(BracketClose, "]")])
    requires q + |ItemsToks(ElemParts(a, tr, show), tr, k)| + 1 < |toks|
    ensures ElemsAt(toks, q, a[..k], cal) == Done(a, q + |ItemsToks(ElemParts(a, tr, show), tr, k)| + 1)
    decreases Array(a), 0, |a| - k
  {
    if k == |a| {
      ItemsEnd(toks, q, ElemParts(a, tr, show), tr, Token(BracketClose, "]"));
      assert a[..k] == a;
    } else {
      var t := ElemParse(toks, q, a, k, tr, show, cal, fixed);
      ElemsParse(toks, t, a, k + 1, tr, show, cal, fixed);
    }
  }

  /** Item `k`: its value is read, then its comma, or the closing bracket is reached. */
  lemma {:induction false} ElemParse(toks: seq<Token>, q: nat, a: seq<Value>, k: nat, tr: bool, show: string -> string, cal: Calendar, fixed: bool)
    returns (t: nat)
    requires WellEnded(toks) && PyEncodable(Array(a), show, cal, fixed) && k < |a|
    requires TokensAt(toks, q, ItemsToks(ElemParts(a, tr, show), tr, k) + [Token(BracketClose, "]")])
    requires q + |ItemsToks(ElemParts(a, tr, show), tr, k)| + 1 < |toks|
    ensures TokensAt(toks, t, ItemsToks(ElemParts(a, tr, show), tr, k + 1) + [Token(BracketClose, "]")])
    ensures t + |ItemsToks(ElemParts(a, tr, show), tr, k + 1)| == q + |ItemsToks(ElemParts(a, tr, show), tr, k)|
    ensures ElemsAt(toks, q, a[..k], cal) == ElemsAt(toks, t, a[..k + 1], cal)
    decreases Array(a), 0, |a| - k, 0
  {
    var parts := ElemParts(a, tr, show);
    assert parts[k] == ValueToks(a[k], tr, show);
    var j;
    j, t := ItemLayout(toks, q, parts, k, tr, Token(BracketClose, "]"));
    ElemValue(toks, q, a[..k], a[k], j, t, tr, show, cal, fixed);
    TakeSucc(a, k);
  }

  /** An element at `q`: its value is read, and the loop goes on at `t`. */
  lemma {:induction false} ElemValue(toks: seq<Token>, q: nat, arr: seq<Value>, v: Value, j: nat, t: nat,
                                     tr: bool, show: string -> string, cal: Calendar, fixed: bool)
    requires WellEnded(toks) && PyEncodable(v, show, cal, fixed)
    requires TokensAt(toks, q, ValueToks(v, tr, show)) && j == q + |ValueToks(v, tr, show)| && j < |toks|
    requires (toks[j].kind == Comma && t == j + 1) || (toks[j].kind == BracketClose && t == j)
    ensures t < |toks| && ElemsAt(toks, q, arr, cal) == ElemsAt(toks, t, arr + [v], cal)
    decreases v, 3
  {
    ValueToksHead(v, tr, show);
    TokensAtHead(toks, q, ValueToks(v, tr, show));
    ValueParse(toks, q, v, tr, show, cal, fixed);
    ElemStep(toks, q, arr, v, j, t, cal);
  }

  /** Past the last item, the closing bracket. */
  lemma ItemsEnd(toks: seq<Token>, q: nat, parts: seq<seq<Token>>, tr: bool, close: Token)
    requires TokensAt(toks, q, ItemsToks(parts, tr, |parts|) + [close])
    ensures ItemsToks(parts, tr, |parts|) == [] && q < |toks| && toks[q] == close
  {
    TokensAtHead(toks, q, [close]);
  }

  /** An item's tokens `x`, its comma tokens and the items after it: the item stands at `q`,
      and the parser goes on at `t`, after the comma or at the closing bracket. */
  lemma ItemSplit(toks: seq<Token>, q: nat, x: seq<Token>, comma: seq<Token>, rest: seq<Token>, close: Token)
    returns (t: nat)
    requires |x| > 0 && (comma == [] || comma == [Token(Comma, ",")]) && (comma == [] ==> rest == [])
    requires TokensAt(toks, q, x + comma + rest + [close])
    ensures TokensAt(toks, q, x) && q + |x| < |toks|
    ensures comma != [] ==> toks[q + |x|].kind == Comma && t == q + |x| + 1
    ensures comma == [] ==> toks[q + |x|] == close && t == q + |x|
    ensures TokensAt(toks, t, rest + [close]) && t + |rest| == q + |x| + |comma| + |rest|
  {
    assert x + comma + rest + [close] == x + (comma + (rest + [close]));
    TokensAtSplit(toks, q, x, comma + (rest + [close]));
    TokensAtSplit(toks, q + |x|, comma, rest + [close]);
    t := q + |x| + |comma|;
    TokensAtHead(toks, t, rest + [close]);
    if comma != [] { TokensAtHead(toks, q + |x|, comma); }
  }

  /** One element read: the loop goes on after the comma or at the closing bracket. */
  lemma ElemStep(toks: seq<Token>, q: nat, arr: seq<Value>, v: Value, j: nat, t: nat, cal: Calendar)
    requires WellEnded(toks) && q < |toks| && toks[q].kind != BracketClose && ValueAt(toks, q, cal) == Done(v, j)
    requires (toks[j].kind == Comma && t == j + 1) || (toks[j].kind == BracketClose && t == j)
    ensures t < |toks| && ElemsAt(toks, q, arr, cal) == ElemsAt(toks, t, arr + [v], cal)
  {
  }

  /** `parse_object` at an object's tokens. */
  lemma {:induction false} ObjectParse(toks: seq<Token>, i: nat, j: nat, m: map<string, Value>, x: seq<Token>, tr: bool, show: string -> string, cal: Calendar, fixed: bool)
    requires WellEnded(toks) && ValuesEncodable(m, show, cal, fixed) && x == ItemsToks(MemberParts(m, tr, show), tr, 0)
    requires TokensAt(toks, i, [Token(BraceOpen, "{")] + x + [Token(BraceClose, "}")]) && j == i + |x| + 2 && j < |toks|
    ensures i < |toks| && toks[i].kind == BraceOpen && ObjectAt(toks, i, cal) == Done(m, j)
    decreases Object(m), 1
  {
    ContainerToks(toks, i, Token(BraceOpen, "{"), x, Token(BraceClose, "}"));
    UptoNone(m, SortedKeys(m.Keys));
    MembersParse(toks, i + 1, j, m, 0, tr, show, cal, fixed);
  }

  /** An object's tokens: the braces around its items' tokens `x`. */
  lemma ObjectToks(m: map<string, Value>, tr: bool, show: string -> string, cal: Calendar, fixed: bool) returns (x: seq<Token>)
    requires PyEncodable(Object(m), show, cal, fixed)
    ensures x == ItemsToks(MemberParts(m, tr, show), tr, 0) && ValuesEncodable(m, show, cal, fixed)
    ensures ValueToks(Object(m), tr, show) == [Token(BraceOpen, "{")] + x + [Token(BraceClose, "}")]
  {
    x := ItemsToks(MemberParts(m, tr, show), tr, 0);
  }

  /** The values of an object the lexer takes back: what the parser needs of its members. */
  predicate ValuesEncodable(m: map<string, Value>, show: string -> string, cal: Calendar, fixed: bool)
  {
    forall k :: k in m ==> PyEncodable(m[k], show, cal, fixed)
  }

  /** The member loop of `parse_object` at the tokens of the members from `k` on, with the
      members of the first `k` keys read. */
  lemma {:induction false} MembersParse(toks: seq<Token>, q: nat, e: nat, m: map<string, Value>, k: nat, tr: bool, show: string -> string, cal: Calendar, fixed: bool)
    requires WellEnded(toks) && ValuesEncodable(m, show, cal, fixed) && k <= |m.Keys|
    requires TokensAt(toks, q, ItemsToks(MemberParts(m, tr, show), tr, k) + [Token(BraceClose, "}")])
    requires e == q + |ItemsToks(MemberParts(m, tr, show), tr, k)| + 1 && e < |toks|
    ensures MembersAt(toks, q, Upto(m, SortedKeys(m.Keys), k), cal) == Done(m, e)
    decreases Object(m), 0, |m.Keys| - k
  {
    if k == |m.Keys| {
      MembersEnd(toks, q, e, m, tr, show, cal);
    } else {
      var t := MemberParse(toks, q, e, m, k, tr, show, cal, fixed);
      MembersParse(toks, t, e, m, k + 1, tr, show, cal, fixed);
    }
  }

  /** With every member read, the closing brace ends the object. */
  lemma MembersEnd(toks: seq<Token>, q: nat, e: nat, m: map<string, Value>, tr: bool, show: string -> string, cal: Calendar)
    requires WellEnded(toks) && TokensAt(toks, q, ItemsToks(MemberParts(m, tr, show), tr, |m.Keys|) + [Token(BraceClose, "}")])
    requires e == q + |ItemsToks(MemberParts(m, tr, show), tr, |m.Keys|)| + 1 && e < |toks|
    ensures MembersAt(toks, q, Upto(m, SortedKeys(m.Keys), |m.Keys|), cal) == Done(m, e)
  {
    ItemsEnd(toks, q, MemberParts(m, tr, show), tr, Token(BraceClose, "}"));
    UptoAll(m);
  }

  /** Member `k`: its key, `:` and value are read, then its comma, or the closing brace is
      reached. */
  lemma {:induction false} MemberParse(toks: seq<Token>, q: nat, e: nat, m: map<string, Value>, k: nat, tr: bool, show: string -> string, cal: Calendar, fixed: bool)
    returns (t: nat)
    requires WellEnded(toks) && ValuesEncodable(m, show, cal, fixed) && k < |m.Keys|
    requires TokensAt(toks, q, ItemsToks(MemberParts(m, tr, show), tr, k) + [Token(BraceClose, "}")])
    requires e == q + |ItemsToks(MemberParts(m, tr, show), tr, k)| + 1 && e < |toks|
    ensures TokensAt(toks, t, ItemsToks(MemberParts(m, tr, show), tr, k + 1) + [Token(BraceClose, "}")])
    ensures e == t + |ItemsToks(MemberParts(m, tr, show), tr, k + 1)| + 1
    ensures MembersAt(toks, q, Upto(m, SortedKeys(m.Keys), k), cal) == MembersAt(toks, t, Upto(m, SortedKeys(m.Keys), k + 1), cal)
    decreases Object(m), 0, |m.Keys| - k, 0
  {
    var keys := SortedKeys(m.Keys);
    var key := keys[k];
    var j;
    j, t := MemberLayout(toks, q, m, k, tr, show);
    KeyFresh(m, k);
    MemberValue(toks, q, Upto(m, keys, k), key, m[key], j, t, tr, show, cal, fixed);
    UptoStep(m, keys, k);
  }

  /** The tokens of member `k`: the key token, `:`, the value's tokens up to `j`, then a comma
      or the closing brace; the members after it from `t`. */
  lemma MemberLayout(toks: seq<Token>, q: nat, m: map<string, Value>, k: nat, tr: bool, show: string -> string)
    returns (j: nat, t: nat)
    requires k < |m.Keys|
    requires TokensAt(toks, q, ItemsToks(MemberParts(m, tr, show), tr, k) + [Token(BraceClose, "}")])
    requires q + |ItemsToks(MemberParts(m, tr, show), tr, k)| + 1 < |toks|
    ensures SortedKeys(m.Keys)[k] in m
    ensures TokensAt(toks, q, [KeyToken(SortedKeys(m.Keys)[k]), Token(Colon, ":")] + ValueToks(m[SortedKeys(m.Keys)[k]], tr, show))
    ensures j == q + 2 + |ValueToks(m[SortedKeys(m.Keys)[k]], tr, show)| && j < |toks|
    ensures (toks[j].kind == Comma && t == j + 1) || (toks[j].kind == BraceClose && t == j)
    ensures TokensAt(toks, t, ItemsToks(MemberParts(m, tr, show), tr, k + 1) + [Token(BraceClose, "}")])
    ensures t + |ItemsToks(MemberParts(m, tr, show), tr, k + 1)| == q + |ItemsToks(MemberParts(m, tr, show), tr, k)|
  {
    var key := SortedKeys(m.Keys)[k];
    var parts := MemberParts(m, tr, show);
    assert parts[k] == [KeyToken(key), Token(Colon, ":")] + ValueToks(m[key], tr, show);
    j, t := ItemLayout(toks, q, parts, k, tr, Token(BraceClose, "}"));
  }

  /** The tokens of item `k` from `q`, then a comma or the closing token; the items after it
      from `t`. */
  lemma ItemLayout(toks: seq<Token>, q: nat, parts: seq<seq<Token>>, k: nat, tr: bool, close: Token)
    returns (j: nat, t: nat)
    requires k < |parts| && |parts[k]| > 0
    requires TokensAt(toks, q, ItemsToks(parts, tr, k) + [close])
    ensures TokensAt(toks, q, parts[k]) && j == q + |parts[k]| && j < |toks|
    ensures (toks[j].kind == Comma && t == j + 1) || (toks[j].kind == close.kind && t == j)
    ensures TokensAt(toks, t, ItemsToks(parts, tr, k + 1) + [close])
    ensures t + |ItemsToks(parts, tr, k + 1)| == q + |ItemsToks(parts, tr, k)|
  {
    var comma := CommaToks(tr || k + 1 < |parts|);
    var rest := ItemsToks(parts, tr, k + 1);
    assert ItemsToks(parts, tr, k) == parts[k] + comma + rest;
    assert comma == [] ==> rest == [] by {
      if comma == [] { assert k + 1 == |parts|; }
    }
    j := q + |parts[k]|;
    t := ItemSplit(toks, q, parts[k], comma, rest, close);
  }

  /** A member at `q` whose key is not yet read: the key, `:` and the value are read, and
      the loop goes on at `t`. */
  lemma {:induction false} MemberValue(toks: seq<Token>, q: nat, obj: map<string, Value>, key: string, v: Value, j: nat, t: nat,
                                       tr: bool, show: string -> string, cal: Calendar, fixed: bool)
    requires WellEnded(toks) && PyEncodable(v, show, cal, fixed) && key !in obj
    requires TokensAt(toks, q, [KeyToken(key), Token(Colon, ":")] + ValueToks(v, tr, show))
    requires j == q + 2 + |ValueToks(v, tr, show)| && j < |toks|
    requires (toks[j].kind == Comma && t == j + 1) || (toks[j].kind == BraceClose && t == j)
    ensures t < |toks| && MembersAt(toks, q, obj, cal) == MembersAt(toks, t, obj[key := v], cal)
    decreases v, 3
  {
    MemberToks(toks, q, [KeyToken(key), Token(Colon, ":")], ValueToks(v, tr, show));
    ValueParse(toks, q + 2, v, tr, show, cal, fixed);
    MemberNext(toks, q, obj, v, j, t, cal);
  }

  /** A member's tokens: the key token, `:`, and the value's tokens from `q + 2`. */
  lemma MemberToks(toks: seq<Token>, q: nat, head: seq<Token>, vt: seq<Token>)
    requires |head| == 2 && TokensAt(toks, q, head + vt)
    ensures q + 1 < |toks| && toks[q] == head[0] && toks[q + 1] == head[1] && TokensAt(toks, q + 2, vt)
  {
    TokensAtSplit(toks, q, head, vt);
    TokensAtHead(toks, q, head);
    assert toks[q..q + 2][1] == toks[q + 1];
  }

  // ---------------------------------------------------------------- the round trip

  /** `load` reads back the object a style with blank separators writes. */
  lemma ParseRender(m: map<string, Value>, style: Style, show: string -> string, cal: Calendar, fixed: bool)
    requires PyEncodable(Object(m), show, cal, fixed) && Spaced(style)
    ensures Loaded(Render(Object(m), style, 0, PyFormats(show)), fixed, cal) == Ok(m)
  {
    var s := Render(Object(m), style, 0, PyFormats(show));
    var tr := style.layout.Indented?;
    var x := ValueToks(Object(m), tr, show);
    assert IsAt(s, 0, s) by { assert s[0..|s|] == s; }
    ObjectLex(s, 0, |s|, m, style, 0, show, cal, fixed);
    StreamLexer(s, 0, fixed);
    StreamLexer(s, |s|, fixed);
    var toks := x + [EofToken];
    assert TokensFrom(s, 0, fixed) == Ok(toks);
    assert TokensAt(toks, 0, x) by { assert toks[0..|x|] == x; }
    var items := ObjectToks(m, tr, show, cal, fixed);
    ObjectParse(toks, 0, |x|, m, items, tr, show, cal, fixed);
    assert toks[|x|] == EofToken;
  }

  /** `load(dumps(obj)) == obj` and `load(dumps_canonical(obj, indent)) == obj` for every
      object whose keys and scalars the lexer takes back as they were written. */
  lemma DumpsRoundTrip(m: map<string, Value>, indent: Option<string>, show: string -> string, cal: Calendar, fixed: bool)
    requires PyEncodable(Object(m), show, cal, fixed)
    ensures Loaded(Dumps(Object(m), show), fixed, cal) == Ok(m)
    ensures Loaded(DumpsCanonical(Object(m), indent, show), fixed, cal) == Ok(m)
  {
    NormalFixed(Object(m), show, cal, fixed);
    DumpsRender(Object(m), 0, show);
    assert Spaced(PyStyle) by { assert AllBlank(PyStyle.colon[1..]); }
    assert Spaced(CanonicalStyle) by { assert AllBlank(CanonicalStyle.colon[1..]); }
    ParseRender(m, PyStyle, show, cal, fixed);
    ParseRender(m, CanonicalStyle, show, cal, fixed);
  }

  /** The same through the parser's methods: `loads(dumps_canonical(obj, indent))`. */
  method LoadsDumps(m: map<string, Value>, indent: Option<string>, show: string -> string, cal: Calendar, fixed: bool)
    returns (r: Result<map<string, Value>, PyError>)
    requires PyEncodable(Object(m), show, cal, fixed)
    ensures r == Ok(m)
  {
    var text := DumpsCanonical(Object(m), indent, show);
    r := Load(text, fixed, cal);
    DumpsRoundTrip(m, indent, show, cal, fixed);
  }

  // ---------------------------------------------------------------- keys that start like a literal

  /** `dumps` writes the key `Tag` as it is. */
  lemma TagDumps(show: string -> string)
    ensures Dumps(Object(map["Tag" := Int(1)]), show) == "{Tag: 1}"
  {
    var m := map["Tag" := Int(1)];
    assert m.Keys == {"Tag"};
    SortedKeysSpec(m.Keys);
    assert SortedKeys(m.Keys) == ["Tag"];
    assert Dumps(Int(1), show) == "1";
    assert DumpsMembers(m, show)[0] == "Tag: 1";
    assert DumpsMembers(m, show) == ["Tag: 1"];
  }

  /** With the token table as written, `T` is taken before the key rule, so the text
      `dumps` writes for `{"Tag": 1}` is read as the key `T` followed by the key `ag`. */
  lemma TagSplit(s: string, cal: Calendar)
    requires s == "{Tag: 1}"
    ensures Loaded(s, false, cal) == Err(Expected(Colon, KeyTok))
  {
    var toks := TagTokens(s);
    StreamLexer(s, 0, false);
    StreamLexer(s, |s|, false);
    assert TokensFrom(s, 0, false) == Ok(toks + [EofToken]);
    TagMembers(toks + [EofToken], cal);
  }

  /** The tokens of `{Tag: 1}` when a literal letter is taken whatever follows it. */
  lemma TagTokens(s: string) returns (toks: seq<Token>)
    requires s == "{Tag: 1}"
    ensures |toks| > 2 && toks[0].kind == BraceOpen && toks[1] == Token(BoolT, "T") && toks[2].kind == KeyTok
    ensures Lexes(s, 0, 8, toks, false)
  {
    TagPunct(s);
    TagLiteral(s);
    var a := TagKey(s);
    var b := TagNumber(s);
    toks := TagChain(s, [Token(BraceOpen, "{")], [Token(BoolT, "T")], a, [Token(Colon, ":")], b, [Token(BraceClose, "}")]);
  }

  /** Six runs of tokens, one after the other. */
  lemma TagChain(s: string, t0: seq<Token>, t1: seq<Token>, t2: seq<Token>, t3: seq<Token>, t4: seq<Token>, t5: seq<Token>)
    returns (toks: seq<Token>)
    requires |t0| == 1 && |t1| == 1 && |t2| == 1
    requires Lexes(s, 0, 1, t0, false) && Lexes(s, 1, 2, t1, false) && Lexes(s, 2, 4, t2, false)
    requires Lexes(s, 4, 5, t3, false) && Lexes(s, 5, 7, t4, false) && Lexes(s, 7, 8, t5, false)
    ensures |toks| > 2 && toks[0] == t0[0] && toks[1] == t1[0] && toks[2] == t2[0] && Lexes(s, 0, 8, toks, false)
  {
    LexesChain(s, 0, 1, 2, t0, t1, false);
    LexesChain(s, 0, 2, 4, t0 + t1, t2, false);
    LexesChain(s, 0, 4, 5, t0 + t1 + t2, t3, false);
    LexesChain(s, 0, 5, 7, t0 + t1 + t2 + t3, t4, false);
    LexesChain(s, 0, 7, 8, t0 + t1 + t2 + t3 + t4, t5, false);
    var p := t0 + t1 + t2;
    assert p[0] == t0[0] && p[1] == t1[0] && p[2] == t2[0];
    toks := p + t3 + t4 + t5;
    assert toks[0] == p[0] && toks[1] == p[1] && toks[2] == p[2];
  }

  lemma TagPunct(s: string)
    requires s == "{Tag: 1}"
    ensures Lexes(s, 0, 1, [Token(BraceOpen, "{")], false)
    ensures Lexes(s, 4, 5, [Token(Colon, ":")], false)
    ensures Lexes(s, 7, 8, [Token(BraceClose, "}")], false)
  {
    KindLex(s, 0, 1, '{', BraceOpen, false);
    KindLex(s, 4, 5, ':', Colon, false);
    KindLex(s, 7, 8, '}', BraceClose, false);
  }

  lemma TagLiteral(s: string)
    requires s == "{Tag: 1}"
    ensures Lexes(s, 1, 2, [Token(BoolT, "T")], false)
  {
    assert IsAt(s, 1, "Tag") by { assert s[1..4] == "Tag"; }
    NoConstructor(s, 1, "Tag");
    assert PyNumberEnd(s, 1).None?;
    WordScan(s, 1, false);
    LexesTok(s, 1, Token(BoolT, "T"), 2, false);
  }

  lemma TagKey(s: string) returns (a: seq<Token>)
    requires s == "{Tag: 1}"
    ensures a == [Token(KeyTok, "ag")] && Lexes(s, 2, 4, a, false)
  {
    assert IsAt(s, 2, "ag") by { assert s[2..4] == "ag"; }
    assert PyKey("ag", false);
    KeyLex(s, 2, 4, "ag", false);
    a := [KeyToken("ag")];
  }

  lemma TagNumber(s: string) returns (b: seq<Token>)
    requires s == "{Tag: 1}"
    ensures b == [Token(NumberTok, "1")] && Lexes(s, 5, 7, b, false)
  {
    BlankLex(s, 5, 6, " ", false);
    assert DecimalString(1) == "1";
    PyDecimal(1);
    NumberLex(s, 6, 7, "1", false);
    LexesChain(s, 5, 6, 7, [], [Token(NumberTok, "1")], false);
    b := [Token(NumberTok, "1")];
  }

  /** The parser takes `T` as the key and stops at the next token, which is not `:`. */
  lemma TagMembers(toks: seq<Token>, cal: Calendar)
    requires WellEnded(toks) && |toks| > 2 && toks[0].kind == BraceOpen
    requires toks[1] == Token(BoolT, "T") && toks[2].kind == KeyTok
    ensures DocumentAt(toks, 0, cal) == Err(Expected(Colon, KeyTok))
  {
    assert MembersAt(toks, 1, map[], cal) == Fail(Expected(Colon, KeyTok));
  }

  /** When a literal letter is taken only where no identifier character follows, the same
      text is read back. */
  lemma TagRead(show: string -> string, cal: Calendar)
    ensures Loaded("{Tag: 1}", true, cal) == Ok(map["Tag" := Int(1)])
  {
    var m := map["Tag" := Int(1)];
    assert m.Keys == {"Tag"};
    assert PyKey("Tag", true);
    assert PyEncodable(Object(m), show, cal, true);
    TagDumps(show);
    DumpsRoundTrip(m, None, show, cal, true);
  }
}
