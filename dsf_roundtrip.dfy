/** What the Go `dsf` writer produces, its parser reads back: for every object whose
    strings, instants, keys and numbers can be written without clashing with the syntax,
    `Parse(Stringify(v, indent))` yields the object again, for every indentation made of
    blanks, and so does the parse that reports lexer errors. */
module DsfRoundTrip {
  import opened Values
  import opened Text
  import opened Codec
  import opened Cursor
  import opened Tokens
  import opened Layout
  import opened CursorLayout
  import opened DsfLexer
  import opened DsfParser
  import opened DsfStringify

  /** A key the lexer reads back as one key token: identifier characters that do not make up
      a whole number lexeme. */
  predicate DsfKey(k: string)
  {
    |k| > 0 && (forall i :: 0 <= i < |k| ==> IsIdentifierChar(k[i])) && GreedyNumberEnd(k, 0) != Some(|k|)
  }

  /** A constructor payload the lexer takes whole: no `)`, `(` or space. */
  predicate NoStop(t: string)
  {
    forall i :: 0 <= i < |t| ==> !PayloadStop(t[i])
  }

  /** The values whose text the Go writer and parser agree on: `int64` integers, float
      lexemes with a fraction or an exponent that the float formatting writes back unchanged
      and that are in range, strings without a backtick, instants whose text has no payload
      stop and is read back as the same instant, and keys as above. */
  predicate Encodable(v: Value, show: string -> string, lib: Library)
    decreases v
  {
    match v
    case Int(i) => InI64(i)
    case Number(t) =>
      GreedyNumberEnd(t, 0) == Some(|t|) && ('.' in t || 'e' in t || 'E' in t) && show(t) == t && lib.finite(t)
    case Str(t) => Free(t, '`')
    case Date(t) => NoStop(t) && ReadDate(t, lib.cal) == Date(t)
    case Array(a) => forall i :: 0 <= i < |a| ==> Encodable(a[i], show, lib)
    case Object(m) => forall k :: k in m ==> DsfKey(k) && Encodable(m[k], show, lib)
    case _ => true
  }

  // ---------------------------------------------------------------- states

  /** The parser state whose token is the one the lexer reads from `p`. */
  function At(s: string, p: nat): PState
    requires p <= |s|
  {
    Advance(s, PState(EofToken, p, None))
  }

  /** The token read at `p` ends at `e`; the next one is read from there. */
  lemma AtToken(s: string, p: nat, t: Token, e: nat)
    requires p <= |s| && Lex(s, p) == Lexed(Ok(t), e)
    ensures At(s, p) == PState(t, e, None) && Advance(s, At(s, p)) == At(s, e)
  {
  }

  /** Reading from two positions with the same spaces after them gives the same state. */
  lemma AtSpace(s: string, x: nat, y: nat)
    requires x <= |s| && y <= |s| && SpaceEnd(s, x) == SpaceEnd(s, y)
    ensures At(s, x) == At(s, y)
  {
  }

  /** A character that can start an item: it opens a value and is not a space byte. */
  predicate Leads(c: char)
  {
    Opens(c) && !IsSpaceByte(c)
  }

  predicate AllLead(items: seq<string>)
  {
    forall j :: 0 <= j < |items| ==> |items[j]| > 0 && Leads(items[j][0])
  }

  /** Blanks followed by a byte that is no space are skipped whole. */
  lemma {:induction false} SpaceEndBlanks(s: string, p: nat, g: string)
    requires IsAt(s, p, g) && AllBlank(g)
    requires p + |g| == |s| || !IsSpaceByte(s[p + |g|])
    ensures SpaceEnd(s, p) == p + |g|
    decreases |g|
  {
    if g != [] {
      IsAtChar(s, p, g, 0);
      IsAtConcat(s, p, g[..1], g[1..]);
      assert g[..1] + g[1..] == g;
      SpaceEndBlanks(s, p + 1, g[1..]);
    }
  }

  /** A run of identifier characters followed by one that is not is scanned whole. */
  lemma {:induction false} WordEndRun(s: string, p: nat, n: nat, w: string)
    requires IsAt(s, p, w) && (forall i :: 0 <= i < |w| ==> IsIdentifierChar(w[i]))
    requires n == p + |w| && (n == |s| || !IsIdentifierChar(s[n]))
    ensures WordEnd(s, p) == n
    decreases |w|
  {
    if w != [] {
      IsAtChar(s, p, w, 0);
      IsAtConcat(s, p, w[..1], w[1..]);
      assert w[..1] + w[1..] == w;
      WordEndRun(s, p + 1, n, w[1..]);
    }
  }

  /** A payload with no stop followed by `)` is scanned whole. */
  lemma {:induction false} PayloadEndRun(s: string, p: nat, c: nat, t: string)
    requires IsAt(s, p, t) && NoStop(t) && c == p + |t| && c < |s| && s[c] == ')'
    ensures PayloadEnd(s, p) == c
    decreases |t|
  {
    if t != [] {
      IsAtChar(s, p, t, 0);
      IsAtConcat(s, p, t[..1], t[1..]);
      assert t[..1] + t[1..] == t;
      PayloadEndRun(s, p + 1, c, t[1..]);
    }
  }

  // ---------------------------------------------------------------- tokens

  /** At a byte that is no space, no `/`, no punctuation and no backtick, the lexer reads a
      number when the number expression matches there, else a word. */
  lemma LexNumber(s: string, p: nat, e: nat, t: string)
    requires p < |s| && (IsDigit(s[p]) || s[p] == '-')
    requires NumberToken(s, p) == Some(e) && s[p..e] == t
    ensures Lex(s, p) == Lexed(Ok(Token(NumberTok, t)), e)
  {
    NumberStart(s[p]);
    assert SpaceEnd(s, p) == p;
    NumberTokenAt(s, p, e, t);
  }

  lemma NumberTokenAt(s: string, p: nat, e: nat, t: string)
    requires p < |s| && (IsDigit(s[p]) || s[p] == '-')
    requires NumberToken(s, p) == Some(e) && s[p..e] == t
    ensures TokenAt(s, p) == Lexed(Ok(Token(NumberTok, t)), e)
  {
    NumberStart(s[p]);
  }

  /** A byte that starts a number is neither a space, a comment, punctuation nor a backtick. */
  lemma NumberStart(c: char)
    requires IsDigit(c) || c == '-'
    ensures !IsSpaceByte(c) && c != '/' && PunctKind(c).None? && c != '`'
  {
  }

  lemma LexWord(s: string, p: nat)
    requires p < |s| && NumberToken(s, p).None? && IsIdentifierChar(s[p])
    ensures Lex(s, p) == WordAt(s, p)
  {
    WordStart(s[p]);
    assert SpaceEnd(s, p) == p;
    WordTokenAt(s, p);
  }

  lemma WordTokenAt(s: string, p: nat)
    requires p < |s| && NumberToken(s, p).None? && IsIdentifierChar(s[p])
    requires s[p] != '/' && PunctKind(s[p]).None? && s[p] != '`'
    ensures TokenAt(s, p) == WordAt(s, p)
  {
  }

  /** A byte that starts a word is neither a space, a comment, punctuation nor a backtick. */
  lemma WordStart(c: char)
    requires IsIdentifierChar(c)
    ensures !IsSpaceByte(c) && c != '/' && PunctKind(c).None? && c != '`'
  {
  }

  /** A word followed by neither `(` nor an identifier character is a literal or a key. */
  lemma WordPlain(s: string, q: nat, e: nat, w: string)
    requires IsAt(s, q, w) && |w| > 0 && (forall i :: 0 <= i < |w| ==> IsIdentifierChar(w[i]))
    requires e == q + |w| && (e == |s| || (!IsIdentifierChar(s[e]) && s[e] != '('))
    ensures WordAt(s, q) == Lexed(Ok(Token(WordKind(w), w)), e)
  {
    IsAtChar(s, q, w, 0);
    WordEndRun(s, q, e, w);
    assert s[q..e] == w;
  }

  /** A punctuation byte is read as its token. */
  lemma PunctAt(s: string, p: nat, c: char)
    requires p < |s| && s[p] == c && PunctKind(c).Some?
    ensures Lex(s, p) == Lexed(Ok(Token(PunctKind(c).value, [c])), p + 1)
  {
    assert SpaceEnd(s, p) == p;
  }

  /** A string written at `p` is read as one string token. */
  lemma StringLex(s: string, p: nat, e: nat, t: string)
    requires IsAt(s, p, "`" + t + "`") && Free(t, '`') && e == p + |t| + 2
    ensures Lex(s, p) == Lexed(Ok(Token(StringTok, "`" + t + "`")), e)
  {
    var q := p + 1 + |t|;
    IsAtConcat(s, p, "`" + t, "`");
    IsAtConcat(s, p, "`", t);
    IsAtChar(s, p, "`", 0);
    IsAtChar(s, q, "`", 0);
    ByteEndFree(s, p + 1, t, '`');
    assert SpaceEnd(s, p) == p;
    assert s[p..q + 1] == "`" + t + "`";
  }

  /** A number lexeme matched whole by the number expression, written at `p` and followed by
      a delimiter, is read as one number token. */
  lemma NumberLex(s: string, p: nat, e: nat, t: string)
    requires Placed(s, p, t) && GreedyNumberEnd(t, 0) == Some(|t|) && e == p + |t|
    ensures Lex(s, p) == Lexed(Ok(Token(NumberTok, t)), e)
  {
    GreedyHead(t);
    IsAtChar(s, p, t, 0);
    PlacedEmbeds(s, p, t);
    GreedyShift(s, p, t);
    assert GreedyNumberEnd(s, p) == Some(e);
    NumberTokenEnd(s, p, e);
    assert s[p..e] == t;
    LexNumber(s, p, e, t);
  }

  /** A match of the number expression that a delimiter ends is a number token. */
  lemma NumberTokenEnd(s: string, p: nat, e: nat)
    requires p < |s| && (IsDigit(s[p]) || s[p] == '-') && GreedyNumberEnd(s, p) == Some(e)
    requires e == |s| || Delim(s[e])
    ensures NumberToken(s, p) == Some(e)
  {
  }

  /** A match of the number expression starts with a digit or `-`. */
  lemma GreedyHead(t: string)
    requires GreedyNumberEnd(t, 0).Some?
    ensures |t| > 0 && (IsDigit(t[0]) || t[0] == '-')
  {
  }

  /** `T`, `F` or `N` followed by a delimiter is read as its literal token. */
  lemma LiteralLex(s: string, p: nat, e: nat, w: string)
    requires (w == "T" || w == "F" || w == "N") && Placed(s, p, w) && e == p + 1
    ensures Lex(s, p) == Lexed(Ok(Token(LiteralKind(w).value, w)), e)
  {
    IsAtChar(s, p, w, 0);
    LexWord(s, p);
    WordPlain(s, p, e, w);
    WordKindLiteral(w);
  }

  /** The kind of token a word is read as: a literal or a key. */
  function WordKind(w: string): Kind
  {
    if LiteralKind(w).Some? then LiteralKind(w).value else KeyTok
  }

  lemma WordKindLiteral(w: string)
    requires w == "T" || w == "F" || w == "N"
    ensures LiteralKind(w).Some? && WordKind(w) == LiteralKind(w).value
  {
  }

  /** Every word that is not a constructor is read as a token a key can be. */
  lemma WordKindKey(w: string)
    ensures KeyKind(WordKind(w))
  {
  }

  /** A key followed by its colon is read as a key token. */
  lemma KeyLex(s: string, q: nat, k: nat, key: string)
    requires IsAt(s, q, key) && DsfKey(key) && k == q + |key| && k < |s| && s[k] == ':'
    ensures Lex(s, q) == Lexed(Ok(Token(WordKind(key), key)), k) && KeyKind(WordKind(key))
  {
    IsAtChar(s, q, key, 0);
    KeyNotNumber(s, q, k, key);
    LexWord(s, q);
    WordPlain(s, q, k, key);
    WordKindKey(key);
  }

  /** A key is not read as a number: either it does not start like one, or the number
      expression does not match all of it and an identifier character follows the match. */
  lemma KeyNotNumber(s: string, q: nat, k: nat, key: string)
    requires IsAt(s, q, key) && DsfKey(key) && k == q + |key| && k < |s| && s[k] == ':'
    ensures NumberToken(s, q) == None
  {
    IsAtChar(s, q, key, 0);
    if IsDigit(s[q]) {
      assert Placed(s, q, key);
      PlacedEmbeds(s, q, key);
      GreedyShift(s, q, key);
      var g := GreedyNumberEnd(key, 0);
      if g.Some? {
        IsAtChar(s, q, key, g.value);
      }
    }
  }

  /** The openers the writer puts before a constructor payload. */
  predicate Opener(open: string)
  {
    open == "BN(" || open == "B(" || open == "D("
  }

  /** `name(payload)` with a payload free of stops is read as one constructor token. */
  lemma ConstructorLex(s: string, p: nat, c: nat, e: nat, open: string, payload: string)
    requires Opener(open) && IsAt(s, p, open + payload + ")") && NoStop(payload)
    requires c == p + |open| + |payload| && e == c + 1
    ensures Lex(s, p) == Lexed(Ok(Token(ConstructorTok, open + payload + ")")), e)
  {
    IsAtConcat(s, p, open + payload, ")");
    IsAtConcat(s, p, open, payload);
    IsAtChar(s, p, open, 0);
    IsAtChar(s, c, ")", 0);
    assert NumberToken(s, p) == None;
    LexWord(s, p);
    ConstructorWord(s, p, p + |open|, c, open, payload);
  }

  lemma ConstructorWord(s: string, p: nat, b: nat, c: nat, open: string, payload: string)
    requires Opener(open) && IsAt(s, p, open) && NoStop(payload) && b == p + |open| && c == b + |payload|
    requires IsAt(s, b, payload) && c < |s| && s[c] == ')'
    requires s[p..c + 1] == open + payload + ")"
    ensures IsIdentifierChar(s[p])
    ensures WordAt(s, p) == Lexed(Ok(Token(ConstructorTok, open + payload + ")")), c + 1)
  {
    var name := open[..|open| - 1];
    var n := p + |name|;
    IsAtChar(s, p, open, 0);
    IsAtChar(s, p, open, |open| - 1);
    assert open == name + "(";
    IsAtConcat(s, p, name, "(");
    WordEndRun(s, p, n, name);
    PayloadEndRun(s, b, c, payload);
    assert n < |s| && s[n] == '(' && n + 1 == b;
    ConstructorWordAt(s, p, n, c, open + payload + ")");
  }

  /** A word that `(` follows, with its payload closed at `c`, is a constructor token. */
  lemma ConstructorWordAt(s: string, p: nat, n: nat, c: nat, t: string)
    requires p < |s| && IsIdentifierChar(s[p]) && WordEnd(s, p) == n && n < |s| && s[n] == '('
    requires PayloadEnd(s, n + 1) == c && c < |s| && s[c] == ')' && s[p..c + 1] == t
    ensures WordAt(s, p) == Lexed(Ok(Token(ConstructorTok, t)), c + 1)
  {
  }

  /** `parseConstructor` splits the text of a constructor at its `(`. */
  lemma ConstructorSplit(open: string, payload: string)
    requires Opener(open)
    ensures var full := open + payload + ")";
      ByteEnd(full, 0, '(') == |open| - 1 && full[..|open| - 1] == open[..|open| - 1] &&
      full[|open|..|full| - 1] == payload
  {
    var full := open + payload + ")";
    var name := open[..|open| - 1];
    assert IsAt(full, 0, full);
    IsAtConcat(full, 0, open + payload, ")");
    IsAtConcat(full, 0, open, payload);
    assert open == name + "(";
    IsAtConcat(full, 0, name, "(");
    IsAtChar(full, |name|, "(", 0);
    ByteEndFree(full, 0, name, '(');
    assert full[..|name|] == name;
    assert full[|open|..|full| - 1] == payload;
  }

  // ---------------------------------------------------------------- scalars

  /** A value token read at `p` and ending at `e` gives its value and the state at `e`. */
  lemma StrAt(s: string, p: nat, e: nat, t: string, lib: Library)
    requires IsAt(s, p, "`" + t + "`") && Free(t, '`') && e == p + |t| + 2
    ensures ValueAt(s, At(s, p), lib) == Got(Str(t), At(s, e))
  {
    StringLex(s, p, e, t);
    AtToken(s, p, Token(StringTok, "`" + t + "`"), e);
    assert ("`" + t + "`")[1..|t| + 1] == t;
  }

  lemma IntAt(s: string, p: nat, e: nat, i: int, lib: Library)
    requires Placed(s, p, DecimalString(i)) && InI64(i) && e == p + |DecimalString(i)|
    ensures ValueAt(s, At(s, p), lib) == Got(Int(i), At(s, e))
  {
    var d := DecimalString(i);
    DecimalGreedy(i);
    NumberLex(s, p, e, d);
    IntValue(i, lib);
    NumberAt(s, p, e, d, Int(i), lib);
  }

  /** A number token read at `p` and ending at `e` gives the value its text converts to. */
  lemma NumberAt(s: string, p: nat, e: nat, t: string, v: Value, lib: Library)
    requires p <= |s| && Lex(s, p) == Lexed(Ok(Token(NumberTok, t)), e) && NumberValue(t, lib) == Ok(v)
    ensures ValueAt(s, At(s, p), lib) == Got(v, At(s, e))
  {
    AtToken(s, p, Token(NumberTok, t), e);
  }

  /** The decimal text of a 64-bit integer converts back to the integer. */
  lemma IntValue(i: int, lib: Library)
    requires InI64(i)
    ensures NumberValue(DecimalString(i), lib) == Ok(Int(i))
  {
    var d := DecimalString(i);
    DecimalStringFree(i, '.');
    DecimalStringFree(i, 'e');
    DecimalStringFree(i, 'E');
    DecimalRoundTrip(i, true);
    assert !('.' in d || 'e' in d || 'E' in d);
  }

  lemma FloatAt(s: string, p: nat, e: nat, t: string, lib: Library)
    requires Placed(s, p, t) && GreedyNumberEnd(t, 0) == Some(|t|) && e == p + |t|
    requires ('.' in t || 'e' in t || 'E' in t) && lib.finite(t)
    ensures ValueAt(s, At(s, p), lib) == Got(Number(t), At(s, e))
  {
    NumberLex(s, p, e, t);
    NumberAt(s, p, e, t, Number(t), lib);
  }

  lemma LiteralAt(s: string, p: nat, e: nat, w: string, v: Value, lib: Library)
    requires w == "T" || w == "F" || w == "N"
    requires v == (if w == "T" then Bool(true) else if w == "F" then Bool(false) else Null)
    requires Placed(s, p, w) && e == p + 1
    ensures ValueAt(s, At(s, p), lib) == Got(v, At(s, e))
  {
    LiteralValue(w, v);
    var k := LiteralKind(w).value;
    LiteralLex(s, p, e, w);
    LiteralToken(s, p, e, Token(k, w), v, lib);
  }

  /** The kind of a literal word and the value it stands for. */
  lemma LiteralValue(w: string, v: Value)
    requires w == "T" || w == "F" || w == "N"
    requires v == (if w == "T" then Bool(true) else if w == "F" then Bool(false) else Null)
    ensures LiteralKind(w).Some? && LiteralKind(w).value in {BoolT, BoolF, NullN}
    ensures v == (if LiteralKind(w).value == NullN then Null else Bool(LiteralKind(w).value == BoolT))
  {
  }

  /** A literal token read at `p` and ending at `e` gives its value. */
  lemma LiteralToken(s: string, p: nat, e: nat, t: Token, v: Value, lib: Library)
    requires p <= |s| && Lex(s, p) == Lexed(Ok(t), e) && t.kind in {BoolT, BoolF, NullN}
    requires v == (if t.kind == NullN then Null else Bool(t.kind == BoolT))
    ensures ValueAt(s, At(s, p), lib) == Got(v, At(s, e))
  {
    AtToken(s, p, t, e);
  }

  lemma ConstructorAt(s: string, p: nat, e: nat, open: string, payload: string, v: Value, lib: Library)
    requires Opener(open) && IsAt(s, p, open + payload + ")") && NoStop(payload) && e == p + |open| + |payload| + 1
    requires ConstructorValue(open + payload + ")", lib) == Ok(v)
    ensures ValueAt(s, At(s, p), lib) == Got(v, At(s, e))
  {
    ConstructorLex(s, p, p + |open| + |payload|, e, open, payload);
    AtToken(s, p, Token(ConstructorTok, open + payload + ")"), e);
  }

  lemma BigIntAt(s: string, p: nat, e: nat, n: int, lib: Library)
    requires IsAt(s, p, "BN(" + DecimalString(n) + ")") && e == p + |DecimalString(n)| + 4
    ensures ValueAt(s, At(s, p), lib) == Got(BigInt(n), At(s, e))
  {
    DecimalNoStop(n);
    BigIntRead(n, lib);
    ConstructorAt(s, p, e, "BN(", DecimalString(n), BigInt(n), lib);
  }

  /** `BN(` decimal `)` is read as the integer. */
  lemma BigIntRead(n: int, lib: Library)
    ensures ConstructorValue("BN(" + DecimalString(n) + ")", lib) == Ok(BigInt(n))
  {
    DecimalRoundTrip(n, true);
    ConstructorSplit("BN(", DecimalString(n));
  }

  lemma DecimalNoStop(n: int)
    ensures NoStop(DecimalString(n))
  {
    var d := DecimalString(n);
    DecimalStringShape(n);
    forall i | 0 <= i < |d| ensures !PayloadStop(d[i]) {
      if n < 0 && i > 0 { assert d[i] == d[1..][i - 1]; }
    }
  }

  lemma BytesAt(s: string, p: nat, e: nat, bs: seq<byte>, lib: Library)
    requires IsAt(s, p, "B(" + HexUpper(bs) + ")") && e == p + |HexUpper(bs)| + 3
    ensures ValueAt(s, At(s, p), lib) == Got(Bytes(bs), At(s, e))
  {
    HexUpperChars(bs);
    assert NoStop(HexUpper(bs));
    BytesRead(bs, lib);
    ConstructorAt(s, p, e, "B(", HexUpper(bs), Bytes(bs), lib);
  }

  /** `B(` upper-case hex `)` is read as the bytes. */
  lemma BytesRead(bs: seq<byte>, lib: Library)
    ensures ConstructorValue("B(" + HexUpper(bs) + ")", lib) == Ok(Bytes(bs))
  {
    HexRoundTrip(bs);
    ConstructorSplit("B(", HexUpper(bs));
  }

  lemma DateAt(s: string, p: nat, e: nat, t: string, lib: Library)
    requires IsAt(s, p, "D(" + t + ")") && NoStop(t) && ReadDate(t, lib.cal) == Date(t) && e == p + |t| + 3
    ensures ValueAt(s, At(s, p), lib) == Got(Date(t), At(s, e))
  {
    DateRead(t, lib);
    ConstructorAt(s, p, e, "D(", t, Date(t), lib);
  }

  /** `D(` instant `)` is read as that instant when the calendar reads it back unchanged. */
  lemma DateRead(t: string, lib: Library)
    requires ReadDate(t, lib.cal) == Date(t)
    ensures ConstructorValue("D(" + t + ")", lib) == Ok(Date(t))
  {
    ConstructorSplit("D(", t);
  }

  // ---------------------------------------------------------------- gaps

  /** What follows an item at `n`, up to the token at `t`: a `,` and spaces up to `t`, or
      spaces up to the closer at `t`. */
  predicate GapAt(s: string, n: nat, t: nat, close: char)
  {
    n < |s| && t < |s| && SpaceEnd(s, t) == t &&
    ((s[n] == ',' && SpaceEnd(s, n + 1) == t) || (s[n] != ',' && s[t] == close && SpaceEnd(s, n) == t))
  }

  /** Item `i` of a container's pieces, followed by its gap up to `t`, where the pieces after
      it are written. */
  lemma ItemGap(s: string, q: nat, e: nat, items: seq<string>, i: nat, style: Style, level: nat, close: char)
    returns (n: nat, t: nat)
    requires Spaced(style) && i < |items| && AllLead(items) && (close == ']' || close == '}')
    requires IsAt(s, q, Concat(Pieces(items, style.layout, level)[i..]) + [close])
    requires e == q + |Concat(Pieces(items, style.layout, level)[i..])| + 1
    ensures IsAt(s, q, items[i]) && n == q + |items[i]| && Placed(s, q, items[i])
    ensures GapAt(s, n, t, close)
    ensures IsAt(s, t, Concat(Pieces(items, style.layout, level)[i + 1..]) + [close])
    ensures e == t + |Concat(Pieces(items, style.layout, level)[i + 1..])| + 1
  {
    var g := Gap(style.layout, level, i, |items|);
    n, t := PieceSplit(s, q, items, i, style.layout, level, close);
    GapShape(style, level, i, |items|);
    PieceHead(s, t, items, i + 1, style.layout, level, close);
    if i + 1 < |items| {
      assert Leads(items[i + 1][0]) && |g| > 0 && g[0] == ',';
    }
    GapFacts(s, n, t, g, close);
  }

  /** A comma gap after an item, up to a closer or the start of the next item. */
  lemma GapFacts(s: string, n: nat, t: nat, g: string, close: char)
    requires IsAt(s, n, g) && CommaGap(g) && t == n + |g| && t < |s| && (close == ']' || close == '}')
    requires s[t] == close || (|g| > 0 && g[0] == ',' && Leads(s[t]))
    ensures GapAt(s, n, t, close) && Delim(s[n])
  {
    if |g| > 0 && g[0] == ',' {
      IsAtChar(s, n, g, 0);
      IsAtConcat(s, n, g[..1], g[1..]);
      assert g[..1] + g[1..] == g;
      SpaceEndBlanks(s, n + 1, g[1..]);
    } else {
      SpaceEndBlanks(s, n, g);
      if |g| > 0 { IsAtChar(s, n, g, 0); }
    }
    SpaceEndBlanks(s, t, "");
  }

  /** After a container's opener come its lead blanks and the first item. */
  lemma DsfContainerStart(s: string, p: nat, e: nat, open: char, close: char, items: seq<string>, style: Style, level: nat)
    returns (q: nat)
    requires items != [] && AllLead(items) && Spaced(style)
    requires IsAt(s, p, Container([open], [close], items, style.layout, level))
    requires e == p + |Container([open], [close], items, style.layout, level)|
    ensures p < |s| && s[p] == open && SpaceEnd(s, p + 1) == q && SpaceEnd(s, q) == q
    ensures IsAt(s, q, Concat(Pieces(items, style.layout, level)[0..]) + [close])
    ensures e == q + |Concat(Pieces(items, style.layout, level)[0..])| + 1
  {
    var lead := Lead(style.layout, level);
    var b;
    b, q := ContainerSplit(s, p, e, open, close, items, style.layout, level);
    GapShape(style, level, 0, |items|);
    assert Leads(items[0][0]);
    PieceHead(s, q, items, 0, style.layout, level, close);
    LeadSpace(s, b, q, lead);
  }

  /** The blanks between an opener and the first item are skipped whole. */
  lemma LeadSpace(s: string, b: nat, q: nat, lead: string)
    requires IsAt(s, b, lead) && AllBlank(lead) && q == b + |lead| && q < |s| && Leads(s[q])
    ensures SpaceEnd(s, b) == q && SpaceEnd(s, q) == q
  {
    SpaceEndBlanks(s, b, lead);
    SpaceEndBlanks(s, q, "");
  }

  /** The punctuation token at `p` and the state after it. */
  lemma PunctState(s: string, p: nat, c: char)
    requires p < |s| && s[p] == c && PunctKind(c).Some?
    ensures At(s, p) == PState(Token(PunctKind(c).value, [c]), p + 1, None)
    ensures Advance(s, At(s, p)) == At(s, p + 1)
  {
    PunctAt(s, p, c);
    AtToken(s, p, Token(PunctKind(c).value, [c]), p + 1);
  }

  /** The token after a value is a `,` (then the state after it) or the closer. */
  lemma GapState(s: string, n: nat, t: nat, close: char)
    requires GapAt(s, n, t, close) && (close == ']' || close == '}')
    ensures s[n] == ',' ==> At(s, n).token.kind == Comma && Advance(s, At(s, n)) == At(s, t)
    ensures s[n] != ',' ==> At(s, n) == At(s, t) && At(s, t).token.kind == PunctKind(close).value
  {
    if s[n] == ',' {
      PunctState(s, n, ',');
      AtSpace(s, n + 1, t);
    } else {
      PunctState(s, t, close);
      AtSpace(s, n, t);
    }
  }

  /** A value read in a state means its token was neither a closer nor the end of input. */
  lemma ValueStarts(s: string, st: PState, lib: Library)
    requires Good(s, st) && ValueAt(s, st, lib).Got?
    ensures st.token.kind != BracketClose && st.token.kind != BraceClose && st.token.kind != EOF
  {
  }

  /** At `[` the element loop starts from the next token. */
  lemma ArrayOpen(s: string, p: nat, lib: Library)
    requires p < |s| && s[p] == '['
    ensures At(s, p).token.kind == BracketOpen && ArrayAt(s, At(s, p), lib) == ElemsAt(s, At(s, p + 1), [], lib)
  {
    PunctState(s, p, '[');
  }

  /** At `{` the member loop starts from the next token. */
  lemma ObjectOpen(s: string, p: nat, lib: Library)
    requires p < |s| && s[p] == '{'
    ensures At(s, p).token.kind == BraceOpen && ObjectAt(s, At(s, p), lib) == MembersAt(s, At(s, p + 1), map[], lib)
  {
    PunctState(s, p, '{');
  }

  /** At `]` the element loop ends with the items read. */
  lemma ElemsClose(s: string, q: nat, acc: seq<Value>, lib: Library)
    requires q < |s| && s[q] == ']'
    ensures ElemsAt(s, At(s, q), acc, lib) == Got(acc, At(s, q + 1))
  {
    PunctState(s, q, ']');
  }

  /** At `}` the member loop ends with the members read. */
  lemma MembersClose(s: string, q: nat, acc: map<string, Value>, lib: Library)
    requires q < |s| && s[q] == '}'
    ensures MembersAt(s, At(s, q), acc, lib) == Got(acc, At(s, q + 1))
  {
    PunctState(s, q, '}');
  }

  /** `parseValue` at `[` or `{` is `parseArray` or `parseObject`. */
  lemma ContainerValue(s: string, st: PState, lib: Library)
    requires Good(s, st)
    ensures st.token.kind == BracketOpen && ArrayAt(s, st, lib).Got? ==>
      ValueAt(s, st, lib) == Got(Array(ArrayAt(s, st, lib).value), ArrayAt(s, st, lib).next)
    ensures st.token.kind == BraceOpen && ObjectAt(s, st, lib).Got? ==>
      ValueAt(s, st, lib) == Got(Object(ObjectAt(s, st, lib).value), ObjectAt(s, st, lib).next)
  {
  }

  /** One round of the element loop. */
  lemma ElemStep(s: string, q: nat, n: nat, t: nat, acc: seq<Value>, v: Value, lib: Library)
    requires q <= |s| && GapAt(s, n, t, ']') && ValueAt(s, At(s, q), lib) == Got(v, At(s, n))
    ensures ElemsAt(s, At(s, q), acc, lib) == ElemsAt(s, At(s, t), acc + [v], lib)
  {
    ValueStarts(s, At(s, q), lib);
    GapState(s, n, t, ']');
  }

  /** One round of the member loop. */
  lemma MemberStep(s: string, q: nat, n: nat, t: nat, obj: map<string, Value>, key: string, v: Value, lib: Library)
    requires q <= |s| && GapAt(s, n, t, '}') && key !in obj
    requires At(s, q).token.text == key && KeyKind(At(s, q).token.kind)
    requires Advance(s, At(s, q)).token.kind == Colon
    requires ValueAt(s, Advance(s, Advance(s, At(s, q))), lib) == Got(v, At(s, n))
    ensures MembersAt(s, At(s, q), obj, lib) == MembersAt(s, At(s, t), obj[key := v], lib)
  {
    MemberUnfold(s, At(s, q), obj, v, At(s, n), lib);
    GapState(s, n, t, '}');
  }

  /** One member read by `parseObject`'s loop, whatever the states are. */
  lemma MemberUnfold(s: string, st: PState, obj: map<string, Value>, v: Value, st3: PState, lib: Library)
    requires Good(s, st) && KeyKind(st.token.kind) && st.token.text !in obj
    requires Advance(s, st).token.kind == Colon
    requires ValueAt(s, Advance(s, Advance(s, st)), lib) == Got(v, st3)
    ensures st3.token.kind == Comma ==>
      MembersAt(s, st, obj, lib) == MembersAt(s, Advance(s, st3), obj[st.token.text := v], lib)
    ensures st3.token.kind == BraceClose ==>
      MembersAt(s, st, obj, lib) == MembersAt(s, st3, obj[st.token.text := v], lib)
  {
  }

  // ---------------------------------------------------------------- values

  /** A value's text starts with a byte that opens an item. */
  lemma RenderLeads(v: Value, style: Style, level: nat, show: string -> string, lib: Library)
    requires Encodable(v, show, lib)
    ensures var r := Render(v, style, level, DsfFormats(show)); |r| > 0 && Leads(r[0])
  {
    match v
    case Array(a) =>
      RenderContainer(v, style, level, DsfFormats(show));
      ContainerHead('[', ']', ItemTexts(a, style, level + 1, DsfFormats(show)), style.layout, level);
    case Object(m) =>
      RenderContainer(v, style, level, DsfFormats(show));
      ContainerHead('{', '}', FieldTexts(m, style, level + 1, DsfFormats(show)), style.layout, level);
    case Number(t) =>
      GreedyHead(t);
    case Int(i) =>
      DecimalGreedy(i);
      GreedyHead(DecimalString(i));
    case _ =>
  }

  /** Any encodable value written at `p` and followed by a delimiter or the end of input is
      read back by `parseValue`, which leaves the state at `e`, right after it. */
  lemma {:induction false} ValueText(s: string, p: nat, e: nat, v: Value, style: Style, level: nat, show: string -> string, lib: Library)
    requires Encodable(v, show, lib) && Spaced(style)
    requires Placed(s, p, Render(v, style, level, DsfFormats(show)))
    requires e == p + |Render(v, style, level, DsfFormats(show))|
    ensures ValueAt(s, At(s, p), lib) == Got(v, At(s, e))
    decreases v, 2, 0
  {
    match v
    case Array(a) =>
      ArrayText(s, p, e, a, style, level, show, lib);
      ContainerValue(s, At(s, p), lib);
    case Object(m) =>
      ObjectText(s, p, e, m, style, level, show, lib);
      ContainerValue(s, At(s, p), lib);
    case _ => ScalarValueText(s, p, e, v, style, level, show, lib);
  }

  /** The scalar cases of `ValueText`. */
  lemma ScalarValueText(s: string, p: nat, e: nat, v: Value, style: Style, level: nat, show: string -> string, lib: Library)
    requires Encodable(v, show, lib) && !v.Array? && !v.Object?
    requires Placed(s, p, Render(v, style, level, DsfFormats(show)))
    requires e == p + |Render(v, style, level, DsfFormats(show))|
    ensures ValueAt(s, At(s, p), lib) == Got(v, At(s, e))
  {
    var r := Render(v, style, level, DsfFormats(show));
    match v
    case Null => LiteralAt(s, p, e, r, v, lib);
    case Bool(b) => LiteralAt(s, p, e, r, v, lib);
    case Int(i) => IntAt(s, p, e, i, lib);
    case Number(t) => FloatAt(s, p, e, t, lib);
    case Str(t) => StrAt(s, p, e, t, lib);
    case BigInt(n) => BigIntAt(s, p, e, n, lib);
    case Date(t) => DateAt(s, p, e, t, lib);
    case Bytes(bs) => BytesAt(s, p, e, bs, lib);
  }

  /** `parseArray` at the writer's text of an array. */
  lemma {:induction false} ArrayText(s: string, p: nat, e: nat, a: seq<Value>, style: Style, level: nat, show: string -> string, lib: Library)
    requires Encodable(Array(a), show, lib) && Spaced(style)
    requires IsAt(s, p, Render(Array(a), style, level, DsfFormats(show)))
    requires e == p + |Render(Array(a), style, level, DsfFormats(show))|
    ensures At(s, p).token.kind == BracketOpen && ArrayAt(s, At(s, p), lib) == Got(a, At(s, e))
    decreases Array(a), 1, 0
  {
    var items := ItemTexts(a, style, level + 1, DsfFormats(show));
    RenderContainer(Array(a), style, level, DsfFormats(show));
    ContainerHead('[', ']', items, style.layout, level);
    IsAtChar(s, p, Container("[", "]", items, style.layout, level), 0);
    ArrayOpen(s, p, lib);
    ElemsFrom(s, p, e, a, items, style, level, show, lib);
  }

  /** The element loop of an array, from the token after `[`. */
  lemma {:induction false} ElemsFrom(s: string, p: nat, e: nat, a: seq<Value>, items: seq<string>, style: Style, level: nat, show: string -> string, lib: Library)
    requires Encodable(Array(a), show, lib) && Spaced(style)
    requires items == ItemTexts(a, style, level + 1, DsfFormats(show))
    requires IsAt(s, p, Container("[", "]", items, style.layout, level))
    requires e == p + |Container("[", "]", items, style.layout, level)|
    ensures p < |s| && ElemsAt(s, At(s, p + 1), [], lib) == Got(a, At(s, e))
    decreases Array(a), 0, |a| + 1, 0
  {
    if a == [] {
      assert Container("[", "]", items, style.layout, level) == "[]";
      IsAtChar(s, p, "[]", 1);
      ElemsClose(s, p + 1, [], lib);
      return;
    }
    ItemsLead(a, style, level + 1, show, lib);
    var q := DsfContainerStart(s, p, e, '[', ']', items, style, level);
    AtSpace(s, p + 1, q);
    var acc: seq<Value> := [];
    assert acc == a[..0];
    ElemsText(s, q, e, a, acc, 0, style, level, show, lib);
  }

  /** The element loop of `parseArray` over the pieces from item `i` on, with the first `i`
      items already read into `acc`. */
  lemma {:induction false} ElemsText(s: string, q: nat, e: nat, a: seq<Value>, acc: seq<Value>, i: nat, style: Style, level: nat, show: string -> string, lib: Library)
    requires Encodable(Array(a), show, lib) && Spaced(style) && i <= |a| && acc == a[..i]
    requires IsAt(s, q, Concat(Pieces(ItemTexts(a, style, level + 1, DsfFormats(show)), style.layout, level)[i..]) + "]")
    requires e == q + |Concat(Pieces(ItemTexts(a, style, level + 1, DsfFormats(show)), style.layout, level)[i..])| + 1
    ensures ElemsAt(s, At(s, q), acc, lib) == Got(a, At(s, e))
    decreases Array(a), 0, |a| - i, 1
  {
    if i == |a| {
      PieceHead(s, q, ItemTexts(a, style, level + 1, DsfFormats(show)), i, style.layout, level, ']');
      assert e == q + 1;
      assert acc == a;
      ElemsClose(s, q, acc, lib);
    } else {
      var t := ElemText(s, q, e, a, acc, i, style, level, show, lib);
      ElemsText(s, t, e, a, acc + [a[i]], i + 1, style, level, show, lib);
    }
  }

  /** Item `i` of the element loop: the loop reads it and goes on at `t`, where the pieces
      after it are written. */
  lemma {:induction false} ElemText(s: string, q: nat, e: nat, a: seq<Value>, acc: seq<Value>, i: nat, style: Style, level: nat, show: string -> string, lib: Library)
    returns (t: nat)
    requires Encodable(Array(a), show, lib) && Spaced(style) && i < |a| && acc == a[..i]
    requires IsAt(s, q, Concat(Pieces(ItemTexts(a, style, level + 1, DsfFormats(show)), style.layout, level)[i..]) + "]")
    requires e == q + |Concat(Pieces(ItemTexts(a, style, level + 1, DsfFormats(show)), style.layout, level)[i..])| + 1
    ensures t <= |s|
    ensures ElemsAt(s, At(s, q), acc, lib) == ElemsAt(s, At(s, t), acc + [a[i]], lib) && acc + [a[i]] == a[..i + 1]
    ensures IsAt(s, t, Concat(Pieces(ItemTexts(a, style, level + 1, DsfFormats(show)), style.layout, level)[i + 1..]) + "]")
    ensures e == t + |Concat(Pieces(ItemTexts(a, style, level + 1, DsfFormats(show)), style.layout, level)[i + 1..])| + 1
    decreases Array(a), 0, |a| - i, 0
  {
    var items := ItemTexts(a, style, level + 1, DsfFormats(show));
    var n;
    ItemsLead(a, style, level + 1, show, lib);
    n, t := ItemGap(s, q, e, items, i, style, level, ']');
    ValueText(s, q, n, a[i], style, level + 1, show, lib);
    ElemStep(s, q, n, t, acc, a[i], lib);
    TakeSucc(a, i);
  }

  lemma ItemsLead(a: seq<Value>, style: Style, level: nat, show: string -> string, lib: Library)
    requires Encodable(Array(a), show, lib)
    ensures AllLead(ItemTexts(a, style, level, DsfFormats(show)))
  {
    forall j | 0 <= j < |a| ensures |Render(a[j], style, level, DsfFormats(show))| > 0 && Leads(Render(a[j], style, level, DsfFormats(show))[0]) {
      RenderLeads(a[j], style, level, show, lib);
    }
  }

  /** `parseObject` at the writer's text of an object. */
  lemma {:induction false} ObjectText(s: string, p: nat, e: nat, m: map<string, Value>, style: Style, level: nat, show: string -> string, lib: Library)
    requires Encodable(Object(m), show, lib) && Spaced(style)
    requires IsAt(s, p, Render(Object(m), style, level, DsfFormats(show)))
    requires e == p + |Render(Object(m), style, level, DsfFormats(show))|
    ensures At(s, p).token.kind == BraceOpen && ObjectAt(s, At(s, p), lib) == Got(m, At(s, e))
    decreases Object(m), 1, 0
  {
    var fields := FieldTexts(m, style, level + 1, DsfFormats(show));
    RenderContainer(Object(m), style, level, DsfFormats(show));
    ContainerHead('{', '}', fields, style.layout, level);
    IsAtChar(s, p, Container("{", "}", fields, style.layout, level), 0);
    ObjectOpen(s, p, lib);
    MembersFrom(s, p, e, m, fields, style, level, show, lib);
  }

  /** The member loop of an object, from the token after `{`. */
  lemma {:induction false} MembersFrom(s: string, p: nat, e: nat, m: map<string, Value>, fields: seq<string>, style: Style, level: nat, show: string -> string, lib: Library)
    requires Encodable(Object(m), show, lib) && Spaced(style)
    requires fields == FieldTexts(m, style, level + 1, DsfFormats(show))
    requires IsAt(s, p, Container("{", "}", fields, style.layout, level))
    requires e == p + |Container("{", "}", fields, style.layout, level)|
    ensures p < |s| && MembersAt(s, At(s, p + 1), map[], lib) == Got(m, At(s, e))
    decreases Object(m), 0, |m.Keys| + 1, 0
  {
    if fields == [] {
      assert Container("{", "}", fields, style.layout, level) == "{}";
      IsAtChar(s, p, "{}", 1);
      MembersClose(s, p + 1, map[], lib);
      assert m.Keys == {};
      assert m == map[];
      return;
    }
    FieldsLead(m, style, level, show, lib);
    var q := DsfContainerStart(s, p, e, '{', '}', fields, style, level);
    AtSpace(s, p + 1, q);
    var acc: map<string, Value> := map[];
    UptoNone(m, SortedKeys(m.Keys));
    MembersText(s, q, e, m, acc, 0, style, level, show, lib);
  }

  /** The member loop of `parseObject` over the pieces from member `i` on, with the members
      of the first `i` keys already read into `acc`. */
  lemma {:induction false} MembersText(s: string, q: nat, e: nat, m: map<string, Value>, acc: map<string, Value>, i: nat, style: Style, level: nat, show: string -> string, lib: Library)
    requires Encodable(Object(m), show, lib) && Spaced(style) && i <= |m.Keys| && acc == Upto(m, SortedKeys(m.Keys), i)
    requires IsAt(s, q, Concat(Pieces(FieldTexts(m, style, level + 1, DsfFormats(show)), style.layout, level)[i..]) + "}")
    requires e == q + |Concat(Pieces(FieldTexts(m, style, level + 1, DsfFormats(show)), style.layout, level)[i..])| + 1
    ensures MembersAt(s, At(s, q), acc, lib) == Got(m, At(s, e))
    decreases Object(m), 0, |m.Keys| - i, 1
  {
    if i == |m.Keys| {
      PieceHead(s, q, FieldTexts(m, style, level + 1, DsfFormats(show)), i, style.layout, level, '}');
      assert e == q + 1;
      UptoAll(m);
      MembersClose(s, q, acc, lib);
    } else {
      var key := SortedKeys(m.Keys)[i];
      var t := FieldText(s, q, e, m, acc, i, style, level, show, lib);
      MembersText(s, t, e, m, acc[key := m[key]], i + 1, style, level, show, lib);
    }
  }

  /** Member `i` of the member loop: the loop reads it and goes on at `t`, where the pieces
      after it are written. */
  lemma {:induction false} FieldText(s: string, q: nat, e: nat, m: map<string, Value>, acc: map<string, Value>, i: nat, style: Style, level: nat, show: string -> string, lib: Library)
    returns (t: nat)
    requires Encodable(Object(m), show, lib) && Spaced(style) && i < |m.Keys| && acc == Upto(m, SortedKeys(m.Keys), i)
    requires IsAt(s, q, Concat(Pieces(FieldTexts(m, style, level + 1, DsfFormats(show)), style.layout, level)[i..]) + "}")
    requires e == q + |Concat(Pieces(FieldTexts(m, style, level + 1, DsfFormats(show)), style.layout, level)[i..])| + 1
    ensures t <= |s|
    ensures SortedKeys(m.Keys)[i] in m
    ensures MembersAt(s, At(s, q), acc, lib) == MembersAt(s, At(s, t), acc[SortedKeys(m.Keys)[i] := m[SortedKeys(m.Keys)[i]]], lib)
    ensures acc[SortedKeys(m.Keys)[i] := m[SortedKeys(m.Keys)[i]]] == Upto(m, SortedKeys(m.Keys), i + 1)
    ensures IsAt(s, t, Concat(Pieces(FieldTexts(m, style, level + 1, DsfFormats(show)), style.layout, level)[i + 1..]) + "}")
    ensures e == t + |Concat(Pieces(FieldTexts(m, style, level + 1, DsfFormats(show)), style.layout, level)[i + 1..])| + 1
    decreases Object(m), 0, |m.Keys| - i, 0
  {
    var keys := SortedKeys(m.Keys);
    var fields := FieldTexts(m, style, level + 1, DsfFormats(show));
    var key := keys[i];
    var n;
    FieldsLead(m, style, level, show, lib);
    n, t := ItemGap(s, q, e, fields, i, style, level, '}');
    MemberText(s, q, n, key, m[key], style, level + 1, show, lib);
    KeyFresh(m, i);
    MemberStep(s, q, n, t, acc, key, m[key], lib);
    UptoStep(m, keys, i);
  }

  lemma FieldsLead(m: map<string, Value>, style: Style, level: nat, show: string -> string, lib: Library)
    requires Encodable(Object(m), show, lib) && Spaced(style)
    ensures AllLead(FieldTexts(m, style, level + 1, DsfFormats(show)))
  {
    var fields := FieldTexts(m, style, level + 1, DsfFormats(show));
    var keys := SortedKeys(m.Keys);
    forall j | 0 <= j < |fields| ensures |fields[j]| > 0 && Leads(fields[j][0]) {
      assert keys[j] in m;
      KeyHead(keys[j]);
      FieldLeads(m, j, style, level, show);
    }
  }

  /** A member text starts with the first byte of its key. */
  lemma FieldLeads(m: map<string, Value>, j: nat, style: Style, level: nat, show: string -> string)
    requires j < |m.Keys| && |SortedKeys(m.Keys)[j]| > 0
    ensures var f := FieldTexts(m, style, level + 1, DsfFormats(show))[j]; |f| > 0 && f[0] == SortedKeys(m.Keys)[j][0]
  {
    var key := SortedKeys(m.Keys)[j];
    var f := FieldTexts(m, style, level + 1, DsfFormats(show))[j];
    HeadOf(key, style.colon + Render(m[key], style, level + 1, DsfFormats(show)));
  }

  lemma KeyHead(key: string)
    requires DsfKey(key)
    ensures |key| > 0 && Leads(key[0])
  {
  }

  lemma HeadOf(a: string, b: string)
    requires |a| > 0
    ensures (a + b)[0] == a[0]
  {
  }

  /** One member: its key, the colon text and the value, followed by a delimiter. The key
      token, the colon and the value are read in turn. */
  lemma {:induction false} MemberText(s: string, q: nat, n: nat, key: string, v: Value, style: Style, level: nat, show: string -> string, lib: Library)
    requires Encodable(v, show, lib) && Spaced(style) && DsfKey(key)
    requires Placed(s, q, key + style.colon + Render(v, style, level, DsfFormats(show)))
    requires n == q + |key + style.colon + Render(v, style, level, DsfFormats(show))|
    ensures At(s, q).token.text == key && KeyKind(At(s, q).token.kind)
    ensures Advance(s, At(s, q)).token.kind == Colon
    ensures ValueAt(s, Advance(s, Advance(s, At(s, q))), lib) == Got(v, At(s, n))
    decreases v, 3, 0
  {
    var r := Render(v, style, level, DsfFormats(show));
    var c := q + |key + style.colon|;
    RenderLeads(v, style, level, show, lib);
    PlacedTail(s, q, c, n, key + style.colon, r);
    IsAtChar(s, c, r, 0);
    KeyState(s, q, c, key, style.colon);
    ValueText(s, c, n, v, style, level, show, lib);
  }

  /** The key token, then the colon, then the state at the value. */
  lemma KeyState(s: string, q: nat, c: nat, key: string, colon: string)
    requires IsAt(s, q, key + colon) && DsfKey(key) && |colon| > 0 && colon[0] == ':' && AllBlank(colon[1..])
    requires c == q + |key + colon| && c < |s| && !IsSpaceByte(s[c])
    ensures At(s, q).token.text == key && KeyKind(At(s, q).token.kind)
    ensures Advance(s, At(s, q)).token.kind == Colon
    ensures Advance(s, Advance(s, At(s, q))) == At(s, c)
  {
    var k := q + |key|;
    IsAtConcat(s, q, key, colon);
    IsAtChar(s, k, colon, 0);
    KeyToken(s, q, k, key);
    ColonState(s, k, c, colon);
  }

  lemma KeyToken(s: string, q: nat, k: nat, key: string)
    requires IsAt(s, q, key) && DsfKey(key) && k == q + |key| && k < |s| && s[k] == ':'
    ensures At(s, q).token.text == key && KeyKind(At(s, q).token.kind)
    ensures Advance(s, At(s, q)) == At(s, k)
  {
    KeyLex(s, q, k, key);
    AtToken(s, q, Token(WordKind(key), key), k);
  }

  lemma ColonState(s: string, k: nat, c: nat, colon: string)
    requires IsAt(s, k, colon) && |colon| > 0 && colon[0] == ':' && AllBlank(colon[1..])
    requires c == k + |colon| && c < |s| && !IsSpaceByte(s[c])
    ensures At(s, k).token.kind == Colon && Advance(s, At(s, k)) == At(s, c)
  {
    IsAtChar(s, k, colon, 0);
    PunctState(s, k, ':');
    IsAtConcat(s, k, colon[..1], colon[1..]);
    assert colon[..1] + colon[1..] == colon;
    SpaceEndBlanks(s, k + 1, colon[1..]);
    SpaceEndBlanks(s, c, "");
    AtSpace(s, k + 1, c);
  }

  // ---------------------------------------------------------------- documents

  /** `Parse` reads back the text of any encodable object written in a spaced style, and so
      does the parse that reports lexer errors. */
  lemma ParseRender(m: map<string, Value>, style: Style, show: string -> string, lib: Library)
    requires Encodable(Object(m), show, lib) && Spaced(style)
    ensures ParseAll(Render(Object(m), style, 0, DsfFormats(show)), lib) == Ok(m)
    ensures ParseReported(Render(Object(m), style, 0, DsfFormats(show)), lib) == Ok(m)
  {
    var s := Render(Object(m), style, 0, DsfFormats(show));
    assert IsAt(s, 0, s);
    ObjectText(s, 0, |s|, m, style, 0, show, lib);
    assert SpaceEnd(s, |s|) == |s|;
    assert Lex(s, |s|) == Lexed(Ok(EofToken), |s|);
    assert At(s, |s|) == PState(EofToken, |s|, None);
    assert Start(s) == At(s, 0);
  }

  /** The styles `Stringify` writes are spaced when the indentation is blanks. */
  lemma DsfStyleSpaced(indent: string)
    requires AllBlank(indent)
    ensures Spaced(DsfStyle(indent))
  {
    assert ": "[1..] == " " && ","[1..] == "";
  }

  /** `Parse(Stringify(v, indent))` gives back every encodable object. */
  method StringifyThenParse(m: map<string, Value>, indent: string, show: string -> string, lib: Library)
    returns (r: Result<map<string, Value>, DsfError>)
    requires Encodable(Object(m), show, lib) && AllBlank(indent)
    ensures r == Ok(m)
  {
    var text := Stringify(Object(m), indent, show);
    r := ParseText(text, lib);
    DsfStyleSpaced(indent);
    ParseRender(m, DsfStyle(indent), show, lib);
  }
}
