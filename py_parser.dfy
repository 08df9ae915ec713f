/** The parser of the Python port (`DTXTParser`, `load` and `loads` in
    `ref-impl/python/dtxt.py`). The functions `ValueAt`, `ObjectAt`, `MembersAt`, `ArrayAt`
    and `ElemsAt` state what each parse method returns from a token index and where it
    leaves the index; the class `Parser` holds the methods and their loops, proved to agree
    with them. `ConstructorValue` is `parse_constructor`, which only computes. */
module PyParser {
  import opened Values
  import opened Text
  import opened Codec
  import opened Cursor
  import opened Tokens
  import opened PyLexer

  // ---------------------------------------------------------------- scalars

  /** Python's `value[1:-1]`: the text without its first and last character (empty when the
      text is shorter than two). */
  function Inner(t: string): (r: string)
    ensures |t| >= 2 ==> t == [t[0]] + r + [t[|t| - 1]]
    ensures |t| < 2 ==> r == ""
  {
    if |t| >= 2 then t[1..|t| - 1] else ""
  }

  /** The number text holds `.`, `e` or `E`, so it is read with `float`. */
  predicate IsFloatText(t: string)
  {
    !(Free(t, '.') && Free(t, 'e') && Free(t, 'E'))
  }

  /** The `NUMBER` branch of `parse_value`. `float` reads every lexeme (the float itself is
      kept as its text); `int` reads an optional `-` and decimal digits, and its
      `ValueError` on anything else is `InvalidNumber`. */
  function NumberValue(t: string): (r: Result<Value, PyError>)
    ensures IsFloatText(t) ==> r == Ok(Number(t))
    ensures !IsFloatText(t) ==> (r.Ok? <==> SignedDecimal(t, false).Some?)
    ensures !IsFloatText(t) && r.Ok? ==> r == Ok(Int(SignedDecimal(t, false).value))
  {
    if IsFloatText(t) then Ok(Number(t))
    else
      match SignedDecimal(t, false)
      case Some(n) => Ok(Int(n))
      case None => Err(InvalidNumber(t))
  }

  /** The `D(..)` branch of `parse_constructor`: a payload holding `T` is read as a
      date-time with each `Z` replaced by `+00:00`, any other as a `%Y-%m-%d` date; a payload
      the calendar rejects is returned as a string. */
  function DateValue(payload: string, cal: Calendar): (r: Value)
    ensures r.Date? || r == Str(payload)
  {
    var read := if Free(payload, 'T') then cal.dateOnly(payload)
                else cal.dateTime(ReplaceAll(payload, "Z", "+00:00"));
    match read
    case Some(t) => Date(t)
    case None => Str(payload)
  }

  /** The greedy `(.*)\)` of `parse_constructor` on `s[lo..hi]`: the text up to the last `)`
      in the range, or nothing when the range holds none (`GreedyPayloadIsLast` states it). */
  function GreedyPayload(s: string, lo: nat, hi: nat): Option<string>
    requires lo <= hi <= |s|
    decreases hi - lo
  {
    if hi == lo then None
    else if s[hi - 1] == ')' then Some(s[lo..hi - 1])
    else GreedyPayload(s, lo, hi - 1)
  }

  /** The payload `GreedyPayload` finds is followed by a `)` with none after it in the range;
      when it finds none, the range holds no `)`. */
  lemma {:induction false} GreedyPayloadIsLast(s: string, lo: nat, hi: nat)
    requires lo <= hi <= |s|
    ensures var r := GreedyPayload(s, lo, hi);
      r.Some? ==> lo + |r.value| < hi && s[lo..lo + |r.value|] == r.value && s[lo + |r.value|] == ')'
    ensures var r := GreedyPayload(s, lo, hi);
      r.Some? ==> forall j :: lo + |r.value| < j < hi ==> s[j] != ')'
    ensures GreedyPayload(s, lo, hi).None? ==> forall j :: lo <= j < hi ==> s[j] != ')'
    decreases hi - lo
  {
    if hi > lo && s[hi - 1] != ')' {
      GreedyPayloadIsLast(s, lo, hi - 1);
    }
  }

  /** The dispatch on the constructor name: `D`, `BN` (an optional `-` and digits, read as a
      Python `int`), `B` (hexadecimal in either case, an even number of digits), or an
      unknown name. What each name gives is stated by `ConstructorCases`. */
  function ConstructorOf(name: string, payload: string, cal: Calendar): Result<Value, PyError>
  {
    if name == "D" then Ok(DateValue(payload, cal))
    else if name == "BN" then
      match SignedDecimal(payload, false)
      case Some(n) => Ok(Int(n))
      case None => Err(InvalidBigInt(payload))
    else if name == "B" then
      match HexDecode(payload)
      case Some(bs) => Ok(Bytes(bs))
      case None => Err(InvalidHex(payload))
    else Err(UnknownConstructor(name))
  }

  /** What `parse_constructor` returns for each name: the calendar's reading of a date,
      the integer of a `BN` payload, the bytes of a `B` payload, and an error for a payload
      that does not read or an unknown name. */
  lemma ConstructorCases(name: string, payload: string, cal: Calendar)
    ensures var r := ConstructorOf(name, payload, cal);
      (name == "D" ==> r == Ok(DateValue(payload, cal))) &&
      (name == "BN" ==> (r.Ok? <==> SignedDecimal(payload, false).Some?)) &&
      (name == "BN" && r.Ok? ==> r == Ok(Int(SignedDecimal(payload, false).value))) &&
      (name == "BN" && r.Err? ==> r == Err(InvalidBigInt(payload))) &&
      (name == "B" ==> (r.Ok? <==> HexDecode(payload).Some?)) &&
      (name == "B" && r.Ok? ==> r == Ok(Bytes(HexDecode(payload).value))) &&
      (name == "B" && r.Err? ==> r == Err(InvalidHex(payload))) &&
      (name != "D" && name != "BN" && name != "B" ==> r == Err(UnknownConstructor(name)))
  {
  }

  /** `parse_constructor`: `re.match(r'([A-Za-z0-9_]+)\((.*)\)', full)`. The name is the
      identifier run at the start and must be followed by `(`; the payload runs from there
      to the last `)` before the first line feed (`.` does not match one). */
  function ConstructorValue(full: string, cal: Calendar): (r: Result<Value, PyError>)
    ensures IdentEnd(full, 0) == 0 || IdentEnd(full, 0) == |full| || full[IdentEnd(full, 0)] != '(' ==>
      r == Err(InvalidConstructor(full))
  {
    var n := IdentEnd(full, 0);
    if n == 0 || n == |full| || full[n] != '(' then Err(InvalidConstructor(full))
    else
      match GreedyPayload(full, n + 1, ByteEnd(full, n + 1, '\n'))
      case None => Err(InvalidConstructor(full))
      case Some(payload) => ConstructorOf(full[..n], payload, cal)
  }

  /** A constructor written as its name, `(`, a payload without line feeds and `)` is read
      as that name and payload, whatever `)` the payload holds. */
  lemma ConstructorRegex(name: string, payload: string, cal: Calendar)
    requires |name| > 0 && AllIdent(name) && Free(payload, '\n')
    ensures ConstructorValue(name + "(" + payload + ")", cal) == ConstructorOf(name, payload, cal)
  {
    var full := name + "(" + payload + ")";
    IdentEndAt(full, 0, name);
    var n := |name|;
    assert full[n] == '(';
    var m := ByteEnd(full, n + 1, '\n');
    assert m == |full| by {
      forall i | n + 1 <= i < |full| ensures full[i] != '\n' {
        if i < |full| - 1 { assert full[i] == payload[i - n - 1]; }
      }
    }
    assert full[..n] == name;
    assert full[n + 1..|full| - 1] == payload;
    assert GreedyPayload(full, n + 1, m) == Some(payload);
  }

  // ---------------------------------------------------------------- the token parser

  /** `parse_value` at token `i`: a container, a scalar token, or an error naming the
      token found. */
  function ValueAt(toks: seq<Token>, i: nat, cal: Calendar): (r: Step<Value, PyError>)
    requires WellEnded(toks) && i < |toks|
    ensures r.Done? ==> i < r.next < |toks|
    decreases |toks| - i, 1
  {
    var t := toks[i];
    match t.kind
    case BraceOpen =>
      (match ObjectAt(toks, i, cal)
       case Done(m, j) => Done(Object(m), j)
       case Fail(e) => Fail(e))
    case BracketOpen =>
      (match ArrayAt(toks, i, cal)
       case Done(a, j) => Done(Array(a), j)
       case Fail(e) => Fail(e))
    case StringTok => Done(Str(Inner(t.text)), i + 1)
    case NumberTok =>
      (match NumberValue(t.text)
       case Ok(v) => Done(v, i + 1)
       case Err(e) => Fail(e))
    case BoolT => Done(Bool(true), i + 1)
    case BoolF => Done(Bool(false), i + 1)
    case NullN => Done(Null, i + 1)
    case ConstructorTok =>
      (match ConstructorValue(t.text, cal)
       case Ok(v) => Done(v, i + 1)
       case Err(e) => Fail(e))
    case _ => Fail(UnexpectedToken(t))
  }

  /** `parse_object` at token `i`: `{`, then the members. */
  function ObjectAt(toks: seq<Token>, i: nat, cal: Calendar): (r: Step<map<string, Value>, PyError>)
    requires WellEnded(toks) && i < |toks|
    ensures r.Done? ==> i < r.next < |toks|
    decreases |toks| - i, 0
  {
    if toks[i].kind != BraceOpen then Fail(Expected(BraceOpen, toks[i].kind))
    else MembersAt(toks, i + 1, map[], cal)
  }

  /** The loop of `parse_object` at token `i`, with the members `obj` read so far: until `}`,
      a key (an identifier or a literal), no duplicate, `:`, a value, then `,` or `}`. */
  function MembersAt(toks: seq<Token>, i: nat, obj: map<string, Value>, cal: Calendar): (r: Step<map<string, Value>, PyError>)
    requires WellEnded(toks) && i < |toks|
    ensures r.Done? ==> i < r.next < |toks|
    decreases |toks| - i, 2
  {
    var t := toks[i];
    if t.kind == BraceClose then Done(obj, i + 1)
    else if !KeyKind(t.kind) then Fail(ExpectedKey(t.kind))
    else if t.text in obj then Fail(DuplicateKey(t.text))
    else if toks[i + 1].kind != Colon then Fail(Expected(Colon, toks[i + 1].kind))
    else
      match ValueAt(toks, i + 2, cal)
      case Fail(e) => Fail(e)
      case Done(v, j) =>
        if toks[j].kind == Comma then MembersAt(toks, j + 1, obj[t.text := v], cal)
        else if toks[j].kind != BraceClose then Fail(ExpectedCommaOrBrace(toks[j].kind))
        else MembersAt(toks, j, obj[t.text := v], cal)
  }

  /** A member of `parse_object` that fails before its value: a token that is no key, a key
      read before, or a missing `:`. */
  lemma MemberStops(toks: seq<Token>, i: nat, obj: map<string, Value>, cal: Calendar)
    requires WellEnded(toks) && i < |toks| && toks[i].kind != BraceClose
    ensures !KeyKind(toks[i].kind) ==> MembersAt(toks, i, obj, cal) == Fail(ExpectedKey(toks[i].kind))
    ensures KeyKind(toks[i].kind) && toks[i].text in obj ==> MembersAt(toks, i, obj, cal) == Fail(DuplicateKey(toks[i].text))
    ensures KeyKind(toks[i].kind) && toks[i].text !in obj && toks[i + 1].kind != Colon ==>
      MembersAt(toks, i, obj, cal) == Fail(Expected(Colon, toks[i + 1].kind))
  {
  }

  /** A member whose value fails. */
  lemma ValueStops(toks: seq<Token>, i: nat, obj: map<string, Value>, e: PyError, cal: Calendar)
    requires WellEnded(toks) && i + 2 < |toks|
    requires KeyKind(toks[i].kind) && toks[i].text !in obj && toks[i + 1].kind == Colon
    requires ValueAt(toks, i + 2, cal) == Fail(e)
    ensures MembersAt(toks, i, obj, cal) == Fail(e)
  {
    assert toks[i].kind != BraceClose;
  }

  /** One member of `parse_object` read and followed by `,` or `}`: the loop goes on at `k`. */
  lemma MemberNext(toks: seq<Token>, i: nat, obj: map<string, Value>, v: Value, j: nat, k: nat, cal: Calendar)
    requires WellEnded(toks) && i + 2 < |toks|
    requires KeyKind(toks[i].kind) && toks[i].text !in obj && toks[i + 1].kind == Colon
    requires ValueAt(toks, i + 2, cal) == Done(v, j)
    requires (toks[j].kind == Comma && k == j + 1) || (toks[j].kind == BraceClose && k == j)
    ensures k < |toks| && MembersAt(toks, i, obj, cal) == MembersAt(toks, k, obj[toks[i].text := v], cal)
  {
    assert toks[i].kind != BraceClose;
  }

  /** One member of `parse_object` read and followed by neither `,` nor `}`: the loop fails. */
  lemma MemberFail(toks: seq<Token>, i: nat, obj: map<string, Value>, v: Value, j: nat, cal: Calendar)
    requires WellEnded(toks) && i + 2 < |toks|
    requires KeyKind(toks[i].kind) && toks[i].text !in obj && toks[i + 1].kind == Colon
    requires ValueAt(toks, i + 2, cal) == Done(v, j)
    requires toks[j].kind != Comma && toks[j].kind != BraceClose
    ensures MembersAt(toks, i, obj, cal) == Fail(ExpectedCommaOrBrace(toks[j].kind))
  {
    assert toks[i].kind != BraceClose;
  }

  /** `parse_array` at token `i`: `[`, then the elements. */
  function ArrayAt(toks: seq<Token>, i: nat, cal: Calendar): (r: Step<seq<Value>, PyError>)
    requires WellEnded(toks) && i < |toks|
    ensures r.Done? ==> i < r.next < |toks|
    decreases |toks| - i, 0
  {
    if toks[i].kind != BracketOpen then Fail(Expected(BracketOpen, toks[i].kind))
    else ElemsAt(toks, i + 1, [], cal)
  }

  /** The loop of `parse_array` at token `i`, with the elements `arr` read so far. */
  function ElemsAt(toks: seq<Token>, i: nat, arr: seq<Value>, cal: Calendar): (r: Step<seq<Value>, PyError>)
    requires WellEnded(toks) && i < |toks|
    ensures r.Done? ==> i < r.next < |toks|
    decreases |toks| - i, 2
  {
    if toks[i].kind == BracketClose then Done(arr, i + 1)
    else
      match ValueAt(toks, i, cal)
      case Fail(e) => Fail(e)
      case Done(v, j) =>
        if toks[j].kind == Comma then ElemsAt(toks, j + 1, arr + [v], cal)
        else if toks[j].kind != BracketClose then Fail(ExpectedCommaOrBracket(toks[j].kind))
        else ElemsAt(toks, j, arr + [v], cal)
  }

  /** `parse` from token `i`: the root object, then nothing but `EOF`. */
  function DocumentAt(toks: seq<Token>, i: nat, cal: Calendar): (r: Result<map<string, Value>, PyError>)
    requires WellEnded(toks) && i < |toks|
  {
    match ObjectAt(toks, i, cal)
    case Fail(e) => Err(e)
    case Done(m, j) => if toks[j].kind != EOF then Err(TrailingData(toks[j].kind)) else Ok(m)
  }

  /** `load`: the lexer's tokens, parsed from the first. */
  function Loaded(text: string, fixed: bool, cal: Calendar): (r: Result<map<string, Value>, PyError>)
  {
    match TokensFrom(text, 0, fixed)
    case Err(e) => Err(e)
    case Ok(toks) => DocumentAt(toks, 0, cal)
  }

  /** `DTXTParser`: the token list and the index of the next token. */
  class Parser {
    const tokens: seq<Token>
    const cal: Calendar
    var pos: nat

    /** The index stays on the list, whose last token is `EOF`. */
    predicate Valid()
      reads this
    {
      WellEnded(tokens) && pos < |tokens|
    }

    /** `DTXTParser.__init__`. The date calls of `parse_constructor` go to `cal`. */
    constructor(tokens: seq<Token>, cal: Calendar)
      requires WellEnded(tokens)
      ensures this.tokens == tokens && this.cal == cal && pos == 0 && Valid()
    {
      this.tokens := tokens;
      this.cal := cal;
      pos := 0;
    }

    /** `peek`: the token at the index. */
    function Peek(): (r: Token)
      reads this
      requires Valid()
      ensures r == tokens[pos] && (r.kind == EOF <==> pos == |tokens| - 1)
    {
      tokens[pos]
    }

    /** `consume`: with an expected kind, fail unless the token has it; otherwise step past
        the token and return its text. The parser never consumes `EOF` unchecked. */
    method Consume(expected: Option<Kind>) returns (r: Result<string, PyError>)
      requires Valid() && (expected.None? ==> tokens[pos].kind != EOF) && expected != Some(EOF)
      modifies this
      ensures Valid()
      ensures expected.Some? && old(tokens[pos]).kind != expected.value ==>
        r == Err(Expected(expected.value, old(tokens[pos]).kind)) && pos == old(pos)
      ensures expected.None? || old(tokens[pos]).kind == expected.value ==>
        r == Ok(old(tokens[pos]).text) && pos == old(pos) + 1
    {
      var t := tokens[pos];
      if expected.Some? && t.kind != expected.value {
        return Err(Expected(expected.value, t.kind));
      }
      pos := pos + 1;
      return Ok(t.text);
    }

    /** `parse`. */
    method Parse() returns (r: Result<map<string, Value>, PyError>)
      requires Valid()
      modifies this
      ensures Valid()
      ensures r == DocumentAt(tokens, old(pos), cal)
    {
      var result := ParseObject();
      if result.Err? {
        return Err(result.error);
      }
      if Peek().kind != EOF {
        return Err(TrailingData(Peek().kind));
      }
      return result;
    }

    /** `parse_value`. */
    method ParseValue() returns (r: Result<Value, PyError>)
      requires Valid()
      modifies this
      ensures Valid()
      ensures Outcome(ValueAt(tokens, old(pos), cal), r, pos)
      decreases |tokens| - pos, 1
    {
      var t := Peek();
      match t.kind
      case BraceOpen =>
        var m := ParseObject();
        if m.Err? { return Err(m.error); }
        return Ok(Object(m.value));
      case BracketOpen =>
        var a := ParseArray();
        if a.Err? { return Err(a.error); }
        return Ok(Array(a.value));
      case StringTok =>
        var _ := Consume(None);
        return Ok(Str(Inner(t.text)));
      case NumberTok =>
        var _ := Consume(None);
        return NumberValue(t.text);
      case BoolT =>
        var _ := Consume(None);
        return Ok(Bool(true));
      case BoolF =>
        var _ := Consume(None);
        return Ok(Bool(false));
      case NullN =>
        var _ := Consume(None);
        return Ok(Null);
      case ConstructorTok =>
        var _ := Consume(None);
        return ConstructorValue(t.text, cal);
      case _ =>
        return Err(UnexpectedToken(t));
    }

    /** `parse_object`. */
    method ParseObject() returns (r: Result<map<string, Value>, PyError>)
      requires Valid()
      modifies this
      ensures Valid()
      ensures Outcome(ObjectAt(tokens, old(pos), cal), r, pos)
      decreases |tokens| - pos, 0
    {
      ghost var start := pos;
      var open := Consume(Some(BraceOpen));
      if open.Err? {
        return Err(open.error);
      }
      var obj := map[];
      ghost var goal := ObjectAt(tokens, start, cal);
      while Peek().kind != BraceClose
        invariant Valid() && start < pos
        invariant MembersAt(tokens, pos, obj, cal) == goal
        decreases |tokens| - pos
      {
        var t := Peek();
        ghost var i := pos;
        if !KeyKind(t.kind) {
          MemberStops(tokens, i, obj, cal);
          return Err(ExpectedKey(t.kind));
        }
        var key := Consume(None);
        assert pos == i + 1 && key.value == tokens[i].text;
        if key.value in obj {
          MemberStops(tokens, i, obj, cal);
          return Err(DuplicateKey(key.value));
        }
        var colon := Consume(Some(Colon));
        if colon.Err? {
          MemberStops(tokens, i, obj, cal);
          return Err(colon.error);
        }
        assert pos == i + 2 && tokens[i + 1].kind == Colon;
        var value := ParseValue();
        if value.Err? {
          ValueStops(tokens, i, obj, value.error, cal);
          return Err(value.error);
        }
        ghost var j := pos;
        ghost var prev := obj;
        assert ValueAt(tokens, i + 2, cal) == Done(value.value, j);
        obj := obj[key.value := value.value];
        if Peek().kind == Comma {
          var _ := Consume(Some(Comma));
        } else if Peek().kind != BraceClose {
          MemberFail(tokens, i, prev, value.value, j, cal);
          return Err(ExpectedCommaOrBrace(Peek().kind));
        }
        MemberNext(tokens, i, prev, value.value, j, pos, cal);
      }
      var _ := Consume(Some(BraceClose));
      return Ok(obj);
    }

    /** `parse_array`. */
    method ParseArray() returns (r: Result<seq<Value>, PyError>)
      requires Valid()
      modifies this
      ensures Valid()
      ensures Outcome(ArrayAt(tokens, old(pos), cal), r, pos)
      decreases |tokens| - pos, 0
    {
      ghost var start := pos;
      var open := Consume(Some(BracketOpen));
      if open.Err? {
        return Err(open.error);
      }
      var arr := [];
      ghost var goal := ArrayAt(tokens, start, cal);
      while Peek().kind != BracketClose
        invariant Valid() && start < pos
        invariant ElemsAt(tokens, pos, arr, cal) == goal
        decreases |tokens| - pos
      {
        var value := ParseValue();
        if value.Err? {
          return Err(value.error);
        }
        arr := arr + [value.value];
        if Peek().kind == Comma {
          var _ := Consume(Some(Comma));
        } else if Peek().kind != BracketClose {
          return Err(ExpectedCommaOrBracket(Peek().kind));
        }
      }
      var _ := Consume(Some(BracketClose));
      return Ok(arr);
    }
  }

  /** `load` (and `loads`, which calls it): lex, then parse the tokens. */
  method Load(text: string, fixed: bool, cal: Calendar) returns (r: Result<map<string, Value>, PyError>)
    ensures r == Loaded(text, fixed, cal)
  {
    var tokens := Tokenize(text, fixed);
    if tokens.Err? {
      return Err(tokens.error);
    }
    var parser := new Parser(tokens.value, cal);
    r := parser.Parse();
  }
}
