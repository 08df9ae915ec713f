/** The Go port's parser (`ref-impl/go/dtxt/dtxt.go`): a cursor `pos` over the input bytes,
    read through `current()`, which yields the byte 0 once the cursor is past the end.

    As for the Rust port, the first half of the module states what each `parse*` method
    computes as a function of the input and the cursor position (`Step`), and the class
    `Parser` holds the methods, each proved to agree with its function. The two parsers
    scan alike; they differ in their errors, in the end-of-input cases (Go reads the byte 0
    there and goes on), in the constructors and in how numbers are read.

    The standard library calls that are not plain text handling are parameters
    (`Library`): `time.Parse` with the RFC 3339 layout, and the range check of
    `strconv.ParseFloat`. */
module DtxtParser {
  import opened Values
  import opened Text
  import opened Codec
  import opened Cursor

  /** The errors the parser returns, one per `fmt.Errorf` (and the `strconv` error). */
  datatype DtxtError =
    | UnexpectedChar(pos: nat, ch: char)
    | ExpectedColon(pos: nat)
    | ExpectedParen(pos: nat)
    | InvalidNumber(text: string)
    | InvalidBN(payload: string)
    | InvalidHex(payload: string)
    | UnknownConstructor(name: string)
    | TrailingData(pos: nat)

  // The library calls of this parser: `lib.cal.dateTime` is `time.Parse(time.RFC3339, ..)`,
  // giving the instant's `RFC3339Nano` text; `lib.finite` is the range check of
  // `strconv.ParseFloat`.

  /** `current()`: the byte under the cursor, or 0 once the cursor is past the end. */
  function Current(s: string, p: nat): char
  {
    if p < |s| then s[p] else '\0'
  }

  // ---------------------------------------------------------------- constructor payloads

  /** The value a constructor `name(payload)` denotes: `D` is an instant when the payload is
      an RFC 3339 date-time and the payload text otherwise; `BN` is `big.Int.SetString` in
      base 10; `B` is `hex.DecodeString`. */
  function Convert(name: string, payload: string, lib: Library): (r: Result<Value, DtxtError>)
    ensures r.Ok? ==>
      (name == "D" && (r.value.Date? || r.value == Str(payload))) ||
      (name == "BN" && r.value.BigInt? && SignedDecimal(payload, true) == Some(r.value.n)) ||
      (name == "B" && r.value.Bytes? && HexDecode(payload) == Some(r.value.bytes))
    ensures name == "D" ==> r.Ok? && (r.value.Date? <==> lib.cal.dateTime(payload).Some?)
    ensures name != "D" && name != "BN" && name != "B" ==> r == Err(UnknownConstructor(name))
  {
    if name == "D" then
      match lib.cal.dateTime(payload)
      case Some(t) => Ok(Date(t))
      case None => Ok(Str(payload))
    else if name == "BN" then
      match SignedDecimal(payload, true)
      case Some(n) => Ok(BigInt(n))
      case None => Err(InvalidBN(payload))
    else if name == "B" then
      match HexDecode(payload)
      case Some(bs) => Ok(Bytes(bs))
      case None => Err(InvalidHex(payload))
    else Err(UnknownConstructor(name))
  }

  // ---------------------------------------------------------------- the grammar as functions

  /** `parseNumber`: the scanned lexeme, if `strconv.ParseFloat` accepts it. */
  function NumberAt(s: string, p: nat, lib: Library): (r: Step<Value, DtxtError>)
    requires p <= |s|
    ensures r.Done? <==> ScannedFloatOk(s, p) && lib.finite(s[p..NumberEnd(s, p)])
    ensures r.Done? ==> r == Done(Number(s[p..NumberEnd(s, p)]), NumberEnd(s, p))
    ensures r.Fail? ==> r.error == InvalidNumber(s[p..NumberEnd(s, p)])
  {
    var q := NumberEnd(s, p);
    if ScannedFloatOk(s, p) && lib.finite(s[p..q]) then Done(Number(s[p..q]), q)
    else Fail(InvalidNumber(s[p..q]))
  }

  /** `parseConstructor`: a name, `(`, a payload up to the first `)` or the end of the
      input, and the cursor stepped over the `)` (even when the input ended first). */
  function ConstructorAt(s: string, p: nat, lib: Library): (r: Step<Value, DtxtError>)
    requires p <= |s|
    ensures r.Done? ==> p < r.next <= |s| + 1
    ensures r.Done? ==> r.value.Date? || r.value.BigInt? || r.value.Bytes? || (r.value.Str? && Current(s, p) == 'D')
  {
    var n := IdentEnd(s, p);
    if Current(s, n) != '(' then Fail(ExpectedParen(n))
    else
      var q := ByteEnd(s, n + 1, ')');
      match Convert(s[p..n], s[n + 1..q], lib)
      case Ok(v) => Done(v, q + 1)
      case Err(e) => Fail(e)
  }

  /** Where the name ends at `n` before a `(` and the payload ends at `q`, the constructor
      gives what `Convert` makes of them, with the cursor after the `)`. */
  lemma ConstructorScanned(s: string, p: nat, n: nat, q: nat, lib: Library, r: Result<Value, DtxtError>)
    requires p <= n < |s| && n == IdentEnd(s, p) && s[n] == '(' && q == ByteEnd(s, n + 1, ')')
    requires r == Convert(s[p..n], s[n + 1..q], lib)
    ensures Outcome(ConstructorAt(s, p, lib), r, q + 1)
  {
  }

  /** `parseValue`: skip blanks and comments, then dispatch on `current()`. */
  function ValueAt(s: string, p: nat, lib: Library): (r: Step<Value, DtxtError>)
    requires p <= |s| + 1
    ensures r.Done? ==> p < r.next <= |s| + 1
    decreases |s| + 1 - p, 2
  {
    DispatchAt(s, SkipWs(s, p), lib)
  }

  /** The `switch` of `parseValue`. At the end of the input `current()` is 0, which no case
      matches. */
  function DispatchAt(s: string, q: nat, lib: Library): (r: Step<Value, DtxtError>)
    requires q <= |s| + 1
    ensures r.Done? ==> q < r.next <= |s| + 1
    ensures q >= |s| ==> r == Fail(UnexpectedChar(q, '\0'))
    ensures r.Done? ==> q < |s| && !r.value.Int?
    ensures r.Done? ==> (r.value.Object? <==> s[q] == '{') && (r.value.Array? <==> s[q] == '[')
    ensures r.Done? ==> (r.value.Number? <==> s[q] == '-' || IsDigit(s[q])) && (r.value.Str? ==> s[q] == '`' || s[q] == 'D')
    ensures q < |s| && !(s[q] in "{[`-_" || IsDigit(s[q]) || IsAsciiLetter(s[q])) ==> r == Fail(UnexpectedChar(q, s[q]))
    decreases |s| + 1 - q, 1
  {
    var c := Current(s, q);
    if c == '{' then
      match ObjectAt(s, q, lib)
      case Done(m, n) => Done(Object(m), n)
      case Fail(e) => Fail(e)
    else if c == '[' then
      match ArrayAt(s, q, lib)
      case Done(a, n) => Done(Array(a), n)
      case Fail(e) => Fail(e)
    else if c == '`' then
      match StringAt<DtxtError>(s, q)
      case Done(t, n) => Done(Str(t), n)
    else if c == '-' || IsDigit(c) then NumberAt(s, q, lib)
    else if (c == 'T' || c == 'F' || c == 'N') && !(q + 1 < |s| && s[q + 1] == '(') then
      Done(if c == 'T' then Bool(true) else if c == 'F' then Bool(false) else Null, q + 1)
    else if IsAsciiLetter(c) || c == '_' then ConstructorAt(s, q, lib)
    else Fail(UnexpectedChar(q, c))
  }

  /** `parseObject`: step over the opening byte (which is not checked), then the members. */
  function ObjectAt(s: string, p: nat, lib: Library): (r: Step<map<string, Value>, DtxtError>)
    requires p <= |s|
    ensures r.Done? ==> p < r.next <= |s|
    decreases |s| + 1 - p, 0
  {
    MembersAt(s, SkipWs(s, p + 1), map[], lib)
  }

  /** The member loop of `parseObject` from the head of the loop, with the members read so
      far in `acc`. The loop ends at `}`; a repeated key replaces the earlier value. */
  function MembersAt(s: string, p: nat, acc: map<string, Value>, lib: Library): (r: Step<map<string, Value>, DtxtError>)
    requires p <= |s| + 1
    ensures r.Done? ==> p < r.next <= |s|
    decreases |s| + 1 - p, 1
  {
    if Current(s, p) == '}' then Done(acc, p + 1)
    else match MemberAt(s, p, lib)
      case Fail(e) => Fail(e)
      case Done(kv, n) => MembersAt(s, AfterComma(s, n), acc[kv.0 := kv.1], lib)
  }

  lemma MembersAtStep(s: string, p: nat, acc: map<string, Value>, kv: (string, Value), n: nat, lib: Library)
    requires p <= |s| + 1 && Current(s, p) != '}' && MemberAt(s, p, lib) == Done(kv, n)
    ensures n <= |s| + 1
    ensures MembersAt(s, p, acc, lib) == MembersAt(s, AfterComma(s, n), acc[kv.0 := kv.1], lib)
  {
  }

  lemma MembersAtFail(s: string, p: nat, acc: map<string, Value>, e: DtxtError, lib: Library)
    requires p <= |s| + 1 && Current(s, p) != '}' && MemberAt(s, p, lib) == Fail(e)
    ensures MembersAt(s, p, acc, lib) == Fail(e)
  {
  }

  /** One pass of the member loop body up to the value: the key (the identifier run,
      possibly empty), blanks, `:`, and a value. A cursor past the end reads no key and
      then fails the `:` check. */
  function MemberAt(s: string, p: nat, lib: Library): (r: Step<(string, Value), DtxtError>)
    requires p <= |s| + 1
    ensures r.Done? ==> p < r.next <= |s| + 1
    decreases |s| + 1 - p, 0
  {
    if p > |s| then Fail(ExpectedColon(p))
    else
      var k := IdentEnd(s, p);
      var c := SkipWs(s, k);
      if Current(s, c) != ':' then Fail(ExpectedColon(c))
      else match ValueAt(s, c + 1, lib)
        case Fail(e) => Fail(e)
        case Done(v, n) => Done((s[p..k], v), n)
  }

  /** `parseArray`: step over the opening byte, then the elements. */
  function ArrayAt(s: string, p: nat, lib: Library): (r: Step<seq<Value>, DtxtError>)
    requires p <= |s|
    ensures r.Done? ==> p < r.next <= |s|
    decreases |s| + 1 - p, 0
  {
    ElemsAt(s, SkipWs(s, p + 1), [], lib)
  }

  /** The element loop of `parseArray`, with the elements read so far in `acc`. */
  function ElemsAt(s: string, p: nat, acc: seq<Value>, lib: Library): (r: Step<seq<Value>, DtxtError>)
    requires p <= |s| + 1
    ensures r.Done? ==> p < r.next <= |s|
    decreases |s| + 1 - p, 3
  {
    if Current(s, p) == ']' then Done(acc, p + 1)
    else match ValueAt(s, p, lib)
      case Fail(e) => Fail(e)
      case Done(v, n) => ElemsAt(s, AfterComma(s, n), acc + [v], lib)
  }

  lemma ElemsAtStep(s: string, p: nat, acc: seq<Value>, v: Value, n: nat, lib: Library)
    requires p <= |s| + 1 && Current(s, p) != ']' && ValueAt(s, p, lib) == Done(v, n)
    ensures n <= |s| + 1
    ensures ElemsAt(s, p, acc, lib) == ElemsAt(s, AfterComma(s, n), acc + [v], lib)
  {
  }

  lemma ElemsAtFail(s: string, p: nat, acc: seq<Value>, e: DtxtError, lib: Library)
    requires p <= |s| + 1 && Current(s, p) != ']' && ValueAt(s, p, lib) == Fail(e)
    ensures ElemsAt(s, p, acc, lib) == Fail(e)
  {
  }

  /** `Parser.Parse` from cursor `p`: the root object, then nothing but blanks and
      comments. */
  function ParseFrom(s: string, p: nat, lib: Library): (r: Result<map<string, Value>, DtxtError>)
    requires p <= |s|
  {
    match ObjectAt(s, SkipWs(s, p), lib)
    case Fail(e) => Err(e)
    case Done(m, q) =>
      var t := SkipWs(s, q);
      if t < |s| then Err(TrailingData(t)) else Ok(m)
  }

  /** The package-level `Parse`: a fresh parser over the whole input. */
  function Parse(s: string, lib: Library): Result<map<string, Value>, DtxtError>
  {
    ParseFrom(s, 0, lib)
  }

  /** `Parse` steps over the root's opening byte without looking at it, so a document whose
      root is written as `[` ... `}` is read as an object. */
  lemma RootOpenerUnchecked(lib: Library)
    requires lib.finite("1")
    ensures Parse("[a:1}", lib) == Ok(map["a" := Number("1")])
  {
    var s := "[a:1}";
    assert SkipWs(s, 0) == 0 && SkipWs(s, 1) == 1 && IdentEnd(s, 1) == 2 && SkipWs(s, 2) == 2;
    assert SkipWs(s, 3) == 3 && NumberEnd(s, 3) == 4 && ScannedFloatOk(s, 3);
    assert s[3..4] == "1" && s[1..2] == "a";
    assert NumberAt(s, 3, lib) == Done(Number("1"), 4);
    assert DispatchAt(s, 3, lib) == Done(Number("1"), 4);
    assert MemberAt(s, 1, lib) == Done(("a", Number("1")), 4);
    assert AfterComma(s, 4) == 4 && SkipWs(s, 5) == 5;
  }

  /** `Parse` with the root-object rule enforced: the first byte after blanks and comments
      must be `{`, and otherwise the error is the one `parseValue` reports for an
      unexpected byte. */
  function ParseChecked(s: string, lib: Library): (r: Result<map<string, Value>, DtxtError>)
    ensures r.Ok? ==> SkipWs(s, 0) < |s| && s[SkipWs(s, 0)] == '{'
    ensures SkipWs(s, 0) < |s| && s[SkipWs(s, 0)] == '{' ==> r == Parse(s, lib)
  {
    var q := SkipWs(s, 0);
    if Current(s, q) != '{' then Err(UnexpectedChar(q, Current(s, q))) else Parse(s, lib)
  }

  // ---------------------------------------------------------------- the parser object

  /** `Parser`: the input and the cursor, with the library the parser calls. */
  class Parser {
    const input: string
    const lib: Library
    var pos: nat

    /** `NewParser`. */
    constructor (text: string, library: Library)
      ensures input == text && lib == library && pos == 0
    {
      input := text;
      lib := library;
      pos := 0;
    }

    method Advance()
      modifies this
      ensures pos == old(pos) + 1
    {
      pos := pos + 1;
    }

    /** `skipWhitespace`. */
    method SkipWhitespace()
      modifies this
      ensures pos == SkipWs(input, old(pos))
    {
      while pos < |input|
        invariant old(pos) <= pos
        invariant SkipWs(input, pos) == SkipWs(input, old(pos))
        decreases |input| - pos
      {
        var ch := Current(input, pos);
        if IsBlank(ch) {
          Advance();
        } else if ch == '/' {
          if pos + 1 < |input| && input[pos + 1] == '/' {
            pos := pos + 2;
            SkipTo('\n');
          } else {
            return;
          }
        } else {
          return;
        }
      }
    }

    /** `Parse`. */
    method Parse() returns (r: Result<map<string, Value>, DtxtError>)
      requires pos <= |input|
      modifies this
      ensures r == ParseFrom(input, old(pos), lib)
    {
      SkipWhitespace();
      var result := ParseObject();
      if result.Err? {
        return Err(result.error);
      }
      SkipWhitespace();
      if pos < |input| {
        return Err(TrailingData(pos));
      }
      return Ok(result.value);
    }

    /** `parseValue`. */
    method ParseValue() returns (r: Result<Value, DtxtError>)
      requires pos <= |input| + 1
      modifies this
      ensures Outcome(ValueAt(input, old(pos), lib), r, pos)
      decreases |input| + 1 - pos, 1
    {
      SkipWhitespace();
      assert ValueAt(input, old(pos), lib) == DispatchAt(input, pos, lib);
      var ch := Current(input, pos);
      if ch == '{' {
        var m := ParseObject();
        if m.Err? { return Err(m.error); }
        return Ok(Object(m.value));
      } else if ch == '[' {
        var a := ParseArray();
        if a.Err? { return Err(a.error); }
        return Ok(Array(a.value));
      } else if ch == '`' {
        var t := ParseString();
        return Ok(Str(t));
      } else if ch == '-' || IsDigit(ch) {
        r := ParseNumber();
      } else if ch == 'T' {
        if pos + 1 < |input| && input[pos + 1] == '(' {
          r := ParseConstructor();
          return;
        }
        Advance();
        return Ok(Bool(true));
      } else if ch == 'F' {
        if pos + 1 < |input| && input[pos + 1] == '(' {
          r := ParseConstructor();
          return;
        }
        Advance();
        return Ok(Bool(false));
      } else if ch == 'N' {
        if pos + 1 < |input| && input[pos + 1] == '(' {
          r := ParseConstructor();
          return;
        }
        Advance();
        return Ok(Null);
      } else if IsAsciiLetter(ch) || ch == '_' {
        r := ParseConstructor();
      } else {
        return Err(UnexpectedChar(pos, ch));
      }
    }

    /** `parseObject`. */
    method ParseObject() returns (r: Result<map<string, Value>, DtxtError>)
      requires pos <= |input|
      modifies this
      ensures Outcome(ObjectAt(input, old(pos), lib), r, pos)
      decreases |input| + 1 - pos, 0
    {
      Advance(); // skip '{'
      var obj: map<string, Value> := map[];
      SkipWhitespace();
      while Current(input, pos) != '}'
        invariant old(pos) < pos <= |input| + 1
        invariant MembersAt(input, pos, obj, lib) == ObjectAt(input, old(pos), lib)
        decreases |input| + 1 - pos
      {
        var member := ParseMember(obj);
        if member.Err? {
          return Err(member.error);
        }
        obj := obj[member.value.0 := member.value.1];
      }
      Advance(); // skip '}'
      return Ok(obj);
    }

    /** One pass of the member loop of `parseObject`: `parseKey`, `skipWhitespace`, the
        `:` check, `parseValue`, then blanks and comments, at most one comma, blanks and
        comments. */
    method ParseMember(ghost acc: map<string, Value>) returns (r: Result<(string, Value), DtxtError>)
      requires pos <= |input| + 1 && Current(input, pos) != '}'
      modifies this
      ensures r.Err? ==> MembersAt(input, old(pos), acc, lib) == Fail(r.error)
      ensures r.Ok? ==> old(pos) < pos <= |input| + 1
      ensures r.Ok? ==> MembersAt(input, old(pos), acc, lib) == MembersAt(input, pos, acc[r.value.0 := r.value.1], lib)
      decreases |input| + 1 - pos, 2
    {
      ghost var p0 := pos;
      r := ParseKeyValue();
      if r.Err? {
        MembersAtFail(input, p0, acc, r.error, lib);
        return;
      }
      MembersAtStep(input, p0, acc, r.value, pos, lib);
      SkipComma();
    }

    /** The key, `:` and value of one member. */
    method ParseKeyValue() returns (r: Result<(string, Value), DtxtError>)
      requires pos <= |input| + 1
      modifies this
      ensures Outcome(MemberAt(input, old(pos), lib), r, pos)
      decreases |input| + 1 - pos, 0
    {
      var key := ParseKey();
      SkipWhitespace();
      if Current(input, pos) != ':' {
        return Err(ExpectedColon(pos));
      }
      Advance();
      var value := ParseValue();
      if value.Err? {
        return Err(value.error);
      }
      return Ok((key, value.value));
    }

    /** `parseArray`. */
    method ParseArray() returns (r: Result<seq<Value>, DtxtError>)
      requires pos <= |input|
      modifies this
      ensures Outcome(ArrayAt(input, old(pos), lib), r, pos)
      decreases |input| + 1 - pos, 0
    {
      Advance(); // skip '['
      var arr: seq<Value> := [];
      SkipWhitespace();
      while Current(input, pos) != ']'
        invariant old(pos) < pos <= |input| + 1
        invariant ElemsAt(input, pos, arr, lib) == ArrayAt(input, old(pos), lib)
        decreases |input| + 1 - pos
      {
        var value := ParseElement(arr);
        if value.Err? {
          return Err(value.error);
        }
        arr := arr + [value.value];
      }
      Advance(); // skip ']'
      return Ok(arr);
    }

    /** One pass of the element loop of `parseArray`: a value, then blanks and comments, at
        most one comma, blanks and comments. */
    method ParseElement(ghost acc: seq<Value>) returns (r: Result<Value, DtxtError>)
      requires pos <= |input| + 1 && Current(input, pos) != ']'
      modifies this
      ensures r.Err? ==> ElemsAt(input, old(pos), acc, lib) == Fail(r.error)
      ensures r.Ok? ==> old(pos) < pos <= |input| + 1
      ensures r.Ok? ==> ElemsAt(input, old(pos), acc, lib) == ElemsAt(input, pos, acc + [r.value], lib)
      decreases |input| + 1 - pos, 2
    {
      ghost var p0 := pos;
      r := ParseValue();
      if r.Err? {
        ElemsAtFail(input, p0, acc, r.error, lib);
        return;
      }
      ElemsAtStep(input, p0, acc, r.value, pos, lib);
      SkipComma();
    }

    /** The end of a pass of the member and element loops. */
    method SkipComma()
      modifies this
      ensures pos == AfterComma(input, old(pos))
    {
      SkipWhitespace();
      if Current(input, pos) == ',' {
        Advance();
        SkipWhitespace();
      }
    }

    /** `parseKey`: the maximal run of ASCII letters, digits and `_`, possibly empty. With
        the cursor past the end the loop does not run and the key is empty. */
    method ParseKey() returns (r: string)
      modifies this
      ensures old(pos) <= |input| ==> pos == IdentEnd(input, old(pos)) && r == input[old(pos)..pos]
      ensures old(pos) > |input| ==> pos == old(pos) && r == ""
    {
      var start := pos;
      if pos > |input| {
        return "";
      }
      SkipIdent();
      return input[start..pos];
    }

    /** `parseString`, at an opening backtick. */
    method ParseString() returns (r: string)
      requires pos < |input|
      modifies this
      ensures Outcome(StringAt<DtxtError>(input, old(pos)), Ok(r), pos)
    {
      Advance(); // skip opening '`'
      var start := pos;
      SkipTo('`');
      r := input[start..pos];
      Advance(); // skip closing '`'
    }

    /** Advances over the decimal digits under the cursor. */
    method SkipDigits()
      requires pos <= |input|
      modifies this
      ensures pos == DigitsEnd(input, old(pos))
    {
      while pos < |input| && IsDigit(Current(input, pos))
        invariant old(pos) <= pos <= |input|
        invariant DigitsEnd(input, pos) == DigitsEnd(input, old(pos))
        decreases |input| - pos
      {
        Advance();
      }
    }

    /** `parseNumber`: scan the lexeme stage by stage, then `strconv.ParseFloat`. */
    method ParseNumber() returns (r: Result<Value, DtxtError>)
      requires pos <= |input|
      modifies this
      ensures Outcome(NumberAt(input, old(pos), lib), r, pos)
    {
      var start := pos;
      // Optional negative sign
      if Current(input, pos) == '-' {
        Advance();
      }
      ScanInt();
      ScanFrac();
      ScanExp();
      var lexeme := input[start..pos];
      if ScannedFloatOk(input, start) && lib.finite(lexeme) {
        return Ok(Number(lexeme));
      }
      return Err(InvalidNumber(lexeme));
    }

    /** The integer part of `parseNumber`. */
    method ScanInt()
      requires pos <= |input|
      modifies this
      ensures pos == AfterInt(input, old(pos))
    {
      if Current(input, pos) == '0' {
        Advance();
      } else if '1' <= Current(input, pos) <= '9' {
        SkipDigits();
      }
    }

    /** The decimal part of `parseNumber`. */
    method ScanFrac()
      requires pos <= |input|
      modifies this
      ensures pos == AfterFrac(input, old(pos))
    {
      if Current(input, pos) == '.' {
        Advance();
        SkipDigits();
      }
    }

    /** The exponent of `parseNumber`. */
    method ScanExp()
      requires pos <= |input|
      modifies this
      ensures pos == AfterExp(input, old(pos))
    {
      if Current(input, pos) == 'e' || Current(input, pos) == 'E' {
        Advance();
        if Current(input, pos) == '+' || Current(input, pos) == '-' {
          Advance();
        }
        SkipDigits();
      }
    }

    /** `parseConstructor`. */
    method ParseConstructor() returns (r: Result<Value, DtxtError>)
      requires pos <= |input|
      modifies this
      ensures Outcome(ConstructorAt(input, old(pos), lib), r, pos)
    {
      var start := pos;
      SkipIdent();
      var typeName := input[start..pos];
      if Current(input, pos) != '(' {
        return Err(ExpectedParen(pos));
      }
      ghost var n := pos;
      Advance();
      var payloadStart := pos;
      SkipTo(')');
      var payload := input[payloadStart..pos];
      r := Construct(typeName, payload);
      ConstructorScanned(input, start, n, pos, lib, r);
      Advance(); // skip ')'
    }

    /** The name loop of `parseConstructor` (and of `parseKey`): over identifier bytes. */
    method SkipIdent()
      requires pos <= |input|
      modifies this
      ensures pos == IdentEnd(input, old(pos))
    {
      while pos < |input| && IsIdentChar(Current(input, pos))
        invariant old(pos) <= pos <= |input|
        invariant IdentEnd(input, pos) == IdentEnd(input, old(pos))
        decreases |input| - pos
      {
        Advance();
      }
    }

    /** The loops of `parseString`, of `parseConstructor`'s payload and of a comment in
        `skipWhitespace`: up to the next `c` or the end of the input. The comment loop
        stops at its line feed, which the outer loop then skips as a blank. */
    method SkipTo(c: char)
      requires pos <= |input|
      modifies this
      ensures pos == ByteEnd(input, old(pos), c)
    {
      while pos < |input| && Current(input, pos) != c
        invariant old(pos) <= pos <= |input|
        invariant ByteEnd(input, pos, c) == ByteEnd(input, old(pos), c)
        decreases |input| - pos
      {
        Advance();
      }
    }

    /** The `switch typeName` of `parseConstructor`. */
    method Construct(typeName: string, payload: string) returns (r: Result<Value, DtxtError>)
      ensures r == Convert(typeName, payload, lib)
    {
      if typeName == "D" {
        var t := lib.cal.dateTime(payload);
        if t.None? {
          return Ok(Str(payload));
        }
        return Ok(Date(t.value));
      } else if typeName == "BN" {
        var n := SignedDecimal(payload, true);
        if n.None? {
          return Err(InvalidBN(payload));
        }
        return Ok(BigInt(n.value));
      } else if typeName == "B" {
        var bytes := HexDecode(payload);
        if bytes.None? {
          return Err(InvalidHex(payload));
        }
        return Ok(Bytes(bytes.value));
      }
      return Err(UnknownConstructor(typeName));
    }
  }

  /** The package-level `Parse`. */
  method ParseText(input: string, lib: Library) returns (r: Result<map<string, Value>, DtxtError>)
    ensures r == Parse(input, lib)
  {
    var parser := new Parser(input, lib);
    r := parser.Parse();
  }
}
