/** The Rust port's parser (`ref-impl/rs/src/lib.rs`): a cursor `pos` over the input bytes,
    moved by `advance()` inside scanning loops.

    The first half of the module states what each `parse_*` method computes as a function
    of the input and the cursor position, returning the value read and the position after
    it (`Step`). The class `DSFParser` then holds the methods themselves, each proved to
    agree with its function.

    Positions run up to one past the end of the input: `parse_string` steps over its closing
    backtick even when it ran into the end of the input. Where the source panics (an
    `unwrap()` of `None` at the end of the input, a slice that starts past the end, a hex
    pair cut short) the model reports the error named at that point. */
module RsParser {
  import opened Values
  import opened Text
  import opened Codec
  import opened Cursor

  /** `DSFError`. */
  datatype RsError =
    | UnexpectedChar(pos: nat, ch: char)
    | UnexpectedEOF
    | InvalidNumber(text: string)
    | InvalidConstructor(text: string)
    | TrailingData(pos: nat)

  // ---------------------------------------------------------------- constructor payloads

  /** `u8::from_str_radix(pair, 16)`: two hex digits, or a `+` sign and one hex digit. */
  function HexPair(a: char, b: char): (r: Option<byte>)
    ensures r.Some? <==> IsHexDigit(b) && (IsHexDigit(a) || a == '+')
    ensures r.Some? && IsHexDigit(a) ==> r.value == 16 * HexValue(a) + HexValue(b)
    ensures r.Some? && a == '+' ==> r.value == HexValue(b)
  {
    if !IsHexDigit(b) then None
    else if IsHexDigit(a) then Some((16 * HexValue(a) + HexValue(b)) as byte)
    else if a == '+' then Some(HexValue(b) as byte)
    else None
  }

  /** The `B(..)` loop: one byte per two characters, front to back. A payload of odd length
      makes the last slice run past the end (a panic in the source, a failure here). */
  function HexBytes(payload: string): (r: Option<seq<byte>>)
    ensures r.Some? ==> 2 * |r.value| == |payload|
  {
    if |payload| == 0 then Some([])
    else if |payload| == 1 then None
    else match HexPair(payload[0], payload[1])
      case None => None
      case Some(b) =>
        match HexBytes(payload[2..])
        case None => None
        case Some(rest) => Some([b] + rest)
  }

  /** The value a constructor `name(payload)` denotes. */
  function Convert(name: string, payload: string): (r: Result<Value, RsError>)
    ensures r.Ok? ==>
      (name == "D" && r.value == Date(payload)) ||
      (name == "BN" && r.value.BigInt? && InI64(r.value.n) && SignedDecimal(payload, true) == Some(r.value.n)) ||
      (name == "B" && r.value.Bytes? && HexBytes(payload) == Some(r.value.bytes))
    ensures name == "D" ==> r.Ok?
    ensures name != "D" && name != "BN" && name != "B" ==> r == Err(InvalidConstructor(name))
  {
    if name == "D" then Ok(Date(payload))
    else if name == "BN" then
      match SignedDecimal(payload, true)
      case Some(n) => if InI64(n) then Ok(BigInt(n)) else Err(InvalidConstructor("BN(" + payload + ")"))
      case None => Err(InvalidConstructor("BN(" + payload + ")"))
    else if name == "B" then
      match HexBytes(payload)
      case Some(bs) => Ok(Bytes(bs))
      case None => Err(InvalidConstructor("B(" + payload + ")"))
    else Err(InvalidConstructor(name))
  }

  // ---------------------------------------------------------------- the grammar as functions

  /** `parse_number`: the scanned lexeme, if the float reader accepts it. */
  function NumberAt(s: string, p: nat): (r: Step<Value, RsError>)
    requires p <= |s|
    ensures r.Done? <==> ScannedFloatOk(s, p)
    ensures r.Done? ==> r == Done(Number(s[p..NumberEnd(s, p)]), NumberEnd(s, p))
    ensures r.Fail? ==> r.error == InvalidNumber(s[p..NumberEnd(s, p)])
  {
    var q := NumberEnd(s, p);
    if ScannedFloatOk(s, p) then Done(Number(s[p..q]), q) else Fail(InvalidNumber(s[p..q]))
  }

  /** `parse_constructor`: a name, `(`, a payload up to the first `)`, `)`. */
  function ConstructorAt(s: string, p: nat): (r: Step<Value, RsError>)
    requires p <= |s|
    ensures r.Done? ==> p < r.next <= |s|
    ensures r.Done? ==> r.value.Date? || r.value.BigInt? || r.value.Bytes?
  {
    var n := IdentEnd(s, p);
    if n == |s| || s[n] != '(' then Fail(InvalidConstructor(s[p..n]))
    else
      var q := ByteEnd(s, n + 1, ')');
      if q == |s| then Fail(UnexpectedEOF)
      else match Convert(s[p..n], s[n + 1..q])
        case Ok(v) => Done(v, q + 1)
        case Err(e) => Fail(e)
  }

  /** `parse_value`: skip blanks and comments, then dispatch on the byte under the cursor. */
  function ValueAt(s: string, p: nat): (r: Step<Value, RsError>)
    requires p <= |s| + 1
    ensures r.Done? ==> p < r.next <= |s| + 1
    decreases |s| + 1 - p, 2
  {
    DispatchAt(s, SkipWs(s, p))
  }

  /** The dispatch of `parse_value` after its `skip_whitespace`: the byte under the cursor
      picks the kind of value. */
  function DispatchAt(s: string, q: nat): (r: Step<Value, RsError>)
    requires q <= |s| + 1
    ensures r.Done? ==> q < r.next <= |s| + 1
    ensures q >= |s| ==> r == Fail(UnexpectedEOF)
    ensures r.Done? ==> q < |s| && !r.value.Int?
    ensures r.Done? ==> (r.value.Object? <==> s[q] == '{') && (r.value.Array? <==> s[q] == '[')
    ensures r.Done? ==> (r.value.Str? <==> s[q] == '`') && (r.value.Number? <==> s[q] == '-' || IsDigit(s[q]))
    ensures q < |s| && !(s[q] in "{[`-_" || IsDigit(s[q]) || IsAsciiLetter(s[q])) ==> r == Fail(UnexpectedChar(q, s[q]))
    decreases |s| + 1 - q, 1
  {
    if q >= |s| then Fail(UnexpectedEOF)
    else
      var c := s[q];
      if c == '{' then
        match ObjectAt(s, q)
        case Done(m, n) => Done(Object(m), n)
        case Fail(e) => Fail(e)
      else if c == '[' then
        match ArrayAt(s, q)
        case Done(a, n) => Done(Array(a), n)
        case Fail(e) => Fail(e)
      else if c == '`' then
        match StringAt<RsError>(s, q)
        case Done(t, n) => Done(Str(t), n)
      else if c == '-' || IsDigit(c) then NumberAt(s, q)
      else if (c == 'T' || c == 'F' || c == 'N') && !(q + 1 < |s| && s[q + 1] == '(') then
        Done(if c == 'T' then Bool(true) else if c == 'F' then Bool(false) else Null, q + 1)
      else if IsAsciiLetter(c) || c == '_' then ConstructorAt(s, q)
      else Fail(UnexpectedChar(q, c))
  }

  /** `parse_object`: step over the opening byte (which is not checked), then the members. */
  function ObjectAt(s: string, p: nat): (r: Step<map<string, Value>, RsError>)
    requires p <= |s|
    ensures r.Done? ==> p < r.next <= |s|
    decreases |s| + 1 - p, 0
  {
    MembersAt(s, SkipWs(s, p + 1), map[])
  }

  /** The member loop of `parse_object` from a cursor at the head of the loop, with the
      members read so far in `acc`. The loop ends at `}`; a repeated key replaces the earlier
      value. */
  function MembersAt(s: string, p: nat, acc: map<string, Value>): (r: Step<map<string, Value>, RsError>)
    requires p <= |s| + 1
    ensures r.Done? ==> p < r.next <= |s|
    decreases |s| + 1 - p, 1
  {
    if p < |s| && s[p] == '}' then Done(acc, p + 1)
    else match MemberAt(s, p)
      case Fail(e) => Fail(e)
      case Done(kv, n) => MembersAt(s, AfterComma(s, n), acc[kv.0 := kv.1])
  }

  /** A member read at the head of the member loop: the loop goes on after it with the
      member added. */
  lemma MembersAtStep(s: string, p: nat, acc: map<string, Value>, kv: (string, Value), n: nat)
    requires p <= |s| + 1 && !(p < |s| && s[p] == '}') && MemberAt(s, p) == Done(kv, n)
    ensures n <= |s| + 1
    ensures MembersAt(s, p, acc) == MembersAt(s, AfterComma(s, n), acc[kv.0 := kv.1])
  {
  }

  /** A member that fails ends the member loop with that failure. */
  lemma MembersAtFail(s: string, p: nat, acc: map<string, Value>, e: RsError)
    requires p <= |s| + 1 && !(p < |s| && s[p] == '}') && MemberAt(s, p) == Fail(e)
    ensures MembersAt(s, p, acc) == Fail(e)
  {
  }

  /** One pass of the member loop body: a key (the identifier run, possibly empty), blanks,
      `:`, and a value. */
  function MemberAt(s: string, p: nat): (r: Step<(string, Value), RsError>)
    requires p <= |s| + 1
    ensures r.Done? ==> p < r.next <= |s| + 1
    decreases |s| + 1 - p, 0
  {
    if p > |s| then Fail(UnexpectedEOF)
    else
      var k := IdentEnd(s, p);
      var c := SkipWs(s, k);
      if c >= |s| then Fail(UnexpectedEOF)
      else if s[c] != ':' then Fail(UnexpectedChar(c, s[c]))
      else match ValueAt(s, c + 1)
        case Fail(e) => Fail(e)
        case Done(v, n) => Done((s[p..k], v), n)
  }

  /** `parse_array`: step over the opening byte, then the elements. */
  function ArrayAt(s: string, p: nat): (r: Step<seq<Value>, RsError>)
    requires p <= |s|
    ensures r.Done? ==> p < r.next <= |s|
    decreases |s| + 1 - p, 0
  {
    ElemsAt(s, SkipWs(s, p + 1), [])
  }

  /** An element read at the head of the element loop: the loop goes on after it. */
  lemma ElemsAtStep(s: string, p: nat, acc: seq<Value>, v: Value, n: nat)
    requires p <= |s| + 1 && !(p < |s| && s[p] == ']') && ValueAt(s, p) == Done(v, n)
    ensures n <= |s| + 1
    ensures ElemsAt(s, p, acc) == ElemsAt(s, AfterComma(s, n), acc + [v])
  {
  }

  /** An element that fails ends the element loop with that failure. */
  lemma ElemsAtFail(s: string, p: nat, acc: seq<Value>, e: RsError)
    requires p <= |s| + 1 && !(p < |s| && s[p] == ']') && ValueAt(s, p) == Fail(e)
    ensures ElemsAt(s, p, acc) == Fail(e)
  {
  }

  /** The element loop of `parse_array`, with the elements read so far in `acc`. */
  function ElemsAt(s: string, p: nat, acc: seq<Value>): (r: Step<seq<Value>, RsError>)
    requires p <= |s| + 1
    ensures r.Done? ==> p < r.next <= |s|
    decreases |s| + 1 - p, 3
  {
    if p < |s| && s[p] == ']' then Done(acc, p + 1)
    else match ValueAt(s, p)
      case Fail(e) => Fail(e)
      case Done(v, n) =>
        ElemsAt(s, AfterComma(s, n), acc + [v])
  }

  /** `DSFParser::parse` from cursor `p`: the root object, then nothing but blanks and
      comments. */
  function ParseFrom(s: string, p: nat): (r: Result<map<string, Value>, RsError>)
    requires p <= |s|
  {
    match ObjectAt(s, SkipWs(s, p))
    case Fail(e) => Err(e)
    case Done(m, q) =>
      var t := SkipWs(s, q);
      if t < |s| then Err(TrailingData(t)) else Ok(m)
  }

  /** The public `parse`: a fresh parser over the whole input. */
  function Parse(s: string): Result<map<string, Value>, RsError>
  {
    ParseFrom(s, 0)
  }

  /** `parse` steps over the root's opening byte without looking at it, so a document whose
      root is written as `[` ... `}` is read as an object. */
  lemma RootOpenerUnchecked()
    ensures Parse("[a:1}") == Ok(map["a" := Number("1")])
  {
    var s := "[a:1}";
    assert SkipWs(s, 0) == 0 && SkipWs(s, 1) == 1 && IdentEnd(s, 1) == 2 && SkipWs(s, 2) == 2;
    assert SkipWs(s, 3) == 3 && NumberEnd(s, 3) == 4 && ScannedFloatOk(s, 3);
    assert s[3..4] == "1" && s[1..2] == "a";
    assert NumberAt(s, 3) == Done(Number("1"), 4);
    assert ValueAt(s, 3) == Done(Number("1"), 4);
    assert MemberAt(s, 1) == Done(("a", Number("1")), 4);
    assert AfterComma(s, 4) == 4 && SkipWs(s, 5) == 5;
  }

  /** `parse` with the root-object rule enforced: the first byte after blanks and comments
      must be `{`. Otherwise it is `parse`. */
  function ParseChecked(s: string): (r: Result<map<string, Value>, RsError>)
    ensures r.Ok? ==> SkipWs(s, 0) < |s| && s[SkipWs(s, 0)] == '{'
    ensures SkipWs(s, 0) < |s| && s[SkipWs(s, 0)] == '{' ==> r == Parse(s)
  {
    var q := SkipWs(s, 0);
    if q < |s| && s[q] != '{' then Err(UnexpectedChar(q, s[q]))
    else if q >= |s| then Err(UnexpectedEOF)
    else Parse(s)
  }

  /** For an input with no root at all, `parse` fails just as `ParseChecked` does. */
  lemma ParseNoRoot(s: string)
    requires SkipWs(s, 0) >= |s|
    ensures Parse(s) == ParseChecked(s) == Err(UnexpectedEOF)
  {
    var q := SkipWs(s, 0);
    assert q == |s|;
    assert SkipWs(s, q + 1) == q + 1;
    assert MemberAt(s, q + 1) == Fail(UnexpectedEOF);
    assert MembersAt(s, q + 1, map[]) == Fail(UnexpectedEOF);
    assert ObjectAt(s, q) == Fail(UnexpectedEOF);
  }

  // ---------------------------------------------------------------- the parser object

  /** `DSFParser`: the input and the cursor. */
  class DSFParser {
    const input: string
    var pos: nat

    /** `DSFParser::new`. */
    constructor (text: string)
      ensures input == text && pos == 0
    {
      input := text;
      pos := 0;
    }

    method Advance()
      modifies this
      ensures pos == old(pos) + 1
    {
      pos := pos + 1;
    }

    /** `skip_whitespace`. */
    method SkipWhitespace()
      modifies this
      ensures pos == SkipWs(input, old(pos))
    {
      while pos < |input|
        invariant old(pos) <= pos
        invariant SkipWs(input, pos) == SkipWs(input, old(pos))
        decreases |input| - pos
      {
        var ch := input[pos];
        if IsBlank(ch) {
          Advance();
        } else if ch == '/' && ByteAt(input, pos + 1) == Some('/') {
          Advance();
          Advance();
          SkipComment();
        } else {
          break;
        }
      }
    }

    /** The comment loop of `skip_whitespace`, after the `//`: up to and including the next
        line feed, or to the end of the input. */
    method SkipComment()
      requires pos <= |input|
      modifies this
      ensures var q := ByteEnd(input, old(pos), '\n'); pos == if q < |input| then q + 1 else |input|
    {
      ghost var q := ByteEnd(input, pos, '\n');
      while pos < |input|
        invariant pos <= |input|
        invariant ByteEnd(input, pos, '\n') == q
        decreases |input| - pos
      {
        var c := input[pos];
        Advance();
        if c == '\n' {
          break;
        }
      }
    }

    /** `parse`. */
    method Parse() returns (r: Result<map<string, Value>, RsError>)
      requires pos <= |input|
      modifies this
      ensures r == ParseFrom(input, old(pos))
    {
      SkipWhitespace();
      var res := ParseObject();
      if res.Err? {
        return Err(res.error);
      }
      SkipWhitespace();
      if pos < |input| {
        return Err(TrailingData(pos));
      }
      return Ok(res.value);
    }

    /** `parse_value`. */
    method ParseValue() returns (r: Result<Value, RsError>)
      requires pos <= |input| + 1
      modifies this
      ensures Outcome(ValueAt(input, old(pos)), r, pos)
      decreases |input| + 1 - pos, 1
    {
      SkipWhitespace();
      var cur := ByteAt(input, pos);
      if cur.None? {
        return Err(UnexpectedEOF);
      }
      var c := cur.value;
      if c == '{' {
        var m := ParseObject();
        if m.Err? { return Err(m.error); }
        return Ok(Object(m.value));
      } else if c == '[' {
        var a := ParseArray();
        if a.Err? { return Err(a.error); }
        return Ok(Array(a.value));
      } else if c == '`' {
        var t := ParseString();
        return Ok(Str(t));
      } else if c == '-' || IsDigit(c) {
        r := ParseNumber();
      } else if c == 'T' && ByteAt(input, pos + 1) != Some('(') {
        Advance();
        return Ok(Bool(true));
      } else if c == 'F' && ByteAt(input, pos + 1) != Some('(') {
        Advance();
        return Ok(Bool(false));
      } else if c == 'N' && ByteAt(input, pos + 1) != Some('(') {
        Advance();
        return Ok(Null);
      } else if IsAsciiLetter(c) || c == '_' {
        r := ParseConstructor();
      } else {
        return Err(UnexpectedChar(pos, c));
      }
    }

    /** `parse_object`. */
    method ParseObject() returns (r: Result<map<string, Value>, RsError>)
      requires pos <= |input|
      modifies this
      ensures Outcome(ObjectAt(input, old(pos)), r, pos)
      decreases |input| + 1 - pos, 0
    {
      Advance();
      var m: map<string, Value> := map[];
      SkipWhitespace();
      while ByteAt(input, pos) != Some('}')
        invariant old(pos) < pos <= |input| + 1
        invariant MembersAt(input, pos, m) == ObjectAt(input, old(pos))
        decreases |input| + 1 - pos
      {
        var member := ParseMember(m);
        if member.Err? {
          return Err(member.error);
        }
        m := m[member.value.0 := member.value.1];
      }
      Advance();
      return Ok(m);
    }

    /** One pass of the member loop of `parse_object`: `parse_key`, `skip_whitespace`, the
        `:` check (whose `unwrap()` at the end of the input panics in the source),
        `parse_value`, then blanks and comments, at most one comma, blanks and comments. */
    method ParseMember(ghost acc: map<string, Value>) returns (r: Result<(string, Value), RsError>)
      requires pos <= |input| + 1 && ByteAt(input, pos) != Some('}')
      modifies this
      ensures r.Err? ==> MembersAt(input, old(pos), acc) == Fail(r.error)
      ensures r.Ok? ==> old(pos) < pos <= |input| + 1
      ensures r.Ok? ==> MembersAt(input, old(pos), acc) == MembersAt(input, pos, acc[r.value.0 := r.value.1])
      decreases |input| + 1 - pos, 2
    {
      ghost var p0 := pos;
      r := ParseKeyValue();
      if r.Err? {
        MembersAtFail(input, p0, acc, r.error);
        return;
      }
      ghost var n := pos;
      MembersAtStep(input, p0, acc, r.value, n);
      SkipComma();
    }

    /** The key, `:` and value of one member. */
    method ParseKeyValue() returns (r: Result<(string, Value), RsError>)
      requires pos <= |input| + 1
      modifies this
      ensures Outcome(MemberAt(input, old(pos)), r, pos)
      decreases |input| + 1 - pos, 0
    {
      var key := ParseKey();
      if key.Err? {
        return Err(key.error);
      }
      SkipWhitespace();
      var cur := ByteAt(input, pos);
      if cur != Some(':') {
        if cur.None? {
          return Err(UnexpectedEOF);
        }
        return Err(UnexpectedChar(pos, cur.value));
      }
      Advance();
      var value := ParseValue();
      if value.Err? {
        return Err(value.error);
      }
      return Ok((key.value, value.value));
    }

    /** `parse_array`. */
    method ParseArray() returns (r: Result<seq<Value>, RsError>)
      requires pos <= |input|
      modifies this
      ensures Outcome(ArrayAt(input, old(pos)), r, pos)
      decreases |input| + 1 - pos, 0
    {
      Advance();
      var arr: seq<Value> := [];
      SkipWhitespace();
      while ByteAt(input, pos) != Some(']')
        invariant old(pos) < pos <= |input| + 1
        invariant ElemsAt(input, pos, arr) == ArrayAt(input, old(pos))
        decreases |input| + 1 - pos
      {
        var value := ParseElement(arr);
        if value.Err? {
          return Err(value.error);
        }
        arr := arr + [value.value];
      }
      Advance();
      return Ok(arr);
    }

    /** One pass of the element loop of `parse_array`: a value, then blanks and comments, at
        most one comma, blanks and comments. */
    method ParseElement(ghost acc: seq<Value>) returns (r: Result<Value, RsError>)
      requires pos <= |input| + 1 && ByteAt(input, pos) != Some(']')
      modifies this
      ensures r.Err? ==> ElemsAt(input, old(pos), acc) == Fail(r.error)
      ensures r.Ok? ==> old(pos) < pos <= |input| + 1 && ElemsAt(input, old(pos), acc) == ElemsAt(input, pos, acc + [r.value])
      decreases |input| + 1 - pos, 2
    {
      ghost var p0 := pos;
      r := ParseValue();
      if r.Err? {
        ElemsAtFail(input, p0, acc, r.error);
        return;
      }
      ghost var n := pos;
      ElemsAtStep(input, p0, acc, r.value, n);
      SkipComma();
    }

    /** The end of a pass of the member and element loops: blanks and comments, at most one
        comma, blanks and comments. */
    method SkipComma()
      modifies this
      ensures pos == AfterComma(input, old(pos))
    {
      SkipWhitespace();
      if ByteAt(input, pos) == Some(',') {
        Advance();
        SkipWhitespace();
      }
    }

    /** `parse_key`: the maximal run of ASCII letters, digits and `_` at the cursor, possibly
        empty. A cursor past the end of the input makes the slice panic in the source. */
    method ParseKey() returns (r: Result<string, RsError>)
      modifies this
      ensures old(pos) > |input| ==> r == Err(UnexpectedEOF)
      ensures old(pos) <= |input| ==> pos == IdentEnd(input, old(pos)) && r == Ok(input[old(pos)..pos])
    {
      if pos > |input| {
        return Err(UnexpectedEOF);
      }
      var start := pos;
      while ByteAt(input, pos).Some? && IsIdentChar(ByteAt(input, pos).value)
        invariant start <= pos <= |input|
        invariant IdentEnd(input, pos) == IdentEnd(input, start)
        decreases |input| - pos
      {
        Advance();
      }
      return Ok(input[start..pos]);
    }

    /** `parse_string`, at an opening backtick. */
    method ParseString() returns (r: string)
      requires pos < |input|
      modifies this
      ensures Outcome(StringAt<RsError>(input, old(pos)), Ok(r), pos)
    {
      Advance();
      var start := pos;
      while ByteAt(input, pos).Some? && ByteAt(input, pos).value != '`'
        invariant start <= pos <= |input|
        invariant ByteEnd(input, pos, '`') == ByteEnd(input, start, '`')
        decreases |input| - pos
      {
        Advance();
      }
      r := input[start..pos];
      Advance();
    }

    /** Advances over the decimal digits under the cursor. */
    method SkipDigits()
      requires pos <= |input|
      modifies this
      ensures pos == DigitsEnd(input, old(pos))
    {
      while ByteAt(input, pos).Some? && IsDigit(ByteAt(input, pos).value)
        invariant old(pos) <= pos <= |input|
        invariant DigitsEnd(input, pos) == DigitsEnd(input, old(pos))
        decreases |input| - pos
      {
        Advance();
      }
    }

    /** `parse_number`: scan the lexeme stage by stage, then read it as a float. */
    method ParseNumber() returns (r: Result<Value, RsError>)
      requires pos <= |input|
      modifies this
      ensures Outcome(NumberAt(input, old(pos)), r, pos)
    {
      var start := pos;
      // Optional negative sign
      if ByteAt(input, pos) == Some('-') {
        Advance();
      }
      ScanInt();
      ScanFrac();
      ScanExp();
      if ScannedFloatOk(input, start) {
        return Ok(Number(input[start..pos]));
      }
      return Err(InvalidNumber(input[start..pos]));
    }

    /** The integer part of `parse_number`. */
    method ScanInt()
      requires pos <= |input|
      modifies this
      ensures pos == AfterInt(input, old(pos))
    {
      if ByteAt(input, pos) == Some('0') {
        Advance();
      } else if ByteAt(input, pos).Some? && '1' <= ByteAt(input, pos).value <= '9' {
        SkipDigits();
      }
    }

    /** The decimal part of `parse_number`. */
    method ScanFrac()
      requires pos <= |input|
      modifies this
      ensures pos == AfterFrac(input, old(pos))
    {
      if ByteAt(input, pos) == Some('.') {
        Advance();
        SkipDigits();
      }
    }

    /** The exponent of `parse_number`. */
    method ScanExp()
      requires pos <= |input|
      modifies this
      ensures pos == AfterExp(input, old(pos))
    {
      if ByteAt(input, pos) == Some('e') || ByteAt(input, pos) == Some('E') {
        Advance();
        if ByteAt(input, pos) == Some('+') || ByteAt(input, pos) == Some('-') {
          Advance();
        }
        SkipDigits();
      }
    }

    /** `parse_constructor`. */
    method ParseConstructor() returns (r: Result<Value, RsError>)
      requires pos <= |input|
      modifies this
      ensures Outcome(ConstructorAt(input, old(pos)), r, pos)
    {
      var start := pos;
      while ByteAt(input, pos).Some? && IsIdentChar(ByteAt(input, pos).value)
        invariant start <= pos <= |input|
        invariant IdentEnd(input, pos) == IdentEnd(input, start)
        decreases |input| - pos
      {
        Advance();
      }
      var typeName := input[start..pos];
      if ByteAt(input, pos) != Some('(') {
        return Err(InvalidConstructor(typeName));
      }
      Advance();
      var payloadStart := pos;
      while ByteAt(input, pos) != Some(')')
        invariant payloadStart <= pos <= |input|
        invariant ByteEnd(input, pos, ')') == ByteEnd(input, payloadStart, ')')
        decreases |input| - pos
      {
        if ByteAt(input, pos).None? {
          return Err(UnexpectedEOF);
        }
        Advance();
      }
      var payload := input[payloadStart..pos];
      Advance();
      if typeName == "D" {
        return Ok(Date(payload));
      } else if typeName == "BN" {
        var num := SignedDecimal(payload, true);
        if num.None? || !InI64(num.value) {
          return Err(InvalidConstructor("BN(" + payload + ")"));
        }
        return Ok(BigInt(num.value));
      } else if typeName == "B" {
        var bytes := DecodePairs(payload);
        if bytes.None? {
          return Err(InvalidConstructor("B(" + payload + ")"));
        }
        return Ok(Bytes(bytes.value));
      }
      return Err(InvalidConstructor(typeName));
    }
  }

  /** The `B(..)` loop of `parse_constructor`: `for i in (0..len).step_by(2)`, pushing one
      byte per pair. */
  method DecodePairs(payload: string) returns (r: Option<seq<byte>>)
    ensures r == HexBytes(payload)
  {
    var bytes: seq<byte> := [];
    var i := 0;
    assert payload[i..] == payload;
    PrependEmpty(HexBytes(payload));
    while i < |payload|
      invariant i <= |payload|
      invariant HexBytes(payload) == Prepend(bytes, HexBytes(payload[i..]))
      decreases |payload| - i
    {
      if i + 2 > |payload| {
        assert payload[i..] == [payload[i]];
        return None;
      }
      var b := HexPair(payload[i], payload[i + 1]);
      if b.None? {
        return None;
      }
      assert payload[i..][2..] == payload[i + 2..];
      PrependAssoc(bytes, b.value, HexBytes(payload[i + 2..]));
      bytes := bytes + [b.value];
      i := i + 2;
    }
    assert payload[i..] == [] && bytes + [] == bytes;
    return Some(bytes);
  }

  /** `bytes` in front of the decoded remainder, or failure if the remainder fails. */
  function Prepend(bytes: seq<byte>, rest: Option<seq<byte>>): Option<seq<byte>>
  {
    match rest
    case None => None
    case Some(t) => Some(bytes + t)
  }

  lemma PrependEmpty(rest: Option<seq<byte>>)
    ensures Prepend([], rest) == rest
  {
    if rest.Some? { assert [] + rest.value == rest.value; }
  }

  lemma PrependAssoc(bytes: seq<byte>, b: byte, rest: Option<seq<byte>>)
    ensures Prepend(bytes, Prepend([b], rest)) == Prepend(bytes + [b], rest)
  {
    if rest.Some? { assert bytes + ([b] + rest.value) == bytes + [b] + rest.value; }
  }

  /** The public `parse`. */
  method ParseText(input: string) returns (r: Result<map<string, Value>, RsError>)
    ensures r == Parse(input)
  {
    var parser := new DSFParser(input);
    r := parser.Parse();
  }
}
