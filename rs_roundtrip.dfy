/** What the Rust port's writer produces, its parser reads back: for every object whose
    strings, dates, keys and numbers can be written without clashing with the syntax,
    parsing the written text yields the object again. */
module RsRoundTrip {
  import opened Values
  import opened Text
  import opened Codec
  import opened Cursor
  import opened Layout
  import opened CursorLayout
  import opened RsParser
  import opened RsStringify

  /** The values whose text the Rust writer and parser agree on: strings without a backtick,
      number lexemes the float formatting writes back unchanged, dates without `)`, keys made
      of identifier characters, and no integer variant (`RsValue`). */
  predicate Encodable(v: Value, show: string -> string)
    decreases v
  {
    match v
    case Int(_) => false
    case Number(t) => IsNumberLexeme(t) && show(t) == t
    case Str(t) => Free(t, '`')
    case BigInt(n) => InI64(n)
    case Date(t) => Free(t, ')')
    case Array(a) => forall i :: 0 <= i < |a| ==> Encodable(a[i], show)
    case Object(m) => forall k :: k in m ==> AllIdent(k) && Encodable(m[k], show)
    case _ => true
  }

  lemma {:induction false} EncodableRsValue(v: Value, show: string -> string)
    requires Encodable(v, show)
    ensures RsValue(v)
    decreases v
  {
    match v
    case Array(a) =>
      forall i | 0 <= i < |a| ensures RsValue(a[i]) { EncodableRsValue(a[i], show); }
    case Object(m) =>
      forall k | k in m ensures RsValue(m[k]) { EncodableRsValue(m[k], show); }
    case _ =>
  }

  lemma RenderOpens(v: Value, style: Style, level: nat, show: string -> string)
    requires Encodable(v, show)
    ensures var r := Render(v, style, level, RsFormats(show)); |r| > 0 && Opens(r[0])
  {
    match v
    case Array(a) =>
      RenderContainer(v, style, level, RsFormats(show));
      ContainerHead('[', ']', ItemTexts(a, style, level + 1, RsFormats(show)), style.layout, level);
    case Object(m) =>
      RenderContainer(v, style, level, RsFormats(show));
      ContainerHead('{', '}', FieldTexts(m, style, level + 1, RsFormats(show)), style.layout, level);
    case _ =>
      ScalarOpens(v, show);
  }

  lemma ScalarOpens(v: Value, show: string -> string)
    requires Encodable(v, show) && !v.Array? && !v.Object?
    ensures var r := ScalarText(v, RsFormats(show)); |r| > 0 && Opens(r[0])
  {
  }

  /** The Rust port's `B(..)` decoding reads the writer's hex text back. */
  lemma {:induction false} HexBytesRoundTrip(bs: seq<byte>)
    ensures HexBytes(HexUpper(bs)) == Some(bs)
  {
    if bs != [] {
      var h := HexUpper(bs);
      HexDigitRoundTrip(bs[0] / 16);
      HexDigitRoundTrip(bs[0] % 16);
      assert h[2..] == HexUpper(bs[1..]);
      HexBytesRoundTrip(bs[1..]);
      assert [bs[0]] + bs[1..] == bs;
    }
  }

  // ---------------------------------------------------------------- scalars
  //
  // Positions are passed as parameters pinned down by an equation (`e == p + |t| + 2`), so
  // that the parser functions are applied to the same terms on every side of a proof.

  lemma StrAt(s: string, p: nat, e: nat, t: string)
    requires IsAt(s, p, "`" + t + "`") && Free(t, '`') && e == p + |t| + 2
    ensures ValueAt(s, p) == Done(Str(t), e)
  {
    var q := p + 1 + |t|;
    IsAtConcat(s, p, "`" + t, "`");
    IsAtConcat(s, p, "`", t);
    IsAtChar(s, p, "`", 0);
    IsAtChar(s, q, "`", 0);
    ByteEndFree(s, p + 1, t, '`');
    assert s[p + 1..q] == t;
    assert SkipWs(s, p) == p;
    StringDispatchAt(s, p);
  }

  /** A backtick sends `parse_value` to the string reader. */
  lemma StringDispatchAt(s: string, q: nat)
    requires q < |s| && s[q] == '`'
    ensures DispatchAt(s, q) == Done(Str(StringAt<RsError>(s, q).value), StringAt<RsError>(s, q).next)
  {
  }

  lemma NumberAtLexeme(s: string, p: nat, e: nat, t: string)
    requires IsAt(s, p, t) && IsNumberLexeme(t) && e == p + |t| && Ends(s, e)
    ensures ValueAt(s, p) == Done(Number(t), e)
  {
    NumberLexemeScan(s, p, t);
    IsAtChar(s, p, t, 0);
    NumberDispatch(s, p, e, t);
  }

  lemma NumberDispatch(s: string, p: nat, e: nat, t: string)
    requires p < |s| && (s[p] == '-' || IsDigit(s[p])) && NumberEnd(s, p) == e && ScannedFloatOk(s, p)
    requires IsAt(s, p, t) && e == p + |t|
    ensures ValueAt(s, p) == Done(Number(t), e)
  {
    assert SkipWs(s, p) == p;
    assert s[p..e] == t;
    NumberDispatchAt(s, p);
  }

  /** A sign or a digit sends `parse_value` to the number scanner. */
  lemma NumberDispatchAt(s: string, q: nat)
    requires q < |s| && (s[q] == '-' || IsDigit(s[q]))
    ensures DispatchAt(s, q) == NumberAt(s, q)
  {
  }

  lemma LiteralAt(s: string, p: nat, e: nat, r: string, v: Value)
    requires r == "T" || r == "F" || r == "N"
    requires v == (if r == "T" then Bool(true) else if r == "F" then Bool(false) else Null)
    requires IsAt(s, p, r) && e == p + 1 && Ends(s, e)
    ensures ValueAt(s, p) == Done(v, e)
  {
    IsAtChar(s, p, r, 0);
  }

  /** `name(payload)` with a payload free of `)` is read as the constructor it names. */
  lemma ConstructorText(s: string, p: nat, n: nat, q: nat, name: string, payload: string)
    requires IsAt(s, p, name + "(" + payload + ")") && Free(payload, ')')
    requires name == "D" || name == "BN" || name == "B"
    requires n == p + |name| && q == n + 1 + |payload|
    ensures ValueAt(s, p) == match Convert(name, payload)
      case Ok(v) => Done(v, q + 1)
      case Err(e) => Fail(e)
  {
    ConstructorScan(s, p, n, q, name, payload);
    assert SkipWs(s, p) == p;
    ConstructorDispatchAt(s, p);
  }

  /** `D` and `B` send `parse_value` to the constructor reader. */
  lemma ConstructorDispatchAt(s: string, q: nat)
    requires q < |s| && (s[q] == 'D' || s[q] == 'B')
    ensures DispatchAt(s, q) == ConstructorAt(s, q)
  {
  }

  /** The scan of `parse_constructor` over `name(payload)`. */
  lemma ConstructorScan(s: string, p: nat, n: nat, q: nat, name: string, payload: string)
    requires IsAt(s, p, name + "(" + payload + ")") && Free(payload, ')')
    requires name == "D" || name == "BN" || name == "B"
    requires n == p + |name| && q == n + 1 + |payload|
    ensures p < |s| && (s[p] == 'D' || s[p] == 'B') && IdentEnd(s, p) == n
    ensures n < |s| && s[n] == '(' && ByteEnd(s, n + 1, ')') == q && q < |s|
    ensures s[p..n] == name && s[n + 1..q] == payload
  {
    IsAtConcat(s, p, name + "(" + payload, ")");
    IsAtConcat(s, p, name + "(", payload);
    IsAtConcat(s, p, name, "(");
    IsAtChar(s, p, name, 0);
    IsAtChar(s, n, "(", 0);
    IsAtChar(s, q, ")", 0);
    IdentEndAt(s, p, name);
    ByteEndFree(s, n + 1, payload, ')');
  }

  lemma BigIntAt(s: string, p: nat, e: nat, n: int)
    requires IsAt(s, p, "BN(" + DecimalString(n) + ")") && InI64(n) && e == p + |DecimalString(n)| + 4
    ensures ValueAt(s, p) == Done(BigInt(n), e)
  {
    var d := DecimalString(n);
    DecimalStringFree(n, ')');
    DecimalRoundTrip(n, true);
    assert "BN(" + d + ")" == "BN" + "(" + d + ")";
    ConstructorText(s, p, p + 2, p + 3 + |d|, "BN", d);
  }

  lemma DateAt(s: string, p: nat, e: nat, t: string)
    requires IsAt(s, p, "D(" + t + ")") && Free(t, ')') && e == p + |t| + 3
    ensures ValueAt(s, p) == Done(Date(t), e)
  {
    assert "D(" + t + ")" == "D" + "(" + t + ")";
    ConstructorText(s, p, p + 1, p + 2 + |t|, "D", t);
  }

  lemma BytesAt(s: string, p: nat, e: nat, bs: seq<byte>)
    requires IsAt(s, p, "B(" + HexUpper(bs) + ")") && e == p + |HexUpper(bs)| + 3
    ensures ValueAt(s, p) == Done(Bytes(bs), e)
  {
    var h := HexUpper(bs);
    HexUpperChars(bs);
    HexBytesRoundTrip(bs);
    assert "B(" + h + ")" == "B" + "(" + h + ")";
    ConstructorText(s, p, p + 1, p + 2 + |h|, "B", h);
  }

  // ---------------------------------------------------------------- loop steps

  /** `ValueAt` depends only on where the blanks before the value end. */
  lemma ValueAtSkip(s: string, x: nat, y: nat)
    requires x <= |s| + 1 && y <= |s| + 1 && SkipWs(s, x) == SkipWs(s, y)
    ensures ValueAt(s, x) == ValueAt(s, y)
  {
  }

  /** One pass of the element loop over a value that ends where `AfterComma` starts. */
  lemma ElemLoopStep(s: string, q: nat, n: nat, t: nat, acc: seq<Value>, v: Value)
    requires q < |s| && Opens(s[q]) && ValueAt(s, q) == Done(v, n) && AfterComma(s, n) == t
    ensures ElemsAt(s, q, acc) == ElemsAt(s, t, acc + [v])
  {
    ElemsAtStep(s, q, acc, v, n);
  }

  /** One pass of the member loop over a member that ends where `AfterComma` starts. */
  lemma MemberLoopStep(s: string, q: nat, n: nat, t: nat, acc: map<string, Value>, kv: (string, Value))
    requires q < |s| && Opens(s[q]) && MemberAt(s, q) == Done(kv, n) && AfterComma(s, n) == t
    ensures MembersAt(s, q, acc) == MembersAt(s, t, acc[kv.0 := kv.1])
  {
    MembersAtStep(s, q, acc, kv, n);
  }

  // ---------------------------------------------------------------- values

  /** Any encodable value written at `p` and followed by a separator, a closer, a blank or the
      end of the input is read back by `parse_value`, which stops at `e`, right after it. */
  lemma {:induction false} ValueText(s: string, p: nat, e: nat, v: Value, style: Style, level: nat, show: string -> string)
    requires Encodable(v, show) && Spaced(style)
    requires IsAt(s, p, Render(v, style, level, RsFormats(show)))
    requires e == p + |Render(v, style, level, RsFormats(show))| && Ends(s, e)
    ensures ValueAt(s, p) == Done(v, e)
    decreases v, 2, 0
  {
    var r := Render(v, style, level, RsFormats(show));
    match v
    case Array(a) =>
      RenderOpens(v, style, level, show);
      IsAtChar(s, p, r, 0);
      ArrayText(s, p, e, a, style, level, show);
    case Object(m) =>
      RenderOpens(v, style, level, show);
      IsAtChar(s, p, r, 0);
      ObjectText(s, p, e, m, style, level, show);
    case _ => ScalarValueText(s, p, e, v, style, level, show);
  }

  /** The scalar cases of `ValueText`. */
  lemma ScalarValueText(s: string, p: nat, e: nat, v: Value, style: Style, level: nat, show: string -> string)
    requires Encodable(v, show) && !v.Array? && !v.Object?
    requires IsAt(s, p, Render(v, style, level, RsFormats(show)))
    requires e == p + |Render(v, style, level, RsFormats(show))| && Ends(s, e)
    ensures ValueAt(s, p) == Done(v, e)
  {
    var r := Render(v, style, level, RsFormats(show));
    match v
    case Null => LiteralAt(s, p, e, r, v);
    case Bool(b) => LiteralAt(s, p, e, r, v);
    case Number(t) => NumberAtLexeme(s, p, e, t);
    case Str(t) => StrAt(s, p, e, t);
    case BigInt(n) => BigIntAt(s, p, e, n);
    case Date(t) => DateAt(s, p, e, t);
    case Bytes(bs) => BytesAt(s, p, e, bs);
  }

  /** An empty container written at `p` and ending at `e` is its two brackets; the loops
      stop at once. */
  lemma EmptyContainer(s: string, p: nat, e: nat, open: char, close: char, layout: Layout, level: nat)
    requires IsAt(s, p, Container([open], [close], [], layout, level)) && (close == ']' || close == '}')
    requires e == p + |Container([open], [close], [], layout, level)|
    ensures close == ']' ==> ArrayAt(s, p) == Done([], e)
    ensures close == '}' ==> ObjectAt(s, p) == Done(map[], e)
  {
    IsAtChar(s, p, [open, close], 1);
    assert SkipWs(s, p + 1) == p + 1;
  }

  /** `parse_array` at the writer's text of an array. */
  lemma {:induction false} ArrayText(s: string, p: nat, e: nat, a: seq<Value>, style: Style, level: nat, show: string -> string)
    requires Encodable(Array(a), show) && Spaced(style)
    requires IsAt(s, p, Render(Array(a), style, level, RsFormats(show)))
    requires e == p + |Render(Array(a), style, level, RsFormats(show))|
    ensures ArrayAt(s, p) == Done(a, e)
    decreases Array(a), 1, 0
  {
    var items := ItemTexts(a, style, level + 1, RsFormats(show));
    RenderContainer(Array(a), style, level, RsFormats(show));
    if a == [] {
      EmptyContainer(s, p, e, '[', ']', style.layout, level);
    } else {
      ItemsOpen(a, style, level + 1, show);
      var q := ContainerStart(s, p, e, '[', ']', items, style, level);
      var acc: seq<Value> := [];
      assert acc == a[..0];
      ElemsText(s, q, e, a, acc, 0, style, level, show);
    }
  }

  /** The element loop of `parse_array` over the pieces from item `i` on, with the first `i`
      items already read into `acc`. */
  lemma {:induction false} ElemsText(s: string, q: nat, e: nat, a: seq<Value>, acc: seq<Value>, i: nat, style: Style, level: nat, show: string -> string)
    requires Encodable(Array(a), show) && Spaced(style) && i <= |a| && acc == a[..i]
    requires IsAt(s, q, Concat(Pieces(ItemTexts(a, style, level + 1, RsFormats(show)), style.layout, level)[i..]) + "]")
    requires e == q + |Concat(Pieces(ItemTexts(a, style, level + 1, RsFormats(show)), style.layout, level)[i..])| + 1
    ensures ElemsAt(s, q, acc) == Done(a, e)
    decreases Array(a), 0, |a| - i, 1
  {
    if i == |a| {
      PieceHead(s, q, ItemTexts(a, style, level + 1, RsFormats(show)), i, style.layout, level, ']');
      assert e == q + 1;
      assert acc == a;
    } else {
      var t := ElemText(s, q, e, a, acc, i, style, level, show);
      ElemsText(s, t, e, a, acc + [a[i]], i + 1, style, level, show);
    }
  }

  /** Item `i` of the element loop: the loop reads it and goes on at `t`, where the pieces
      after it are written. */
  lemma {:induction false} ElemText(s: string, q: nat, e: nat, a: seq<Value>, acc: seq<Value>, i: nat, style: Style, level: nat, show: string -> string)
    returns (t: nat)
    requires Encodable(Array(a), show) && Spaced(style) && i < |a| && acc == a[..i]
    requires IsAt(s, q, Concat(Pieces(ItemTexts(a, style, level + 1, RsFormats(show)), style.layout, level)[i..]) + "]")
    requires e == q + |Concat(Pieces(ItemTexts(a, style, level + 1, RsFormats(show)), style.layout, level)[i..])| + 1
    ensures t < |s|
    ensures ElemsAt(s, q, acc) == ElemsAt(s, t, acc + [a[i]]) && acc + [a[i]] == a[..i + 1]
    ensures IsAt(s, t, Concat(Pieces(ItemTexts(a, style, level + 1, RsFormats(show)), style.layout, level)[i + 1..]) + "]")
    ensures e == t + |Concat(Pieces(ItemTexts(a, style, level + 1, RsFormats(show)), style.layout, level)[i + 1..])| + 1
    decreases Array(a), 0, |a| - i, 0
  {
    var items := ItemTexts(a, style, level + 1, RsFormats(show));
    var n;
    ItemsOpen(a, style, level + 1, show);
    n, t := ItemLayout(s, q, e, items, i, style, level, ']');
    ValueText(s, q, n, a[i], style, level + 1, show);
    ElemLoopStep(s, q, n, t, acc, a[i]);
    TakeSucc(a, i);
  }

  lemma ItemsOpen(a: seq<Value>, style: Style, level: nat, show: string -> string)
    requires Encodable(Array(a), show)
    ensures AllOpen(ItemTexts(a, style, level, RsFormats(show)))
  {
    forall j | 0 <= j < |a| ensures |Render(a[j], style, level, RsFormats(show))| > 0 && Opens(Render(a[j], style, level, RsFormats(show))[0]) {
      RenderOpens(a[j], style, level, show);
    }
  }

  /** `parse_object` at the writer's text of an object. */
  lemma {:induction false} ObjectText(s: string, p: nat, e: nat, m: map<string, Value>, style: Style, level: nat, show: string -> string)
    requires Encodable(Object(m), show) && Spaced(style)
    requires IsAt(s, p, Render(Object(m), style, level, RsFormats(show)))
    requires e == p + |Render(Object(m), style, level, RsFormats(show))|
    ensures ObjectAt(s, p) == Done(m, e)
    decreases Object(m), 1, 0
  {
    var fields := FieldTexts(m, style, level + 1, RsFormats(show));
    RenderContainer(Object(m), style, level, RsFormats(show));
    if fields == [] {
      EmptyContainer(s, p, e, '{', '}', style.layout, level);
      assert m.Keys == {};
      assert m == map[];
    } else {
      FieldsOpen(m, style, level, show);
      var q := ContainerStart(s, p, e, '{', '}', fields, style, level);
      var acc: map<string, Value> := map[];
      UptoNone(m, SortedKeys(m.Keys));
      MembersText(s, q, e, m, acc, 0, style, level, show);
    }
  }

  /** A member text starts with its key, or with the colon when the key is empty. */
  lemma FieldOpens(m: map<string, Value>, i: nat, style: Style, level: nat, show: string -> string)
    requires Encodable(Object(m), show) && Spaced(style) && i < |m.Keys|
    ensures var f := FieldTexts(m, style, level + 1, RsFormats(show))[i]; |f| > 0 && Opens(f[0])
  {
    var keys := SortedKeys(m.Keys);
    var key := keys[i];
    var f := FieldTexts(m, style, level + 1, RsFormats(show))[i];
    assert AllIdent(key);
    if key == [] {
      assert f[0] == style.colon[0];
    } else {
      assert f[0] == key[0];
    }
  }

  /** The member loop of `parse_object` over the pieces from member `i` on, with the members
      of the first `i` keys already read into `acc`. */
  lemma {:induction false} MembersText(s: string, q: nat, e: nat, m: map<string, Value>, acc: map<string, Value>, i: nat, style: Style, level: nat, show: string -> string)
    requires Encodable(Object(m), show) && Spaced(style) && i <= |m.Keys| && acc == Upto(m, SortedKeys(m.Keys), i)
    requires IsAt(s, q, Concat(Pieces(FieldTexts(m, style, level + 1, RsFormats(show)), style.layout, level)[i..]) + "}")
    requires e == q + |Concat(Pieces(FieldTexts(m, style, level + 1, RsFormats(show)), style.layout, level)[i..])| + 1
    ensures MembersAt(s, q, acc) == Done(m, e)
    decreases Object(m), 0, |m.Keys| - i, 1
  {
    if i == |m.Keys| {
      PieceHead(s, q, FieldTexts(m, style, level + 1, RsFormats(show)), i, style.layout, level, '}');
      assert e == q + 1;
      UptoAll(m);
    } else {
      var key := SortedKeys(m.Keys)[i];
      var t := FieldText(s, q, e, m, acc, i, style, level, show);
      MembersText(s, t, e, m, acc[key := m[key]], i + 1, style, level, show);
    }
  }

  /** Member `i` of the member loop: the loop reads it and goes on at `t`, where the pieces
      after it are written. */
  lemma {:induction false} FieldText(s: string, q: nat, e: nat, m: map<string, Value>, acc: map<string, Value>, i: nat, style: Style, level: nat, show: string -> string)
    returns (t: nat)
    requires Encodable(Object(m), show) && Spaced(style) && i < |m.Keys| && acc == Upto(m, SortedKeys(m.Keys), i)
    requires IsAt(s, q, Concat(Pieces(FieldTexts(m, style, level + 1, RsFormats(show)), style.layout, level)[i..]) + "}")
    requires e == q + |Concat(Pieces(FieldTexts(m, style, level + 1, RsFormats(show)), style.layout, level)[i..])| + 1
    ensures t < |s|
    ensures SortedKeys(m.Keys)[i] in m
    ensures MembersAt(s, q, acc) == MembersAt(s, t, acc[SortedKeys(m.Keys)[i] := m[SortedKeys(m.Keys)[i]]])
    ensures acc[SortedKeys(m.Keys)[i] := m[SortedKeys(m.Keys)[i]]] == Upto(m, SortedKeys(m.Keys), i + 1)
    ensures IsAt(s, t, Concat(Pieces(FieldTexts(m, style, level + 1, RsFormats(show)), style.layout, level)[i + 1..]) + "}")
    ensures e == t + |Concat(Pieces(FieldTexts(m, style, level + 1, RsFormats(show)), style.layout, level)[i + 1..])| + 1
    decreases Object(m), 0, |m.Keys| - i, 0
  {
    var keys := SortedKeys(m.Keys);
    var fields := FieldTexts(m, style, level + 1, RsFormats(show));
    var key := keys[i];
    var n;
    FieldsOpen(m, style, level, show);
    n, t := ItemLayout(s, q, e, fields, i, style, level, '}');
    MemberText(s, q, n, key, m[key], style, level + 1, show);
    MemberLoopStep(s, q, n, t, acc, (key, m[key]));
    UptoStep(m, keys, i);
  }

  lemma FieldsOpen(m: map<string, Value>, style: Style, level: nat, show: string -> string)
    requires Encodable(Object(m), show) && Spaced(style)
    ensures AllOpen(FieldTexts(m, style, level + 1, RsFormats(show)))
  {
    var fields := FieldTexts(m, style, level + 1, RsFormats(show));
    forall j | 0 <= j < |fields| ensures |fields[j]| > 0 && Opens(fields[j][0]) {
      FieldOpens(m, j, style, level, show);
    }
  }

  /** One member `key` colon value, followed by a separator, a closer or a blank. */
  lemma {:induction false} MemberText(s: string, q: nat, e: nat, key: string, v: Value, style: Style, level: nat, show: string -> string)
    requires Encodable(v, show) && Spaced(style) && AllIdent(key)
    requires IsAt(s, q, key + style.colon + Render(v, style, level, RsFormats(show)))
    requires e == q + |key + style.colon + Render(v, style, level, RsFormats(show))| && Ends(s, e)
    ensures MemberAt(s, q) == Done((key, v), e)
    decreases v, 3, 0
  {
    var r := Render(v, style, level, RsFormats(show));
    var k := q + |key|;
    var c := k + |style.colon|;
    RenderOpens(v, style, level, show);
    KeyColon(s, q, k, c, key, style.colon, r);
    ValueAtSkip(s, k + 1, c);
    ValueText(s, c, e, v, style, level, show);
    MemberParts(s, q, k, e, key, v);
  }

  /** `parse_key`, `:` and `parse_value` put together. */
  lemma MemberParts(s: string, q: nat, k: nat, e: nat, key: string, v: Value)
    requires q <= k < |s| && IdentEnd(s, q) == k && s[q..k] == key
    requires SkipWs(s, k) == k && s[k] == ':' && ValueAt(s, k + 1) == Done(v, e)
    ensures MemberAt(s, q) == Done((key, v), e)
  {
  }

  // ---------------------------------------------------------------- documents

  /** `parse` reads back the text of any encodable object written in a spaced style, and so
      does `parse` with the root-object rule enforced. */
  lemma ParseRender(m: map<string, Value>, style: Style, show: string -> string)
    requires Encodable(Object(m), show) && Spaced(style)
    ensures Parse(Render(Object(m), style, 0, RsFormats(show))) == Ok(m)
    ensures ParseChecked(Render(Object(m), style, 0, RsFormats(show))) == Ok(m)
  {
    var s := Render(Object(m), style, 0, RsFormats(show));
    assert IsAt(s, 0, s);
    RenderContainer(Object(m), style, 0, RsFormats(show));
    ContainerHead('{', '}', FieldTexts(m, style, 1, RsFormats(show)), style.layout, 0);
    assert SkipWs(s, 0) == 0;
    ObjectText(s, 0, |s|, m, style, 0, show);
  }

  /** The styles `stringify` writes are spaced when the indentation unit is blanks. */
  lemma RsStyleSpaced(indent: Option<string>)
    requires indent.Some? ==> AllBlank(indent.value)
    ensures Spaced(RsStyle(indent))
  {
    assert ":"[1..] == "" && ": "[1..] == " " && ","[1..] == "";
  }

  /** `parse(stringify(v, indent))` gives back every encodable object. */
  method StringifyThenParse(m: map<string, Value>, indent: Option<string>, show: string -> string)
    returns (r: Result<map<string, Value>, RsError>)
    requires Encodable(Object(m), show) && (indent.Some? ==> AllBlank(indent.value))
    ensures r == Ok(m)
  {
    EncodableRsValue(Object(m), show);
    var text := Stringify(Object(m), indent, show);
    r := ParseText(text);
    RsStyleSpaced(indent);
    ParseRender(m, RsStyle(indent), show);
  }
}
