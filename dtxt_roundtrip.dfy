/** What the Go port's writer produces, its parser reads back: for every object whose
    strings, dates, keys and numbers can be written without clashing with the syntax,
    `Parse(Stringify(v, indent))` yields the object again, for every indentation made of
    blanks. */
module DtxtRoundTrip {
  import opened Values
  import opened Text
  import opened Codec
  import opened Cursor
  import opened Layout
  import opened CursorLayout
  import opened DtxtParser
  import opened DtxtStringify

  /** The values whose text the Go writer and parser agree on: strings without a backtick,
      finite number lexemes the float formatting writes back unchanged, instants whose
      written text has no `)` and is parsed back to the same instant, keys made of identifier
      characters, and no `int` variant (the parser makes every plain number a float). */
  predicate Encodable(v: Value, show: string -> string, lib: Library)
    decreases v
  {
    match v
    case Int(_) => false
    case Number(t) => IsNumberLexeme(t) && show(t) == t && lib.finite(t)
    case Str(t) => Free(t, '`')
    case Date(t) => Free(DateText(t), ')') && lib.cal.dateTime(DateText(t)) == Some(t)
    case Array(a) => forall i :: 0 <= i < |a| ==> Encodable(a[i], show, lib)
    case Object(m) => forall k :: k in m ==> AllIdent(k) && Encodable(m[k], show, lib)
    case _ => true
  }

  lemma {:induction false} EncodableDtxtValue(v: Value, show: string -> string, lib: Library)
    requires Encodable(v, show, lib)
    ensures DtxtValue(v)
    decreases v
  {
    match v
    case Array(a) =>
      forall i | 0 <= i < |a| ensures DtxtValue(a[i]) { EncodableDtxtValue(a[i], show, lib); }
    case Object(m) =>
      forall k | k in m ensures DtxtValue(m[k]) { EncodableDtxtValue(m[k], show, lib); }
    case _ =>
  }

  lemma RenderOpens(v: Value, style: Style, level: nat, show: string -> string, lib: Library)
    requires Encodable(v, show, lib)
    ensures var r := Render(v, style, level, DtxtFormats(show)); |r| > 0 && Opens(r[0])
  {
    match v
    case Array(a) =>
      RenderContainer(v, style, level, DtxtFormats(show));
      ContainerHead('[', ']', ItemTexts(a, style, level + 1, DtxtFormats(show)), style.layout, level);
    case Object(m) =>
      RenderContainer(v, style, level, DtxtFormats(show));
      ContainerHead('{', '}', FieldTexts(m, style, level + 1, DtxtFormats(show)), style.layout, level);
    case _ =>
      ScalarOpens(v, show, lib);
  }

  lemma ScalarOpens(v: Value, show: string -> string, lib: Library)
    requires Encodable(v, show, lib) && !v.Array? && !v.Object?
    ensures var r := ScalarText(v, DtxtFormats(show)); |r| > 0 && Opens(r[0])
  {
  }

  // ---------------------------------------------------------------- scalars
  //
  // Positions are passed as parameters pinned down by an equation (`e == p + |t| + 2`), so
  // that the parser functions are applied to the same terms on every side of a proof.

  lemma StrAt(s: string, p: nat, e: nat, t: string, lib: Library)
    requires IsAt(s, p, "`" + t + "`") && Free(t, '`') && e == p + |t| + 2
    ensures ValueAt(s, p, lib) == Done(Str(t), e)
  {
    var q := p + 1 + |t|;
    IsAtConcat(s, p, "`" + t, "`");
    IsAtConcat(s, p, "`", t);
    IsAtChar(s, p, "`", 0);
    IsAtChar(s, q, "`", 0);
    ByteEndFree(s, p + 1, t, '`');
    assert s[p + 1..q] == t;
    assert SkipWs(s, p) == p;
    StringDispatchAt(s, p, lib);
  }

  /** A backtick sends `parseValue` to the string reader. */
  lemma StringDispatchAt(s: string, q: nat, lib: Library)
    requires q < |s| && s[q] == '`'
    ensures DispatchAt(s, q, lib) == Done(Str(StringAt<DtxtError>(s, q).value), StringAt<DtxtError>(s, q).next)
  {
  }

  lemma NumberAtLexeme(s: string, p: nat, e: nat, t: string, lib: Library)
    requires IsAt(s, p, t) && IsNumberLexeme(t) && lib.finite(t) && e == p + |t| && Ends(s, e)
    ensures ValueAt(s, p, lib) == Done(Number(t), e)
  {
    NumberLexemeScan(s, p, t);
    IsAtChar(s, p, t, 0);
    NumberDispatch(s, p, e, t, lib);
  }

  lemma NumberDispatch(s: string, p: nat, e: nat, t: string, lib: Library)
    requires p < |s| && (s[p] == '-' || IsDigit(s[p])) && NumberEnd(s, p) == e && ScannedFloatOk(s, p)
    requires IsAt(s, p, t) && e == p + |t| && lib.finite(t)
    ensures ValueAt(s, p, lib) == Done(Number(t), e)
  {
    assert SkipWs(s, p) == p;
    assert s[p..e] == t;
    NumberDispatchAt(s, p, lib);
  }

  /** A sign or a digit sends `parseValue` to the number scanner. */
  lemma NumberDispatchAt(s: string, q: nat, lib: Library)
    requires q < |s| && (s[q] == '-' || IsDigit(s[q]))
    ensures DispatchAt(s, q, lib) == NumberAt(s, q, lib)
  {
  }

  lemma LiteralAt(s: string, p: nat, e: nat, r: string, v: Value, lib: Library)
    requires r == "T" || r == "F" || r == "N"
    requires v == (if r == "T" then Bool(true) else if r == "F" then Bool(false) else Null)
    requires IsAt(s, p, r) && e == p + 1 && Ends(s, e)
    ensures ValueAt(s, p, lib) == Done(v, e)
  {
    IsAtChar(s, p, r, 0);
  }

  /** `name(payload)` with a payload free of `)` is read as the constructor it names. */
  lemma ConstructorText(s: string, p: nat, n: nat, q: nat, name: string, payload: string, lib: Library)
    requires IsAt(s, p, name + "(" + payload + ")") && Free(payload, ')')
    requires name == "D" || name == "BN" || name == "B"
    requires n == p + |name| && q == n + 1 + |payload|
    ensures ValueAt(s, p, lib) == match Convert(name, payload, lib)
      case Ok(v) => Done(v, q + 1)
      case Err(e) => Fail(e)
  {
    ConstructorScan(s, p, n, q, name, payload, lib);
    assert SkipWs(s, p) == p;
    ConstructorDispatchAt(s, p, lib);
  }

  /** `D` and `B` send `parseValue` to the constructor reader. */
  lemma ConstructorDispatchAt(s: string, q: nat, lib: Library)
    requires q < |s| && (s[q] == 'D' || s[q] == 'B')
    ensures DispatchAt(s, q, lib) == ConstructorAt(s, q, lib)
  {
  }

  /** The scan of `parseConstructor` over `name(payload)`. */
  lemma ConstructorScan(s: string, p: nat, n: nat, q: nat, name: string, payload: string, lib: Library)
    requires IsAt(s, p, name + "(" + payload + ")") && Free(payload, ')')
    requires name == "D" || name == "BN" || name == "B"
    requires n == p + |name| && q == n + 1 + |payload|
    ensures p < |s| && (s[p] == 'D' || s[p] == 'B') && IdentEnd(s, p) == n
    ensures n < |s| && s[n] == '(' && ByteEnd(s, n + 1, ')') == q && q < |s|
    ensures s[p..n] == name && s[n + 1..q] == payload
  {
    IsAtConcat(s, p, name + "(" + payload, ")");
    IsAtConcat(s, p, name + "(", payload);
    IsAtConcat(s, p, name, "(");
    IsAtChar(s, p, name, 0);
    IsAtChar(s, n, "(", 0);
    IsAtChar(s, q, ")", 0);
    IdentEndAt(s, p, name);
    ByteEndFree(s, n + 1, payload, ')');
  }

  lemma BigIntAt(s: string, p: nat, e: nat, n: int, lib: Library)
    requires IsAt(s, p, "BN(" + DecimalString(n) + ")") && e == p + |DecimalString(n)| + 4
    ensures ValueAt(s, p, lib) == Done(BigInt(n), e)
  {
    var d := DecimalString(n);
    DecimalStringFree(n, ')');
    DecimalRoundTrip(n, true);
    assert "BN(" + d + ")" == "BN" + "(" + d + ")";
    ConstructorText(s, p, p + 2, p + 3 + |d|, "BN", d, lib);
  }

  lemma DateAt(s: string, p: nat, e: nat, t: string, d: string, lib: Library)
    requires IsAt(s, p, "D(" + d + ")") && Free(d, ')') && lib.cal.dateTime(d) == Some(t) && e == p + |d| + 3
    ensures ValueAt(s, p, lib) == Done(Date(t), e)
  {
    assert "D(" + d + ")" == "D" + "(" + d + ")";
    ConstructorText(s, p, p + 1, p + 2 + |d|, "D", d, lib);
  }

  lemma BytesAt(s: string, p: nat, e: nat, bs: seq<byte>, lib: Library)
    requires IsAt(s, p, "B(" + HexUpper(bs) + ")") && e == p + |HexUpper(bs)| + 3
    ensures ValueAt(s, p, lib) == Done(Bytes(bs), e)
  {
    var h := HexUpper(bs);
    HexUpperChars(bs);
    HexRoundTrip(bs);
    assert "B(" + h + ")" == "B" + "(" + h + ")";
    ConstructorText(s, p, p + 1, p + 2 + |h|, "B", h, lib);
  }

  // ---------------------------------------------------------------- loop steps

  /** `ValueAt` depends only on where the blanks before the value end. */
  lemma ValueAtSkip(s: string, x: nat, y: nat, lib: Library)
    requires x <= |s| + 1 && y <= |s| + 1 && SkipWs(s, x) == SkipWs(s, y)
    ensures ValueAt(s, x, lib) == ValueAt(s, y, lib)
  {
  }

  /** One pass of the element loop over a value that ends where `AfterComma` starts. */
  lemma ElemLoopStep(s: string, q: nat, n: nat, t: nat, acc: seq<Value>, v: Value, lib: Library)
    requires q < |s| && Opens(s[q]) && ValueAt(s, q, lib) == Done(v, n) && AfterComma(s, n) == t
    ensures ElemsAt(s, q, acc, lib) == ElemsAt(s, t, acc + [v], lib)
  {
    ElemsAtStep(s, q, acc, v, n, lib);
  }

  /** One pass of the member loop over a member that ends where `AfterComma` starts. */
  lemma MemberLoopStep(s: string, q: nat, n: nat, t: nat, acc: map<string, Value>, kv: (string, Value), lib: Library)
    requires q < |s| && Opens(s[q]) && MemberAt(s, q, lib) == Done(kv, n) && AfterComma(s, n) == t
    ensures MembersAt(s, q, acc, lib) == MembersAt(s, t, acc[kv.0 := kv.1], lib)
  {
    MembersAtStep(s, q, acc, kv, n, lib);
  }

  // ---------------------------------------------------------------- values

  /** Any encodable value written at `p` and followed by a separator, a closer, a blank or the
      end of the input is read back by `parseValue`, which stops at `e`, right after it. */
  lemma {:induction false} ValueText(s: string, p: nat, e: nat, v: Value, style: Style, level: nat, show: string -> string, lib: Library)
    requires Encodable(v, show, lib) && Spaced(style)
    requires IsAt(s, p, Render(v, style, level, DtxtFormats(show)))
    requires e == p + |Render(v, style, level, DtxtFormats(show))| && Ends(s, e)
    ensures ValueAt(s, p, lib) == Done(v, e)
    decreases v, 2, 0
  {
    var r := Render(v, style, level, DtxtFormats(show));
    match v
    case Array(a) =>
      RenderOpens(v, style, level, show, lib);
      IsAtChar(s, p, r, 0);
      ArrayText(s, p, e, a, style, level, show, lib);
    case Object(m) =>
      RenderOpens(v, style, level, show, lib);
      IsAtChar(s, p, r, 0);
      ObjectText(s, p, e, m, style, level, show, lib);
    case _ => ScalarValueText(s, p, e, v, style, level, show, lib);
  }

  /** The scalar cases of `ValueText`. */
  lemma ScalarValueText(s: string, p: nat, e: nat, v: Value, style: Style, level: nat, show: string -> string, lib: Library)
    requires Encodable(v, show, lib) && !v.Array? && !v.Object?
    requires IsAt(s, p, Render(v, style, level, DtxtFormats(show)))
    requires e == p + |Render(v, style, level, DtxtFormats(show))| && Ends(s, e)
    ensures ValueAt(s, p, lib) == Done(v, e)
  {
    var r := Render(v, style, level, DtxtFormats(show));
    match v
    case Null => LiteralAt(s, p, e, r, v, lib);
    case Bool(b) => LiteralAt(s, p, e, r, v, lib);
    case Number(t) => NumberAtLexeme(s, p, e, t, lib);
    case Str(t) => StrAt(s, p, e, t, lib);
    case BigInt(n) => BigIntAt(s, p, e, n, lib);
    case Date(t) => DateAt(s, p, e, t, DateText(t), lib);
    case Bytes(bs) => BytesAt(s, p, e, bs, lib);
  }

  /** An empty container written at `p` and ending at `e` is its two brackets; the loops
      stop at once. */
  lemma EmptyContainer(s: string, p: nat, e: nat, open: char, close: char, layout: Layout, level: nat, lib: Library)
    requires IsAt(s, p, Container([open], [close], [], layout, level)) && (close == ']' || close == '}')
    requires e == p + |Container([open], [close], [], layout, level)|
    ensures close == ']' ==> ArrayAt(s, p, lib) == Done([], e)
    ensures close == '}' ==> ObjectAt(s, p, lib) == Done(map[], e)
  {
    IsAtChar(s, p, [open, close], 1);
    assert SkipWs(s, p + 1) == p + 1;
  }

  /** `parseArray` at the writer's text of an array. */
  lemma {:induction false} ArrayText(s: string, p: nat, e: nat, a: seq<Value>, style: Style, level: nat, show: string -> string, lib: Library)
    requires Encodable(Array(a), show, lib) && Spaced(style)
    requires IsAt(s, p, Render(Array(a), style, level, DtxtFormats(show)))
    requires e == p + |Render(Array(a), style, level, DtxtFormats(show))|
    ensures ArrayAt(s, p, lib) == Done(a, e)
    decreases Array(a), 1, 0
  {
    var items := ItemTexts(a, style, level + 1, DtxtFormats(show));
    RenderContainer(Array(a), style, level, DtxtFormats(show));
    if a == [] {
      EmptyContainer(s, p, e, '[', ']', style.layout, level, lib);
    } else {
      ItemsOpen(a, style, level + 1, show, lib);
      var q := ContainerStart(s, p, e, '[', ']', items, style, level);
      var acc: seq<Value> := [];
      assert acc == a[..0];
      ElemsText(s, q, e, a, acc, 0, style, level, show, lib);
    }
  }

  /** The element loop of `parseArray` over the pieces from item `i` on, with the first `i`
      items already read into `acc`. */
  lemma {:induction false} ElemsText(s: string, q: nat, e: nat, a: seq<Value>, acc: seq<Value>, i: nat, style: Style, level: nat, show: string -> string, lib: Library)
    requires Encodable(Array(a), show, lib) && Spaced(style) && i <= |a| && acc == a[..i]
    requires IsAt(s, q, Concat(Pieces(ItemTexts(a, style, level + 1, DtxtFormats(show)), style.layout, level)[i..]) + "]")
    requires e == q + |Concat(Pieces(ItemTexts(a, style, level + 1, DtxtFormats(show)), style.layout, level)[i..])| + 1
    ensures ElemsAt(s, q, acc, lib) == Done(a, e)
    decreases Array(a), 0, |a| - i, 1
  {
    if i == |a| {
      PieceHead(s, q, ItemTexts(a, style, level + 1, DtxtFormats(show)), i, style.layout, level, ']');
      assert e == q + 1;
      assert acc == a;
    } else {
      var t := ElemText(s, q, e, a, acc, i, style, level, show, lib);
      ElemsText(s, t, e, a, acc + [a[i]], i + 1, style, level, show, lib);
    }
  }

  /** Item `i` of the element loop: the loop reads it and goes on at `t`, where the pieces
      after it are written. */
  lemma {:induction false} ElemText(s: string, q: nat, e: nat, a: seq<Value>, acc: seq<Value>, i: nat, style: Style, level: nat, show: string -> string, lib: Library)
    returns (t: nat)
    requires Encodable(Array(a), show, lib) && Spaced(style) && i < |a| && acc == a[..i]
    requires IsAt(s, q, Concat(Pieces(ItemTexts(a, style, level + 1, DtxtFormats(show)), style.layout, level)[i..]) + "]")
    requires e == q + |Concat(Pieces(ItemTexts(a, style, level + 1, DtxtFormats(show)), style.layout, level)[i..])| + 1
    ensures t < |s|
    ensures ElemsAt(s, q, acc, lib) == ElemsAt(s, t, acc + [a[i]], lib) && acc + [a[i]] == a[..i + 1]
    ensures IsAt(s, t, Concat(Pieces(ItemTexts(a, style, level + 1, DtxtFormats(show)), style.layout, level)[i + 1..]) + "]")
    ensures e == t + |Concat(Pieces(ItemTexts(a, style, level + 1, DtxtFormats(show)), style.layout, level)[i + 1..])| + 1
    decreases Array(a), 0, |a| - i, 0
  {
    var items := ItemTexts(a, style, level + 1, DtxtFormats(show));
    var n;
    ItemsOpen(a, style, level + 1, show, lib);
    n, t := ItemLayout(s, q, e, items, i, style, level, ']');
    ValueText(s, q, n, a[i], style, level + 1, show, lib);
    ElemLoopStep(s, q, n, t, acc, a[i], lib);
    TakeSucc(a, i);
  }

  lemma ItemsOpen(a: seq<Value>, style: Style, level: nat, show: string -> string, lib: Library)
    requires Encodable(Array(a), show, lib)
    ensures AllOpen(ItemTexts(a, style, level, DtxtFormats(show)))
  {
    forall j | 0 <= j < |a| ensures |Render(a[j], style, level, DtxtFormats(show))| > 0 && Opens(Render(a[j], style, level, DtxtFormats(show))[0]) {
      RenderOpens(a[j], style, level, show, lib);
    }
  }

  /** `parseObject` at the writer's text of an object. */
  lemma {:induction false} ObjectText(s: string, p: nat, e: nat, m: map<string, Value>, style: Style, level: nat, show: string -> string, lib: Library)
    requires Encodable(Object(m), show, lib) && Spaced(style)
    requires IsAt(s, p, Render(Object(m), style, level, DtxtFormats(show)))
    requires e == p + |Render(Object(m), style, level, DtxtFormats(show))|
    ensures ObjectAt(s, p, lib) == Done(m, e)
    decreases Object(m), 1, 0
  {
    var fields := FieldTexts(m, style, level + 1, DtxtFormats(show));
    RenderContainer(Object(m), style, level, DtxtFormats(show));
    if fields == [] {
      EmptyContainer(s, p, e, '{', '}', style.layout, level, lib);
      assert m.Keys == {};
      assert m == map[];
    } else {
      FieldsOpen(m, style, level, show, lib);
      var q := ContainerStart(s, p, e, '{', '}', fields, style, level);
      var acc: map<string, Value> := map[];
      UptoNone(m, SortedKeys(m.Keys));
      MembersText(s, q, e, m, acc, 0, style, level, show, lib);
    }
  }

  /** A member text starts with its key, or with the colon when the key is empty. */
  lemma FieldOpens(m: map<string, Value>, i: nat, style: Style, level: nat, show: string -> string, lib: Library)
    requires Encodable(Object(m), show, lib) && Spaced(style) && i < |m.Keys|
    ensures var f := FieldTexts(m, style, level + 1, DtxtFormats(show))[i]; |f| > 0 && Opens(f[0])
  {
    var keys := SortedKeys(m.Keys);
    var key := keys[i];
    var f := FieldTexts(m, style, level + 1, DtxtFormats(show))[i];
    assert AllIdent(key);
    if key == [] {
      assert f[0] == style.colon[0];
    } else {
      assert f[0] == key[0];
    }
  }

  /** The member loop of `parseObject` over the pieces from member `i` on, with the members
      of the first `i` keys already read into `acc`. */
  lemma {:induction false} MembersText(s: string, q: nat, e: nat, m: map<string, Value>, acc: map<string, Value>, i: nat, style: Style, level: nat, show: string -> string, lib: Library)
    requires Encodable(Object(m), show, lib) && Spaced(style) && i <= |m.Keys| && acc == Upto(m, SortedKeys(m.Keys), i)
    requires IsAt(s, q, Concat(Pieces(FieldTexts(m, style, level + 1, DtxtFormats(show)), style.layout, level)[i..]) + "}")
    requires e == q + |Concat(Pieces(FieldTexts(m, style, level + 1, DtxtFormats(show)), style.layout, level)[i..])| + 1
    ensures MembersAt(s, q, acc, lib) == Done(m, e)
    decreases Object(m), 0, |m.Keys| - i, 1
  {
    if i == |m.Keys| {
      PieceHead(s, q, FieldTexts(m, style, level + 1, DtxtFormats(show)), i, style.layout, level, '}');
      assert e == q + 1;
      UptoAll(m);
    } else {
      var key := SortedKeys(m.Keys)[i];
      var t := FieldText(s, q, e, m, acc, i, style, level, show, lib);
      MembersText(s, t, e, m, acc[key := m[key]], i + 1, style, level, show, lib);
    }
  }

  /** Member `i` of the member loop: the loop reads it and goes on at `t`, where the pieces
      after it are written. */
  lemma {:induction false} FieldText(s: string, q: nat, e: nat, m: map<string, Value>, acc: map<string, Value>, i: nat, style: Style, level: nat, show: string -> string, lib: Library)
    returns (t: nat)
    requires Encodable(Object(m), show, lib) && Spaced(style) && i < |m.Keys| && acc == Upto(m, SortedKeys(m.Keys), i)
    requires IsAt(s, q, Concat(Pieces(FieldTexts(m, style, level + 1, DtxtFormats(show)), style.layout, level)[i..]) + "}")
    requires e == q + |Concat(Pieces(FieldTexts(m, style, level + 1, DtxtFormats(show)), style.layout, level)[i..])| + 1
    ensures t < |s|
    ensures SortedKeys(m.Keys)[i] in m
    ensures MembersAt(s, q, acc, lib) == MembersAt(s, t, acc[SortedKeys(m.Keys)[i] := m[SortedKeys(m.Keys)[i]]], lib)
    ensures acc[SortedKeys(m.Keys)[i] := m[SortedKeys(m.Keys)[i]]] == Upto(m, SortedKeys(m.Keys), i + 1)
    ensures IsAt(s, t, Concat(Pieces(FieldTexts(m, style, level + 1, DtxtFormats(show)), style.layout, level)[i + 1..]) + "}")
    ensures e == t + |Concat(Pieces(FieldTexts(m, style, level + 1, DtxtFormats(show)), style.layout, level)[i + 1..])| + 1
    decreases Object(m), 0, |m.Keys| - i, 0
  {
    var keys := SortedKeys(m.Keys);
    var fields := FieldTexts(m, style, level + 1, DtxtFormats(show));
    var key := keys[i];
    var n;
    FieldsOpen(m, style, level, show, lib);
    n, t := ItemLayout(s, q, e, fields, i, style, level, '}');
    MemberText(s, q, n, key, m[key], style, level + 1, show, lib);
    MemberLoopStep(s, q, n, t, acc, (key, m[key]), lib);
    UptoStep(m, keys, i);
  }

  lemma FieldsOpen(m: map<string, Value>, style: Style, level: nat, show: string -> string, lib: Library)
    requires Encodable(Object(m), show, lib) && Spaced(style)
    ensures AllOpen(FieldTexts(m, style, level + 1, DtxtFormats(show)))
  {
    var fields := FieldTexts(m, style, level + 1, DtxtFormats(show));
    forall j | 0 <= j < |fields| ensures |fields[j]| > 0 && Opens(fields[j][0]) {
      FieldOpens(m, j, style, level, show, lib);
    }
  }

  /** One member `key` colon value, followed by a separator, a closer or a blank. */
  lemma {:induction false} MemberText(s: string, q: nat, e: nat, key: string, v: Value, style: Style, level: nat, show: string -> string, lib: Library)
    requires Encodable(v, show, lib) && Spaced(style) && AllIdent(key)
    requires IsAt(s, q, key + style.colon + Render(v, style, level, DtxtFormats(show)))
    requires e == q + |key + style.colon + Render(v, style, level, DtxtFormats(show))| && Ends(s, e)
    ensures MemberAt(s, q, lib) == Done((key, v), e)
    decreases v, 3, 0
  {
    var r := Render(v, style, level, DtxtFormats(show));
    var k := q + |key|;
    var c := k + |style.colon|;
    RenderOpens(v, style, level, show, lib);
    KeyColon(s, q, k, c, key, style.colon, r);
    ValueAtSkip(s, k + 1, c, lib);
    ValueText(s, c, e, v, style, level, show, lib);
    MemberParts(s, q, k, e, key, v, lib);
  }

  /** `parseKey`, `:` and `parseValue` put together. */
  lemma MemberParts(s: string, q: nat, k: nat, e: nat, key: string, v: Value, lib: Library)
    requires q <= k < |s| && IdentEnd(s, q) == k && s[q..k] == key
    requires SkipWs(s, k) == k && s[k] == ':' && ValueAt(s, k + 1, lib) == Done(v, e)
    ensures MemberAt(s, q, lib) == Done((key, v), e)
  {
  }

  // ---------------------------------------------------------------- documents

  /** `Parse` reads back the text of any encodable object written in a spaced style, and so
      does `Parse` with the root-object rule enforced. */
  lemma ParseRender(m: map<string, Value>, style: Style, show: string -> string, lib: Library)
    requires Encodable(Object(m), show, lib) && Spaced(style)
    ensures Parse(Render(Object(m), style, 0, DtxtFormats(show)), lib) == Ok(m)
    ensures ParseChecked(Render(Object(m), style, 0, DtxtFormats(show)), lib) == Ok(m)
  {
    var s := Render(Object(m), style, 0, DtxtFormats(show));
    assert IsAt(s, 0, s);
    RenderContainer(Object(m), style, 0, DtxtFormats(show));
    ContainerHead('{', '}', FieldTexts(m, style, 1, DtxtFormats(show)), style.layout, 0);
    assert SkipWs(s, 0) == 0;
    ObjectText(s, 0, |s|, m, style, 0, show, lib);
  }

  /** The styles `Stringify` writes are spaced when the indentation is blanks. */
  lemma DtxtStyleSpaced(indent: string)
    requires AllBlank(indent)
    ensures Spaced(DtxtStyle(indent))
  {
    assert ":"[1..] == "" && ": "[1..] == " " && ","[1..] == "";
  }

  /** `Parse(Stringify(v, indent))` gives back every encodable object. */
  method StringifyThenParse(m: map<string, Value>, indent: string, show: string -> string, lib: Library)
    returns (r: Result<map<string, Value>, DtxtError>)
    requires Encodable(Object(m), show, lib) && AllBlank(indent)
    ensures r == Ok(m)
  {
    EncodableDtxtValue(Object(m), show, lib);
    var text := Stringify(Object(m), indent, show);
    r := ParseText(text, lib);
    DtxtStyleSpaced(indent);
    ParseRender(m, DtxtStyle(indent), show, lib);
  }
}
