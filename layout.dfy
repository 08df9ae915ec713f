/** The text all four writers produce. They differ only in the separators (the style) and
    in how they print numbers and instants; containers are laid out alike:
    - compact: `[a,b]`, `{k:v,l:w}` — the items joined by a separator;
    - indented: an opening bracket and a line feed, then each item on a line of its own,
      indented one level deeper and followed by `,` (so the last item keeps a comma), then
      the closing bracket indented at the container's own level;
    - an empty container is `[]` or `{}` in either layout.
    Object members are written in ascending key order. */
module Layout {
  import opened Values
  import opened Text
  import opened Codec
  import opened Cursor

  datatype Layout =
    | Compact(sep: string)
    | Indented(ind: string)

  /** The container layout and the text between a key and its value. */
  datatype Style = Style(layout: Layout, colon: string)

  /** How a writer prints a number (its float formatting, applied to the number read from
      the lexeme a `Number` keeps) and an instant (from the text a `Date` keeps). */
  datatype Formats = Formats(number: string -> string, date: string -> string)

  /** The text of a value that is not a container. */
  function ScalarText(v: Value, fmt: Formats): string
  {
    match v
    case Null => "N"
    case Bool(b) => if b then "T" else "F"
    case Int(i) => DecimalString(i)
    case Number(t) => fmt.number(t)
    case Str(t) => "`" + t + "`"
    case BigInt(n) => "BN(" + DecimalString(n) + ")"
    case Bytes(bs) => "B(" + HexUpper(bs) + ")"
    case Date(t) => "D(" + fmt.date(t) + ")"
    case Array(_) => "[]"
    case Object(_) => "{}"
  }

  /** The item lines of an indented container: each item indented by `pre` and followed by
      `,` and a line feed. */
  function Lines(items: seq<string>, pre: string): (r: seq<string>)
    ensures |r| == |items|
    ensures forall i :: 0 <= i < |items| ==> r[i] == pre + items[i] + ",\n"
  {
    seq(|items|, i requires 0 <= i < |items| => pre + items[i] + ",\n")
  }

  /** A container at nesting depth `level`, holding the texts of its items. */
  function Container(open: string, close: string, items: seq<string>, layout: Layout, level: nat): string
  {
    if items == [] then open + close
    else match layout
      case Compact(sep) => open + Join(items, sep) + close
      case Indented(ind) => open + "\n" + Concat(Lines(items, Repeat(ind, level + 1))) + Repeat(ind, level) + close
  }

  /** The member texts of an object: each key, the colon text, and the value's text. */
  function MemberTexts(keys: seq<string>, vals: seq<string>, colon: string): (r: seq<string>)
    requires |keys| == |vals|
    ensures |r| == |keys|
    ensures forall i :: 0 <= i < |keys| ==> r[i] == keys[i] + colon + vals[i]
  {
    seq(|keys|, i requires 0 <= i < |keys| => keys[i] + colon + vals[i])
  }

  /** The text of a value at nesting depth `level`. */
  function Render(v: Value, style: Style, level: nat, fmt: Formats): string
    decreases v
  {
    match v
    case Array(a) =>
      Container("[", "]", seq(|a|, i requires 0 <= i < |a| => Render(a[i], style, level + 1, fmt)), style.layout, level)
    case Object(m) =>
      var keys := SortedKeys(m.Keys);
      var vals := seq(|keys|, i requires 0 <= i < |keys| => Render(m[keys[i]], style, level + 1, fmt));
      Container("{", "}", MemberTexts(keys, vals, style.colon), style.layout, level)
    case _ => ScalarText(v, fmt)
  }

  /** The texts of the items of an array. */
  function ItemTexts(a: seq<Value>, style: Style, level: nat, fmt: Formats): (r: seq<string>)
    ensures |r| == |a|
    ensures forall i :: 0 <= i < |a| ==> r[i] == Render(a[i], style, level, fmt)
  {
    seq(|a|, i requires 0 <= i < |a| => Render(a[i], style, level, fmt))
  }

  /** The texts of the members of an object, in ascending key order. */
  function FieldTexts(m: map<string, Value>, style: Style, level: nat, fmt: Formats): (r: seq<string>)
    ensures |r| == |m.Keys|
    ensures forall i :: 0 <= i < |r| ==>
      SortedKeys(m.Keys)[i] in m &&
      r[i] == SortedKeys(m.Keys)[i] + style.colon + Render(m[SortedKeys(m.Keys)[i]], style, level, fmt)
  {
    var keys := SortedKeys(m.Keys);
    MemberTexts(keys, seq(|keys|, i requires 0 <= i < |keys| => Render(m[keys[i]], style, level, fmt)), style.colon)
  }

  /** A container's text is its brackets around the texts of its children. */
  lemma RenderContainer(v: Value, style: Style, level: nat, fmt: Formats)
    ensures v.Array? ==> Render(v, style, level, fmt) == Container("[", "]", ItemTexts(v.items, style, level + 1, fmt), style.layout, level)
    ensures v.Object? ==> Render(v, style, level, fmt) == Container("{", "}", FieldTexts(v.fields, style, level + 1, fmt), style.layout, level)
  {
    if v.Array? {
      assert ItemTexts(v.items, style, level + 1, fmt) == seq(|v.items|, i requires 0 <= i < |v.items| => Render(v.items[i], style, level + 1, fmt));
    }
    if v.Object? {
      var m := v.fields;
      var keys := SortedKeys(m.Keys);
      var vals := seq(|keys|, i requires 0 <= i < |keys| => Render(m[keys[i]], style, level + 1, fmt));
      assert FieldTexts(m, style, level + 1, fmt) == MemberTexts(keys, vals, style.colon);
    }
  }

  // ---------------------------------------------------------------- pieces

  /** The whitespace written between an opening bracket and the first item. */
  function Lead(layout: Layout, level: nat): string
  {
    match layout
    case Compact(_) => ""
    case Indented(ind) => "\n" + Repeat(ind, level + 1)
  }

  /** What follows item `i` of `n` up to the next item (or up to the closing bracket). */
  function Gap(layout: Layout, level: nat, i: nat, n: nat): string
  {
    match layout
    case Compact(sep) => if i + 1 < n then sep else ""
    case Indented(ind) => ",\n" + Repeat(ind, if i + 1 < n then level + 1 else level)
  }

  /** Each item followed by its gap. */
  function Pieces(items: seq<string>, layout: Layout, level: nat): (r: seq<string>)
    ensures |r| == |items|
    ensures forall i :: 0 <= i < |items| ==> r[i] == items[i] + Gap(layout, level, i, |items|)
  {
    seq(|items|, i requires 0 <= i < |items| => items[i] + Gap(layout, level, i, |items|))
  }

  lemma PiecesTail(items: seq<string>, layout: Layout, level: nat)
    requires items != []
    ensures Pieces(items, layout, level)[1..] == Pieces(items[1..], layout, level)
  {
    var r := Pieces(items, layout, level);
    var t := Pieces(items[1..], layout, level);
    forall i | 0 <= i < |t| ensures r[1..][i] == t[i] {
      assert Gap(layout, level, i + 1, |items|) == Gap(layout, level, i, |items| - 1);
    }
  }

  lemma {:induction false} JoinPieces(items: seq<string>, sep: string, level: nat)
    requires items != []
    ensures Join(items, sep) == Concat(Pieces(items, Compact(sep), level))
    decreases |items|
  {
    var r := Pieces(items, Compact(sep), level);
    PiecesTail(items, Compact(sep), level);
    if |items| == 1 {
      assert r[1..] == [];
      assert Concat(r) == r[0] + Concat(r[1..]);
    } else {
      JoinPieces(items[1..], sep, level);
    }
  }

  lemma {:induction false} LinesPieces(items: seq<string>, ind: string, level: nat)
    requires items != []
    ensures Concat(Lines(items, Repeat(ind, level + 1))) + Repeat(ind, level)
      == Repeat(ind, level + 1) + Concat(Pieces(items, Indented(ind), level))
    decreases |items|
  {
    var pre := Repeat(ind, level + 1);
    var sp := Repeat(ind, level);
    var ls := Lines(items, pre);
    var r := Pieces(items, Indented(ind), level);
    PiecesTail(items, Indented(ind), level);
    assert ls[1..] == Lines(items[1..], pre);
    if |items| == 1 {
      assert ls[1..] == [] && r[1..] == [];
      assert Concat(ls) == ls[0] + Concat(ls[1..]);
      assert Concat(r) == r[0] + Concat(r[1..]);
    } else {
      LinesPieces(items[1..], ind, level);
      var a := Concat(ls[1..]);
      var b := Concat(r[1..]);
      assert Concat(ls) == ls[0] + a;
      assert Concat(r) == r[0] + b;
      assert r[0] == items[0] + (",\n" + pre);
      LineThenPieces(pre, items[0], a, b, sp);
    }
  }

  lemma LineThenPieces(pre: string, x: string, a: string, b: string, sp: string)
    requires a + sp == pre + b
    ensures (pre + x + ",\n") + a + sp == pre + ((x + (",\n" + pre)) + b)
  {
    calc {
      (pre + x + ",\n") + a + sp;
      (pre + x + ",\n") + (a + sp);
      (pre + x + ",\n") + (pre + b);
    }
  }

  /** The indented body written the way the Go `dsf` writer and Python's `dumps_canonical`
      write it, by joining the indented items with `,` and a line feed and adding a last
      `,` and line feed, is the concatenation of the item lines. */
  lemma {:induction false} JoinLines(items: seq<string>, pre: string, lined: seq<string>)
    requires items != [] && |lined| == |items|
    requires forall i :: 0 <= i < |items| ==> lined[i] == pre + items[i]
    ensures Join(lined, ",\n") + ",\n" == Concat(Lines(items, pre))
    decreases |items|
  {
    var ls := Lines(items, pre);
    assert ls[1..] == Lines(items[1..], pre);
    if |items| == 1 {
      assert ls[1..] == [];
      assert Concat(ls) == ls[0] + Concat(ls[1..]);
    } else {
      JoinLines(items[1..], pre, lined[1..]);
      var j := Join(lined[1..], ",\n");
      assert Join(lined, ",\n") == lined[0] + ",\n" + j;
      assert Concat(ls) == ls[0] + Concat(ls[1..]);
      ConcatAssoc(lined[0] + ",\n", j, ",\n");
    }
  }

  /** A non-empty container is its opening bracket, the lead, each item followed by its gap,
      and the closing bracket. */
  lemma ContainerPieces(open: string, close: string, items: seq<string>, layout: Layout, level: nat)
    requires items != []
    ensures Container(open, close, items, layout, level) == open + Lead(layout, level) + Concat(Pieces(items, layout, level)) + close
  {
    var c := Concat(Pieces(items, layout, level));
    match layout
    case Compact(sep) =>
      JoinPieces(items, sep, level);
      assert open + Lead(layout, level) == open;
    case Indented(ind) =>
      var ls := Concat(Lines(items, Repeat(ind, level + 1)));
      LinesPieces(items, ind, level);
      assert open + "\n" + ls + Repeat(ind, level) + close == open + "\n" + (ls + Repeat(ind, level)) + close;
      assert open + "\n" + (Repeat(ind, level + 1) + c) + close == open + Lead(layout, level) + c + close;
  }

  /** Item texts each indented by `indent` at depth `level + 1`, joined by `,` and a line
      feed, with a last `,`, a line feed and the indentation of depth `level` before the
      closing bracket: the indented layout's text of the container. */
  lemma IndentedJoin(open: string, close: string, items: seq<string>, texts: seq<string>, indent: string, level: nat)
    requires texts != [] && |items| == |texts|
    requires forall i :: 0 <= i < |texts| ==> items[i] == Repeat(indent, level) + indent + texts[i]
    ensures open + "\n" + Join(items, ",\n") + ",\n" + Repeat(indent, level) + close
      == Container(open, close, texts, Indented(indent), level)
  {
    var pre := Repeat(indent, level + 1);
    RepeatSucc(indent, level);
    JoinLines(texts, pre, items);
    var inner := Join(items, ",\n");
    ConcatAssoc(open + "\n", inner, ",\n");
  }

  // ---------------------------------------------------------------- whitespace

  /** The styles whose separators a reader steps over as blanks: a colon text and a compact
      separator are `:` and `,` followed by blanks, an indentation is blanks. */
  predicate Spaced(style: Style)
  {
    |style.colon| > 0 && style.colon[0] == ':' && AllBlank(style.colon[1..]) &&
    match style.layout
    case Compact(sep) => |sep| > 0 && sep[0] == ',' && AllBlank(sep[1..])
    case Indented(ind) => AllBlank(ind)
  }

  /** Blanks, or a comma followed by blanks: what the cursor parsers skip after an item. */
  predicate CommaGap(g: string)
  {
    AllBlank(g) || (|g| > 0 && g[0] == ',' && AllBlank(g[1..]))
  }

  lemma RepeatBlank(g: string, n: nat)
    requires AllBlank(g)
    ensures AllBlank(Repeat(g, n))
  {
    if n > 0 {
      RepeatBlank(g, n - 1);
      assert Repeat(g, n) == g + Repeat(g, n - 1);
    }
  }

  lemma AllBlankConcat(a: string, b: string)
    requires AllBlank(a) && AllBlank(b)
    ensures AllBlank(a + b)
  {
  }

  /** In a spaced style the lead is blanks and every gap is a comma gap; every gap but the
      last starts with a comma. */
  lemma GapShape(style: Style, level: nat, i: nat, n: nat)
    requires Spaced(style) && i < n
    ensures AllBlank(Lead(style.layout, level))
    ensures CommaGap(Gap(style.layout, level, i, n))
    ensures i + 1 < n ==> |Gap(style.layout, level, i, n)| > 0 && Gap(style.layout, level, i, n)[0] == ','
  {
    match style.layout
    case Compact(sep) =>
    case Indented(ind) =>
      RepeatBlank(ind, level + 1);
      RepeatBlank(ind, level);
      assert Lead(style.layout, level) == "\n" + Repeat(ind, level + 1);
      var k := if i + 1 < n then level + 1 else level;
      var g := Gap(style.layout, level, i, n);
      assert g[1..] == "\n" + Repeat(ind, k);
  }
}
