/** The Go port's writer (`Stringify` and `stringifyValue` in `ref-impl/go/dtxt/dtxt.go`):
    a recursive walk that appends to one `strings.Builder`. Each method is proved to append
    exactly the text `Layout.Render` describes, for the style the `indent` argument selects. */
module DtxtStringify {
  import opened Values
  import opened Text
  import opened Codec
  import opened Layout

  /** The values `stringifyValue` writes: `Int` is a Go `int` (64 bits); `BigInt` is a
      `*big.Int` of any size. */
  predicate DtxtValue(v: Value)
    decreases v
  {
    match v
    case Int(i) => InI64(i)
    case Array(a) => forall i :: 0 <= i < |a| ==> DtxtValue(a[i])
    case Object(m) => forall k :: k in m ==> DtxtValue(m[k])
    case _ => true
  }

  /** A non-empty `indent` is the indented style with `k: v`; the empty one is the compact
      style (`k:v`, items joined by `,`). */
  function DtxtStyle(indent: string): Style
  {
    if indent != "" then Style(Indented(indent), ": ") else Style(Compact(","), ":")
  }

  /** The rewrite applied to an instant's `RFC3339Nano` text: a `.000Z` ending becomes `Z`. */
  function DateText(t: string): string
  {
    if |t| >= 5 && t[|t| - 5..] == ".000Z" then t[..|t| - 5] + "Z" else t
  }

  /** `strconv.FormatFloat(v, 'g', -1, 64)` for numbers (a parameter of the model), and the
      rewritten instant text for dates. */
  function DtxtFormats(show: string -> string): Formats
  {
    Formats(show, DateText)
  }

  /** `stringifyValue`. */
  method StringifyValue(v: Value, sb: Builder, indent: string, level: nat, show: string -> string)
    requires DtxtValue(v)
    modifies sb
    ensures sb.text == old(sb.text) + Render(v, DtxtStyle(indent), level, DtxtFormats(show))
    decreases v, 1
  {
    ghost var t0 := sb.text;
    match v
    case Str(s) =>
      sb.Append("`");
      sb.Append(s);
      ConcatAssoc(t0, "`", s);
      sb.Append("`");
      ConcatAssoc(t0, "`" + s, "`");
    case Number(n) =>
      sb.Append(show(n));
    case Int(i) =>
      sb.Append(DecimalString(i));
    case Bool(b) =>
      if b {
        sb.Append("T");
      } else {
        sb.Append("F");
      }
    case Null =>
      sb.Append("N");
    case BigInt(n) =>
      sb.Append("BN(");
      sb.Append(DecimalString(n));
      ConcatAssoc(t0, "BN(", DecimalString(n));
      sb.Append(")");
      ConcatAssoc(t0, "BN(" + DecimalString(n), ")");
    case Date(t) =>
      sb.Append("D(");
      var str := t;
      if |str| >= 5 && str[|str| - 5..] == ".000Z" {
        str := str[..|str| - 5] + "Z";
      }
      sb.Append(str);
      ConcatAssoc(t0, "D(", str);
      sb.Append(")");
      ConcatAssoc(t0, "D(" + str, ")");
    case Bytes(bytes) =>
      sb.Append("B(");
      sb.Append(HexUpper(bytes));
      ConcatAssoc(t0, "B(", HexUpper(bytes));
      sb.Append(")");
      ConcatAssoc(t0, "B(" + HexUpper(bytes), ")");
    case Array(arr) =>
      RenderContainer(v, DtxtStyle(indent), level, DtxtFormats(show));
      if |arr| == 0 {
        sb.Append("[]");
        return;
      }
      ghost var items := ItemTexts(arr, DtxtStyle(indent), level + 1, DtxtFormats(show));
      sb.Append("[");
      if indent != "" {
        sb.Append("\n");
        ConcatAssoc(t0, "[", "\n");
        ArrayLines(arr, sb, indent, level, show);
        ghost var c := Concat(Lines(items, Repeat(indent, level + 1)));
        ConcatAssoc(t0, "[" + "\n", c);
        ConcatAssoc(t0, "[" + "\n" + c, Repeat(indent, level));
        sb.Append("]");
        ConcatAssoc(t0, "[" + "\n" + c + Repeat(indent, level), "]");
      } else {
        ArrayJoined(arr, sb, level, show);
        ConcatAssoc(t0, "[", Join(items, ","));
        sb.Append("]");
        ConcatAssoc(t0, "[" + Join(items, ","), "]");
      }
    case Object(m) =>
      RenderContainer(v, DtxtStyle(indent), level, DtxtFormats(show));
      if |m| == 0 {
        assert m.Keys == {};
        sb.Append("{}");
        return;
      }
      ghost var fields := FieldTexts(m, DtxtStyle(indent), level + 1, DtxtFormats(show));
      sb.Append("{");
      if indent != "" {
        sb.Append("\n");
        ConcatAssoc(t0, "{", "\n");
        ObjectLines(m, sb, indent, level, show);
        ghost var c := Concat(Lines(fields, Repeat(indent, level + 1)));
        ConcatAssoc(t0, "{" + "\n", c);
        ConcatAssoc(t0, "{" + "\n" + c, Repeat(indent, level));
        sb.Append("}");
        ConcatAssoc(t0, "{" + "\n" + c + Repeat(indent, level), "}");
      } else {
        ObjectJoined(m, sb, level, show);
        ConcatAssoc(t0, "{", Join(fields, ","));
        sb.Append("}");
        ConcatAssoc(t0, "{" + Join(fields, ","), "}");
      }
  }

  /** The `indent != ""` branch of the slice case: each item on its own line, then the
      closing indentation. */
  method ArrayLines(arr: seq<Value>, sb: Builder, indent: string, level: nat, show: string -> string)
    requires DtxtValue(Array(arr)) && indent != ""
    modifies sb
    ensures var items := ItemTexts(arr, DtxtStyle(indent), level + 1, DtxtFormats(show));
      sb.text == old(sb.text) + Concat(Lines(items, Repeat(indent, level + 1))) + Repeat(indent, level)
    decreases Array(arr), 0
  {
    ghost var items := ItemTexts(arr, DtxtStyle(indent), level + 1, DtxtFormats(show));
    ghost var pre := Repeat(indent, level + 1);
    ghost var lines := Lines(items, pre);
    ghost var acc := "";
    var i := 0;
    while i < |arr|
      invariant i <= |arr|
      invariant sb.text == old(sb.text) + acc && acc == Concat(lines[..i])
    {
      ConcatStep(lines, i);
      LineAssoc(acc, pre, items[i]);
      sb.AppendRepeat(indent, level + 1);
      ConcatAssoc(old(sb.text), acc, pre);
      StringifyValue(arr[i], sb, indent, level + 1, show);
      ConcatAssoc(old(sb.text), acc + pre, items[i]);
      sb.Append(",\n");
      ConcatAssoc(old(sb.text), acc + pre + items[i], ",\n");
      acc := acc + lines[i];
      i := i + 1;
    }
    assert lines[..i] == lines;
    sb.AppendRepeat(indent, level);
  }

  /** The compact branch of the slice case: the items with a `,` after all but the last. */
  method ArrayJoined(arr: seq<Value>, sb: Builder, level: nat, show: string -> string)
    requires DtxtValue(Array(arr))
    modifies sb
    ensures sb.text == old(sb.text) + Join(ItemTexts(arr, DtxtStyle(""), level + 1, DtxtFormats(show)), ",")
    decreases Array(arr), 0
  {
    ghost var items := ItemTexts(arr, DtxtStyle(""), level + 1, DtxtFormats(show));
    ghost var acc := "";
    var i := 0;
    while i < |arr|
      invariant i <= |arr|
      invariant sb.text == old(sb.text) + acc
      invariant acc == Join(items[..i], ",") + (if 0 < i < |arr| then "," else "")
    {
      JoinStep(items, i, ",");
      StringifyValue(arr[i], sb, "", level + 1, show);
      ConcatAssoc(old(sb.text), acc, items[i]);
      acc := acc + items[i];
      if i < |arr| - 1 {
        sb.Append(",");
        ConcatAssoc(old(sb.text), acc, ",");
        acc := acc + ",";
      }
      i := i + 1;
    }
    assert items[..i] == items;
  }

  /** The `indent != ""` branch of the map case: `key: value` lines in the order of
      `sort.Strings(keys)`. */
  method ObjectLines(m: map<string, Value>, sb: Builder, indent: string, level: nat, show: string -> string)
    requires DtxtValue(Object(m)) && indent != ""
    modifies sb
    ensures var fields := FieldTexts(m, DtxtStyle(indent), level + 1, DtxtFormats(show));
      sb.text == old(sb.text) + Concat(Lines(fields, Repeat(indent, level + 1))) + Repeat(indent, level)
    decreases Object(m), 0
  {
    ghost var fields := FieldTexts(m, DtxtStyle(indent), level + 1, DtxtFormats(show));
    ghost var pre := Repeat(indent, level + 1);
    ghost var lines := Lines(fields, pre);
    ghost var acc := "";
    var keys := SortedKeys(m.Keys);
    var i := 0;
    while i < |keys|
      invariant i <= |keys|
      invariant sb.text == old(sb.text) + acc && acc == Concat(lines[..i])
    {
      var k := keys[i];
      ghost var r := Render(m[k], DtxtStyle(indent), level + 1, DtxtFormats(show));
      ConcatStep(lines, i);
      MemberLineAssoc(acc, pre, k, ": ", r);
      sb.AppendRepeat(indent, level + 1);
      ConcatAssoc(old(sb.text), acc, pre);
      sb.Append(k);
      ConcatAssoc(old(sb.text), acc + pre, k);
      sb.Append(": ");
      ConcatAssoc(old(sb.text), acc + pre + k, ": ");
      StringifyValue(m[k], sb, indent, level + 1, show);
      ConcatAssoc(old(sb.text), acc + pre + k + ": ", r);
      sb.Append(",\n");
      ConcatAssoc(old(sb.text), acc + pre + k + ": " + r, ",\n");
      acc := acc + lines[i];
      i := i + 1;
    }
    assert lines[..i] == lines;
    sb.AppendRepeat(indent, level);
  }

  /** The compact branch of the map case: `key:value` members with a `,` after all but the
      last. */
  method ObjectJoined(m: map<string, Value>, sb: Builder, level: nat, show: string -> string)
    requires DtxtValue(Object(m))
    modifies sb
    ensures sb.text == old(sb.text) + Join(FieldTexts(m, DtxtStyle(""), level + 1, DtxtFormats(show)), ",")
    decreases Object(m), 0
  {
    ghost var fields := FieldTexts(m, DtxtStyle(""), level + 1, DtxtFormats(show));
    ghost var acc := "";
    var keys := SortedKeys(m.Keys);
    var i := 0;
    while i < |keys|
      invariant i <= |keys|
      invariant sb.text == old(sb.text) + acc
      invariant acc == Join(fields[..i], ",") + (if 0 < i < |keys| then "," else "")
    {
      var k := keys[i];
      ghost var r := Render(m[k], DtxtStyle(""), level + 1, DtxtFormats(show));
      JoinStep(fields, i, ",");
      MemberAssoc(acc, k, ":", r);
      sb.Append(k);
      ConcatAssoc(old(sb.text), acc, k);
      sb.Append(":");
      ConcatAssoc(old(sb.text), acc + k, ":");
      StringifyValue(m[k], sb, "", level + 1, show);
      ConcatAssoc(old(sb.text), acc + k + ":", r);
      acc := acc + fields[i];
      if i < |keys| - 1 {
        sb.Append(",");
        ConcatAssoc(old(sb.text), acc, ",");
        acc := acc + ",";
      }
      i := i + 1;
    }
    assert fields[..i] == fields;
  }

  /** `Stringify`: a fresh builder holding the value's text at depth 0. */
  method Stringify(v: Value, indent: string, show: string -> string) returns (r: string)
    requires DtxtValue(v)
    ensures r == Render(v, DtxtStyle(indent), 0, DtxtFormats(show))
  {
    var sb := new Builder();
    StringifyValue(v, sb, indent, 0, show);
    r := sb.text;
  }
}
