/** The Rust port's writer (`stringify` and `stringify_value` in `ref-impl/rs/src/lib.rs`):
    a recursive walk that appends to one growing `String`. Each method is proved to append
    exactly the text `Layout.Render` describes, for the style the `indent` option selects. */
module RsStringify {
  import opened Values
  import opened Text
  import opened Codec
  import opened Layout

  /** The values a Rust `DSFValue` can hold: there is no integer variant (every number is an
      `f64`) and `BigInt` is an `i64`. */
  predicate RsValue(v: Value)
    decreases v
  {
    match v
    case Int(_) => false
    case BigInt(n) => InI64(n)
    case Array(a) => forall i :: 0 <= i < |a| ==> RsValue(a[i])
    case Object(m) => forall k :: k in m ==> RsValue(m[k])
    case _ => true
  }

  /** `indent == None` is the compact style (`k:v`, items joined by `,`); `Some(ind)` — even
      `Some("")` — is the indented style with `k: v`. */
  function RsStyle(indent: Option<string>): Style
  {
    match indent
    case None => Style(Compact(","), ":")
    case Some(ind) => Style(Indented(ind), ": ")
  }

  /** `n.to_string()` for numbers (the float formatting, a parameter of the model), and the
      `Date` payload as it was read. */
  function RsFormats(show: string -> string): Formats
  {
    Formats(show, t => t)
  }

  lemma {:induction false} HexUpperConcat(a: seq<byte>, b: seq<byte>)
    ensures HexUpper(a + b) == HexUpper(a) + HexUpper(b)
  {
    if a != [] {
      assert (a + b)[1..] == a[1..] + b;
      HexUpperConcat(a[1..], b);
    } else {
      assert a + b == b;
    }
  }

  /** The `B(..)` loop: `{:02X}` for each byte. */
  method AppendHex(out: Builder, bytes: seq<byte>)
    modifies out
    ensures out.text == old(out.text) + HexUpper(bytes)
  {
    ghost var acc := "";
    var i := 0;
    while i < |bytes|
      invariant i <= |bytes|
      invariant out.text == old(out.text) + acc && acc == HexUpper(bytes[..i])
    {
      var b := bytes[i];
      assert bytes[..i + 1] == bytes[..i] + [b];
      HexUpperConcat(bytes[..i], [b]);
      var pair := [HexDigitUpper(b / 16), HexDigitUpper(b % 16)];
      assert HexUpper([b]) == pair;
      out.Append(pair);
      ConcatAssoc(old(out.text), acc, pair);
      acc := acc + pair;
      i := i + 1;
    }
    assert bytes[..i] == bytes;
  }

  /** `stringify_value`. */
  method StringifyValue(v: Value, out: Builder, indent: Option<string>, level: nat, show: string -> string)
    requires RsValue(v)
    modifies out
    ensures out.text == old(out.text) + Render(v, RsStyle(indent), level, RsFormats(show))
    decreases v, 1
  {
    ghost var t0 := out.text;
    match v
    case Str(s) =>
      out.Append("`");
      out.Append(s);
      ConcatAssoc(t0, "`", s);
      out.Append("`");
      ConcatAssoc(t0, "`" + s, "`");
    case Number(n) =>
      out.Append(show(n));
    case Bool(b) =>
      out.Append(if b then "T" else "F");
    case Null =>
      out.Append("N");
    case BigInt(n) =>
      out.Append("BN(");
      out.Append(DecimalString(n));
      ConcatAssoc(t0, "BN(", DecimalString(n));
      out.Append(")");
      ConcatAssoc(t0, "BN(" + DecimalString(n), ")");
    case Date(s) =>
      out.Append("D(");
      out.Append(s);
      ConcatAssoc(t0, "D(", s);
      out.Append(")");
      ConcatAssoc(t0, "D(" + s, ")");
    case Bytes(bytes) =>
      out.Append("B(");
      AppendHex(out, bytes);
      ConcatAssoc(t0, "B(", HexUpper(bytes));
      out.Append(")");
      ConcatAssoc(t0, "B(" + HexUpper(bytes), ")");
    case Array(arr) =>
      RenderContainer(v, RsStyle(indent), level, RsFormats(show));
      if |arr| == 0 {
        out.Append("[]");
        return;
      }
      ghost var items := ItemTexts(arr, RsStyle(indent), level + 1, RsFormats(show));
      out.Append("[");
      if indent.Some? {
        var ind := indent.value;
        out.Append("\n");
        ConcatAssoc(t0, "[", "\n");
        ArrayLines(arr, out, ind, level, show);
        ghost var c := Concat(Lines(items, Repeat(ind, level + 1)));
        ConcatAssoc(t0, "[" + "\n", c);
        ConcatAssoc(t0, "[" + "\n" + c, Repeat(ind, level));
        out.Append("]");
        ConcatAssoc(t0, "[" + "\n" + c + Repeat(ind, level), "]");
      } else {
        ArrayJoined(arr, out, level, show);
        ConcatAssoc(t0, "[", Join(items, ","));
        out.Append("]");
        ConcatAssoc(t0, "[" + Join(items, ","), "]");
      }
    case Object(map_) =>
      RenderContainer(v, RsStyle(indent), level, RsFormats(show));
      if |map_| == 0 {
        assert map_.Keys == {};
        out.Append("{}");
        return;
      }
      ghost var fields := FieldTexts(map_, RsStyle(indent), level + 1, RsFormats(show));
      out.Append("{");
      if indent.Some? {
        var ind := indent.value;
        out.Append("\n");
        ConcatAssoc(t0, "{", "\n");
        ObjectLines(map_, out, ind, level, show);
        ghost var c := Concat(Lines(fields, Repeat(ind, level + 1)));
        ConcatAssoc(t0, "{" + "\n", c);
        ConcatAssoc(t0, "{" + "\n" + c, Repeat(ind, level));
        out.Append("}");
        ConcatAssoc(t0, "{" + "\n" + c + Repeat(ind, level), "}");
      } else {
        ObjectJoined(map_, out, level, show);
        ConcatAssoc(t0, "{", Join(fields, ","));
        out.Append("}");
        ConcatAssoc(t0, "{" + Join(fields, ","), "}");
      }
  }

  /** The indented branch of the array case: each item on its own line, then the closing
      indentation. */
  method ArrayLines(arr: seq<Value>, out: Builder, ind: string, level: nat, show: string -> string)
    requires RsValue(Array(arr))
    modifies out
    ensures var items := ItemTexts(arr, RsStyle(Some(ind)), level + 1, RsFormats(show));
      out.text == old(out.text) + Concat(Lines(items, Repeat(ind, level + 1))) + Repeat(ind, level)
    decreases Array(arr), 0
  {
    ghost var items := ItemTexts(arr, RsStyle(Some(ind)), level + 1, RsFormats(show));
    ghost var pre := Repeat(ind, level + 1);
    ghost var lines := Lines(items, pre);
    ghost var acc := "";
    var i := 0;
    while i < |arr|
      invariant i <= |arr|
      invariant out.text == old(out.text) + acc && acc == Concat(lines[..i])
    {
      ConcatStep(lines, i);
      LineAssoc(acc, pre, items[i]);
      out.AppendRepeat(ind, level + 1);
      ConcatAssoc(old(out.text), acc, pre);
      StringifyValue(arr[i], out, Some(ind), level + 1, show);
      ConcatAssoc(old(out.text), acc + pre, items[i]);
      out.Append(",\n");
      ConcatAssoc(old(out.text), acc + pre + items[i], ",\n");
      acc := acc + lines[i];
      i := i + 1;
    }
    assert lines[..i] == lines;
    out.AppendRepeat(ind, level);
  }

  /** The compact branch of the array case: the items with a `,` after all but the last. */
  method ArrayJoined(arr: seq<Value>, out: Builder, level: nat, show: string -> string)
    requires RsValue(Array(arr))
    modifies out
    ensures out.text == old(out.text) + Join(ItemTexts(arr, RsStyle(None), level + 1, RsFormats(show)), ",")
    decreases Array(arr), 0
  {
    ghost var items := ItemTexts(arr, RsStyle(None), level + 1, RsFormats(show));
    ghost var acc := "";
    var i := 0;
    while i < |arr|
      invariant i <= |arr|
      invariant out.text == old(out.text) + acc
      invariant acc == Join(items[..i], ",") + (if 0 < i < |arr| then "," else "")
    {
      JoinStep(items, i, ",");
      StringifyValue(arr[i], out, None, level + 1, show);
      ConcatAssoc(old(out.text), acc, items[i]);
      acc := acc + items[i];
      if i < |arr| - 1 {
        out.Append(",");
        ConcatAssoc(old(out.text), acc, ",");
        acc := acc + ",";
      }
      i := i + 1;
    }
    assert items[..i] == items;
  }

  /** The indented branch of the object case: `key: value` lines in ascending key order. */
  method ObjectLines(map_: map<string, Value>, out: Builder, ind: string, level: nat, show: string -> string)
    requires RsValue(Object(map_))
    modifies out
    ensures var fields := FieldTexts(map_, RsStyle(Some(ind)), level + 1, RsFormats(show));
      out.text == old(out.text) + Concat(Lines(fields, Repeat(ind, level + 1))) + Repeat(ind, level)
    decreases Object(map_), 0
  {
    ghost var fields := FieldTexts(map_, RsStyle(Some(ind)), level + 1, RsFormats(show));
    ghost var pre := Repeat(ind, level + 1);
    ghost var lines := Lines(fields, pre);
    ghost var acc := "";
    var keys := SortedKeys(map_.Keys);
    var i := 0;
    while i < |keys|
      invariant i <= |keys|
      invariant out.text == old(out.text) + acc && acc == Concat(lines[..i])
    {
      var key := keys[i];
      ghost var r := Render(map_[key], RsStyle(Some(ind)), level + 1, RsFormats(show));
      ConcatStep(lines, i);
      MemberLineAssoc(acc, pre, key, ": ", r);
      out.AppendRepeat(ind, level + 1);
      ConcatAssoc(old(out.text), acc, pre);
      out.Append(key);
      ConcatAssoc(old(out.text), acc + pre, key);
      out.Append(": ");
      ConcatAssoc(old(out.text), acc + pre + key, ": ");
      StringifyValue(map_[key], out, Some(ind), level + 1, show);
      ConcatAssoc(old(out.text), acc + pre + key + ": ", r);
      out.Append(",\n");
      ConcatAssoc(old(out.text), acc + pre + key + ": " + r, ",\n");
      acc := acc + lines[i];
      i := i + 1;
    }
    assert lines[..i] == lines;
    out.AppendRepeat(ind, level);
  }

  /** The compact branch of the object case: `key:value` members with a `,` after all but
      the last. */
  method ObjectJoined(map_: map<string, Value>, out: Builder, level: nat, show: string -> string)
    requires RsValue(Object(map_))
    modifies out
    ensures out.text == old(out.text) + Join(FieldTexts(map_, RsStyle(None), level + 1, RsFormats(show)), ",")
    decreases Object(map_), 0
  {
    ghost var fields := FieldTexts(map_, RsStyle(None), level + 1, RsFormats(show));
    ghost var acc := "";
    var keys := SortedKeys(map_.Keys);
    var i := 0;
    while i < |keys|
      invariant i <= |keys|
      invariant out.text == old(out.text) + acc
      invariant acc == Join(fields[..i], ",") + (if 0 < i < |keys| then "," else "")
    {
      var key := keys[i];
      ghost var r := Render(map_[key], RsStyle(None), level + 1, RsFormats(show));
      JoinStep(fields, i, ",");
      MemberAssoc(acc, key, ":", r);
      out.Append(key);
      ConcatAssoc(old(out.text), acc, key);
      out.Append(":");
      ConcatAssoc(old(out.text), acc + key, ":");
      StringifyValue(map_[key], out, None, level + 1, show);
      ConcatAssoc(old(out.text), acc + key + ":", r);
      acc := acc + fields[i];
      if i < |keys| - 1 {
        out.Append(",");
        ConcatAssoc(old(out.text), acc, ",");
        acc := acc + ",";
      }
      i := i + 1;
    }
    assert fields[..i] == fields;
  }

  /** `stringify`: a fresh buffer holding the value's text at depth 0. */
  method Stringify(v: Value, indent: Option<string>, show: string -> string) returns (r: string)
    requires RsValue(v)
    ensures r == Render(v, RsStyle(indent), 0, RsFormats(show))
  {
    var out := new Builder();
    StringifyValue(v, out, indent, 0, show);
    r := out.text;
  }
}
