/** The writer of the Go `dsf` port (`Stringify` and `stringifyRecursive` in
    `ref-impl/go/dsf/dsf.go`): each container's item texts are built first and joined with
    `strings.Join`. The writer is proved to produce the text `Layout.Render` describes, for
    the style the `indent` argument selects. */
module DsfStringify {
  import opened Values
  import opened Text
  import opened Codec
  import opened Layout

  /** A non-empty `indent` is the indented style, the empty one the compact style with items
      joined by `,`; a key and its value are always separated by `: `. */
  function DsfStyle(indent: string): Style
  {
    if indent != "" then Style(Indented(indent), ": ") else Style(Compact(","), ": ")
  }

  /** An instant is written as `Format(time.RFC3339)`, the text a `Date` keeps here. */
  function Verbatim(t: string): string
  {
    t
  }

  /** `%g` for numbers (a parameter of the model), and the instant's text for dates. */
  function DsfFormats(show: string -> string): Formats
  {
    Formats(show, Verbatim)
  }

  /** `stringifyRecursive`. */
  function StringifyRecursive(v: Value, indent: string, level: nat, show: string -> string): string
    decreases v, 1
  {
    match v
    case Object(m) =>
      if |m| == 0 then "{}" else Enclose("{", "}", ObjectItems(m, indent, level, show), indent, Repeat(indent, level))
    case Array(a) =>
      if |a| == 0 then "[]" else Enclose("[", "]", ArrayItems(a, indent, level, show), indent, Repeat(indent, level))
    case Str(t) => "`" + t + "`"
    case Bool(b) => if b then "T" else "F"
    case Null => "N"
    case Int(i) => DecimalString(i)
    case Number(t) => show(t)
    case BigInt(n) => "BN(" + DecimalString(n) + ")"
    case Bytes(bs) => "B(" + HexUpper(bs) + ")"
    case Date(t) => "D(" + t + ")"
  }

  /** The member items of the map case: `sp`, `indent`, the key, `: ` and the value's text,
      in the order of `sort.Strings(keys)`. */
  function ObjectItems(m: map<string, Value>, indent: string, level: nat, show: string -> string): (r: seq<string>)
    ensures |r| == |m.Keys|
    decreases Object(m), 0
  {
    var keys := SortedKeys(m.Keys);
    seq(|keys|, i requires 0 <= i < |keys| =>
      Repeat(indent, level) + indent + keys[i] + ": " + StringifyRecursive(m[keys[i]], indent, level + 1, show))
  }

  /** The items of the slice case: `sp`, `indent` and the item's text. */
  function ArrayItems(a: seq<Value>, indent: string, level: nat, show: string -> string): (r: seq<string>)
    ensures |r| == |a|
    decreases Array(a), 0
  {
    seq(|a|, i requires 0 <= i < |a| => Repeat(indent, level) + indent + StringifyRecursive(a[i], indent, level + 1, show))
  }

  /** The end of both container cases: the items joined by `,` (and a line feed when
      indenting), then the brackets, with a last `,`, a line feed and `sp` before the
      closing bracket when indenting. */
  function Enclose(open: string, close: string, items: seq<string>, indent: string, sp: string): string
  {
    var sep := if indent != "" then "\n" else "";
    var inner := Join(items, "," + sep);
    if indent != "" then open + "\n" + inner + ",\n" + sp + close else open + inner + close
  }

  /** `Stringify`: the value's text at depth 0. */
  function Stringify(v: Value, indent: string, show: string -> string): (r: string)
    ensures r == Render(v, DsfStyle(indent), 0, DsfFormats(show))
  {
    StringifyRender(v, indent, 0, show);
    StringifyRecursive(v, indent, 0, show)
  }

  /** `stringifyRecursive` writes the layout's text of every value. */
  lemma {:induction false} StringifyRender(v: Value, indent: string, level: nat, show: string -> string)
    ensures StringifyRecursive(v, indent, level, show) == Render(v, DsfStyle(indent), level, DsfFormats(show))
    decreases v, 1
  {
    match v
    case Object(m) => ObjectRender(m, indent, level, show);
    case Array(a) => ArrayRender(a, indent, level, show);
    case _ =>
  }

  lemma {:induction false} ObjectRender(m: map<string, Value>, indent: string, level: nat, show: string -> string)
    ensures StringifyRecursive(Object(m), indent, level, show) == Render(Object(m), DsfStyle(indent), level, DsfFormats(show))
    decreases Object(m), 0
  {
    var style := DsfStyle(indent);
    var fmt := DsfFormats(show);
    var fields := FieldTexts(m, style, level + 1, fmt);
    RenderContainer(Object(m), style, level, fmt);
    if |m| == 0 {
      assert fields == [];
    } else {
      var keys := SortedKeys(m.Keys);
      var items := ObjectItems(m, indent, level, show);
      var sp := Repeat(indent, level);
      forall i | 0 <= i < |keys| ensures items[i] == sp + indent + fields[i] {
        StringifyRender(m[keys[i]], indent, level + 1, show);
        ConcatAssoc(sp + indent, keys[i], ": ");
        ConcatAssoc(sp + indent, keys[i] + ": ", Render(m[keys[i]], style, level + 1, fmt));
      }
      ContainerText("{", "}", items, fields, indent, level);
    }
  }

  lemma {:induction false} ArrayRender(a: seq<Value>, indent: string, level: nat, show: string -> string)
    ensures StringifyRecursive(Array(a), indent, level, show) == Render(Array(a), DsfStyle(indent), level, DsfFormats(show))
    decreases Array(a), 0
  {
    var style := DsfStyle(indent);
    var fmt := DsfFormats(show);
    var texts := ItemTexts(a, style, level + 1, fmt);
    RenderContainer(Array(a), style, level, fmt);
    if |a| > 0 {
      var items := ArrayItems(a, indent, level, show);
      forall i | 0 <= i < |a| ensures items[i] == Repeat(indent, level) + indent + texts[i] {
        StringifyRender(a[i], indent, level + 1, show);
      }
      ContainerText("[", "]", items, texts, indent, level);
    }
  }

  /** `Enclose` over item texts each indented by `indent` at depth `level + 1` is the
      layout's text of the container. */
  lemma ContainerText(open: string, close: string, items: seq<string>, texts: seq<string>, indent: string, level: nat)
    requires texts != [] && |items| == |texts|
    requires forall i :: 0 <= i < |texts| ==> items[i] == Repeat(indent, level) + indent + texts[i]
    ensures Enclose(open, close, items, indent, Repeat(indent, level)) == Container(open, close, texts, DsfStyle(indent).layout, level)
  {
    if indent == "" {
      assert "," + "" == ",";
      CompactText(open, close, items, texts, level);
    } else {
      assert "," + "\n" == ",\n";
      IndentedJoin(open, close, items, texts, indent, level);
    }
  }

  lemma CompactText(open: string, close: string, items: seq<string>, texts: seq<string>, level: nat)
    requires texts != [] && |items| == |texts|
    requires forall i :: 0 <= i < |texts| ==> items[i] == Repeat("", level) + "" + texts[i]
    ensures open + Join(items, ",") + close == Container(open, close, texts, Compact(","), level)
  {
    RepeatEmpty(level);
    forall i | 0 <= i < |texts| ensures items[i] == texts[i] {
      assert Repeat("", level) + "" + texts[i] == texts[i];
    }
    assert items == texts;
  }

  lemma {:induction false} RepeatEmpty(n: nat)
    ensures Repeat("", n) == ""
  {
    if n > 0 { RepeatEmpty(n - 1); }
  }
}
