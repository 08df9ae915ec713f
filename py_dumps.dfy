/** The writers of the Python port (`dumps` and `dumps_canonical` in
    `ref-impl/python/dtxt.py`). Python has one integer type, so a `BigInt` is written as the
    plain decimal `str(int)` prints: what both writers produce for a value is the text
    `Layout.Render` gives for the value with every `BigInt` made an `Int` (`Normal`). */
module PyDumps {
  import opened Values
  import opened Text
  import opened Codec
  import opened Layout

  /** `dumps`: items joined by `, `, and `: ` between a key and its value. */
  const PyStyle := Style(Compact(", "), ": ")

  /** `dumps_canonical` with an indent: two spaces a level, whatever indent was passed. */
  const CanonicalStyle := Style(Indented("  "), ": ")

  /** An instant is written as its `isoformat()`, the text a `Date` keeps, with every
      `+00:00` replaced by `Z`. Only an aware date-time gets the replacement in the source,
      but neither a naive date-time's nor a date's `isoformat()` holds `+00:00`. */
  function Printed(t: string): string
  {
    ReplaceAll(t, "+00:00", "Z")
  }

  /** `str(float)` for numbers (a parameter of the model), and the instant's text for dates. */
  function PyFormats(show: string -> string): Formats
  {
    Formats(show, Printed)
  }

  /** The value as a Python object holds it: an `int` for every integer. */
  function Normal(v: Value): (r: Value)
    ensures !r.BigInt?
    decreases v
  {
    match v
    case BigInt(n) => Int(n)
    case Array(a) => Array(seq(|a|, i requires 0 <= i < |a| => Normal(a[i])))
    case Object(m) => Object(map k | k in m :: Normal(m[k]))
    case _ => v
  }

  /** `dumps`. */
  function Dumps(v: Value, show: string -> string): string
    decreases v, 1
  {
    match v
    case Object(m) => "{" + Join(DumpsMembers(m, show), ", ") + "}"
    case Array(a) => "[" + Join(DumpsItems(a, show), ", ") + "]"
    case Str(t) => "`" + t + "`"
    case Bool(b) => if b then "T" else "F"
    case Null => "N"
    case Int(i) => DecimalString(i)
    case BigInt(n) => DecimalString(n)
    case Number(t) => show(t)
    case Date(t) => "D(" + Printed(t) + ")"
    case Bytes(bs) => "B(" + HexUpper(bs) + ")"
  }

  /** The dict case's items `k: v`, in the order of `sorted(obj.keys())`. */
  function DumpsMembers(m: map<string, Value>, show: string -> string): (r: seq<string>)
    ensures |r| == |m.Keys|
    decreases Object(m), 0
  {
    var keys := SortedKeys(m.Keys);
    seq(|keys|, i requires 0 <= i < |keys| => keys[i] + ": " + Dumps(m[keys[i]], show))
  }

  /** The list case's items. */
  function DumpsItems(a: seq<Value>, show: string -> string): (r: seq<string>)
    ensures |r| == |a|
    decreases Array(a), 0
  {
    seq(|a|, i requires 0 <= i < |a| => Dumps(a[i], show))
  }

  /** `_dump` inside `dumps_canonical`: a non-empty container puts each item on a line
      indented by `sp` and two spaces, ends every line with `,`, and closes at `sp`; any
      other value is written by `dumps`. */
  function Dump(v: Value, level: nat, show: string -> string): string
    decreases v, 1
  {
    match v
    case Object(m) =>
      if |m| == 0 then "{}"
      else "{\n" + Join(DumpMembers(m, level, show), ",\n") + ",\n" + Repeat("  ", level) + "}"
    case Array(a) =>
      if |a| == 0 then "[]"
      else "[\n" + Join(DumpItems(a, level, show), ",\n") + ",\n" + Repeat("  ", level) + "]"
    case _ => Dumps(v, show)
  }

  function DumpMembers(m: map<string, Value>, level: nat, show: string -> string): (r: seq<string>)
    ensures |r| == |m.Keys|
    decreases Object(m), 0
  {
    var keys := SortedKeys(m.Keys);
    seq(|keys|, i requires 0 <= i < |keys| =>
      Repeat("  ", level) + "  " + keys[i] + ": " + Dump(m[keys[i]], level + 1, show))
  }

  function DumpItems(a: seq<Value>, level: nat, show: string -> string): (r: seq<string>)
    ensures |r| == |a|
    decreases Array(a), 0
  {
    seq(|a|, i requires 0 <= i < |a| => Repeat("  ", level) + "  " + Dump(a[i], level + 1, show))
  }

  /** `dumps_canonical`: `dumps` without an indent, `_dump` at depth 0 with one. */
  function DumpsCanonical(v: Value, indent: Option<string>, show: string -> string): (r: string)
    ensures indent.None? ==> r == Render(Normal(v), PyStyle, 0, PyFormats(show))
    ensures indent.Some? ==> r == Render(Normal(v), CanonicalStyle, 0, PyFormats(show))
  {
    DumpsRender(v, 0, show);
    DumpRender(v, 0, show);
    if indent.None? then Dumps(v, show) else Dump(v, 0, show)
  }

  // ---------------------------------------------------------------- the layout of `dumps`

  /** `dumps` writes the compact layout's text of the normalised value (at any depth, since
      the compact layout does not depend on it). */
  lemma {:induction false} DumpsRender(v: Value, level: nat, show: string -> string)
    ensures Dumps(v, show) == Render(Normal(v), PyStyle, level, PyFormats(show))
    decreases v, 1
  {
    match v
    case Object(m) => DumpsObject(m, level, show);
    case Array(a) => DumpsArray(a, level, show);
    case _ =>
  }

  /** A normalised object has the same keys, each mapped to the normalised value. */
  lemma NormalFields(m: map<string, Value>)
    ensures Normal(Object(m)).fields.Keys == m.Keys
    ensures forall k :: k in m ==> Normal(Object(m)).fields[k] == Normal(m[k])
  {
    var n := Normal(Object(m)).fields;
    assert n == map k | k in m :: Normal(m[k]);
    assert n.Keys == m.Keys;
  }

  lemma {:induction false} DumpsObject(m: map<string, Value>, level: nat, show: string -> string)
    ensures Dumps(Object(m), show) == Render(Normal(Object(m)), PyStyle, level, PyFormats(show))
    decreases Object(m), 0
  {
    var fmt := PyFormats(show);
    var n := Normal(Object(m)).fields;
    NormalFields(m);
    var fields := FieldTexts(n, PyStyle, level + 1, fmt);
    RenderContainer(Object(n), PyStyle, level, fmt);
    var items := DumpsMembers(m, show);
    var keys := SortedKeys(m.Keys);
    assert SortedKeys(n.Keys) == keys;
    forall i | 0 <= i < |keys| ensures items[i] == fields[i] {
      DumpsRender(m[keys[i]], level + 1, show);
    }
    assert items == fields;
  }

  lemma {:induction false} DumpsArray(a: seq<Value>, level: nat, show: string -> string)
    ensures Dumps(Array(a), show) == Render(Normal(Array(a)), PyStyle, level, PyFormats(show))
    decreases Array(a), 0
  {
    var fmt := PyFormats(show);
    var n := Normal(Array(a)).items;
    var texts := ItemTexts(n, PyStyle, level + 1, fmt);
    RenderContainer(Array(n), PyStyle, level, fmt);
    var items := DumpsItems(a, show);
    forall i | 0 <= i < |a| ensures items[i] == texts[i] {
      DumpsRender(a[i], level + 1, show);
    }
    assert items == texts;
  }

  // ---------------------------------------------------------------- the layout of `_dump`

  /** `_dump` writes the two-space indented layout's text of the normalised value. */
  lemma {:induction false} DumpRender(v: Value, level: nat, show: string -> string)
    ensures Dump(v, level, show) == Render(Normal(v), CanonicalStyle, level, PyFormats(show))
    decreases v, 2
  {
    match v
    case Object(m) => DumpObject(m, level, show);
    case Array(a) => DumpArray(a, level, show);
    case _ =>
  }

  lemma {:induction false} DumpObject(m: map<string, Value>, level: nat, show: string -> string)
    ensures Dump(Object(m), level, show) == Render(Normal(Object(m)), CanonicalStyle, level, PyFormats(show))
    decreases Object(m), 1
  {
    var fmt := PyFormats(show);
    var n := Normal(Object(m)).fields;
    NormalFields(m);
    var fields := FieldTexts(n, CanonicalStyle, level + 1, fmt);
    if |m| == 0 {
      assert fields == [];
      RenderContainer(Object(n), CanonicalStyle, level, fmt);
    } else {
      var items := DumpMembers(m, level, show);
      DumpMembersLayout(m, level, show);
      assert "{" + "\n" == "{\n";
      calc {
        Dump(Object(m), level, show);
        "{\n" + Join(items, ",\n") + ",\n" + Repeat("  ", level) + "}";
        { IndentedJoin("{", "}", items, fields, "  ", level); }
        Container("{", "}", fields, Indented("  "), level);
        { RenderContainer(Object(n), CanonicalStyle, level, fmt); }
        Render(Object(n), CanonicalStyle, level, fmt);
      }
    }
  }

  /** Each member line of `_dump` is the indentation and the layout's member text. */
  lemma {:induction false} DumpMembersLayout(m: map<string, Value>, level: nat, show: string -> string)
    ensures |Normal(Object(m)).fields.Keys| == |m.Keys|
    ensures forall i :: 0 <= i < |m.Keys| ==>
      DumpMembers(m, level, show)[i] ==
      Repeat("  ", level) + "  " + FieldTexts(Normal(Object(m)).fields, CanonicalStyle, level + 1, PyFormats(show))[i]
    decreases Object(m), 0
  {
    var fmt := PyFormats(show);
    var n := Normal(Object(m)).fields;
    NormalFields(m);
    var fields := FieldTexts(n, CanonicalStyle, level + 1, fmt);
    var keys := SortedKeys(m.Keys);
    assert SortedKeys(n.Keys) == keys;
    var items := DumpMembers(m, level, show);
    var sp := Repeat("  ", level);
    forall i | 0 <= i < |keys| ensures items[i] == sp + "  " + fields[i] {
      DumpRender(m[keys[i]], level + 1, show);
      ConcatAssoc(sp + "  ", keys[i], ": ");
      ConcatAssoc(sp + "  ", keys[i] + ": ", Render(n[keys[i]], CanonicalStyle, level + 1, fmt));
    }
  }

  lemma {:induction false} DumpArray(a: seq<Value>, level: nat, show: string -> string)
    ensures Dump(Array(a), level, show) == Render(Normal(Array(a)), CanonicalStyle, level, PyFormats(show))
    decreases Array(a), 0
  {
    var fmt := PyFormats(show);
    var n := Normal(Array(a)).items;
    var texts := ItemTexts(n, CanonicalStyle, level + 1, fmt);
    RenderContainer(Array(n), CanonicalStyle, level, fmt);
    if |a| > 0 {
      var items := DumpItems(a, level, show);
      forall i | 0 <= i < |a| ensures items[i] == Repeat("  ", level) + "  " + texts[i] {
        DumpRender(a[i], level + 1, show);
      }
      assert "[" + "\n" == "[\n";
      IndentedJoin("[", "]", items, texts, "  ", level);
      assert Dump(Array(a), level, show) == "[\n" + Join(items, ",\n") + ",\n" + Repeat("  ", level) + "]";
    } else {
      assert texts == [];
    }
    assert Normal(Array(a)) == Array(n);
  }
}
