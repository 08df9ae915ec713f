/** How the writers' layout looks to the two cursor parsers (`ref-impl/rs/src/lib.rs` and
    `ref-impl/go/dtxt/dtxt.go`): where a container's items, gaps and brackets sit in the
    written text and how the parsers' whitespace and comma scans step over them. Both ports'
    round-trip proofs are built from these facts. */
module CursorLayout {
  import opened Values
  import opened Text
  import opened Cursor
  import opened Layout

  /** A character that can start a value or member text: not blank, not a comment, and not
      a separator or closer. */
  predicate Opens(c: char)
  {
    !IsBlank(c) && c != '/' && c != ',' && c != ']' && c != '}'
  }

  /** Position `q` is the end of the input, or holds a separator, a closer or a blank. */
  predicate Ends(s: string, q: nat)
  {
    q <= |s| && (q == |s| || s[q] == ',' || s[q] == ']' || s[q] == '}' || IsBlank(s[q]))
  }

  lemma ContainerHead(open: char, close: char, items: seq<string>, layout: Layout, level: nat)
    ensures var r := Container([open], [close], items, layout, level); |r| > 0 && r[0] == open
  {
  }

  /** After a value, `AfterComma` steps over exactly the gap the writer put there. */
  lemma AfterCommaGap(s: string, n: nat, t: nat, g: string)
    requires IsAt(s, n, g) && CommaGap(g) && t == n + |g|
    requires t < |s| && !IsBlank(s[t]) && s[t] != '/' && s[t] != ','
    ensures AfterComma(s, n) == t
  {
    if AllBlank(g) {
      SkipWsBlanks(s, n, g);
    } else {
      IsAtChar(s, n, g, 0);
      IsAtConcat(s, n, g[..1], g[1..]);
      assert g[..1] + g[1..] == g;
      SkipWsBlanks(s, n + 1, g[1..]);
    }
  }

  /** The concatenation of pieces from `i` is piece `i` followed by the rest. */
  lemma ConcatFrom(pieces: seq<string>, i: nat)
    requires i < |pieces|
    ensures Concat(pieces[i..]) == pieces[i] + Concat(pieces[i + 1..])
  {
    assert pieces[i..][1..] == pieces[i + 1..];
  }

  /** Text `x`, `g`, `t` and `c` written one after the other, read piece by piece. */
  lemma IsAtThree(s: string, q: nat, x: string, g: string, y: string, c: string)
    returns (n: nat, t: nat)
    requires IsAt(s, q, x + g + y + c)
    ensures IsAt(s, q, x) && n == q + |x| && IsAt(s, n, g) && t == n + |g| && IsAt(s, t, y + c)
  {
    ConcatAssoc(x + g, y, c);
    IsAtConcat(s, q, x + g, y + c);
    IsAtConcat(s, q, x, g);
    n := q + |x|;
    t := n + |g|;
  }

  /** Where the pieces from item `i` on and a closing bracket are written, item `i` comes
      first, then its gap, then the remaining pieces and the bracket. */
  lemma PieceSplit(s: string, q: nat, items: seq<string>, i: nat, layout: Layout, level: nat, close: char)
    returns (n: nat, t: nat)
    requires i < |items| && IsAt(s, q, Concat(Pieces(items, layout, level)[i..]) + [close])
    ensures IsAt(s, q, items[i]) && n == q + |items[i]|
    ensures IsAt(s, n, Gap(layout, level, i, |items|)) && t == n + |Gap(layout, level, i, |items|)|
    ensures IsAt(s, t, Concat(Pieces(items, layout, level)[i + 1..]) + [close])
    ensures q + |Concat(Pieces(items, layout, level)[i..])| == t + |Concat(Pieces(items, layout, level)[i + 1..])|
  {
    var pieces := Pieces(items, layout, level);
    var x := items[i];
    var g := Gap(layout, level, i, |items|);
    var tail := Concat(pieces[i + 1..]);
    ConcatFrom(pieces, i);
    assert pieces[i] == x + g;
    n, t := IsAtThree(s, q, x, g, tail, [close]);
  }

  /** The first character where the pieces from item `j` on and a closing bracket are
      written: the first character of item `j`, or the bracket after the last item. */
  lemma PieceHead(s: string, q: nat, items: seq<string>, j: nat, layout: Layout, level: nat, close: char)
    requires j <= |items| && IsAt(s, q, Concat(Pieces(items, layout, level)[j..]) + [close])
    requires j < |items| ==> |items[j]| > 0
    ensures q < |s| && s[q] == (if j < |items| then items[j][0] else close)
    ensures j == |items| ==> Concat(Pieces(items, layout, level)[j..]) == ""
  {
    var pieces := Pieces(items, layout, level);
    if j < |items| {
      ConcatFrom(pieces, j);
      IsAtChar(s, q, Concat(pieces[j..]) + [close], 0);
    } else {
      assert pieces[j..] == [];
      IsAtChar(s, q, [close], 0);
    }
  }

  /** Item texts that are not empty and start with a character that opens a value. */
  predicate AllOpen(items: seq<string>)
  {
    forall j :: 0 <= j < |items| ==> |items[j]| > 0 && Opens(items[j][0])
  }

  /** What the element and member loops see of item `i` of a container written by the
      writer: the item starts at `q` with a character that opens a value, ends at `n` with a
      separator, a closer or a blank, and `AfterComma` moves on to `t`, where the pieces
      after it are written. */
  lemma ItemLayout(s: string, q: nat, e: nat, items: seq<string>, i: nat, style: Style, level: nat, close: char)
    returns (n: nat, t: nat)
    requires Spaced(style) && i < |items| && AllOpen(items) && (close == ']' || close == '}')
    requires IsAt(s, q, Concat(Pieces(items, style.layout, level)[i..]) + [close])
    requires e == q + |Concat(Pieces(items, style.layout, level)[i..])| + 1
    ensures IsAt(s, q, items[i]) && n == q + |items[i]| && Ends(s, n)
    ensures q < |s| && Opens(s[q]) && n <= t < |s| && AfterComma(s, n) == t
    ensures IsAt(s, t, Concat(Pieces(items, style.layout, level)[i + 1..]) + [close])
    ensures e == t + |Concat(Pieces(items, style.layout, level)[i + 1..])| + 1
  {
    var g := Gap(style.layout, level, i, |items|);
    n, t := PieceSplit(s, q, items, i, style.layout, level, close);
    GapShape(style, level, i, |items|);
    PieceHead(s, t, items, i + 1, style.layout, level, close);
    GapStep(s, q, n, t, items[i], g, close);
  }

  /** An item followed by a comma gap and then a closer or the next item. */
  lemma GapStep(s: string, q: nat, n: nat, t: nat, item: string, g: string, close: char)
    requires IsAt(s, q, item) && |item| > 0 && Opens(item[0]) && n == q + |item|
    requires IsAt(s, n, g) && CommaGap(g) && t == n + |g| && t < |s|
    requires (close == ']' || close == '}') && (s[t] == close || Opens(s[t]))
    requires g == [] ==> s[t] == close
    ensures q < |s| && Opens(s[q]) && Ends(s, n) && AfterComma(s, n) == t
  {
    IsAtChar(s, q, item, 0);
    if g != [] { IsAtChar(s, n, g, 0); }
    AfterCommaGap(s, n, t, g);
  }

  /** A non-empty container written at `p` and ending before `e`: after its opening bracket
      and the lead, the loop starts at `q`, where the pieces and the closing bracket are
      written. */
  lemma ContainerStart(s: string, p: nat, e: nat, open: char, close: char, items: seq<string>, style: Style, level: nat)
    returns (q: nat)
    requires items != [] && AllOpen(items) && Spaced(style)
    requires IsAt(s, p, Container([open], [close], items, style.layout, level))
    requires e == p + |Container([open], [close], items, style.layout, level)|
    ensures p < |s| && SkipWs(s, p + 1) == q
    ensures IsAt(s, q, Concat(Pieces(items, style.layout, level)[0..]) + [close])
    ensures e == q + |Concat(Pieces(items, style.layout, level)[0..])| + 1
  {
    var lead := Lead(style.layout, level);
    var b;
    b, q := ContainerSplit(s, p, e, open, close, items, style.layout, level);
    GapShape(style, level, 0, |items|);
    PieceHead(s, q, items, 0, style.layout, level, close);
    LeadSkip(s, p, q, lead);
  }

  lemma LeadSkip(s: string, p: nat, q: nat, lead: string)
    requires IsAt(s, p + 1, lead) && AllBlank(lead) && q == p + 1 + |lead| && q < |s| && Opens(s[q])
    ensures SkipWs(s, p + 1) == q
  {
    SkipWsBlanks(s, p + 1, lead);
  }

  /** The text of a non-empty container: the opening bracket, the lead, the pieces and the
      closing bracket. */
  lemma ContainerSplit(s: string, p: nat, e: nat, open: char, close: char, items: seq<string>, layout: Layout, level: nat)
    returns (b: nat, q: nat)
    requires items != [] && IsAt(s, p, Container([open], [close], items, layout, level))
    requires e == p + |Container([open], [close], items, layout, level)|
    ensures p < |s| && s[p] == open
    ensures b == p + 1 && IsAt(s, b, Lead(layout, level)) && q == b + |Lead(layout, level)|
    ensures IsAt(s, q, Concat(Pieces(items, layout, level)[0..]) + [close])
    ensures e == q + |Concat(Pieces(items, layout, level)[0..])| + 1
  {
    var lead := Lead(layout, level);
    var pieces := Pieces(items, layout, level);
    ContainerPieces([open], [close], items, layout, level);
    assert pieces[0..] == pieces;
    b, q := IsAtThree(s, p, [open], lead, Concat(pieces), [close]);
    IsAtChar(s, p, [open], 0);
  }

  lemma TakeSucc<T>(a: seq<T>, i: nat)
    requires i < |a|
    ensures a[..i] + [a[i]] == a[..i + 1]
  {
  }

  /** The members read from the first `i` keys. */
  function Upto(m: map<string, Value>, keys: seq<string>, i: nat): map<string, Value>
    requires i <= |keys|
  {
    map k | k in m && k in keys[..i] :: m[k]
  }

  lemma UptoStep(m: map<string, Value>, keys: seq<string>, i: nat)
    requires i < |keys| && keys[i] in m
    ensures Upto(m, keys, i)[keys[i] := m[keys[i]]] == Upto(m, keys, i + 1)
  {
    assert keys[..i + 1] == keys[..i] + [keys[i]];
  }

  lemma UptoAll(m: map<string, Value>)
    ensures Upto(m, SortedKeys(m.Keys), |m.Keys|) == m
  {
    var keys := SortedKeys(m.Keys);
    SortedKeysSpec(m.Keys);
    assert keys[..|m.Keys|] == keys;
  }

  lemma UptoNone(m: map<string, Value>, keys: seq<string>)
    ensures Upto(m, keys, 0) == map[]
  {
  }

  /** The key of member `i` is not among the keys before it. */
  lemma KeyFresh(m: map<string, Value>, i: nat)
    requires i < |m.Keys|
    ensures SortedKeys(m.Keys)[i] !in Upto(m, SortedKeys(m.Keys), i)
  {
    var keys := SortedKeys(m.Keys);
    SortedKeysSpec(m.Keys);
    forall j | 0 <= j < i ensures keys[j] != keys[i] { StrictlySortedDistinct(keys, j, i); }
  }

  /** The key of a member text and the colon after it. */
  lemma KeyColon(s: string, q: nat, k: nat, c: nat, key: string, colon: string, r: string)
    requires IsAt(s, q, key + colon + r) && AllIdent(key) && |colon| > 0 && colon[0] == ':'
    requires AllBlank(colon[1..]) && |r| > 0 && Opens(r[0])
    requires k == q + |key| && c == k + |colon|
    ensures IdentEnd(s, q) == k && s[q..k] == key
    ensures SkipWs(s, k) == k && k < |s| && s[k] == ':'
    ensures SkipWs(s, k + 1) == c
    ensures IsAt(s, c, r)
  {
    IsAtConcat(s, q, key + colon, r);
    IsAtConcat(s, q, key, colon);
    IsAtChar(s, k, colon, 0);
    IdentEndAt(s, q, key);
    IsAtChar(s, c, r, 0);
    IsAtConcat(s, k, colon[..1], colon[1..]);
    assert colon[..1] + colon[1..] == colon;
    SkipWsBlanks(s, k + 1, colon[1..]);
  }
}
