/** Character classes, string ordering and the string helpers the serializers use:
    sorting of object keys, joining, repetition, and an append-only text buffer. */
module Text {

  // ---------------------------------------------------------------- character classes

  predicate IsDigit(c: char) { '0' <= c <= '9' }

  predicate IsAsciiLetter(c: char) { 'A' <= c <= 'Z' || 'a' <= c <= 'z' }

  /** `[A-Za-z0-9_]`: the characters of keys and constructor names in every port. */
  predicate IsIdentChar(c: char) { IsAsciiLetter(c) || IsDigit(c) || c == '_' }

  predicate IsHexDigit(c: char) { IsDigit(c) || 'a' <= c <= 'f' || 'A' <= c <= 'F' }

  /** True when every character of `s` is an identifier character. */
  predicate AllIdent(s: string) { forall i :: 0 <= i < |s| ==> IsIdentChar(s[i]) }

  /** True when `c` does not occur in `s`. */
  predicate Free(s: string, c: char) { forall i :: 0 <= i < |s| ==> s[i] != c }

  // ---------------------------------------------------------------- substrings

  /** `r` occurs in `s` starting at position `p`. */
  predicate IsAt(s: string, p: nat, r: string)
  {
    p + |r| <= |s| && s[p..p + |r|] == r
  }

  lemma IsAtConcat(s: string, p: nat, a: string, b: string)
    ensures IsAt(s, p, a + b) <==> IsAt(s, p, a) && IsAt(s, p + |a|, b)
  {
    if IsAt(s, p, a) && IsAt(s, p + |a|, b) {
      assert s[p..p + |a + b|] == s[p..p + |a|] + s[p + |a|..p + |a| + |b|];
    }
    if IsAt(s, p, a + b) {
      assert s[p..p + |a|] == (a + b)[..|a|];
      assert s[p + |a|..p + |a| + |b|] == (a + b)[|a|..];
    }
  }

  lemma IsAtChar(s: string, p: nat, r: string, i: nat)
    requires IsAt(s, p, r) && i < |r|
    ensures p + i < |s| && s[p + i] == r[i]
  {
    assert s[p..p + |r|][i] == r[i];
  }

  /** Python's `s.replace(target, repl)`: every occurrence of `target`, scanned left to
      right and not overlapping, replaced by `repl`. Text without an occurrence is unchanged. */
  function ReplaceAll(s: string, target: string, repl: string): (r: string)
    requires |target| > 0
    decreases |s|
  {
    if |s| < |target| then s
    else if s[..|target|] == target then repl + ReplaceAll(s[|target|..], target, repl)
    else [s[0]] + ReplaceAll(s[1..], target, repl)
  }

  /** Text without an occurrence of the target is unchanged by `ReplaceAll`. */
  lemma {:induction false} ReplaceAbsent(s: string, target: string, repl: string)
    requires |target| > 0 && forall i :: 0 <= i < |s| ==> !IsAt(s, i, target)
    ensures ReplaceAll(s, target, repl) == s
    decreases |s|
  {
    if |s| >= |target| {
      assert !IsAt(s, 0, target);
      forall i | 0 <= i < |s| - 1 ensures !IsAt(s[1..], i, target) {
        if IsAt(s[1..], i, target) {
          assert s[1..][i..i + |target|] == s[i + 1..i + 1 + |target|];
          assert IsAt(s, i + 1, target);
        }
      }
      ReplaceAbsent(s[1..], target, repl);
    }
  }

  /** Every character of a replaced text comes from the original or from the replacement. */
  lemma {:induction false} ReplaceFrom(s: string, target: string, repl: string, c: char)
    requires |target| > 0 && c in ReplaceAll(s, target, repl)
    ensures c in s || c in repl
    decreases |s|
  {
    if |s| >= |target| {
      if s[..|target|] == target {
        var rest := ReplaceAll(s[|target|..], target, repl);
        if c !in repl {
          assert c in rest;
          ReplaceFrom(s[|target|..], target, repl, c);
        }
      } else {
        var rest := ReplaceAll(s[1..], target, repl);
        if c != s[0] {
          assert c in rest;
          ReplaceFrom(s[1..], target, repl, c);
        }
      }
    }
  }

  /** A character that is in neither the target nor the replacement is in the replaced
      text exactly when it is in the original. */
  lemma {:induction false} ReplaceKeeps(s: string, target: string, repl: string, c: char)
    requires |target| > 0 && c !in target && c !in repl
    ensures c in ReplaceAll(s, target, repl) <==> c in s
    decreases |s|
  {
    if c in ReplaceAll(s, target, repl) {
      ReplaceFrom(s, target, repl, c);
    }
    if c in s && |s| >= |target| {
      var i :| 0 <= i < |s| && s[i] == c;
      if s[..|target|] == target {
        assert s[|target|..][i - |target|] == c;
        ReplaceKeeps(s[|target|..], target, repl, c);
      } else if i > 0 {
        assert s[1..][i - 1] == c;
        ReplaceKeeps(s[1..], target, repl, c);
      }
    }
  }

  // ---------------------------------------------------------------- lexicographic order

  /** Byte-wise (code-point) lexicographic order, the order of Rust's `sort`, Go's
      `sort.Strings` and Python's `sorted` on strings. */
  predicate Less(a: string, b: string)
  {
    if a == [] then b != []
    else b != [] && (a[0] < b[0] || (a[0] == b[0] && Less(a[1..], b[1..])))
  }

  lemma {:induction false} LessIrreflexive(a: string)
    ensures !Less(a, a)
  {
    if a != [] { LessIrreflexive(a[1..]); }
  }

  lemma {:induction false} LessTrichotomy(a: string, b: string)
    ensures Less(a, b) || a == b || Less(b, a)
  {
    if a != [] && b != [] && a[0] == b[0] {
      LessTrichotomy(a[1..], b[1..]);
      if a[1..] == b[1..] {
        assert a == [a[0]] + a[1..];
        assert b == [b[0]] + b[1..];
      }
    }
  }

  lemma {:induction false} LessAsymmetric(a: string, b: string)
    ensures !(Less(a, b) && Less(b, a))
  {
    if a != [] && b != [] && a[0] == b[0] { LessAsymmetric(a[1..], b[1..]); }
  }

  lemma {:induction false} LessTransitive(a: string, b: string, c: string)
    requires Less(a, b) && Less(b, c)
    ensures Less(a, c)
  {
    if a != [] && a[0] == b[0] && b[0] == c[0] { LessTransitive(a[1..], b[1..], c[1..]); }
  }

  // ---------------------------------------------------------------- sorted keys

  /** `k` is the least string of `s`. */
  predicate IsLeast(k: string, s: set<string>)
  {
    k in s && forall j :: j in s && j != k ==> Less(k, j)
  }

  lemma LeastExists(s: set<string>)
    requires s != {}
    ensures exists k :: IsLeast(k, s)
  {
    var x :| x in s;
    if s == {x} {
      assert IsLeast(x, s);
    } else {
      LeastExists(s - {x});
      var k :| IsLeast(k, s - {x});
      LessTrichotomy(x, k);
      if Less(x, k) {
        forall j | j in s && j != x ensures Less(x, j) {
          if j != k { LessTransitive(x, k, j); }
        }
        assert IsLeast(x, s);
      } else {
        assert IsLeast(k, s);
      }
    }
  }

  lemma LeastUnique(s: set<string>)
    ensures forall a, b :: IsLeast(a, s) && IsLeast(b, s) ==> a == b
  {
    forall a, b | IsLeast(a, s) && IsLeast(b, s) ensures a == b {
      if a != b { LessAsymmetric(a, b); }
    }
  }

  /** The keys of an object in ascending order: `keys.sort()` in Rust, `sort.Strings(keys)`
      in Go, `sorted(obj.keys())` in Python. */
  function SortedKeys(s: set<string>): (r: seq<string>)
    ensures |r| == |s|
    ensures forall i :: 0 <= i < |r| ==> r[i] in s
    decreases |s|
  {
    if s == {} then []
    else
      LeastExists(s);
      LeastUnique(s);
      var k :| IsLeast(k, s);
      [k] + SortedKeys(s - {k})
  }

  predicate StrictlySorted(r: seq<string>)
  {
    forall i, j :: 0 <= i < j < |r| ==> Less(r[i], r[j])
  }

  /** Sorting keeps exactly the keys of the set, each once, in strictly ascending order. */
  lemma {:induction false} SortedKeysSpec(s: set<string>)
    ensures StrictlySorted(SortedKeys(s))
    ensures forall k :: k in s <==> k in SortedKeys(s)
    decreases |s|
  {
    if s != {} {
      var r := SortedKeys(s);
      var k := r[0];
      LeastExists(s);
      LeastUnique(s);
      assert IsLeast(k, s) && r[1..] == SortedKeys(s - {k});
      SortedKeysSpec(s - {k});
      forall i, j | 0 <= i < j < |r| ensures Less(r[i], r[j]) {
        if i == 0 {
          assert r[j] == r[1..][j - 1];
          assert r[j] in s - {k};
        } else {
          assert r[i] == r[1..][i - 1] && r[j] == r[1..][j - 1];
        }
      }
      forall x | x in s ensures x in r {
        if x != k { assert x in r[1..]; }
      }
    }
  }

  lemma StrictlySortedDistinct(r: seq<string>, i: nat, j: nat)
    requires StrictlySorted(r) && i < |r| && j < |r| && i != j
    ensures r[i] != r[j]
  {
    if i < j { LessIrreflexive(r[i]); } else { LessIrreflexive(r[j]); }
  }

  // ---------------------------------------------------------------- joining and repetition

  /** `strings.Join` / `str.join`: the items separated by `sep`, no separator at the ends. */
  function Join(items: seq<string>, sep: string): string
  {
    if |items| == 0 then ""
    else if |items| == 1 then items[0]
    else items[0] + sep + Join(items[1..], sep)
  }

  /** The concatenation of all items. */
  function Concat(items: seq<string>): string
  {
    if items == [] then "" else items[0] + Concat(items[1..])
  }

  /** `strings.Repeat(s, n)`: `n` copies of `s`. */
  function Repeat(s: string, n: nat): (r: string)
    ensures |r| == n * |s|
  {
    if n == 0 then "" else s + Repeat(s, n - 1)
  }

  lemma {:induction false} RepeatSucc(s: string, n: nat)
    ensures Repeat(s, n + 1) == Repeat(s, n) + s
  {
    if n > 0 { RepeatSucc(s, n - 1); }
  }

  lemma ConcatAppend(items: seq<string>, x: string)
    ensures Concat(items + [x]) == Concat(items) + x
  {
    if items != [] {
      assert (items + [x])[1..] == items[1..] + [x];
      ConcatAppend(items[1..], x);
    }
  }

  /** Joining `items + [x]` puts one separator between the old joined text and `x`. */
  lemma JoinAppend(items: seq<string>, x: string, sep: string)
    ensures Join(items + [x], sep) == if items == [] then x else Join(items, sep) + sep + x
  {
    if |items| >= 2 {
      assert (items + [x])[1..] == items[1..] + [x];
      JoinAppend(items[1..], x, sep);
    } else if |items| == 1 {
      assert (items + [x])[1..] == [x];
    }
  }

  /** Appending to a text that is already the concatenation of two parts. */
  lemma ConcatAssoc(a: string, b: string, c: string)
    ensures a + b + c == a + (b + c)
  {
  }

  /** One indented line appended to a text. */
  lemma LineAssoc(acc: string, pre: string, item: string)
    ensures acc + pre + item + ",\n" == acc + (pre + item + ",\n")
  {
  }

  /** One `key`, colon text and value text appended to a text. */
  lemma MemberAssoc(acc: string, key: string, colon: string, r: string)
    ensures acc + key + colon + r == acc + (key + colon + r)
  {
  }

  /** One indented member line appended to a text. */
  lemma MemberLineAssoc(acc: string, pre: string, key: string, colon: string, r: string)
    ensures acc + pre + key + colon + r + ",\n" == acc + (pre + (key + colon + r) + ",\n")
  {
  }

  /** One more item of a concatenation. */
  lemma ConcatStep(items: seq<string>, i: nat)
    requires i < |items|
    ensures Concat(items[..i]) + items[i] == Concat(items[..i + 1])
  {
    assert items[..i + 1] == items[..i] + [items[i]];
    ConcatAppend(items[..i], items[i]);
  }

  /** One more item of a join: the separator goes before every item but the first. */
  lemma JoinStep(items: seq<string>, i: nat, sep: string)
    requires i < |items|
    ensures Join(items[..i], sep) + (if i > 0 then sep else "") + items[i] == Join(items[..i + 1], sep)
  {
    assert items[..i + 1] == items[..i] + [items[i]];
    JoinAppend(items[..i], items[i], sep);
    if i == 0 {
      assert items[..i] == [];
      assert "" + "" + items[0] == items[0];
    }
  }

  // ---------------------------------------------------------------- text buffer

  /** An append-only text buffer: Rust's `&mut String`, Go's `strings.Builder`. */
  class Builder {
    var text: string

    constructor ()
      ensures text == ""
    {
      text := "";
    }

    method Append(s: string)
      modifies this
      ensures text == old(text) + s
    {
      text := text + s;
    }

    /** `s` appended `n` times: the `for` loops the writers use to indent a line. */
    method AppendRepeat(s: string, n: nat)
      modifies this
      ensures text == old(text) + Repeat(s, n)
    {
      ghost var acc := "";
      var j := 0;
      while j < n
        invariant j <= n
        invariant text == old(text) + acc && acc == Repeat(s, j)
      {
        RepeatSucc(s, j);
        Append(s);
        ConcatAssoc(old(text), acc, s);
        acc := acc + s;
        j := j + 1;
      }
    }
  }
}
