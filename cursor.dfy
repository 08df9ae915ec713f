/** Character-level scanning shared by the two cursor parsers (`ref-impl/rs/src/lib.rs` and
    `ref-impl/go/dtxt/dtxt.go`). Both parsers keep a byte position into their input and move
    it forward with the scans defined here; each one's own loops are proved against these
    functions in its module. */
module Cursor {
  import opened Values
  import opened Text

  /** The byte at position `p`, if `p` is inside the input. */
  function ByteAt(s: string, p: nat): (r: Option<char>)
    ensures r.Some? <==> p < |s|
    ensures r.Some? ==> r.value == s[p]
  {
    if p < |s| then Some(s[p]) else None
  }

  /** Space, tab, carriage return or line feed. */
  predicate IsBlank(c: char) { c == ' ' || c == '\t' || c == '\r' || c == '\n' }

  predicate AllBlank(g: string) { forall i :: 0 <= i < |g| ==> IsBlank(g[i]) }

  /** A `//` comment starts at `p`. */
  predicate CommentAt(s: string, p: nat)
  {
    p + 1 < |s| && s[p] == '/' && s[p + 1] == '/'
  }

  /** The first position at or after `p` holding `c`, or the end of the input. */
  function ByteEnd(s: string, p: nat, c: char): (r: nat)
    requires p <= |s|
    ensures p <= r <= |s|
    ensures forall i :: p <= i < r ==> s[i] != c
    ensures r == |s| || s[r] == c
    decreases |s| - p
  {
    if p == |s| || s[p] == c then p else ByteEnd(s, p + 1, c)
  }

  /** The end of the run of identifier characters `[A-Za-z0-9_]` starting at `p`. */
  function IdentEnd(s: string, p: nat): (r: nat)
    requires p <= |s|
    ensures p <= r <= |s|
    ensures forall i :: p <= i < r ==> IsIdentChar(s[i])
    ensures r == |s| || !IsIdentChar(s[r])
    decreases |s| - p
  {
    if p < |s| && IsIdentChar(s[p]) then IdentEnd(s, p + 1) else p
  }

  /** The end of the run of decimal digits starting at `p`. */
  function DigitsEnd(s: string, p: nat): (r: nat)
    requires p <= |s|
    ensures p <= r <= |s|
    ensures forall i :: p <= i < r ==> IsDigit(s[i])
    ensures r == |s| || !IsDigit(s[r])
    decreases |s| - p
  {
    if p < |s| && IsDigit(s[p]) then DigitsEnd(s, p + 1) else p
  }

  /** The position after the blanks and `//` comments starting at `p`. A comment runs up to
      and including its line feed, or to the end of the input. A position already past the
      end (the cursor parsers can leave one there) is not moved. */
  function SkipWs(s: string, p: nat): (r: nat)
    ensures p <= r
    ensures p <= |s| ==> r <= |s|
    ensures p >= |s| ==> r == p
    ensures r >= |s| || (!IsBlank(s[r]) && !CommentAt(s, r))
    decreases |s| - p
  {
    if p < |s| && IsBlank(s[p]) then SkipWs(s, p + 1)
    else if CommentAt(s, p) then
      var q := ByteEnd(s, p + 2, '\n');
      if q < |s| then SkipWs(s, q + 1) else |s|
    else p
  }

  /** Text made of blanks and whole `//` comments (each ending in a line feed, except
      possibly at the end of the text). */
  ghost predicate IsGap(g: string)
    decreases |g|
  {
    g == [] ||
    (IsBlank(g[0]) && IsGap(g[1..])) ||
    (|g| >= 2 && g[0] == '/' && g[1] == '/' &&
      exists k :: 2 <= k <= |g| && Free(g[2..k], '\n') &&
        (k == |g| || (g[k] == '\n' && IsGap(g[k + 1..]))))
  }

  /** Everything `SkipWs` passes over is blanks and comments. */
  lemma {:induction false} SkipWsGap(s: string, p: nat)
    requires p <= |s|
    ensures IsGap(s[p..SkipWs(s, p)])
    decreases |s| - p
  {
    var r := SkipWs(s, p);
    var g := s[p..r];
    if p < |s| && IsBlank(s[p]) {
      SkipWsGap(s, p + 1);
      assert g[1..] == s[p + 1..r];
    } else if CommentAt(s, p) {
      var q := ByteEnd(s, p + 2, '\n');
      var k := q - p;
      assert g[2..k] == s[p + 2..q];
      if q < |s| {
        SkipWsGap(s, q + 1);
        assert g[k + 1..] == s[q + 1..r];
        assert g[k] == '\n';
      } else {
        assert k == |g|;
      }
      assert 2 <= k <= |g| && Free(g[2..k], '\n');
    } else {
      assert g == [];
    }
  }

  /** Blanks followed by a character that is neither blank nor a comment are skipped exactly. */
  lemma {:induction false} SkipWsBlanks(s: string, p: nat, g: string)
    requires IsAt(s, p, g) && AllBlank(g)
    requires p + |g| == |s| || (!IsBlank(s[p + |g|]) && !CommentAt(s, p + |g|))
    ensures SkipWs(s, p) == p + |g|
    decreases |g|
  {
    if g != [] {
      IsAtChar(s, p, g, 0);
      IsAtConcat(s, p, g[..1], g[1..]);
      assert g[..1] + g[1..] == g;
      SkipWsBlanks(s, p + 1, g[1..]);
    }
  }

  /** A text free of `c` followed by `c` is scanned whole by `ByteEnd`. */
  lemma {:induction false} ByteEndFree(s: string, p: nat, t: string, c: char)
    requires IsAt(s, p, t) && Free(t, c) && p + |t| < |s| && s[p + |t|] == c
    ensures ByteEnd(s, p, c) == p + |t|
    decreases |t|
  {
    if t != [] {
      IsAtChar(s, p, t, 0);
      IsAtConcat(s, p, t[..1], t[1..]);
      assert t[..1] + t[1..] == t;
      ByteEndFree(s, p + 1, t[1..], c);
    }
  }

  /** A run of identifier characters followed by something else is scanned whole by
      `IdentEnd`. */
  lemma {:induction false} IdentEndAt(s: string, p: nat, t: string)
    requires IsAt(s, p, t) && AllIdent(t)
    requires p + |t| == |s| || !IsIdentChar(s[p + |t|])
    ensures IdentEnd(s, p) == p + |t|
    decreases |t|
  {
    if t != [] {
      IsAtChar(s, p, t, 0);
      IsAtConcat(s, p, t[..1], t[1..]);
      assert t[..1] + t[1..] == t;
      IdentEndAt(s, p + 1, t[1..]);
    }
  }

  /** Where the next member or element starts after a value that ended at `n`: blanks and
      comments, at most one comma, blanks and comments. */
  function AfterComma(s: string, n: nat): (r: nat)
    ensures n <= r
    ensures n <= |s| ==> r <= |s|
    ensures n > |s| ==> r == n
  {
    var d := SkipWs(s, n);
    if d < |s| && s[d] == ',' then SkipWs(s, d + 1) else d
  }

  /** A string at an opening backtick at `p`: everything up to the next backtick. Both
      cursor parsers step over the closing backtick even when the input ended first, so the
      position after it can be one past the end. */
  function StringAt<E>(s: string, p: nat): (r: Step<string, E>)
    requires p < |s|
    ensures r.Done? && p < r.next <= |s| + 1
    ensures Free(r.value, '`')
  {
    var q := ByteEnd(s, p + 1, '`');
    Done(s[p + 1..q], q + 1)
  }

  // ---------------------------------------------------------------- numbers

  /** Position after an optional `-`. */
  function AfterSign(s: string, p: nat): (r: nat)
    requires p <= |s|
    ensures p <= r <= |s|
  {
    if p < |s| && s[p] == '-' then p + 1 else p
  }

  /** Position after the integer part: a single `0`, or a non-zero digit and all digits
      after it, or nothing. */
  function AfterInt(s: string, a: nat): (r: nat)
    requires a <= |s|
    ensures a <= r <= |s|
  {
    if a < |s| && s[a] == '0' then a + 1
    else if a < |s| && '1' <= s[a] <= '9' then DigitsEnd(s, a)
    else a
  }

  /** Position after a `.` and the digits after it (possibly none). */
  function AfterFrac(s: string, b: nat): (r: nat)
    requires b <= |s|
    ensures b <= r <= |s|
  {
    if b < |s| && s[b] == '.' then DigitsEnd(s, b + 1) else b
  }

  predicate ExpMarkAt(s: string, c: nat) { c < |s| && (s[c] == 'e' || s[c] == 'E') }

  /** Where the exponent digits start after an exponent mark at `c`. */
  function ExpDigits(s: string, c: nat): (r: nat)
    requires ExpMarkAt(s, c)
    ensures c + 1 <= r <= |s|
  {
    if c + 1 < |s| && (s[c + 1] == '+' || s[c + 1] == '-') then c + 2 else c + 1
  }

  /** Position after an `e`/`E`, an optional sign and the digits after it (possibly none). */
  function AfterExp(s: string, c: nat): (r: nat)
    requires c <= |s|
    ensures c <= r <= |s|
  {
    if ExpMarkAt(s, c) then DigitsEnd(s, ExpDigits(s, c)) else c
  }

  /** The end of the number lexeme the cursor parsers scan from `p`:
      `-?(0|[1-9][0-9]*)?(\.[0-9]*)?([eE][+-]?[0-9]*)?`, each part taken greedily. */
  function NumberEnd(s: string, p: nat): (r: nat)
    requires p <= |s|
    ensures p <= r <= |s|
  {
    AfterExp(s, AfterFrac(s, AfterInt(s, AfterSign(s, p))))
  }

  /** The scanned lexeme is accepted by the float readers of both ports (Rust's
      `str::parse::<f64>`, Go's `strconv.ParseFloat`): it has a digit before the exponent,
      and an exponent mark is followed by at least one digit. */
  predicate ScannedFloatOk(s: string, p: nat)
    requires p <= |s|
  {
    var a := AfterSign(s, p);
    var b := AfterInt(s, a);
    var c := AfterFrac(s, b);
    (b > a || c > b + 1) && (ExpMarkAt(s, c) ==> DigitsEnd(s, ExpDigits(s, c)) > ExpDigits(s, c))
  }

  /** A character that cannot continue a number lexeme. */
  predicate NumberStop(c: char)
  {
    !IsDigit(c) && c != '.' && c != 'e' && c != 'E' && c != '+' && c != '-'
  }

  /** `t` on its own is one whole, well-formed number lexeme. */
  predicate IsNumberLexeme(t: string)
  {
    |t| > 0 && (t[0] == '-' || IsDigit(t[0])) && NumberEnd(t, 0) == |t| && ScannedFloatOk(t, 0)
  }

  /** `t` sits at `p` in `s` and the character after it (if any) cannot continue a number. */
  predicate Embeds(s: string, p: nat, t: string)
  {
    p + |t| <= |s| && (forall i :: 0 <= i < |t| ==> s[p + i] == t[i]) &&
    (p + |t| == |s| || NumberStop(s[p + |t|]))
  }

  lemma {:induction false} DigitsEndShift(s: string, p: nat, t: string, k: nat)
    requires Embeds(s, p, t) && k <= |t|
    ensures DigitsEnd(s, p + k) == p + DigitsEnd(t, k)
    decreases |t| - k
  {
    if k < |t| && IsDigit(t[k]) { DigitsEndShift(s, p, t, k + 1); }
  }

  lemma AfterIntShift(s: string, p: nat, t: string, a: nat)
    requires Embeds(s, p, t) && a <= |t|
    ensures AfterInt(s, p + a) == p + AfterInt(t, a)
  {
    if a < |t| && '1' <= t[a] <= '9' { DigitsEndShift(s, p, t, a); }
  }

  lemma AfterFracShift(s: string, p: nat, t: string, b: nat)
    requires Embeds(s, p, t) && b <= |t|
    ensures AfterFrac(s, p + b) == p + AfterFrac(t, b)
  {
    if b < |t| && t[b] == '.' { DigitsEndShift(s, p, t, b + 1); }
  }

  lemma ExpShift(s: string, p: nat, t: string, c: nat)
    requires Embeds(s, p, t) && c <= |t|
    ensures ExpMarkAt(s, p + c) == ExpMarkAt(t, c)
    ensures ExpMarkAt(t, c) ==> ExpDigits(s, p + c) == p + ExpDigits(t, c)
    ensures ExpMarkAt(t, c) ==> DigitsEnd(s, ExpDigits(s, p + c)) == p + DigitsEnd(t, ExpDigits(t, c))
    ensures AfterExp(s, p + c) == p + AfterExp(t, c)
  {
    if ExpMarkAt(t, c) {
      assert ExpDigits(s, p + c) == p + ExpDigits(t, c);
      DigitsEndShift(s, p, t, ExpDigits(t, c));
    }
  }

  /** The stages of the scan at `p` in `s` end where they end in `t`, shifted by `p`. */
  lemma StagesShift(s: string, p: nat, t: string)
    requires Embeds(s, p, t)
    ensures AfterSign(s, p) == p + AfterSign(t, 0)
    ensures AfterInt(s, AfterSign(s, p)) == p + AfterInt(t, AfterSign(t, 0))
    ensures AfterFrac(s, AfterInt(s, AfterSign(s, p))) == p + AfterFrac(t, AfterInt(t, AfterSign(t, 0)))
  {
    var a := AfterSign(t, 0);
    assert AfterSign(s, p) == p + a;
    AfterIntShift(s, p, t, a);
    AfterFracShift(s, p, t, AfterInt(t, a));
  }

  lemma NumberEndShift(s: string, p: nat, t: string)
    requires Embeds(s, p, t)
    ensures NumberEnd(s, p) == p + NumberEnd(t, 0)
  {
    StagesShift(s, p, t);
    ExpShift(s, p, t, AfterFrac(t, AfterInt(t, AfterSign(t, 0))));
  }

  lemma FloatOkShift(s: string, p: nat, t: string)
    requires Embeds(s, p, t)
    ensures ScannedFloatOk(s, p) == ScannedFloatOk(t, 0)
  {
    StagesShift(s, p, t);
    ExpShift(s, p, t, AfterFrac(t, AfterInt(t, AfterSign(t, 0))));
  }

  /** A well-formed lexeme followed by a character that cannot continue it is scanned whole. */
  lemma NumberLexemeScan(s: string, p: nat, t: string)
    requires IsAt(s, p, t) && IsNumberLexeme(t)
    requires p + |t| == |s| || NumberStop(s[p + |t|])
    ensures NumberEnd(s, p) == p + |t| && ScannedFloatOk(s, p)
  {
    forall i | 0 <= i < |t| ensures s[p + i] == t[i] { IsAtChar(s, p, t, i); }
    assert Embeds(s, p, t);
    NumberEndShift(s, p, t);
    FloatOkShift(s, p, t);
  }
}
