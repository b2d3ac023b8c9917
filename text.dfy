/**
 * The JavaScript string operations the dashboard's handlers rely on:
 * `trim`, `toLowerCase`, `includes`, `replace` of a literal pattern,
 * `split(sep).pop()`, and the decimal rendering of a number inside a
 * template literal.
 */
module Text {
  import opened Wrappers

  /** The characters `String.prototype.trim` removes: WhiteSpace and LineTerminator. */
  predicate IsWhitespace(c: char) {
    || c == '\t' || c == '\n' || c == '\U{B}' || c == '\U{C}' || c == '\r'
    || c == ' ' || c == '\U{A0}' || c == '\U{1680}'
    || ('\U{2000}' <= c <= '\U{200A}')
    || c == '\U{2028}' || c == '\U{2029}' || c == '\U{202F}' || c == '\U{205F}'
    || c == '\U{3000}' || c == '\U{FEFF}'
  }

  /** `s.trimStart()`: drops the leading whitespace. */
  function TrimStart(s: string): string {
    if s != [] && IsWhitespace(s[0]) then TrimStart(s[1..]) else s
  }

  /** What `TrimStart` leaves is a suffix that starts with a non-blank, and all it drops is whitespace. */
  lemma {:induction false} TrimStartSuffix(s: string)
    ensures var r := TrimStart(s);
      && |r| <= |s| && r == s[|s| - |r|..]
      && (r == [] || !IsWhitespace(r[0]))
      && forall i :: 0 <= i < |s| - |r| ==> IsWhitespace(s[i])
  {
    if s != [] && IsWhitespace(s[0]) {
      TrimStartSuffix(s[1..]);
      var r := TrimStart(s);
      forall i | 0 <= i < |s| - |r| ensures IsWhitespace(s[i]) {
        if i > 0 {
          assert s[1..][i - 1] == s[i];
        }
      }
    }
  }

  /** `s.trimEnd()`: drops the trailing whitespace. */
  function TrimEnd(s: string): string {
    if s != [] && IsWhitespace(s[|s| - 1]) then TrimEnd(s[..|s| - 1]) else s
  }

  /** What `TrimEnd` leaves is a prefix that ends with a non-blank, and all it drops is whitespace. */
  lemma {:induction false} TrimEndPrefix(s: string)
    ensures var r := TrimEnd(s);
      && |r| <= |s| && r == s[..|r|]
      && (r == [] || !IsWhitespace(r[|r| - 1]))
      && forall i :: |r| <= i < |s| ==> IsWhitespace(s[i])
  {
    if s != [] && IsWhitespace(s[|s| - 1]) {
      TrimEndPrefix(s[..|s| - 1]);
      var r := TrimEnd(s);
      assert s[..|s| - 1][..|r|] == s[..|r|];
      forall i | |r| <= i < |s| ensures IsWhitespace(s[i]) {
        if i < |s| - 1 {
          assert s[..|s| - 1][i] == s[i];
        }
      }
    }
  }

  /** `s.trim()` */
  function Trim(s: string): string {
    TrimEnd(TrimStart(s))
  }

  /**
   * `!s.trim()`, the guard every input handler of the dashboard starts
   * with: nothing but whitespace is left to trim away (see `BlankIffTrimEmpty`).
   */
  predicate IsBlank(s: string) {
    forall i :: 0 <= i < |s| ==> IsWhitespace(s[i])
  }

  /** Trimming the start of an all-whitespace string leaves nothing. */
  lemma {:induction false} BlankTrimsAway(s: string)
    requires IsBlank(s)
    ensures TrimStart(s) == []
  {
    if s != [] {
      assert IsBlank(s[1..]) by {
        forall i | 0 <= i < |s| - 1 ensures IsWhitespace(s[1..][i]) {
          assert s[1..][i] == s[i + 1];
        }
      }
      BlankTrimsAway(s[1..]);
    }
  }

  /** A string that trims to nothing was all whitespace. */
  lemma TrimEmptyIsBlank(s: string)
    requires Trim(s) == []
    ensures IsBlank(s)
  {
    var t := TrimStart(s);
    TrimStartSuffix(s);
    TrimEndPrefix(t);
    assert t == [];
  }

  /** A string is blank exactly when trimming it leaves nothing. */
  lemma BlankIffTrimEmpty(s: string)
    ensures IsBlank(s) <==> Trim(s) == []
  {
    if IsBlank(s) {
      BlankTrimsAway(s);
    }
    if Trim(s) == [] {
      TrimEmptyIsBlank(s);
    }
  }

  /** `c.toLowerCase()` on the ASCII letters. */
  function LowerChar(c: char): char {
    if 'A' <= c <= 'Z' then (c as int + 32) as char else c
  }

  /** `s.toLowerCase()`, letter by letter (ASCII). */
  function ToLower(s: string): string {
    if s == [] then [] else [LowerChar(s[0])] + ToLower(s[1..])
  }

  /**
   * Lower-casing keeps the length and maps each character on its own: no
   * upper-case letter is left, and every other character is kept.
   */
  lemma {:induction false} ToLowerChars(s: string)
    ensures var r := ToLower(s);
      && |r| == |s|
      && forall i :: 0 <= i < |s| ==>
        && r[i] == LowerChar(s[i])
        && !('A' <= r[i] <= 'Z')
        && (!('A' <= s[i] <= 'Z') ==> r[i] == s[i])
  {
    if s != [] {
      ToLowerChars(s[1..]);
      var r := ToLower(s);
      forall i | 0 <= i < |s|
        ensures r[i] == LowerChar(s[i])
      {
        if i > 0 {
          assert r[i] == ToLower(s[1..])[i - 1];
          assert s[1..][i - 1] == s[i];
        }
      }
    }
  }

  /** Lower-casing works piecewise on a concatenation. */
  lemma {:induction false} ToLowerAppend(a: string, b: string)
    ensures ToLower(a + b) == ToLower(a) + ToLower(b)
  {
    if a == [] {
      assert a + b == b;
    } else {
      assert (a + b)[0] == a[0];
      assert (a + b)[1..] == a[1..] + b;
      ToLowerAppend(a[1..], b);
    }
  }

  /** Lower-casing twice is lower-casing once. */
  lemma {:induction false} ToLowerIdempotent(s: string)
    ensures ToLower(ToLower(s)) == ToLower(s)
  {
    if s != [] {
      var r := ToLower(s);
      assert r[0] == LowerChar(s[0]) && r[1..] == ToLower(s[1..]);
      ToLowerIdempotent(s[1..]);
    }
  }

  /** Whitespace has no case: lower-casing a blank string keeps it. */
  lemma BlankHasNoCase(w: string)
    requires IsBlank(w)
    ensures ToLower(w) == w
  {
    ToLowerChars(w);
  }

  /** Whitespace in front of a string is all `trimStart` removes of it. */
  lemma {:induction false} TrimStartAfterBlank(w: string, s: string)
    requires IsBlank(w)
    ensures TrimStart(w + s) == TrimStart(s)
  {
    if w == [] {
      assert w + s == s;
    } else {
      assert (w + s)[0] == w[0];
      assert (w + s)[1..] == w[1..] + s;
      assert IsBlank(w[1..]) by {
        forall i | 0 <= i < |w| - 1 ensures IsWhitespace(w[1..][i]) {
          assert w[1..][i] == w[i + 1];
        }
      }
      TrimStartAfterBlank(w[1..], s);
    }
  }

  /** `trimStart` passes over trailing whitespace: it keeps it, unless the whole string is blank. */
  lemma {:induction false} TrimStartBeforeBlank(s: string, w: string)
    requires IsBlank(w)
    ensures IsBlank(s) ==> TrimStart(s + w) == []
    ensures !IsBlank(s) ==> TrimStart(s + w) == TrimStart(s) + w
  {
    if s == [] {
      assert s + w == w;
      BlankTrimsAway(w);
    } else if IsWhitespace(s[0]) {
      assert (s + w)[0] == s[0];
      assert (s + w)[1..] == s[1..] + w;
      TrimStartBeforeBlank(s[1..], w);
      if IsBlank(s[1..]) {
        forall i | 0 <= i < |s| ensures IsWhitespace(s[i]) {
          if i > 0 {
            assert s[i] == s[1..][i - 1];
          }
        }
      } else {
        var i :| 0 <= i < |s[1..]| && !IsWhitespace(s[1..][i]);
        assert s[i + 1] == s[1..][i];
      }
    } else {
      assert (s + w)[0] == s[0];
    }
  }

  /** Whitespace at the end of a string is all `trimEnd` removes of it. */
  lemma {:induction false} TrimEndBeforeBlank(s: string, w: string)
    requires IsBlank(w)
    ensures TrimEnd(s + w) == TrimEnd(s)
  {
    if w == [] {
      assert s + w == s;
    } else {
      var w' := w[..|w| - 1];
      assert (s + w)[|s + w| - 1] == w[|w| - 1];
      assert (s + w)[..|s + w| - 1] == s + w';
      assert IsBlank(w') by {
        forall i | 0 <= i < |w'| ensures IsWhitespace(w'[i]) {
          assert w'[i] == w[i];
        }
      }
      TrimEndBeforeBlank(s, w');
    }
  }

  /** `trim` ignores any whitespace around a string. */
  lemma TrimIgnoresSurroundingBlanks(w: string, s: string, w2: string)
    requires IsBlank(w) && IsBlank(w2)
    ensures Trim(w + s + w2) == Trim(s)
  {
    assert w + s + w2 == w + (s + w2);
    TrimStartAfterBlank(w, s + w2);
    TrimStartBeforeBlank(s, w2);
    if IsBlank(s) {
      BlankTrimsAway(s);
    } else {
      TrimEndBeforeBlank(TrimStart(s), w2);
    }
  }

  /** `s.startsWith(p)` */
  predicate StartsWith(s: string, p: string) {
    |p| <= |s| && s[..|p|] == p
  }

  /** `pat` occurs in `s` starting at index `i`. */
  predicate OccursAt(s: string, pat: string, i: nat) {
    i + |pat| <= |s| && s[i..i + |pat|] == pat
  }

  lemma OccursAtShift(s: string, pat: string, j: nat)
    requires s != []
    ensures OccursAt(s, pat, j + 1) <==> OccursAt(s[1..], pat, j)
  {
    if j + 1 + |pat| <= |s| {
      assert s[1..][j..j + |pat|] == s[j + 1..j + 1 + |pat|];
    }
  }

  /** `s.indexOf(pat)`: the first index at which `pat` occurs, if any. */
  function IndexOf(s: string, pat: string): (r: Option<nat>)
    ensures r.Some? ==> OccursAt(s, pat, r.value)
    ensures r.Some? ==> forall j :: 0 <= j < r.value ==> !OccursAt(s, pat, j)
    ensures r.None? ==> forall j: nat :: !OccursAt(s, pat, j)
    decreases |s|
  {
    if |s| < |pat| then None
    else if s[..|pat|] == pat then Some(0)
    else
      var rest := IndexOf(s[1..], pat);
      assert forall j: nat :: OccursAt(s, pat, j + 1) <==> OccursAt(s[1..], pat, j) by {
        forall j: nat ensures OccursAt(s, pat, j + 1) <==> OccursAt(s[1..], pat, j) {
          OccursAtShift(s, pat, j);
        }
      }
      assert !OccursAt(s, pat, 0);
      match rest
      case None =>
        assert forall j: nat :: !OccursAt(s, pat, j) by {
          forall j: nat ensures !OccursAt(s, pat, j) {
            if j > 0 { assert !OccursAt(s[1..], pat, j - 1); }
          }
        }
        None
      case Some(k) =>
        assert forall j :: 0 <= j < k + 1 ==> !OccursAt(s, pat, j) by {
          forall j | 0 <= j < k + 1 ensures !OccursAt(s, pat, j) {
            if j > 0 { assert !OccursAt(s[1..], pat, j - 1); }
          }
        }
        Some(k + 1)
  }

  /** `s.includes(pat)` */
  predicate Contains(s: string, pat: string) {
    IndexOf(s, pat).Some?
  }

  /** Whatever surrounds it, a string contains each of its own pieces. */
  lemma ContainsMiddle(a: string, pat: string, b: string)
    ensures Contains(a + pat + b, pat)
  {
    var s := a + pat + b;
    assert s[|a|..|a| + |pat|] == pat;
    assert OccursAt(s, pat, |a|);
  }

  /** A string that lacks the first character of `pat` does not contain `pat`. */
  lemma NotContainsWithoutFirstChar(s: string, pat: string)
    requires pat != [] && pat[0] !in s
    ensures !Contains(s, pat)
  {
    forall j: nat ensures !OccursAt(s, pat, j) {
      if j + |pat| <= |s| {
        assert s[j..j + |pat|][0] == s[j];
        assert s[j] in s;
      }
    }
  }

  /** No occurrence of `pat` starts before `k` when its first character is absent from `s[..k]`. */
  lemma NoOccurrenceBefore(s: string, pat: string, k: nat)
    requires pat != [] && k <= |s| && pat[0] !in s[..k]
    ensures forall j :: 0 <= j < k ==> !OccursAt(s, pat, j)
  {
    forall j | 0 <= j < k ensures !OccursAt(s, pat, j) {
      assert s[..k][j] == s[j];
      if j + |pat| <= |s| {
        assert s[j..j + |pat|][0] == s[j];
      }
    }
  }

  /** `s.replace(pat, '')` with a literal pattern: removes the FIRST occurrence only. */
  function RemoveFirst(s: string, pat: string): (r: string)
    ensures !Contains(s, pat) ==> r == s
    ensures Contains(s, pat) ==> |r| == |s| - |pat|
  {
    match IndexOf(s, pat)
    case Some(i) => s[..i] + s[i + |pat|..]
    case None => s
  }

  /**
   * When `pat` does not occur before the end of `a`, removing the first
   * occurrence from `a + pat + b` gives back exactly `a + b`.
   */
  lemma RemoveFirstAt(a: string, pat: string, b: string)
    requires forall j :: 0 <= j < |a| ==> !OccursAt(a + pat + b, pat, j)
    ensures RemoveFirst(a + pat + b, pat) == a + b
  {
    var s := a + pat + b;
    assert OccursAt(s, pat, |a|) by {
      assert s[|a|..|a| + |pat|] == pat;
    }
    var i := IndexOf(s, pat).value;
    assert i == |a|;
    assert s[..i] == a;
    assert s[i + |pat|..] == b;
  }

  /**
   * `s.split(sep).pop()`: the part of `s` after its last `sep`, or all of
   * `s` when `sep` does not occur in it.
   */
  function LastField(s: string, sep: char): string {
    if s == [] then []
    else if s[|s| - 1] == sep then []
    else LastField(s[..|s| - 1], sep) + [s[|s| - 1]]
  }

  /** The last field is a suffix without the separator, and right before it (if anything is) stands a separator. */
  lemma {:induction false} LastFieldIsLastSegment(s: string, sep: char)
    ensures var r := LastField(s, sep);
      && |r| <= |s| && r == s[|s| - |r|..]
      && sep !in r
      && (|r| < |s| ==> s[|s| - |r| - 1] == sep)
  {
    if s != [] && s[|s| - 1] != sep {
      var p := s[..|s| - 1];
      LastFieldIsLastSegment(p, sep);
      var q := LastField(p, sep);
      assert q == p[|p| - |q|..];
      assert p[|p| - |q|..] + [s[|s| - 1]] == s[|s| - |q| - 1..];
      if |q| < |p| {
        assert p[|p| - |q| - 1] == s[|s| - |q| - 2];
      }
    }
  }

  /** The field after the last separator of `a + [sep] + b` is `b` when `b` holds no separator. */
  lemma {:induction false} LastFieldAfterSeparator(a: string, sep: char, b: string)
    requires sep !in b
    ensures LastField(a + [sep] + b, sep) == b
  {
    var s := a + [sep] + b;
    if b != [] {
      var b' := b[..|b| - 1];
      assert s[..|s| - 1] == a + [sep] + b';
      assert b[|b| - 1] in b;
      LastFieldAfterSeparator(a, sep, b');
      assert b == b' + [b[|b| - 1]];
    }
  }

  /** A string without the separator is its own last field. */
  lemma {:induction false} LastFieldWithoutSeparator(s: string, sep: char)
    requires sep !in s
    ensures LastField(s, sep) == s
  {
    if s != [] {
      var p := s[..|s| - 1];
      assert s[|s| - 1] in s;
      assert forall c :: c in p ==> c in s;
      LastFieldWithoutSeparator(p, sep);
      assert s == p + [s[|s| - 1]];
    }
  }

  function DigitChar(d: nat): char
    requires d < 10
  {
    "0123456789"[d]
  }

  /** The decimal notation of `n`, as a template literal renders a non-negative integer. */
  function NatStr(n: nat): (r: string)
    ensures |r| >= 1
    ensures forall i :: 0 <= i < |r| ==> '0' <= r[i] <= '9'
  {
    if n < 10 then [DigitChar(n)] else NatStr(n / 10) + [DigitChar(n % 10)]
  }

  /** Reads a string of decimal digits back as a number. */
  function DecimalValue(s: string): nat
    requires forall i :: 0 <= i < |s| ==> '0' <= s[i] <= '9'
  {
    if s == [] then 0 else 10 * DecimalValue(s[..|s| - 1]) + (s[|s| - 1] as int - '0' as int)
  }

  /** Reading the rendered number gives back the number: the rendering is decimal notation. */
  lemma {:induction false} NatStrRoundTrip(n: nat)
    ensures DecimalValue(NatStr(n)) == n
  {
    if n >= 10 {
      NatStrRoundTrip(n / 10);
      var s := NatStr(n);
      assert s[..|s| - 1] == NatStr(n / 10);
    }
  }
}
