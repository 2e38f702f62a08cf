/**
 * String trimming as JavaScript's `String.prototype.trim` does it: strip every
 * leading and trailing WhiteSpace or LineTerminator code point. The transcript
 * commit (App.tsx) decides whether a pending buffer is worth an item by the
 * truthiness of its trimmed text, and stores the trimmed text.
 */
module Text {

  /** ECMAScript WhiteSpace (TAB, VT, FF, SP, NBSP, ZWNBSP, category Zs) or LineTerminator (LF, CR, LS, PS). */
  predicate IsWhitespace(c: char) {
    var n := c as int;
    n == 0x09 || n == 0x0A || n == 0x0B || n == 0x0C || n == 0x0D || n == 0x20 || n == 0xA0
    || n == 0x1680 || (0x2000 <= n <= 0x200A) || n == 0x2028 || n == 0x2029 || n == 0x202F
    || n == 0x205F || n == 0x3000 || n == 0xFEFF
  }

  predicate AllWhitespace(s: string) {
    forall i :: 0 <= i < |s| ==> IsWhitespace(s[i])
  }

  /**
   * `s.trim()`: drop whitespace at the front, then at the back, until neither
   * end is whitespace. The result is empty exactly when `s` is whitespace only,
   * and otherwise begins and ends with a non-whitespace character.
   */
  function Trim(s: string): (r: string)
    ensures |r| <= |s|
    ensures r == [] <==> AllWhitespace(s)
    ensures r != [] ==> !IsWhitespace(r[0]) && !IsWhitespace(r[|r| - 1])
    decreases |s|
  {
    if s == [] then s
    else if IsWhitespace(s[0]) then
      var r := Trim(s[1..]);
      assert AllWhitespace(s[1..]) ==> AllWhitespace(s) by {
        if AllWhitespace(s[1..]) {
          forall i | 0 < i < |s| ensures IsWhitespace(s[i]) { assert s[i] == s[1..][i - 1]; }
        }
      }
      r
    else if IsWhitespace(s[|s| - 1]) then
      var r := Trim(s[..|s| - 1]);
      assert r != [] by { assert !IsWhitespace(s[..|s| - 1][0]); }
      r
    else s
  }

  /** `r` sits in `s` at offset `k` with only whitespace before and after it. */
  predicate Around(s: string, r: string, k: int) {
    0 <= k <= |s| - |r| && r == s[k..k + |r|] && AllWhitespace(s[..k]) && AllWhitespace(s[k + |r|..])
  }

  /** A whitespace character in front of `s` widens the leading whitespace by one. */
  lemma AroundAfterLeading(s: string, r: string, k: int)
    requires s != [] && IsWhitespace(s[0]) && Around(s[1..], r, k)
    ensures Around(s, r, k + 1)
  {
  }

  /** A whitespace character at the end of `s` widens the trailing whitespace by one. */
  lemma AroundBeforeTrailing(s: string, r: string, k: int)
    requires s != [] && IsWhitespace(s[|s| - 1]) && Around(s[..|s| - 1], r, k)
    ensures Around(s, r, k)
  {
    var p := s[..|s| - 1];
    assert s[k + |r|..] == p[k + |r|..] + [s[|s| - 1]];
    assert s[..k] == p[..k];
  }

  /**
   * What trimming removes is whitespace and nothing else: the result is a
   * slice of `s` with only whitespace before it and only whitespace after it.
   */
  lemma {:induction false} TrimIsSlice(s: string)
    ensures exists k :: Around(s, Trim(s), k)
    decreases |s|
  {
    var r := Trim(s);
    if s == [] {
      assert Around(s, r, 0);
    } else if IsWhitespace(s[0]) {
      TrimIsSlice(s[1..]);
      var k :| Around(s[1..], r, k);
      AroundAfterLeading(s, r, k);
    } else if IsWhitespace(s[|s| - 1]) {
      TrimIsSlice(s[..|s| - 1]);
      var k :| Around(s[..|s| - 1], r, k);
      AroundBeforeTrailing(s, r, k);
    } else {
      assert Around(s, r, 0);
    }
  }

  /** Whitespace in front of a string never reaches its trimmed form. */
  lemma {:induction false} TrimIgnoresLeadingWhitespace(w: string, t: string)
    requires AllWhitespace(w)
    ensures Trim(w + t) == Trim(t)
    decreases |w|
  {
    if w != [] {
      var s := w + t;
      assert s[0] == w[0];
      assert s[1..] == w[1..] + t;
      assert AllWhitespace(w[1..]) by {
        forall i | 0 <= i < |w[1..]| ensures IsWhitespace(w[1..][i]) {
          assert w[1..][i] == w[i + 1];
        }
      }
      TrimIgnoresLeadingWhitespace(w[1..], t);
    } else {
      assert w + t == t;
    }
  }
}
