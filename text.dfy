/**
 * String.prototype.trim as ECMAScript defines it: strip every WhiteSpace and
 * LineTerminator code point from both ends of the string. The debounced search
 * bar hands `value.trim()` to its settled callback.
 */
module Text {

  /** WhiteSpace (TAB, VT, FF, ZWNBSP and the Unicode Zs category) and LineTerminator (LF, CR, LS, PS). */
  predicate IsJsWhitespace(c: char) {
    || c == '\t' || c == '\n' || c == '\U{000B}' || c == '\U{000C}' || c == '\r'
    || c == ' ' || c == '\U{00A0}' || c == '\U{1680}'
    || ('\U{2000}' <= c <= '\U{200A}')
    || c == '\U{2028}' || c == '\U{2029}' || c == '\U{202F}' || c == '\U{205F}'
    || c == '\U{3000}' || c == '\U{FEFF}'
  }

  predicate AllWhitespace(s: string) {
    forall i :: 0 <= i < |s| ==> IsJsWhitespace(s[i])
  }

  /**
   * The reference meaning of trimming, with the cut point `k` explicit: `r` is
   * the infix of `s` that starts at `k`, everything before it and after it is
   * whitespace, and `r` neither starts nor ends with whitespace.
   */
  ghost predicate IsTrimAt(r: string, s: string, k: int) {
    && 0 <= k <= |s| - |r| && r == s[k..k + |r|]
    && (forall i :: 0 <= i < k ==> IsJsWhitespace(s[i]))
    && (forall i :: k + |r| <= i < |s| ==> IsJsWhitespace(s[i]))
    && (r != [] ==> !IsJsWhitespace(r[0]) && !IsJsWhitespace(r[|r| - 1]))
  }

  ghost predicate IsTrimOf(r: string, s: string) {
    exists k :: IsTrimAt(r, s, k)
  }

  /** The first index at or after `i` that holds no whitespace (or |s|). */
  function SkipLeading(s: string, i: nat): (n: nat)
    requires i <= |s|
    ensures i <= n <= |s|
    ensures forall j :: i <= j < n ==> IsJsWhitespace(s[j])
    ensures n < |s| ==> !IsJsWhitespace(s[n])
    decreases |s| - i
  {
    if i == |s| || !IsJsWhitespace(s[i]) then i else SkipLeading(s, i + 1)
  }

  /** The end of `s[lo..hi]` once its trailing whitespace is dropped. */
  function SkipTrailing(s: string, lo: nat, hi: nat): (m: nat)
    requires lo <= hi <= |s|
    ensures lo <= m <= hi
    ensures forall j :: m <= j < hi ==> IsJsWhitespace(s[j])
    ensures m > lo ==> !IsJsWhitespace(s[m - 1])
    decreases hi
  {
    if hi == lo || !IsJsWhitespace(s[hi - 1]) then hi else SkipTrailing(s, lo, hi - 1)
  }

  /** `value.trim()`: leading whitespace removed first, then trailing whitespace. */
  function Trim(s: string): (r: string)
    ensures IsTrimOf(r, s)
    ensures r == [] <==> AllWhitespace(s)
  {
    var a := SkipLeading(s, 0);
    var b := SkipTrailing(s, a, |s|);
    assert IsTrimAt(s[a..b], s, a);
    s[a..b]
  }

  /** Trimming is determined by its reference meaning: any `r` with IsTrimOf(r, s) is Trim(s). */
  lemma TrimUnique(r: string, s: string)
    requires IsTrimOf(r, s)
    ensures r == Trim(s)
  {
    var t := Trim(s);
    var k :| IsTrimAt(r, s, k);
    var j :| IsTrimAt(t, s, j);
    if r == [] {
      assert AllWhitespace(s);
    } else {
      assert s[k] == r[0];
      assert t != [];
      var e, f := k + |r|, j + |t|;
      // both start at the first character that is not whitespace
      assert s[j] == t[0];
      assert k == j;
      // both end after the last character that is not whitespace
      assert s[e - 1] == r[|r| - 1] && s[f - 1] == t[|t| - 1];
      assert e == f;
    }
  }

  /** Trimming twice is trimming once. */
  lemma TrimIdempotent(s: string)
    ensures Trim(Trim(s)) == Trim(s)
  {
    var r := Trim(s);
    assert IsTrimAt(r, r, 0);
    TrimUnique(r, r);
  }

  /** A whitespace-only input trims to the empty string (which is still a value, not an absence). */
  lemma TrimWhitespaceOnly(s: string)
    requires AllWhitespace(s)
    ensures Trim(s) == ""
  {
  }
}
