/** String.prototype.trim over Dafny strings. */
module Text {

  /** The characters trim strips: the WhiteSpace and LineTerminator code points of ECMA-262
      (tab, vertical tab, form feed, space, no-break space, byte-order mark, every other
      space separator of Unicode category Zs, line feed, carriage return, line and paragraph separators). */
  predicate IsWhitespace(c: char) {
    || c == '\t' || c == '\U{000B}' || c == '\U{000C}' || c == ' ' || c == '\U{00A0}' || c == '\U{FEFF}'
    || c == '\n' || c == '\r' || c == '\U{2028}' || c == '\U{2029}'
    || c == '\U{1680}' || ('\U{2000}' <= c <= '\U{200A}') || c == '\U{202F}' || c == '\U{205F}' || c == '\U{3000}'
  }

  predicate AllWhitespace(s: string) {
    forall i :: 0 <= i < |s| ==> IsWhitespace(s[i])
  }

  /** Scans forward from `i` over whitespace: the index of the first character at or after `i`
      that is not whitespace, or `|s|` when there is none. */
  function SkipForward(s: string, i: nat): (n: nat)
    requires i <= |s|
    ensures i <= n <= |s|
    ensures forall j :: i <= j < n ==> IsWhitespace(s[j])
    ensures n < |s| ==> !IsWhitespace(s[n])
    decreases |s| - i
  {
    if i < |s| && IsWhitespace(s[i]) then SkipForward(s, i + 1) else i
  }

  /** Scans backward from `j` down to `lo` over whitespace: the index just past the last character
      before `j` (and at or after `lo`) that is not whitespace, or `lo` when there is none. */
  function SkipBackward(s: string, lo: nat, j: nat): (n: nat)
    requires lo <= j <= |s|
    ensures lo <= n <= j
    ensures forall m :: n <= m < j ==> IsWhitespace(s[m])
    ensures n > lo ==> !IsWhitespace(s[n - 1])
    decreases j
  {
    if j > lo && IsWhitespace(s[j - 1]) then SkipBackward(s, lo, j - 1) else j
  }

  /** `s.trim()`: the piece of `s` between its leading whitespace (of length `a`) and its trailing
      whitespace. It neither starts nor ends with whitespace, and it is empty exactly when `s` is
      all whitespace. */
  function Trim(s: string): (r: string)
    ensures |r| <= |s|
    ensures var a := SkipForward(s, 0);
      && a + |r| <= |s| && r == s[a..a + |r|]
      && (forall j :: 0 <= j < a ==> IsWhitespace(s[j]))
      && (forall j :: a + |r| <= j < |s| ==> IsWhitespace(s[j]))
    ensures r == [] <==> AllWhitespace(s)
    ensures r != [] ==> !IsWhitespace(r[0]) && !IsWhitespace(r[|r| - 1])
  {
    var a := SkipForward(s, 0);
    var b := SkipBackward(s, a, |s|);
    s[a..b]
  }

  /** Trimming twice is trimming once. */
  lemma TrimIdempotent(s: string)
    ensures Trim(Trim(s)) == Trim(s)
  {
    var r := Trim(s);
    if r != [] {
      assert SkipForward(r, 0) == 0;
      assert SkipBackward(r, 0, |r|) == |r|;
    }
  }
}
