/** ECMAScript `String.prototype.trim`: removes leading and trailing white
    space, where white space is the WhiteSpace and LineTerminator code points
    of the language standard (section 12.2 and 12.3 of ECMA-262). */
module Text {

  /** TAB, LF, VT, FF, CR, the space separators (category Zs), LS, PS and the
      byte-order mark. */
  predicate IsSpace(c: char)
  {
    c == '\t' || c == '\n' || c == '\U{000B}' || c == '\U{000C}' || c == '\r' ||
    c == ' ' || c == '\U{00A0}' || c == '\U{1680}' ||
    ('\U{2000}' <= c <= '\U{200A}') ||
    c == '\U{2028}' || c == '\U{2029}' || c == '\U{202F}' || c == '\U{205F}' ||
    c == '\U{3000}' || c == '\U{FEFF}'
  }

  /** Every character is white space (the empty string included). */
  predicate IsBlank(s: string)
  {
    forall i :: 0 <= i < |s| ==> IsSpace(s[i])
  }

  /** Neither end of `s` is white space. */
  predicate IsTrimmed(s: string)
  {
    s == [] || (!IsSpace(s[0]) && !IsSpace(s[|s| - 1]))
  }

  /** The first index at or after `i` whose character is not white space
      (`|s|` when there is none). */
  function SkipLeading(s: string, i: nat): (k: nat)
    requires i <= |s|
    ensures i <= k <= |s|
    ensures forall m :: i <= m < k ==> IsSpace(s[m])
    ensures k < |s| ==> !IsSpace(s[k])
    decreases |s| - i
  {
    if i < |s| && IsSpace(s[i]) then SkipLeading(s, i + 1) else i
  }

  /** Scanning down from `j` but not below `lo`: the end of the last
      character that is not white space (`lo` when there is none). */
  function SkipTrailing(s: string, lo: nat, j: nat): (e: nat)
    requires lo <= j <= |s|
    ensures lo <= e <= j
    ensures forall m :: e <= m < j ==> IsSpace(s[m])
    ensures e > lo ==> !IsSpace(s[e - 1])
  {
    if j > lo && IsSpace(s[j - 1]) then SkipTrailing(s, lo, j - 1) else j
  }

  /** `s.trim()`: `s` without its leading and trailing white space. */
  function Trim(s: string): (r: string)
    ensures IsTrimmed(r)
    ensures |r| <= |s|
  {
    var k := SkipLeading(s, 0);
    s[k..SkipTrailing(s, k, |s|)]
  }

  /** Trimming leaves nothing exactly when the string is blank. */
  lemma TrimEmptyIffBlank(s: string)
    ensures Trim(s) == [] <==> IsBlank(s)
  {
    var k := SkipLeading(s, 0);
    var e := SkipTrailing(s, k, |s|);
    if Trim(s) == [] {
      assert e == k;
    }
  }

  /** Where `Trim(s)` sits in `s`: it is `s[k..k + |Trim(s)|]` and everything
      outside that slice is white space. */
  lemma TrimIsSlice(s: string) returns (k: nat)
    ensures k + |Trim(s)| <= |s|
    ensures Trim(s) == s[k..k + |Trim(s)|]
    ensures IsBlank(s[..k]) && IsBlank(s[k + |Trim(s)|..])
  {
    k := SkipLeading(s, 0);
    var e := SkipTrailing(s, k, |s|);
    assert Trim(s) == s[k..e];
  }

  /** Trimming twice is trimming once. */
  lemma TrimIdempotent(s: string)
    ensures Trim(Trim(s)) == Trim(s)
  {
  }
}
