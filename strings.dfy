/** JavaScript's String.prototype.trim (ECMA-262, section 22.1.3.32): strip
    white space and line terminators from both ends of a string. */
module Strings {

  /** The code points the ECMAScript grammar calls WhiteSpace (tab, vertical
      tab, form feed, space, no-break space, the byte order mark and the
      Unicode space separators) or LineTerminator (line feed, carriage
      return, line separator, paragraph separator). */
  predicate IsWhitespace(c: char)
  {
    || c == '\t' || c == '\n' || c == '\U{000B}' || c == '\U{000C}' || c == '\r'
    || c == ' ' || c == '\U{00A0}' || c == '\U{1680}'
    || ('\U{2000}' <= c <= '\U{200A}')
    || c == '\U{2028}' || c == '\U{2029}' || c == '\U{202F}' || c == '\U{205F}'
    || c == '\U{3000}' || c == '\U{FEFF}'
  }

  predicate AllWhitespace(s: string)
  {
    forall i :: 0 <= i < |s| ==> IsWhitespace(s[i])
  }

  /** Neither end of s is a white-space character. */
  predicate IsTrimmed(s: string)
  {
    s == [] || (!IsWhitespace(s[0]) && !IsWhitespace(s[|s| - 1]))
  }

  /** The first index at or after i that does not hold white space, or |s|
      when there is none. */
  function SkipStart(s: string, i: nat): (k: nat)
    requires i <= |s|
    ensures i <= k <= |s|
    ensures forall j :: i <= j < k ==> IsWhitespace(s[j])
    ensures k < |s| ==> !IsWhitespace(s[k])
    decreases |s| - i
  {
    if i < |s| && IsWhitespace(s[i]) then SkipStart(s, i + 1) else i
  }

  /** The index just past the last character of s[lo..hi] that is not white
      space, or lo when there is none. */
  function SkipEnd(s: string, lo: nat, hi: nat): (k: nat)
    requires lo <= hi <= |s|
    ensures lo <= k <= hi
    ensures forall j :: k <= j < hi ==> IsWhitespace(s[j])
    ensures lo < k ==> !IsWhitespace(s[k - 1])
    decreases hi - lo
  {
    if lo < hi && IsWhitespace(s[hi - 1]) then SkipEnd(s, lo, hi - 1) else hi
  }

  /** r occurs in s at offset k, with only white space before and after it. */
  predicate InfixAt(s: string, r: string, k: nat)
  {
    && k + |r| <= |s|
    && r == s[k..k + |r|]
    && (forall j :: 0 <= j < k ==> IsWhitespace(s[j]))
    && (forall j :: k + |r| <= j < |s| ==> IsWhitespace(s[j]))
  }

  /** String.prototype.trim: an infix of s with neither end white space and
      only white space around it. */
  function Trim(s: string): (r: string)
    ensures IsTrimmed(r)
    ensures exists k :: InfixAt(s, r, k)
  {
    var lo := SkipStart(s, 0);
    var hi := SkipEnd(s, lo, |s|);
    assert hi > lo ==> s[lo..hi][0] == s[lo] && s[lo..hi][hi - lo - 1] == s[hi - 1];
    assert InfixAt(s, s[lo..hi], lo);
    s[lo..hi]
  }

  /** Those two properties determine the trim of a string that is not all
      white space: any non-empty trimmed infix with only white space around
      it is Trim(s). */
  lemma TrimUnique(s: string, r: string, k: nat)
    requires InfixAt(s, r, k) && IsTrimmed(r) && r != []
    ensures r == Trim(s)
  {
    var lo := SkipStart(s, 0);
    assert s[k] == r[0];
    assert lo == k;
    var hi := SkipEnd(s, lo, |s|);
    assert s[k + |r| - 1] == r[|r| - 1];
    assert hi == k + |r|;
  }

  /** Trimming yields the empty string exactly when the input is all white
      space, so a blank or whitespace-only query trims to a falsy string. */
  lemma TrimEmptyIffAllWhitespace(s: string)
    ensures Trim(s) == [] <==> AllWhitespace(s)
  {
    var lo := SkipStart(s, 0);
    if lo < |s| {
      assert SkipEnd(s, lo, |s|) > lo;
    }
  }

  /** JavaScript's `!s.trim()`: the trimmed string is empty, which is to
      say s is white space only. */
  method IsBlank(s: string) returns (blank: bool)
    ensures blank <==> AllWhitespace(s)
  {
    TrimEmptyIffAllWhitespace(s);
    blank := Trim(s) == [];
  }

  /** A string that is already trimmed is its own trim. */
  lemma TrimOfTrimmed(s: string)
    requires IsTrimmed(s)
    ensures Trim(s) == s
  {
    assert SkipStart(s, 0) == 0;
    assert SkipEnd(s, 0, |s|) == |s|;
    assert s[0..|s|] == s;
  }

  /** Trimming twice is trimming once. */
  lemma TrimIdempotent(s: string)
    ensures Trim(Trim(s)) == Trim(s)
  {
    TrimOfTrimmed(Trim(s));
  }
}
