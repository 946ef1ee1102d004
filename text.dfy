/** `String.prototype.trim` as the forms use it: leading and trailing white space and
    line terminators, in the sense of the ECMAScript grammar, are removed. */
module Text {

  /** The ECMAScript WhiteSpace and LineTerminator code points: tab, line feed,
      vertical tab, form feed, carriage return, space, no-break space, the byte order
      mark, the space separators of Unicode category Zs, and the line and paragraph
      separators. */
  predicate IsSpace(c: char) {
    c == '\t' || c == '\n' || c == '\U{000B}' || c == '\U{000C}' || c == '\r' || c == ' ' ||
    c == '\U{00A0}' || c == '\U{1680}' || ('\U{2000}' <= c <= '\U{200A}') ||
    c == '\U{2028}' || c == '\U{2029}' || c == '\U{202F}' || c == '\U{205F}' ||
    c == '\U{3000}' || c == '\U{FEFF}'
  }

  /** Where the text proper starts: the first position from `i` on that is not white
      space, or `|s|`. */
  function TextStart(s: string, i: nat): (k: nat)
    requires i <= |s|
    ensures i <= k <= |s|
    ensures forall j :: i <= j < k ==> IsSpace(s[j])
    ensures k < |s| ==> !IsSpace(s[k])
    decreases |s| - i
  {
    if i < |s| && IsSpace(s[i]) then TextStart(s, i + 1) else i
  }

  /** Where the text proper ends: one past the last position before `m` and from `lo`
      on that is not white space, or `lo`. */
  function TextEnd(s: string, lo: nat, m: nat): (e: nat)
    requires lo <= m <= |s|
    ensures lo <= e <= m
    ensures forall j :: e <= j < m ==> IsSpace(s[j])
    ensures e > lo ==> !IsSpace(s[e - 1])
    decreases m
  {
    if m > lo && IsSpace(s[m - 1]) then TextEnd(s, lo, m - 1) else m
  }

  /** `s.trim()`: the slice of `s` between its leading and its trailing white space.
      It neither starts nor ends with white space, and it is empty exactly when `s`
      holds nothing but white space, which is when JavaScript reads it as false. */
  function Trim(s: string): (r: string)
    ensures var k := TextStart(s, 0); r == s[k..TextEnd(s, k, |s|)]
    ensures r != [] ==> !IsSpace(r[0]) && !IsSpace(r[|r| - 1])
    ensures r == [] <==> forall i :: 0 <= i < |s| ==> IsSpace(s[i])
  {
    var k := TextStart(s, 0);
    var e := TextEnd(s, k, |s|);
    s[k..e]
  }

  /** Trimming twice is trimming once. */
  lemma TrimIdempotent(s: string)
    ensures Trim(Trim(s)) == Trim(s)
  {
    var r := Trim(s);
    if r != [] {
      assert TextStart(r, 0) == 0;
      assert TextEnd(r, 0, |r|) == |r|;
    }
  }
}
