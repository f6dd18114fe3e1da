/** The few JavaScript string built-ins the modelled code relies on, over Dafny
    strings: `startsWith`, `split(sep)[0]` and the white-space trimming that
    `Number(text)` performs before reading a numeral. */
module JsStrings {

  /** White space and line terminators that JavaScript strips around a numeral
      (the ASCII ones, no-break space, byte order mark, line and paragraph
      separators). */
  predicate IsWhiteSpace(c: char) {
    c == ' ' || c == '\t' || c == '\n' || c == '\r' || c == '\U{B}' || c == '\U{C}'
    || c == '\U{A0}' || c == '\U{FEFF}' || c == '\U{2028}' || c == '\U{2029}'
  }

  /** `s.startsWith(prefix)`, compared character by character from the front. */
  function StartsWith(s: string, prefix: string): (b: bool)
  {
    if prefix == [] then true
    else if s == [] then false
    else s[0] == prefix[0] && StartsWith(s[1..], prefix[1..])
  }

  /** `startsWith` is exactly the sequence-prefix relation. */
  lemma {:induction false} StartsWithIsPrefix(s: string, prefix: string)
    ensures StartsWith(s, prefix) <==> prefix <= s
  {
    if prefix != [] && s != [] {
      StartsWithIsPrefix(s[1..], prefix[1..]);
      assert s == [s[0]] + s[1..];
      assert prefix == [prefix[0]] + prefix[1..];
    }
  }

  /** Index of the first `c` in `s`, or `|s|` when there is none. */
  function IndexOf(s: string, c: char): (k: nat)
    ensures k <= |s|
    ensures c !in s[..k]
    ensures k < |s| ==> s[k] == c
  {
    if s == [] then 0
    else if s[0] == c then 0
    else
      var k := 1 + IndexOf(s[1..], c);
      assert s[..k] == [s[0]] + s[1..][..k - 1];
      k
  }

  /** `s.split(sep)[0]` for a one-character separator: the text before the
      first separator, or the whole string when there is none. */
  function BeforeFirst(s: string, sep: char): (r: string)
    ensures r <= s && sep !in r
    ensures |r| < |s| ==> s[|r|] == sep
  {
    s[..IndexOf(s, sep)]
  }

  /** Every character of `s` is white space (vacuously so for ""). */
  predicate AllWhite(s: string) {
    forall i :: 0 <= i < |s| ==> IsWhiteSpace(s[i])
  }

  /** The first index at or after `i` that does not hold white space, or `|s|`. */
  function SkipWhite(s: string, i: nat): (k: nat)
    requires i <= |s|
    ensures i <= k <= |s|
    ensures forall m :: i <= m < k ==> IsWhiteSpace(s[m])
    ensures k < |s| ==> !IsWhiteSpace(s[k])
    decreases |s| - i
  {
    if i < |s| && IsWhiteSpace(s[i]) then SkipWhite(s, i + 1) else i
  }

  /** Where `s[..j]` ends once its trailing white space is dropped. */
  function SkipWhiteBack(s: string, j: nat): (k: nat)
    requires j <= |s|
    ensures k <= j
    ensures forall m :: k <= m < j ==> IsWhiteSpace(s[m])
    ensures k > 0 ==> !IsWhiteSpace(s[k - 1])
  {
    if j > 0 && IsWhiteSpace(s[j - 1]) then SkipWhiteBack(s, j - 1) else j
  }

  /** `trim()`: both ends stripped of white space. */
  function Trim(s: string): (r: string)
    ensures |r| <= |s|
  {
    var start := SkipWhite(s, 0);
    if start == |s| then [] else s[start..SkipWhiteBack(s, |s|)]
  }

  /** What `trim()` keeps is the stretch of `s` between a white prefix and a
      white suffix. */
  lemma TrimIsInnerSlice(s: string)
    ensures exists i, j :: 0 <= i <= j <= |s| && Trim(s) == s[i..j] && AllWhite(s[..i]) && AllWhite(s[j..])
  {
    var start := SkipWhite(s, 0);
    if start == |s| {
      assert Trim(s) == s[|s|..|s|];
      assert AllWhite(s[..|s|]) && AllWhite(s[|s|..]);
    } else {
      var end := SkipWhiteBack(s, |s|);
      assert AllWhite(s[..start]) && AllWhite(s[end..]);
    }
  }

  /** Trimming leaves nothing exactly when the text is all white space, and
      otherwise leaves no white space at either end. */
  lemma TrimmedEmptyIffAllWhite(s: string)
    ensures Trim(s) == [] <==> AllWhite(s)
    ensures Trim(s) != [] ==> !IsWhiteSpace(Trim(s)[0]) && !IsWhiteSpace(Trim(s)[|Trim(s)| - 1])
  {
    var start := SkipWhite(s, 0);
    if start < |s| {
      var end := SkipWhiteBack(s, |s|);
      assert Trim(s)[0] == s[start];
      assert Trim(s)[|Trim(s)| - 1] == s[end - 1];
    }
  }

  /** A text with no white space at its ends is left as it is. */
  lemma TrimKeeps(s: string)
    requires s != [] && !IsWhiteSpace(s[0]) && !IsWhiteSpace(s[|s| - 1])
    ensures Trim(s) == s
  {
    assert SkipWhite(s, 0) == 0;
    assert SkipWhiteBack(s, |s|) == |s|;
  }
}
