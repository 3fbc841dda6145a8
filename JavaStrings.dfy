/**
 * The few Java string operations the filter relies on, with their JDK and
 * commons-lang semantics written out: `String.trim`, `StringUtils.isNotEmpty`,
 * `StringUtils.isNotBlank` and `StringUtils.substringAfterLast`.
 */
module JavaStrings {
  import opened Wrappers

  // ---------------------------------------------------------------- trim

  /** `String.trim` strips every character whose code is at most U+0020. */
  predicate IsTrimmable(c: char) {
    c <= ' '
  }

  /** Every character of `s` outside the index range [i, j) is trimmable. */
  predicate TrimmableOutside(s: string, i: nat, j: nat) {
    forall k :: 0 <= k < |s| && !(i <= k < j) ==> IsTrimmable(s[k])
  }

  /** Number of leading trimmable characters. */
  function TrimStart(s: string): (i: nat)
    ensures i <= |s|
    ensures forall k :: 0 <= k < i ==> IsTrimmable(s[k])
    ensures i < |s| ==> !IsTrimmable(s[i])
  {
    if |s| == 0 || !IsTrimmable(s[0]) then 0
    else 1 + TrimStart(s[1..])
  }

  /** Length of `s` once its trailing trimmable characters are dropped. */
  function TrimEnd(s: string): (j: nat)
    ensures j <= |s|
    ensures forall k :: j <= k < |s| ==> IsTrimmable(s[k])
    ensures j > 0 ==> !IsTrimmable(s[j - 1])
  {
    if |s| == 0 || !IsTrimmable(s[|s| - 1]) then |s|
    else TrimEnd(s[..|s| - 1])
  }

  /**
   * Java's `String.trim`: the longest infix of `s` that neither starts nor
   * ends with a character at most U+0020, obtained by dropping only such
   * characters from both ends.
   */
  function Trim(s: string): (r: string)
    ensures exists i, j :: 0 <= i <= j <= |s| && r == s[i..j] && TrimmableOutside(s, i, j)
    ensures r == [] || (!IsTrimmable(r[0]) && !IsTrimmable(r[|r| - 1]))
  {
    var i := TrimStart(s);
    if i == |s| then
      assert s[i..i] == [];
      []
    else
      var j := TrimEnd(s);
      s[i..j]
  }

  /** Trimming is determined by the characterisation in Trim's contract. */
  lemma TrimUnique(s: string, i: nat, j: nat)
    requires i <= j <= |s|
    requires TrimmableOutside(s, i, j)
    requires i == j || (!IsTrimmable(s[i]) && !IsTrimmable(s[j - 1]))
    ensures Trim(s) == s[i..j]
  {
  }

  /** Trimming twice is trimming once. */
  lemma TrimIdempotent(s: string)
    ensures Trim(Trim(s)) == Trim(s)
  {
    var r := Trim(s);
    assert r[0..|r|] == r;
    TrimUnique(r, 0, |r|);
  }

  /** A string that neither starts nor ends with a trimmable character is its own trim. */
  lemma TrimOfClean(s: string)
    requires s == [] || (!IsTrimmable(s[0]) && !IsTrimmable(s[|s| - 1]))
    ensures Trim(s) == s
  {
    assert s[0..|s|] == s;
    TrimUnique(s, 0, |s|);
  }

  // ---------------------------------------------------- isNotEmpty / isNotBlank

  /** commons-lang `StringUtils.isNotEmpty`: neither null nor of length zero. */
  predicate IsNotEmpty(s: Option<string>) {
    s.Some? && |s.value| > 0
  }

  /**
   * `Character.isWhitespace`: the space, line and paragraph separators other
   * than the no-break spaces U+00A0, U+2007 and U+202F, plus the controls
   * U+0009..U+000D and U+001C..U+001F. U+180E counts as a space separator in
   * the Unicode tables of Java 7 and 8.
   */
  predicate IsJavaWhitespace(c: char) {
    ('\U{9}' <= c <= '\U{D}') || ('\U{1C}' <= c <= '\U{20}')
    || c == '\U{1680}' || c == '\U{180E}'
    || ('\U{2000}' <= c <= '\U{2006}') || ('\U{2008}' <= c <= '\U{200A}')
    || c == '\U{2028}' || c == '\U{2029}' || c == '\U{205F}' || c == '\U{3000}'
  }

  /** commons-lang `StringUtils.isNotBlank`: some character is not Java whitespace. */
  predicate IsNotBlank(s: string) {
    exists k :: 0 <= k < |s| && !IsJavaWhitespace(s[k])
  }

  /**
   * The blank test and the trim test are different: a snippet can be
   * non-blank yet trim to nothing, and blank yet survive trimming.
   */
  lemma BlankAndTrimDiffer()
    ensures IsNotBlank("\U{0}") && Trim("\U{0}") == ""
    ensures !IsNotBlank("\U{3000}") && Trim("\U{3000}") == "\U{3000}"
  {
    assert !IsJavaWhitespace("\U{0}"[0]);
    TrimOfClean("\U{3000}");
    TrimUnique("\U{0}", 1, 1);
  }

  // ---------------------------------------------------- substringAfterLast

  /**
   * `String.lastIndexOf(String)` with a one-character separator, as
   * `substringAfterLast` calls it: the last index holding `c`, or -1. For a
   * one-character separator this agrees with `lastIndexOf(char)`.
   */
  function LastIndexOf(s: string, c: char): (p: int)
    ensures -1 <= p < |s|
    ensures p >= 0 ==> s[p] == c
    ensures forall k :: p < k < |s| ==> s[k] != c
  {
    if |s| == 0 then -1
    else if s[|s| - 1] == c then |s| - 1
    else LastIndexOf(s[..|s| - 1], c)
  }

  /**
   * commons-lang `StringUtils.substringAfterLast(str, separator)` for a
   * one-character separator: the text after the last separator, or empty
   * when there is none or it is the final character.
   */
  function SubstringAfterLast(s: string, sep: char): (r: string)
    ensures |r| <= |s| && r == s[|s| - |r|..]
    ensures sep !in r
    ensures sep in s ==> |r| < |s| && s[|s| - |r| - 1] == sep
    ensures sep !in s ==> r == []
  {
    var pos := LastIndexOf(s, sep);
    if |s| == 0 then s
    else if pos == -1 || pos == |s| - 1 then []
    else s[pos + 1..]
  }
}
