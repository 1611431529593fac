/**
 * The few PHP string built-ins the plugin's request handlers rely on, written out
 * so that their edge cases are visible: `empty()` on a string, `trim()` with its
 * default character set, `strcasecmp(..) === 0`, and the UUID-shape regular expression.
 */
module PhpStrings {

  /** `empty($s)` for a string: true for "" and also for "0". */
  predicate IsEmpty(s: string) {
    s == "" || s == "0"
  }

  /** The characters `trim()` strips by default: space, tab, LF, CR, NUL and vertical tab. */
  predicate IsTrimChar(c: char) {
    c == ' ' || c == '\t' || c == '\n' || c == '\r' || c == 0 as char || c == 11 as char
  }

  /** The number of trim characters `s` starts with. */
  function LeadingTrimCount(s: string): (n: nat)
    ensures n <= |s|
    ensures forall k :: 0 <= k < n ==> IsTrimChar(s[k])
    ensures n < |s| ==> !IsTrimChar(s[n])
  {
    if s != [] && IsTrimChar(s[0]) then 1 + LeadingTrimCount(s[1..]) else 0
  }

  /** The number of trim characters `s` ends with. */
  function TrailingTrimCount(s: string): (n: nat)
    ensures n <= |s|
    ensures forall k :: |s| - n <= k < |s| ==> IsTrimChar(s[k])
    ensures n < |s| ==> !IsTrimChar(s[|s| - n - 1])
  {
    if s != [] && IsTrimChar(s[|s| - 1]) then 1 + TrailingTrimCount(s[..|s| - 1]) else 0
  }

  /** `ltrim($s)`. */
  function TrimStart(s: string): string {
    s[LeadingTrimCount(s)..]
  }

  /** `rtrim($s)`. */
  function TrimEnd(s: string): string {
    s[..|s| - TrailingTrimCount(s)]
  }

  /** `trim($s)`: `rtrim(ltrim($s))`. */
  function Trim(s: string): string {
    TrimEnd(TrimStart(s))
  }

  /**
   * `trim` returns the longest middle slice of `s` that neither starts nor ends with
   * a trim character: everything cut from either end is a trim character.
   */
  lemma TrimIsSlice(s: string)
    ensures exists i, j ::
              0 <= i <= j <= |s| && Trim(s) == s[i..j] &&
              (forall k :: 0 <= k < i ==> IsTrimChar(s[k])) &&
              (forall k :: j <= k < |s| ==> IsTrimChar(s[k]))
    ensures Trim(s) != [] ==> !IsTrimChar(Trim(s)[0]) && !IsTrimChar(Trim(s)[|Trim(s)| - 1])
  {
    var i := LeadingTrimCount(s);
    var t := s[i..];
    var m := TrailingTrimCount(t);
    var r := t[..|t| - m];
    var j := i + |r|;
    assert Trim(s) == r == s[i..j];
    forall k | j <= k < |s| ensures IsTrimChar(s[k]) {
      assert s[k] == t[k - i];
    }
    if r != [] {
      assert r[0] == s[i];
      assert r[|r| - 1] == t[|t| - m - 1];
    }
  }

  /** The byte-wise lower-casing `strcasecmp` applies: only 'A'..'Z' change. */
  function LowerAscii(c: char): (r: char)
    ensures !('A' <= r <= 'Z')
    ensures ('a' <= r <= 'z') <==> ('a' <= c <= 'z' || 'A' <= c <= 'Z')
    ensures r == c || r as int - c as int == 'a' as int - 'A' as int
    ensures !('A' <= c <= 'Z') ==> r == c
  {
    if 'A' <= c <= 'Z' then (c as int + 32) as char else c
  }

  function Lower(s: string): (r: string)
    ensures |r| == |s| && forall i :: 0 <= i < |s| ==> r[i] == LowerAscii(s[i])
  {
    if s == [] then [] else [LowerAscii(s[0])] + Lower(s[1..])
  }

  /** `strcasecmp($a, $b) === 0`: equal lengths and equal characters once ASCII letters are lower-cased. */
  predicate EqualsIgnoreCase(a: string, b: string) {
    |a| == |b| && forall i :: 0 <= i < |a| ==> LowerAscii(a[i]) == LowerAscii(b[i])
  }

  /** Ignoring case is the same as comparing the lower-cased strings. */
  lemma EqualsIgnoreCaseIsLowerEquality(a: string, b: string)
    ensures EqualsIgnoreCase(a, b) <==> Lower(a) == Lower(b)
  {
    if Lower(a) == Lower(b) {
      assert |a| == |Lower(a)| == |Lower(b)| == |b|;
      forall i | 0 <= i < |a| ensures LowerAscii(a[i]) == LowerAscii(b[i]) {
        assert Lower(a)[i] == Lower(b)[i];
      }
    }
  }

  /** `[0-9a-f]` under the `/i` flag. */
  predicate IsHexDigit(c: char) {
    '0' <= c <= '9' || 'a' <= c <= 'f' || 'A' <= c <= 'F'
  }

  /** Exactly 8-4-4-4-12 hexadecimal digits joined by hyphens. */
  predicate IsUuidText(s: string) {
    |s| == 36 &&
    forall i :: 0 <= i < 36 ==>
      if i == 8 || i == 13 || i == 18 || i == 23 then s[i] == '-' else IsHexDigit(s[i])
  }

  /**
   * `preg_match('/^[0-9a-f]{8}-...-[0-9a-f]{12}$/i', $s)`. Without the `D` modifier
   * PCRE's `$` also matches just before one final newline, so a UUID followed by "\n"
   * passes the test too (and is then used with the newline still on it).
   */
  predicate MatchesUuidPattern(s: string) {
    IsUuidText(s) || (|s| == 37 && s[36] == '\n' && IsUuidText(s[..36]))
  }
}
