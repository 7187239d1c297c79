/** PHP string primitives the webhook code relies on: `trim`, `strtolower`,
    `strtoupper`, `strpos(...) !== FALSE` and `empty()` applied to a string. */
module Text {

  /** The characters PHP's `trim` strips by default: space, tab, newline,
      carriage return, NUL and vertical tab. */
  predicate IsTrimChar(c: char) {
    c == ' ' || c == '\t' || c == '\n' || c == '\r' || c == '\0' || c == '\U{0B}'
  }

  /** `trim` without its right half: drops leading trim characters. */
  function TrimStart(s: string): string {
    if |s| > 0 && IsTrimChar(s[0]) then TrimStart(s[1..]) else s
  }

  /** `trim` without its left half: drops trailing trim characters. */
  function TrimEnd(s: string): string {
    if |s| > 0 && IsTrimChar(s[|s| - 1]) then TrimEnd(s[..|s| - 1]) else s
  }

  /** TrimStart keeps a suffix, and cuts off exactly the leading run of trim characters. */
  lemma {:induction false} TrimStartCuts(s: string)
    ensures var r := TrimStart(s);
            && |r| <= |s| && r == s[|s| - |r|..]
            && (r == [] || !IsTrimChar(r[0]))
            && forall k :: 0 <= k < |s| - |r| ==> IsTrimChar(s[k])
  {
    if |s| > 0 && IsTrimChar(s[0]) {
      TrimStartCuts(s[1..]);
    }
  }

  /** TrimEnd keeps a prefix, and cuts off exactly the trailing run of trim characters. */
  lemma {:induction false} TrimEndCuts(s: string)
    ensures var r := TrimEnd(s);
            && |r| <= |s| && r == s[..|r|]
            && (r == [] || !IsTrimChar(r[|r| - 1]))
            && forall k :: |r| <= k < |s| ==> IsTrimChar(s[k])
  {
    if |s| > 0 && IsTrimChar(s[|s| - 1]) {
      TrimEndCuts(s[..|s| - 1]);
    }
  }

  /** PHP `trim($s)`: the longest infix of `s` that neither starts nor ends
      with a trim character. */
  function Trim(s: string): string {
    TrimEnd(TrimStart(s))
  }

  /** The trimmed string occurs in the original at one position, has no trim
      character at either end, and every character outside that occurrence is
      a trim character. */
  lemma TrimCuts(s: string)
    ensures var r := Trim(s);
            && (r == [] || (!IsTrimChar(r[0]) && !IsTrimChar(r[|r| - 1])))
            && exists i :: OccursAt(s, r, i) && forall k :: 0 <= k < |s| && !IsTrimChar(s[k]) ==> i <= k < i + |r|
  {
    var t := TrimStart(s);
    TrimStartCuts(s);
    TrimEndCuts(t);
    var r := TrimEnd(t);
    var i := |s| - |t|;
    assert OccursAt(s, r, i);
    forall k | 0 <= k < |s| && !IsTrimChar(s[k])
      ensures i <= k < i + |r|
    {
      if k >= i {
        assert s[k] == t[k - i];
      }
    }
  }

  predicate IsUpper(c: char) { 'A' <= c <= 'Z' }

  predicate IsLower(c: char) { 'a' <= c <= 'z' }

  function ToLowerChar(c: char): char {
    if IsUpper(c) then (c as int + 32) as char else c
  }

  function ToUpperChar(c: char): char {
    if IsLower(c) then (c as int - 32) as char else c
  }

  /** PHP 8 `strtolower`: ASCII letters only, every other character kept. */
  function Lower(s: string): (r: string)
    ensures |r| == |s|
    ensures forall k :: 0 <= k < |r| ==> !IsUpper(r[k])
    ensures forall k :: 0 <= k < |s| && IsUpper(s[k]) ==> r[k] as int == s[k] as int + 32
    ensures forall k :: 0 <= k < |r| && !IsUpper(s[k]) ==> r[k] == s[k]
  {
    seq(|s|, k requires 0 <= k < |s| => ToLowerChar(s[k]))
  }

  /** PHP 8 `strtoupper`: ASCII letters only, every other character kept. */
  function Upper(s: string): (r: string)
    ensures |r| == |s|
    ensures forall k :: 0 <= k < |r| ==> !IsLower(r[k])
    ensures forall k :: 0 <= k < |s| && IsLower(s[k]) ==> r[k] as int == s[k] as int - 32
    ensures forall k :: 0 <= k < |r| && !IsLower(s[k]) ==> r[k] == s[k]
  {
    seq(|s|, k requires 0 <= k < |s| => ToUpperChar(s[k]))
  }

  /** `strpos($text, $needle) !== FALSE`: the needle occurs somewhere in the text. */
  predicate Contains(text: string, needle: string) {
    exists i | 0 <= i <= |text| - |needle| :: OccursAt(text, needle, i)
  }

  /** The needle starts at position `i` of the text. */
  predicate OccursAt(text: string, needle: string, i: int) {
    0 <= i <= |text| - |needle| && text[i..i + |needle|] == needle
  }

  /** A needle holding a character the text lacks does not occur in it. */
  lemma AbsentCharExcludes(text: string, needle: string, m: nat)
    requires m < |needle|
    requires needle[m] !in text
    ensures !Contains(text, needle)
  {
    forall i | 0 <= i <= |text| - |needle|
      ensures !OccursAt(text, needle, i)
    {
      assert text[i + m] in text;
    }
  }

  /** PHP `empty()` on a string value: true for "" and for "0". */
  predicate PhpEmpty(s: string) {
    s == "" || s == "0"
  }
}
