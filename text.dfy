/**
 * Text helpers standing for the Python string operations the services use:
 * `str.lower()`, the `in` substring test, `or`-defaulting of empty strings
 * and the word boundary `\b` of the `re` module.
 */
module Text {
  import opened Wrappers

  /** Upper-case letters known to the model: ASCII A-Z and the Latin-1 capitals. */
  predicate IsUpper(c: char) {
    ('A' <= c <= 'Z') || ('À' <= c <= 'Þ' && c != '×')
  }

  /** `str.lower()` on one character (ASCII and Latin-1 capitals move by 32). */
  function LowerChar(c: char): (r: char)
    ensures !IsUpper(r)
    ensures !IsUpper(c) ==> r == c
  {
    if IsUpper(c) then (c as int + 32) as char else c
  }

  /** `str.lower()`. */
  function Lower(s: string): (r: string)
    ensures |r| == |s|
    ensures forall i :: 0 <= i < |s| ==> r[i] == LowerChar(s[i])
  {
    if s == [] then [] else [LowerChar(s[0])] + Lower(s[1..])
  }

  /** `sub` occurs in `s` starting at index `i`. */
  predicate OccursAt(s: string, sub: string, i: int) {
    0 <= i && i + |sub| <= |s| && s[i..i + |sub|] == sub
  }

  /** Python's `sub in s`. */
  predicate Contains(s: string, sub: string) {
    exists i :: 0 <= i <= |s| - |sub| && OccursAt(s, sub, i)
  }

  /** Python's truthiness of an optional string: `None` and `""` are false. */
  predicate Truthy(s: Option<string>) {
    s.Some? && s.value != ""
  }

  /** `""` on the left of `or`: `s or default`. */
  function OrDefault(s: string, default: string): (r: string)
    ensures r != "" || default == ""
    ensures s != "" ==> r == s
  {
    if s == "" then default else s
  }

  /** Word characters of `\b`: ASCII letters, digits, `_` and the Latin-1 letters. */
  predicate IsWordChar(c: char) {
    ('a' <= c <= 'z') || ('A' <= c <= 'Z') || ('0' <= c <= '9') || c == '_'
    || ('À' <= c <= 'ÿ' && c != '×' && c != '÷')
  }

  /** A needle holding a character the text lacks does not occur in it. */
  lemma MissingChar(s: string, needle: string, k: nat)
    requires k < |needle| && needle[k] !in s
    ensures !Contains(s, needle)
  {
    forall i | 0 <= i <= |s| - |needle|
      ensures !OccursAt(s, needle, i)
    {
      assert s[i..i + |needle|][k] == s[i + k];
    }
  }

  /** A lower-cased text contains no upper-case letter, so it cannot contain
      a needle that holds one. */
  lemma {:induction false} LowerHidesUpper(s: string, needle: string, k: nat)
    requires k < |needle| && IsUpper(needle[k])
    ensures !Contains(Lower(s), needle)
  {
    var t := Lower(s);
    forall i | 0 <= i <= |t| - |needle|
      ensures !OccursAt(t, needle, i)
    {
      assert t[i..i + |needle|][k] == LowerChar(s[i + k]);
    }
  }

  /** `f"{first} {last}"`: the two names joined by one space. */
  function FullName(first: string, last: string): (r: string)
    ensures |r| == |first| + 1 + |last| && r[|first|] == ' '
    ensures r[..|first|] == first && r[|first| + 1..] == last
  {
    first + " " + last
  }
}
