/** Case handling of strings: Python's `str.lower()`, restricted to ASCII. */
module Text {

  predicate IsUpper(c: char) {
    'A' <= c <= 'Z'
  }

  predicate IsLowerWord(w: string) {
    forall i :: 0 <= i < |w| ==> 'a' <= w[i] <= 'z'
  }

  /** ASCII lower-casing of one character; every other character is kept. */
  function LowerChar(c: char): (r: char)
    ensures IsUpper(c) ==> r as int == c as int + 32
    ensures !IsUpper(c) ==> r == c
  {
    if IsUpper(c) then (c as int + 32) as char else c
  }

  /** The upper-case partner of a lower-case ASCII letter. */
  function UpperChar(c: char): (r: char)
    requires 'a' <= c <= 'z'
    ensures IsUpper(r) && LowerChar(r) == c
  {
    (c as int - 32) as char
  }

  /** `s.lower()`: same length, every character lower-cased in place. */
  function Lower(s: string): (r: string)
    ensures |r| == |s|
    ensures forall i :: 0 <= i < |s| ==> r[i] == LowerChar(s[i])
  {
    if s == [] then [] else [LowerChar(s[0])] + Lower(s[1..])
  }

  /** `s` spells the lower-case word `w` with each letter in either case. */
  predicate CaseVariantOf(s: string, w: string)
    requires IsLowerWord(w)
  {
    |s| == |w| && forall i :: 0 <= i < |s| ==> s[i] == w[i] || s[i] == UpperChar(w[i])
  }

  /** A lower-cased string equals a lower-case word exactly when the string
      is that word written in any mixture of cases. */
  lemma LowerEqualsIffCaseVariant(s: string, w: string)
    requires IsLowerWord(w)
    ensures Lower(s) == w <==> CaseVariantOf(s, w)
  {
    if Lower(s) == w {
      forall i | 0 <= i < |s| ensures s[i] == w[i] || s[i] == UpperChar(w[i]) {
        assert LowerChar(s[i]) == w[i];
        if IsUpper(s[i]) {
          assert s[i] as int == w[i] as int - 32;
        }
      }
    }
    if CaseVariantOf(s, w) {
      assert forall i :: 0 <= i < |s| ==> Lower(s)[i] == w[i];
    }
  }
}
