/** ASCII case conversion, standing in for Python's `str.lower`. */
module Text {

  predicate IsUpper(c: char) {
    'A' <= c <= 'Z'
  }

  /** No character of `s` is an upper-case letter. */
  predicate IsLowerCase(s: string) {
    forall i :: 0 <= i < |s| ==> !IsUpper(s[i])
  }

  function LowerChar(c: char): (d: char)
    ensures !IsUpper(d)
    ensures !IsUpper(c) ==> d == c
    ensures IsUpper(c) ==> d as int == c as int + 32
  {
    if IsUpper(c) then (c as int + 32) as char else c
  }

  /** `s.lower()` over ASCII: each upper-case letter is replaced by its
      lower-case form, every other character is kept. */
  function Lower(s: string): (r: string)
    ensures |r| == |s|
    ensures forall i :: 0 <= i < |s| ==> r[i] == LowerChar(s[i])
    ensures IsLowerCase(r)
  {
    if |s| == 0 then [] else [LowerChar(s[0])] + Lower(s[1..])
  }

  /** Lower-casing twice is lower-casing once. */
  lemma LowerIdempotent(s: string)
    ensures Lower(Lower(s)) == Lower(s)
  {
    var once := Lower(s);
    forall i | 0 <= i < |once|
      ensures Lower(once)[i] == once[i]
    {
      assert !IsUpper(once[i]);
    }
  }

  /** Lower-casing leaves exactly the strings with no upper-case letter unchanged. */
  lemma LowerFixesExactlyLowerCase(s: string)
    ensures Lower(s) == s <==> IsLowerCase(s)
  {
    if Lower(s) == s {
      assert IsLowerCase(Lower(s));
    } else {
      var i :| 0 <= i < |s| && Lower(s)[i] != s[i];
      assert IsUpper(s[i]);
    }
  }

  /** A string holding an upper-case letter is never the result of lower-casing. */
  lemma NeverLowerOf(s: string, t: string)
    requires !IsLowerCase(t)
    ensures Lower(s) != t
  {
    assert IsLowerCase(Lower(s));
  }

  /** Lower-casing is determined character by character. */
  lemma LowerEach(s: string, t: string)
    requires |s| == |t|
    requires forall i :: 0 <= i < |s| ==> LowerChar(s[i]) == t[i]
    ensures Lower(s) == t
  {
  }
}
