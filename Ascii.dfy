/** ASCII case mapping, enough to model `str.lower()` on the backend names
    that `InferenceModel.load_tf` compares against. */
module Ascii {

  predicate IsUpper(c: char) { 'A' <= c <= 'Z' }

  predicate IsLower(c: char) { 'a' <= c <= 'z' }

  /** A word of lower-case ASCII letters only, such as "tensorflow". */
  predicate IsLowerWord(w: string) {
    forall i :: 0 <= i < |w| ==> IsLower(w[i])
  }

  /** `s` spells the lower-case word `w` with each letter in either case. */
  predicate SpellsIgnoringCase(s: string, w: string)
    requires IsLowerWord(w)
  {
    |s| == |w| && forall i :: 0 <= i < |s| ==> s[i] == w[i] || s[i] == UpperChar(w[i])
  }

  function LowerChar(c: char): (d: char)
    ensures IsUpper(c) ==> IsLower(d) && d as int == c as int + 32
    ensures !IsUpper(c) ==> d == c
  {
    if IsUpper(c) then (c as int + 32) as char else c
  }

  function UpperChar(c: char): (d: char)
    requires IsLower(c)
    ensures IsUpper(d) && LowerChar(d) == c
  {
    (c as int - 32) as char
  }

  /** Lower-cases every ASCII letter of `s` and leaves every other character alone. */
  function ToLower(s: string): (r: string)
    ensures |r| == |s|
    ensures forall i :: 0 <= i < |s| ==> r[i] == LowerChar(s[i])
  {
    if s == [] then [] else ToLower(s[..|s| - 1]) + [LowerChar(s[|s| - 1])]
  }

  /** The characters that lower-case to a given lower-case letter are that
      letter and its upper-case form, and no others. */
  lemma LowerCharTo(c: char, d: char)
    requires IsLower(d)
    ensures LowerChar(c) == d <==> c == d || c == UpperChar(d)
  {
    if IsUpper(c) {
      assert LowerChar(c) == d <==> c as int == d as int - 32;
    }
  }

  /** Lower-casing is idempotent. */
  lemma ToLowerIdempotent(s: string)
    ensures ToLower(ToLower(s)) == ToLower(s)
  {
    var t := ToLower(s);
    forall i | 0 <= i < |s|
      ensures ToLower(t)[i] == t[i]
    {
      assert IsUpper(s[i]) ==> IsLower(t[i]);
    }
  }

  /** A string lower-cases to the lower-case word `w` exactly when it spells
      `w` with each letter in either case. */
  lemma ToLowerIsWord(s: string, w: string)
    requires IsLowerWord(w)
    ensures ToLower(s) == w <==> SpellsIgnoringCase(s, w)
  {
    if |s| == |w| {
      forall i | 0 <= i < |s|
        ensures LowerChar(s[i]) == w[i] <==> s[i] == w[i] || s[i] == UpperChar(w[i])
      {
        LowerCharTo(s[i], w[i]);
      }
      if ToLower(s) != w {
        var i :| 0 <= i < |s| && ToLower(s)[i] != w[i];
        assert LowerChar(s[i]) != w[i];
      }
    }
  }
}
