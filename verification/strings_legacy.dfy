/**
 The older copy of the string validators (stdlib/strings.go): `checkString`
 and the three class tests, as recursive functions over the runes of a
 string.
 */
module LegacyStrings {
  import opened Unicode

  /** `checkString` (stdlib/strings.go:7-14): every rune satisfies `f`, looked at from the front. */
  function CheckString(s: string, f: char -> bool): (r: bool)
    ensures r <==> forall i :: 0 <= i < |s| ==> f(s[i])
  {
    if s == [] then true
    else if !f(s[0]) then false
    else CheckString(s[1..], f)
  }

  /** `Alpha` (stdlib/strings.go:18-20). */
  function Alpha(cls: Classes, s: string): (r: bool)
    ensures r <==> forall i :: 0 <= i < |s| ==> cls.isLetter(s[i])
  {
    CheckString(s, cls.isLetter)
  }

  /** `Numeric` (stdlib/strings.go:22-24). */
  function Numeric(cls: Classes, s: string): (r: bool)
    ensures r <==> forall i :: 0 <= i < |s| ==> cls.isNumber(s[i])
  {
    CheckString(s, cls.isNumber)
  }

  /** `AlphaNumeric` (stdlib/strings.go:26-30). */
  function AlphaNumeric(cls: Classes, s: string): (r: bool)
    ensures r <==> forall i :: 0 <= i < |s| ==> cls.isLetter(s[i]) || cls.isNumber(s[i])
  {
    CheckString(s, (c: char) => cls.isLetter(c) || cls.isNumber(c))
  }

  /** The empty string passes every test. */
  lemma EmptyPasses(cls: Classes, f: char -> bool)
    ensures CheckString("", f) && Alpha(cls, "") && Numeric(cls, "") && AlphaNumeric(cls, "")
  {
  }

  /** A letter-only or digit-only string is alphanumeric. */
  lemma AlphaNumericWeaker(cls: Classes, s: string)
    ensures Alpha(cls, s) ==> AlphaNumeric(cls, s)
    ensures Numeric(cls, s) ==> AlphaNumeric(cls, s)
  {
  }

  /** Checking a concatenation is checking both halves. */
  lemma {:induction false} CheckStringAppend(s: string, t: string, f: char -> bool)
    ensures CheckString(s + t, f) <==> CheckString(s, f) && CheckString(t, f)
  {
    if s == [] {
      assert s + t == t;
    } else {
      assert (s + t)[0] == s[0] && (s + t)[1..] == s[1..] + t;
      CheckStringAppend(s[1..], t, f);
    }
  }
}
