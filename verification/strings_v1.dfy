/**
 The string validators of the v1 standard library (v1/stdlib/strings.go):
 `checkString` as the loop over runes that returns at the first rune
 failing the test, and the three class tests built on it. Each gives the
 verdict of the older copy in LegacyStrings.
 */
module Strings {
  import opened Unicode
  import LegacyStrings

  /**
   `checkString` (v1/stdlib/strings.go:9-16). `calls` counts the runes the
   test was applied to: all of them when the string passes, and up to and
   including the first failing one when it does not.
   */
  method CheckString(s: string, f: char -> bool) returns (r: bool, calls: nat)
    ensures r <==> forall i :: 0 <= i < |s| ==> f(s[i])
    ensures r ==> calls == |s|
    ensures !r ==> 0 < calls <= |s| && !f(s[calls - 1]) && forall i :: 0 <= i < calls - 1 ==> f(s[i])
    ensures r == LegacyStrings.CheckString(s, f)
  {
    calls := 0;
    while calls < |s|
      invariant calls <= |s|
      invariant forall i :: 0 <= i < calls ==> f(s[i])
    {
      var c := s[calls];
      calls := calls + 1;
      if !f(c) {
        return false, calls;
      }
    }
    return true, calls;
  }

  /** `Strings.Alpha` (v1/stdlib/strings.go:20-22). */
  method Alpha(cls: Classes, s: string) returns (r: bool)
    ensures r <==> forall i :: 0 <= i < |s| ==> cls.isLetter(s[i])
    ensures r == LegacyStrings.Alpha(cls, s)
  {
    var calls;
    r, calls := CheckString(s, cls.isLetter);
  }

  /** `Strings.Numeric` (v1/stdlib/strings.go:24-26). */
  method Numeric(cls: Classes, s: string) returns (r: bool)
    ensures r <==> forall i :: 0 <= i < |s| ==> cls.isNumber(s[i])
    ensures r == LegacyStrings.Numeric(cls, s)
  {
    var calls;
    r, calls := CheckString(s, cls.isNumber);
  }

  /** `Strings.AlphaNumeric` (v1/stdlib/strings.go:28-32). */
  method AlphaNumeric(cls: Classes, s: string) returns (r: bool)
    ensures r <==> forall i :: 0 <= i < |s| ==> cls.isLetter(s[i]) || cls.isNumber(s[i])
    ensures r == LegacyStrings.AlphaNumeric(cls, s)
  {
    var calls;
    r, calls := CheckString(s, (c: char) => cls.isLetter(c) || cls.isNumber(c));
  }

  /**
   The verdicts the validator's tests expect, for any classes that agree
   with Unicode on ASCII: the empty string and `Abc` are alphabetic,
   `123Abc` is alphanumeric but neither alphabetic nor numeric, `987` is
   numeric.
   */
  lemma ExpectedVerdicts(cls: Classes)
    requires AsciiFaithful(cls)
    ensures LegacyStrings.Alpha(cls, "")
    ensures LegacyStrings.Alpha(cls, "Abc")
    ensures LegacyStrings.AlphaNumeric(cls, "123Abc")
    ensures !LegacyStrings.Alpha(cls, "123Abc") && !LegacyStrings.Numeric(cls, "123Abc")
    ensures LegacyStrings.Numeric(cls, "987")
    ensures !LegacyStrings.Numeric(cls, "Abc")
  {
    assert "123Abc"[0] == '1' && "123Abc"[3] == 'A';
    assert "Abc"[0] == 'A';
  }
}
