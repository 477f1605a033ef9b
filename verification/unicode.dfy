/**
 The two Unicode character classes the string validators consult,
 `unicode.IsLetter` and `unicode.IsNumber`. Their tables are not modelled:
 they enter as a pair of predicates, with a predicate saying when a pair
 classifies the ASCII range the way Unicode does.
 */
module Unicode {

  /** A letter class and a number class over runes. */
  datatype Classes = Classes(isLetter: char -> bool, isNumber: char -> bool)

  /** An ASCII letter: `A`-`Z` or `a`-`z`. */
  predicate AsciiLetter(c: char) {
    'A' <= c <= 'Z' || 'a' <= c <= 'z'
  }

  /** An ASCII digit: `0`-`9`. */
  predicate AsciiDigit(c: char) {
    '0' <= c <= '9'
  }

  /**
   On the ASCII range, the classes agree with Unicode: the letters are the
   ASCII letters and the numbers are the decimal digits.
   */
  ghost predicate AsciiFaithful(cls: Classes) {
    forall c: char :: c < 128 as char ==>
      (cls.isLetter(c) <==> AsciiLetter(c)) && (cls.isNumber(c) <==> AsciiDigit(c))
  }
}
