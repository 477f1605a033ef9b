/**
 The parts of Go's `strconv` and `fmt` the core needs: decimal rendering of
 a count or index (`%d`), and `strconv.Unquote` of the double-quoted values
 found in struct tags, with the inverse `Quote` used to build tags.
 */
module Strconv {
  import opened Optional

  predicate IsDigit(c: char) {
    '0' <= c <= '9'
  }

  function DigitChar(d: nat): (c: char)
    requires d < 10
    ensures IsDigit(c)
    ensures c as int - '0' as int == d
  {
    ['0', '1', '2', '3', '4', '5', '6', '7', '8', '9'][d]
  }

  /** Decimal rendering of a non-negative integer, as `%d` prints it. */
  function Itoa(n: nat): (s: string)
    ensures |s| >= 1
    ensures forall i :: 0 <= i < |s| ==> IsDigit(s[i])
    ensures |s| > 1 ==> s[0] != '0'
  {
    if n < 10 then [DigitChar(n)] else Itoa(n / 10) + [DigitChar(n % 10)]
  }

  /** The value of a string of decimal digits, or None when it holds anything else or is empty. */
  function ParseDecimal(s: string): (r: Option<nat>)
    ensures r.Some? <==> |s| >= 1 && forall i :: 0 <= i < |s| ==> IsDigit(s[i])
  {
    if s == [] then None
    else if !IsDigit(s[|s| - 1]) then None
    else if |s| == 1 then Some(s[0] as int - '0' as int)
    else
      match ParseDecimal(s[..|s| - 1])
      case None => None
      case Some(h) => Some(10 * h + (s[|s| - 1] as int - '0' as int))
  }

  /** Reading a rendered number back gives the number. */
  lemma {:induction false} ParseItoa(n: nat)
    ensures ParseDecimal(Itoa(n)) == Some(n)
  {
    if n >= 10 {
      ParseItoa(n / 10);
      var s := Itoa(n);
      assert s[..|s| - 1] == Itoa(n / 10);
    }
  }

  /** Distinct numbers render differently. */
  lemma ItoaInjective(m: nat, n: nat)
    requires Itoa(m) == Itoa(n)
    ensures m == n
  {
    ParseItoa(m);
    ParseItoa(n);
  }

  /** The rune denoted by a one-rune escape `\c` in a double-quoted Go string, if any. */
  function SimpleEscape(c: char): Option<char> {
    match c
    case 'a' => Some(7 as char)
    case 'b' => Some(8 as char)
    case 'f' => Some(12 as char)
    case 'n' => Some('\n')
    case 'r' => Some('\r')
    case 't' => Some('\t')
    case 'v' => Some(11 as char)
    case '\\' => Some('\\')
    case '"' => Some('"')
    case _ => None
  }

  /**
   The contents of a double-quoted literal, decoded: a bare newline or a bare
   double quote is a syntax error, and a backslash must begin a known escape.
   */
  function UnquoteBody(b: string): (r: Option<string>)
    ensures r.Some? && '\\' !in b ==> r.value == b
    ensures r.Some? ==> '\n' !in b
    decreases |b|
  {
    if b == [] then Some([])
    else if b[0] == '\n' || b[0] == '"' then None
    else if b[0] != '\\' then
      match UnquoteBody(b[1..])
      case None => None
      case Some(t) => Some([b[0]] + t)
    else if |b| < 2 then None
    else
      match SimpleEscape(b[1])
      case None => None
      case Some(c) =>
        match UnquoteBody(b[2..])
        case None => None
        case Some(t) => Some([c] + t)
  }

  /**
   `strconv.Unquote` on the inputs the tag scanner can hand it: a value that
   opens and closes with a double quote. Anything else is rejected.
   */
  function Unquote(q: string): (r: Option<string>)
    ensures r.Some? ==> |q| >= 2 && q[0] == '"' && q[|q| - 1] == '"'
  {
    if |q| < 2 || q[0] != '"' || q[|q| - 1] != '"' then None
    else UnquoteBody(q[1..|q| - 1])
  }

  /** The escaped form of one rune inside a double-quoted literal. */
  function EscapeRune(c: char): (e: string)
    ensures |e| >= 1 && e[0] != '"' && e[0] != '\n'
    ensures e[0] == '\\' <==> |e| == 2
  {
    if c == '\\' then ['\\', '\\']
    else if c == '"' then ['\\', '"']
    else if c == '\n' then ['\\', 'n']
    else [c]
  }

  /** The escaped form of a string: the body of its double-quoted literal. */
  function Escape(s: string): string {
    if s == [] then [] else EscapeRune(s[0]) + Escape(s[1..])
  }

  /** A double-quoted Go literal denoting `s`. */
  function Quote(s: string): (q: string)
    ensures |q| >= 2 && q[0] == '"' && q[|q| - 1] == '"'
  {
    ['"'] + Escape(s) + ['"']
  }

  /** Decoding one escaped rune followed by more input decodes the rune, then the rest. */
  lemma UnquoteEscapeRune(c: char, t: string)
    ensures UnquoteBody(EscapeRune(c) + t)
         == (match UnquoteBody(t) case None => None case Some(x) => Some([c] + x))
  {
    var b := EscapeRune(c) + t;
    if c == '\\' || c == '"' || c == '\n' {
      assert b[2..] == t;
      assert b[0] == '\\';
    } else {
      assert b[1..] == t;
    }
  }

  /** Unquoting an escaped body recovers the original string. */
  lemma {:induction false} UnquoteEscape(s: string)
    ensures UnquoteBody(Escape(s)) == Some(s)
  {
    if s != [] {
      UnquoteEscape(s[1..]);
      UnquoteEscapeRune(s[0], Escape(s[1..]));
      assert [s[0]] + s[1..] == s;
    }
  }

  /** `Unquote` inverts `Quote`. */
  lemma UnquoteQuote(s: string)
    ensures Unquote(Quote(s)) == Some(s)
  {
    var q := Quote(s);
    assert q[1..|q| - 1] == Escape(s);
    UnquoteEscape(s);
  }
}
