/**
 `fieldErrors` as written (v1/validate.go:283) passes the hook error's text
 to `FieldErrorf` as its FORMAT, with no arguments, so the text goes
 through `fmt.Sprintf`. Text without `%` comes out unchanged, but a `%` is
 read as the start of a verb: `100%` becomes `100%!(NOVERB)` and `%d left`
 becomes `%!d(MISSING) left`. The engine (Engine.FieldErrors) keeps the
 text verbatim, as `newFieldError` in v1/errors.go does.

 `Sprintf` is modelled here for a format with no arguments, and only as far
 as the text at hand needs: flags, width and precision are read and
 ignored as Go does, and the forms that take arguments or indices from the
 format (`*`, `[n]`) or an over-long width give None.
 */
module Findings {
  import opened Optional
  import opened Errors
  import opened Engine
  import opened Strconv

  /** The flag runes `fmt` accepts after `%`. */
  predicate IsFlag(c: char) {
    c == '+' || c == '-' || c == '#' || c == ' ' || c == '0'
  }

  /** How many leading runes of `s` are flags. */
  function Flags(s: string): (n: nat)
    ensures n <= |s|
  {
    if s == [] || !IsFlag(s[0]) then 0 else 1 + Flags(s[1..])
  }

  /** How many leading runes of `s` are digits. */
  function Digits(s: string): (n: nat)
    ensures n <= |s|
  {
    if s == [] || !IsDigit(s[0]) then 0 else 1 + Digits(s[1..])
  }

  /**
   Where the verb of a directive stands in `t`, the text after a `%`: past
   the flags, the width, and a `.` with its precision when the `.` is not
   the last rune (a final `.` is the verb, as in Go). None for the forms
   not modelled: a width or precision of more than six digits, and a `*` or
   `[` where the verb would stand.
   */
  function VerbAt(t: string): (k: Option<nat>)
    ensures k.Some? ==> k.value <= |t|
    ensures k.Some? && k.value < |t| ==> t[k.value] != '*' && t[k.value] != '['
  {
    var flags := Flags(t);
    var width := Digits(t[flags..]);
    var dot := if flags + width + 1 < |t| && t[flags + width] == '.' then 1 else 0;
    var prec := Digits(t[flags + width + dot..]);
    var k := flags + width + dot + prec;
    if width > 6 || prec > 6 then None
    else if k < |t| && (t[k] == '*' || t[k] == '[') then None
    else Some(k)
  }

  /** What a verb with no argument prints: `%` for `%%`, else `%!v(MISSING)`. */
  function Shown(verb: char): (r: string)
    ensures |r| > 0 && r[0] == '%'
  {
    if verb == '%' then "%" else "%!" + [verb] + "(MISSING)"
  }

  /**
   `fmt.Sprintf(format)` with no arguments: text is copied, `%%` gives `%`,
   any other verb gives `%!v(MISSING)`, and a `%` with no verb after it
   gives `%!(NOVERB)`. None for the forms not modelled.
   */
  function SprintfNoArgs(format: string): (r: Option<string>)
    decreases |format|
  {
    if format == [] then Some("")
    else if format[0] != '%' then Prepend([format[0]], SprintfNoArgs(format[1..]))
    else
      var t := format[1..];
      match VerbAt(t)
      case None => None
      case Some(k) =>
        if k == |t| then Some("%!(NOVERB)")
        else Prepend(Shown(t[k]), SprintfNoArgs(t[k + 1..]))
  }

  /** A string placed before a formatting result, if there is one. */
  function Prepend(a: string, o: Option<string>): (r: Option<string>)
    ensures r.Some? <==> o.Some?
    ensures o.Some? ==> r.value == a + o.value
  {
    match o
    case Some(x) => Some(a + x)
    case None => None
  }

  /** Text without `%` is its own formatting. */
  lemma {:induction false} SprintfPlainText(s: string)
    requires '%' !in s
    ensures SprintfNoArgs(s) == Some(s)
  {
    if s != [] {
      assert s[0] in s;
      assert forall c :: c in s[1..] ==> c in s;
      SprintfPlainText(s[1..]);
      assert [s[0]] + s[1..] == s;
    }
  }

  /** `fieldErrors` as written: the hook error's text is formatted before it becomes the message. */
  function FieldErrorsAsWritten(p: string, err: Err): (r: Option<seq<Err>>)
    ensures AsAggregate(err).Some? ==> r == Some(AsAggregate(err).value)
    ensures AsAggregate(err).None? && AsFieldError(err).Some? ==> r == Some([AsFieldError(err).value])
    ensures AsAggregate(err).None? && AsFieldError(err).None? ==>
              && (r.Some? <==> SprintfNoArgs(Text(err)).Some?)
              && (r.Some? ==> Fields(r.value) == [Coalesce([p, "<entity>"])]
                              && Messages(r.value) == [SprintfNoArgs(Text(err)).value])
  {
    match AsAggregate(err)
    case Some(es) => Some(es)
    case None =>
      match AsFieldError(err)
      case Some(fe) => Some([fe])
      case None =>
        match SprintfNoArgs(Text(err))
        case Some(m) => Some([FieldErrorf(Coalesce([p, "<entity>"]), m)])
        case None => None
  }

  /** As written and corrected agree on every error whose text has no `%`. */
  lemma AsWrittenAgreesWithoutPercent(p: string, err: Err)
    requires '%' !in Text(err)
    ensures FieldErrorsAsWritten(p, err) == Some(FieldErrors(p, err))
  {
    SprintfPlainText(Text(err));
  }

  /** Two prefixes in turn are their concatenation. */
  lemma PrependPrepend(x: string, y: string, o: Option<string>)
    ensures Prepend(x, Prepend(y, o)) == Prepend(x + y, o)
  {
    if o.Some? {
      assert x + (y + o.value) == (x + y) + o.value;
    }
  }

  /** A `%`-free prefix is copied through. */
  lemma {:induction false} SprintfPlainPrefix(a: string, b: string)
    requires '%' !in a
    ensures SprintfNoArgs(a + b) == Prepend(a, SprintfNoArgs(b))
  {
    if a == [] {
      assert a + b == b;
      var o := SprintfNoArgs(b);
      if o.Some? {
        assert a + o.value == o.value;
      }
    } else {
      var f := a + b;
      assert f[0] == a[0] && a[0] in a;
      assert f[1..] == a[1..] + b;
      assert '%' !in a[1..] by {
        assert forall c :: c in a[1..] ==> c in a;
      }
      calc {
        SprintfNoArgs(f);
        Prepend([a[0]], SprintfNoArgs(a[1..] + b));
        { SprintfPlainPrefix(a[1..], b); }
        Prepend([a[0]], Prepend(a[1..], SprintfNoArgs(b)));
        { PrependPrepend([a[0]], a[1..], SprintfNoArgs(b)); assert [a[0]] + a[1..] == a; }
        Prepend(a, SprintfNoArgs(b));
      }
    }
  }

  /** A `%` that ends the format has no verb. */
  lemma SprintfNoVerb()
    ensures SprintfNoArgs("%") == Some("%!(NOVERB)")
  {
    assert "%"[1..] == [];
  }

  /** A directive whose verb stands at `k` prints the verb's text, then the rest is formatted. */
  lemma {:induction false} SprintfDirective(t: string, k: nat)
    requires VerbAt(t) == Some(k) && k < |t|
    ensures SprintfNoArgs(['%'] + t) == Prepend(Shown(t[k]), SprintfNoArgs(t[k + 1..]))
  {
    assert (['%'] + t)[1..] == t;
  }

  /** A plain error is neither an aggregate nor a field error, and its text is its own. */
  lemma PlainIsLeaf(t: string)
    ensures AsAggregate(Plain(t)).None? && AsFieldError(Plain(t)).None? && Text(Plain(t)) == t
  {
    assert Chain(Plain(t)) == [Plain(t)];
  }

  /** A rune `fmt` takes as a verb right after `%`, and not `%` itself. */
  predicate PlainVerb(c: char) {
    !IsFlag(c) && !IsDigit(c) && c != '.' && c != '*' && c != '[' && c != '%'
  }

  /**
   A hook whose error text ends in `%`, such as `at most 100%`: as written
   the message gains `!(NOVERB)`; corrected, it is the hook's text.
   */
  lemma {:induction false} TrailingPercentMangled(p: string, pre: string)
    requires '%' !in pre
    ensures FieldErrorsAsWritten(p, Plain(pre + "%")) == Some([FieldErrorf(Coalesce([p, "<entity>"]), pre + "%!(NOVERB)")])
    ensures FieldErrors(p, Plain(pre + "%")) == [FieldErrorf(Coalesce([p, "<entity>"]), pre + "%")]
    ensures pre + "%!(NOVERB)" != pre + "%"
  {
    PlainIsLeaf(pre + "%");
    SprintfNoVerb();
    SprintfPlainPrefix(pre, "%");
    assert |pre + "%!(NOVERB)"| != |pre + "%"|;
  }

  /** The hook text `at most 100%` at `age`. */
  lemma HundredPercent()
    ensures FieldErrorsAsWritten("age", Plain("at most 100%")) == Some([FieldErrorf("age", "at most 100%!(NOVERB)")])
    ensures FieldErrors("age", Plain("at most 100%")) == [FieldErrorf("age", "at most 100%")]
  {
    assert "at most 100%" == "at most 100" + "%";
    assert "at most 100%!(NOVERB)" == "at most 100" + "%!(NOVERB)";
    assert Coalesce(["age", "<entity>"]) == "age";
    TrailingPercentMangled("age", "at most 100");
  }

  /** A verb with no argument, such as `%d left`, reads `%!d(MISSING) left`. */
  lemma {:induction false} MissingArgumentMangled(verb: char, post: string)
    requires PlainVerb(verb) && '%' !in post
    ensures SprintfNoArgs(['%', verb] + post) == Some("%!" + [verb] + "(MISSING)" + post)
  {
    var t := [verb] + post;
    assert t[0] == verb && t[1..] == post;
    assert Flags(t) == 0 && Digits(t) == 0;
    assert VerbAt(t) == Some(0);
    assert ['%', verb] + post == ['%'] + t;
    SprintfDirective(t, 0);
    SprintfPlainText(post);
  }

  /** A space after `%` is a flag: `50% full` reads `50%!f(MISSING)ull`. */
  lemma {:induction false} SpaceFlagMangled(verb: char, post: string)
    requires PlainVerb(verb) && '%' !in post
    ensures SprintfNoArgs(['%', ' ', verb] + post) == Some("%!" + [verb] + "(MISSING)" + post)
  {
    var t := [' ', verb] + post;
    assert t[0] == ' ' && t[1..] == [verb] + post && t[2..] == post;
    assert Flags([verb] + post) == 0;
    assert Flags(t) == 1;
    assert t[1..][1..] == post;
    assert Digits(t[1..]) == 0;
    assert VerbAt(t) == Some(1);
    assert ['%', ' ', verb] + post == ['%'] + t;
    SprintfDirective(t, 1);
    SprintfPlainText(post);
  }

  /** A `.` that ends the format is the verb, not an empty precision: `50%.` reads `50%!.(MISSING)`. */
  lemma {:induction false} FinalDotIsVerb(pre: string)
    requires '%' !in pre
    ensures SprintfNoArgs(pre + "%.") == Some(pre + "%!.(MISSING)")
  {
    var t := ".";
    assert Flags(t) == 0 && Digits(t) == 0;
    assert VerbAt(t) == Some(0);
    SprintfDirective(t, 0);
    assert t[1..] == [];
    assert ['%'] + t == "%.";
    SprintfPlainPrefix(pre, "%.");
    assert pre + ("%!" + ['.'] + "(MISSING)" + "") == pre + "%!.(MISSING)";
  }

  /**
   The corrected normalisation: an error that is neither an aggregate nor a
   field error becomes one field error at the path, or `<entity>` at the
   root, whose message is the error's text exactly.
   */
  lemma CorrectedKeepsText(p: string, err: Err)
    requires AsAggregate(err).None? && AsFieldError(err).None?
    ensures Fields(FieldErrors(p, err)) == [if p != "" then p else "<entity>"]
    ensures Messages(FieldErrors(p, err)) == [Text(err)]
  {
    if p == "" {
      assert Coalesce([p, "<entity>"]) == "<entity>";
    }
  }
}
