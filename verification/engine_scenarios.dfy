/**
 Cases of TestValidate (v1/validate_test.go:107-167) replayed on the
 engine. Field tags are built from pairs with plain names, values with the
 value datatype, and the constraint sources those cases use are run by
 `TestRuns`, an oracle written from what each source computes.
 */
module EngineScenarios {
  import opened Optional
  import opened GoStrings
  import opened Errors
  import opened Values
  import opened Tag
  import Options
  import opened Validators
  import opened Types
  import opened Engine
  import opened EngineLaws
  import opened StructLaws
  import Strconv

  // ---------------------------------------------------------------------
  // Tags with plain names

  /** A tag name that is one alias: well formed, no comma, no white space at its ends. */
  predicate SimpleName(n: string) {
    WellFormedName(n) && ',' !in n && !IsSpace(n[0]) && !IsSpace(n[|n| - 1])
  }

  /** With plain names, alias lookup is lookup by name. */
  lemma {:induction false} FirstAliasSimple(ps: seq<(string, string)>, key: string)
    requires forall k :: 0 <= k < |ps| ==> SimpleName(ps[k].0)
    ensures FirstAlias(ps, key) == FirstNamed(ps, key)
  {
    if ps != [] {
      SplitWithoutSeparator(ps[0].0, ',');
      TrimSpaceOfTrimmed(ps[0].0);
      assert Aliases(ps[0].0) == [ps[0].0];
      FirstAliasSimple(ps[1..], key);
    }
  }

  /** Both ways of reading a tag built from plain names find the first pair with the key's name. */
  lemma SimpleTag(ps: seq<(string, string)>, key: string)
    requires forall k :: 0 <= k < |ps| ==> SimpleName(ps[k].0)
    ensures GetTag(Render(ps), key) == FirstNamed(ps, key).GetOr("")
    ensures TagGet(Render(ps), key) == FirstNamed(ps, key).GetOr("")
  {
    FindTagRender(ps, key);
    FirstAliasSimple(ps, key);
    LookupRender(ps, key);
  }

  /** The three keys of `New()` are plain names. */
  lemma DefaultKeysSimple()
    ensures SimpleName("check") && SimpleName("invalid") && SimpleName("json")
  {
  }

  /** The constraint source, message and display name a tag built from plain names gives a field. */
  lemma DeclFacts(d: FieldDecl, v: Validator, ps: seq<(string, string)>)
    requires d.tag == Render(ps) && forall k :: 0 <= k < |ps| ==> SimpleName(ps[k].0)
    ensures Source(d, v) == TrimSpace(FirstNamed(ps, v.checkTag).GetOr(""))
    ensures Message(d, v) == TrimSpace(FirstNamed(ps, v.errTag).GetOr(""))
    ensures FirstNamed(ps, v.nameTag).GetOr("") != "" ==> DisplayName(d, v) == FieldName(FirstNamed(ps, v.nameTag).GetOr(""))
  {
    SimpleTag(ps, v.checkTag);
    SimpleTag(ps, v.errTag);
    SimpleTag(ps, v.nameTag);
  }

  // ---------------------------------------------------------------------
  // The constraint sources of the test types

  const NonEmpty := "len(self) > 0"
  const NonNilChecked := "self != nil && check(self)"
  const NonEmptyChecked := "len(self) > 0 && check(self)"
  const LengthThree := "len(self) == 3"

  /** Whether a value is nil to an expression: a nil interface or a nil pointer. */
  predicate IsNil(x: Value) {
    x.Nil? || (x.Ptr? && x.target.None?)
  }

  /**
   What the sources above compute: `len` panics on a value without a
   length, `&&` stops at its first false operand, and `check(self)` is a
   call whose verdict is the result. Any other source does not compile.
   */
  function TestRuns(src: string, self: Value, sup: Value): Compiled {
    if src == NonEmpty || src == LengthThree then
      match Len(self)
      case None => Program(Panics)
      case Some(n) => Program(Done(BoolResult(if src == NonEmpty then n > 0 else n == 3)))
    else if src == NonNilChecked then
      if IsNil(self) then Program(Done(BoolResult(false)))
      else Program(CallCheck(self, Done(BoolResult(true)), Done(BoolResult(false))))
    else if src == NonEmptyChecked then
      match Len(self)
      case None => Program(Panics)
      case Some(n) =>
        if n == 0 then Program(Done(BoolResult(false)))
        else Program(CallCheck(self, Done(BoolResult(true)), Done(BoolResult(false))))
    else CompileError
  }

  /** The sources are four different strings, none of them `check`, `-` or empty. */
  lemma SourcesDistinct()
    ensures |NonEmpty| == 13 && |LengthThree| == 14 && |NonNilChecked| == 26 && |NonEmptyChecked| == 28
    ensures NonEmpty != LengthThree && NonEmpty != NonNilChecked && NonEmpty != NonEmptyChecked
    ensures LengthThree != NonNilChecked && LengthThree != NonEmptyChecked && NonNilChecked != NonEmptyChecked
    ensures forall s :: s in [NonEmpty, LengthThree, NonNilChecked, NonEmptyChecked] ==> |s| > 5
  {
  }

  /** What `len(self) > 0` gives. */
  lemma RunsNonEmpty(x: Value, sup: Value)
    ensures TestRuns(NonEmpty, x, sup) ==
              match Len(x)
              case None => Program(Panics)
              case Some(n) => Program(Done(BoolResult(n > 0)))
  {
  }

  /**
   A field constrained by `len(self) > 0` whose value has no length (a
   pointer or a struct) makes the walk panic, naming the expression,
   however the fields after it would fare.
   */
  lemma NoLengthPanics(v: Validator, p: string, z: Value, i: nat)
    requires z.Struct? && i < |z.fields|
    requires Selected(z.fields[i].decl, v) && !z.fields[i].decl.anonymous
    requires Source(z.fields[i].decl, v) == NonEmpty && Len(z.fields[i].value).None?
    ensures Shrinks(TestRuns)
    ensures FieldStep(v, TestRuns, p, z, i) == Panic(NonEmpty)
    ensures StructFrom(v, TestRuns, p, z, i) == Panic(NonEmpty)
  {
    TestRunsShrink();
    SourcesDistinct();
  }

  /** The test sources only check the field's own value. */
  lemma TestRunsShrink()
    ensures Shrinks(TestRuns)
  {
  }

  /** Each source is its own trim. */
  lemma NonEmptyTrimmed()
    ensures TrimSpace(NonEmpty) == NonEmpty
  {
    TrimSpaceOfTrimmed(NonEmpty);
  }

  lemma NonNilCheckedTrimmed()
    ensures TrimSpace(NonNilChecked) == NonNilChecked
  {
    TrimSpaceOfTrimmed(NonNilChecked);
  }

  lemma NonEmptyCheckedTrimmed()
    ensures TrimSpace(NonEmptyChecked) == NonEmptyChecked
  {
    TrimSpaceOfTrimmed(NonEmptyChecked);
  }

  lemma LengthThreeTrimmed()
    ensures TrimSpace(LengthThree) == LengthThree
  {
    TrimSpaceOfTrimmed(LengthThree);
  }

  // ---------------------------------------------------------------------
  // Fields tagged `json:"n" check:"src"` under the default validator

  /** A field declared with the tag `json:"n" check:"src"`. */
  function Checked(name: string, n: string, src: string): FieldDecl {
    FieldDecl(name, Render([("json", n), ("check", src)]), false)
  }

  /** Such a field is shown as `n`, has no message, and has the trimmed `src` as its source. */
  lemma {:induction false} CheckedFacts(v: Validator, name: string, n: string, src: string)
    requires v == Validator("check", "invalid", "json")
    requires n != [] && ',' !in n
    ensures Source(Checked(name, n, src), v) == TrimSpace(src)
    ensures Message(Checked(name, n, src), v) == ""
    ensures DisplayName(Checked(name, n, src), v) == n
  {
    var ps := [("json", n), ("check", src)];
    DefaultKeysSimple();
    assert forall k :: 0 <= k < |ps| ==> SimpleName(ps[k].0);
    DeclFacts(Checked(name, n, src), v, ps);
    assert ps[1..][0] == ps[1] && ps[1..][1..] == [];
    assert |"json"| != |"invalid"| && |"check"| != |"invalid"| && |"json"| != |"check"|;
    assert FirstNamed(ps, "check") == Some(src);
    assert FirstNamed(ps[1..], "invalid") == None;
    assert FirstNamed(ps, "json") == Some(n);
    FieldNameOfPlainName(n);
  }

  // ---------------------------------------------------------------------
  // The engine on one field

  /** The shape of a struct with one field is that field's step; with no hook, so is its check. */
  lemma OneFieldStruct(v: Validator, eval: Eval, p: string, h: Hook, t: string, f: Field)
    requires Shrinks(eval)
    ensures Shape(v, eval, p, Struct(h, t, [f])) == FieldStep(v, eval, p, Struct(h, t, [f]), 0)
    ensures h.NoHook? ==> Check(v, eval, p, Struct(h, t, [f])) == FieldStep(v, eval, p, Struct(h, t, [f]), 0)
  {
    var z := Struct(h, t, [f]);
    assert Indirect(z) == z;
    assert Shape(v, eval, p, z) == StructFrom(v, eval, p, z, 0);
    assert StructFrom(v, eval, p, z, 1) == Res(true, []);
    var r := FieldStep(v, eval, p, z, 0);
    assert StructFrom(v, eval, p, z, 0) == Append(r, Res(true, []));
    if r.Res? {
      assert r.errs + [] == r.errs;
    }
  }

  /** `check(arg) && ...` where the call passes silently: the field passes too. */
  lemma PassedCheck(v: Validator, eval: Eval, path: string, msg: string, src: string, arg: Value, bound: nat)
    requires Shrinks(eval) && ArgsBelow(CallCheck(arg, Done(BoolResult(true)), Done(BoolResult(false))), bound)
    requires Check(v, eval, path, arg) == Res(true, [])
    ensures Interpret(v, eval, path, msg, src, CallCheck(arg, Done(BoolResult(true)), Done(BoolResult(false))), bound) == Res(true, [])
  {
    assert Interpret(v, eval, path, msg, src, Done(BoolResult(true)), bound) == Res(true, []);
    var none: seq<Err> := [];
    assert none + none == none;
  }

  /** `check(arg)` whose verdict is the expression's result, with no message: the call's errors, then the field's own if it failed. */
  lemma CallThenVerdict(v: Validator, eval: Eval, path: string, src: string, arg: Value, bound: nat)
    requires Shrinks(eval) && ArgsBelow(CallCheck(arg, Done(BoolResult(true)), Done(BoolResult(false))), bound)
    requires Check(v, eval, path, arg).Res?
    ensures var c := Check(v, eval, path, arg);
      Interpret(v, eval, path, "", src, CallCheck(arg, Done(BoolResult(true)), Done(BoolResult(false))), bound) ==
        if c.valid then Res(true, c.errs) else Res(false, c.errs + [Unsatisfied(path, src)])
  {
    var c := Check(v, eval, path, arg);
    assert c.errs + [] == c.errs;
  }

  /** A selected field with an expression that returns at once is judged by the result table. */
  lemma ExprFieldStep(v: Validator, eval: Eval, p: string, z: Value, i: nat, res: ExecResult)
    requires Shrinks(eval) && z.Struct? && i < |z.fields|
    requires Selected(z.fields[i].decl, v) && !z.fields[i].decl.anonymous
    requires Source(z.fields[i].decl, v) != "check"
    requires eval(Source(z.fields[i].decl, v), z.fields[i].value, z) == Program(Done(res))
    ensures FieldStep(v, eval, p, z, i) ==
              ResultTable(KeyPath(p, DisplayName(z.fields[i].decl, v)), Message(z.fields[i].decl, v), Source(z.fields[i].decl, v), res)
  {
  }

  /** What the engine reads from a declared field: not embedded, its display name, source and message. */
  predicate DeclaredAs(d: FieldDecl, v: Validator, n: string, src: string, msg: string) {
    !d.anonymous && DisplayName(d, v) == n && Source(d, v) == src && Message(d, v) == msg
  }

  /** A field declared with one of the test sources is selected and evaluated as an expression. */
  lemma DeclaredSelected(v: Validator, d: FieldDecl, n: string, src: string, msg: string)
    requires DeclaredAs(d, v, n, src, msg)
    requires src in [NonEmpty, LengthThree, NonNilChecked, NonEmptyChecked]
    ensures Selected(d, v) && Source(d, v) != "check"
  {
    SourcesDistinct();
    assert Selected(d, v) by {
      assert |"-"| == 1;
    }
    assert Source(d, v) != "check" by {
      assert |"check"| == 5;
    }
  }

  // ---------------------------------------------------------------------
  // testA

  /** The field of `testA`, `F1 string `json:"a_1" check:"len(self) > 0"``, read by the default validator. */
  lemma TestATag(v: Validator)
    requires v == Validator("check", "invalid", "json")
    ensures DeclaredAs(Checked("F1", "a_1", NonEmpty), v, "a_1", NonEmpty, "")
  {
    CheckedFacts(v, "F1", "a_1", NonEmpty);
    NonEmptyTrimmed();
  }

  /** A `testA` whose field is declared `d` and whose string has `f1` bytes. */
  function TestA(d: FieldDecl, f1: nat): Value {
    Struct(NoHook, "testA", [Field(d, Scalar(NoHook, Some(f1)))])
  }

  /** The one field step of a `testA` at `p`: the result table on whether the string is non-empty. */
  lemma TestAStep(v: Validator, d: FieldDecl, f1: nat, p: string)
    requires DeclaredAs(d, v, "a_1", NonEmpty, "")
    ensures FieldStep(v, TestRuns, p, TestA(d, f1), 0) == ResultTable(KeyPath(p, "a_1"), "", NonEmpty, BoolResult(f1 > 0))
  {
    var z := TestA(d, f1);
    TestRunsShrink();
    SourcesDistinct();
    RunsNonEmpty(z.fields[0].value, z);
    assert Selected(d, v) by {
      assert |"-"| == 1;
    }
    assert Source(d, v) != "check" by {
      assert |"check"| == 5;
    }
    ExprFieldStep(v, TestRuns, p, z, 0, BoolResult(f1 > 0));
  }

  /** A `testA` at `p`, directly or through a pointer, reports `p.a_1` exactly when its string is empty. */
  lemma TestAAt(v: Validator, d: FieldDecl, f1: nat, p: string)
    requires DeclaredAs(d, v, "a_1", NonEmpty, "")
    ensures Shrinks(TestRuns)
    ensures Check(v, TestRuns, p, Ptr(NoHook, Some(TestA(d, f1)))) == Check(v, TestRuns, p, TestA(d, f1))
    ensures Check(v, TestRuns, p, TestA(d, f1)) ==
              if f1 == 0 then Res(false, [Unsatisfied(KeyPath(p, "a_1"), NonEmpty)]) else Res(true, [])
  {
    TestRunsShrink();
    var z := TestA(d, f1);
    var step := FieldStep(v, TestRuns, p, z, 0);
    assert step == if f1 == 0 then Res(false, [Unsatisfied(KeyPath(p, "a_1"), NonEmpty)]) else Res(true, []) by {
      TestAStep(v, d, f1, p);
    }
    assert Check(v, TestRuns, p, z) == step && Shape(v, TestRuns, p, z) == step by {
      OneFieldStruct(v, TestRuns, p, NoHook, "testA", z.fields[0]);
    }
    NoHookShape(v, TestRuns, p, Ptr(NoHook, Some(z)));
  }

  /** `a_1` is reported exactly when the string is empty (v1/validate_test.go:110-111). */
  lemma TestAScenario(v: Validator, d: FieldDecl, f1: nat)
    requires DeclaredAs(d, v, "a_1", NonEmpty, "")
    ensures Shrinks(TestRuns)
    ensures Validate(v, TestRuns, TestA(d, f1)) ==
              if f1 == 0 then Returned([Unsatisfied("a_1", NonEmpty)]) else Returned([])
  {
    TestAAt(v, d, f1, "");
  }

  // ---------------------------------------------------------------------
  // testB

  /** The field of `testB`, `F1 *testA `json:"b_1" check:"self != nil && check(self)"``. */
  lemma TestBTag(v: Validator)
    requires v == Validator("check", "invalid", "json")
    ensures DeclaredAs(Checked("F1", "b_1", NonNilChecked), v, "b_1", NonNilChecked, "")
  {
    CheckedFacts(v, "F1", "b_1", NonNilChecked);
    NonNilCheckedTrimmed();
  }

  /** A `testB` whose field is declared `d` and points to `t`, or is nil. */
  function TestB(d: FieldDecl, t: Option<Value>): Value {
    Struct(NoHook, "testB", [Field(d, Ptr(NoHook, t))])
  }

  /** A nil `b_1` fails `self != nil` and is reported at `b_1`. */
  lemma TestBNilStep(v: Validator, d: FieldDecl)
    requires DeclaredAs(d, v, "b_1", NonNilChecked, "")
    ensures Shrinks(TestRuns)
    ensures FieldStep(v, TestRuns, "", TestB(d, None), 0) == ResultTable("b_1", "", NonNilChecked, BoolResult(false))
  {
    TestRunsShrink();
    DeclaredSelected(v, d, "b_1", NonNilChecked, "");
    ExprFieldStep(v, TestRuns, "", TestB(d, None), 0, BoolResult(false));
  }

  /** The path of `a_1` inside `b_1`. */
  lemma NestedPath()
    ensures KeyPath("b_1", "a_1") == "b_1.a_1"
  {
    assert "b_1" + "." + "a_1" == "b_1.a_1";
  }

  /** A non-nil `b_1` runs `check(self)`, then takes the call's verdict as its own. */
  lemma TestBPtrCalls(v: Validator, dA: FieldDecl, dB: FieldDecl, f1: nat)
    requires DeclaredAs(dB, v, "b_1", NonNilChecked, "")
    ensures Shrinks(TestRuns)
    ensures var z := TestB(dB, Some(TestA(dA, f1)));
      ArgsBelow(CallCheck(z.fields[0].value, Done(BoolResult(true)), Done(BoolResult(false))), Size(z))
    ensures var z := TestB(dB, Some(TestA(dA, f1)));
      FieldStep(v, TestRuns, "", z, 0) ==
           Interpret(v, TestRuns, "b_1", "", NonNilChecked, CallCheck(z.fields[0].value, Done(BoolResult(true)), Done(BoolResult(false))), Size(z))
  {
    TestRunsShrink();
    SourcesDistinct();
    DeclaredSelected(v, dB, "b_1", NonNilChecked, "");
    var z := TestB(dB, Some(TestA(dA, f1)));
    FieldSmaller(z, 0);
    assert TestRuns(NonNilChecked, z.fields[0].value, z) == Program(CallCheck(z.fields[0].value, Done(BoolResult(true)), Done(BoolResult(false))));
  }

  /** A `b_1` pointing to a `testA` is checked first, then judged on the verdict of that check. */
  lemma TestBPtrStep(v: Validator, dA: FieldDecl, dB: FieldDecl, f1: nat)
    requires DeclaredAs(dA, v, "a_1", NonEmpty, "")
    requires DeclaredAs(dB, v, "b_1", NonNilChecked, "")
    ensures Shrinks(TestRuns)
    ensures FieldStep(v, TestRuns, "", TestB(dB, Some(TestA(dA, f1))), 0) ==
              if f1 == 0 then
                Res(false, [Unsatisfied(KeyPath("b_1", "a_1"), NonEmpty),
                            Unsatisfied("b_1", NonNilChecked)])
              else Res(true, [])
  {
    TestRunsShrink();
    var z := TestB(dB, Some(TestA(dA, f1)));
    var arg := z.fields[0].value;
    var run := CallCheck(arg, Done(BoolResult(true)), Done(BoolResult(false)));
    var e := Unsatisfied(KeyPath("b_1", "a_1"), NonEmpty);
    var u := Unsatisfied("b_1", NonNilChecked);
    assert ArgsBelow(run, Size(z)) && FieldStep(v, TestRuns, "", z, 0) == Interpret(v, TestRuns, "b_1", "", NonNilChecked, run, Size(z)) by {
      TestBPtrCalls(v, dA, dB, f1);
    }
    assert Check(v, TestRuns, "b_1", arg) == if f1 == 0 then Res(false, [e]) else Res(true, []) by {
      TestAAt(v, dA, f1, "b_1");
    }
    assert Interpret(v, TestRuns, "b_1", "", NonNilChecked, run, Size(z)) == if f1 == 0 then Res(false, [e, u]) else Res(true, []) by {
      CallThenVerdict(v, TestRuns, "b_1", NonNilChecked, arg, Size(z));
      assert [e] + [u] == [e, u];
    }
  }

  /**
   A nil pointer fails `self != nil`; a pointer to a `testA` with an empty
   string reports the nested `b_1.a_1` first, then `b_1`; a pointer to a
   valid `testA` passes (v1/validate_test.go:113-115).
   */
  lemma TestBScenario(v: Validator, dA: FieldDecl, dB: FieldDecl, t: Option<nat>)
    requires DeclaredAs(dA, v, "a_1", NonEmpty, "")
    requires DeclaredAs(dB, v, "b_1", NonNilChecked, "")
    ensures Shrinks(TestRuns)
    ensures var s := TestB(dB, if t.Some? then Some(TestA(dA, t.value)) else None);
      Validate(v, TestRuns, s) ==
        if t.None? then Returned([Unsatisfied("b_1", NonNilChecked)])
        else if t.value == 0 then
          Returned([Unsatisfied("b_1.a_1", NonEmpty),
                    Unsatisfied("b_1", NonNilChecked)])
        else Returned([])
  {
    TestRunsShrink();
    var s := TestB(dB, if t.Some? then Some(TestA(dA, t.value)) else None);
    OneFieldStruct(v, TestRuns, "", NoHook, "testB", s.fields[0]);
    if t.None? {
      TestBNilStep(v, dB);
    } else {
      TestBPtrStep(v, dA, dB, t.value);
      NestedPath();
    }
  }

  // ---------------------------------------------------------------------
  // testM, testN, testO: hooks

  /** A field declared with the tag `json:"n" check:"src" invalid:"msg"`. */
  function WithMessage(name: string, n: string, src: string, msg: string): FieldDecl {
    FieldDecl(name, Render([("json", n), ("check", src), ("invalid", msg)]), false)
  }

  /** Such a field is shown as `n`, with the trimmed `src` as its source and the trimmed `msg` as its message. */
  lemma {:induction false} WithMessageFacts(v: Validator, name: string, n: string, src: string, msg: string)
    requires v == Validator("check", "invalid", "json")
    requires n != [] && ',' !in n
    ensures Source(WithMessage(name, n, src, msg), v) == TrimSpace(src)
    ensures Message(WithMessage(name, n, src, msg), v) == TrimSpace(msg)
    ensures DisplayName(WithMessage(name, n, src, msg), v) == n
  {
    var ps := [("json", n), ("check", src), ("invalid", msg)];
    DefaultKeysSimple();
    assert forall k :: 0 <= k < |ps| ==> SimpleName(ps[k].0);
    DeclFacts(WithMessage(name, n, src, msg), v, ps);
    ThreeNamed(n, src, msg);
    FieldNameOfPlainName(n);
  }

  /** Looking up the three keys of such a tag. */
  lemma ThreeNamed(n: string, src: string, msg: string)
    ensures var ps := [("json", n), ("check", src), ("invalid", msg)];
      FirstNamed(ps, "check") == Some(src) && FirstNamed(ps, "invalid") == Some(msg) && FirstNamed(ps, "json") == Some(n)
  {
    var ps := [("json", n), ("check", src), ("invalid", msg)];
    assert ps[1..][0] == ps[1] && ps[1..][1..][0] == ps[2] && ps[1..][1..][1..] == [];
    assert |"json"| != |"invalid"| && |"check"| != |"invalid"| && |"json"| != |"check"|;
    assert FirstNamed(ps[1..][1..], "invalid") == Some(msg);
    assert FirstNamed(ps[1..], "invalid") == Some(msg);
  }

  /** The field of `testM`, `testN` and `testO`: `len(self) == 3`, with the message `Wrong length`. */
  lemma WrongLengthTag(v: Validator, n: string, msg: string)
    requires v == Validator("check", "invalid", "json")
    requires n != [] && ',' !in n && msg == "Wrong length"
    ensures DeclaredAs(WithMessage("F1", n, LengthThree, msg), v, n, LengthThree, msg)
  {
    WithMessageFacts(v, "F1", n, LengthThree, msg);
    LengthThreeTrimmed();
    TrimSpaceOfTrimmed(msg);
  }

  /** A struct of type `t` with hook `h` whose one field, declared `d`, is a string of `f1` bytes. */
  function Hooked(h: Hook, t: string, d: FieldDecl, f1: nat): Value {
    Struct(h, t, [Field(d, Scalar(NoHook, Some(f1)))])
  }

  /** What `len(self) == 3` gives. */
  lemma RunsLengthThree(x: Value, sup: Value)
    ensures TestRuns(LengthThree, x, sup) ==
              match Len(x)
              case None => Program(Panics)
              case Some(n) => Program(Done(BoolResult(n == 3)))
  {
    SourcesDistinct();
  }

  /** The shape of such a struct: `n` with its message when the length is not three. */
  lemma WrongLengthStep(v: Validator, h: Hook, t: string, d: FieldDecl, n: string, f1: nat)
    requires DeclaredAs(d, v, n, LengthThree, "Wrong length")
    ensures Shrinks(TestRuns)
    ensures Shape(v, TestRuns, "", Hooked(h, t, d, f1)) ==
              if f1 == 3 then Res(true, []) else Res(false, [FieldErr(n, "Wrong length", None, false)])
  {
    var z := Hooked(h, t, d, f1);
    TestRunsShrink();
    DeclaredSelected(v, d, n, LengthThree, "Wrong length");
    RunsLengthThree(z.fields[0].value, z);
    ExprFieldStep(v, TestRuns, "", z, 0, BoolResult(f1 == 3));
    OneFieldStruct(v, TestRuns, "", h, t, z.fields[0]);
  }

  /**
   A V1 hook that returns nil decides alone: the field's own check is not
   run (v1/validate_test.go:153-155). A V2 hook that returns nil and asks to
   continue leaves the field's check to decide (lines 157-158). A V2 hook
   that reports `syn` and continues has its error first, then the field's
   (lines 160-161).
   */
  lemma HookScenarios(v: Validator, d: FieldDecl, n: string, f1: nat)
    requires DeclaredAs(d, v, n, LengthThree, "Wrong length")
    ensures Shrinks(TestRuns)
    ensures Validate(v, TestRuns, Hooked(HookV1(None), "testM", d, f1)) == Returned([])
    ensures Validate(v, TestRuns, Hooked(HookV2(None, true), "testN", d, f1)) ==
              if f1 == 3 then Returned([]) else Returned([FieldErr(n, "Wrong length", None, false)])
    ensures var syn := FieldErrorf("syn", "This is the problem");
      Validate(v, TestRuns, Hooked(HookV2(Some(syn), true), "testO", d, f1)) ==
        if f1 == 3 then Returned([syn]) else Returned([syn, FieldErr(n, "Wrong length", None, false)])
  {
    HookV1Alone(v, d, f1);
    HookV2Continues(v, d, n, f1);
    HookV2ReportsFirst(v, d, n, f1);
  }

  /** A V1 hook that returns nil decides alone. */
  lemma HookV1Alone(v: Validator, d: FieldDecl, f1: nat)
    ensures Shrinks(TestRuns)
    ensures Validate(v, TestRuns, Hooked(HookV1(None), "testM", d, f1)) == Returned([])
  {
    TestRunsShrink();
  }

  /** A V2 hook that returns nil and continues leaves the field's check to decide. */
  lemma HookV2Continues(v: Validator, d: FieldDecl, n: string, f1: nat)
    requires DeclaredAs(d, v, n, LengthThree, "Wrong length")
    ensures Shrinks(TestRuns)
    ensures Validate(v, TestRuns, Hooked(HookV2(None, true), "testN", d, f1)) ==
              if f1 == 3 then Returned([]) else Returned([FieldErr(n, "Wrong length", None, false)])
  {
    TestRunsShrink();
    WrongLengthStep(v, HookV2(None, true), "testN", d, n, f1);
    var none: seq<Err> := [];
    assert none + none == none;
  }

  /** A V2 hook that reports `syn` and continues: its error, then the field's. */
  lemma HookV2ReportsFirst(v: Validator, d: FieldDecl, n: string, f1: nat)
    requires DeclaredAs(d, v, n, LengthThree, "Wrong length")
    ensures Shrinks(TestRuns)
    ensures var syn := FieldErrorf("syn", "This is the problem");
      Validate(v, TestRuns, Hooked(HookV2(Some(syn), true), "testO", d, f1)) ==
        if f1 == 3 then Returned([syn]) else Returned([syn, FieldErr(n, "Wrong length", None, false)])
  {
    TestRunsShrink();
    var syn := FieldErrorf("syn", "This is the problem");
    WrongLengthStep(v, HookV2(Some(syn), true), "testO", d, n, f1);
    assert AsFieldError(syn) == Some(syn) && AsAggregate(syn) == None by {
      assert Children(syn) == [];
      assert [syn][1..] == [];
    }
    assert HookErrs("", Some(syn)) == [syn];
    var none: seq<Err> := [];
    assert [syn] + none == [syn];
  }

  // ---------------------------------------------------------------------
  // testP, testQ: an embedded testA

  /** An embedded field with tag `check:"src"` on a field named `name`. */
  function Embedded(name: string, src: string): FieldDecl {
    FieldDecl(name, Render([("check", src)]), true)
  }

  /** `testP` embeds `testA` with no tag; `testQ` embeds it with `check:"-"`. */
  lemma EmbeddedTags(v: Validator, name: string, dash: string)
    requires v == Validator("check", "invalid", "json") && dash == "-"
    ensures Source(FieldDecl(name, "", true), v) == ""
    ensures Source(Embedded(name, dash), v) == "-"
  {
    DefaultKeysSimple();
    SimpleTag([], "check");
    var ps := [("check", dash)];
    assert forall k :: 0 <= k < |ps| ==> SimpleName(ps[k].0);
    SimpleTag(ps, "check");
    assert FirstNamed(ps, "check") == Some(dash);
    TrimSpaceOfTrimmed(dash);
  }

  /** A struct of type `t` whose only field is a `testA`, embedded as `e`. */
  function WithEmbedded(t: string, e: FieldDecl, dA: FieldDecl, f1: nat): Value {
    Struct(NoHook, t, [Field(e, TestA(dA, f1))])
  }

  /**
   An embedded `testA` with no source is validated in place: its `a_1` is
   reported at the top, with no prefix. Embedded with the source `-`, it is
   skipped (v1/validate_test.go:163-166).
   */
  lemma EmbeddedScenario(v: Validator, t: string, e: FieldDecl, dA: FieldDecl, f1: nat)
    requires DeclaredAs(dA, v, "a_1", NonEmpty, "")
    requires e.anonymous && (Source(e, v) == "" || Source(e, v) == "-")
    ensures Shrinks(TestRuns)
    ensures Validate(v, TestRuns, WithEmbedded(t, e, dA, f1)) ==
              if Source(e, v) == "" && f1 == 0 then Returned([Unsatisfied("a_1", NonEmpty)])
              else Returned([])
  {
    TestRunsShrink();
    var z := WithEmbedded(t, e, dA, f1);
    OneFieldStruct(v, TestRuns, "", NoHook, t, z.fields[0]);
    SkippedFieldsContributeNothing(v, TestRuns, "", z, 0);
    if Source(e, v) == "" {
      TestAAt(v, dA, f1, "");
      NoHookShape(v, TestRuns, "", TestA(dA, f1));
      EmbeddedFieldTransparent(v, TestRuns, "", z, 0);
    }
  }

  // ---------------------------------------------------------------------
  // testF: a slice of testA

  /** The field of `testF`, `F1 []testA `json:"f_1" check:"len(self) > 0 && check(self)"``. */
  lemma TestFTag(v: Validator)
    requires v == Validator("check", "invalid", "json")
    ensures DeclaredAs(Checked("F1", "f_1", NonEmptyChecked), v, "f_1", NonEmptyChecked, "")
  {
    CheckedFacts(v, "F1", "f_1", NonEmptyChecked);
    NonEmptyCheckedTrimmed();
  }

  /** A `testF` whose field is declared `d` and holds the elements `es`. */
  function TestF(d: FieldDecl, es: seq<Value>): Value {
    Struct(NoHook, "testF", [Field(d, Seq(NoHook, es))])
  }

  /** A slice of one element with no hook is that element's check at index 0. */
  lemma SliceOfOne(v: Validator, eval: Eval, p: string, a: Value)
    requires Shrinks(eval)
    ensures Check(v, eval, p, Seq(NoHook, [a])) == Append(Check(v, eval, IndexPath(p, 0), a), Res(true, []))
  {
    var z := Seq(NoHook, [a]);
    assert Check(v, eval, p, z) == Shape(v, eval, p, z) == Elems(v, eval, p, z, 0);
    assert Elems(v, eval, p, z, 1) == Res(true, []);
  }

  /** The path of `a_1` in the first element of `f_1`. */
  lemma SlicePath()
    ensures KeyPath(IndexPath("f_1", 0), "a_1") == "f_1[0].a_1"
  {
    assert Strconv.Itoa(0) == "0";
    assert IndexPath("f_1", 0) == "f_1[0]";
    assert "f_1[0]" + "." + "a_1" == "f_1[0].a_1";
  }

  /** An empty `f_1` fails `len(self) > 0` and is reported at `f_1`. */
  lemma TestFEmptyStep(v: Validator, d: FieldDecl)
    requires DeclaredAs(d, v, "f_1", NonEmptyChecked, "")
    ensures Shrinks(TestRuns)
    ensures FieldStep(v, TestRuns, "", TestF(d, []), 0) == ResultTable("f_1", "", NonEmptyChecked, BoolResult(false))
  {
    TestRunsShrink();
    SourcesDistinct();
    DeclaredSelected(v, d, "f_1", NonEmptyChecked, "");
    var z := TestF(d, []);
    assert TestRuns(NonEmptyChecked, z.fields[0].value, z) == Program(Done(BoolResult(false)));
    ExprFieldStep(v, TestRuns, "", z, 0, BoolResult(false));
  }

  /** A non-empty `f_1` runs `check(self)`, then takes the call's verdict as its own. */
  lemma TestFCalls(v: Validator, d: FieldDecl, a: Value)
    requires DeclaredAs(d, v, "f_1", NonEmptyChecked, "")
    ensures Shrinks(TestRuns)
    ensures var z := TestF(d, [a]);
      ArgsBelow(CallCheck(z.fields[0].value, Done(BoolResult(true)), Done(BoolResult(false))), Size(z))
    ensures var z := TestF(d, [a]);
      FieldStep(v, TestRuns, "", z, 0) ==
        Interpret(v, TestRuns, "f_1", "", NonEmptyChecked, CallCheck(z.fields[0].value, Done(BoolResult(true)), Done(BoolResult(false))), Size(z))
  {
    TestRunsShrink();
    SourcesDistinct();
    DeclaredSelected(v, d, "f_1", NonEmptyChecked, "");
    var z := TestF(d, [a]);
    FieldSmaller(z, 0);
    assert Len(z.fields[0].value) == Some(1);
    assert TestRuns(NonEmptyChecked, z.fields[0].value, z) == Program(CallCheck(z.fields[0].value, Done(BoolResult(true)), Done(BoolResult(false))));
  }

  /** Checking a slice holding one `testA` at `f_1` checks the element at `f_1[0]`. */
  lemma SliceOfTestA(v: Validator, dA: FieldDecl, f1: nat)
    requires DeclaredAs(dA, v, "a_1", NonEmpty, "")
    ensures Shrinks(TestRuns)
    ensures Check(v, TestRuns, "f_1", Seq(NoHook, [TestA(dA, f1)])) ==
              if f1 == 0 then Res(false, [Unsatisfied(KeyPath(IndexPath("f_1", 0), "a_1"), NonEmpty)])
              else Res(true, [])
  {
    TestRunsShrink();
    TestAAt(v, dA, f1, IndexPath("f_1", 0));
    SliceOfOne(v, TestRuns, "f_1", TestA(dA, f1));
    var none: seq<Err> := [];
    var e := Check(v, TestRuns, IndexPath("f_1", 0), TestA(dA, f1));
    assert e.errs + none == e.errs;
  }

  /** A `f_1` holding one `testA`: the element's errors at `f_1[0]`, then `f_1` itself if it failed. */
  lemma TestFOneStep(v: Validator, dA: FieldDecl, d: FieldDecl, f1: nat)
    requires DeclaredAs(dA, v, "a_1", NonEmpty, "")
    requires DeclaredAs(d, v, "f_1", NonEmptyChecked, "")
    ensures Shrinks(TestRuns)
    ensures FieldStep(v, TestRuns, "", TestF(d, [TestA(dA, f1)]), 0) ==
              if f1 == 0 then
                Res(false, [Unsatisfied(KeyPath(IndexPath("f_1", 0), "a_1"), NonEmpty),
                            Unsatisfied("f_1", NonEmptyChecked)])
              else Res(true, [])
  {
    TestRunsShrink();
    var z := TestF(d, [TestA(dA, f1)]);
    var arg := z.fields[0].value;
    var run := CallCheck(arg, Done(BoolResult(true)), Done(BoolResult(false)));
    var e := Unsatisfied(KeyPath(IndexPath("f_1", 0), "a_1"), NonEmpty);
    var u := Unsatisfied("f_1", NonEmptyChecked);
    assert ArgsBelow(run, Size(z)) && FieldStep(v, TestRuns, "", z, 0) == Interpret(v, TestRuns, "f_1", "", NonEmptyChecked, run, Size(z)) by {
      TestFCalls(v, d, TestA(dA, f1));
    }
    var c := Check(v, TestRuns, "f_1", arg);
    assert c == if f1 == 0 then Res(false, [e]) else Res(true, []) by {
      assert arg == Seq(NoHook, [TestA(dA, f1)]);
      SliceOfTestA(v, dA, f1);
    }
    CallThenVerdict(v, TestRuns, "f_1", NonEmptyChecked, arg, Size(z));
    assert [e] + [u] == [e, u];
  }

  /**
   An empty slice fails `len(self) > 0`; a slice holding one `testA` with
   an empty string reports `f_1[0].a_1`, then `f_1`; one holding a valid
   `testA` passes (v1/validate_test.go:126-128).
   */
  lemma TestFScenario(v: Validator, dA: FieldDecl, d: FieldDecl, t: Option<nat>)
    requires DeclaredAs(dA, v, "a_1", NonEmpty, "")
    requires DeclaredAs(d, v, "f_1", NonEmptyChecked, "")
    ensures Shrinks(TestRuns)
    ensures var s := TestF(d, if t.Some? then [TestA(dA, t.value)] else []);
      Validate(v, TestRuns, s) ==
        if t.None? then Returned([Unsatisfied("f_1", NonEmptyChecked)])
        else if t.value == 0 then
          Returned([Unsatisfied("f_1[0].a_1", NonEmpty),
                    Unsatisfied("f_1", NonEmptyChecked)])
        else Returned([])
  {
    TestRunsShrink();
    var s := TestF(d, if t.Some? then [TestA(dA, t.value)] else []);
    OneFieldStruct(v, TestRuns, "", NoHook, "testF", s.fields[0]);
    if t.None? {
      TestFEmptyStep(v, d);
    } else {
      TestFOneStep(v, dA, d, t.value);
      SlicePath();
    }
  }
}
