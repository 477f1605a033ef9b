/**
 The recursive validation engine (v1/validate.go): hook dispatch, shape
 dispatch, the per-field walk of a struct, the walk of a slice, and the
 table that turns an expression's result into errors. The error buffer of
 the source is the error list each step returns, in order; a panic is a
 distinguished result that ends the walk.

 Expressions are compiled and run by a library outside this model. They
 enter as an oracle `eval(src, self, sup)` that either fails to compile or
 yields a `Run`: a finite tree whose inner nodes are the calls the
 expression makes to its `check(...)` binding, branching on the verdict
 each call returns, and whose leaves are the expression's results.
 */
module Engine {
  import opened Optional
  import opened GoStrings
  import opened Strconv
  import opened Errors
  import opened Values
  import opened Validators
  import opened Tag
  import opened Types

  /** `ErrUnsupportedType` (validate.go:17). */
  const ErrUnsupportedType: Err := Plain("Unsupported type (use a struct)")

  /**
   The verdict and the errors added, in order; or a panic, naming the
   expression that did not compile or whose run panicked.
   */
  datatype Res = Res(valid: bool, errs: seq<Err>) | Panic(source: string)

  /** What `Validate` gives back: the errors, or the panic that escaped. */
  datatype Outcome = Returned(errs: seq<Err>) | Panicked(source: string)

  /** What running an expression returned, by the cases validate.go:227-253 tells apart. */
  datatype ExecResult =
    | EvalFailed(reason: string)
    | NilResult
    | ErrorResult(err: Err)
    | ErrorsResult(errs: seq<Err>)
    | BoolResult(b: bool)
    | OtherResult(typeName: string, shown: string)

  /**
   A run of an expression: its result; a call `check(arg)` followed by the
   rest of the run for each verdict the call may return; or a panic raised
   inside a binding the expression called, such as `len` on a value that
   has no length (validate.go:268-269), which escapes the run as the
   panics of nested `check` calls do.
   */
  datatype Run =
    | Done(result: ExecResult)
    | CallCheck(arg: Value, ifValid: Run, ifInvalid: Run)
    | Panics

  datatype Compiled = CompileError | Program(run: Run)

  /** The expression oracle: the source, the field's value (`self`) and the struct holding it (`sup`). */
  type Eval = (string, Value, Value) -> Compiled

  /** Every value a run passes to `check` is smaller than `bound`. */
  ghost predicate ArgsBelow(run: Run, bound: nat) {
    match run
    case Done(_) => true
    case Panics => true
    case CallCheck(arg, t, f) => Size(arg) < bound && ArgsBelow(t, bound) && ArgsBelow(f, bound)
  }

  /**
   Expressions only `check` values inside `self` or inside `sup` short of
   `sup` itself: the runs for which the recursion of the source ends.
   */
  ghost predicate Shrinks(eval: Eval) {
    forall src, self, sup :: eval(src, self, sup).Program? ==>
      ArgsBelow(eval(src, self, sup).run, if Size(self) + 1 > Size(sup) then Size(self) + 1 else Size(sup))
  }

  // ---------------------------------------------------------------------
  // Paths and error normalisation

  /** `keyPath` (validate.go:50-56). */
  function KeyPath(b: string, f: string): (r: string)
    ensures b == "" ==> r == f
    ensures b != "" ==> |r| == |b| + 1 + |f| && r[..|b|] == b && r[|b|] == '.' && r[|b| + 1..] == f
  {
    if b != "" then b + "." + f else f
  }

  /** The path of element `i` of a slice at `p` (validate.go:144). */
  function IndexPath(p: string, i: nat): (r: string)
    ensures |r| > |p| + 1 && r[..|p|] == p && r[|p|] == '[' && r[|r| - 1] == ']'
  {
    p + "[" + Itoa(i) + "]"
  }

  /** `coalesce` (validate.go:287-294): the first non-empty string, or the empty string. */
  function Coalesce(ts: seq<string>): (r: string)
    ensures r == "" <==> forall k :: 0 <= k < |ts| ==> ts[k] == ""
    ensures r != "" ==> r in ts
  {
    if ts == [] then "" else if ts[0] != "" then ts[0] else Coalesce(ts[1..])
  }

  /**
   `fieldErrors` (validate.go:273-285), with the error's text kept as the
   message. Over the chain of `err` in the order `errors.As` visits it: the
   elements of the first `Errors`; failing that, the first `*FieldError`;
   failing both, one new field error at the path, or `<entity>` at the root.
   */
  function FieldErrors(p: string, err: Err): (r: seq<Err>)
    ensures var c, a := Chain(err), FirstWhere(Chain(err), IsAggregate);
      a < |c| ==> r == c[a].elems
    ensures var c, a, f := Chain(err), FirstWhere(Chain(err), IsAggregate), FirstWhere(Chain(err), IsFieldPointer);
      a == |c| && f < |c| ==> r == [c[f]]
    ensures var c := Chain(err);
      FirstWhere(c, IsAggregate) == |c| && FirstWhere(c, IsFieldPointer) == |c| ==>
              && |r| == 1 && r[0].FieldErr? && r[0].boxed && r[0].cause.None?
              && Fields(r) == [Coalesce([p, "<entity>"])] && Messages(r) == [Text(err)]
    ensures err.Aggregate? ==> r == err.elems
  {
    match AsAggregate(err)
    case Some(es) => es
    case None =>
      match AsFieldError(err)
      case Some(fe) => [fe]
      case None => [FieldErrorf(Coalesce([p, "<entity>"]), Text(err))]
  }

  /** The errors a hook's error contributes: none for a nil error. */
  function HookErrs(p: string, err: Option<Err>): (r: seq<Err>)
    ensures err.None? ==> r == []
  {
    if err.Some? then FieldErrors(p, err.value) else []
  }

  /** The path of a declared field under `p` (validate.go:159-164). */
  function FieldPath(p: string, d: FieldDecl, v: Validator): (r: string)
    ensures !d.anonymous ==> r == KeyPath(p, DisplayName(d, v))
  {
    var n := TagGet(d.tag, v.nameTag);
    if n != "" then KeyPath(p, FieldName(n)) else KeyPath(p, d.name)
  }

  // ---------------------------------------------------------------------
  // Combining results

  /** One step then the next: verdicts conjoined, errors in order, the first panic wins. */
  function Append(a: Res, b: Res): (r: Res)
    ensures a.Panic? ==> r == a
    ensures a.Res? && b.Panic? ==> r == b
    ensures a.Res? && b.Res? ==> r.Res? && (r.valid <==> a.valid && b.valid) && r.errs == a.errs + b.errs
  {
    if a.Panic? then a else if b.Panic? then b else Res(a.valid && b.valid, a.errs + b.errs)
  }

  /** Errors added before a step, leaving its verdict alone. */
  function Prefix(es: seq<Err>, b: Res): (r: Res)
    ensures b.Panic? ==> r == b
    ensures b.Res? ==> r.Res? && r.valid == b.valid && r.errs == es + b.errs
  {
    if b.Panic? then b else Res(b.valid, es + b.errs)
  }

  // ---------------------------------------------------------------------
  // The engine

  /** `validate` (validate.go:95-124): the value's hook, if any, then its shape. */
  function Check(v: Validator, eval: Eval, p: string, s: Value): Res
    requires Shrinks(eval)
    decreases Size(s), 4
  {
    IndirectNotLarger(s);
    match HookOf(s)
    case HookV2(err, cont) =>
      if cont then Prefix(HookErrs(p, err), Shape(v, eval, p, Indirect(s))) else Res(true, HookErrs(p, err))
    case HookV1(err) =>
      if err.Some? then Res(false, FieldErrors(p, err.value)) else Res(true, [])
    case NoHook =>
      Shape(v, eval, p, Indirect(s))
  }

  /** `validateFields` (validate.go:126-138): by kind, with no hook dispatch. */
  function Shape(v: Validator, eval: Eval, p: string, z: Value): Res
    requires Shrinks(eval)
    decreases Size(z), 3
  {
    match z
    case Nil => Res(true, [])
    case Struct(_, _, fs) => StructFrom(v, eval, p, z, 0)
    case Seq(_, es) => Elems(v, eval, p, z, 0)
    case _ => Res(false, [ErrUnsupportedType])
  }

  /** `validateSlice` (validate.go:140-149), from element `i` on: every element, at `p[i]`. */
  function Elems(v: Validator, eval: Eval, p: string, z: Value, i: nat): Res
    requires Shrinks(eval)
    requires z.Seq? && i <= |z.elems|
    decreases Size(z), 2, |z.elems| - i
  {
    if i == |z.elems| then Res(true, [])
    else
      ElemSmaller(z, i);
      Append(Check(v, eval, IndexPath(p, i), z.elems[i]), Elems(v, eval, p, z, i + 1))
  }

  /** `validateStruct` (validate.go:151-259), from field `i` on. */
  function StructFrom(v: Validator, eval: Eval, p: string, z: Value, i: nat): Res
    requires Shrinks(eval)
    requires z.Struct? && i <= |z.fields|
    decreases Size(z), 2, |z.fields| - i
  {
    if i == |z.fields| then Res(true, [])
    else Append(FieldStep(v, eval, p, z, i), StructFrom(v, eval, p, z, i + 1))
  }

  /**
   One iteration of the field loop of `validateStruct`: skip, descend into
   an embedded field keeping only its errors, validate the value for the
   source `check`, or evaluate the expression and interpret its run.
   */
  function FieldStep(v: Validator, eval: Eval, p: string, z: Value, i: nat): Res
    requires Shrinks(eval)
    requires z.Struct? && i < |z.fields|
    decreases Size(z), 1, Done(NilResult)
  {
    var f := z.fields[i];
    FieldSmaller(z, i);
    if !Selected(f.decl, v) then Res(true, [])
    else if f.decl.anonymous then
      var r := Shape(v, eval, p, f.value);
      if r.Panic? then r else Res(true, r.errs)
    else
      var path := FieldPath(p, f.decl, v);
      var src := Source(f.decl, v);
      if src == "check" then Check(v, eval, path, f.value)
      else
        match eval(src, f.value, z)
        case CompileError => Panic(src)
        case Program(run) => Interpret(v, eval, path, Message(f.decl, v), src, run, Size(z))
  }

  /** A run of a field's expression: each `check(arg)` validates `arg` at the field's path. */
  function Interpret(v: Validator, eval: Eval, path: string, msg: string, src: string, run: Run, bound: nat): Res
    requires Shrinks(eval)
    requires ArgsBelow(run, bound)
    decreases bound, 0, run
  {
    match run
    case Done(res) => ResultTable(path, msg, src, res)
    case Panics => Panic(src)
    case CallCheck(arg, t, f) =>
      var r := Check(v, eval, path, arg);
      if r.Panic? then r
      else Prefix(r.errs, Interpret(v, eval, path, msg, src, if r.valid then t else f, bound))
  }

  /** The error for a constraint that came out false on a field with no message of its own. */
  function Unsatisfied(path: string, src: string): Err {
    FieldErrorf(path, "Constraint not satisfied: " + src)
  }

  /** The field's own verdict and errors for an expression result (validate.go:228-253). */
  function ResultTable(path: string, msg: string, src: string, res: ExecResult): Res {
    match res
    case EvalFailed(reason) => Res(false, [FieldErrorf(path, "Could not evaluate expression: " + reason)])
    case NilResult => Res(true, [])
    case ErrorResult(e) => Res(true, [e])
    case ErrorsResult(es) => Res(true, es)
    case BoolResult(b) =>
      if b then Res(true, [])
      else if msg != "" then Res(false, [FieldErr(path, msg, None, false)])
      else Res(false, [Unsatisfied(path, src)])
    case OtherResult(t, shown) =>
      Res(false, [FieldErrorf(path, "Invalid expression result: " + t + " (expected []error) in " + shown)])
  }

  /** `Validator.Validate` (validate.go:89-93): the errors of validating at the empty path. */
  function Validate(v: Validator, eval: Eval, s: Value): (r: Outcome)
    requires Shrinks(eval)
    ensures r.Returned? <==> Check(v, eval, "", s).Res?
    ensures r.Returned? ==> r.errs == Check(v, eval, "", s).errs
    ensures r.Panicked? ==> r.source == Check(v, eval, "", s).source
  {
    match Check(v, eval, "", s)
    case Res(_, errs) => Returned(errs)
    case Panic(src) => Panicked(src)
  }
}
