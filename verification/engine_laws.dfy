/**
 What the engine promises: how hooks, shapes, slices, struct fields and
 expression results contribute verdicts and errors. The slice walk and the
 run of an expression are related to separate descriptions of what they
 add up (ElemChecks, CallErrs); the hook, shape and result-table laws are
 the case analysis of validate.go spelled out in the terms a caller reads:
 verdicts, `Fields` and `Messages`.
 */
module EngineLaws {
  import opened Optional
  import opened Errors
  import opened Values
  import opened Validators
  import Options
  import opened Types
  import opened Engine
  import Strconv

  // ---------------------------------------------------------------------
  // Paths

  /** Nesting paths: a path built in two steps is the path built from the joined suffix. */
  lemma KeyPathNesting(a: string, b: string, c: string)
    requires b != ""
    ensures KeyPath(KeyPath(a, b), c) == KeyPath(a, KeyPath(b, c))
  {
    if a != "" {
      assert (a + "." + b) + "." + c == a + "." + (b + "." + c);
    }
  }

  /** The index between the brackets of an element path reads back as the index. */
  lemma IndexPathReadsBack(p: string, i: nat)
    ensures var r := IndexPath(p, i); Strconv.ParseDecimal(r[|p| + 1..|r| - 1]) == Some(i)
  {
    var r := IndexPath(p, i);
    assert r[|p| + 1..|r| - 1] == Strconv.Itoa(i);
    Strconv.ParseItoa(i);
  }

  /** Distinct elements of a slice get distinct paths. */
  lemma IndexPathInjective(p: string, i: nat, j: nat)
    requires IndexPath(p, i) == IndexPath(p, j)
    ensures i == j
  {
    IndexPathReadsBack(p, i);
    IndexPathReadsBack(p, j);
  }

  /** The first non-empty string wins. */
  lemma CoalesceFirst(ts: seq<string>, k: nat)
    requires k < |ts| && ts[k] != "" && forall j :: 0 <= j < k ==> ts[j] == ""
    ensures Coalesce(ts) == ts[k]
  {
    if k > 0 {
      CoalesceFirst(ts[1..], k - 1);
    }
  }

  // ---------------------------------------------------------------------
  // fieldErrors

  /**
   Normalising a hook's error: an aggregate is spliced element for element,
   a `*FieldError` with no aggregate in its chain is kept as it is, and any
   other error becomes one field error at the path (or `<entity>` at the
   root) carrying the error's text.
   */
  lemma FieldErrorsCases(p: string, err: Err)
    ensures err.Aggregate? ==> FieldErrors(p, err) == err.elems
    ensures err.FieldErr? && err.boxed && AsAggregate(err).None? ==> FieldErrors(p, err) == [err]
    ensures err.FieldErr? && err.boxed && err.cause.None? ==> FieldErrors(p, err) == [err]
    ensures err.Plain? ==>
              && Fields(FieldErrors(p, err)) == [if p != "" then p else "<entity>"]
              && Messages(FieldErrors(p, err)) == [err.text]
  {
  }

  /**
   An `errors.Join` of two field errors is not an `Errors`: the walk of its
   chain meets no aggregate, so only the first field error is kept and the
   second is dropped.
   */
  lemma JoinedKeepsFirstFieldError(p: string, t: string, a: Err, b: Err)
    requires IsFieldPointer(a) && IsFieldPointer(b) && a.cause.None? && b.cause.None?
    ensures FieldErrors(p, Joined(t, [a, b])) == [a]
  {
    var j := Joined(t, [a, b]);
    assert Children(a) == [] && Children(b) == [];
    assert Chains([b]) == [b] by {
      assert [b][1..] == [];
    }
    assert Chains([a, b]) == [a, b] by {
      assert [a, b][1..] == [b];
    }
    var c := Chain(j);
    assert c == [j, a, b];
    FirstWhereIs(c, IsAggregate, 3);
    FirstWhereIs(c, IsFieldPointer, 1);
  }

  /** A hook's error adds no error only when the first aggregate in its chain is empty. */
  lemma FieldErrorsEmpty(p: string, err: Err)
    ensures FieldErrors(p, err) == [] <==> AsAggregate(err) == Some([])
  {
  }

  // ---------------------------------------------------------------------
  // Hooks

  /**
   A V1 hook decides alone: the value's contents are never looked at, and
   the verdict is false exactly when the hook returned an error.
   */
  lemma HookV1Decides(v: Validator, eval: Eval, p: string, s: Value, s': Value)
    requires Shrinks(eval) && HookOf(s).HookV1? && HookOf(s') == HookOf(s)
    ensures Check(v, eval, p, s) == Check(v, eval, p, s')
    ensures Check(v, eval, p, s).Res?
    ensures Check(v, eval, p, s).valid <==> HookOf(s).err.None?
    ensures Check(v, eval, p, s).errs == HookErrs(p, HookOf(s).err)
  {
  }

  /**
   A V2 hook's errors come first. If it asks to continue, the verdict is
   exactly the structural one; otherwise the verdict is true whatever the
   hook reported.
   */
  lemma HookV2Laws(v: Validator, eval: Eval, p: string, s: Value)
    requires Shrinks(eval) && HookOf(s).HookV2?
    ensures !HookOf(s).cont ==> Check(v, eval, p, s) == Res(true, HookErrs(p, HookOf(s).err))
    ensures HookOf(s).cont ==>
              var r, z := Check(v, eval, p, s), Shape(v, eval, p, Indirect(s));
              && (r.Res? <==> z.Res?)
              && (z.Res? ==> r.valid == z.valid && r.errs == HookErrs(p, HookOf(s).err) + z.errs)
  {
  }

  /** Without a hook, a value is validated by its shape, through at most one pointer. */
  lemma NoHookShape(v: Validator, eval: Eval, p: string, s: Value)
    requires Shrinks(eval) && HookOf(s).NoHook?
    ensures Check(v, eval, p, s) == Shape(v, eval, p, Indirect(s))
  {
  }

  // ---------------------------------------------------------------------
  // Shapes

  /**
   Nil values and nil pointers are valid with no errors; every kind other
   than struct, slice or array adds exactly `ErrUnsupportedType` and is
   invalid, a pointer to a pointer included.
   */
  lemma ShapeCases(v: Validator, eval: Eval, p: string, h: Hook, n: Option<nat>, t: Option<Value>)
    requires Shrinks(eval)
    ensures Check(v, eval, p, Nil) == Res(true, [])
    ensures Check(v, eval, p, Ptr(NoHook, None)) == Res(true, [])
    ensures Shape(v, eval, p, Scalar(h, n)) == Res(false, [ErrUnsupportedType])
    ensures Shape(v, eval, p, Ptr(h, t)) == Res(false, [ErrUnsupportedType])
    ensures Check(v, eval, p, Ptr(NoHook, Some(Scalar(h, n)))) == Res(false, [ErrUnsupportedType])
  {
  }

  // ---------------------------------------------------------------------
  // Slices

  /** The checks of the elements from `i` on, each at its own indexed path. */
  ghost function ElemChecks(v: Validator, eval: Eval, p: string, z: Value, i: nat): (cs: seq<Res>)
    requires Shrinks(eval) && z.Seq? && i <= |z.elems|
    ensures |cs| == |z.elems| - i
  {
    seq(|z.elems| - i, k requires 0 <= k < |z.elems| - i => Check(v, eval, IndexPath(p, i + k), z.elems[i + k]))
  }

  /** The errors of a list of results, concatenated in order. */
  function AllErrs(cs: seq<Res>): seq<Err> {
    if cs == [] then [] else (if cs[0].Res? then cs[0].errs else []) + AllErrs(cs[1..])
  }

  /**
   A slice is walked in index order with no short circuit: it panics only if
   an element does, is valid exactly when every element is, and reports
   every element's errors in index order.
   */
  lemma ElemsSpec(v: Validator, eval: Eval, p: string, z: Value, i: nat)
    requires Shrinks(eval) && z.Seq? && i <= |z.elems|
    ensures var r, cs := Elems(v, eval, p, z, i), ElemChecks(v, eval, p, z, i);
      && (r.Res? <==> forall k :: 0 <= k < |cs| ==> cs[k].Res?)
      && (r.Res? ==> (r.valid <==> forall k :: 0 <= k < |cs| ==> cs[k].valid))
      && (r.Res? ==> r.errs == AllErrs(cs))
  {
    ElemsAreAppendAll(v, eval, p, z, i);
    AppendAllSpec(ElemChecks(v, eval, p, z, i));
  }

  /** Results combined in order by `Append`, as the slice walk combines its elements. */
  function AppendAll(cs: seq<Res>): Res {
    if cs == [] then Res(true, []) else Append(cs[0], AppendAll(cs[1..]))
  }

  /** Combining results panics only if one does, is valid when all are, and keeps every result's errors in order. */
  lemma {:induction false} AppendAllSpec(cs: seq<Res>)
    ensures var r := AppendAll(cs);
      && (r.Res? <==> forall k :: 0 <= k < |cs| ==> cs[k].Res?)
      && (r.Res? ==> (r.valid <==> forall k :: 0 <= k < |cs| ==> cs[k].valid))
      && (r.Res? ==> r.errs == AllErrs(cs))
  {
    if cs != [] {
      AppendAllSpec(cs[1..]);
      assert forall k :: 0 < k < |cs| ==> cs[k] == cs[1..][k - 1];
    }
  }

  /** The slice walk from `i` on is its element checks combined in order. */
  lemma {:induction false} ElemsAreAppendAll(v: Validator, eval: Eval, p: string, z: Value, i: nat)
    requires Shrinks(eval) && z.Seq? && i <= |z.elems|
    ensures Elems(v, eval, p, z, i) == AppendAll(ElemChecks(v, eval, p, z, i))
    decreases |z.elems| - i
  {
    if i < |z.elems| {
      ElemsAreAppendAll(v, eval, p, z, i + 1);
      ElemChecksCons(v, eval, p, z, i);
    }
  }

  /** The checks from `i` on are the check of element `i`, then the checks from `i + 1` on. */
  lemma ElemChecksCons(v: Validator, eval: Eval, p: string, z: Value, i: nat)
    requires Shrinks(eval) && z.Seq? && i < |z.elems|
    ensures var cs, c := ElemChecks(v, eval, p, z, i), Check(v, eval, IndexPath(p, i), z.elems[i]);
      && cs[0] == c && cs[1..] == ElemChecks(v, eval, p, z, i + 1)
      && AllErrs(cs) == (if c.Res? then c.errs else []) + AllErrs(ElemChecks(v, eval, p, z, i + 1))
  {
    var cs, rest := ElemChecks(v, eval, p, z, i), ElemChecks(v, eval, p, z, i + 1);
    assert forall k :: 0 <= k < |rest| ==> cs[k + 1] == rest[k];
    assert cs[1..] == rest;
  }

  // ---------------------------------------------------------------------
  // Expression results

  /**
   The result table: true and nil add nothing; false adds one error at the
   field's path carrying the message tag, or the constraint's source when
   there is none; an evaluation failure or a result of any other type adds
   one error at the path and is invalid; errors returned by the expression
   are added as they are and leave the verdict true.
   */
  lemma ResultTableLaws(path: string, msg: string, src: string, res: ExecResult)
    ensures var r := ResultTable(path, msg, src, res);
      && (r.valid <==> !(res.EvalFailed? || res.OtherResult? || res == BoolResult(false)))
      && (res.NilResult? || res == BoolResult(true) ==> r.errs == [])
      && (res == BoolResult(false) ==>
            Fields(r.errs) == [path] && Messages(r.errs) == [if msg != "" then msg else "Constraint not satisfied: " + src])
      && (res.EvalFailed? ==>
            Fields(r.errs) == [path] && Messages(r.errs) == ["Could not evaluate expression: " + res.reason])
      && (res.OtherResult? ==> Fields(r.errs) == [path] && |r.errs| == 1)
      && (res.ErrorResult? ==> r.errs == [res.err])
      && (res.ErrorsResult? ==> r.errs == res.errs)
  {
  }

  /** The result an expression's run reaches, following the verdicts of its `check` calls; None if one panics. */
  ghost function Final(v: Validator, eval: Eval, path: string, run: Run, bound: nat): Option<ExecResult>
    requires Shrinks(eval) && ArgsBelow(run, bound)
  {
    match run
    case Done(res) => Some(res)
    case Panics => None
    case CallCheck(arg, t, f) =>
      var r := Check(v, eval, path, arg);
      if r.Panic? then None else Final(v, eval, path, if r.valid then t else f, bound)
  }

  /** The errors the `check` calls of a run add, in the order the run makes them, along the verdicts they return. */
  ghost function CallErrs(v: Validator, eval: Eval, path: string, run: Run, bound: nat): seq<Err>
    requires Shrinks(eval) && ArgsBelow(run, bound)
  {
    match run
    case Done(_) => []
    case Panics => []
    case CallCheck(arg, t, f) =>
      var r := Check(v, eval, path, arg);
      if r.Panic? then [] else r.errs + CallErrs(v, eval, path, if r.valid then t else f, bound)
  }

  /**
   A field's verdict comes from the result its expression reaches, never
   from the verdicts of its `check` calls; the errors those calls add come
   first, and the field's own errors close the list.
   */
  lemma {:induction false} InterpretFinal(v: Validator, eval: Eval, path: string, msg: string, src: string, run: Run, bound: nat)
    requires Shrinks(eval) && ArgsBelow(run, bound)
    ensures var r, fin := Interpret(v, eval, path, msg, src, run, bound), Final(v, eval, path, run, bound);
      && (r.Res? <==> fin.Some?)
      && (r.Res? ==>
            var own := ResultTable(path, msg, src, fin.value);
            r.valid == own.valid && r.errs == CallErrs(v, eval, path, run, bound) + own.errs)
  {
    match run
    case Done(res) =>
    case Panics =>
    case CallCheck(arg, t, f) =>
      var c := Check(v, eval, path, arg);
      if c.Res? {
        var next := if c.valid then t else f;
        InterpretFinal(v, eval, path, msg, src, next, bound);
        var fin := Final(v, eval, path, next, bound);
        if fin.Some? {
          var own := ResultTable(path, msg, src, fin.value);
          assert c.errs + (CallErrs(v, eval, path, next, bound) + own.errs)
              == (c.errs + CallErrs(v, eval, path, next, bound)) + own.errs;
        }
      }
  }

  /**
   `check(self)` on a field whose value fails its own validation, in an
   expression that returns the call's verdict: the nested errors, then the
   field's own.
   */
  lemma NestedCheckOrder(v: Validator, eval: Eval, path: string, msg: string, src: string, arg: Value, bound: nat)
    requires Shrinks(eval) && ArgsBelow(CallCheck(arg, Done(BoolResult(true)), Done(BoolResult(false))), bound)
    requires Check(v, eval, path, arg).Res? && !Check(v, eval, path, arg).valid
    ensures var r := Interpret(v, eval, path, msg, src, CallCheck(arg, Done(BoolResult(true)), Done(BoolResult(false))), bound);
      && r == Res(false, Check(v, eval, path, arg).errs + ResultTable(path, msg, src, BoolResult(false)).errs)
      && Fields(r.errs) == Fields(Check(v, eval, path, arg).errs) + [path]
  {
    var c := Check(v, eval, path, arg);
    ProjectionsAppend(c.errs, ResultTable(path, msg, src, BoolResult(false)).errs);
  }
}
