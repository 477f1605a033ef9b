/**
 What the struct walk promises: which fields it skips, how embedded fields
 and `check` sources are handled, that it agrees with the field
 descriptors of v1/type.go, and that an invalid verdict is always
 accompanied by an error.
 */
module StructLaws {
  import opened Optional
  import opened Errors
  import opened Values
  import opened Validators
  import Options
  import opened Tag
  import opened Types
  import opened Engine
  import opened EngineLaws

  // ---------------------------------------------------------------------
  // One field

  /**
   A field whose trimmed source is `-`, or is empty on a field that is not
   embedded, contributes nothing; so does any field that is not selected.
   */
  lemma SkippedFieldsContributeNothing(v: Validator, eval: Eval, p: string, z: Value, i: nat)
    requires Shrinks(eval) && z.Struct? && i < |z.fields|
    ensures Source(z.fields[i].decl, v) == "-" ==> FieldStep(v, eval, p, z, i) == Res(true, [])
    ensures Source(z.fields[i].decl, v) == "" && !z.fields[i].decl.anonymous ==> FieldStep(v, eval, p, z, i) == Res(true, [])
    ensures !Selected(z.fields[i].decl, v) <==>
              (Source(z.fields[i].decl, v) == "-" || (Source(z.fields[i].decl, v) == "" && !z.fields[i].decl.anonymous))
  {
  }

  /**
   An embedded field is validated by shape at the struct's own path, with no
   hook dispatch; its errors are kept and its verdict is dropped.
   */
  lemma EmbeddedFieldTransparent(v: Validator, eval: Eval, p: string, z: Value, i: nat)
    requires Shrinks(eval) && z.Struct? && i < |z.fields|
    requires z.fields[i].decl.anonymous && Selected(z.fields[i].decl, v)
    ensures var r, inner := FieldStep(v, eval, p, z, i), Shape(v, eval, p, z.fields[i].value);
      && (r.Res? <==> inner.Res?)
      && (inner.Res? ==> r == Res(true, inner.errs))
  {
  }

  /** The source `check` validates the field's value, hook first, at the field's path. */
  lemma CheckSourceRecurses(v: Validator, eval: Eval, p: string, z: Value, i: nat)
    requires Shrinks(eval) && z.Struct? && i < |z.fields|
    requires !z.fields[i].decl.anonymous && Source(z.fields[i].decl, v) == "check"
    ensures FieldStep(v, eval, p, z, i) == Check(v, eval, KeyPath(p, DisplayName(z.fields[i].decl, v)), z.fields[i].value)
  {
  }

  /** A check tag written `check ` is the source `check`: the field is validated, hook first, at its path. */
  lemma PaddedCheckRecurses(v: Validator, eval: Eval, p: string, z: Value, i: nat)
    requires Shrinks(eval) && z.Struct? && i < |z.fields| && !z.fields[i].decl.anonymous
    requires GetTag(z.fields[i].decl.tag, v.checkTag) == "check "
    ensures Source(z.fields[i].decl, v) == "check"
    ensures FieldStep(v, eval, p, z, i) == Check(v, eval, KeyPath(p, DisplayName(z.fields[i].decl, v)), z.fields[i].value)
  {
    assert "check " == "" + "check" + " ";
    SourceIsTrimmed(z.fields[i].decl, v, "", "check", " ");
  }

  // ---------------------------------------------------------------------
  // The walk agrees with the descriptors

  /** What one descriptor asks the engine to do for the field it describes. */
  function DescribedStep(v: Validator, eval: Eval, p: string, z: Value, f: ValidatedField): Res
    requires Shrinks(eval) && z.Struct? && f.index < |z.fields|
  {
    var x := z.fields[f.index].value;
    FieldSmaller(z, f.index);
    if f.field.anonymous then
      var r := Shape(v, eval, p, x);
      if r.Panic? then r else Res(true, r.errs)
    else if f.expr == "check" then Check(v, eval, KeyPath(p, f.name), x)
    else
      match eval(f.expr, x, z)
      case CompileError => Panic(f.expr)
      case Program(run) => Interpret(v, eval, KeyPath(p, f.name), f.message, f.expr, run, Size(z))
  }

  /** The engine driven by a list of descriptors, in order. */
  function DescribedWalk(v: Validator, eval: Eval, p: string, z: Value, fs: seq<ValidatedField>): Res
    requires Shrinks(eval) && z.Struct?
    requires forall k :: 0 <= k < |fs| ==> fs[k].index < |z.fields|
  {
    if fs == [] then Res(true, [])
    else Append(DescribedStep(v, eval, p, z, fs[0]), DescribedWalk(v, eval, p, z, fs[1..]))
  }

  /** A selected field's step is the step its descriptor asks for. */
  lemma FieldStepDescribed(v: Validator, eval: Eval, p: string, z: Value, i: nat)
    requires Shrinks(eval) && z.Struct? && i < |z.fields| && Selected(z.fields[i].decl, v)
    ensures FieldStep(v, eval, p, z, i) == DescribedStep(v, eval, p, z, Descriptor(Decls(z.fields), v, i))
  {
  }

  lemma AppendUnit(r: Res)
    ensures Append(Res(true, []), r) == r
  {
    if r.Res? {
      assert [] + r.errs == r.errs;
    }
  }

  /** From field `i` on, the walk is the descriptor walk over the fields selected from `i` on. */
  lemma {:induction false} StructFromDescribed(v: Validator, eval: Eval, p: string, z: Value, i: nat)
    requires Shrinks(eval) && z.Struct? && i <= |z.fields|
    ensures var ds := Decls(z.fields);
      StructFrom(v, eval, p, z, i) == DescribedWalk(v, eval, p, z, Descriptors(ds, v, Kept(ds, Keep(v), i)))
    decreases |z.fields| - i
  {
    var ds := Decls(z.fields);
    KeptSound(ds, Keep(v), i);
    if i < |z.fields| {
      StructFromDescribed(v, eval, p, z, i + 1);
      KeptSound(ds, Keep(v), i + 1);
      var rest := Kept(ds, Keep(v), i + 1);
      if Selected(ds[i], v) {
        assert Keep(v)(ds[i]);
        assert Kept(ds, Keep(v), i) == [i] + rest;
        DescriptorsCons(ds, v, i, rest);
        FieldStepDescribed(v, eval, p, z, i);
      } else {
        assert !Keep(v)(ds[i]);
        assert Kept(ds, Keep(v), i) == rest;
        AppendUnit(StructFrom(v, eval, p, z, i + 1));
      }
    }
  }

  /**
   `validateStruct` recomputes every field's tags itself, yet does exactly
   what the descriptor `newType` builds for the struct's type asks for.
   */
  lemma StructMatchesNewType(v: Validator, eval: Eval, p: string, z: Value)
    requires Shrinks(eval) && z.Struct?
    ensures var t := NewType(z.typeName, Decls(z.fields), v);
      Shape(v, eval, p, z) == DescribedWalk(v, eval, p, z, t.fields)
  {
    StructFromDescribed(v, eval, p, z, 0);
  }

  /** A struct none of whose fields is selected is valid and adds no error. */
  lemma NothingSelectedIsValid(v: Validator, eval: Eval, p: string, z: Value)
    requires Shrinks(eval) && z.Struct?
    requires forall k :: 0 <= k < |z.fields| ==> !Selected(z.fields[k].decl, v)
    ensures Shape(v, eval, p, z) == Res(true, [])
  {
    StructMatchesNewType(v, eval, p, z);
  }

  // ---------------------------------------------------------------------
  // An invalid verdict always comes with an error

  /** An invalid verdict comes with at least one error. */
  predicate Reports(r: Res) {
    r.Res? && !r.valid ==> |r.errs| > 0
  }

  /** Joining two steps that report gives a step that reports. */
  lemma AppendReports(a: Res, b: Res)
    requires Reports(a) && Reports(b)
    ensures Reports(Append(a, b))
  {
  }

  /** A V1 hook that returns an error reports at least one, i.e. not an empty aggregate. */
  predicate HookReports(h: Hook) {
    h.HookV1? && h.err.Some? ==> AsAggregate(h.err.value) != Some([])
  }

  /** Every V1 hook in the value, through pointers, fields and elements, reports. */
  predicate HooksReport(s: Value) {
    && HookReports(HookOf(s))
    && match s
       case Ptr(_, t) => t.Some? ==> HooksReport(t.value)
       case Struct(_, _, fs) => forall k :: 0 <= k < |fs| ==> HooksReport(fs[k].value)
       case Seq(_, es) => forall k :: 0 <= k < |es| ==> HooksReport(es[k])
       case _ => true
  }

  /**
   Unless a V1 hook returns an empty `Errors`, an invalid verdict always
   comes with at least one error: every false the engine produces is
   produced together with an error.
   */
  lemma {:induction false} InvalidReports(v: Validator, eval: Eval, p: string, s: Value)
    requires Shrinks(eval) && HooksReport(s)
    ensures Reports(Check(v, eval, p, s))
    decreases Size(s), 4
  {
    IndirectNotLarger(s);
    match HookOf(s)
    case HookV2(err, cont) =>
      if cont {
        ShapeReports(v, eval, p, Indirect(s));
      }
    case HookV1(err) =>
      if err.Some? {
        FieldErrorsEmpty(p, err.value);
      }
    case NoHook =>
      ShapeReports(v, eval, p, Indirect(s));
  }

  lemma {:induction false} ShapeReports(v: Validator, eval: Eval, p: string, z: Value)
    requires Shrinks(eval) && HooksReport(z)
    ensures Reports(Shape(v, eval, p, z))
    decreases Size(z), 3
  {
    match z
    case Struct(_, _, _) => StructReports(v, eval, p, z, 0);
    case Seq(_, _) => ElemsReports(v, eval, p, z, 0);
    case _ =>
  }

  lemma {:induction false} StructReports(v: Validator, eval: Eval, p: string, z: Value, i: nat)
    requires Shrinks(eval) && z.Struct? && i <= |z.fields| && HooksReport(z)
    ensures Reports(StructFrom(v, eval, p, z, i))
    decreases Size(z), 2, |z.fields| - i
  {
    if i < |z.fields| {
      FieldReports(v, eval, p, z, i);
      StructReports(v, eval, p, z, i + 1);
      AppendReports(FieldStep(v, eval, p, z, i), StructFrom(v, eval, p, z, i + 1));
    }
  }

  lemma {:induction false} ElemsReports(v: Validator, eval: Eval, p: string, z: Value, i: nat)
    requires Shrinks(eval) && z.Seq? && i <= |z.elems| && HooksReport(z)
    ensures Reports(Elems(v, eval, p, z, i))
    decreases Size(z), 2, |z.elems| - i
  {
    if i < |z.elems| {
      ElemSmaller(z, i);
      InvalidReports(v, eval, IndexPath(p, i), z.elems[i]);
      ElemsReports(v, eval, p, z, i + 1);
      AppendReports(Check(v, eval, IndexPath(p, i), z.elems[i]), Elems(v, eval, p, z, i + 1));
    }
  }

  lemma {:induction false} FieldReports(v: Validator, eval: Eval, p: string, z: Value, i: nat)
    requires Shrinks(eval) && z.Struct? && i < |z.fields| && HooksReport(z)
    ensures Reports(FieldStep(v, eval, p, z, i))
    decreases Size(z), 1
  {
    var f := z.fields[i];
    FieldSmaller(z, i);
    if Selected(f.decl, v) && !f.decl.anonymous {
      var path := FieldPath(p, f.decl, v);
      var src := Source(f.decl, v);
      if src == "check" {
        InvalidReports(v, eval, path, f.value);
      } else {
        match eval(src, f.value, z)
        case CompileError =>
        case Program(run) => InterpretReports(v, eval, path, Message(f.decl, v), src, run, Size(z));
      }
    }
  }

  lemma {:induction false} InterpretReports(v: Validator, eval: Eval, path: string, msg: string, src: string, run: Run, bound: nat)
    requires Shrinks(eval) && ArgsBelow(run, bound)
    ensures Reports(Interpret(v, eval, path, msg, src, run, bound))
  {
    match run
    case Done(res) =>
    case Panics =>
    case CallCheck(arg, t, f) =>
      var c := Check(v, eval, path, arg);
      if c.Res? {
        InterpretReports(v, eval, path, msg, src, if c.valid then t else f, bound);
      }
  }

  /** With a V1 hook returning an empty `Errors`, a value is invalid yet reports nothing. */
  lemma EmptyAggregateIsSilent(v: Validator, eval: Eval, p: string, s: Value)
    requires Shrinks(eval) && HookOf(s) == HookV1(Some(Aggregate([])))
    ensures Check(v, eval, p, s) == Res(false, [])
  {
  }

  // ---------------------------------------------------------------------
  // The base path

  /** The base path a validator is configured with changes nothing that `Validate` returns. */
  lemma ValidateIgnoresBasePath(c: Options.Config, path: string, eval: Eval, s: Value)
    requires Shrinks(eval)
    ensures Validate(NewWithConfig(c.(basePath := path)), eval, s) == Validate(NewWithConfig(c), eval, s)
  {
    BasePathIgnored(c, path);
  }
}
