/**
 The values the validator walks, as a finite tree standing in for Go
 reflection: nil, pointers, structs with their declared fields and tags,
 slices and arrays, and every other kind as an opaque scalar. A value also
 records what its dynamic type's `Validate` method, if any, returns.
 */
module Values {
  import opened Optional
  import opened Errors

  /**
   The introspection hook of a value's dynamic type (validate.go:58-63):
   none, `IntrospectorV1` returning `err`, or `IntrospectorV2` returning
   `(err, cont)`. Both interfaces name their method `Validate`, so no Go
   type has both and one hook per value is exact.
   */
  datatype Hook =
    | NoHook
    | HookV1(err: Option<Err>)
    | HookV2(err: Option<Err>, cont: bool)

  /** A declared struct field: its identifier, its raw tag, and whether it is embedded. */
  datatype FieldDecl = FieldDecl(name: string, tag: string, anonymous: bool)

  /**
   A value as `reflect.ValueOf` sees it. `Nil` is the invalid value of a
   nil interface. `Scalar` is every kind the engine does not descend into
   (strings, numbers, maps, ...), with the length `len(...)` reports for
   it, if it has one.
   */
  datatype Value =
    | Nil
    | Ptr(hook: Hook, target: Option<Value>)
    | Struct(hook: Hook, typeName: string, fields: seq<Field>)
    | Seq(hook: Hook, elems: seq<Value>)
    | Scalar(hook: Hook, length: Option<nat>)

  datatype Field = Field(decl: FieldDecl, value: Value)

  /** The hook of a value; a nil interface has none. */
  function HookOf(v: Value): Hook {
    if v.Nil? then NoHook else v.hook
  }

  /** The declared fields of a struct type, in order. */
  function Decls(fs: seq<Field>): (ds: seq<FieldDecl>)
    ensures |ds| == |fs| && forall k :: 0 <= k < |fs| ==> ds[k] == fs[k].decl
  {
    if fs == [] then [] else [fs[0].decl] + Decls(fs[1..])
  }

  /** `reflect.Indirect`: one pointer is followed; a nil pointer gives the invalid value. */
  function Indirect(v: Value): (r: Value)
    ensures v.Ptr? && v.target.Some? ==> r == v.target.value
    ensures v.Ptr? && v.target.None? ==> r == Nil
    ensures !v.Ptr? ==> r == v
  {
    match v
    case Ptr(_, t) => t.GetOr(Nil)
    case _ => v
  }

  /**
   The `len` binding offered to expressions (validate.go:261-271): zero for
   nil, the length of a slice, array or measured scalar, and None where the
   source panics.
   */
  function Len(v: Value): (r: Option<nat>)
    ensures v.Nil? ==> r == Some(0)
    ensures v.Seq? ==> r == Some(|v.elems|)
    ensures v.Ptr? || v.Struct? ==> r == None
  {
    match v
    case Nil => Some(0)
    case Seq(_, es) => Some(|es|)
    case Scalar(_, n) => n
    case _ => None
  }

  // ---------------------------------------------------------------------
  // Size, the measure every descent decreases

  function Size(v: Value): nat {
    match v
    case Nil => 1
    case Ptr(_, t) => if t.Some? then 1 + Size(t.value) else 1
    case Struct(_, _, fs) => 1 + FieldsSize(fs)
    case Seq(_, es) => 1 + ElemsSize(es)
    case Scalar(_, _) => 1
  }

  function FieldsSize(fs: seq<Field>): nat {
    if fs == [] then 0 else FieldSize(fs[0]) + FieldsSize(fs[1..])
  }

  function FieldSize(f: Field): nat {
    Size(f.value)
  }

  function ElemsSize(es: seq<Value>): nat {
    if es == [] then 0 else Size(es[0]) + ElemsSize(es[1..])
  }

  lemma {:induction false} FieldsSizeBound(fs: seq<Field>, i: nat)
    requires i < |fs|
    ensures Size(fs[i].value) <= FieldsSize(fs)
  {
    if i > 0 {
      FieldsSizeBound(fs[1..], i - 1);
    }
  }

  lemma {:induction false} ElemsSizeBound(es: seq<Value>, i: nat)
    requires i < |es|
    ensures Size(es[i]) <= ElemsSize(es)
  {
    if i > 0 {
      ElemsSizeBound(es[1..], i - 1);
    }
  }

  /** A field's value is strictly smaller than the struct holding it. */
  lemma FieldSmaller(z: Value, i: nat)
    requires z.Struct? && i < |z.fields|
    ensures Size(z.fields[i].value) < Size(z)
  {
    FieldsSizeBound(z.fields, i);
  }

  /** An element is strictly smaller than the slice holding it. */
  lemma ElemSmaller(z: Value, i: nat)
    requires z.Seq? && i < |z.elems|
    ensures Size(z.elems[i]) < Size(z)
  {
    ElemsSizeBound(z.elems, i);
  }

  /** Following a pointer never makes a value larger. */
  lemma IndirectNotLarger(v: Value)
    ensures Size(Indirect(v)) <= Size(v)
  {
  }
}
