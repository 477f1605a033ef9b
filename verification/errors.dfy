/**
 The error model (v1/errors.go): a field-scoped `FieldError`, the `Errors`
 aggregate with its `Fields`/`Messages` projections and text, and the
 parts of Go's error chain (`Unwrap`, `errors.As`, `errors.Is`) the engine
 relies on when it normalises the errors that hooks return.
 */
module Errors {
  import opened Optional
  import opened Strconv

  /**
   An error value. `FieldErr` is `FieldError`, held by value (`boxed` false)
   or through a `*FieldError` pointer (`boxed` true): both project the same
   way, but only the pointer form is what `errors.As` looks for. `Aggregate`
   is `Errors`. `Plain` is an error with no cause (`errors.New`, or
   `fmt.Errorf` without `%w`); `Wrapped` is one whose `Unwrap` gives `inner`.
   `Joined` is an error whose `Unwrap() []error` gives `parts` but which is
   not an `Errors` (`errors.Join`, or `fmt.Errorf` with several `%w`).
   */
  datatype Err =
    | FieldErr(field: string, message: string, cause: Option<Err>, boxed: bool)
    | Aggregate(elems: seq<Err>)
    | Plain(text: string)
    | Wrapped(text: string, inner: Err)
    | Joined(text: string, parts: seq<Err>)

  /** `newFieldError`: the error's own text becomes the message, and the error the cause. */
  function NewFieldError(f: string, err: Err): (r: Err)
    ensures r.FieldErr? && r.boxed
    ensures r.field == f && r.message == Text(err)
    ensures Unwrap(r) == Some(err)
  {
    FieldErr(f, Text(err), Some(err), true)
  }

  /** `FieldErrorf`, with the formatted message given: a `*FieldError` that has no cause. */
  function FieldErrorf(f: string, msg: string): (r: Err)
    ensures r.FieldErr? && r.boxed
    ensures r.field == f && r.message == msg
    ensures Unwrap(r) == None
  {
    FieldErr(f, msg, None, true)
  }

  /** The single-error `Unwrap`: a field error's cause, or a wrapped error's inner one. */
  function Unwrap(e: Err): Option<Err> {
    match e
    case FieldErr(_, _, cause, _) => cause
    case Wrapped(_, inner) => Some(inner)
    case _ => None
  }

  /** `Errors.Unwrap`: an aggregate unwraps to its own elements, in order. */
  function UnwrapAll(e: Err): (r: seq<Err>)
    requires e.Aggregate?
    ensures |r| == |e.elems| && forall k :: 0 <= k < |r| ==> r[k] == e.elems[k]
  {
    e.elems
  }

  /** The errors one `Unwrap` step exposes, whichever form of `Unwrap` the error has. */
  function Children(e: Err): seq<Err> {
    if e.Aggregate? then UnwrapAll(e) else if e.Joined? then e.parts else Unwrap(e).ToSeq()
  }

  /** `Error()` of each kind of error. */
  function Text(e: Err): string {
    match e
    case FieldErr(f, m, _, _) => f + ": " + m
    case Aggregate(es) => Itoa(|es|) + " field errors" + Lines(es)
    case Plain(t) => t
    case Wrapped(t, _) => t
    case Joined(t, _) => t
  }

  /** The list part of `Errors.Error()`: one `"\n  - "` line per element. */
  function Lines(es: seq<Err>): string {
    if es == [] then [] else "\n  - " + Text(es[0]) + Lines(es[1..])
  }

  /** The count wording of `Errors.MarshalJSON`: singular only for exactly one error. */
  function Summary(n: nat): (s: string)
    ensures |s| > |Itoa(n)| && s[..|Itoa(n)|] == Itoa(n)
    ensures s[|s| - 1] == 's' <==> n != 1
  {
    Itoa(n) + " field " + (if n == 1 then "error" else "errors")
  }

  // ---------------------------------------------------------------------
  // Projections

  /** `Errors.Fields()`: the path of every field error, in order; other errors are skipped. */
  function Fields(es: seq<Err>): (r: seq<string>)
    ensures |r| <= |es|
  {
    if es == [] then []
    else if es[0].FieldErr? then [es[0].field] + Fields(es[1..])
    else Fields(es[1..])
  }

  /** `Errors.Messages()`: the message of every field error, in order. */
  function Messages(es: seq<Err>): (r: seq<string>)
    ensures |r| <= |es|
  {
    if es == [] then []
    else if es[0].FieldErr? then [es[0].message] + Messages(es[1..])
    else Messages(es[1..])
  }

  /** The field errors of a list, in order. */
  function FieldErrs(es: seq<Err>): (r: seq<Err>)
    ensures forall e :: e in r <==> e in es && e.FieldErr?
  {
    if es == [] then []
    else if es[0].FieldErr? then [es[0]] + FieldErrs(es[1..])
    else FieldErrs(es[1..])
  }

  /**
   `Fields()` and `Messages()` walk the same elements: both have one entry
   per field error, and their k-th entries are the path and message of the
   same k-th field error.
   */
  lemma {:induction false} FieldsMessagesPaired(es: seq<Err>)
    ensures |Fields(es)| == |Messages(es)| == |FieldErrs(es)|
    ensures forall k :: 0 <= k < |FieldErrs(es)| ==>
              Fields(es)[k] == FieldErrs(es)[k].field && Messages(es)[k] == FieldErrs(es)[k].message
  {
    if es != [] {
      FieldsMessagesPaired(es[1..]);
    }
  }

  /** The projections distribute over concatenation. */
  lemma {:induction false} ProjectionsAppend(a: seq<Err>, b: seq<Err>)
    ensures Fields(a + b) == Fields(a) + Fields(b)
    ensures Messages(a + b) == Messages(a) + Messages(b)
    ensures Lines(a + b) == Lines(a) + Lines(b)
  {
    if a == [] {
      assert a + b == b;
    } else {
      assert (a + b)[1..] == a[1..] + b;
      ProjectionsAppend(a[1..], b);
    }
  }

  /** The count at the head of `Errors.Error()` reads back as the number of elements. */
  lemma ErrorTextCount(es: seq<Err>)
    ensures var s := Text(Aggregate(es));
      |s| >= |Itoa(|es|)| && ParseDecimal(s[..|Itoa(|es|)|]) == Some(|es|)
  {
    var n := Itoa(|es|);
    assert Text(Aggregate(es))[..|n|] == n;
    ParseItoa(|es|);
  }

  /** The JSON count reads back as the number of elements. */
  lemma SummaryCount(n: nat)
    ensures ParseDecimal(Summary(n)[..|Itoa(n)|]) == Some(n)
  {
    ParseItoa(n);
  }

  // ---------------------------------------------------------------------
  // Error chains

  function ChainSize(e: Err): nat {
    match e
    case FieldErr(_, _, cause, _) => if cause.Some? then 1 + ChainSize(cause.value) else 1
    case Aggregate(es) => 1 + ChainsSize(es)
    case Plain(_) => 1
    case Wrapped(_, inner) => 1 + ChainSize(inner)
    case Joined(_, ps) => 1 + ChainsSize(ps)
  }

  function ChainsSize(es: seq<Err>): nat {
    if es == [] then 0 else ChainSize(es[0]) + ChainsSize(es[1..])
  }

  lemma ChildrenSmaller(e: Err)
    ensures ChainsSize(Children(e)) < ChainSize(e)
  {
    match e
    case FieldErr(_, _, cause, _) =>
      if cause.Some? {
        assert ChainsSize([cause.value]) == ChainSize(cause.value);
      }
    case Aggregate(es) =>
    case Plain(_) =>
    case Wrapped(_, inner) =>
      assert ChainsSize([inner]) == ChainSize(inner);
    case Joined(_, _) =>
  }

  /** The position of the first error in `xs` satisfying `p`, or `|xs|` when none does. */
  function FirstWhere(xs: seq<Err>, p: Err -> bool): (k: nat)
    ensures k <= |xs|
    ensures forall j :: 0 <= j < k ==> !p(xs[j])
    ensures k < |xs| ==> p(xs[k])
  {
    if xs == [] then 0 else if p(xs[0]) then 0 else 1 + FirstWhere(xs[1..], p)
  }

  /** The first error in `xs` satisfying `p`, if any. */
  function FirstIn(xs: seq<Err>, p: Err -> bool): Option<Err> {
    var k := FirstWhere(xs, p);
    if k < |xs| then Some(xs[k]) else None
  }

  /** Any position meeting the two conditions of the first match is the first match. */
  lemma FirstWhereIs(xs: seq<Err>, p: Err -> bool, k: nat)
    requires k <= |xs| && forall j :: 0 <= j < k ==> !p(xs[j])
    requires k < |xs| ==> p(xs[k])
    ensures FirstWhere(xs, p) == k
  {
  }

  /** The first match in `a + b` is the first in `a`, else the first in `b`. */
  lemma FirstInAppend(a: seq<Err>, b: seq<Err>, p: Err -> bool)
    ensures FirstIn(a + b, p) == if FirstIn(a, p).Some? then FirstIn(a, p) else FirstIn(b, p)
  {
    var ka := FirstWhere(a, p);
    if ka < |a| {
      FirstWhereIs(a + b, p, ka);
    } else {
      var kb := FirstWhere(b, p);
      assert forall j :: 0 <= j < |a| ==> (a + b)[j] == a[j];
      assert forall j :: |a| <= j < |a| + kb ==> (a + b)[j] == b[j - |a|];
      FirstWhereIs(a + b, p, |a| + kb);
    }
  }

  /**
   Every error under `es`, in the order `errors.As` visits them: each error,
   then everything its `Unwrap` exposes, then the errors after it.
   */
  function Chains(es: seq<Err>): seq<Err>
    decreases ChainsSize(es)
  {
    if es == [] then []
    else
      ChildrenSmaller(es[0]);
      [es[0]] + Chains(Children(es[0])) + Chains(es[1..])
  }

  /** The chain of one error: the error itself, then the chains it unwraps to. */
  function Chain(e: Err): (c: seq<Err>)
    ensures |c| > 0 && c[0] == e
  {
    [e] + Chains(Children(e))
  }

  lemma ChainOne(e: Err)
    ensures Chains([e]) == Chain(e)
  {
    assert [e][1..] == [];
  }

  /**
   The search with its early exits finds what a scan of the flattened
   chains finds: the first error satisfying `p`, or nothing when none does.
   */
  lemma {:induction false} FindFirstChains(es: seq<Err>, p: Err -> bool)
    ensures FindFirst(es, p) == FirstIn(Chains(es), p)
    decreases ChainsSize(es)
  {
    if es != [] {
      var a, b := Chains(Children(es[0])), Chains(es[1..]);
      assert Chains(es) == [es[0]] + (a + b);
      FirstInAppend([es[0]], a + b, p);
      assert FirstWhere([es[0]], p) == (if p(es[0]) then 0 else 1);
      if !p(es[0]) {
        ChildrenSmaller(es[0]);
        FindFirstChains(Children(es[0]), p);
        FindFirstChains(es[1..], p);
        FirstInAppend(a, b, p);
      }
    }
  }

  /**
   The first error satisfying `p` in a depth-first, pre-order walk of the
   chains under `es`, in order: the search `errors.As` and `errors.Is` make.
   */
  function FindFirst(es: seq<Err>, p: Err -> bool): (r: Option<Err>)
    ensures r.Some? ==> p(r.value)
    decreases ChainsSize(es)
  {
    if es == [] then None
    else if p(es[0]) then Some(es[0])
    else
      ChildrenSmaller(es[0]);
      match FindFirst(Children(es[0]), p)
      case Some(x) => Some(x)
      case None => FindFirst(es[1..], p)
  }

  /** What `errors.As` looks for with an `Errors` target. */
  predicate IsAggregate(e: Err) {
    e.Aggregate?
  }

  /** What `errors.As` looks for with a `*FieldError` target. */
  predicate IsFieldPointer(e: Err) {
    e.FieldErr? && e.boxed
  }

  /**
   `errors.As(err, &suberrs)` with `suberrs` of type `Errors`: the elements
   of the first aggregate in the chain of `err`, and None exactly when the
   search runs off the end of the chain, that is, when it holds no aggregate.
   */
  function AsAggregate(err: Err): (r: Option<seq<Err>>)
    ensures r.None? <==> FirstWhere(Chain(err), IsAggregate) == |Chain(err)|
    ensures r.Some? ==>
              var k := FirstWhere(Chain(err), IsAggregate);
              k < |Chain(err)| && r.value == Chain(err)[k].elems
    ensures err.Aggregate? ==> r == Some(err.elems)
  {
    FindFirstChains([err], IsAggregate);
    ChainOne(err);
    match FindFirst([err], IsAggregate)
    case Some(a) => Some(a.elems)
    case None => None
  }

  /**
   `errors.As(err, &fielderr)` with `fielderr` a `*FieldError`: the first
   boxed field error in the chain of `err`, and None exactly when the search
   runs off the end of the chain, that is, when it holds none.
   */
  function AsFieldError(err: Err): (r: Option<Err>)
    ensures r.None? <==> FirstWhere(Chain(err), IsFieldPointer) == |Chain(err)|
    ensures r.Some? ==>
              var k := FirstWhere(Chain(err), IsFieldPointer);
              k < |Chain(err)| && r.value == Chain(err)[k]
    ensures r.Some? ==> r.value.FieldErr? && r.value.boxed
    ensures err.FieldErr? && err.boxed ==> r == Some(err)
  {
    FindFirstChains([err], IsFieldPointer);
    ChainOne(err);
    FindFirst([err], IsFieldPointer)
  }

  /**
   `errors.As` looks through causes: an `Errors` behind a wrapping error, or
   held as a field error's cause, is the one found.
   */
  lemma AsLooksThroughCauses(t: string, f: string, m: string, es: seq<Err>, boxed: bool)
    ensures AsAggregate(Wrapped(t, Aggregate(es))) == Some(es)
    ensures AsAggregate(FieldErr(f, m, Some(Aggregate(es)), boxed)) == Some(es)
  {
    var a := Aggregate(es);
    var w, fe := Wrapped(t, a), FieldErr(f, m, Some(a), boxed);
    ChainOne(a);
    assert Chain(w) == [w] + Chain(a);
    assert Chain(fe) == [fe] + Chain(a);
    FirstWhereIs(Chain(w), IsAggregate, 1);
    FirstWhereIs(Chain(fe), IsAggregate, 1);
  }

  /** `errors.Is`: some error in the chain equals `target` (an aggregate is not comparable). */
  predicate Is(err: Err, target: Err) {
    FindFirst([err], (e: Err) => !e.Aggregate? && e == target).Some?
  }

  /** A field error made by `newFieldError` is its cause, in the sense of `errors.Is`. */
  lemma NewFieldErrorIs(f: string, err: Err)
    requires !err.Aggregate?
    ensures Is(NewFieldError(f, err), err)
  {
    var r := NewFieldError(f, err);
    var p := (e: Err) => !e.Aggregate? && e == err;
    assert Children(r) == [err];
    assert FindFirst([err], p) == Some(err);
  }
}
