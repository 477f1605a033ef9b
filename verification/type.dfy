/**
 Field descriptors (v1/type.go): which fields of a struct type take part in
 validation under a validator's tag keys, under what display name, with
 which message and constraint source; and the cache key pairing a type
 with the tag configuration.
 */
module Types {
  import opened GoStrings
  import opened Tag
  import opened Options
  import opened Validators
  import opened Values

  /**
   `fieldName` (type.go:74-80, repeated verbatim at validate.go:296-302):
   the text before the first comma of a name tag such as `"id,omitempty"`,
   unless the comma opens the tag.
   */
  function FieldName(t: string): (r: string)
    ensures |r| <= |t| && r == t[..|r|]
    ensures Index(t, ',') > 0 ==> r == t[..Index(t, ',')] && ',' !in r
    ensures Index(t, ',') <= 0 ==> r == t
  {
    var x := Index(t, ',');
    if x > 0 then t[..x] else t
  }

  /** Away from a leading comma, the name is the first comma-separated part of the tag. */
  lemma FieldNameIsFirstPart(t: string)
    requires t == [] || t[0] != ','
    ensures FieldName(t) == Split(t, ',')[0]
  {
  }

  /** A name without commas is its own field name. */
  lemma FieldNameOfPlainName(t: string)
    requires ',' !in t
    ensures FieldName(t) == t
  {
  }

  /** The trimmed constraint source of a field under the validator's check tag (aliases allowed). */
  function Source(d: FieldDecl, v: Validator): string {
    TrimSpace(GetTag(d.tag, v.checkTag))
  }

  /** The trimmed message of a field under the validator's message tag (exact key). */
  function Message(d: FieldDecl, v: Validator): string {
    TrimSpace(TagGet(d.tag, v.errTag))
  }

  /** White space around the check tag's value is not part of the source. */
  lemma SourceIsTrimmed(d: FieldDecl, v: Validator, pre: string, w: string, post: string)
    requires forall k :: 0 <= k < |pre| ==> IsSpace(pre[k])
    requires forall k :: 0 <= k < |post| ==> IsSpace(post[k])
    requires w != [] && !IsSpace(w[0]) && !IsSpace(w[|w| - 1])
    requires GetTag(d.tag, v.checkTag) == pre + w + post
    ensures Source(d, v) == w
  {
    TrimSpacePadded(pre, w, post);
  }

  /** White space around the message tag's value is not part of the message. */
  lemma MessageIsTrimmed(d: FieldDecl, v: Validator, pre: string, w: string, post: string)
    requires forall k :: 0 <= k < |pre| ==> IsSpace(pre[k])
    requires forall k :: 0 <= k < |post| ==> IsSpace(post[k])
    requires w != [] && !IsSpace(w[0]) && !IsSpace(w[|w| - 1])
    requires TagGet(d.tag, v.errTag) == pre + w + post
    ensures Message(d, v) == w
  {
    TrimSpacePadded(pre, w, post);
  }

  /** A field takes part unless its source is `-`, or is empty on a field that is not embedded. */
  predicate Selected(d: FieldDecl, v: Validator) {
    Source(d, v) != "-" && (Source(d, v) != "" || d.anonymous)
  }

  /**
   The display name: the field name of a non-empty name tag, else the
   declared identifier, except that an embedded field gets no inferred name.
   */
  function DisplayName(d: FieldDecl, v: Validator): string {
    var n := TagGet(d.tag, v.nameTag);
    if n != "" then FieldName(n) else if !d.anonymous then d.name else ""
  }

  /** `validatedField`: one field that takes part, with its position among the declared fields. */
  datatype ValidatedField = ValidatedField(name: string, message: string, expr: string, index: nat, field: FieldDecl)

  /** `validatedType`: a type and its participating fields. */
  datatype ValidatedType = ValidatedType(typeName: string, fields: seq<ValidatedField>)

  /** The descriptor of the declared field at `index`. */
  predicate Describes(f: ValidatedField, ds: seq<FieldDecl>, v: Validator) {
    && f.index < |ds|
    && f.field == ds[f.index]
    && f.name == DisplayName(ds[f.index], v)
    && f.message == Message(ds[f.index], v)
    && f.expr == Source(ds[f.index], v)
  }

  /** The positions, from `i` on, of the declared fields that `keep` accepts, in order. */
  function Kept(ds: seq<FieldDecl>, keep: FieldDecl -> bool, i: nat): (r: seq<nat>)
    requires i <= |ds|
    ensures forall k :: 0 <= k < |r| ==> i <= r[k] < |ds|
    decreases |ds| - i
  {
    if i == |ds| then []
    else if keep(ds[i]) then [i] + Kept(ds, keep, i + 1)
    else Kept(ds, keep, i + 1)
  }

  /** Every kept position is a position at or after `i` whose field is accepted. */
  lemma {:induction false} KeptSound(ds: seq<FieldDecl>, keep: FieldDecl -> bool, i: nat)
    requires i <= |ds|
    ensures forall k :: 0 <= k < |Kept(ds, keep, i)| ==>
              i <= Kept(ds, keep, i)[k] < |ds| && keep(ds[Kept(ds, keep, i)[k]])
    decreases |ds| - i
  {
    if i < |ds| {
      KeptSound(ds, keep, i + 1);
    }
  }

  /** Kept positions are strictly increasing. */
  lemma {:induction false} KeptOrdered(ds: seq<FieldDecl>, keep: FieldDecl -> bool, i: nat)
    requires i <= |ds|
    ensures forall k, l :: 0 <= k < l < |Kept(ds, keep, i)| ==> Kept(ds, keep, i)[k] < Kept(ds, keep, i)[l]
    decreases |ds| - i
  {
    if i < |ds| {
      KeptSound(ds, keep, i + 1);
      KeptOrdered(ds, keep, i + 1);
    }
  }

  /** Every accepted position at or after `i` is kept, at index `k`. */
  lemma {:induction false} KeptComplete(ds: seq<FieldDecl>, keep: FieldDecl -> bool, i: nat, j: nat) returns (k: nat)
    requires i <= j < |ds| && keep(ds[j])
    ensures k < |Kept(ds, keep, i)| && Kept(ds, keep, i)[k] == j
    decreases |ds| - i
  {
    if j == i {
      k := 0;
    } else {
      var k' := KeptComplete(ds, keep, i + 1, j);
      k := if keep(ds[i]) then k' + 1 else k';
    }
  }

  /** The descriptor of the declared field at position `j`. */
  function Descriptor(ds: seq<FieldDecl>, v: Validator, j: nat): (f: ValidatedField)
    requires j < |ds|
    ensures f.index == j && f.field == ds[j]
  {
    ValidatedField(DisplayName(ds[j], v), Message(ds[j], v), Source(ds[j], v), j, ds[j])
  }

  /** The descriptors of the fields at the positions `idx`, in that order. */
  function Descriptors(ds: seq<FieldDecl>, v: Validator, idx: seq<nat>): (fs: seq<ValidatedField>)
    requires forall k :: 0 <= k < |idx| ==> idx[k] < |ds|
    ensures |fs| == |idx| && forall k :: 0 <= k < |idx| ==> fs[k] == Descriptor(ds, v, idx[k])
  {
    seq(|idx|, k requires 0 <= k < |idx| => Descriptor(ds, v, idx[k]))
  }

  /** Describing one more position in front. */
  lemma DescriptorsCons(ds: seq<FieldDecl>, v: Validator, i: nat, rest: seq<nat>)
    requires i < |ds| && forall k :: 0 <= k < |rest| ==> rest[k] < |ds|
    ensures Descriptors(ds, v, [i] + rest) == [Descriptor(ds, v, i)] + Descriptors(ds, v, rest)
  {
    var idx := [i] + rest;
    assert forall k :: 0 <= k < |rest| ==> idx[k + 1] == rest[k];
  }

  /** Selection as a filter over declared fields. */
  function Keep(v: Validator): FieldDecl -> bool {
    (d: FieldDecl) => Selected(d, v)
  }

  /**
   `newType` (type.go:37-72): the participating fields, in declaration order,
   each described from its own tag; a field is listed exactly when it is
   selected.
   */
  function NewType(typeName: string, ds: seq<FieldDecl>, v: Validator): (t: ValidatedType)
    ensures t.typeName == typeName
    ensures forall k :: 0 <= k < |t.fields| ==> Describes(t.fields[k], ds, v) && Selected(ds[t.fields[k].index], v)
    ensures forall k, l :: 0 <= k < l < |t.fields| ==> t.fields[k].index < t.fields[l].index
    ensures forall j :: 0 <= j < |ds| && Selected(ds[j], v) ==> exists k :: 0 <= k < |t.fields| && t.fields[k].index == j
  {
    var idx := Kept(ds, Keep(v), 0);
    KeptSound(ds, Keep(v), 0);
    KeptOrdered(ds, Keep(v), 0);
    var fs := Descriptors(ds, v, idx);
    assert forall j :: 0 <= j < |ds| && Selected(ds[j], v) ==> exists k :: 0 <= k < |fs| && fs[k].index == j by {
      forall j | 0 <= j < |ds| && Selected(ds[j], v)
        ensures exists k :: 0 <= k < |fs| && fs[k].index == j
      {
        assert Keep(v)(ds[j]);
        var k := KeptComplete(ds, Keep(v), 0, j);
        assert fs[k].index == j;
      }
    }
    ValidatedType(typeName, fs)
  }

  /** `typeKey`: a type together with the tag configuration it was described under. */
  datatype TypeKey = TypeKey(typeName: string, config: Config)

  /** `newTypeKey` (type.go:13-22): the validator's three tag keys, and no base path. */
  function NewTypeKey(typeName: string, v: Validator): (k: TypeKey)
    ensures k.typeName == typeName && k.config.basePath == ""
    ensures NewWithConfig(k.config) == v
  {
    TypeKey(typeName, ConfigOf(v))
  }

  /** Two keys agree exactly when the types and the validators agree, so different modes never share one. */
  lemma TypeKeyInjective(t1: string, v1: Validator, t2: string, v2: Validator)
    ensures NewTypeKey(t1, v1) == NewTypeKey(t2, v2) <==> t1 == t2 && v1 == v2
  {
    if NewTypeKey(t1, v1) == NewTypeKey(t2, v2) {
      assert NewWithConfig(NewTypeKey(t1, v1).config) == NewWithConfig(NewTypeKey(t2, v2).config);
    }
  }
}
