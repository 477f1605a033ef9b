/**
 The expectations of the validator's own tests (v1/validate_test.go,
 v1/tag_test.go), replayed on the model: tags are written with
 `Tag.Render`, values with the value datatype, and expressions by a small
 oracle that gives the runs of the constraint sources those tests use.
 */
module Scenarios {
  import opened Optional
  import opened GoStrings
  import opened Errors
  import opened Values
  import opened Tag
  import Options
  import opened Validators
  import opened Types
  import opened Engine
  import opened EngineLaws
  import opened StructLaws

  // ---------------------------------------------------------------------
  // Tags

  /** A name with no comma and no white space at its ends is its only alias. */
  lemma AliasesOfOne(n: string)
    requires ',' !in n && n != [] && !IsSpace(n[0]) && !IsSpace(n[|n| - 1])
    ensures Aliases(n) == [n]
  {
    SplitWithoutSeparator(n, ',');
    TrimSpaceOfTrimmed(n);
  }

  /** `a,b` lists the aliases `a` and `b`. */
  lemma AliasesOfTwo(a: string, b: string)
    requires ',' !in a && a != [] && !IsSpace(a[0]) && !IsSpace(a[|a| - 1])
    requires ',' !in b && b != [] && !IsSpace(b[0]) && !IsSpace(b[|b| - 1])
    ensures Aliases(a + "," + b) == [a, b]
  {
    var s := a + "," + b;
    assert s[|a|] == ',' && s[..|a|] == a && s[|a| + 1..] == b;
    assert ',' !in s[..|a|];
    assert Index(s, ',') == |a|;
    SplitWithoutSeparator(b, ',');
    assert Split(s, ',') == [a, b];
    TrimSpaceOfTrimmed(a);
    TrimSpaceOfTrimmed(b);
  }

  /** The tag of tag_test.go, `species:"gopher" color,couleur:"blue"`, over its three names. */
  function SpeciesTag(species: string, color: string, couleur: string): seq<(string, string)> {
    [(species, "gopher"), (color + "," + couleur, "blue")]
  }

  /** The names of that tag are well formed, and list the aliases they should. */
  lemma {:induction false} SpeciesTagFacts(species: string, color: string, couleur: string)
    requires species == "species" && color == "color" && couleur == "couleur"
    ensures var ps := SpeciesTag(species, color, couleur);
      && (forall k :: 0 <= k < |ps| ==> WellFormedName(ps[k].0))
      && Aliases(ps[0].0) == [species]
      && Aliases(ps[1].0) == [color, couleur]
  {
    var n := color + "," + couleur;
    assert WellFormedName(species);
    assert WellFormedName(n) by {
      assert forall k :: 0 <= k < |n| ==> n[k] in "color,couleur";
    }
    AliasesOfOne(species);
    AliasesOfTwo(color, couleur);
  }

  /** Looking up a two-pair tag, knowing the aliases each pair lists. */
  lemma {:induction false} TwoPairLookup(ps: seq<(string, string)>, a0: seq<string>, a1: seq<string>, key: string)
    requires |ps| == 2 && WellFormedName(ps[0].0) && WellFormedName(ps[1].0)
    requires Aliases(ps[0].0) == a0 && Aliases(ps[1].0) == a1
    ensures key in a0 ==> FindTag(Render(ps), key) == Some(ps[0].1)
    ensures key !in a0 && key in a1 ==> FindTag(Render(ps), key) == Some(ps[1].1)
    ensures key !in a0 && key !in a1 ==> FindTag(Render(ps), key) == None
  {
    assert forall k :: 0 <= k < |ps| ==> WellFormedName(ps[k].0) by {
      forall k | 0 <= k < |ps|
        ensures WellFormedName(ps[k].0)
      {
        assert k == 0 || k == 1;
      }
    }
    FindTagRender(ps, key);
    var tail := ps[1..];
    assert tail[0] == ps[1] && tail[1..] == [];
    assert FirstAlias(tail[1..], key) == None;
    assert FirstAlias(tail, key) == if key in a1 then Some(ps[1].1) else None;
    assert FirstAlias(ps, key) == if key in a0 then Some(ps[0].1) else FirstAlias(tail, key);
  }

  /** Looking up any key in the tag of tag_test.go, given what its names list. */
  lemma SpeciesLookup(species: string, color: string, couleur: string, key: string)
    requires var ps := SpeciesTag(species, color, couleur);
      && (forall k :: 0 <= k < |ps| ==> WellFormedName(ps[k].0))
      && Aliases(ps[0].0) == [species]
      && Aliases(ps[1].0) == [color, couleur]
    ensures FindTag(Render(SpeciesTag(species, color, couleur)), key) ==
              if key == species then Some("gopher")
              else if key == color || key == couleur then Some("blue")
              else None
  {
    var ps := SpeciesTag(species, color, couleur);
    TwoPairLookup(ps, [species], [color, couleur], key);
  }

  /**
   Either alias of `color,couleur` finds `blue`, and a key listed nowhere
   finds nothing (v1/tag_test.go:19-29).
   */
  lemma {:induction false} TagTest(species: string, color: string, couleur: string, nah: string)
    requires species == "species" && color == "color" && couleur == "couleur" && nah == "nah"
    ensures FindTag(Render(SpeciesTag(species, color, couleur)), color) == Some("blue")
    ensures FindTag(Render(SpeciesTag(species, color, couleur)), couleur) == Some("blue")
    ensures FindTag(Render(SpeciesTag(species, color, couleur)), nah) == None
    ensures GetTag(Render(SpeciesTag(species, color, couleur)), nah) == ""
  {
    SpeciesTagFacts(species, color, couleur);
    assert color != species && couleur != species by {
      assert color[0] != species[0] && couleur[0] != species[0];
    }
    assert nah != species && nah != color && nah != couleur by {
      assert |nah| == 3;
    }
    SpeciesLookup(species, color, couleur, color);
    SpeciesLookup(species, color, couleur, couleur);
    SpeciesLookup(species, color, couleur, nah);
  }
  // ---------------------------------------------------------------------
  // Modes

  /** The tag `json:"n" modes:"src" invalid:"msg"` of a `modeA` field. */
  function ModeTag(n: string, modes: string, src: string, msg: string): seq<(string, string)> {
    [("json", n), (modes, src), ("invalid", msg)]
  }

  /** Looking up a three-pair tag, knowing the aliases each pair lists. */
  lemma {:induction false} ThreePairLookup(ps: seq<(string, string)>, a0: seq<string>, a1: seq<string>, a2: seq<string>, key: string)
    requires |ps| == 3 && WellFormedName(ps[0].0) && WellFormedName(ps[1].0) && WellFormedName(ps[2].0)
    requires Aliases(ps[0].0) == a0 && Aliases(ps[1].0) == a1 && Aliases(ps[2].0) == a2
    ensures FindTag(Render(ps), key) ==
              if key in a0 then Some(ps[0].1)
              else if key in a1 then Some(ps[1].1)
              else if key in a2 then Some(ps[2].1)
              else None
  {
    assert forall k :: 0 <= k < |ps| ==> WellFormedName(ps[k].0) by {
      forall k | 0 <= k < |ps|
        ensures WellFormedName(ps[k].0)
      {
        assert k == 0 || k == 1 || k == 2;
      }
    }
    FindTagRender(ps, key);
    var t1 := ps[1..];
    var t2 := t1[1..];
    assert t1[0] == ps[1] && t2[0] == ps[2] && t2[1..] == [];
    assert FirstAlias(t2[1..], key) == None;
    assert FirstAlias(t2, key) == if key in a2 then Some(ps[2].1) else None;
    assert FirstAlias(t1, key) == if key in a1 then Some(ps[1].1) else FirstAlias(t2, key);
  }

  /**
   The constraint source of a `modeA` field under the constraint key `m`:
   its expression when `m` is one of the aliases its mode key lists, and
   nothing otherwise.
   */
  lemma ModeFieldSource(name: string, n: string, modes: string, aliases: seq<string>, src: string, msg: string, m: string)
    requires WellFormedName(modes) && Aliases(modes) == aliases
    requires src != [] && !IsSpace(src[0]) && !IsSpace(src[|src| - 1])
    requires m != "json" && m != "invalid"
    ensures Source(FieldDecl(name, Render(ModeTag(n, modes, src, msg)), false), Validator(m, "invalid", "json"))
         == if m in aliases then src else ""
  {
    var ps := ModeTag(n, modes, src, msg);
    assert WellFormedName("json") && WellFormedName("invalid");
    AliasesOfOne("json");
    AliasesOfOne("invalid");
    ThreePairLookup(ps, ["json"], aliases, ["invalid"], m);
    TrimSpaceOfTrimmed(src);
  }

  /** A field tagged only with its display name has no constraint source under any other key. */
  lemma NameOnlySource(name: string, n: string, m: string)
    requires m != "json"
    ensures Source(FieldDecl(name, Render([("json", n)]), false), Validator(m, "invalid", "json")) == ""
  {
    assert WellFormedName("json");
    AliasesOfOne("json");
    FindTagRender([("json", n)], m);
    assert [("json", n)][1..] == [];
  }

  /** The mode keys of `TestMode`: plain names, distinct, none of them `json` or `invalid`. */
  lemma {:induction false} ModeKeys(create: string, update: string, never: string)
    requires create == "create" && update == "update" && never == "never_heard_of_it"
    ensures WellFormedName(create) && Aliases(create) == [create]
    ensures WellFormedName(create + "," + update) && Aliases(create + "," + update) == [create, update]
    ensures forall m :: m in [create, update, never, create + "," + update] ==> m != "json" && m != "invalid"
    ensures update !in [create] && never !in [create, update]
    ensures create + "," + update !in [create, update]
  {
    var both := create + "," + update;
    assert WellFormedName(create);
    assert WellFormedName(both) by {
      assert forall k :: 0 <= k < |both| ==> both[k] in "create,update";
    }
    AliasesOfOne(create);
    AliasesOfTwo(create, update);
    assert update != create by { assert update[0] != create[0]; }
    assert |create| == 6 && |update| == 6 && |never| == 17 && |both| == 13;
  }

  /**
   The fields of `modeA` that each mode selects (v1/validate_test.go:181-198):
   `create` selects `a_1` and `a_2`, `update` selects `a_2`, and a mode
   listed nowhere, or the key `create,update` itself, selects none; `a_3`
   has no constraint and is never selected.
   */
  lemma {:induction false} ModeSelection(create: string, update: string, never: string, src: string, msg: string)
    requires create == "create" && update == "update" && never == "never_heard_of_it"
    requires src == "len(self) > 0" && msg == "Wrong length"
    ensures var f1 := FieldDecl("F1", Render(ModeTag("a_1", create, src, msg)), false);
      var f2 := FieldDecl("F2", Render(ModeTag("a_2", create + "," + update, src, msg)), false);
      && Source(f1, Validator(create, "invalid", "json")) == src
      && Source(f2, Validator(create, "invalid", "json")) == src
      && Source(f1, Validator(update, "invalid", "json")) == ""
      && Source(f2, Validator(update, "invalid", "json")) == src
      && Source(f1, Validator(never, "invalid", "json")) == ""
      && Source(f2, Validator(never, "invalid", "json")) == ""
      && Source(f1, Validator(create + "," + update, "invalid", "json")) == ""
      && Source(f2, Validator(create + "," + update, "invalid", "json")) == ""
    ensures forall m :: m != "json" ==> !Selected(FieldDecl("F3", Render([("json", "a_3")]), false), Validator(m, "invalid", "json"))
  {
    var both := create + "," + update;
    ModeKeys(create, update, never);
    assert src != [] && !IsSpace(src[0]) && !IsSpace(src[|src| - 1]) by {
      assert src[0] == 'l' && src[|src| - 1] == '0';
    }
    ModeFieldSource("F1", "a_1", create, [create], src, msg, create);
    ModeFieldSource("F2", "a_2", both, [create, update], src, msg, create);
    ModeFieldSource("F1", "a_1", create, [create], src, msg, update);
    ModeFieldSource("F2", "a_2", both, [create, update], src, msg, update);
    ModeFieldSource("F1", "a_1", create, [create], src, msg, never);
    ModeFieldSource("F2", "a_2", both, [create, update], src, msg, never);
    ModeFieldSource("F1", "a_1", create, [create], src, msg, both);
    ModeFieldSource("F2", "a_2", both, [create, update], src, msg, both);
    forall m | m != "json"
      ensures !Selected(FieldDecl("F3", Render([("json", "a_3")]), false), Validator(m, "invalid", "json"))
    {
      NameOnlySource("F3", "a_3", m);
    }
  }
}
