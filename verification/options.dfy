/**
 Validator configuration (v1/options.go): a four-field `Config` and
 `Option`s, functions from configuration to configuration applied in order.
 */
module Options {

  /** The tag keys for the constraint, the message and the display name, and a base path. */
  datatype Config = Config(checkTag: string, errorTag: string, fieldTag: string, basePath: string)

  /** A functional option. */
  type Option = Config -> Config

  /** `Config.WithOptions`: apply the options from first to last. */
  function WithOptions(c: Config, opts: seq<Option>): Config
    decreases |opts|
  {
    if opts == [] then c else WithOptions(opts[0](c), opts[1..])
  }

  /** `CheckTag`: sets the constraint tag key and nothing else. */
  function CheckTag(name: string): (o: Option)
    ensures forall c :: o(c).checkTag == name && o(c).errorTag == c.errorTag
                        && o(c).fieldTag == c.fieldTag && o(c).basePath == c.basePath
  {
    (c: Config) => c.(checkTag := name)
  }

  /** `Mode` is another name for `CheckTag`. */
  function Mode(name: string): (o: Option)
    ensures forall c :: o(c) == CheckTag(name)(c)
  {
    CheckTag(name)
  }

  /** `ErrorTag`: sets the message tag key and nothing else. */
  function ErrorTag(name: string): (o: Option)
    ensures forall c :: o(c).errorTag == name && o(c).checkTag == c.checkTag
                        && o(c).fieldTag == c.fieldTag && o(c).basePath == c.basePath
  {
    (c: Config) => c.(errorTag := name)
  }

  /** `FieldTag`: sets the display-name tag key and nothing else. */
  function FieldTag(name: string): (o: Option)
    ensures forall c :: o(c).fieldTag == name && o(c).checkTag == c.checkTag
                        && o(c).errorTag == c.errorTag && o(c).basePath == c.basePath
  {
    (c: Config) => c.(fieldTag := name)
  }

  /** `BasePath`: sets the base path and nothing else. */
  function BasePath(path: string): (o: Option)
    ensures forall c :: o(c).basePath == path && o(c).checkTag == c.checkTag
                        && o(c).errorTag == c.errorTag && o(c).fieldTag == c.fieldTag
  {
    (c: Config) => c.(basePath := path)
  }

  /** Applying a concatenation is applying the first list, then the second. */
  lemma {:induction false} WithOptionsAppend(c: Config, a: seq<Option>, b: seq<Option>)
    ensures WithOptions(c, a + b) == WithOptions(WithOptions(c, a), b)
    decreases |a|
  {
    if a == [] {
      assert a + b == b;
    } else {
      assert (a + b)[0] == a[0];
      assert (a + b)[1..] == a[1..] + b;
      WithOptionsAppend(a[0](c), a[1..], b);
    }
  }

  /** The empty option list changes nothing, and a single option is just applied. */
  lemma WithOptionsUnit(c: Config, o: Option)
    ensures WithOptions(c, []) == c
    ensures WithOptions(c, [o]) == o(c)
  {
  }

  /** The last of several options that set the same field decides it. */
  lemma LaterCheckTagWins(c: Config, opts: seq<Option>, name: string)
    ensures WithOptions(c, opts + [CheckTag(name)]).checkTag == name
    ensures WithOptions(c, opts + [CheckTag(name)]).errorTag == WithOptions(c, opts).errorTag
    ensures WithOptions(c, opts + [CheckTag(name)]).fieldTag == WithOptions(c, opts).fieldTag
  {
    WithOptionsAppend(c, opts, [CheckTag(name)]);
  }

  /** Two options on the same field: the later one wins. */
  lemma TwoCheckTags(c: Config, first: string, second: string)
    ensures WithOptions(c, [CheckTag(first), CheckTag(second)]) == WithOptions(c, [CheckTag(second)])
  {
  }
}
