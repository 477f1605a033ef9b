/**
 The `Validator` value and its constructors (validate.go:65-87): the three
 tag keys the engine reads, taken from a configuration that starts at the
 defaults and is adjusted by options in order.
 */
module Validators {
  import opened Options

  /** The tag keys for the constraint, the message and the display name. */
  datatype Validator = Validator(checkTag: string, errTag: string, nameTag: string)

  /** The configuration `New` starts from. */
  const DefaultConfig: Config := Config("check", "invalid", "json", "")

  /** `NewWithConfig`: the three tag keys are copied over; the base path is not kept. */
  function NewWithConfig(c: Config): (v: Validator)
    ensures v.checkTag == c.checkTag && v.errTag == c.errorTag && v.nameTag == c.fieldTag
  {
    Validator(c.checkTag, c.errorTag, c.fieldTag)
  }

  /** The configuration a validator was built from, with an empty base path. */
  function ConfigOf(v: Validator): (c: Config)
    ensures c.basePath == ""
    ensures NewWithConfig(c) == v
  {
    Config(v.checkTag, v.errTag, v.nameTag, "")
  }

  /** `New`: the default configuration, then every option in order, then `NewWithConfig`. */
  method New(opts: seq<Option>) returns (v: Validator)
    ensures v == NewWithConfig(WithOptions(DefaultConfig, opts))
  {
    var conf := DefaultConfig;
    var i := 0;
    while i < |opts|
      invariant 0 <= i <= |opts|
      invariant conf == WithOptions(DefaultConfig, opts[..i])
    {
      WithOptionsAppend(DefaultConfig, opts[..i], [opts[i]]);
      assert opts[..i + 1] == opts[..i] + [opts[i]];
      conf := opts[i](conf);
      i := i + 1;
    }
    assert opts[..i] == opts;
    v := NewWithConfig(conf);
  }

  /** No validator depends on the base path it was configured with. */
  lemma BasePathIgnored(c: Config, path: string)
    ensures NewWithConfig(c.(basePath := path)) == NewWithConfig(c)
    ensures NewWithConfig(WithOptions(c, [BasePath(path)])) == NewWithConfig(c)
  {
  }

  /** Two configurations give the same validator exactly when their three tag keys agree. */
  lemma SameValidator(c: Config, d: Config)
    ensures NewWithConfig(c) == NewWithConfig(d)
        <==> c.checkTag == d.checkTag && c.errorTag == d.errorTag && c.fieldTag == d.fieldTag
  {
  }

  /** With no options, the defaults: `check`, `invalid`, `json`. */
  lemma NewDefaults()
    ensures NewWithConfig(WithOptions(DefaultConfig, [])) == Validator("check", "invalid", "json")
  {
  }

  /** A mode selects the constraint tag and keeps the default message and name tags. */
  lemma NewMode(m: string)
    ensures NewWithConfig(WithOptions(DefaultConfig, [Mode(m)])) == Validator(m, "invalid", "json")
  {
  }
}
