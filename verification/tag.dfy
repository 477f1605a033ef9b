/**
 Struct-tag lookup (v1/tag.go). A tag is a run of `name:"value"` entries
 separated by spaces. The scanner is defined once, entry by entry
 (`NextEntry`); on top of it sit
 - `FindTag`, the repository's lookup: an entry name such as
   `create,update` lists comma-separated aliases, and an entry whose value
   does not unquote is abandoned while the scan goes on;
 - `Lookup`, Go's own `reflect.StructTag.Lookup`, which the core uses for the
   name and message tags: the name must equal the key, and a value that does
   not unquote ends the scan;
 - `ScanTag`, the byte loop of tag.go, proved to agree with `FindTag`.
 Runes stand for bytes: every test of the scanner compares with an ASCII
 byte, and every byte of a multi-byte rune lies above 0x7F, so a rune passes
 exactly the tests its bytes pass.
 */
module Tag {
  import opened Optional
  import opened GoStrings
  import opened Strconv

  /** A rune allowed in an entry name: above space, and not `:`, `"` or DEL. */
  predicate NameChar(c: char) {
    c > ' ' && c != ':' && c != '"' && c as int != 0x7F
  }

  /** Number of leading ASCII spaces (only ' ' is skipped between entries). */
  function SpacePrefix(t: string): (n: nat)
    ensures n <= |t|
    ensures forall k :: 0 <= k < n ==> t[k] == ' '
    ensures n == |t| || t[n] != ' '
  {
    if t == [] || t[0] != ' ' then 0 else 1 + SpacePrefix(t[1..])
  }

  /** Length of the longest prefix of name runes. */
  function NameLen(t: string): (n: nat)
    ensures n <= |t|
    ensures forall k :: 0 <= k < n ==> NameChar(t[k])
    ensures n == |t| || !NameChar(t[n])
  {
    if t == [] || !NameChar(t[0]) then 0 else 1 + NameLen(t[1..])
  }

  /**
   Position of the quote closing a value that opens at `t[0]`, scanning from
   `i`: a backslash makes the scan skip the rune after it. A result of `|t|`
   or more means the value is unterminated.
   */
  function QuoteEnd(t: string, i: nat): (r: nat)
    requires 1 <= i <= |t| + 1
    ensures i <= r <= |t| + 1
    ensures r < |t| ==> t[r] == '"'
    decreases |t| + 1 - i
  {
    if i >= |t| || t[i] == '"' then i
    else if t[i] == '\\' then QuoteEnd(t, i + 2)
    else QuoteEnd(t, i + 1)
  }

  /** One `name:"value"` entry, with the value still quoted. */
  datatype Entry = Entry(name: string, quoted: string)

  /** Outcome of scanning for one entry: the scan stops, or yields an entry and the rest. */
  datatype Step = Stop | Next(entry: Entry, rest: string)

  /**
   Scans one entry: skip spaces, read a non-empty name, require `:"`, then
   read the quoted value up to its closing quote. Any failure, and the end
   of the tag, stop the whole scan.
   */
  function NextEntry(t: string): (r: Step)
    ensures r.Next? ==> |r.rest| < |t|
  {
    EntryAt(t[SpacePrefix(t)..])
  }

  /** Scans one entry from a tag that does not start with a space. */
  function EntryAt(t1: string): (r: Step)
    ensures r.Next? ==> |r.rest| < |t1|
  {
    if t1 == [] then Stop
    else
      var i := NameLen(t1);
      if i == 0 || i + 1 >= |t1| || t1[i] != ':' || t1[i + 1] != '"' then Stop
      else ValueAt(t1[..i], t1[i + 1..])
  }

  /** Scans the quoted value of entry `name`; `t2` starts at its opening quote. */
  function ValueAt(name: string, t2: string): (r: Step)
    requires |t2| >= 1
    ensures r.Next? ==> |r.rest| < |t2|
  {
    var j := QuoteEnd(t2, 1);
    if j >= |t2| then Stop else Next(Entry(name, t2[..j + 1]), t2[j + 1..])
  }

  lemma ValueAtShape(name: string, t2: string)
    requires |t2| >= 1 && ValueAt(name, t2).Next?
    ensures ValueAt(name, t2).entry.name == name
    ensures |ValueAt(name, t2).entry.quoted| >= 2
    ensures ValueAt(name, t2).entry.quoted[0] == t2[0]
    ensures ValueAt(name, t2).entry.quoted[|ValueAt(name, t2).entry.quoted| - 1] == '"'
    ensures t2 == ValueAt(name, t2).entry.quoted + ValueAt(name, t2).rest
  {
    var j := QuoteEnd(t2, 1);
    assert t2 == t2[..j + 1] + t2[j + 1..];
  }

  lemma EntryAtShape(t1: string)
    requires EntryAt(t1).Next?
    ensures WellFormedName(EntryAt(t1).entry.name)
    ensures |EntryAt(t1).entry.quoted| >= 2
    ensures EntryAt(t1).entry.quoted[0] == '"'
    ensures EntryAt(t1).entry.quoted[|EntryAt(t1).entry.quoted| - 1] == '"'
    ensures t1 == EntryAt(t1).entry.name + [':'] + EntryAt(t1).entry.quoted + EntryAt(t1).rest
  {
    var i := NameLen(t1);
    var t2 := t1[i + 1..];
    ValueAtShape(t1[..i], t2);
    assert t1 == t1[..i] + [':'] + t2;
  }

  /**
   An entry the scanner yields is a non-empty name of name runes, a colon,
   a value that opens and closes with a double quote, and the rest: past
   the leading spaces, the tag is exactly these pieces in order.
   */
  lemma NextEntryShape(t: string)
    requires NextEntry(t).Next?
    ensures WellFormedName(NextEntry(t).entry.name)
    ensures |NextEntry(t).entry.quoted| >= 2
    ensures NextEntry(t).entry.quoted[0] == '"'
    ensures NextEntry(t).entry.quoted[|NextEntry(t).entry.quoted| - 1] == '"'
    ensures t[SpacePrefix(t)..] == NextEntry(t).entry.name + [':'] + NextEntry(t).entry.quoted + NextEntry(t).rest
  {
    EntryAtShape(t[SpacePrefix(t)..]);
  }

  /** Every entry the scanner reads before it stops, in order. */
  function Entries(t: string): seq<Entry>
    decreases |t|
  {
    match NextEntry(t)
    case Stop => []
    case Next(e, rest) => [e] + Entries(rest)
  }

  /** The aliases an entry name lists: split on commas, each trimmed. */
  function Aliases(name: string): (r: seq<string>)
    ensures |r| >= 1
    ensures forall k :: 0 <= k < |r| ==> ',' !in r[k]
  {
    var parts := Split(name, ',');
    var r := seq(|parts|, k requires 0 <= k < |parts| => TrimSpace(parts[k]));
    assert forall k :: 0 <= k < |r| ==> ',' !in r[k] by {
      forall k, c | 0 <= k < |r| && c in r[k]
        ensures c != ','
      {
        TrimSpaceRunes(parts[k], c);
      }
    }
    r
  }

  /** `findTag` (tag.go:14-65): the value of the first entry that lists `key` and unquotes. */
  function FindTag(t: string, key: string): Option<string>
    decreases |t|, 1
  {
    FindInEntry(t, key)
  }

  /** One round of the scan: the next entry's value if it lists `key` and unquotes, else the search of the rest. */
  function FindInEntry(t: string, key: string): Option<string>
    decreases |t|, 0
  {
    match NextEntry(t)
    case Stop => None
    case Next(e, rest) =>
      if key in Aliases(e.name) && Unquote(e.quoted).Some? then Unquote(e.quoted)
      else FindTag(rest, key)
  }

  /** `getTag` (tag.go:9-12): the value found, or the empty string. */
  function GetTag(t: string, key: string): (v: string)
    ensures FindTag(t, key).None? ==> v == ""
    ensures FindTag(t, key).Some? ==> v == FindTag(t, key).value
  {
    FindTag(t, key).GetOr("")
  }

  /** Go's `reflect.StructTag.Lookup`: exact names, and a value that does not unquote ends the scan. */
  function Lookup(t: string, key: string): Option<string>
    decreases |t|, 1
  {
    LookupInEntry(t, key)
  }

  /** One round of `Lookup`: the next entry decides if it is named `key`, else the rest is searched. */
  function LookupInEntry(t: string, key: string): Option<string>
    decreases |t|, 0
  {
    match NextEntry(t)
    case Stop => None
    case Next(e, rest) =>
      if e.name == key then Unquote(e.quoted) else Lookup(rest, key)
  }

  /** Go's `reflect.StructTag.Get`. */
  function TagGet(t: string, key: string): string {
    Lookup(t, key).GetOr("")
  }

  // ---------------------------------------------------------------------
  // FindTag, entry by entry

  /** The first entry listing `key` whose value unquotes, searched in order. */
  function FirstMatch(es: seq<Entry>, key: string): Option<string> {
    if es == [] then None
    else if key in Aliases(es[0].name) && Unquote(es[0].quoted).Some? then Unquote(es[0].quoted)
    else FirstMatch(es[1..], key)
  }

  /** `FindTag` is the first successful alias match among the scanned entries. */
  lemma {:induction false} FindTagIsFirstMatch(t: string, key: string)
    ensures FindTag(t, key) == FirstMatch(Entries(t), key)
    decreases |t|
  {
    match NextEntry(t)
    case Stop =>
    case Next(e, rest) =>
      FindTagIsFirstMatch(rest, key);
      assert Entries(t)[1..] == Entries(rest);
  }

  /** A key listed by no entry is not found, so `getTag` gives the empty string. */
  lemma FindTagAbsent(t: string, key: string)
    requires forall k :: 0 <= k < |Entries(t)| ==> key !in Aliases(Entries(t)[k].name)
    ensures FindTag(t, key) == None
    ensures GetTag(t, key) == ""
  {
    FindTagIsFirstMatch(t, key);
    FirstMatchAbsent(Entries(t), key);
  }

  lemma {:induction false} FirstMatchAbsent(es: seq<Entry>, key: string)
    requires forall k :: 0 <= k < |es| ==> key !in Aliases(es[k].name)
    ensures FirstMatch(es, key) == None
  {
    if es != [] {
      FirstMatchAbsent(es[1..], key);
    }
  }

  /** A found value comes from some scanned entry that lists the key and unquotes to it. */
  lemma FindTagFound(t: string, key: string)
    requires FindTag(t, key).Some?
    ensures exists k :: 0 <= k < |Entries(t)| && key in Aliases(Entries(t)[k].name)
                        && Unquote(Entries(t)[k].quoted) == FindTag(t, key)
  {
    FindTagIsFirstMatch(t, key);
    var k := FirstMatchFound(Entries(t), key);
  }

  lemma {:induction false} FirstMatchFound(es: seq<Entry>, key: string) returns (k: nat)
    requires FirstMatch(es, key).Some?
    ensures k < |es| && key in Aliases(es[k].name) && Unquote(es[k].quoted) == FirstMatch(es, key)
  {
    if key in Aliases(es[0].name) && Unquote(es[0].quoted).Some? {
      k := 0;
    } else {
      k := FirstMatchFound(es[1..], key);
      k := k + 1;
    }
  }

  /** A key containing a comma equals no alias, so it is never found. */
  lemma {:induction false} FindTagCommaKey(t: string, key: string)
    requires ',' in key
    ensures FindTag(t, key) == None
    decreases |t|
  {
    match NextEntry(t)
    case Stop =>
    case Next(e, rest) =>
      assert key !in Aliases(e.name);
      FindTagCommaKey(rest, key);
  }

  /**
   When the first entry lists the key but its value does not unquote,
   `FindTag` abandons that entry and goes on with the rest, whereas Go's own
   `Lookup` would give up.
   */
  lemma UnquoteFailureSkipsEntry(t: string, key: string)
    requires NextEntry(t).Next? && key in Aliases(NextEntry(t).entry.name)
    requires Unquote(NextEntry(t).entry.quoted).None?
    ensures FindTag(t, key) == FindTag(NextEntry(t).rest, key)
    ensures NextEntry(t).entry.name == key ==> Lookup(t, key) == None
  {
  }

  /**
   Past the leading spaces, the scan stops with nothing found at the end of
   the tag, at an empty name, at a name not followed by `:"`, and at a value
   whose closing quote is missing; `Lookup` stops there too.
   */
  lemma MalformedStops(t: string, key: string)
    ensures var u := t[SpacePrefix(t)..];
      var i := NameLen(u);
      (u == [] || i == 0 || i + 1 >= |u| || u[i] != ':' || u[i + 1] != '"' || QuoteEnd(u[i + 1..], 1) >= |u| - i - 1)
      ==> FindTag(t, key) == None && Lookup(t, key) == None
  {
  }

  // ---------------------------------------------------------------------
  // Tags built from (name, value) pairs

  predicate WellFormedName(n: string) {
    |n| >= 1 && forall k :: 0 <= k < |n| ==> NameChar(n[k])
  }

  /** The tag text `name:"value"` for one pair. */
  function Pair(n: string, v: string): string {
    n + [':'] + Quote(v)
  }

  /** A tag listing the pairs in order, separated by single spaces. */
  function Render(ps: seq<(string, string)>): string {
    if ps == [] then []
    else if |ps| == 1 then Pair(ps[0].0, ps[0].1)
    else Pair(ps[0].0, ps[0].1) + [' '] + Render(ps[1..])
  }

  /** The closing-quote scan steps over an escaped body exactly. */
  lemma {:induction false} QuoteEndEscape(pre: string, s: string, post: string)
    requires |pre| >= 1
    ensures QuoteEnd(pre + Escape(s) + ['"'] + post, |pre|) == |pre| + |Escape(s)|
    decreases |s|
  {
    var t := pre + Escape(s) + ['"'] + post;
    if s == [] {
      assert t[|pre|] == '"';
    } else {
      var e := EscapeRune(s[0]);
      assert Escape(s) == e + Escape(s[1..]);
      assert t == (pre + e) + Escape(s[1..]) + ['"'] + post;
      assert t[|pre|] == e[0];
      QuoteEndEscape(pre + e, s[1..], post);
    }
  }

  /** The scanner reads a rendered pair back as one entry, whatever follows it. */
  lemma NextEntryOfPair(n: string, v: string, post: string)
    requires WellFormedName(n)
    ensures NextEntry(Pair(n, v) + post) == Next(Entry(n, Quote(v)), post)
  {
    var t := Pair(n, v) + post;
    assert t[0] == n[0];
    assert SpacePrefix(t) == 0;
    assert t[..|n|] == n;
    assert t[|n|] == ':';
    NameLenOfName(n, t);
    var t2 := t[|n| + 1..];
    assert t2 == ['"'] + Escape(v) + ['"'] + post;
    QuoteEndEscape(['"'], v, post);
    assert t2[..|Escape(v)| + 2] == Quote(v);
    assert t2[|Escape(v)| + 2..] == post;
  }

  lemma NameLenOfName(n: string, t: string)
    requires WellFormedName(n) && |t| > |n| && t[..|n|] == n && !NameChar(t[|n|])
    ensures NameLen(t) == |n|
  {
  }

  /** The entries a tag rendered from `ps` should hold: each name with its quoted value. */
  function QuotedEntries(ps: seq<(string, string)>): (es: seq<Entry>)
    ensures |es| == |ps|
  {
    if ps == [] then [] else [Entry(ps[0].0, Quote(ps[0].1))] + QuotedEntries(ps[1..])
  }

  /** A rendered tag scans back to exactly its pairs, with their values quoted. */
  lemma {:induction false} EntriesOfRender(ps: seq<(string, string)>)
    requires forall k :: 0 <= k < |ps| ==> WellFormedName(ps[k].0)
    ensures Entries(Render(ps)) == QuotedEntries(ps)
  {
    if ps == [] {
      EntriesOfEmpty();
    } else if |ps| == 1 {
      EntriesOfPair(ps[0].0, ps[0].1, []);
      EntriesOfEmpty();
      assert Render(ps) == Pair(ps[0].0, ps[0].1) + [];
    } else {
      var tail := ps[1..];
      assert forall k :: 0 <= k < |tail| ==> WellFormedName(tail[k].0) by {
        forall k | 0 <= k < |tail|
          ensures WellFormedName(tail[k].0)
        {
          assert tail[k] == ps[k + 1];
        }
      }
      var r := Render(tail);
      assert Render(ps) == Pair(ps[0].0, ps[0].1) + ([' '] + r);
      EntriesOfPair(ps[0].0, ps[0].1, [' '] + r);
      SkipOneSpace(r);
      EntriesOfRender(tail);
      assert QuotedEntries(ps) == [Entry(ps[0].0, Quote(ps[0].1))] + QuotedEntries(tail);
    }
  }

  lemma EntriesOfEmpty()
    ensures Entries([]) == []
  {
    assert NextEntry([]) == Stop;
  }

  lemma EntriesOfPair(n: string, v: string, post: string)
    requires WellFormedName(n)
    ensures Entries(Pair(n, v) + post) == [Entry(n, Quote(v))] + Entries(post)
  {
    NextEntryOfPair(n, v, post);
  }

  /** One leading space does not change what is scanned. */
  lemma SkipOneSpace(t: string)
    ensures NextEntry([' '] + t) == NextEntry(t)
    ensures Entries([' '] + t) == Entries(t)
  {
    var u := [' '] + t;
    assert u[1..] == t;
    assert SpacePrefix(u) == 1 + SpacePrefix(t);
    assert u[SpacePrefix(u)..] == t[SpacePrefix(t)..];
    assert u[..SpacePrefix(u)] == [' '] + t[..SpacePrefix(t)];
  }

  /** The value of the first pair whose name lists `key` as an alias. */
  function FirstAlias(ps: seq<(string, string)>, key: string): Option<string> {
    if ps == [] then None
    else if key in Aliases(ps[0].0) then Some(ps[0].1)
    else FirstAlias(ps[1..], key)
  }

  /** Looking a key up in a rendered tag gives the value of the first pair that lists it. */
  lemma {:induction false} FindTagRender(ps: seq<(string, string)>, key: string)
    requires forall k :: 0 <= k < |ps| ==> WellFormedName(ps[k].0)
    ensures FindTag(Render(ps), key) == FirstAlias(ps, key)
  {
    FindTagIsFirstMatch(Render(ps), key);
    EntriesOfRender(ps);
    FirstMatchRendered(ps, key);
  }

  lemma {:induction false} FirstMatchRendered(ps: seq<(string, string)>, key: string)
    ensures FirstMatch(QuotedEntries(ps), key) == FirstAlias(ps, key)
  {
    if ps != [] {
      UnquoteQuote(ps[0].1);
      FirstMatchRendered(ps[1..], key);
      assert QuotedEntries(ps)[1..] == QuotedEntries(ps[1..]);
    }
  }

  /** The unquoted value of the first entry named exactly `key`; a failed unquote ends the search. */
  function FirstNamedEntry(es: seq<Entry>, key: string): Option<string> {
    if es == [] then None
    else if es[0].name == key then Unquote(es[0].quoted)
    else FirstNamedEntry(es[1..], key)
  }

  /** `Lookup` is the exact-name search over the scanned entries. */
  lemma {:induction false} LookupIsFirstNamed(t: string, key: string)
    ensures Lookup(t, key) == FirstNamedEntry(Entries(t), key)
    decreases |t|
  {
    match NextEntry(t)
    case Stop =>
    case Next(e, rest) =>
      LookupIsFirstNamed(rest, key);
      assert Entries(t)[1..] == Entries(rest);
  }

  /** The value of the first pair named exactly `key`. */
  function FirstNamed(ps: seq<(string, string)>, key: string): Option<string> {
    if ps == [] then None
    else if ps[0].0 == key then Some(ps[0].1)
    else FirstNamed(ps[1..], key)
  }

  /** `reflect.StructTag.Lookup` on a rendered tag gives the value of the first pair with that name. */
  lemma {:induction false} LookupRender(ps: seq<(string, string)>, key: string)
    requires forall k :: 0 <= k < |ps| ==> WellFormedName(ps[k].0)
    ensures Lookup(Render(ps), key) == FirstNamed(ps, key)
  {
    LookupIsFirstNamed(Render(ps), key);
    EntriesOfRender(ps);
    FirstNamedRendered(ps, key);
  }

  lemma {:induction false} FirstNamedRendered(ps: seq<(string, string)>, key: string)
    ensures FirstNamedEntry(QuotedEntries(ps), key) == FirstNamed(ps, key)
  {
    if ps != [] {
      UnquoteQuote(ps[0].1);
      FirstNamedRendered(ps[1..], key);
      assert QuotedEntries(ps)[1..] == QuotedEntries(ps[1..]);
    }
  }

  /** Any two aliases listed by the first pair naming either of them find the same value. */
  lemma AliasesAgree(ps: seq<(string, string)>, i: nat, a: string, b: string)
    requires forall k :: 0 <= k < |ps| ==> WellFormedName(ps[k].0)
    requires i < |ps| && a in Aliases(ps[i].0) && b in Aliases(ps[i].0)
    requires forall k :: 0 <= k < i ==> a !in Aliases(ps[k].0) && b !in Aliases(ps[k].0)
    ensures FindTag(Render(ps), a) == Some(ps[i].1)
    ensures FindTag(Render(ps), b) == Some(ps[i].1)
  {
    FindTagRender(ps, a);
    FindTagRender(ps, b);
    FirstAliasAt(ps, i, a);
    FirstAliasAt(ps, i, b);
  }

  lemma {:induction false} FirstAliasAt(ps: seq<(string, string)>, i: nat, a: string)
    requires i < |ps| && a in Aliases(ps[i].0)
    requires forall k :: 0 <= k < i ==> a !in Aliases(ps[k].0)
    ensures FirstAlias(ps, a) == Some(ps[i].1)
  {
    if i > 0 {
      FirstAliasAt(ps[1..], i - 1, a);
    }
  }

  // ---------------------------------------------------------------------
  // The byte loop of tag.go

  /**
   `findTag` as tag.go writes it: a loop over the remaining tag that skips
   spaces, scans a name, scans a quoted value, then tries the aliases; the
   alias loop's `break` on an unquote failure abandons only this entry.
   */
  method ScanTag(tag: string, key: string) returns (value: string, ok: bool)
    ensures ok <==> FindTag(tag, key).Some?
    ensures value == GetTag(tag, key)
  {
    var t := tag;
    while t != []
      invariant FindTag(t, key) == FindTag(tag, key)
      decreases |t|
    {
      var t0 := t;
      var i := SkipSpaces(t);
      t := t[i..];
      if t == [] {
        assert NextEntry(t0) == Stop;
        break;
      }
      var t1 := t;
      i := ScanName(t);
      if i == 0 || i + 1 >= |t| || t[i] != ':' || t[i + 1] != '"' {
        assert NextEntry(t0) == EntryAt(t1) == Stop;
        break;
      }
      var name := t[..i];
      t := t[i + 1..];
      var t2 := t;
      i := ScanQuoted(t);
      if i >= |t| {
        assert NextEntry(t0) == ValueAt(name, t2) == Stop;
        break;
      }
      var qvalue := t[..i + 1];
      t := t[i + 1..];
      assert NextEntry(t0) == ValueAt(name, t2) == Next(Entry(name, qvalue), t);
      var listed := ListsAlias(name, key);
      if listed {
        var u := Unquote(qvalue);
        if u.Some? {
          return u.value, true;
        }
      }
    }
    return "", false;
  }

  /** The space-skipping loop of tag.go:17-19. */
  method SkipSpaces(t: string) returns (i: nat)
    ensures i == SpacePrefix(t)
  {
    i := 0;
    while i < |t| && t[i] == ' '
      invariant i <= |t|
      invariant forall k :: 0 <= k < i ==> t[k] == ' '
    {
      i := i + 1;
    }
  }

  /** The name-scanning loop of tag.go:29-32. */
  method ScanName(t: string) returns (i: nat)
    ensures i == NameLen(t)
  {
    i := 0;
    while i < |t| && t[i] > ' ' && t[i] != ':' && t[i] != '"' && t[i] as int != 0x7F
      invariant i <= |t|
      invariant forall k :: 0 <= k < i ==> NameChar(t[k])
    {
      i := i + 1;
    }
  }

  /** The quoted-value loop of tag.go:40-46: a backslash skips the next rune. */
  method ScanQuoted(t: string) returns (i: nat)
    requires |t| >= 1
    ensures i == QuoteEnd(t, 1)
  {
    i := 1;
    while i < |t| && t[i] != '"'
      invariant 1 <= i <= |t| + 1
      invariant QuoteEnd(t, i) == QuoteEnd(t, 1)
      decreases |t| + 1 - i
    {
      if t[i] == '\\' {
        i := i + 1;
      }
      i := i + 1;
    }
  }

  /** The alias loop of tag.go:53-54: does some comma-separated part, trimmed, equal `key`? */
  method ListsAlias(name: string, key: string) returns (listed: bool)
    ensures listed <==> key in Aliases(name)
  {
    var parts := Split(name, ',');
    var k := 0;
    while k < |parts|
      invariant k <= |parts|
      invariant forall m :: 0 <= m < k ==> key != TrimSpace(parts[m])
    {
      if key == TrimSpace(parts[k]) {
        assert Aliases(name)[k] == key;
        return true;
      }
      k := k + 1;
    }
    return false;
  }
}
