/** The display aliases of upgrade values: a strict two-pass map, exact field names before derived ones. */
module ValueAliases {
  import opened Wrappers

  datatype Field = Field(name: string, rendered: string)

  type Aliases = map<string, string>

  function LowerChar(c: char): char {
    if 'A' <= c <= 'Z' then (c as int + 32) as char else c
  }

  function Lower(s: string): string { seq(|s|, i requires 0 <= i < |s| => LowerChar(s[i])) }

  function WithoutUnderscores(s: string): string {
    if s == "" then "" else (if s[0] == '_' then "" else [s[0]]) + WithoutUnderscores(s[1..])
  }

  /** The spellings a placeholder may use for a field: its own, in lower case, and without underscores. */
  function AliasesOf(name: string): seq<string> { [name, Lower(name), Lower(WithoutUnderscores(name))] }

  function Derived(f: Field): Field { Field("bonus_" + f.name, f.rendered) }

  ghost predicate Claims(f: Field, alias: string) { alias in AliasesOf(f.name) }

  ghost predicate ExactlyClaimed(fields: seq<Field>, alias: string) { exists f :: f in fields && Claims(f, alias) }

  /** Two real fields that disagree on an alias. */
  ghost predicate ExactClash(fields: seq<Field>) {
    exists f, g, alias :: f in fields && g in fields && Claims(f, alias) && Claims(g, alias) && f.rendered != g.rendered
  }

  /** Two derived names that disagree on an alias no real field claims. */
  ghost predicate DerivedClash(fields: seq<Field>) {
    exists f, g, alias :: f in fields && g in fields && Claims(Derived(f), alias) && Claims(Derived(g), alias)
      && !ExactlyClaimed(fields, alias) && f.rendered != g.rendered
  }

  /** Every exact alias maps to its field's value; a derived alias counts only where no field claims it. */
  ghost predicate IsAliasMap(m: Aliases, fields: seq<Field>) {
    && (forall f, alias | f in fields && Claims(f, alias) :: alias in m && m[alias] == f.rendered)
    && (forall f, alias | f in fields && Claims(Derived(f), alias) && !ExactlyClaimed(fields, alias) ::
          alias in m && m[alias] == f.rendered)
    && (forall alias | alias in m :: exists f :: f in fields && (Claims(f, alias) || Claims(Derived(f), alias)))
  }

  ghost predicate SameFields(a: seq<Field>, b: seq<Field>) { forall f :: f in a <==> f in b }

  /** The order of the fields decides nothing: not whether it fails, and not the map. */
  lemma OrderDoesNotMatter(a: seq<Field>, b: seq<Field>, m: Aliases, n: Aliases)
    requires SameFields(a, b)
    ensures ExactClash(a) == ExactClash(b) && DerivedClash(a) == DerivedClash(b)
    ensures IsAliasMap(m, a) && IsAliasMap(n, b) ==> m == n
  {
    hide AliasesOf;
    assert forall alias :: ExactlyClaimed(a, alias) == ExactlyClaimed(b, alias);
    if IsAliasMap(m, a) && IsAliasMap(n, b) {
      MapIsDetermined(a, b, m, n);
      MapIsDetermined(b, a, n, m);
    }
  }

  lemma MapIsDetermined(a: seq<Field>, b: seq<Field>, m: Aliases, n: Aliases)
    requires SameFields(a, b) && IsAliasMap(m, a) && IsAliasMap(n, b)
    ensures forall alias | alias in m :: alias in n && n[alias] == m[alias]
  {
    hide IsAliasMap;
    forall alias | alias in m ensures alias in n && n[alias] == m[alias] {
      var f := Claimant(a, m, alias);
      assert ExactlyClaimed(b, alias) <==> ExactlyClaimed(a, alias);
      ClaimantDecides(b, n, f, alias);
    }
  }

  lemma Claimant(fields: seq<Field>, m: Aliases, alias: string) returns (f: Field)
    requires IsAliasMap(m, fields) && alias in m
    ensures f in fields && m[alias] == f.rendered
    ensures Claims(f, alias) || (Claims(Derived(f), alias) && !ExactlyClaimed(fields, alias))
  {
    hide AliasesOf;
    if ExactlyClaimed(fields, alias) {
      f :| f in fields && Claims(f, alias);
    } else {
      f :| f in fields && (Claims(f, alias) || Claims(Derived(f), alias));
    }
  }

  lemma ClaimantDecides(fields: seq<Field>, m: Aliases, f: Field, alias: string)
    requires IsAliasMap(m, fields) && f in fields
    requires Claims(f, alias) || (Claims(Derived(f), alias) && !ExactlyClaimed(fields, alias))
    ensures alias in m && m[alias] == f.rendered
  {
    hide AliasesOf;
  }

  /** None when the alias already has another value. */
  method StoreStrict(output: Aliases, alias: string, value: string) returns (r: Option<Aliases>)
    ensures r == if alias in output && output[alias] != value then None else Some(output[alias := value])
  {
    if alias in output && output[alias] != value { return None; }
    return Some(output[alias := value]);
  }

  // ------------------------------------------------------------------ one pass

  /** What a pass over names and values does to a map: skipped aliases stay as they are, the others must
      agree with each other and with what is there. */
  ghost predicate Agree(start: Aliases, named: seq<Field>, skipped: set<string>) {
    && (forall f, alias | f in named && Claims(f, alias) && alias !in skipped && alias in start :: start[alias] == f.rendered)
    && (forall f, g, alias | f in named && g in named && Claims(f, alias) && Claims(g, alias) && alias !in skipped ::
          f.rendered == g.rendered)
  }

  ghost predicate Added(start: Aliases, named: seq<Field>, skipped: set<string>, m: Aliases) {
    && (forall alias | alias in start :: alias in m && m[alias] == start[alias])
    && (forall f, alias | f in named && Claims(f, alias) && alias !in skipped :: alias in m && m[alias] == f.rendered)
    && (forall alias | alias in m && alias !in start :: alias !in skipped && exists f :: f in named && Claims(f, alias))
  }

  method StoreField(start: Aliases, f: Field, skipped: set<string>) returns (r: Option<Aliases>)
    ensures r.Some? <==> forall alias | Claims(f, alias) && alias !in skipped && alias in start :: start[alias] == f.rendered
    ensures r.Some? ==> Added(start, [f], skipped, r.value)
  {
    var output := start;
    var aliases := AliasesOf(f.name);
    for i := 0 to |aliases|
      invariant forall alias | alias in start :: alias in output && output[alias] == start[alias]
      invariant forall k | 0 <= k < i && aliases[k] !in skipped :: aliases[k] in output && output[aliases[k]] == f.rendered
      invariant forall alias | alias in output && alias !in start :: alias !in skipped && output[alias] == f.rendered && alias in aliases[..i]
    {
      if aliases[i] !in skipped {
        var stored := StoreStrict(output, aliases[i], f.rendered);
        if stored.None? {
          assert Claims(f, aliases[i]);
          return None;
        }
        output := stored.value;
      }
    }
    forall alias | Claims(f, alias) && alias !in skipped ensures alias in output && output[alias] == f.rendered {
      var k :| 0 <= k < |aliases| && aliases[k] == alias;
    }
    assert f in [f];
    return Some(output);
  }

  lemma AddedThenAdded(start: Aliases, before: seq<Field>, f: Field, skipped: set<string>, m: Aliases, n: Aliases)
    requires Added(start, before, skipped, m) && Added(m, [f], skipped, n)
    ensures Added(start, before + [f], skipped, n)
  {
    assert forall g | g in before + [f] :: g in before || g in [f];
    forall alias | alias in n && alias !in start
      ensures alias !in skipped && exists g :: g in before + [f] && Claims(g, alias)
    {
      if alias in m {
        var g :| g in before && Claims(g, alias);
        assert g in before + [f];
      } else {
        assert f in before + [f];
      }
    }
  }

  /** Nothing clashes before the field, so a clash with it is a clash of the pass. */
  lemma AgreeOneMore(start: Aliases, before: seq<Field>, f: Field, skipped: set<string>, m: Aliases)
    requires Agree(start, before, skipped) && Added(start, before, skipped, m)
    ensures Agree(start, before + [f], skipped) <==>
            forall alias | Claims(f, alias) && alias !in skipped && alias in m :: m[alias] == f.rendered
  {
    assert f in before + [f];
    if Agree(start, before + [f], skipped) {
      forall alias | Claims(f, alias) && alias !in skipped && alias in m ensures m[alias] == f.rendered {
        if alias !in start {
          var g :| g in before && Claims(g, alias);
          assert g in before + [f];
        }
      }
    }
  }

  method StorePass(start: Aliases, named: seq<Field>, skipped: set<string>) returns (r: Option<Aliases>)
    ensures r.Some? <==> Agree(start, named, skipped)
    ensures r.Some? ==> Added(start, named, skipped, r.value)
  {
    hide Added, Agree, Claims;
    var output := start;
    PassStarts(start, skipped);
    for i := 0 to |named|
      invariant Agree(start, named[..i], skipped) && Added(start, named[..i], skipped, output)
    {
      assert named[..i + 1] == named[..i] + [named[i]];
      AgreeOneMore(start, named[..i], named[i], skipped, output);
      var stored := StoreField(output, named[i], skipped);
      if stored.None? {
        DisagreePrefix(start, named, i + 1, skipped);
        return None;
      }
      AddedThenAdded(start, named[..i], named[i], skipped, output, stored.value);
      output := stored.value;
    }
    assert named[..|named|] == named;
    return Some(output);
  }

  lemma PassStarts(start: Aliases, skipped: set<string>)
    ensures Agree(start, [], skipped) && Added(start, [], skipped, start)
  {}

  lemma DisagreePrefix(start: Aliases, named: seq<Field>, n: nat, skipped: set<string>)
    requires n <= |named| && !Agree(start, named[..n], skipped)
    ensures !Agree(start, named, skipped)
  {
    assert forall f | f in named[..n] :: f in named;
  }

  // ------------------------------------------------------------------ both passes

  function DerivedFields(fields: seq<Field>): (r: seq<Field>)
    ensures |r| == |fields| && forall i | 0 <= i < |fields| :: r[i] == Derived(fields[i])
  {
    seq(|fields|, i requires 0 <= i < |fields| => Derived(fields[i]))
  }

  lemma ExactPassMeans(fields: seq<Field>, exact: Aliases)
    requires Agree(map[], fields, {}) && Added(map[], fields, {}, exact)
    ensures !ExactClash(fields) && forall alias :: alias in exact <==> ExactlyClaimed(fields, alias)
  {}

  lemma NoAgreementIsClash(fields: seq<Field>)
    requires !Agree(map[], fields, {})
    ensures ExactClash(fields)
  {}

  lemma DerivedPassMeans(fields: seq<Field>, exact: Aliases)
    requires Added(map[], fields, {}, exact) && forall alias :: alias in exact <==> ExactlyClaimed(fields, alias)
    ensures Agree(exact, DerivedFields(fields), exact.Keys) <==> !DerivedClash(fields)
  {
    hide AliasesOf;
    var derived := DerivedFields(fields);
    if Agree(exact, derived, exact.Keys) && DerivedClash(fields) {
      var f, g, alias :| f in fields && g in fields && Claims(Derived(f), alias) && Claims(Derived(g), alias)
        && !ExactlyClaimed(fields, alias) && f.rendered != g.rendered;
      DerivedIsIn(fields, f);
      DerivedIsIn(fields, g);
      assert false;
    }
    if !DerivedClash(fields) {
      forall f, g, alias | f in derived && g in derived && Claims(f, alias) && Claims(g, alias) && alias !in exact.Keys
        ensures f.rendered == g.rendered
      {
        var i :| 0 <= i < |derived| && derived[i] == f;
        var j :| 0 <= j < |derived| && derived[j] == g;
        assert fields[i] in fields && fields[j] in fields && !ExactlyClaimed(fields, alias);
        assert Claims(Derived(fields[i]), alias) && Claims(Derived(fields[j]), alias);
      }
    }
  }

  lemma DerivedIsIn(fields: seq<Field>, f: Field)
    requires f in fields
    ensures Derived(f) in DerivedFields(fields)
  {
    var i :| 0 <= i < |fields| && fields[i] == f;
    assert DerivedFields(fields)[i] == Derived(f);
  }

  lemma BothPassesMakeTheMap(fields: seq<Field>, exact: Aliases, m: Aliases)
    requires Added(map[], fields, {}, exact) && (forall alias :: alias in exact <==> ExactlyClaimed(fields, alias))
    requires Added(exact, DerivedFields(fields), exact.Keys, m)
    ensures IsAliasMap(m, fields)
  {
    hide AliasesOf;
    var derived := DerivedFields(fields);
    forall f, alias | f in fields && Claims(Derived(f), alias) && !ExactlyClaimed(fields, alias)
      ensures alias in m && m[alias] == f.rendered
    {
      DerivedIsIn(fields, f);
      assert Derived(f) in derived && alias !in exact.Keys;
    }
    forall alias | alias in m ensures exists f :: f in fields && (Claims(f, alias) || Claims(Derived(f), alias)) {
      if alias !in exact {
        var d :| d in derived && Claims(d, alias);
        var i :| 0 <= i < |derived| && derived[i] == d;
        assert fields[i] in fields && Claims(Derived(fields[i]), alias);
      } else {
        assert ExactlyClaimed(fields, alias);
      }
    }
  }

  /** Fails exactly when two real fields disagree, or two derived names do on an alias no real field claims;
      otherwise returns the one map the fields determine. */
  method UpgradeValueAliasMap(fields: seq<Field>) returns (r: Option<Aliases>)
    ensures r.None? <==> ExactClash(fields) || DerivedClash(fields)
    ensures r.Some? ==> IsAliasMap(r.value, fields)
  {
    hide Added, Agree, ExactClash, DerivedClash, IsAliasMap, ExactlyClaimed;
    var exact := StorePass(map[], fields, {});
    if exact.None? {
      NoAgreementIsClash(fields);
      return None;
    }
    ExactPassMeans(fields, exact.value);
    DerivedPassMeans(fields, exact.value);
    r := StorePass(exact.value, DerivedFields(fields), exact.value.Keys);
    if r.Some? { BothPassesMakeTheMap(fields, exact.value, r.value); }
  }
}
