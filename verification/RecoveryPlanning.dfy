/** Bounded recovery from missing evidence: whether it can succeed, the fewest calls it takes, and which
    second plan is accepted. */
module RecoveryPlanning {
  import opened Wrappers
  import opened Plans

  // ------------------------------------------------------------------ what can be recovered

  function Dedupe(s: seq<string>): (r: seq<string>)
    ensures forall x :: x in r <==> x in s
  {
    if s == [] then [] else
      var before := Dedupe(s[..|s| - 1]);
      assert s == s[..|s| - 1] + [s[|s| - 1]];
      if s[|s| - 1] in s[..|s| - 1] then before else before + [s[|s| - 1]]
  }

  function SetOf<T>(s: seq<T>): set<T> { set x | x in s }

  function Unused(tools: seq<ToolDef>, used: set<string>): (r: seq<ToolDef>)
    ensures forall d :: d in r <==> d in tools && d.name !in used
  {
    if tools == [] then [] else (if tools[0].name in used then [] else [tools[0]]) + Unused(tools[1..], used)
  }

  /** The missing kinds without repeats, when every one is a requirement of the plan and some tool the
      plan did not use produces it. A kind naming a failed call carries a colon. */
  function RecoverableMissing(missing: seq<string>, effective: set<string>, calls: seq<ToolCall>, catalog: Catalog)
    : (r: Option<seq<string>>)
  {
    var kinds := Dedupe(missing);
    var unused := Unused(catalog.tools, CallTools(calls));
    if kinds == [] then None
    else if exists kind | kind in kinds :: ':' in kind || kind !in effective then None
    else if exists kind | kind in kinds :: (forall d | d in unused :: kind !in d.evidenceKinds) then None
    else Some(kinds)
  }

  /** What was seen first comes first, and once. */
  lemma {:induction false} DedupeKeepsFirst(a: seq<string>, b: seq<string>)
    ensures Dedupe(a) <= Dedupe(a + b) && forall i, j | 0 <= i < j < |Dedupe(a)| :: Dedupe(a)[i] != Dedupe(a)[j]
    decreases |a| + |b|, |b|
  {
    if b == [] {
      assert a + b == a;
      if a != [] { DedupeKeepsFirst(a[..|a| - 1], []); }
    } else {
      assert (a + b)[..|a + b| - 1] == a + b[..|b| - 1];
      DedupeKeepsFirst(a, b[..|b| - 1]);
    }
  }

  /** Recovery is possible exactly when something is missing and every missing kind is required, names no failed
      call, and is produced by a tool no call used; what is reported is what was missing. */
  lemma RecoverableExactly(missing: seq<string>, effective: set<string>, calls: seq<ToolCall>, catalog: Catalog)
    ensures var r := RecoverableMissing(missing, effective, calls, catalog);
      && (r.Some? <==>
            (missing != []
             && forall kind | kind in missing ::
                  ':' !in kind && kind in effective
                  && exists d :: d in catalog.tools && d.name !in CallTools(calls) && kind in d.evidenceKinds))
      && (r.Some? ==> forall kind :: kind in r.value <==> kind in missing)
  {
    var kinds := Dedupe(missing);
    assert kinds == [] <==> missing == [] by {
      if missing != [] { assert missing[0] in kinds; }
      if kinds != [] { assert kinds[0] in missing; }
    }
    hide CallTools;
  }

  // ------------------------------------------------------------------ the fewest calls that cover

  /** Selections of k items in order, as itertools.combinations lists them. */
  function Combinations<T>(s: seq<T>, k: nat): seq<seq<T>> {
    if k == 0 then [[]]
    else if s == [] then []
    else WithFirst(s[0], Combinations(s[1..], k - 1)) + Combinations(s[1..], k)
  }

  function WithFirst<T>(x: T, selections: seq<seq<T>>): seq<seq<T>> {
    if selections == [] then [] else [[x] + selections[0]] + WithFirst(x, selections[1..])
  }

  function Candidates(tools: seq<ToolDef>, missing: set<string>): (r: seq<ToolDef>)
    ensures forall d :: d in r <==> d in tools && d.evidenceKinds * missing != {}
  {
    if tools == [] then [] else
      (if tools[0].evidenceKinds * missing == {} then [] else [tools[0]]) + Candidates(tools[1..], missing)
  }

  function Union(selected: seq<ToolDef>, missing: set<string>): set<string> {
    if selected == [] then {} else selected[0].evidenceKinds * missing + Union(selected[1..], missing)
  }

  predicate SomeSelectionCovers(candidates: seq<ToolDef>, missing: set<string>, count: nat) {
    exists selected | selected in Combinations(candidates, count) :: missing <= Union(selected, missing)
  }

  function FirstCount(candidates: seq<ToolDef>, missing: set<string>, count: nat): Option<nat>
    decreases |candidates| + 1 - count
  {
    if count > |candidates| then None
    else if SomeSelectionCovers(candidates, missing, count) then Some(count)
    else FirstCount(candidates, missing, count + 1)
  }

  function MinimumRecoveryToolCalls(calls: seq<ToolCall>, catalog: Catalog, missing: set<string>): Option<nat> {
    FirstCount(Candidates(Unused(catalog.tools, CallTools(calls)), missing), missing, 1)
  }

  /** A set of tools that together produce everything missing: the mathematical notion the search is for. */
  ghost predicate Cover(chosen: set<ToolDef>, missing: set<string>) {
    forall kind | kind in missing :: exists d :: d in chosen && kind in d.evidenceKinds
  }

  ghost predicate Distinct<T>(s: seq<T>) { forall i, j | 0 <= i < j < |s| :: s[i] != s[j] }

  lemma {:induction false} InWithFirst<T>(x: T, selections: seq<seq<T>>, sel: seq<T>)
    ensures sel in WithFirst(x, selections) <==> sel != [] && sel[0] == x && sel[1..] in selections
  {
    if selections != [] {
      InWithFirst(x, selections[1..], sel);
      assert ([x] + selections[0])[1..] == selections[0];
      assert sel != [] && sel[0] == x && sel[1..] == selections[0] ==> sel == [x] + selections[0];
    }
  }

  lemma SetOfCons<T>(x: T, s: seq<T>)
    ensures SetOf([x] + s) == {x} + SetOf(s)
    ensures x in s <==> x in SetOf(s)
    ensures Distinct([x] + s) <==> Distinct(s) && x !in s
  {
    if Distinct([x] + s) {
      forall i, j | 0 <= i < j < |s| ensures s[i] != s[j] { assert ([x] + s)[i + 1] != ([x] + s)[j + 1]; }
      forall i | 0 <= i < |s| ensures s[i] != x { assert ([x] + s)[i + 1] != ([x] + s)[0]; }
    }
  }

  lemma {:induction false} SetOfDistinct<T>(s: seq<T>)
    requires Distinct(s)
    ensures |SetOf(s)| == |s|
  {
    if s == [] {
      assert SetOf(s) == {};
    } else {
      assert s == [s[0]] + s[1..];
      SetOfCons(s[0], s[1..]);
      SetOfDistinct(s[1..]);
    }
  }

  lemma InCombinations<T>(s: seq<T>, k: nat, sel: seq<T>)
    requires k > 0 && s != []
    ensures sel in Combinations(s, k) <==>
      (sel != [] && sel[0] == s[0] && sel[1..] in Combinations(s[1..], k - 1)) || sel in Combinations(s[1..], k)
  {
    InWithFirst(s[0], Combinations(s[1..], k - 1), sel);
  }

  /** Every selection is a choice of exactly k different items. */
  lemma {:induction false} SelectionIsChoice<T>(s: seq<T>, k: nat, sel: seq<T>)
    requires Distinct(s) && sel in Combinations(s, k)
    ensures |sel| == k && Distinct(sel) && SetOf(sel) <= SetOf(s)
  {
    if k == 0 {
      assert SetOf(sel) == {};
    } else if s != [] {
      var rest := s[1..];
      assert s == [s[0]] + rest;
      SetOfCons(s[0], rest);
      InCombinations(s, k, sel);
      hide SetOf, Distinct, Combinations;
      if sel !in Combinations(rest, k) {
        SelectionIsChoice(rest, k - 1, sel[1..]);
        assert sel == [s[0]] + sel[1..];
        SetOfCons(s[0], sel[1..]);
      } else {
        SelectionIsChoice(rest, k, sel);
      }
    }
  }

  lemma NothingChosen<T>(s: seq<T>)
    ensures [] in Combinations(s, 0) && SetOf<T>([]) == {}
  {}

  /** Every choice of k different items is listed. */
  lemma {:induction false} ChoiceIsSelected<T>(s: seq<T>, chosen: set<T>) returns (sel: seq<T>)
    requires Distinct(s) && chosen <= SetOf(s)
    ensures sel in Combinations(s, |chosen|) && SetOf(sel) == chosen
  {
    hide *;
    NothingChosen(s);
    if chosen == {} {
      sel := [];
    } else {
      assert s != [];
      var rest := s[1..];
      assert s == [s[0]] + rest;
      SetOfCons(s[0], rest);
      if s[0] in chosen {
        var fewer := chosen - {s[0]};
        var more := ChoiceIsSelected(rest, fewer);
        sel := [s[0]] + more;
        assert sel[1..] == more && |fewer| == |chosen| - 1;
        InCombinations(s, |chosen|, sel);
        SetOfCons(s[0], more);
        assert {s[0]} + fewer == chosen;
      } else {
        sel := ChoiceIsSelected(rest, chosen);
        InCombinations(s, |chosen|, sel);
      }
    }
  }

  lemma {:induction false} UnionMeansCover(selected: seq<ToolDef>, missing: set<string>)
    ensures forall kind :: kind in Union(selected, missing) <==>
      kind in missing && exists d :: d in selected && kind in d.evidenceKinds
  {
    if selected != [] {
      UnionMeansCover(selected[1..], missing);
      assert selected == [selected[0]] + selected[1..];
    }
  }

  lemma {:induction false} FirstCountIsFirst(candidates: seq<ToolDef>, missing: set<string>, count: nat)
    ensures var r := FirstCount(candidates, missing, count);
      && (r.Some? ==> count <= r.value <= |candidates| && SomeSelectionCovers(candidates, missing, r.value))
      && forall k | count <= k <= |candidates| && (r.None? || k < r.value) :: !SomeSelectionCovers(candidates, missing, k)
    decreases |candidates| + 1 - count
  {
    if count <= |candidates| && !SomeSelectionCovers(candidates, missing, count) {
      FirstCountIsFirst(candidates, missing, count + 1);
    }
  }

  lemma {:induction false} UnusedDistinct(tools: seq<ToolDef>, used: set<string>, missing: set<string>)
    requires Distinct(tools)
    ensures Distinct(Unused(tools, used)) && Distinct(Candidates(tools, missing))
  {
    if tools != [] {
      assert Distinct(tools[1..]);
      UnusedDistinct(tools[1..], used, missing);
      assert forall d | d in tools[1..] :: d != tools[0];
    }
  }

  /** Any cover by unused tools is at least as large as the first covering count, and one is listed. */
  lemma CoverIsFound(candidates: seq<ToolDef>, missing: set<string>, chosen: set<ToolDef>)
    requires Distinct(candidates) && missing != {} && Cover(chosen, missing)
    requires forall d | d in chosen && d.evidenceKinds * missing != {} :: d in candidates
    ensures FirstCount(candidates, missing, 1).Some? && FirstCount(candidates, missing, 1).value <= |chosen|
  {
    var useful := set d | d in chosen && d.evidenceKinds * missing != {};
    assert useful <= chosen && useful <= SetOf(candidates);
    SubsetSize(useful, chosen);
    SetOfDistinct(candidates);
    SubsetSize(useful, SetOf(candidates));
    var sel := ChoiceIsSelected(candidates, useful);
    UnionMeansCover(sel, missing);
    forall kind | kind in missing ensures kind in Union(sel, missing) {
      var d :| d in chosen && kind in d.evidenceKinds;
      assert kind in d.evidenceKinds * missing;
      assert d in useful && d in SetOf(sel);
    }
    assert useful != {} by {
      var kind :| kind in missing;
      var d :| d in chosen && kind in d.evidenceKinds;
      assert kind in d.evidenceKinds * missing;
      assert d in useful;
    }
    assert SomeSelectionCovers(candidates, missing, |useful|);
    FirstCountIsFirst(candidates, missing, 1);
  }

  lemma {:induction false} SubsetSize<T>(a: set<T>, b: set<T>)
    requires a <= b
    ensures |a| <= |b|
  {
    if a != {} {
      var x :| x in a;
      SubsetSize(a - {x}, b - {x});
    }
  }

  lemma RegisteredAreDistinct(catalog: Catalog)
    requires Registered(catalog)
    ensures Distinct(catalog.tools)
  {
    forall i, j | 0 <= i < j < |catalog.tools| ensures catalog.tools[i] != catalog.tools[j] {
      assert catalog.tools[i].name != catalog.tools[j].name;
    }
  }

  /** Tools the plan did not use that together produce everything missing. */
  ghost predicate RecoveryCover(chosen: set<ToolDef>, calls: seq<ToolCall>, catalog: Catalog, missing: set<string>) {
    && (forall d | d in chosen :: d in catalog.tools && d.name !in CallTools(calls))
    && Cover(chosen, missing)
  }

  lemma CandidatesFor(calls: seq<ToolCall>, catalog: Catalog, missing: set<string>) returns (candidates: seq<ToolDef>)
    requires Registered(catalog)
    ensures candidates == Candidates(Unused(catalog.tools, CallTools(calls)), missing) && Distinct(candidates)
    ensures MinimumRecoveryToolCalls(calls, catalog, missing) == FirstCount(candidates, missing, 1)
  {
    candidates := Candidates(Unused(catalog.tools, CallTools(calls)), missing);
    RegisteredAreDistinct(catalog);
    UnusedDistinct(catalog.tools, CallTools(calls), missing);
    UnusedDistinct(Unused(catalog.tools, CallTools(calls)), {}, missing);
  }

  /** No cover is smaller than the count the search returns, and any cover at all makes it return one. */
  lemma MinimumIsLeast(calls: seq<ToolCall>, catalog: Catalog, missing: set<string>, chosen: set<ToolDef>)
    requires Registered(catalog) && missing != {} && RecoveryCover(chosen, calls, catalog, missing)
    ensures var r := MinimumRecoveryToolCalls(calls, catalog, missing); r.Some? && 1 <= r.value <= |chosen|
  {
    hide Distinct, Registered, CallTools, FirstCount, SomeSelectionCovers, Cover;
    var candidates := CandidatesFor(calls, catalog, missing);
    CoverIsFound(candidates, missing, chosen);
    FirstCountIsFirst(candidates, missing, 1);
  }

  /** The count the search returns is reached by a cover of that many tools. */
  lemma MinimumIsReached(calls: seq<ToolCall>, catalog: Catalog, missing: set<string>) returns (chosen: set<ToolDef>)
    requires Registered(catalog) && missing != {} && MinimumRecoveryToolCalls(calls, catalog, missing).Some?
    ensures |chosen| == MinimumRecoveryToolCalls(calls, catalog, missing).value
    ensures RecoveryCover(chosen, calls, catalog, missing)
  {
    hide Distinct, Registered, CallTools, FirstCount, SomeSelectionCovers, Cover;
    var candidates := CandidatesFor(calls, catalog, missing);
    FirstCountIsFirst(candidates, missing, 1);
    chosen := CountHasCover(candidates, missing, FirstCount(candidates, missing, 1).value);
  }

  lemma CountHasCover(candidates: seq<ToolDef>, missing: set<string>, count: nat) returns (chosen: set<ToolDef>)
    requires Distinct(candidates) && SomeSelectionCovers(candidates, missing, count)
    ensures |chosen| == count && Cover(chosen, missing) && forall d | d in chosen :: d in candidates
  {
    hide Distinct;
    var sel :| sel in Combinations(candidates, count) && missing <= Union(sel, missing);
    hide Combinations, Union;
    SelectionIsChoice(candidates, count, sel);
    SetOfDistinct(sel);
    UnionMeansCover(sel, missing);
    chosen := SetOf(sel);
    forall kind | kind in missing ensures exists d :: d in chosen && kind in d.evidenceKinds {
      var d :| d in sel && kind in d.evidenceKinds;
      assert d in chosen;
    }
    assert forall d | d in chosen :: d in SetOf(candidates);
  }

  /** So recovery that is judged possible always has a producer cover. */
  lemma RecoverableHasCover(missing: seq<string>, effective: set<string>, calls: seq<ToolCall>, catalog: Catalog)
    requires Registered(catalog)
    requires RecoverableMissing(missing, effective, calls, catalog).Some?
    ensures SetOf(RecoverableMissing(missing, effective, calls, catalog).value) == SetOf(missing) != {}
    ensures MinimumRecoveryToolCalls(calls, catalog, SetOf(missing)).Some?
  {
    var kinds := RecoverableMissing(missing, effective, calls, catalog).value;
    assert kinds[0] in SetOf(missing);
    var all := set d | d in catalog.tools && d.name !in CallTools(calls);
    forall kind | kind in SetOf(missing) ensures exists d :: d in all && kind in d.evidenceKinds {
      assert kind in kinds;
      var d :| d in Unused(catalog.tools, CallTools(calls)) && kind in d.evidenceKinds;
      assert d in all;
    }
    hide RecoverableMissing, Registered, CallTools, MinimumRecoveryToolCalls;
    assert RecoveryCover(all, calls, catalog, SetOf(missing));
    MinimumIsLeast(calls, catalog, SetOf(missing), all);
  }
}
