/** The recent-dialogue window: how it is built from the authoritative turns, when extending it agrees with
    rebuilding it, and what its cache can hold under any interleaving of loads, commits and store failures. */
module DialogueWindow {
  import opened Wrappers

  datatype Turn = Turn(index: nat, user: string, assistant: string)

  /** `truncatedBefore` is recomputed from whatever turns the builder was given, so it is not part of what
      two windows must share. */
  datatype Window = Window(through: nat, truncatedBefore: bool, turns: seq<Turn>)

  predicate SameDialogue(a: Window, b: Window) { a.through == b.through && a.turns == b.turns }

  const MARKER := "\n[\U{5185}\U{5bb9}\U{5df2}\U{622a}\U{65ad}]"

  function Min(a: int, b: int): int { if a < b then a else b }

  function Max(a: int, b: int): int { if a < b then b else a }

  function Cost(t: Turn): nat { |t.user| + |t.assistant| }

  function Total(turns: seq<Turn>): nat {
    if turns == [] then 0 else Total(turns[..|turns| - 1]) + Cost(turns[|turns| - 1])
  }

  // ------------------------------------------------------------------ truncation

  /** A text within the limit stays; a cut one has exactly the allowed length, and is its own beginning and the
      marker, or as much of the marker as there is room for. */
  function Truncate(text: string, limit: int): (r: string)
    ensures |r| == Min(|text|, Max(limit, 0))
    ensures |text| <= limit ==> r == text
    ensures |text| > limit && limit <= |MARKER| ==> r <= MARKER
    ensures |text| > limit > |MARKER| ==> r[limit - |MARKER|..] == MARKER && r[..limit - |MARKER|] == text[..limit - |MARKER|]
  {
    if limit <= 0 then ""
    else if |text| <= limit then text
    else if limit <= |MARKER| then MARKER[..limit]
    else text[..limit - |MARKER|] + MARKER
  }

  function TruncateTurn(t: Turn, maxChars: nat): Turn {
    var userBudget := Min(|t.user|, Max(1, maxChars / 3));
    var assistantBudget := Max(1, maxChars - userBudget);
    Turn(t.index, Truncate(t.user, userBudget), Truncate(t.assistant, assistantBudget))
  }

  /** The question gets a third, at least one character, and the answer all that the question leaves, at least one. */
  ghost predicate CutByShares(t: Turn, r: Turn, maxChars: nat) {
    && r.index == t.index
    && |r.user| == Min(|t.user|, Max(1, maxChars / 3)) && |r.assistant| == Min(|t.assistant|, Max(1, maxChars - |r.user|))
    && (|t.user| <= maxChars / 3 ==> r.user == t.user)
    && (|t.assistant| <= maxChars - |r.user| ==> r.assistant == t.assistant)
  }

  lemma TruncatedByShares(t: Turn, maxChars: nat)
    ensures CutByShares(t, TruncateTurn(t, maxChars), maxChars)
  {}

  /** An oversized turn is cut to fit, except under a budget of one character with both messages present. */
  lemma TruncatedTurnFits(t: Turn, maxChars: nat)
    requires maxChars >= 1 && Cost(t) > maxChars
    ensures Cost(TruncateTurn(t, maxChars)) <= maxChars <==> !(maxChars == 1 && t.user != "" && t.assistant != "")
  {}

  // ------------------------------------------------------------------ building

  function InsertTurn(t: Turn, sorted: seq<Turn>): seq<Turn> {
    if sorted == [] || sorted[|sorted| - 1].index <= t.index then sorted + [t]
    else InsertTurn(t, sorted[..|sorted| - 1]) + [sorted[|sorted| - 1]]
  }

  /** Stable, by turn index. */
  function SortTurns(turns: seq<Turn>): seq<Turn> {
    if turns == [] then [] else InsertTurn(turns[|turns| - 1], SortTurns(turns[..|turns| - 1]))
  }

  predicate Ascending(turns: seq<Turn>) { forall i, j | 0 <= i < j < |turns| :: turns[i].index < turns[j].index }

  lemma BeginningAscends(turns: seq<Turn>)
    requires Ascending(turns) && turns != []
    ensures var before := turns[..|turns| - 1];
      Ascending(before) && (before == [] || before[|before| - 1].index < turns[|turns| - 1].index)
  {}

  lemma InsertLast(t: Turn, sorted: seq<Turn>)
    requires sorted == [] || sorted[|sorted| - 1].index <= t.index
    ensures InsertTurn(t, sorted) == sorted + [t]
  {}

  lemma {:induction false} SortedStays(turns: seq<Turn>)
    requires Ascending(turns)
    ensures SortTurns(turns) == turns
  {
    hide Ascending, InsertTurn;
    if turns != [] {
      var before, last := turns[..|turns| - 1], turns[|turns| - 1];
      BeginningAscends(turns);
      SortedStays(before);
      InsertLast(last, before);
      assert turns == before + [last];
    }
  }

  /** The turns with this index, in their order. */
  function WithIndex(turns: seq<Turn>, index: nat): seq<Turn> {
    if turns == [] then [] else
      WithIndex(turns[..|turns| - 1], index) + if turns[|turns| - 1].index == index then [turns[|turns| - 1]] else []
  }

  predicate InIndexOrder(turns: seq<Turn>) { forall i, j | 0 <= i < j < |turns| :: turns[i].index <= turns[j].index }

  lemma WithIndexSnoc(turns: seq<Turn>, t: Turn, index: nat)
    ensures WithIndex(turns + [t], index) == WithIndex(turns, index) + if t.index == index then [t] else []
  {
    assert (turns + [t])[..|turns|] == turns;
  }

  lemma {:induction false} InsertSorts(t: Turn, sorted: seq<Turn>)
    requires InIndexOrder(sorted)
    ensures InIndexOrder(InsertTurn(t, sorted)) && |InsertTurn(t, sorted)| == |sorted| + 1
    ensures forall x | x in InsertTurn(t, sorted) :: x == t || x in sorted
  {
    if sorted != [] && sorted[|sorted| - 1].index > t.index {
      var before, last := sorted[..|sorted| - 1], sorted[|sorted| - 1];
      InsertSorts(t, before);
      var inserted := InsertTurn(t, before);
      forall i | 0 <= i < |inserted| ensures inserted[i].index <= last.index {
        assert inserted[i] in inserted;
      }
    }
  }

  lemma {:induction false} InsertIsStable(t: Turn, sorted: seq<Turn>, index: nat)
    ensures WithIndex(InsertTurn(t, sorted), index) == WithIndex(sorted + [t], index)
  {
    if sorted != [] && sorted[|sorted| - 1].index > t.index {
      var before, last := sorted[..|sorted| - 1], sorted[|sorted| - 1];
      InsertIsStable(t, before, index);
      assert sorted == before + [last];
      WithIndexSnoc(InsertTurn(t, before), last, index);
      WithIndexSnoc(before, t, index);
      WithIndexSnoc(before, last, index);
      WithIndexSnoc(sorted, t, index);
    }
  }

  lemma NothingToSort()
    ensures InIndexOrder([])
  {}

  /** Sorting is by turn index, keeps every turn and, among turns with one index, their order. */
  lemma {:induction false} SortingIsStable(turns: seq<Turn>, index: nat)
    ensures InIndexOrder(SortTurns(turns)) && |SortTurns(turns)| == |turns|
    ensures WithIndex(SortTurns(turns), index) == WithIndex(turns, index)
  {
    hide InsertTurn, InIndexOrder;
    if turns == [] {
      assert InIndexOrder([]) by { NothingToSort(); }
    } else {
      var before, last := turns[..|turns| - 1], turns[|turns| - 1];
      SortingIsStable(before, index);
      InsertSorts(last, SortTurns(before));
      InsertIsStable(last, SortTurns(before), index);
      WithIndexSnoc(SortTurns(before), last, index);
      WithIndexSnoc(before, last, index);
      assert turns == before + [last];
    }
  }

  /** The newest turns that still fit next to what is used. */
  function Keep(ordered: seq<Turn>, used: nat, maxChars: nat): seq<Turn> {
    if ordered == [] then [] else
      var newest := ordered[|ordered| - 1];
      if used + Cost(newest) > maxChars then []
      else Keep(ordered[..|ordered| - 1], used + Cost(newest), maxChars) + [newest]
  }

  function KeptTurns(ordered: seq<Turn>, maxChars: nat): seq<Turn> {
    if ordered != [] && Cost(ordered[|ordered| - 1]) > maxChars then [TruncateTurn(ordered[|ordered| - 1], maxChars)]
    else Keep(ordered, 0, maxChars)
  }

  function Through(kept: seq<Turn>): nat { if kept == [] then 0 else kept[|kept| - 1].index }

  function WindowOf(ordered: seq<Turn>, kept: seq<Turn>): Window { Window(Through(kept), |kept| < |ordered|, kept) }

  function Build(turns: seq<Turn>, maxChars: nat): Window {
    var ordered := SortTurns(turns);
    WindowOf(ordered, KeptTurns(ordered, maxChars))
  }

  /** The turns from i on are kept and cost `used`; what is left to decide is about the older ones. */
  ghost predicate KeptFrom(ordered: seq<Turn>, i: nat, used: nat, maxChars: nat) {
    i <= |ordered| && Keep(ordered, 0, maxChars) == Keep(ordered[..i], used, maxChars) + ordered[i..]
  }

  lemma KeepStarts(ordered: seq<Turn>, maxChars: nat)
    ensures KeptFrom(ordered, |ordered|, 0, maxChars)
  {
    assert ordered[..|ordered|] == ordered;
  }

  lemma KeepStep(ordered: seq<Turn>, i: nat, used: nat, maxChars: nat)
    requires KeptFrom(ordered, i, used, maxChars) && i > 0
    ensures used + Cost(ordered[i - 1]) > maxChars ==> Keep(ordered, 0, maxChars) == ordered[i..]
    ensures used + Cost(ordered[i - 1]) <= maxChars ==> KeptFrom(ordered, i - 1, used + Cost(ordered[i - 1]), maxChars)
  {
    hide Cost;
    var turn := ordered[i - 1];
    assert ordered[..i][..i - 1] == ordered[..i - 1];
    if used + Cost(turn) <= maxChars {
      var older := Keep(ordered[..i - 1], used + Cost(turn), maxChars);
      assert ordered[i - 1..] == [turn] + ordered[i..];
      assert (older + [turn]) + ordered[i..] == older + ordered[i - 1..];
    }
  }

  lemma KeepEnds(ordered: seq<Turn>, used: nat, maxChars: nat)
    requires KeptFrom(ordered, 0, used, maxChars)
    ensures Keep(ordered, 0, maxChars) == ordered[0..]
  {}

  /** The newest turn alone is too long, or it is not. */
  lemma KeptCases(ordered: seq<Turn>, maxChars: nat)
    ensures ordered != [] && Cost(ordered[|ordered| - 1]) > maxChars ==>
              KeptTurns(ordered, maxChars) == [TruncateTurn(ordered[|ordered| - 1], maxChars)]
    ensures ordered == [] || Cost(ordered[|ordered| - 1]) <= maxChars ==> KeptTurns(ordered, maxChars) == Keep(ordered, 0, maxChars)
  {}

  method BuildRecentDialogueWindow(turns: seq<Turn>, maxChars: int) returns (r: Option<Window>)
    ensures r == if maxChars < 1 then None else Some(Build(turns, maxChars))
  {
    hide SortTurns, TruncateTurn, Keep, KeptFrom, Cost, KeptTurns, WindowOf;
    if maxChars < 1 { return None; }
    var ordered := SortTurns(turns);
    var kept: seq<Turn> := [];
    var used: nat, i: nat := 0, |ordered|;
    KeptCases(ordered, maxChars);
    KeepStarts(ordered, maxChars);
    while i > 0
      invariant i <= |ordered| && kept == ordered[i..]
      invariant i == |ordered| ==> used == 0
      invariant i < |ordered| ==> Cost(ordered[|ordered| - 1]) <= maxChars
      invariant KeptFrom(ordered, i, used, maxChars)
    {
      var turn := ordered[i - 1];
      var cost := Cost(turn);
      KeepStep(ordered, i, used, maxChars);
      if kept != [] && used + cost > maxChars {
        return Some(WindowOf(ordered, kept));
      }
      if kept == [] && cost > maxChars {
        kept := [TruncateTurn(turn, maxChars)];
        return Some(WindowOf(ordered, kept));
      }
      kept := [turn] + kept;
      used := used + cost;
      i := i - 1;
    }
    KeepEnds(ordered, used, maxChars);
    return Some(WindowOf(ordered, kept));
  }

  // ------------------------------------------------------------------ what the window holds

  lemma {:induction false} TotalConcat(a: seq<Turn>, b: seq<Turn>)
    ensures Total(a + b) == Total(a) + Total(b)
  {
    if b == [] {
      assert a + b == a;
    } else {
      assert (a + b)[..|a + b| - 1] == a + b[..|b| - 1];
      TotalConcat(a, b[..|b| - 1]);
    }
  }

  lemma TotalSnoc(turns: seq<Turn>, t: Turn)
    ensures Total(turns + [t]) == Total(turns) + Cost(t)
  {
    assert (turns + [t])[..|turns|] == turns;
  }

  /** Keep returns the longest suffix that fits: it fits, and no longer one does. */
  lemma {:induction false} KeepIsLongestSuffix(ordered: seq<Turn>, used: nat, maxChars: nat)
    ensures var kept := Keep(ordered, used, maxChars);
      && |kept| <= |ordered| && kept == ordered[|ordered| - |kept|..]
      && (used <= maxChars ==> used + Total(kept) <= maxChars)
      && forall j | 0 <= j < |ordered| - |kept| :: used + Total(ordered[j..]) > maxChars
  {
    hide Total, Cost;
    if ordered == [] {
      assert Total([]) == 0 by { NothingCosts(); }
    } else {
      var n := |ordered| - 1;
      var before, newest := ordered[..n], ordered[n];
      var kept := Keep(ordered, used, maxChars);
      if used + Cost(newest) > maxChars {
        assert Total([]) == 0 by { NothingCosts(); }
        forall j | 0 <= j <= n ensures used + Total(ordered[j..]) > maxChars {
          assert ordered[j..] == ordered[j..n] + [newest];
          TotalSnoc(ordered[j..n], newest);
        }
      } else {
        var rest := Keep(before, used + Cost(newest), maxChars);
        KeepIsLongestSuffix(before, used + Cost(newest), maxChars);
        TotalSnoc(rest, newest);
        forall j | 0 <= j < |ordered| - |kept| ensures used + Total(ordered[j..]) > maxChars {
          assert ordered[j..] == before[j..] + [newest];
          TotalSnoc(before[j..], newest);
        }
      }
    }
  }

  lemma NothingCosts()
    ensures Total([]) == 0
  {}

  /** When the newest turn fits, the window is the longest suffix of whole turns within the budget. */
  lemma WindowIsLongestSuffix(turns: seq<Turn>, maxChars: nat)
    requires Ascending(turns) && (turns != [] ==> Cost(turns[|turns| - 1]) <= maxChars)
    ensures var w := Build(turns, maxChars);
      && |w.turns| <= |turns| && w.turns == turns[|turns| - |w.turns|..] && Total(w.turns) <= maxChars
      && (forall j | 0 <= j < |turns| - |w.turns| :: Total(turns[j..]) > maxChars)
      && w.through == Through(turns)
      && (w.truncatedBefore <==> |w.turns| < |turns|)
  {
    SortedStays(turns);
    KeepIsLongestSuffix(turns, 0, maxChars);
  }

  /** When the newest turn alone is too long, the window is that turn, cut, and nothing else. */
  lemma WindowOfOversizedTurn(turns: seq<Turn>, maxChars: nat)
    requires Ascending(turns) && turns != [] && Cost(turns[|turns| - 1]) > maxChars
    ensures var w, newest := Build(turns, maxChars), turns[|turns| - 1];
      && |w.turns| == 1 && CutByShares(newest, w.turns[0], maxChars)
      && w.through == newest.index && (w.truncatedBefore <==> |turns| > 1)
  {
    hide TruncateTurn;
    SortedStays(turns);
    TruncatedByShares(turns[|turns| - 1], maxChars);
  }

  /** With a budget of at least two characters the kept text never exceeds it, cut turns included. */
  lemma WindowFits(turns: seq<Turn>, maxChars: nat)
    requires maxChars >= 2
    ensures Total(Build(turns, maxChars).turns) <= maxChars
  {
    var ordered := SortTurns(turns);
    if ordered != [] && Cost(ordered[|ordered| - 1]) > maxChars {
      var cut := TruncateTurn(ordered[|ordered| - 1], maxChars);
      TruncatedTurnFits(ordered[|ordered| - 1], maxChars);
      assert Total([cut]) == Total([]) + Cost(cut);
    } else {
      KeepIsLongestSuffix(ordered, 0, maxChars);
    }
  }

  /** A budget of one character is exceeded by any turn with two messages. */
  lemma OneCharacterIsExceeded()
    ensures var t := Turn(1, "a", "b"); Total(Build([t], 1).turns) == 2
  {
    var t := Turn(1, "a", "b");
    assert [t][..0] == [] && SortTurns([t]) == [t];
    var cut := TruncateTurn(t, 1);
    assert cut == t;
    assert Total([cut]) == Total([]) + Cost(cut);
  }

  // ------------------------------------------------------------------ extending against rebuilding

  /** The older turn was cut, and what is left of it fits next to the new turn. */
  predicate CutTurnStillFits(turns: seq<Turn>, turn: Turn, maxChars: nat) {
    turns != []
    && Cost(turns[|turns| - 1]) > maxChars
    && Cost(turn) + Cost(TruncateTurn(turns[|turns| - 1], maxChars)) <= maxChars
  }

  lemma {:induction false} KeepOfKept(ordered: seq<Turn>, low: nat, high: nat, maxChars: nat)
    requires low <= high
    ensures Keep(Keep(ordered, low, maxChars), high, maxChars) == Keep(ordered, high, maxChars)
  {
    hide Cost;
    if ordered != [] {
      var n := |ordered| - 1;
      var newest := ordered[n];
      if low + Cost(newest) <= maxChars {
        var kept := Keep(ordered, low, maxChars);
        assert kept[..|kept| - 1] == Keep(ordered[..n], low + Cost(newest), maxChars);
        KeepOfKept(ordered[..n], low + Cost(newest), high + Cost(newest), maxChars);
      }
    }
  }

  lemma KeepSnoc(ordered: seq<Turn>, turn: Turn, maxChars: nat)
    requires Cost(turn) <= maxChars
    ensures KeptTurns(ordered + [turn], maxChars) == Keep(ordered, Cost(turn), maxChars) + [turn]
  {
    assert (ordered + [turn])[..|ordered|] == ordered;
  }

  lemma OversizedSnoc(ordered: seq<Turn>, turn: Turn, maxChars: nat)
    requires Cost(turn) > maxChars
    ensures KeptTurns(ordered + [turn], maxChars) == [TruncateTurn(turn, maxChars)]
  {}

  /** A cut turn beside a new one that fits. */
  lemma KeepOfCut(cut: Turn, used: nat, maxChars: nat)
    ensures Keep([cut], used, maxChars) == if used + Cost(cut) > maxChars then [] else [cut]
  {
    hide Cost;
    assert [cut][..0] == [];
  }

  /** The kept turns of an extension, against those of a rebuild. */
  lemma ExtensionKeeps(turns: seq<Turn>, turn: Turn, maxChars: nat)
    requires maxChars >= 1
    ensures KeptTurns(KeptTurns(turns, maxChars) + [turn], maxChars) == KeptTurns(turns + [turn], maxChars)
            <==> !CutTurnStillFits(turns, turn, maxChars)
  {
    hide Cost, TruncateTurn;
    var kept := KeptTurns(turns, maxChars);
    if Cost(turn) > maxChars {
      OversizedSnoc(kept, turn, maxChars);
      OversizedSnoc(turns, turn, maxChars);
    } else {
      KeepSnoc(kept, turn, maxChars);
      KeepSnoc(turns, turn, maxChars);
      if turns != [] && Cost(turns[|turns| - 1]) > maxChars {
        KeepOfCut(TruncateTurn(turns[|turns| - 1], maxChars), Cost(turn), maxChars);
        assert Keep(turns, Cost(turn), maxChars) == [];
      } else {
        KeepOfKept(turns, 0, Cost(turn), maxChars);
      }
    }
  }

  lemma BuildOfAscending(turns: seq<Turn>, maxChars: nat)
    requires Ascending(turns)
    ensures Build(turns, maxChars).turns == KeptTurns(turns, maxChars)
    ensures Build(turns, maxChars).through == Through(KeptTurns(turns, maxChars))
  {
    SortedStays(turns);
  }

  /** Extending the cached window by the next turn gives the rebuilt dialogue, unless a cut turn still fits:
      exactly then the extension keeps its remains, which a rebuild would drop. */
  lemma ExtensionAgreesWithRebuild(turns: seq<Turn>, turn: Turn, maxChars: nat)
    requires maxChars >= 1 && Ascending(turns + [turn])
    ensures Ascending(Build(turns, maxChars).turns + [turn])
    ensures SameDialogue(Build(Build(turns, maxChars).turns + [turn], maxChars), Build(turns + [turn], maxChars))
            <==> !CutTurnStillFits(turns, turn, maxChars)
  {
    hide Build, KeptTurns, CutTurnStillFits, Through;
    AscendingPrefix(turns, turn);
    BuildOfAscending(turns, maxChars);
    KeptAscend(turns, turn, maxChars);
    BuildOfAscending(KeptTurns(turns, maxChars) + [turn], maxChars);
    BuildOfAscending(turns + [turn], maxChars);
    ExtensionKeeps(turns, turn, maxChars);
  }

  lemma AscendingPrefix(turns: seq<Turn>, turn: Turn)
    requires Ascending(turns + [turn])
    ensures Ascending(turns)
  {
    assert forall i | 0 <= i < |turns| :: turns[i] == (turns + [turn])[i];
  }

  lemma KeptAscend(turns: seq<Turn>, turn: Turn, maxChars: nat)
    requires Ascending(turns + [turn])
    ensures Ascending(KeptTurns(turns, maxChars) + [turn])
  {
    var kept, all := KeptTurns(turns, maxChars), turns + [turn];
    if turns != [] && Cost(turns[|turns| - 1]) > maxChars {
      assert all[|turns| - 1].index < all[|turns|].index;
    } else {
      KeepIsLongestSuffix(turns, 0, maxChars);
      var skip := |turns| - |kept|;
      forall i, j | 0 <= i < j < |kept| + 1 ensures (kept + [turn])[i].index < (kept + [turn])[j].index {
        assert (kept + [turn])[i] == all[skip + i] && (kept + [turn])[j] == all[skip + j];
      }
    }
  }

  /** Inputs on which extension and rebuild part ways, for every budget of at least four characters: a long
      question with a short answer, then a short turn. */
  function LongTurn(maxChars: nat): Turn { Turn(1, seq(maxChars, _ => 'a'), "b") }

  const SHORT_TURN := Turn(2, "x", "y")

  lemma LongTurnStillFits(maxChars: nat)
    requires maxChars >= 4
    ensures CutTurnStillFits([LongTurn(maxChars)], SHORT_TURN, maxChars) && Ascending([LongTurn(maxChars)] + [SHORT_TURN])
  {
    hide Truncate;
    var t := LongTurn(maxChars);
    assert Cost(t) == maxChars + 1 && Cost(SHORT_TURN) == 2;
    assert Cost(TruncateTurn(t, maxChars)) == Max(1, maxChars / 3) + 1;
  }

  lemma ExtensionCanDisagree(maxChars: nat)
    requires maxChars >= 4
    ensures var before := [LongTurn(maxChars)];
      !SameDialogue(Build(Build(before, maxChars).turns + [SHORT_TURN], maxChars), Build(before + [SHORT_TURN], maxChars))
  {
    hide *;
    LongTurnStillFits(maxChars);
    ExtensionAgreesWithRebuild([LongTurn(maxChars)], SHORT_TURN, maxChars);
  }

  lemma ThroughOfBuild(turns: seq<Turn>, maxChars: nat)
    requires Ascending(turns)
    ensures Build(turns, maxChars).through == Through(turns)
  {
    SortedStays(turns);
  }
}
