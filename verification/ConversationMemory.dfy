/** The cache-aside service around the window: PostgreSQL turns are the truth, the cache may fail, expire or
    be written late, and reads and writes of different workers interleave freely. */
module ConversationMemory {
  import opened Wrappers
  import opened DialogueWindow

  datatype Message = Message(index: nat, fromUser: bool, content: string)

  /** Two messages per turn, the question before the answer. */
  function MessagesOf(turns: seq<Turn>): (messages: seq<Message>)
    ensures |messages| == 2 * |turns|
    ensures forall i | 0 <= i < |turns| ::
      && messages[2 * i] == Message(turns[i].index, true, turns[i].user)
      && messages[2 * i + 1] == Message(turns[i].index, false, turns[i].assistant)
  {
    if turns == [] then [] else
      var t := turns[|turns| - 1];
      MessagesOf(turns[..|turns| - 1]) + [Message(t.index, true, t.user), Message(t.index, false, t.assistant)]
  }

  /** Turn k of a session has index k. */
  predicate Numbered(log: seq<Turn>) { forall i | 0 <= i < |log| :: log[i].index == i + 1 }

  /** What a commit does to the cache, given the cache value it read. */
  function Extended(read: Option<Window>, turn: Turn, maxChars: nat): Option<Window> {
    if read.None? then (if turn.index == 1 then Some(Build([turn], maxChars)) else None)
    else if read.value.through + 1 != turn.index then None
    else Some(Build(read.value.turns + [turn], maxChars))
  }

  // ------------------------------------------------------------------ any interleaving

  /** `seen` holds every value the cache ever had: a worker may still act on an old read. */
  datatype Memory = Memory(log: seq<Turn>, cache: Option<Window>, seen: set<Option<Window>>)

  datatype Op =
    | Commit(user: string, assistant: string)
    | Expire
    | WriteRebuild(upTo: nat)
    | WriteExtension(read: Option<Window>, index: nat)

  function Put(m: Memory, cache: Option<Window>): Memory { m.(cache := cache, seen := m.seen + {cache}) }

  predicate Possible(m: Memory, op: Op) {
    match op
    case Commit(_, _) => true
    case Expire => true
    case WriteRebuild(upTo) => upTo <= |m.log|
    case WriteExtension(read, index) => read in m.seen && 1 <= index <= |m.log|
  }

  function Apply(m: Memory, op: Op, maxChars: nat): Memory
    requires Possible(m, op)
  {
    match op
    case Commit(user, assistant) => m.(log := m.log + [Turn(|m.log| + 1, user, assistant)])
    case Expire => Put(m, None)
    case WriteRebuild(upTo) => Put(m, Some(Build(m.log[..upTo], maxChars)))
    case WriteExtension(read, index) => Put(m, Extended(read, m.log[index - 1], maxChars))
  }

  /** Where a history of operations leads; None when one of them was not possible. */
  function History(ops: seq<Op>, maxChars: nat): Option<Memory> {
    if ops == [] then Some(Memory([], None, {None})) else
      var before := History(ops[..|ops| - 1], maxChars);
      if before.None? || !Possible(before.value, ops[|ops| - 1]) then None
      else Some(Apply(before.value, ops[|ops| - 1], maxChars))
  }

  /** No commit met a cut turn whose remains still fit beside it. */
  ghost predicate NeverCutBeside(log: seq<Turn>, maxChars: nat) {
    forall i | 0 <= i < |log| :: !CutTurnStillFits(log[..i], log[i], maxChars)
  }

  lemma NoOversizedTurns(log: seq<Turn>, maxChars: nat)
    requires forall t | t in log :: Cost(t) <= maxChars
    ensures NeverCutBeside(log, maxChars)
  {
    forall i | 0 < i < |log| ensures !CutTurnStillFits(log[..i], log[i], maxChars) {
      assert log[i - 1] in log;
    }
  }

  /** The window of some prefix of the log. */
  ghost predicate OfPrefix(c: Option<Window>, log: seq<Turn>, maxChars: nat) {
    c.Some? ==> exists k: nat :: k <= |log| && SameDialogue(c.value, Build(log[..k], maxChars))
  }

  lemma NumberedAscends(log: seq<Turn>)
    requires Numbered(log)
    ensures Ascending(log) && Through(log) == |log|
  {}

  lemma OfLongerLog(c: Option<Window>, log: seq<Turn>, turn: Turn, maxChars: nat)
    requires OfPrefix(c, log, maxChars)
    ensures OfPrefix(c, log + [turn], maxChars)
  {
    if c.Some? {
      var k: nat :| k <= |log| && SameDialogue(c.value, Build(log[..k], maxChars));
      assert (log + [turn])[..k] == log[..k];
    }
  }

  lemma BuildIsOfPrefix(log: seq<Turn>, k: nat, maxChars: nat)
    requires k <= |log|
    ensures OfPrefix(Some(Build(log[..k], maxChars)), log, maxChars)
  {}

  lemma ExtensionIsOfPrefix(read: Option<Window>, log: seq<Turn>, index: nat, maxChars: nat)
    requires maxChars >= 1 && Numbered(log) && NeverCutBeside(log, maxChars)
    requires OfPrefix(read, log, maxChars) && 1 <= index <= |log|
    ensures OfPrefix(Extended(read, log[index - 1], maxChars), log, maxChars)
  {
    hide Build, CutTurnStillFits, Through;
    var turn := log[index - 1];
    if read.None? {
      if index == 1 {
        assert log[..1] == [turn];
        BuildIsOfPrefix(log, 1, maxChars);
      }
    } else if read.value.through + 1 == index {
      var k: nat :| k <= |log| && SameDialogue(read.value, Build(log[..k], maxChars));
      NumberedAscends(log[..k]);
      ThroughOfBuild(log[..k], maxChars);
      assert k == index - 1 && log[..k] + [turn] == log[..index];
      NumberedAscends(log[..index]);
      ExtensionAgreesWithRebuild(log[..k], turn, maxChars);
    }
  }

  /** Whatever the interleaving, every value the cache ever held is the window of a prefix of the log. */
  lemma {:induction false} CacheHoldsPrefixes(m: Memory, ops: seq<Op>, maxChars: nat)
    requires maxChars >= 1 && History(ops, maxChars) == Some(m) && NeverCutBeside(m.log, maxChars)
    ensures Numbered(m.log) && m.cache in m.seen && forall c | c in m.seen :: OfPrefix(c, m.log, maxChars)
    decreases |ops|
  {
    hide OfPrefix, Build, Extended, CutTurnStillFits;
    if ops == [] {
      assert OfPrefix(None, [], maxChars) by { NoneIsOfPrefix(maxChars); }
    } else {
      var op := ops[|ops| - 1];
      var before := History(ops[..|ops| - 1], maxChars).value;
      assert NeverCutBeside(before.log, maxChars) by {
        forall i | 0 <= i < |before.log| ensures !CutTurnStillFits(before.log[..i], before.log[i], maxChars) {
          assert m.log[..i] == before.log[..i];
        }
      }
      CacheHoldsPrefixes(before, ops[..|ops| - 1], maxChars);
      match op
      case Commit(user, assistant) =>
        forall c | c in m.seen ensures OfPrefix(c, m.log, maxChars) {
          OfLongerLog(c, before.log, Turn(|before.log| + 1, user, assistant), maxChars);
        }
      case Expire => NoneOfPrefix(m.log, maxChars);
      case WriteRebuild(upTo) => BuildIsOfPrefix(m.log, upTo, maxChars);
      case WriteExtension(read, index) => ExtensionIsOfPrefix(read, m.log, index, maxChars);
    }
  }

  lemma NoneIsOfPrefix(maxChars: nat)
    ensures OfPrefix(None, [], maxChars)
  {}

  lemma NoneOfPrefix(log: seq<Turn>, maxChars: nat)
    ensures OfPrefix(None, log, maxChars)
  {}

  lemma HitIsRebuild(c: Window, log: seq<Turn>, maxChars: nat)
    requires Numbered(log) && OfPrefix(Some(c), log, maxChars) && c.through == |log|
    ensures SameDialogue(c, Build(log, maxChars))
  {
    var k: nat :| k <= |log| && SameDialogue(c, Build(log[..k], maxChars));
    assert Numbered(log[..k]);
    NumberedAscends(log[..k]);
    ThroughOfBuild(log[..k], maxChars);
    assert log[..k] == log;
  }

  /** A cached value read at any earlier time that covers the log as it is now is what a rebuild returns. */
  lemma EveryHitIsRebuild(m: Memory, ops: seq<Op>, read: Window, maxChars: nat)
    requires maxChars >= 1 && History(ops, maxChars) == Some(m) && NeverCutBeside(m.log, maxChars)
    requires Some(read) in m.seen && read.through == |m.log|
    ensures SameDialogue(read, Build(m.log, maxChars))
  {
    CacheHoldsPrefixes(m, ops, maxChars);
    HitIsRebuild(read, m.log, maxChars);
  }

  // ------------------------------------------------------------------ and only then

  /** No history that has committed some of these turns ever lets the cache answer differently from a rebuild. */
  ghost predicate AlwaysRight(log: seq<Turn>, maxChars: nat) {
    forall ops, m, read: Window | History(ops, maxChars) == Some(m) && m.log <= log && Some(read) in m.seen && read.through == |m.log| ::
      SameDialogue(read, Build(m.log, maxChars))
  }

  function CommitAll(log: seq<Turn>): seq<Op> {
    if log == [] then [] else CommitAll(log[..|log| - 1]) + [Commit(log[|log| - 1].user, log[|log| - 1].assistant)]
  }

  lemma HistorySnoc(ops: seq<Op>, m: Memory, op: Op, maxChars: nat)
    requires History(ops, maxChars) == Some(m) && Possible(m, op)
    ensures History(ops + [op], maxChars) == Some(Apply(m, op, maxChars))
  {
    hide Possible, Apply;
    assert (ops + [op])[..|ops|] == ops;
  }

  lemma {:induction false} AllCommitted(log: seq<Turn>, maxChars: nat)
    requires Numbered(log)
    ensures History(CommitAll(log), maxChars) == Some(Memory(log, None, {None}))
  {
    if log != [] {
      var n := |log| - 1;
      AllCommitted(log[..n], maxChars);
      HistorySnoc(CommitAll(log[..n]), Memory(log[..n], None, {None}), Commit(log[n].user, log[n].assistant), maxChars);
      assert log == log[..n] + [Turn(n + 1, log[n].user, log[n].assistant)];
    }
  }

  /** A cut turn that still fits beside the next one: rebuild, commit, and extend what was rebuilt. */
  lemma CutTurnMisleads(log: seq<Turn>, i: nat, maxChars: nat) returns (ops: seq<Op>, m: Memory, read: Window)
    requires maxChars >= 1 && Numbered(log) && i < |log| && CutTurnStillFits(log[..i], log[i], maxChars)
    ensures History(ops, maxChars) == Some(m) && m.log == log[..i + 1] && m.cache == Some(read) && Some(read) in m.seen
    ensures read.through == |m.log| && !SameDialogue(read, Build(m.log, maxChars))
  {
    hide Build, CutTurnStillFits, History, SameDialogue;
    var before, turn := log[..i], log[i];
    AllCommitted(before, maxChars);
    ops, m := CommitAll(before), Memory(before, None, {None});
    assert before[..i] == before;
    HistorySnoc(ops, m, WriteRebuild(i), maxChars);
    var rebuilt := Some(Build(before, maxChars));
    ops, m := ops + [WriteRebuild(i)], Apply(m, WriteRebuild(i), maxChars);
    assert m.log == before && m.cache == rebuilt && rebuilt in m.seen;
    HistorySnoc(ops, m, Commit(turn.user, turn.assistant), maxChars);
    assert before + [Turn(i + 1, turn.user, turn.assistant)] == log[..i + 1];
    ops, m := ops + [Commit(turn.user, turn.assistant)], Apply(m, Commit(turn.user, turn.assistant), maxChars);
    assert m.log == log[..i + 1] && rebuilt in m.seen;
    HistorySnoc(ops, m, WriteExtension(rebuilt, i + 1), maxChars);
    NumberedAscends(before);
    NumberedAscends(log[..i + 1]);
    ThroughOfBuild(before, maxChars);
    assert before + [turn] == log[..i + 1];
    ExtensionAgreesWithRebuild(before, turn, maxChars);
    read := Build(rebuilt.value.turns + [turn], maxChars);
    ThroughOfBuild(rebuilt.value.turns + [turn], maxChars);
    ops, m := ops + [WriteExtension(rebuilt, i + 1)], Apply(m, WriteExtension(rebuilt, i + 1), maxChars);
  }

  /** The cache answers like a rebuild in every history of these turns if and only if no commit met a cut
      turn whose remains still fit beside it. */
  lemma CacheIsRightExactly(log: seq<Turn>, maxChars: nat)
    requires maxChars >= 1 && Numbered(log)
    ensures AlwaysRight(log, maxChars) <==> NeverCutBeside(log, maxChars)
  {
    hide Build, CutTurnStillFits, SameDialogue;
    if NeverCutBeside(log, maxChars) {
      forall ops, m, read: Window | History(ops, maxChars) == Some(m) && m.log <= log && Some(read) in m.seen && read.through == |m.log|
        ensures SameDialogue(read, Build(m.log, maxChars))
      {
        assert NeverCutBeside(m.log, maxChars) by {
          forall i | 0 <= i < |m.log| ensures !CutTurnStillFits(m.log[..i], m.log[i], maxChars) {
            assert m.log[..i] == log[..i] && m.log[i] == log[i];
          }
        }
        EveryHitIsRebuild(m, ops, read, maxChars);
      }
    } else {
      var i: nat :| i < |log| && CutTurnStillFits(log[..i], log[i], maxChars);
      var ops, m, read := CutTurnMisleads(log, i, maxChars);
    }
  }

  // ------------------------------------------------------------------ the service

  class ConversationMemoryService {
    const maxChars: nat
    var log: seq<Turn>
    var cache: Option<Window>

    constructor (maxChars: nat)
      ensures this.maxChars == maxChars && log == [] && cache == None
    {
      this.maxChars, log, cache := maxChars, [], None;
    }

    /** A failing read counts as a miss, a failing write is ignored: the answer never depends on either. */
    method LoadRecentMessages(readFails: bool, writeFails: bool) returns (messages: seq<Message>, next: nat)
      requires maxChars >= 1 && Numbered(log)
      modifies this`cache
      ensures next == |log| + 1
      ensures OfPrefix(old(cache), log, maxChars) ==> messages == MessagesOf(Build(log, maxChars).turns)
      ensures var hit := !readFails && old(cache).Some? && old(cache).value.through == |log|;
        && messages == MessagesOf(if hit then old(cache).value.turns else Build(log, maxChars).turns)
        && cache == if hit || writeFails then old(cache) else Some(Build(log, maxChars))
    {
      var cached := if readFails then None else cache;
      next := |log| + 1;
      if cached.None? || cached.value.through != next - 1 {
        cached := BuildRecentDialogueWindow(log, maxChars);
        if !writeFails { cache := cached; }
      } else if OfPrefix(cache, log, maxChars) {
        HitIsRebuild(cached.value, log, maxChars);
      }
      messages := MessagesOf(cached.value.turns);
    }

    /** False when the store failed; the cache is then as it was. */
    method RecordCommittedTurn(turn: Turn, readFails: bool, writeFails: bool) returns (ok: bool)
      requires maxChars >= 1 && turn.index >= 1
      modifies this`cache
      ensures ok <==> !readFails && !writeFails
      ensures cache == if ok then Extended(old(cache), turn, maxChars) else old(cache)
    {
      if readFails { return false; }
      var window: Option<Window> := None;
      if cache.None? {
        if turn.index == 1 { window := BuildRecentDialogueWindow([turn], maxChars); }
      } else if cache.value.through == turn.index - 1 {
        window := BuildRecentDialogueWindow(cache.value.turns + [turn], maxChars);
      }
      if writeFails { return false; }
      cache := window;
      return true;
    }
  }
}
