/** Replayable run events: the append script, batched reads after a cursor, and the loop that streams them
    to an observer who may disconnect and come back. */
module EventReplay {
  import opened ChatTables

  datatype Event = Status(status: RunStatus) | Other(payload: string)

  /** An event that ends the stream of ordinary events for one connection. */
  predicate Ends(e: Event) { e.Status? && (Terminal(e.status) || e.status == WaitingInput) }

  datatype Entry = Entry(sequence: nat, event: Event)

  // ------------------------------------------------------------------ the stored stream

  /** The entries a log of events is stored as: sequence numbers count up from one without a gap. */
  function Stored(log: seq<Event>): seq<Entry> {
    seq(|log|, i requires 0 <= i < |log| => Entry(i + 1, log[i]))
  }

  class EventStream {
    var sequence: nat
    var entries: seq<Entry>
    ghost var log: seq<Event>

    ghost predicate Valid() reads this { sequence == |log| && entries == Stored(log) }

    constructor ()
      ensures Valid() && log == []
    {
      sequence, entries, log := 0, [], [];
    }

    method Append(event: Event) returns (number: nat)
      requires Valid()
      modifies this
      ensures Valid() && log == old(log) + [event] && number == |log|
    {
      sequence := sequence + 1;
      entries := entries + [Entry(sequence, event)];
      log := log + [event];
      return sequence;
    }

    /** The oldest entries after the cursor, at most the given number. */
    method ReadAfter(after: nat, count: nat) returns (batch: seq<Entry>)
      requires Valid()
      ensures batch == Batch(log, after, count)
    {
      batch := [];
      for i := 0 to |entries|
        invariant batch == if i <= after then [] else Stored(log)[after..Least(i, after + count)]
      {
        if entries[i].sequence > after && |batch| < count { batch := batch + [entries[i]]; }
      }
    }
  }

  function Least(a: nat, b: nat): nat { if a < b then a else b }

  function Batch(log: seq<Event>, after: nat, count: nat): seq<Entry> {
    if after >= |log| then [] else Stored(log)[after..Least(|log|, after + count)]
  }

  // ------------------------------------------------------------------ the stream loop

  /** What the observer sees between two reads: the log so far and whether the run's row is terminal. */
  datatype Moment = Moment(log: seq<Event>, runTerminal: bool)

  datatype Ending = EndEvent | Recovered | Disconnected

  function InsertEntry(e: Entry, sorted: seq<Entry>): seq<Entry> {
    if sorted == [] || sorted[|sorted| - 1].sequence <= e.sequence then sorted + [e]
    else InsertEntry(e, sorted[..|sorted| - 1]) + [sorted[|sorted| - 1]]
  }

  function SortBySequence(batch: seq<Entry>): seq<Entry> {
    if batch == [] then [] else InsertEntry(batch[|batch| - 1], SortBySequence(batch[..|batch| - 1]))
  }

  lemma {:induction false} SortedBatch(batch: seq<Entry>)
    requires forall i, j | 0 <= i < j < |batch| :: batch[i].sequence < batch[j].sequence
    ensures SortBySequence(batch) == batch
  {
    if batch != [] { SortedBatch(batch[..|batch| - 1]); }
  }

  /** The log never loses or changes an event. */
  ghost predicate Growing(moments: seq<Moment>) {
    forall i, j | 0 <= i <= j < |moments| :: moments[i].log <= moments[j].log
  }

  /** Ordinary events, in order, right after the cursor, none twice, up to the first that ends the stream. */
  ghost predicate Delivers(log: seq<Event>, after: nat, lines: seq<Event>) {
    && (lines != [] ==> after + |lines| <= |log| && lines == log[after..after + |lines|])
    && forall i | 0 <= i < |lines| - 1 :: !Ends(lines[i])
  }

  lemma DeliversLater(log: seq<Event>, later: seq<Event>, after: nat, lines: seq<Event>)
    requires Delivers(log, after, lines) && log <= later
    ensures Delivers(later, after, lines)
  {
    if lines != [] { assert later[after..after + |lines|] == log[after..after + |lines|]; }
  }

  ghost predicate NoneEnds(lines: seq<Event>) { forall i | 0 <= i < |lines| :: !Ends(lines[i]) }

  lemma DeliversOneMore(log: seq<Event>, after: nat, lines: seq<Event>)
    requires Delivers(log, after, lines) && NoneEnds(lines) && after + |lines| < |log|
    ensures Delivers(log, after, lines + [log[after + |lines|]])
  {
    var n := after + |lines|;
    assert log[after..n + 1] == log[after..n] + [log[n]];
  }

  lemma BatchEntries(log: seq<Event>, cursor: nat, count: nat)
    ensures var b := Batch(log, cursor, count);
      && |b| == (if cursor >= |log| then 0 else Least(|log| - cursor, count))
      && forall i | 0 <= i < |b| :: b[i] == Entry(cursor + i + 1, log[cursor + i])
  {}

  /** Where a read that is delivered in full leaves the cursor: at the end of the log or a whole batch on. */
  function Caught(log: seq<Event>, cursor: nat, batchSize: nat): nat {
    if cursor >= |log| then cursor else Least(|log|, cursor + batchSize)
  }

  /** The entries of one batch, up to the first that ends the stream. */
  method DeliverBatch(log: seq<Event>, after: nat, seen: seq<Event>, batchSize: nat) returns (lines: seq<Event>, cursor: nat, ended: bool)
    requires Delivers(log, after, seen) && NoneEnds(seen)
    ensures Delivers(log, after, lines) && cursor == after + |lines| && |seen| <= |lines|
    ensures ended <==> lines != [] && Ends(lines[|lines| - 1])
    ensures cursor <= Caught(log, after + |seen|, batchSize)
    ensures !ended ==> NoneEnds(lines) && cursor == Caught(log, after + |seen|, batchSize)
  {
    hide Delivers, Batch, SortBySequence, Stored;
    lines, cursor := seen, after + |seen|;
    var events := Batch(log, cursor, batchSize);
    BatchEntries(log, cursor, batchSize);
    SortedBatch(events);
    var ordered := SortBySequence(events);
    for i := 0 to |ordered|
      invariant cursor == after + |lines| && |lines| == |seen| + i
      invariant Delivers(log, after, lines) && NoneEnds(lines)
    {
      if ordered[i].sequence > cursor {
        DeliversOneMore(log, after, lines);
        cursor := ordered[i].sequence;
        lines := lines + [ordered[i].event];
        if Ends(ordered[i].event) { return lines, cursor, true; }
      }
    }
    ended := false;
  }

  /** Where these rounds leave the cursor when no event ends the stream. */
  function Reached(moments: seq<Moment>, after: nat, batchSize: nat): nat {
    if moments == [] then after
    else
      var n := |moments| - 1;
      Caught(moments[n].log, Reached(moments[..n], after, batchSize), batchSize)
  }

  /** No round before this one saw the run's row terminal. */
  predicate StillOpen(moments: seq<Moment>, r: nat)
    requires r <= |moments|
  {
    forall q | 0 <= q < r :: !moments[q].runTerminal
  }

  /** How a connection ended. Recovery waits for the read of its round, though not for the rest of the log;
      without recovery or an ending event every round was read in full. */
  ghost predicate EndsAs(moments: seq<Moment>, after: nat, batchSize: nat, cursor: nat, ending: Ending) {
    match ending
    case EndEvent =>
      exists r: nat :: r < |moments| && StillOpen(moments, r) && cursor <= Reached(moments[..r + 1], after, batchSize)
    case Recovered =>
      exists r: nat :: r < |moments| && StillOpen(moments, r) && moments[r].runTerminal
                       && cursor == Reached(moments[..r + 1], after, batchSize)
    case Disconnected => StillOpen(moments, |moments|) && cursor == Reached(moments, after, batchSize)
  }

  /** All a connection promises about what it delivered. */
  ghost predicate Streamed(moments: seq<Moment>, after: nat, batchSize: nat, lines: seq<Event>, cursor: nat, ending: Ending)
    requires moments != []
  {
    && Delivers(moments[|moments| - 1].log, after, lines)
    && cursor == after + |lines|
    && (ending == EndEvent <==> lines != [] && Ends(lines[|lines| - 1]))
    && EndsAs(moments, after, batchSize, cursor, ending)
  }

  lemma NothingDelivered(log: seq<Event>, after: nat)
    ensures Delivers(log, after, []) && NoneEnds([])
  {
  }

  /** One connection, over as many rounds as it lasts, with any batch size. A heartbeat or a wait that
      returns events only starts the next round. */
  method StreamEvents(moments: seq<Moment>, after: nat, batchSize: nat) returns (lines: seq<Event>, cursor: nat, ending: Ending)
    requires moments != [] && Growing(moments)
    ensures Streamed(moments, after, batchSize, lines, cursor, ending)
  {
    hide Delivers, Caught, Ends;
    NothingDelivered(moments[0].log, after);
    lines, cursor, ending := [], after, Disconnected;
    for round := 0 to |moments|
      invariant Delivers(if round == 0 then moments[0].log else moments[round - 1].log, after, lines)
      invariant NoneEnds(lines) && cursor == after + |lines| && ending == Disconnected
      invariant cursor == Reached(moments[..round], after, batchSize) && StillOpen(moments, round)
    {
      if round > 0 { DeliversLater(moments[round - 1].log, moments[round].log, after, lines); }
      assert moments[..round + 1][..round] == moments[..round];
      var ended;
      lines, cursor, ended := DeliverBatch(moments[round].log, after, lines, batchSize);
      DeliversLater(moments[round].log, moments[|moments| - 1].log, after, lines);
      if ended { return lines, cursor, EndEvent; }
      if moments[round].runTerminal { return lines, cursor, Recovered; }
    }
    assert moments[..|moments|] == moments;
  }

  /** Recovery comes after everything the log held exactly when no more than one batch was left to read. */
  lemma RecoveryIsCompleteExactly(moments: seq<Moment>, after: nat, batchSize: nat, r: nat)
    requires r < |moments|
    ensures Reached(moments[..r + 1], after, batchSize) >= |moments[r].log|
            <==> Reached(moments[..r], after, batchSize) + batchSize >= |moments[r].log|
  {
    assert moments[..r + 1][..r] == moments[..r];
  }

  /** A run that has ended with one event more than a batch left to read: whatever the batch size, the
      observer is told that it ended when the last event was not delivered. */
  lemma EarlyRecovery(log: seq<Event>, batchSize: nat, lines: seq<Event>, cursor: nat, ending: Ending)
    requires |log| == batchSize + 1 && NoneEnds(log)
    requires Streamed([Moment(log, true)], 0, batchSize, lines, cursor, ending)
    ensures ending == Recovered && cursor == batchSize && lines == log[..batchSize]
  {
    var moments := [Moment(log, true)];
    assert !StillOpen(moments, 1) by { assert moments[0].runTerminal; }
    assert moments[..0] == [] && moments[..1] == moments && moments[..1][..0] == [];
    assert Reached(moments[..0 + 1], 0, batchSize) == batchSize;
    assert lines == [] || lines[|lines| - 1] == log[|lines| - 1];
  }

  // ------------------------------------------------------------------ coming back

  /** A client that drops in the middle of a batch has what it received. */
  lemma DeliversPrefix(log: seq<Event>, after: nat, lines: seq<Event>, k: nat)
    requires Delivers(log, after, lines) && k <= |lines|
    ensures Delivers(log, after, lines[..k])
  {
    if k > 0 { assert log[after..after + k] == log[after..after + |lines|][..k]; }
  }

  /** One finished connection: where it started and what it delivered. */
  datatype Connection = Connection(after: nat, lines: seq<Event>)

  /** Where the observer of these connections stands. */
  function CursorAfter(start: nat, connections: seq<Connection>): nat {
    if connections == [] then start else connections[|connections| - 1].after + |connections[|connections| - 1].lines|
  }

  /** Each connection resumes at the last delivered sequence of the one before. */
  ghost predicate Chained(start: nat, connections: seq<Connection>, log: seq<Event>) {
    forall i | 0 <= i < |connections| ::
      Delivers(log, connections[i].after, connections[i].lines) && connections[i].after == CursorAfter(start, connections[..i])
  }

  function AllLines(connections: seq<Connection>): seq<Event> {
    if connections == [] then [] else AllLines(connections[..|connections| - 1]) + connections[|connections| - 1].lines
  }

  lemma ChainPrefix(start: nat, connections: seq<Connection>, log: seq<Event>)
    requires Chained(start, connections, log) && connections != []
    ensures var n := |connections| - 1;
      && Chained(start, connections[..n], log) && Delivers(log, connections[n].after, connections[n].lines)
      && connections[n].after == CursorAfter(start, connections[..n])
  {
    hide Delivers, CursorAfter;
    var n := |connections| - 1;
    var before := connections[..n];
    forall i | 0 <= i < n
      ensures Delivers(log, before[i].after, before[i].lines) && before[i].after == CursorAfter(start, before[..i])
    {
      assert before[i] == connections[i] && before[..i] == connections[..i];
    }
    assert Delivers(log, connections[n].after, connections[n].lines);
  }

  lemma ChainedLater(start: nat, connections: seq<Connection>, log: seq<Event>, later: seq<Event>)
    requires Chained(start, connections, log) && log <= later
    ensures Chained(start, connections, later)
  {
    hide Delivers, CursorAfter;
    forall i | 0 <= i < |connections| ensures Delivers(later, connections[i].after, connections[i].lines) {
      DeliversLater(log, later, connections[i].after, connections[i].lines);
    }
  }

  /** One more connection, from where the observer stands, of whose lines any number arrived: the chain
      goes on, whatever the log has become since. */
  lemma StreamJoinsChain(start: nat, connections: seq<Connection>, log: seq<Event>, moments: seq<Moment>, batchSize: nat,
                         lines: seq<Event>, cursor: nat, ending: Ending, k: nat, later: seq<Event>)
    requires Chained(start, connections, log) && moments != []
    requires Streamed(moments, CursorAfter(start, connections), batchSize, lines, cursor, ending) && k <= |lines|
    requires log <= later && moments[|moments| - 1].log <= later
    ensures Chained(start, connections + [Connection(CursorAfter(start, connections), lines[..k])], later)
  {
    hide Delivers, EndsAs, Ends, CursorAfter;
    var after := CursorAfter(start, connections);
    ChainedLater(start, connections, log, later);
    DeliversPrefix(moments[|moments| - 1].log, after, lines, k);
    DeliversLater(moments[|moments| - 1].log, later, after, lines[..k]);
    var longer := connections + [Connection(after, lines[..k])];
    forall i | 0 <= i < |longer|
      ensures Delivers(later, longer[i].after, longer[i].lines) && longer[i].after == CursorAfter(start, longer[..i])
    {
      if i < |connections| {
        assert longer[i] == connections[i] && longer[..i] == connections[..i];
      } else {
        assert longer[..i] == connections;
      }
    }
  }

  /** Over any chain of reconnects the observer has seen exactly the events after its first cursor, in
      order, without a gap or a repeat. */
  lemma {:induction false} ChainLosesNothing(start: nat, connections: seq<Connection>, log: seq<Event>)
    requires Chained(start, connections, log)
    ensures var lines := AllLines(connections);
      && (lines != [] ==> start + |lines| <= |log| && lines == log[start..start + |lines|])
      && CursorAfter(start, connections) == start + |lines|
  {
    hide Chained, Ends;
    if connections != [] {
      var n := |connections| - 1;
      ChainPrefix(start, connections, log);
      ChainLosesNothing(start, connections[..n], log);
      JoinSlices(log, start, AllLines(connections[..n]), connections[n].lines);
    }
  }

  lemma JoinSlices(log: seq<Event>, start: nat, a: seq<Event>, b: seq<Event>)
    requires a != [] ==> start + |a| <= |log| && a == log[start..start + |a|]
    requires b != [] ==> start + |a| + |b| <= |log| && b == log[start + |a|..start + |a| + |b|]
    ensures a + b != [] ==> start + |a + b| <= |log| && a + b == log[start..start + |a + b|]
  {
    if b != [] && a != [] {
      assert log[start..start + |a|] + log[start + |a|..start + |a| + |b|] == log[start..start + |a| + |b|];
    }
  }
}
