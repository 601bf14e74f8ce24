/** Conversation messages that context tools retrieve, merged into the controller's view: one message per
    turn and role, the latest retrieved, in conversation order. */
module ContextMessages {
  datatype Role = User | Assistant

  datatype Message = Message(turn: nat, role: Role, content: string)

  /** Position in the conversation: by turn, the user before the assistant. */
  function Key(m: Message): nat { 2 * m.turn + (if m.role.User? then 0 else 1) }

  ghost predicate Ascending(messages: seq<Message>) {
    forall i, j | 0 <= i < j < |messages| :: Key(messages[i]) < Key(messages[j])
  }

  /** The dictionary entry of a message, with the entries kept in conversation order. */
  function Upsert(sorted: seq<Message>, m: Message): seq<Message> {
    if sorted == [] || Key(sorted[|sorted| - 1]) < Key(m) then sorted + [m]
    else
      var before, last := sorted[..|sorted| - 1], sorted[|sorted| - 1];
      if Key(last) == Key(m) then before + [m] else Upsert(before, m) + [last]
  }

  /** All messages in turn, later ones replacing earlier ones of the same turn and role. */
  function MergeAll(sorted: seq<Message>, more: seq<Message>): seq<Message> {
    if more == [] then sorted else Upsert(MergeAll(sorted, more[..|more| - 1]), more[|more| - 1])
  }

  method MergeMessages(existing: seq<Message>, retrieved: seq<Message>) returns (merged: seq<Message>)
    ensures merged == MergeAll(MergeAll([], existing), retrieved)
  {
    merged := [];
    for i := 0 to |existing|
      invariant merged == MergeAll([], existing[..i])
    {
      assert existing[..i + 1][..i] == existing[..i];
      merged := Upsert(merged, existing[i]);
    }
    assert existing[..|existing|] == existing;
    for i := 0 to |retrieved|
      invariant merged == MergeAll(MergeAll([], existing), retrieved[..i])
    {
      assert retrieved[..i + 1][..i] == retrieved[..i];
      merged := Upsert(merged, retrieved[i]);
    }
    assert retrieved[..|retrieved|] == retrieved;
  }

  lemma EmptyAscends()
    ensures Ascending([])
  {
  }

  lemma AscendingSnoc(before: seq<Message>, last: Message)
    requires Ascending(before) && forall x | x in before :: Key(x) < Key(last)
    ensures Ascending(before + [last])
  {
    var longer := before + [last];
    forall i, j | 0 <= i < j < |longer| ensures Key(longer[i]) < Key(longer[j]) {
      assert longer[i] == before[i] && before[i] in before;
    }
  }

  lemma WithoutLast(a: seq<Message>)
    requires Ascending(a) && a != []
    ensures Ascending(a[..|a| - 1])
    ensures forall x :: x in a[..|a| - 1] <==> x in a && x != a[|a| - 1]
    ensures forall x | x in a[..|a| - 1] :: Key(x) < Key(a[|a| - 1])
  {
    var before, last := a[..|a| - 1], a[|a| - 1];
    assert a == before + [last];
    assert forall i | 0 <= i < |before| :: before[i] == a[i] && Key(a[i]) < Key(last);
  }

  lemma {:induction false} UpsertKeeps(sorted: seq<Message>, m: Message)
    requires Ascending(sorted)
    ensures Ascending(Upsert(sorted, m))
    ensures forall x :: x in Upsert(sorted, m) <==> x == m || (x in sorted && Key(x) != Key(m))
  {
    hide Ascending, Key;
    if sorted != [] {
      var before, last := sorted[..|sorted| - 1], sorted[|sorted| - 1];
      WithoutLast(sorted);
      assert forall x :: x in sorted <==> x in before || x == last by { assert sorted == before + [last]; }
      if Key(last) < Key(m) {
        AscendingSnoc(sorted, m);
      } else if Key(last) == Key(m) {
        AscendingSnoc(before, m);
      } else {
        UpsertKeeps(before, m);
        AscendingSnoc(Upsert(before, m), last);
      }
    } else {
      EmptyAscends();
      AscendingSnoc([], m);
    }
  }

  /** The last message with the key of x among these is x itself. */
  ghost predicate LatestIn(messages: seq<Message>, x: Message) {
    exists i :: 0 <= i < |messages| && messages[i] == x && forall j | i < j < |messages| :: Key(messages[j]) != Key(x)
  }

  lemma LatestSnoc(messages: seq<Message>, m: Message, x: Message)
    ensures LatestIn(messages + [m], x) <==> x == m || (LatestIn(messages, x) && Key(x) != Key(m))
  {
    var longer := messages + [m];
    if x == m {
      assert longer[|messages|] == x;
    } else if LatestIn(messages, x) && Key(x) != Key(m) {
      var i :| 0 <= i < |messages| && messages[i] == x && forall j | i < j < |messages| :: Key(messages[j]) != Key(x);
      assert longer[i] == x && forall j | i < j < |longer| :: Key(longer[j]) != Key(x);
    }
    if LatestIn(longer, x) && x != m {
      var i :| 0 <= i < |longer| && longer[i] == x && forall j | i < j < |longer| :: Key(longer[j]) != Key(x);
      assert Key(longer[|messages|]) != Key(x);
      assert messages[i] == x && forall j | i < j < |messages| :: Key(messages[j]) == Key(longer[j]);
    }
  }

  /** The merged view is in conversation order and holds exactly the latest message of every turn and role. */
  lemma {:induction false} MergeHoldsLatest(messages: seq<Message>)
    ensures Ascending(MergeAll([], messages))
    ensures forall x :: x in MergeAll([], messages) <==> LatestIn(messages, x)
  {
    if messages != [] {
      var n := |messages| - 1;
      assert messages == messages[..n] + [messages[n]];
      MergeHoldsLatest(messages[..n]);
      UpsertKeeps(MergeAll([], messages[..n]), messages[n]);
      forall x ensures x in MergeAll([], messages) <==> LatestIn(messages, x) {
        LatestSnoc(messages[..n], messages[n], x);
      }
    }
  }

  lemma {:induction false} MergeConcat(a: seq<Message>, b: seq<Message>)
    ensures MergeAll(MergeAll([], a), b) == MergeAll([], a + b)
  {
    if b == [] {
      assert a + b == a;
    } else {
      assert (a + b)[..|a + b| - 1] == a + b[..|b| - 1];
      MergeConcat(a, b[..|b| - 1]);
    }
  }

  ghost predicate SameMessages(a: seq<Message>, b: seq<Message>) { forall x :: x in a <==> x in b }

  lemma LastIsLargest(a: seq<Message>, x: Message)
    requires Ascending(a) && x in a
    ensures a != [] && Key(x) <= Key(a[|a| - 1]) && (Key(x) == Key(a[|a| - 1]) ==> x == a[|a| - 1])
  {
    var i :| 0 <= i < |a| && a[i] == x;
  }

  lemma SomeMessage(b: seq<Message>)
    ensures b == [] || exists x :: x in b
  {
    if b != [] { assert b[0] in b; }
  }

  /** Order and contents determine the view. */
  lemma {:induction false} AscendingIsUnique(a: seq<Message>, b: seq<Message>)
    requires Ascending(a) && Ascending(b) && SameMessages(a, b)
    ensures a == b
  {
    if a != [] {
      assert a[|a| - 1] in a;
      LastIsLargest(b, a[|a| - 1]);
      assert b[|b| - 1] in b;
      LastIsLargest(a, b[|b| - 1]);
      var a', b' := a[..|a| - 1], b[..|b| - 1];
      WithoutLast(a);
      WithoutLast(b);
      assert SameMessages(a', b') by {
        forall x ensures x in a' <==> x in b' { assert x in a <==> x in b; }
      }
      AscendingIsUnique(a', b');
      assert a == a' + [a[|a| - 1]] && b == b' + [b[|b| - 1]];
    } else {
      SomeMessage(b);
    }
  }

  /** Retrieving the same messages again changes nothing. */
  lemma MergeAgain(existing: seq<Message>, retrieved: seq<Message>)
    ensures MergeAll(MergeAll(MergeAll([], existing), retrieved), retrieved) == MergeAll(MergeAll([], existing), retrieved)
  {
    MergeConcat(existing, retrieved);
    MergeConcat(existing + retrieved, retrieved);
    var once, twice := existing + retrieved, existing + retrieved + retrieved;
    MergeHoldsLatest(once);
    MergeHoldsLatest(twice);
    forall x ensures LatestIn(once, x) <==> LatestIn(twice, x) { LatestTwice(existing, retrieved, x); }
    assert SameMessages(MergeAll([], once), MergeAll([], twice));
    AscendingIsUnique(MergeAll([], once), MergeAll([], twice));
  }

  lemma LatestOfConcat(a: seq<Message>, b: seq<Message>, x: Message)
    ensures LatestIn(a + b, x) <==> LatestIn(b, x) || (LatestIn(a, x) && forall m | m in b :: Key(m) != Key(x))
    decreases |b|
  {
    if b == [] {
      assert a + b == a;
    } else {
      var n := |b| - 1;
      assert a + b == (a + b[..n]) + [b[n]] && b == b[..n] + [b[n]];
      LatestOfConcat(a, b[..n], x);
      LatestSnoc(a + b[..n], b[n], x);
      LatestSnoc(b[..n], b[n], x);
    }
  }

  lemma LatestTwice(a: seq<Message>, b: seq<Message>, x: Message)
    ensures LatestIn(a + b, x) <==> LatestIn(a + b + b, x)
  {
    LatestOfConcat(a, b, x);
    LatestOfConcat(a + b, b, x);
  }
}
