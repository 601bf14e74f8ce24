/** What every session store promises about one session: a bounded log of turns and a table of request
    claims. Both backends are shown to do nothing but these events. */
module SessionLedger {
  import opened Wrappers

  type Request = nat
  type Token = nat

  datatype Turn = Turn(index: nat, body: string)

  datatype ClaimStatus = InProgress | Completed | Failed

  datatype Claim = Claim(payload: string, status: ClaimStatus, owner: Token, response: Option<string>)

  datatype Ledger = Ledger(turns: seq<Turn>, next: nat, claims: map<Request, Claim>)

  const NEW_LEDGER := Ledger([], 1, map[])

  /** `Forgot` is purging or trimming of finished claims; `Dropped` is the loss of the whole session. */
  datatype Event =
    | Granted(request: Request, payload: string, token: Token)
    | Replayed(request: Request, payload: string, response: string)
    | Refused(request: Request, payload: string)
    | Finished(request: Request, token: Token, body: string, response: string)
    | GaveUp(request: Request, token: Token)
    | Appended(body: string)
    | Forgot(requests: set<Request>)
    | Dropped

  /** Only the newest turns are kept; a limit of zero keeps them all, as slicing from minus zero does. */
  function Trim(turns: seq<Turn>, limit: nat): seq<Turn> {
    if limit == 0 || |turns| <= limit then turns else turns[|turns| - limit..]
  }

  function Push(l: Ledger, body: string, limit: nat): Ledger {
    l.(turns := Trim(l.turns + [Turn(l.next, body)], limit), next := l.next + 1)
  }

  predicate Enabled(l: Ledger, e: Event) {
    match e
    case Granted(r, payload, _) => r in l.claims ==> l.claims[r].payload == payload && l.claims[r].status != Completed
    case Replayed(r, payload, response) =>
      r in l.claims && l.claims[r].payload == payload && l.claims[r].status == Completed && l.claims[r].response == Some(response)
    case Refused(r, payload) => r in l.claims && l.claims[r].payload != payload
    case Finished(r, token, _, _) => r in l.claims && l.claims[r].status == InProgress && l.claims[r].owner == token
    case GaveUp(r, token) => r in l.claims && l.claims[r].status == InProgress && l.claims[r].owner == token
    case Appended(_) => true
    case Forgot(rs) => forall r | r in rs :: r in l.claims && l.claims[r].status != InProgress
    case Dropped => true
  }

  function Apply(l: Ledger, e: Event, limit: nat): Ledger
    requires Enabled(l, e)
  {
    match e
    case Granted(r, payload, token) => l.(claims := l.claims[r := Claim(payload, InProgress, token, None)])
    case Finished(r, token, body, response) =>
      Push(l, body, limit).(claims := l.claims[r := l.claims[r].(status := Completed, response := Some(response))])
    case GaveUp(r, _) => l.(claims := l.claims[r := l.claims[r].(status := Failed)])
    case Appended(body) => Push(l, body, limit)
    case Forgot(rs) => l.(claims := l.claims - rs)
    case Dropped => NEW_LEDGER
    case _ => l
  }

  predicate FreshIn(history: seq<Event>, e: Event) {
    e.Granted? ==> forall i | 0 <= i < |history| :: history[i].Granted? ==> history[i].token != e.token
  }

  /** The ledger a history leads to; None when an event was not possible or reused an owner token. */
  function LedgerOf(history: seq<Event>, limit: nat): Option<Ledger> {
    if history == [] then Some(NEW_LEDGER) else
      var n := |history| - 1;
      var before := LedgerOf(history[..n], limit);
      if before.None? || !Enabled(before.value, history[n]) || !FreshIn(history[..n], history[n]) then None
      else Some(Apply(before.value, history[n], limit))
  }

  lemma {:induction false} Extends(history: seq<Event>, more: seq<Event>, limit: nat)
    requires LedgerOf(history + more, limit).Some?
    ensures LedgerOf(history, limit).Some?
  {
    if more == [] {
      assert history + more == history;
    } else {
      assert (history + more)[..|history| + |more| - 1] == history + more[..|more| - 1];
      Extends(history, more[..|more| - 1], limit);
    }
  }

  lemma PrefixHolds(history: seq<Event>, n: nat, limit: nat)
    requires LedgerOf(history, limit).Some? && n <= |history|
    ensures LedgerOf(history[..n], limit).Some?
  {
    assert history[..n] + history[n..] == history;
    Extends(history[..n], history[n..], limit);
  }

  lemma StepAt(history: seq<Event>, i: nat, limit: nat)
    requires LedgerOf(history, limit).Some? && i < |history|
    ensures LedgerOf(history[..i], limit).Some? && Enabled(LedgerOf(history[..i], limit).value, history[i])
  {
    PrefixHolds(history, i + 1, limit);
    assert history[..i + 1][..i] == history[..i];
  }

  // ------------------------------------------------------------------ several events at once

  function RunEvents(l: Ledger, events: seq<Event>, maxTurns: nat): Option<Ledger> {
    if events == [] then Some(l) else
      var before := RunEvents(l, events[..|events| - 1], maxTurns);
      if before.None? || !Enabled(before.value, events[|events| - 1]) then None
      else Some(Apply(before.value, events[|events| - 1], maxTurns))
  }

  lemma TwoEvents(l: Ledger, a: Event, b: Event, maxTurns: nat)
    ensures RunEvents(l, [a], maxTurns) == if Enabled(l, a) then Some(Apply(l, a, maxTurns)) else None
    ensures Enabled(l, a) && Enabled(Apply(l, a, maxTurns), b) ==>
              RunEvents(l, [a, b], maxTurns) == Some(Apply(Apply(l, a, maxTurns), b, maxTurns))
  {
    hide Apply, Enabled;
    assert [a][..0] == [] && [a, b][..1] == [a];
  }

  lemma {:induction false} RunConcat(l: Ledger, a: seq<Event>, b: seq<Event>, maxTurns: nat)
    requires RunEvents(l, a, maxTurns).Some?
    ensures RunEvents(l, a + b, maxTurns) == RunEvents(RunEvents(l, a, maxTurns).value, b, maxTurns)
  {
    hide Apply, Enabled;
    if b == [] {
      assert a + b == a;
    } else {
      assert (a + b)[..|a + b| - 1] == a + b[..|b| - 1];
      RunConcat(l, a, b[..|b| - 1], maxTurns);
    }
  }

  lemma HistoryExtends(h: seq<Event>, events: seq<Event>, l: Ledger, maxTurns: nat)
    requires LedgerOf(h, maxTurns) == Some(l) && RunEvents(l, events, maxTurns).Some?
    requires forall i | 0 <= i < |events| :: FreshIn(h + events[..i], events[i])
    ensures LedgerOf(h + events, maxTurns) == RunEvents(l, events, maxTurns)
    decreases |events|
  {
    hide Enabled, Apply, FreshIn;
    if events == [] {
      assert h + events == h;
    } else {
      var n := |events| - 1;
      assert (h + events)[..|h| + n] == h + events[..n] && (h + events)[|h| + n] == events[n];
      forall i | 0 <= i < n ensures FreshIn(h + events[..n][..i], events[..n][i]) {
        assert events[..n][..i] == events[..i] && events[..n][i] == events[i];
        assert FreshIn(h + events[..i], events[i]);
      }
      HistoryExtends(h, events[..n], l, maxTurns);
      assert FreshIn(h + events[..n], events[n]);
    }
  }

  /** At most one grant, and its token is new. */
  ghost predicate OneGrant(h: seq<Event>, events: seq<Event>) {
    && (forall i | 0 <= i < |events| && events[i].Granted? :: FreshIn(h, events[i]))
    && (forall i, j | 0 <= i < j < |events| && events[i].Granted? :: !events[j].Granted?)
  }

  lemma OneGrantIsFresh(h: seq<Event>, events: seq<Event>)
    requires OneGrant(h, events)
    ensures forall i | 0 <= i < |events| :: FreshIn(h + events[..i], events[i])
  {
    forall i | 0 <= i < |events| ensures FreshIn(h + events[..i], events[i]) {
      if events[i].Granted? {
        forall k | 0 <= k < |h + events[..i]|
          ensures (h + events[..i])[k].Granted? ==> (h + events[..i])[k].token != events[i].token
        {
          if k >= |h| { assert (h + events[..i])[k] == events[k - |h|]; } else { assert (h + events[..i])[k] == h[k]; }
        }
      }
    }
  }

  // ------------------------------------------------------------------ claims

  predicate Ends(e: Event, token: Token) { (e.Finished? || e.GaveUp?) && e.token == token }

  /** The token was granted for this request and payload, and for nothing else. */
  ghost predicate GrantedFor(history: seq<Event>, r: Request, payload: string, token: Token) {
    exists i :: 0 <= i < |history| && history[i] == Granted(r, payload, token)
  }

  ghost predicate Unended(history: seq<Event>, token: Token) {
    forall i | 0 <= i < |history| :: !Ends(history[i], token)
  }

  /** No grant for the request came after the token's. */
  ghost predicate LatestFor(history: seq<Event>, r: Request, token: Token) {
    forall i, j | 0 <= i < j < |history| && history[i].Granted? && history[i].token == token ::
      !(history[j].Granted? && history[j].request == r)
  }

  ghost predicate CommittedAs(history: seq<Event>, r: Request, token: Token, response: string) {
    exists i :: 0 <= i < |history| && history[i].Finished? && history[i].request == r
      && history[i].token == token && history[i].response == response
  }

  ghost predicate ClaimTells(history: seq<Event>, r: Request, c: Claim) {
    && GrantedFor(history, r, c.payload, c.owner)
    && (c.status == InProgress ==> Unended(history, c.owner) && LatestFor(history, r, c.owner))
    && (c.status == Completed ==> c.response.Some? && CommittedAs(history, r, c.owner, c.response.value))
  }

  lemma ClaimStays(history: seq<Event>, e: Event, r: Request, c: Claim)
    requires ClaimTells(history, r, c)
    requires c.status == InProgress ==> !Ends(e, c.owner) && !(e.Granted? && e.request == r)
    ensures ClaimTells(history + [e], r, c)
  {
    var longer := history + [e];
    var i :| 0 <= i < |history| && history[i] == Granted(r, c.payload, c.owner);
    assert longer[i] == history[i];
    if c.status == Completed {
      var k :| 0 <= k < |history| && history[k].Finished? && history[k].request == r
        && history[k].token == c.owner && history[k].response == c.response.value;
      assert longer[k] == history[k];
    }
  }

  lemma GrantTells(history: seq<Event>, r: Request, payload: string, token: Token)
    requires FreshIn(history, Granted(r, payload, token)) && Unended(history, token)
    ensures ClaimTells(history + [Granted(r, payload, token)], r, Claim(payload, InProgress, token, None))
  {
    var longer := history + [Granted(r, payload, token)];
    assert longer[|history|] == Granted(r, payload, token);
  }

  /** Only granted tokens ever end. */
  ghost predicate EndsWereGranted(history: seq<Event>) {
    forall i | 0 <= i < |history| && (history[i].Finished? || history[i].GaveUp?) ::
      exists k :: 0 <= k < i && history[k].Granted? && history[k].token == history[i].token && history[k].request == history[i].request
  }

  lemma {:induction false} TokensGrantedOnce(history: seq<Event>, limit: nat)
    requires LedgerOf(history, limit).Some?
    ensures TokensOnce(history)
  {
    if history != [] {
      TokensGrantedOnce(history[..|history| - 1], limit);
    }
  }

  /** Every end was granted, and every claim in the table tells the truth about the history. */
  lemma {:induction false} ClaimsTell(history: seq<Event>, limit: nat)
    requires LedgerOf(history, limit).Some?
    ensures EndsWereGranted(history) && AllTell(history, LedgerOf(history, limit).value)
  {
    hide ClaimTells, EndsWereGranted, Push;
    if history == [] {
      assert EndsWereGranted([]) by { NothingEnded(); }
    } else {
      var n := |history| - 1;
      var before, e := history[..n], history[n];
      assert history == before + [e];
      ClaimsTell(before, limit);
      TokensGrantedOnce(before, limit);
      EndWasGranted(before, e, LedgerOf(before, limit).value);
      StepTells(before, e, LedgerOf(before, limit).value, limit);
    }
  }

  lemma NothingEnded()
    ensures EndsWereGranted([])
  {}

  ghost predicate AllTell(history: seq<Event>, l: Ledger) {
    forall r | r in l.claims :: ClaimTells(history, r, l.claims[r])
  }

  lemma StepTells(before: seq<Event>, e: Event, l: Ledger, limit: nat)
    requires AllTell(before, l) && Enabled(l, e) && FreshIn(before, e) && TokensOnce(before) && EndsWereGranted(before)
    ensures AllTell(before + [e], Apply(l, e, limit))
  {
    hide ClaimTells, EndsWereGranted, Trim, TokensOnce;
    var l' := Apply(l, e, limit);
    forall r | r in l'.claims ensures ClaimTells(before + [e], r, l'.claims[r]) {
      if e.Granted? && e.request == r {
        UnendedWhenFresh(before, e);
        GrantTells(before, r, e.payload, e.token);
      } else if e.Finished? && e.request == r {
        FinishTells(before, e, l.claims[r]);
      } else if e.GaveUp? && e.request == r {
        GaveUpTells(before, e, l.claims[r]);
      } else {
        OtherClaimsStay(before, e, r, l);
      }
    }
  }

  lemma GaveUpTells(history: seq<Event>, e: Event, c: Claim)
    requires e.GaveUp? && ClaimTells(history, e.request, c) && c.status == InProgress
    ensures ClaimTells(history + [e], e.request, c.(status := Failed))
  {
    ClaimStays(history, e, e.request, c.(status := Failed));
  }

  lemma UnendedWhenFresh(history: seq<Event>, e: Event)
    requires EndsWereGranted(history) && e.Granted? && FreshIn(history, e)
    ensures Unended(history, e.token)
  {}

  lemma EndWasGranted(history: seq<Event>, e: Event, l: Ledger)
    requires Enabled(l, e) && EndsWereGranted(history) && AllTell(history, l)
    ensures EndsWereGranted(history + [e])
  {
    var longer := history + [e];
    if e.Finished? || e.GaveUp? {
      var c := l.claims[e.request];
      var k :| 0 <= k < |history| && history[k] == Granted(e.request, c.payload, c.owner);
      assert longer[k] == history[k];
    }
    forall i | 0 <= i < |history| && (longer[i].Finished? || longer[i].GaveUp?)
      ensures exists k :: 0 <= k < i && longer[k].Granted? && longer[k].token == longer[i].token && longer[k].request == longer[i].request
    {
      assert longer[i] == history[i];
      var k :| 0 <= k < i && history[k].Granted? && history[k].token == history[i].token && history[k].request == history[i].request;
      assert longer[k] == history[k];
    }
  }

  lemma FinishTells(history: seq<Event>, e: Event, c: Claim)
    requires e.Finished? && ClaimTells(history, e.request, c) && c.owner == e.token
    ensures ClaimTells(history + [e], e.request, c.(status := Completed, response := Some(e.response)))
  {
    var longer := history + [e];
    var i :| 0 <= i < |history| && history[i] == Granted(e.request, c.payload, c.owner);
    assert longer[i] == history[i] && longer[|history|] == e;
  }

  /** Claims of different requests have different owners, so an event for one cannot end the other. */
  lemma OwnersDiffer(history: seq<Event>, r: Request, c: Claim, q: Request, d: Claim)
    requires ClaimTells(history, r, c) && ClaimTells(history, q, d) && TokensOnce(history) && r != q
    ensures c.owner != d.owner
  {
    var i :| 0 <= i < |history| && history[i] == Granted(r, c.payload, c.owner);
    var j :| 0 <= j < |history| && history[j] == Granted(q, d.payload, d.owner);
  }

  lemma OtherClaimsStay(history: seq<Event>, e: Event, r: Request, l: Ledger)
    requires r in l.claims && Enabled(l, e) && AllTell(history, l) && TokensOnce(history)
    requires !((e.Granted? || e.Finished? || e.GaveUp?) && e.request == r)
    ensures ClaimTells(history + [e], r, l.claims[r])
  {
    hide ClaimTells;
    if e.Finished? || e.GaveUp? {
      OwnersDiffer(history, r, l.claims[r], e.request, l.claims[e.request]);
    }
    ClaimStays(history, e, r, l.claims[r]);
  }

  ghost predicate TokensOnce(history: seq<Event>) {
    forall i, j | 0 <= i < |history| && 0 <= j < |history| && history[i].Granted? && history[j].Granted? && history[i].token == history[j].token ::
      i == j
  }

  // ------------------------------------------------------------------ what callers may rely on

  /** An owner token ends its request at most once, whether by completing it (with its one turn) or by failing it. */
  lemma TokenEndsOnce(history: seq<Event>, limit: nat, token: Token, i: nat, j: nat)
    requires LedgerOf(history, limit).Some? && i < j < |history|
    requires Ends(history[i], token)
    ensures !Ends(history[j], token)
  {
    StepAt(history, j, limit);
    ClaimsTell(history[..j], limit);
    var l, e := LedgerOf(history[..j], limit).value, history[j];
    assert history[..j][i] == history[i];
    if e.Finished? || e.GaveUp? { assert ClaimTells(history[..j], e.request, l.claims[e.request]); }
  }

  /** Once a newer token was granted for the request, the older one can neither complete nor fail anything. */
  lemma SupersededTokenIsDead(history: seq<Event>, limit: nat, i: nat, j: nat, k: nat)
    requires LedgerOf(history, limit).Some? && i < j < k < |history|
    requires history[i].Granted? && history[j].Granted? && history[i].request == history[j].request
    ensures !Ends(history[k], history[i].token)
  {
    StepAt(history, k, limit);
    ClaimsTell(history[..k], limit);
    TokensGrantedOnce(history[..k], limit);
    var past, l, e := history[..k], LedgerOf(history[..k], limit).value, history[k];
    assert past[i] == history[i] && past[j] == history[j];
    if e.Finished? || e.GaveUp? {
      assert ClaimTells(past, e.request, l.claims[e.request]);
      OwnerRequest(past, e.request, l.claims[e.request], i);
    }
  }

  lemma OwnerRequest(history: seq<Event>, r: Request, c: Claim, i: nat)
    requires ClaimTells(history, r, c) && TokensOnce(history) && i < |history| && history[i].Granted?
    ensures history[i].token == c.owner ==> history[i].request == r
  {
    var k :| 0 <= k < |history| && history[k] == Granted(r, c.payload, c.owner);
  }

  /** Grant i and completion k belong together and stored what the replay returns. */
  ghost predicate CommittedBy(history: seq<Event>, i: nat, k: nat, replay: Event)
    requires i < |history| && k < |history| && replay.Replayed?
  {
    && history[k].Finished? && history[k].request == replay.request && history[k].response == replay.response
    && history[i] == Granted(replay.request, replay.payload, history[k].token)
  }

  /** A replay returns a response that an earlier completion of the same request, with the same payload, stored. */
  lemma ReplayWasCommitted(history: seq<Event>, limit: nat, j: nat)
    requires LedgerOf(history, limit).Some? && j < |history| && history[j].Replayed?
    ensures exists i, k :: 0 <= i < k < j && CommittedBy(history, i, k, history[j])
  {
    StepAt(history, j, limit);
    var past, e := history[..j], history[j];
    ClaimsTell(past, limit);
    TokensGrantedOnce(past, limit);
    var c := LedgerOf(past, limit).value.claims[e.request];
    assert ClaimTells(past, e.request, c);
    var k :| 0 <= k < j && past[k].Finished? && past[k].request == e.request && past[k].token == c.owner && past[k].response == e.response;
    var g :| 0 <= g < j && past[g] == Granted(e.request, c.payload, c.owner);
    var i :| 0 <= i < k && past[i].Granted? && past[i].token == past[k].token && past[i].request == past[k].request;
    assert i == g;
    assert history[i] == past[i] && history[k] == past[k];
    assert CommittedBy(history, i, k, e);
  }

  // ------------------------------------------------------------------ the log

  function TurnsAfter(all: seq<Turn>, e: Event): seq<Turn> {
    match e
    case Finished(_, _, body, _) => all + [Turn(|all| + 1, body)]
    case Appended(body) => all + [Turn(|all| + 1, body)]
    case Dropped => []
    case _ => all
  }

  /** The turns appended since the session was last lost, in order. */
  function AllTurns(history: seq<Event>): seq<Turn> {
    if history == [] then [] else TurnsAfter(AllTurns(history[..|history| - 1]), history[|history| - 1])
  }

  /** The kept turns are the newest of all, and all are numbered without a gap. */
  ghost predicate NewestOf(l: Ledger, all: seq<Turn>, limit: nat) {
    l.turns == Trim(all, limit) && l.next == |all| + 1 && forall i | 0 <= i < |all| :: all[i].index == i + 1
  }

  lemma StepKeepsNewest(l: Ledger, all: seq<Turn>, e: Event, limit: nat)
    requires NewestOf(l, all, limit) && Enabled(l, e)
    ensures NewestOf(Apply(l, e, limit), TurnsAfter(all, e), limit)
  {
    TrimOnce(all, l.turns, limit);
  }

  /** The kept turns are always the newest of all appended ones, as many as the limit allows, and all
      indexes are consecutive. */
  lemma {:induction false} LogIsNewestTurns(history: seq<Event>, limit: nat)
    requires LedgerOf(history, limit).Some?
    ensures NewestOf(LedgerOf(history, limit).value, AllTurns(history), limit)
  {
    hide Apply, Enabled, FreshIn, TurnsAfter;
    if history == [] {
      assert NewestOf(NEW_LEDGER, [], limit);
    } else {
      var n := |history| - 1;
      LogIsNewestTurns(history[..n], limit);
      StepKeepsNewest(LedgerOf(history[..n], limit).value, AllTurns(history[..n]), history[n], limit);
    }
  }

  lemma TrimOnce(all: seq<Turn>, kept: seq<Turn>, limit: nat)
    ensures forall t :: Trim(Trim(all, limit) + [t], limit) == Trim(all + [t], limit)
  {
    forall t ensures Trim(Trim(all, limit) + [t], limit) == Trim(all + [t], limit) {
      if limit > 0 && |all| > limit {
        assert (all[|all| - limit..] + [t])[1..] == (all + [t])[|all| + 1 - limit..];
      }
    }
  }

  /** The number kept: all of them up to the limit, and all of them when the limit is zero. */
  lemma KeptCount(turns: seq<Turn>, limit: nat)
    ensures |Trim(turns, limit)| == if limit == 0 || |turns| <= limit then |turns| else limit
    ensures Trim(turns, limit) == turns[|turns| - |Trim(turns, limit)|..]
  {}
}
