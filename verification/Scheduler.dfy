/** The turn table and its scheduler: idempotent enqueueing, bounded capacity, causal order inside
    a conversation and a fair order between users. A turn's index is its id. */
module Scheduler {
  import opened Prelude
  import opened TurnTypes
  import opened TurnSteps

  const SUPPORTED_CAPACITY: nat := 2

  datatype World = World(turns: seq<Turn>, nextToken: Token)

  datatype WorldEvent =
    | Enqueue(conversation: nat, user: nat, requestId: Option<string>, queuedAt: nat)
    | Claim(configured: int, locked: set<nat>, id: nat, claimedAt: nat)
    | On(id: nat, event: Event)

  const EMPTY := World([], 0)

  /** The configured number of slots, raised to one or lowered to what the host supports when it lies
      outside. A missing or
      unreadable setting counts as the supported number. */
  function EffectiveCapacity(configured: int): (slots: nat)
    ensures 1 <= slots <= SUPPORTED_CAPACITY
    ensures configured < slots ==> slots == 1
    ensures slots < configured ==> slots == SUPPORTED_CAPACITY
  {
    if configured < 1 then 1 else if configured > SUPPORTED_CAPACITY then SUPPORTED_CAPACITY else configured
  }

  // ----- Aggregates of the claim query -----

  predicate Counts(t: Turn, user: Option<nat>) {
    Active(t.state) && (user.None? || user.value == t.user)
  }

  /** Active turns, of one user or of all. */
  function ActiveCount(turns: seq<Turn>, user: Option<nat>): nat {
    if turns == [] then 0
    else ActiveCount(turns[..|turns| - 1], user) + if Counts(turns[|turns| - 1], user) then 1 else 0
  }

  /** Nulls first. */
  predicate Earlier(a: Option<nat>, b: Option<nat>) {
    b.Some? && (a.None? || a.value < b.value)
  }

  function Latest(a: Option<nat>, b: Option<nat>): Option<nat> {
    if Earlier(a, b) then b else a
  }

  /** When the scheduler last served the user. */
  function LastClaimed(turns: seq<Turn>, user: nat): Option<nat> {
    if turns == [] then None
    else
      var last := turns[|turns| - 1];
      var rest := LastClaimed(turns[..|turns| - 1], user);
      if last.user == user then Latest(rest, last.claimedAt) else rest
  }

  // ----- Eligibility and order -----

  predicate Blocks(predecessor: Turn, candidate: Turn) {
    && predecessor.conversation == candidate.conversation
    && (Live(predecessor.state) || (predecessor.state.Queued? && predecessor.attempts < predecessor.maxAttempts))
  }

  predicate Eligible(turns: seq<Turn>, i: nat)
    requires i < |turns|
  {
    && turns[i].state.Queued?
    && turns[i].attempts < turns[i].maxAttempts
    && forall p | 0 <= p < i :: !Blocks(turns[p], turns[i])
  }

  /** Fewest active turns of the user, least recently served user, oldest request, lowest id. */
  predicate Precedes(turns: seq<Turn>, i: nat, j: nat)
    requires i < |turns| && j < |turns|
  {
    var (a, b) := (turns[i], turns[j]);
    var (activeA, activeB) := (ActiveCount(turns, Some(a.user)), ActiveCount(turns, Some(b.user)));
    var (lastA, lastB) := (LastClaimed(turns, a.user), LastClaimed(turns, b.user));
    || activeA < activeB
    || (activeA == activeB &&
        (|| Earlier(lastA, lastB)
         || (lastA == lastB && (a.queuedAt < b.queuedAt || (a.queuedAt == b.queuedAt && i < j)))))
  }

  predicate Candidate(turns: seq<Turn>, locked: set<nat>, i: nat) {
    i < |turns| && i !in locked && Eligible(turns, i)
  }

  /** The row the claim query returns: first among the candidates nobody else has locked. */
  ghost predicate Chosen(turns: seq<Turn>, locked: set<nat>, i: nat) {
    && Candidate(turns, locked, i)
    && forall j: nat | Candidate(turns, locked, j) && j != i :: Precedes(turns, i, j)
  }

  ghost predicate CanClaim(w: World, e: WorldEvent)
    requires e.Claim?
  {
    ActiveCount(w.turns, None) < EffectiveCapacity(e.configured) && Chosen(w.turns, e.locked, e.id)
  }

  function Claimed(w: World, id: nat, now: nat): World
    requires id < |w.turns|
  {
    World(w.turns[id := ClaimTurn(w.turns[id], w.nextToken, now)], w.nextToken + 1)
  }

  // ----- Enqueueing -----

  predicate SameRequest(t: Turn, user: nat, requestId: Option<string>) {
    requestId.Some? && t.user == user && t.requestId == requestId
  }

  predicate Known(turns: seq<Turn>, user: nat, requestId: Option<string>) {
    exists i | 0 <= i < |turns| :: SameRequest(turns[i], user, requestId)
  }

  function Enqueued(w: World, conversation: nat, user: nat, requestId: Option<string>, now: nat): World {
    if Known(w.turns, user, requestId) then w
    else w.(turns := w.turns + [NewTurn(conversation, user, requestId, now)])
  }

  ghost function WorldNext(w: World, e: WorldEvent): Option<World> {
    match e
    case Enqueue(conversation, user, requestId, now) => Some(Enqueued(w, conversation, user, requestId, now))
    case Claim(configured, locked, id, now) => if CanClaim(w, e) then Some(Claimed(w, id, now)) else None
    case On(id, event) =>
      if id >= |w.turns| then None else
      var next := TurnNext(w.turns[id], event);
      if next.None? then None else Some(w.(turns := w.turns[id := next.value]))
  }

  // ----- The order is total, so the choice is unique -----

  lemma PrecedesIsTotal(turns: seq<Turn>, i: nat, j: nat)
    requires i < |turns| && j < |turns| && i != j
    ensures Precedes(turns, i, j) <==> !Precedes(turns, j, i)
  {
  }

  lemma PrecedesIsTransitive(turns: seq<Turn>, i: nat, j: nat, k: nat)
    requires i < |turns| && j < |turns| && k < |turns| && Precedes(turns, i, j) && Precedes(turns, j, k)
    ensures Precedes(turns, i, k)
  {
  }

  lemma ChoiceIsUnique(turns: seq<Turn>, locked: set<nat>, i: nat, j: nat)
    requires Chosen(turns, locked, i) && Chosen(turns, locked, j)
    ensures i == j
  {
    if i != j { PrecedesIsTotal(turns, i, j); }
  }

  // ----- The order in plain terms -----

  /** The running turns of a user. */
  function ActiveRows(turns: seq<Turn>, user: nat): set<nat> {
    set i | 0 <= i < |turns| && turns[i].user == user && (turns[i].state == Running || turns[i].state == CancelRequested)
  }

  /** Whenever user u was served, v was served in that second or later. */
  ghost predicate ServedNoLater(turns: seq<Turn>, u: nat, v: nat) {
    forall i | 0 <= i < |turns| && turns[i].user == u && turns[i].claimedAt.Some? ::
      exists j :: 0 <= j < |turns| && turns[j].user == v && turns[j].claimedAt.Some? &&
                  turns[i].claimedAt.value <= turns[j].claimedAt.value
  }

  /** As many running turns and the same last service. */
  ghost predicate EquallyServed(turns: seq<Turn>, u: nat, v: nat) {
    |ActiveRows(turns, u)| == |ActiveRows(turns, v)| && ServedNoLater(turns, u, v) && ServedNoLater(turns, v, u)
  }

  /** Turn i goes before turn j: fewer running turns of its user, an earlier last service, an earlier
      request, a lower id, in this order. */
  ghost predicate GoesBefore(turns: seq<Turn>, i: nat, j: nat)
    requires i < |turns| && j < |turns|
  {
    var (u, v) := (turns[i].user, turns[j].user);
    || |ActiveRows(turns, u)| < |ActiveRows(turns, v)|
    || (|ActiveRows(turns, u)| == |ActiveRows(turns, v)| && !ServedNoLater(turns, v, u))
    || (EquallyServed(turns, u, v) && turns[i].queuedAt < turns[j].queuedAt)
    || (EquallyServed(turns, u, v) && turns[i].queuedAt == turns[j].queuedAt && i < j)
  }

  lemma ActiveRowsExtend(turns: seq<Turn>, user: nat)
    requires turns != []
    ensures var (n, t) := (|turns| - 1, turns[|turns| - 1]);
            ActiveRows(turns, user) == ActiveRows(turns[..n], user)
              + if t.user == user && (t.state == Running || t.state == CancelRequested) then {n} else {}
    ensures |turns| - 1 !in ActiveRows(turns[..|turns| - 1], user)
  {
  }

  lemma {:induction false} ActiveCountIs(turns: seq<Turn>, user: nat)
    ensures ActiveCount(turns, Some(user)) == |ActiveRows(turns, user)|
  {
    if turns != [] {
      ActiveRowsExtend(turns, user);
      ActiveCountIs(turns[..|turns| - 1], user);
    }
  }

  lemma {:induction false} ServedNoLaterIs(turns: seq<Turn>, u: nat, v: nat)
    ensures var (a, b) := (LastClaimed(turns, u), LastClaimed(turns, v));
            ServedNoLater(turns, u, v) <==> a.None? || (b.Some? && a.value <= b.value)
  {
    LastClaimedBounds(turns, u);
    LastClaimedBounds(turns, v);
    var (a, b) := (LastClaimed(turns, u), LastClaimed(turns, v));
    if a.Some? {
      var i :| 0 <= i < |turns| && turns[i].user == u && turns[i].claimedAt == a;
      if b.Some? {
        var j :| 0 <= j < |turns| && turns[j].user == v && turns[j].claimedAt == b;
      }
    }
  }

  lemma {:induction false} ServiceOrderIs(turns: seq<Turn>, u: nat, v: nat)
    ensures Earlier(LastClaimed(turns, u), LastClaimed(turns, v)) <==> !ServedNoLater(turns, v, u)
    ensures LastClaimed(turns, u) == LastClaimed(turns, v) <==> ServedNoLater(turns, u, v) && ServedNoLater(turns, v, u)
  {
    ServedNoLaterIs(turns, u, v);
    ServedNoLaterIs(turns, v, u);
  }

  lemma {:induction false} PrecedesIs(turns: seq<Turn>, i: nat, j: nat)
    requires i < |turns| && j < |turns|
    ensures Precedes(turns, i, j) <==> GoesBefore(turns, i, j)
  {
    var (u, v) := (turns[i].user, turns[j].user);
    ActiveCountIs(turns, u);
    ActiveCountIs(turns, v);
    ServiceOrderIs(turns, u, v);
  }

  lemma {:induction false} ChosenGoesFirst(turns: seq<Turn>, locked: set<nat>, i: nat)
    ensures Chosen(turns, locked, i) <==>
              Candidate(turns, locked, i) && forall j: nat | Candidate(turns, locked, j) && j != i :: GoesBefore(turns, i, j)
  {
    if Candidate(turns, locked, i) {
      forall j: nat | Candidate(turns, locked, j)
        ensures Precedes(turns, i, j) <==> GoesBefore(turns, i, j)
      {
        PrecedesIs(turns, i, j);
      }
    }
  }

  /** The claim query: one pass that keeps the best candidate seen so far. */
  method SelectCandidate(turns: seq<Turn>, locked: set<nat>) returns (best: Option<nat>)
    ensures match best
            case Some(i) => Chosen(turns, locked, i)
            case None => forall i: nat :: !Candidate(turns, locked, i)
    ensures best.Some? ==> forall j: nat | Candidate(turns, locked, j) && j != best.value :: GoesBefore(turns, best.value, j)
  {
    best := None;
    for i := 0 to |turns|
      invariant best.Some? ==> best.value < i && Candidate(turns, locked, best.value)
      invariant forall j: nat | j < i && Candidate(turns, locked, j) ::
                  best.Some? && (j == best.value || Precedes(turns, best.value, j))
    {
      if Candidate(turns, locked, i) && (best.None? || Precedes(turns, i, best.value)) {
        forall j: nat | j < i && Candidate(turns, locked, j)
          ensures Precedes(turns, i, j)
        {
          if j != best.value { PrecedesIsTransitive(turns, i, best.value, j); }
        }
        best := Some(i);
      } else if Candidate(turns, locked, i) {
        PrecedesIsTotal(turns, i, best.value);
      }
    }
    if best.Some? { ChosenGoesFirst(turns, locked, best.value); }
  }

  // ----- How one row changes the aggregates -----

  lemma {:induction false} CountAfterUpdate(turns: seq<Turn>, i: nat, t: Turn, user: Option<nat>)
    requires i < |turns|
    ensures ActiveCount(turns[i := t], user) + (if Counts(turns[i], user) then 1 else 0)
         == ActiveCount(turns, user) + (if Counts(t, user) then 1 else 0)
  {
    var after, n := turns[i := t], |turns| - 1;
    if i == n {
      assert after[..n] == turns[..n];
    } else {
      assert after[..n] == turns[..n][i := t];
      CountAfterUpdate(turns[..n], i, t, user);
    }
  }

  /** LastClaimed is the maximum over the user's rows. */
  lemma {:induction false} LastClaimedBounds(turns: seq<Turn>, user: nat)
    ensures forall i | 0 <= i < |turns| && turns[i].user == user :: !Earlier(LastClaimed(turns, user), turns[i].claimedAt)
    ensures LastClaimed(turns, user).Some? ==>
              exists i | 0 <= i < |turns| :: turns[i].user == user && turns[i].claimedAt == LastClaimed(turns, user)
  {
    if turns != [] {
      var n := |turns| - 1;
      LastClaimedBounds(turns[..n], user);
      var rest := LastClaimed(turns[..n], user);
      if rest.Some? && LastClaimed(turns, user) == rest {
        var i :| 0 <= i < n && turns[..n][i].user == user && turns[..n][i].claimedAt == rest;
        assert turns[i].user == user && turns[i].claimedAt == rest;
      } else if LastClaimed(turns, user).Some? {
        assert turns[n].user == user && turns[n].claimedAt == LastClaimed(turns, user);
      }
      forall i | 0 <= i < |turns| && turns[i].user == user
        ensures !Earlier(LastClaimed(turns, user), turns[i].claimedAt)
      {
        if i < n { assert turns[..n][i] == turns[i]; }
      }
    }
  }

  lemma {:induction false} CountZero(turns: seq<Turn>, user: Option<nat>)
    ensures ActiveCount(turns, user) == 0 <==> forall i | 0 <= i < |turns| :: !Counts(turns[i], user)
  {
    if turns != [] {
      var n := |turns| - 1;
      CountZero(turns[..n], user);
      assert forall i | 0 <= i < n :: turns[..n][i] == turns[i];
      assert ActiveCount(turns, user) == 0 ==> !Counts(turns[n], user);
    }
  }
}
