/** Whom the scheduler claims, in terms of the table alone, at every claim of every run. */
module ClaimOrder {
  import opened Prelude
  import opened TurnTypes
  import opened TurnSteps
  import opened TurnInvariant
  import opened Scheduler
  import opened WorldSafety
  import opened TurnRuns

  /** Queued with a try left, and every earlier turn of the conversation has ended or is out of tries. */
  predicate Open(turns: seq<Turn>, i: nat) {
    && i < |turns| && turns[i].state == Queued && turns[i].attempts < turns[i].maxAttempts
    && forall p | 0 <= p < i && turns[p].conversation == turns[i].conversation :: Settled(turns[p])
  }

  lemma EligibleIsOpen(w: World, i: nat)
    requires TableInv(w)
    ensures i < |w.turns| && Eligible(w.turns, i) <==> Open(w.turns, i)
  {
    if i < |w.turns| {
      forall p | 0 <= p < i && w.turns[p].conversation == w.turns[i].conversation
        ensures Blocks(w.turns[p], w.turns[i]) <==> !Settled(w.turns[p])
      {
        assert RowInv(w.turns[p]);
      }
    }
  }

  function Taken(turns: seq<Turn>): set<nat> {
    set i | 0 <= i < |turns| && (turns[i].state == Running || turns[i].state == CancelRequested)
  }

  lemma TakenExtends(turns: seq<Turn>)
    requires turns != []
    ensures var (n, t) := (|turns| - 1, turns[|turns| - 1]);
            && n !in Taken(turns[..n])
            && Taken(turns) == Taken(turns[..n]) + if t.state == Running || t.state == CancelRequested then {n} else {}
  {
  }

  lemma {:induction false} ActiveCountIsTaken(turns: seq<Turn>)
    ensures ActiveCount(turns, None) == |Taken(turns)|
  {
    if turns != [] {
      TakenExtends(turns);
      ActiveCountIsTaken(turns[..|turns| - 1]);
    }
  }

  /** Turn i may be claimed: a slot is free, it is open and not locked, and it goes before every other
      such turn. */
  ghost predicate GoesFirst(turns: seq<Turn>, slots: nat, locked: set<nat>, i: nat) {
    && |Taken(turns)| < slots && Open(turns, i) && i !in locked
    && forall j: nat | Open(turns, j) && j !in locked && j != i :: GoesBefore(turns, i, j)
  }

  /** The claim query means exactly that. */
  lemma ClaimExactly(w: World, configured: int, locked: set<nat>, i: nat, now: nat)
    requires TableInv(w)
    ensures CanClaim(w, Claim(configured, locked, i, now)) <==> GoesFirst(w.turns, EffectiveCapacity(configured), locked, i)
  {
    ActiveCountIsTaken(w.turns);
    ChosenGoesFirst(w.turns, locked, i);
    forall j: nat
      ensures Candidate(w.turns, locked, j) <==> Open(w.turns, j) && j !in locked
    {
      EligibleIsOpen(w, j);
    }
  }

  /** At every claim of every run the first open turn takes a free slot. */
  lemma ClaimedInOrder(ws: seq<World>, es: seq<WorldEvent>, k: nat)
    requires Run(ws, es) && k < |es| && es[k].Claim?
    ensures GoesFirst(ws[k].turns, EffectiveCapacity(es[k].configured), es[k].locked, es[k].id)
  {
    RunTable(ws, es, k);
    assert Moves(ws[k], es[k], ws[k + 1]);
    ClaimExactly(ws[k], es[k].configured, es[k].locked, es[k].id, es[k].claimedAt);
  }

  /** The oldest request first: of two open turns of one user, or of two users who are served alike, the one
      that was queued first is claimed first, and on a tie the one with the lower id. */
  lemma OldestRequestFirst(ws: seq<World>, es: seq<WorldEvent>, k: nat, j: nat)
    requires Run(ws, es) && k < |es| && es[k].Claim? && Open(ws[k].turns, j) && j !in es[k].locked
    ensures es[k].id < |ws[k].turns|
    ensures var (turns, i) := (ws[k].turns, es[k].id);
            turns[i].user == turns[j].user || EquallyServed(turns, turns[i].user, turns[j].user) ==>
              turns[i].queuedAt < turns[j].queuedAt || (turns[i].queuedAt == turns[j].queuedAt && i <= j)
  {
    ClaimedInOrder(ws, es, k);
    ServedLikeOneself(ws[k].turns, ws[k].turns[j].user);
    var (turns, i) := (ws[k].turns, es[k].id);
    if i != j { assert GoesBefore(turns, i, j); }
  }

  lemma ServedLikeOneself(turns: seq<Turn>, u: nat)
    ensures ServedNoLater(turns, u, u)
  {
  }

  lemma {:induction false} FirstOf(turns: seq<Turn>, locked: set<nat>, n: nat) returns (best: Option<nat>)
    requires n <= |turns|
    ensures best.None? ==> forall j: nat | j < n :: !Candidate(turns, locked, j)
    ensures best.Some? ==> best.value < n && Candidate(turns, locked, best.value)
    ensures best.Some? ==> forall j: nat | j < n && Candidate(turns, locked, j) && j != best.value :: Precedes(turns, best.value, j)
  {
    if n == 0 { return None; }
    var m := n - 1;
    best := FirstOf(turns, locked, m);
    if Candidate(turns, locked, m) {
      if best.None? { return Some(m); }
      PrecedesIsTotal(turns, m, best.value);
      if Precedes(turns, m, best.value) {
        forall j: nat | j < m && Candidate(turns, locked, j)
          ensures Precedes(turns, m, j)
        {
          if j != best.value { PrecedesIsTransitive(turns, m, best.value, j); }
        }
        best := Some(m);
      }
    }
  }

  /** No slot stays idle while an open turn can be locked: some turn can be claimed exactly when a slot is
      free and an open turn is not locked. */
  lemma NoIdleSlot(w: World, configured: int, locked: set<nat>, now: nat)
    requires TableInv(w)
    ensures (exists i :: CanClaim(w, Claim(configured, locked, i, now))) <==>
              |Taken(w.turns)| < EffectiveCapacity(configured) && exists i :: Open(w.turns, i) && i !in locked
  {
    ActiveCountIsTaken(w.turns);
    var best := FirstOf(w.turns, locked, |w.turns|);
    if i :| CanClaim(w, Claim(configured, locked, i, now)) { EligibleIsOpen(w, i); }
    if i: nat :| Open(w.turns, i) && i !in locked {
      EligibleIsOpen(w, i);
      assert Candidate(w.turns, locked, i);
      if |Taken(w.turns)| < EffectiveCapacity(configured) { assert CanClaim(w, Claim(configured, locked, best.value, now)); }
    }
  }
}
