/** Theorems about whole runs: any number of turns, users, workers, failures, crashes and
    user requests, in any order. */
module TurnRuns {
  import opened Prelude
  import opened TurnTypes
  import opened EffectJournal
  import opened TurnSteps
  import opened TurnInvariant
  import opened TurnSafety
  import opened TurnProgress
  import opened Scheduler
  import opened WorldSafety

  ghost predicate Moves(w: World, e: WorldEvent, w': World) {
    WorldNext(w, e) == Some(w')
  }

  ghost predicate Steps(ws: seq<World>, es: seq<WorldEvent>) {
    |ws| == |es| + 1 && forall i | 0 <= i < |es| :: Moves(ws[i], es[i], ws[i + 1])
  }

  /** A run from the empty table: nothing is assumed about its steps. */
  ghost predicate Run(ws: seq<World>, es: seq<WorldEvent>) {
    Steps(ws, es) && ws[0] == EMPTY
  }

  predicate ClaimOf(e: WorldEvent, id: nat) {
    e.Claim? && e.id == id
  }

  predicate ApprovalOf(e: WorldEvent, id: nat) {
    e.On? && e.id == id && e.event.Approve?
  }

  predicate Parks(e: WorldEvent, id: nat) {
    e.On? && e.id == id && e.event.PersistAwaiting?
  }

  // ----- Every run -----

  lemma {:induction false} RunTable(ws: seq<World>, es: seq<WorldEvent>, i: nat)
    requires Run(ws, es) && i < |ws|
    ensures TableInv(ws[i])
  {
    if i > 0 {
      RunTable(ws, es, i - 1);
      assert Moves(ws[i - 1], es[i - 1], ws[i]);
      StepKeepsTable(ws[i - 1], es[i - 1]);
    }
  }

  /** Capacity, leases and the attempt bound, at every point of every run. */
  lemma RunIsSafe(ws: seq<World>, es: seq<WorldEvent>, i: nat)
    requires Run(ws, es) && i < |ws|
    ensures ActiveCount(ws[i].turns, None) <= SUPPORTED_CAPACITY
    ensures forall a | 0 <= a < |ws[i].turns| ::
              && (ws[i].turns[a].token.Some? <==> Active(ws[i].turns[a].state))
              && ws[i].turns[a].state != CancelRequested
              && ws[i].turns[a].attempts <= ws[i].turns[a].maxAttempts <= MAX_ATTEMPTS_WITH_REDIRECTS + ws[i].turns[a].approvals
  {
    RunTable(ws, es, i);
    forall a | 0 <= a < |ws[i].turns|
      ensures RowInv(ws[i].turns[a])
    {
    }
  }

  // ----- Runs whose parking writes met the guard -----

  ghost predicate GuardedUpTo(ws: seq<World>, es: seq<WorldEvent>, n: nat)
    requires n <= |es| <= |ws|
  {
    forall k | 0 <= k < n :: WorldGuarded(ws[k], es[k])
  }

  lemma {:induction false} GuardedRunInv(ws: seq<World>, es: seq<WorldEvent>, i: nat)
    requires Run(ws, es) && i < |ws| && GuardedUpTo(ws, es, i)
    ensures WorldInv(ws[i])
  {
    if i > 0 {
      GuardedRunInv(ws, es, i - 1);
      assert Moves(ws[i - 1], es[i - 1], ws[i]);
      WorldStepKeeps(ws[i - 1], es[i - 1]);
    }
  }

  /** A run is sound at all of its points exactly when no parking write of it met a barrier or a later
      turn that was claimed. */
  lemma RunInvExactly(ws: seq<World>, es: seq<WorldEvent>)
    requires Run(ws, es)
    ensures (forall i | 0 <= i < |ws| :: WorldInv(ws[i])) <==> GuardedUpTo(ws, es, |es|)
  {
    if GuardedUpTo(ws, es, |es|) {
      forall i | 0 <= i < |ws|
        ensures WorldInv(ws[i])
      {
        GuardedRunInv(ws, es, i);
      }
    }
    if forall i | 0 <= i < |ws| :: WorldInv(ws[i]) {
      forall k | 0 <= k < |es|
        ensures WorldGuarded(ws[k], es[k])
      {
        assert Moves(ws[k], es[k], ws[k + 1]);
        assert WorldInv(ws[k]) && WorldInv(ws[k + 1]);
        WorldStepKeeps(ws[k], es[k]);
      }
    }
  }

  /** One live turn per conversation, as long as the guard was met. */
  lemma GuardedRunHasOneLive(ws: seq<World>, es: seq<WorldEvent>, i: nat)
    requires Run(ws, es) && i < |ws| && GuardedUpTo(ws, es, i)
    ensures OneLive(ws[i].turns)
  {
    GuardedRunInv(ws, es, i);
    forall a, b | 0 <= a < |ws[i].turns| && 0 <= b < |ws[i].turns| &&
              ws[i].turns[a].conversation == ws[i].turns[b].conversation &&
              Live(ws[i].turns[a].state) && Live(ws[i].turns[b].state)
      ensures a == b
    {
      OneLiveTurnPerConversation(ws[i], a, b);
    }
  }

  // ----- One turn in a run -----

  /** What the guard asks of the one turn: it is not parked while its barrier stands. */
  ghost predicate RowGuarded(w: World, e: WorldEvent, id: nat) {
    Parks(e, id) && id < |w.turns| ==> !w.turns[id].barrier
  }

  ghost predicate RowGuardedUpTo(ws: seq<World>, es: seq<WorldEvent>, id: nat, n: nat)
    requires n <= |es| <= |ws|
  {
    forall k | 0 <= k < n :: RowGuarded(ws[k], es[k], id)
  }

  lemma RowStep(w: World, e: WorldEvent, w': World, id: nat)
    requires TableInv(w) && Moves(w, e, w') && id < |w'.turns|
    requires id < |w.turns| ==> Inv(w.turns[id])
    ensures Inv(w'.turns[id]) <==> RowGuarded(w, e, id)
  {
    match e
    case Enqueue(conversation, user, requestId, now) =>
      NewTurnInv(conversation, user, requestId, now);
    case Claim(_, _, claimed, now) =>
      if claimed == id {
        assert LeasesIssued(w.turns[id], w.nextToken);
        ClaimKeeps(w.turns[id], w.nextToken, now);
      }
    case On(changed, event) =>
      if changed == id { StepKeepsInv(w.turns[id], event); }
  }

  lemma {:induction false} RowInvAt(ws: seq<World>, es: seq<WorldEvent>, i: nat, id: nat)
    requires Run(ws, es) && i < |ws| && id < |ws[i].turns| && RowGuardedUpTo(ws, es, id, i)
    ensures Inv(ws[i].turns[id])
  {
    if i > 0 {
      if id < |ws[i - 1].turns| { RowInvAt(ws, es, i - 1, id); }
      assert Moves(ws[i - 1], es[i - 1], ws[i]);
      RunTable(ws, es, i - 1);
      RowStep(ws[i - 1], es[i - 1], ws[i], id);
    }
  }

  lemma SoundStepIsGuarded(ws: seq<World>, es: seq<WorldEvent>, k: nat, id: nat)
    requires Run(ws, es) && k < |es|
    requires forall i | k <= i <= k + 1 && id < |ws[i].turns| :: Inv(ws[i].turns[id])
    ensures RowGuarded(ws[k], es[k], id)
  {
    if Parks(es[k], id) && id < |ws[k].turns| {
      assert Moves(ws[k], es[k], ws[k + 1]);
      assert Inv(ws[k].turns[id]) && Inv(ws[k + 1].turns[id]);
      StepKeepsInv(ws[k].turns[id], es[k].event);
    }
  }

  /** Row, journal, plan snapshot and effects of a turn agree at every point of a run exactly when the
      turn is never parked while its barrier stands, whatever happens to the other turns. */
  lemma RowInvExactly(ws: seq<World>, es: seq<WorldEvent>, id: nat)
    requires Run(ws, es)
    ensures (forall i | 0 <= i < |ws| && id < |ws[i].turns| :: Inv(ws[i].turns[id])) <==> RowGuardedUpTo(ws, es, id, |es|)
  {
    if RowGuardedUpTo(ws, es, id, |es|) {
      forall i | 0 <= i < |ws| && id < |ws[i].turns|
        ensures Inv(ws[i].turns[id])
      {
        RowInvAt(ws, es, i, id);
      }
    }
    if forall i | 0 <= i < |ws| && id < |ws[i].turns| :: Inv(ws[i].turns[id]) {
      forall k | 0 <= k < |es|
        ensures RowGuarded(ws[k], es[k], id)
      {
        SoundStepIsGuarded(ws, es, k, id);
      }
    }
  }

  // ----- Properties that stay whatever happens -----

  ghost predicate KeptByStep(P: Turn -> bool, t: Turn, e: Event) {
    TurnNext(t, e).Some? && P(t) ==> P(TurnNext(t, e).value)
  }

  ghost predicate KeptByClaim(P: Turn -> bool, t: Turn, w: Token, now: nat) {
    Claimable(t) && P(t) ==> P(ClaimTurn(t, w, now))
  }

  ghost predicate Kept(P: Turn -> bool) {
    (forall t, e :: KeptByStep(P, t, e)) && (forall t, w, now :: KeptByClaim(P, t, w, now))
  }

  predicate Claimable(t: Turn) {
    t.state == Queued && t.attempts < t.maxAttempts
  }

  lemma KeptAt(w: World, e: WorldEvent, w': World, id: nat, P: Turn -> bool)
    requires Moves(w, e, w') && Kept(P) && id < |w.turns| && P(w.turns[id])
    ensures id < |w'.turns| && P(w'.turns[id])
  {
    if e.Claim? && e.id == id { assert KeptByClaim(P, w.turns[id], w.nextToken, e.claimedAt); }
    if e.On? && e.id == id { assert KeptByStep(P, w.turns[id], e.event); }
  }

  lemma {:induction false} KeptPersists(ws: seq<World>, es: seq<WorldEvent>, i: nat, j: nat, id: nat, P: Turn -> bool)
    requires Steps(ws, es) && i <= j < |ws| && Kept(P) && id < |ws[i].turns| && P(ws[i].turns[id])
    ensures id < |ws[j].turns| && P(ws[j].turns[id])
  {
    if i < j {
      KeptPersists(ws, es, i, j - 1, id, P);
      assert Moves(ws[j - 1], es[j - 1], ws[j]);
      KeptAt(ws[j - 1], es[j - 1], ws[j], id, P);
    }
  }

  // ----- Properties that stay exactly as long as a condition is met -----

  ghost predicate ExactStep(P: Turn -> bool, C: (Turn, Event) -> bool, t: Turn, e: Event) {
    Inv(t) && P(t) && TurnNext(t, e).Some? ==>
      (P(TurnNext(t, e).value) <==> C(t, e)) && (C(t, e) ==> Guarded(t, e))
  }

  /** A sound turn with P keeps it over a step exactly when C allows the step. */
  ghost predicate Exact(P: Turn -> bool, C: (Turn, Event) -> bool) {
    (forall t, e :: ExactStep(P, C, t, e)) && (forall t, w, now :: KeptByClaim(P, t, w, now))
  }

  ghost predicate Allowed(w: World, e: WorldEvent, id: nat, C: (Turn, Event) -> bool) {
    e.On? && e.id == id && id < |w.turns| ==> C(w.turns[id], e.event)
  }

  ghost predicate HoldsFrom(ws: seq<World>, i: nat, j: nat, id: nat, P: Turn -> bool)
    requires j < |ws|
  {
    forall m | i <= m <= j :: id < |ws[m].turns| && P(ws[m].turns[id])
  }

  ghost predicate AllowedFrom(ws: seq<World>, es: seq<WorldEvent>, i: nat, j: nat, id: nat, C: (Turn, Event) -> bool)
    requires j <= |es| <= |ws|
  {
    forall k | i <= k < j :: Allowed(ws[k], es[k], id, C)
  }

  lemma ExactAt(w: World, e: WorldEvent, w': World, id: nat, P: Turn -> bool, C: (Turn, Event) -> bool)
    requires TableInv(w) && Moves(w, e, w') && Exact(P, C)
    requires id < |w.turns| && Inv(w.turns[id]) && P(w.turns[id])
    ensures id < |w'.turns| && (P(w'.turns[id]) <==> Allowed(w, e, id, C))
    ensures Allowed(w, e, id, C) ==> Inv(w'.turns[id])
  {
    if e.Claim? && e.id == id { assert KeptByClaim(P, w.turns[id], w.nextToken, e.claimedAt); }
    if e.On? && e.id == id { assert ExactStep(P, C, w.turns[id], e.event); }
    assert id < |w'.turns|;
    RowStep(w, e, w', id);
  }

  /** From a point where the turn is sound and has P, it has P up to a later point exactly when C
      allowed every step in between. */
  lemma {:induction false} HoldsExactly(ws: seq<World>, es: seq<WorldEvent>, i: nat, j: nat, id: nat,
                                        P: Turn -> bool, C: (Turn, Event) -> bool)
    requires Run(ws, es) && i <= j < |ws| && Exact(P, C)
    requires id < |ws[i].turns| && Inv(ws[i].turns[id]) && P(ws[i].turns[id])
    ensures HoldsFrom(ws, i, j, id, P) <==> AllowedFrom(ws, es, i, j, id, C)
    ensures HoldsFrom(ws, i, j, id, P) ==> Inv(ws[j].turns[id])
  {
    if i < j {
      var m := j - 1;
      HoldsExactly(ws, es, i, m, id, P, C);
      HoldsExtends(ws, i, m, id, P);
      AllowedExtends(ws, es, i, m, id, C);
      if HoldsFrom(ws, i, m, id, P) {
        RunTable(ws, es, m);
        assert Moves(ws[m], es[m], ws[m + 1]);
        ExactAt(ws[m], es[m], ws[m + 1], id, P, C);
      }
    }
  }

  lemma HoldsExtends(ws: seq<World>, i: nat, m: nat, id: nat, P: Turn -> bool)
    requires i <= m && m + 1 < |ws|
    ensures HoldsFrom(ws, i, m + 1, id, P) <==>
              HoldsFrom(ws, i, m, id, P) && id < |ws[m + 1].turns| && P(ws[m + 1].turns[id])
  {
  }

  lemma AllowedExtends(ws: seq<World>, es: seq<WorldEvent>, i: nat, m: nat, id: nat, C: (Turn, Event) -> bool)
    requires i <= m < |es| <= |ws|
    ensures AllowedFrom(ws, es, i, m + 1, id, C) <==> AllowedFrom(ws, es, i, m, id, C) && Allowed(ws[m], es[m], id, C)
  {
  }

  predicate Unparked(es: seq<WorldEvent>, id: nat, i: nat, j: nat)
    requires j <= |es|
  {
    forall k | i <= k < j :: !Parks(es[k], id)
  }

  const NOT_PARKING: (Turn, Event) -> bool := (t: Turn, e: Event) => !e.PersistAwaiting?

  lemma UnparkedIsAllowed(ws: seq<World>, es: seq<WorldEvent>, i: nat, j: nat, id: nat)
    requires Run(ws, es) && j <= |es|
    ensures Unparked(es, id, i, j) <==> AllowedFrom(ws, es, i, j, id, NOT_PARKING)
  {
    forall k | i <= k < j
      ensures !Parks(es[k], id) <==> Allowed(ws[k], es[k], id, NOT_PARKING)
    {
      assert Moves(ws[k], es[k], ws[k + 1]);
    }
  }

  // ----- No blind replay -----

  lemma CommittedIsNeverClaimable(t: Turn)
    requires Inv(t) && t.durable != {}
    ensures t.barrier && t.state != Queued && t.state != AwaitingConfirmation
  {
  }

  /** An effect is committed, and the turn neither waits in the queue nor for the user. */
  predicate Closed(t: Turn) {
    t.durable != {} && t.barrier && t.state != Queued && t.state != AwaitingConfirmation
  }

  lemma ClosedStep(t: Turn, e: Event)
    requires Inv(t) && Closed(t) && TurnNext(t, e).Some?
    ensures Closed(TurnNext(t, e).value) <==> !e.PersistAwaiting?
  {
    if !e.PersistAwaiting? {
      StepKeepsInv(t, e);
      DurableGrows(t, e);
      CommittedIsNeverClaimable(TurnNext(t, e).value);
    }
  }

  lemma ClosedIsExact()
    ensures Exact(Closed, NOT_PARKING)
  {
    forall t, e
      ensures ExactStep(Closed, NOT_PARKING, t, e)
    {
      if Inv(t) && Closed(t) && TurnNext(t, e).Some? { ClosedStep(t, e); }
    }
  }

  /** In every run: an effect that is out stays out. */
  lemma EffectsStay(ws: seq<World>, es: seq<WorldEvent>, i: nat, j: nat, id: nat)
    requires Run(ws, es) && i <= j < |ws| && id < |ws[i].turns|
    ensures id < |ws[j].turns| && ws[i].turns[id].durable <= ws[j].turns[id].durable
  {
    var d := ws[i].turns[id].durable;
    var P := (t: Turn) => d <= t.durable;
    forall t, e
      ensures KeptByStep(P, t, e)
    {
      if TurnNext(t, e).Some? { DurableGrows(t, e); }
    }
    KeptPersists(ws, es, i, j, id, P);
  }

  /** Once an effect of a turn is committed it stays, and the turn keeps out of the queue and away from
      the user exactly as long as no worker parks it; until then it is never claimed again. */
  lemma NoBlindReplay(ws: seq<World>, es: seq<WorldEvent>, i: nat, j: nat, id: nat)
    requires Run(ws, es) && i <= j < |ws| && id < |ws[i].turns| && ws[i].turns[id].durable != {}
    requires RowGuardedUpTo(ws, es, id, i)
    ensures id < |ws[j].turns| && ws[i].turns[id].durable <= ws[j].turns[id].durable
    ensures (forall m | i <= m <= j :: id < |ws[m].turns| && Closed(ws[m].turns[id])) <==> Unparked(es, id, i, j)
    ensures Unparked(es, id, i, j) && j < |es| ==> !ClaimOf(es[j], id)
  {
    EffectsStay(ws, es, i, j, id);
    RowInvAt(ws, es, i, id);
    CommittedIsNeverClaimable(ws[i].turns[id]);
    ClosedIsExact();
    HoldsExactly(ws, es, i, j, id, Closed, NOT_PARKING);
    UnparkedIsAllowed(ws, es, i, j, id);
    if Unparked(es, id, i, j) && j < |es| {
      assert Moves(ws[j], es[j], ws[j + 1]) && Closed(ws[j].turns[id]);
    }
  }

  // ----- Every effect at most once -----

  /** What a transaction is about to commit has not been committed before. */
  lemma PendingIsNew(t: Turn, w: Token)
    requires Inv(t) && w in t.workers
    ensures t.workers[w].InUnit? || t.workers[w].PostEffect? ==> t.workers[w].pending !! t.durable
  {
    if t.workers[w].InUnit? { InUnitIsNew(t, w); }
    if t.workers[w].PostEffect? { PostEffectIsNew(t, w); }
  }

  lemma InUnitIsNew(t: Turn, w: Token)
    requires Inv(t) && w in t.workers && t.workers[w].InUnit?
    ensures t.workers[w].pending !! t.durable
  {
    assert WorkerFits(t, w, t.workers[w]);
    BarrierHolds(t);
    PendingIsInUnit(t, t.workers[w].plan, t.workers[w].k, t.workers[w].pending);
  }

  /** What a worker behind its last unit has not committed yet. */
  ghost predicate LastUnitPending(t: Turn, p: Plan, pending: set<StepId>, saved: bool) {
    && |p.units| > 0
    && if saved then pending == {}
       else t.plan == Some(Rewind(p, |p.units| - 1)) && PendingFits(t, p, |p.units| - 1, pending)
  }

  lemma PostEffectHolds(t: Turn, w: Token)
    requires Inv(t) && w in t.workers && t.workers[w].PostEffect?
    ensures var u := t.workers[w]; t.barrier && LastUnitPending(t, u.plan, u.pending, u.saved)
  {
    assert WorkerFits(t, w, t.workers[w]);
  }

  ghost predicate PlanHolds(t: Turn) {
    t.plan.Some? && WellFormed(t.plan.value) && DurableFits(t.durable, t.plan.value)
  }

  lemma BarrierHolds(t: Turn)
    requires EffectInv(t) && t.barrier
    ensures PlanHolds(t)
  {
  }

  lemma LastUnitIsNew(t: Turn, p: Plan, pending: set<StepId>, saved: bool)
    requires PlanHolds(t) && LastUnitPending(t, p, pending, saved)
    ensures pending !! t.durable
  {
    if !saved { PendingIsInUnit(t, p, |p.units| - 1, pending); }
  }

  lemma PostEffectIsNew(t: Turn, w: Token)
    requires Inv(t) && w in t.workers && t.workers[w].PostEffect?
    ensures t.workers[w].pending !! t.durable
  {
    PostEffectHolds(t, w);
    BarrierHolds(t);
    LastUnitIsNew(t, t.workers[w].plan, t.workers[w].pending, t.workers[w].saved);
  }

  /** Pending effects belong to the unit that the stored snapshot shows as executing. */
  lemma PendingIsInUnit(t: Turn, p: Plan, k: nat, pending: set<StepId>)
    requires PlanHolds(t) && k < |p.units| && t.plan == Some(Rewind(p, k)) && PendingFits(t, p, k, pending)
    ensures pending !! t.durable
  {
    var q := t.plan.value;
    forall x | x in pending
      ensures x !in t.durable
    {
      assert x in q.steps && q.steps[x].unit == k && q.units[k].state == UnitExecuting && q.units[k].mode == p.units[k].mode;
    }
  }

  lemma RunStepIsUndone(t: Turn, w: Token, x: StepId)
    requires Inv(t) && TurnNext(t, RunStep(w, x)).Some?
    ensures x !in t.durable
  {
    RunStepKeeps(t, w, x);
  }

  /** The turn was parked at some point while its barrier stood. */
  ghost predicate ParkedBehindBarrier(ws: seq<World>, es: seq<WorldEvent>, id: nat, n: nat)
    requires n <= |es| <= |ws|
  {
    exists k :: 0 <= k < n && !RowGuarded(ws[k], es[k], id)
  }

  /** Every effect at most once, in every run: when a worker runs a step, that step's effect was never
      committed before, by whatever worker and in whatever attempt, unless the turn was parked on the way
      while its barrier stood. */
  lemma EffectAtMostOnce(ws: seq<World>, es: seq<WorldEvent>, i: nat, j: nat, id: nat, w: Token, x: StepId)
    requires Run(ws, es) && i <= j < |es| && id < |ws[i].turns| && es[j] == On(id, RunStep(w, x))
    ensures x !in ws[i].turns[id].durable || ParkedBehindBarrier(ws, es, id, j)
  {
    if !ParkedBehindBarrier(ws, es, id, j) {
      EffectsStay(ws, es, i, j, id);
      RowInvAt(ws, es, j, id);
      assert Moves(ws[j], es[j], ws[j + 1]);
      RunStepIsUndone(ws[j].turns[id], w, x);
    }
  }

  // ----- Stop, reconciliation -----

  ghost predicate StoppedClean(t: Turn) {
    Stopped(t) && !t.barrier && t.durable == {}
  }

  /** A turn without the stop flag is not parked. */
  const FLAGGED_OR_NOT_PARKING: (Turn, Event) -> bool := (t: Turn, e: Event) => e.PersistAwaiting? ==> t.control.cancel

  lemma StoppedIsExact(P: Turn -> bool)
    requires forall t: Turn :: P(t) <==> StoppedClean(t)
    ensures Exact(P, FLAGGED_OR_NOT_PARKING)
  {
    forall t, e
      ensures ExactStep(P, FLAGGED_OR_NOT_PARKING, t, e)
    {
      if Inv(t) && P(t) && TurnNext(t, e).Some? { StoppedStaysBehindBarrier(t, e); }
    }
  }

  /** A stop accepted in front of the write barrier: the turn stays stopped, never crosses the barrier
      and leaves no effect, exactly as long as no worker parks it without the stop flag being up. */
  lemma StopBeforeBarrier(ws: seq<World>, es: seq<WorldEvent>, i: nat, j: nat, id: nat)
    requires Run(ws, es) && i <= j < |ws| && id < |ws[i].turns| && RowGuardedUpTo(ws, es, id, i)
    requires Stopped(ws[i].turns[id]) && !ws[i].turns[id].barrier
    ensures HoldsFrom(ws, i, j, id, (t: Turn) => StoppedClean(t)) <==> AllowedFrom(ws, es, i, j, id, FLAGGED_OR_NOT_PARKING)
  {
    RowInvAt(ws, es, i, id);
    StoppedIsExact((t: Turn) => StoppedClean(t));
    HoldsExactly(ws, es, i, j, id, (t: Turn) => StoppedClean(t), FLAGGED_OR_NOT_PARKING);
  }

  lemma EffectFreeIsExact(P: Turn -> bool)
    requires forall t: Turn :: P(t) <==> EffectFree(t)
    ensures Exact(P, NOT_PARKING)
  {
    forall t, e
      ensures ExactStep(P, NOT_PARKING, t, e)
    {
      if Inv(t) && P(t) && TurnNext(t, e).Some? { EffectFreeStays(t, e); }
    }
  }

  /** "No change was confirmed" stays true, even with superseded workers still running, exactly as long
      as none of them parks the turn. */
  lemma ReconciledForEver(ws: seq<World>, es: seq<WorldEvent>, i: nat, j: nat, id: nat, readable: bool)
    requires Run(ws, es) && i < j < |ws| && es[i] == On(id, Reconcile(readable)) && RowGuardedUpTo(ws, es, id, i)
    ensures (forall m | i < m <= j :: id < |ws[m].turns| && EffectFree(ws[m].turns[id])) <==> Unparked(es, id, i + 1, j)
  {
    var P := (t: Turn) => EffectFree(t);
    assert Moves(ws[i], es[i], ws[i + 1]);
    RowInvAt(ws, es, i, id);
    ReconciledIsEffectFree(ws[i].turns[id], readable);
    RowInvAt(ws, es, i + 1, id);
    EffectFreeIsExact(P);
    HoldsExactly(ws, es, i + 1, j, id, P, NOT_PARKING);
    UnparkedIsAllowed(ws, es, i + 1, j, id);
    assert HoldsFrom(ws, i + 1, j, id, P) <==> forall m | i < m <= j :: id < |ws[m].turns| && EffectFree(ws[m].turns[id]);
  }

  // ----- Attempts -----

  function Claims(es: seq<WorldEvent>, id: nat): nat {
    if es == [] then 0 else Claims(es[..|es| - 1], id) + if ClaimOf(es[|es| - 1], id) then 1 else 0
  }

  function Approvals(es: seq<WorldEvent>, id: nat): nat {
    if es == [] then 0 else Approvals(es[..|es| - 1], id) + if ApprovalOf(es[|es| - 1], id) then 1 else 0
  }

  lemma CountersStep(w: World, e: WorldEvent, w': World, id: nat)
    requires Moves(w, e, w') && id < |w'.turns|
    ensures id < |w.turns| ==>
              && w'.turns[id].attempts == w.turns[id].attempts + (if ClaimOf(e, id) then 1 else 0)
              && w'.turns[id].approvals == w.turns[id].approvals + (if ApprovalOf(e, id) then 1 else 0)
    ensures id >= |w.turns| ==> w'.turns[id].attempts == 0 && w'.turns[id].approvals == 0 && e.Enqueue?
  {
    if e.On? && e.id == id {
      IdentityKept(w.turns[id], e.event);
      ApprovalsCounted(w.turns[id], e.event);
    }
  }

  lemma {:induction false} Counters(ws: seq<World>, es: seq<WorldEvent>, id: nat)
    requires Run(ws, es)
    ensures if id < |ws[|es|].turns| then
              ws[|es|].turns[id].attempts == Claims(es, id) && ws[|es|].turns[id].approvals == Approvals(es, id)
            else Claims(es, id) == 0 && Approvals(es, id) == 0
  {
    if es != [] {
      var n := |es| - 1;
      var (before, early) := (ws[..|es|], es[..n]);
      assert Steps(before, early) by {
        forall i | 0 <= i < n ensures Moves(before[i], early[i], before[i + 1]) {
          assert Moves(ws[i], es[i], ws[i + 1]);
        }
      }
      Counters(before, early, id);
      assert Moves(ws[n], es[n], ws[n + 1]);
      if id < |ws[n + 1].turns| { CountersStep(ws[n], es[n], ws[n + 1], id); }
    }
  }

  /** A turn is claimed at most nineteen times plus once for every approval of the user. */
  lemma FinitelyManyClaims(ws: seq<World>, es: seq<WorldEvent>, id: nat)
    requires Run(ws, es)
    ensures Claims(es, id) <= MAX_ATTEMPTS_WITH_REDIRECTS + Approvals(es, id)
  {
    Counters(ws, es, id);
    RunTable(ws, es, |es|);
    if id < |ws[|es|].turns| { assert RowInv(ws[|es|].turns[id]); }
  }
}
