/** Which state every decision about a turn leads to: recovery, failure, stop, result and the user's answer. */
module TurnOutcomes {
  import opened Prelude
  import opened TurnTypes
  import opened EffectJournal
  import opened TurnSteps
  import opened TurnInvariant
  import opened TurnSafety
  import opened TurnProgress
  import opened Scheduler
  import opened WorldSafety
  import opened TurnRuns

  // ----- A worker that is lost -----

  /** Where the stale scan sends a running turn: a stop comes first, then the barrier, then the tries. */
  predicate RecoveredTo(t: Turn, s: TurnState) {
    && (s == Cancelled <==> t.control.cancel)
    && (s == RecoveryRequired <==> !t.control.cancel && t.barrier)
    && (s == Queued <==> !t.control.cancel && !t.barrier && t.attempts < t.maxAttempts)
    && (s == Failed <==> !t.control.cancel && !t.barrier && t.attempts >= t.maxAttempts)
  }

  lemma RecoverEnabled(t: Turn, now: nat)
    requires RowInv(t)
    ensures TurnNext(t, RecoverStale(now)).Some? <==> t.state == Running
  {
  }

  lemma RecoverOutcome(t: Turn, now: nat)
    requires RowInv(t) && t.state == Running && TurnNext(t, RecoverStale(now)).Some?
    ensures RecoveredTo(t, TurnNext(t, RecoverStale(now)).value.state)
  {
  }

  lemma RecoverFields(t: Turn, now: nat)
    requires RowInv(t) && TurnNext(t, RecoverStale(now)).Some?
    ensures var t' := TurnNext(t, RecoverStale(now)).value;
            && t'.token.None? && !t'.hasResult && t'.barrier == t.barrier && t'.plan == t.plan && t'.control == t.control
            && t'.attempts == t.attempts && t'.maxAttempts == t.maxAttempts && t'.durable == t.durable
            && (t'.state == Queued ==> t'.queuedAt == now)
  {
  }

  /** The stale scan, event by event: it moves running turns only, keeps what they committed and never
      invents a result. */
  lemma RecoverExactly(t: Turn, now: nat)
    requires RowInv(t)
    ensures TurnNext(t, RecoverStale(now)).Some? <==> t.state == Running
    ensures t.state == Running ==>
              var t' := TurnNext(t, RecoverStale(now)).value;
              RecoveredTo(t, t'.state) && t'.token.None? && !t'.hasResult && t'.durable == t.durable && t'.attempts == t.attempts
  {
    RecoverEnabled(t, now);
    if t.state == Running {
      RecoverOutcome(t, now);
      RecoverFields(t, now);
    }
  }

  predicate UnderReview(t: Turn) {
    t.state == RecoveryRequired
  }

  const REVIEW_KEPT: (Turn, Event) -> bool := (t: Turn, e: Event) => !e.PersistAwaiting? && !e.Reconcile?

  lemma ReviewStep(t: Turn, e: Event)
    requires Inv(t) && UnderReview(t) && TurnNext(t, e).Some?
    ensures UnderReview(TurnNext(t, e).value) <==> !e.PersistAwaiting? && !e.Reconcile?
  {
    TerminalAbsorbs(t, e);
  }

  lemma ReviewIsExact()
    ensures Exact(UnderReview, REVIEW_KEPT)
  {
    forall t, e
      ensures ExactStep(UnderReview, REVIEW_KEPT, t, e)
    {
      if Inv(t) && UnderReview(t) && TurnNext(t, e).Some? { ReviewStep(t, e); }
    }
  }

  /** In every run: a turn whose worker is lost behind the barrier, with no stop pending, goes to review,
      and it stays under review exactly until the review is closed or a late worker parks the turn. */
  lemma LostBehindBarrierIsReviewed(ws: seq<World>, es: seq<WorldEvent>, i: nat, j: nat, id: nat, now: nat)
    requires Run(ws, es) && i < j < |ws| && es[i] == On(id, RecoverStale(now)) && RowGuardedUpTo(ws, es, id, i)
    requires id < |ws[i].turns| && ws[i].turns[id].barrier && !ws[i].turns[id].control.cancel
    ensures id < |ws[i + 1].turns| && ws[i + 1].turns[id].state == RecoveryRequired
    ensures HoldsFrom(ws, i + 1, j, id, UnderReview) <==> AllowedFrom(ws, es, i + 1, j, id, REVIEW_KEPT)
  {
    assert Moves(ws[i], es[i], ws[i + 1]);
    RunTable(ws, es, i);
    RecoverExactly(ws[i].turns[id], now);
    RowInvAt(ws, es, i + 1, id);
    ReviewIsExact();
    HoldsExactly(ws, es, i + 1, j, id, UnderReview, REVIEW_KEPT);
  }

  // ----- A stop -----

  /** What a stop does at once: it ends a turn that no worker is busy with, and raises the flag on one that
      somebody may be busy with. */
  lemma StopExactly(t: Turn, rowLocked: bool)
    requires RowInv(t)
    ensures var t' := TurnNext(t, Stop(rowLocked)).value;
            && (t'.state == Cancelled <==> t.state == Cancelled || t.state == AwaitingConfirmation || (t.state == Queued && !rowLocked))
            && (t'.state != Cancelled ==> t'.state == t.state && t'.token == t.token && t'.journal == t.journal)
            && (t'.control.cancel <==> t.control.cancel || t.state == Queued || t.state == Running)
            && t'.control.rows == t.control.rows && t'.barrier == t.barrier && t'.plan == t.plan
  {
  }

  /** The worker that finds the flag before it has begun ends the turn as cancelled, if it still owns it. */
  lemma StoppedAtStart(t: Turn, w: Token)
    requires RowInv(t)
    ensures TurnNext(t, CancelClaimed(w)).Some? <==> w in t.workers && t.workers[w] == Launched && t.control.cancel
    ensures TurnNext(t, CancelClaimed(w)).Some? ==>
              var t' := TurnNext(t, CancelClaimed(w)).value;
              && w !in t'.workers && t'.durable == t.durable
              && (t.token == Some(w) ==> t'.state == Cancelled)
              && (t.token != Some(w) ==> t'.state == t.state)
  {
  }

  // ----- What cannot fail for the lease holder -----

  lemma CommitUnitEnabled(t: Turn, w: Token)
    requires Inv(t) && w in t.workers && CanLeaveUnit(t, w) && Holds(t, w)
    ensures t.barrier && Syncable(t.journal, SetUnit(t.workers[w].plan, t.workers[w].k, UnitCompleted))
    ensures ValidUnits(t.workers[w].plan)
  {
    InUnitReady(t, w);
    Landing(t, t.workers[w].plan, t.workers[w].k, t.workers[w].pending);
  }

  ghost predicate UnitLanded(t: Turn, w: Token, t': Turn)
    requires w in t.workers && t.workers[w].InUnit? && t.workers[w].k < |t.workers[w].plan.units|
  {
    var u := t.workers[w];
    && t'.durable == t.durable + u.pending && t'.state == t.state && t'.barrier == t.barrier
    && t'.workers == t.workers[w := Between(SetUnit(u.plan, u.k, UnitCompleted), u.k + 1)]
  }

  lemma LandedRow(t: Turn, w: Token)
    requires w in t.workers && CanLeaveUnit(t, w) && ValidUnits(t.workers[w].plan)
    ensures UnitLanded(t, w, CommitUnit(t, w))
  {
  }

  predicate LastUnit(u: Worker) {
    u.InUnit? && u.k + 1 == |u.plan.units|
  }

  lemma AfterUnitNeeds(t: Turn, w: Token)
    requires TurnNext(t, AfterUnit(w)).Some?
    ensures w in t.workers && Holds(t, w) && CanLeaveUnit(t, w) && !LastUnit(t.workers[w])
  {
  }

  lemma HolderCommits(t: Turn, w: Token)
    requires Inv(t) && w in t.workers && Holds(t, w) && CanLeaveUnit(t, w) && !LastUnit(t.workers[w])
    ensures CanCommitUnit(t, w) && ValidUnits(t.workers[w].plan)
  {
    CommitUnitEnabled(t, w);
  }

  lemma AfterUnitIs(t: Turn, w: Token)
    requires w in t.workers && CanCommitUnit(t, w) && ValidUnits(t.workers[w].plan)
    ensures TurnNext(t, AfterUnit(w)).Some? && UnitLanded(t, w, TurnNext(t, AfterUnit(w)).value)
  {
    LeavingIs(t, w);
    LandedRow(t, w);
  }

  /** The checkpoint after a unit that is not the last never fails the worker that holds the lease: the
      barrier stands and the journal accepts the snapshot. It makes the unit's effects durable. */
  lemma AfterUnitExactly(t: Turn, w: Token)
    requires Inv(t)
    ensures TurnNext(t, AfterUnit(w)).Some? <==>
              w in t.workers && Holds(t, w) && CanLeaveUnit(t, w) && !LastUnit(t.workers[w])
    ensures TurnNext(t, AfterUnit(w)).Some? ==> t.barrier && UnitLanded(t, w, TurnNext(t, AfterUnit(w)).value)
  {
    if TurnNext(t, AfterUnit(w)).Some? { AfterUnitNeeds(t, w); }
    if w in t.workers && Holds(t, w) && CanLeaveUnit(t, w) && !LastUnit(t.workers[w]) {
      HolderCommits(t, w);
      AfterUnitIs(t, w);
    }
  }

  lemma NextUnitAdvances(rows: Journal, q: Plan, k: nat)
    requires k < |q.units| && Progress(q, k) && JournalFits(rows, q, true)
    ensures Syncable(rows, SetUnit(q, k, UnitExecuting))
  {
    var p := SetUnit(q, k, UnitExecuting);
    assert Advances(q, p) by {
      forall x | x in q.steps ensures RowFits(q, rows[x], x, true) {}
    }
    SyncAdvances(rows, q, p);
  }

  lemma NextUnitNeeds(t: Turn, w: Token)
    requires TurnNext(t, BeforeUnit(w)).Some?
    ensures w in t.workers && Holds(t, w) && t.workers[w].Between? && !t.control.cancel
  {
  }

  /** Behind the barrier nothing but a stop keeps the lease holder from its next unit: no redirect can be
      pending and the journal accepts the snapshot. */
  lemma NextUnitExactly(t: Turn, w: Token)
    requires Inv(t) && w in t.workers && t.workers[w].Between? && t.workers[w].next > 0 && Holds(t, w)
    ensures TurnNext(t, BeforeUnit(w)).Some? <==> !t.control.cancel
  {
    var (q, k) := (t.workers[w].plan, t.workers[w].next);
    assert WorkerFits(t, w, t.workers[w]);
    NextUnitAdvances(t.journal, q, k);
    if !t.control.cancel { EnteringIs(t, w); }
    if TurnNext(t, BeforeUnit(w)).Some? { NextUnitNeeds(t, w); }
  }

  // ----- The result -----

  lemma SavedResultAccepted(t: Turn, w: Token)
    requires Inv(t) && w in t.workers && t.workers[w].PostEffect? && t.workers[w].saved && Holds(t, w)
    ensures Syncable(t.journal, t.workers[w].plan)
  {
    assert WorkerFits(t, w, t.workers[w]);
    CommitAgain(t.journal, t.workers[w].plan);
  }

  lemma FreshResultAccepted(t: Turn, w: Token)
    requires Inv(t) && w in t.workers && t.workers[w].PostEffect? && !t.workers[w].saved && Holds(t, w)
    ensures Syncable(t.journal, t.workers[w].plan)
  {
    PostEffectReady(t, w);
    LandingAll(t, t.workers[w].plan, t.workers[w].pending);
  }

  lemma AcceptedIsValid(rows: Journal, p: Plan)
    requires Syncable(rows, p)
    ensures ValidUnits(p)
  {
  }

  lemma ResultAccepted(t: Turn, w: Token)
    requires Inv(t) && w in t.workers && t.workers[w].PostEffect? && Holds(t, w)
    ensures Syncable(t.journal, t.workers[w].plan) && ValidUnits(t.workers[w].plan)
  {
    if t.workers[w].saved { SavedResultAccepted(t, w); } else { FreshResultAccepted(t, w); }
    AcceptedIsValid(t.journal, t.workers[w].plan);
  }

  lemma CompletePlanIs(t: Turn, w: Token)
    requires w in t.workers && CanCommitEffects(t, w) && ValidUnits(t.workers[w].plan)
    ensures TurnNext(t, Complete(w)) == Some(CompleteTurn(t, w))
  {
  }

  lemma CompleteAnswerIs(t: Turn, w: Token)
    requires w in t.workers && t.workers[w].Reasoning? && Holds(t, w)
    ensures TurnNext(t, Complete(w)) == Some(CompleteTurn(t, w))
  {
  }

  function Uncommitted(u: Worker): set<StepId> {
    if u.PostEffect? then u.pending else {}
  }

  lemma CompletedRow(t: Turn, w: Token)
    requires w in t.workers && (t.workers[w].PostEffect? ==> ValidUnits(t.workers[w].plan))
    ensures var t' := CompleteTurn(t, w);
            && t'.state == Completed && t'.hasResult && t'.token.None? && t'.workers == t.workers - {w}
            && t'.durable == t.durable + Uncommitted(t.workers[w]) && t'.barrier == t.barrier
  {
    if t.workers[w].PostEffect? { assert (t.workers[w := PostEffect(t.workers[w].plan, {}, true)]) - {w} == t.workers - {w}; }
  }

  /** The final commit never fails a worker that holds the lease and has a result: with or without a plan
      behind it, the turn completes, and what was still pending becomes durable with the result. */
  lemma CompleteExactly(t: Turn, w: Token)
    requires Inv(t)
    ensures TurnNext(t, Complete(w)).Some? <==>
              w in t.workers && Holds(t, w) && (t.workers[w].Reasoning? || t.workers[w].PostEffect?)
    ensures TurnNext(t, Complete(w)).Some? ==>
              var t' := TurnNext(t, Complete(w)).value;
              && t'.state == Completed && t'.hasResult && t'.token.None? && t'.workers == t.workers - {w}
              && t'.durable == t.durable + Uncommitted(t.workers[w]) && t'.barrier == t.barrier
  {
    if TurnNext(t, Complete(w)).Some? { ResultNeedsWork(t, w); }
    if w in t.workers && Holds(t, w) && (t.workers[w].Reasoning? || t.workers[w].PostEffect?) {
      if t.workers[w].PostEffect? {
        ResultAccepted(t, w);
        CompletePlanIs(t, w);
      } else {
        CompleteAnswerIs(t, w);
      }
      CompletedRow(t, w);
    }
  }

  // ----- Repair -----

  predicate OneAtomicUnit(u: Worker) {
    u.InUnit? && |u.plan.units| == 1 && u.plan.units[0].mode == OdooAtomic
  }

  /** The failed unit is the only one and atomic: the classification proves that nothing is left. */
  lemma AtomicIsRolledBack(t: Turn, w: Token)
    requires Inv(t) && w in t.workers && OneAtomicUnit(t.workers[w]) && Holds(t, w)
    ensures AllRolledBack(Marked(t.journal, t.plan))
  {
    assert WorkerFits(t, w, t.workers[w]);
    var q := t.plan.value;
    assert q.units == [Unit(OdooAtomic, UnitExecuting)];
    forall x | x in t.journal
      ensures MarkRow(t.journal[x], t.plan).state.RolledBack?
    {
      if x in q.steps { assert RowFits(q, t.journal[x], x, true); }
    }
    assert q.steps.Keys <= t.journal.Keys && |q.steps| > 0;
    assert q.steps != map[];
    var y :| y in q.steps;
    assert y in Marked(t.journal, t.plan);
  }

  lemma RepairIs(t: Turn, w: Token)
    requires w in t.workers
    ensures TurnNext(t, Repair(w)) == if CanRepair(t, w) then Some(RepairTurn(t, w)) else None
  {
  }

  /** A failed plan of the lease holder goes back to the model exactly when no stop and no redirect is
      pending and the failure came before the first unit or in the only, atomic, unit. */
  lemma RepairExactly(t: Turn, w: Token)
    requires Inv(t) && w in t.workers && Holds(t, w)
    ensures TurnNext(t, Repair(w)).Some? <==>
              && ControlCurrent(t.control)
              && (OneAtomicUnit(t.workers[w]) || (t.workers[w].Between? && t.workers[w].next == 0))
    ensures TurnNext(t, Repair(w)).Some? ==>
              var t' := TurnNext(t, Repair(w)).value;
              && t'.workers == t.workers[w := Reasoning] && !t'.barrier && t'.plan.None? && !t'.authorized
              && t'.state == Running && t'.token == Some(w) && t'.durable == {}
  {
    assert WorkerFits(t, w, t.workers[w]);
    RepairIs(t, w);
    if OneAtomicUnit(t.workers[w]) { AtomicIsRolledBack(t, w); }
    if CanRepair(t, w) { RepairKeeps(t, w); }
  }

  // ----- The user's answer -----

  /** An approval puts the plan back in the queue with a try to spend; a rejection ends the turn with a
      result. Both are refused unless the turn waits for exactly this answer. */
  lemma DecisionExactly(t: Turn, now: nat, waiting: bool)
    requires RowInv(t)
    ensures TurnNext(t, Approve(now, waiting)).Some? <==> TurnNext(t, Reject(waiting)).Some?
    ensures TurnNext(t, Reject(waiting)).Some? <==> t.state == AwaitingConfirmation && t.plan.Some? && waiting
    ensures TurnNext(t, Approve(now, waiting)).Some? ==>
              var t' := TurnNext(t, Approve(now, waiting)).value;
              && t'.state == Queued && t'.attempts == t.attempts < t'.maxAttempts && t'.maxAttempts >= t.maxAttempts
              && t'.queuedAt == now && t'.plan == t.plan && t'.authorized && !t'.hasResult && t'.control == t.control
    ensures TurnNext(t, Reject(waiting)).Some? ==>
              var t' := TurnNext(t, Reject(waiting)).value;
              t'.state == Completed && t'.hasResult && t'.plan == t.plan && t'.durable == t.durable
  {
  }

  /** A redirect of a parked turn takes the plan off the table and queues the turn for the model; on any
      other turn it leaves everything but the log alone. */
  lemma RedirectExactly(t: Turn, clientId: string, message: string, within: bool, now: nat)
    requires RowInv(t) && TurnNext(t, Redirect(clientId, message, within, now)).Some?
    requires forall k | 0 <= k < |t.control.rows| :: t.control.rows[k].clientId != clientId
    ensures var t' := TurnNext(t, Redirect(clientId, message, within, now)).value;
            && (t.state == AwaitingConfirmation ==>
                  t'.state == Queued && t'.plan.None? && !t'.authorized && !t'.hasResult && t'.queuedAt == now)
            && (t.state != AwaitingConfirmation ==> t' == t.(control := t'.control))
            && t'.control.cancel == t.control.cancel
  {
    FindClientFinds(t.control.rows, clientId);
  }
}
