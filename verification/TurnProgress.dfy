/** What one step may and may not change: fencing, the write barrier, stop and redirect,
    terminal states, attempts. */
module TurnProgress {
  import opened Prelude
  import opened TurnTypes
  import opened EffectJournal
  import opened TurnSteps
  import opened TurnInvariant
  import opened TurnSafety

  lemma DurableGrowsOffRow(t: Turn, e: Event)
    requires OffRow(e) && TurnNext(t, e).Some?
    ensures t.durable <= TurnNext(t, e).value.durable
  {
  }

  /** Effects are never taken back. */
  lemma DurableGrows(t: Turn, e: Event)
    requires TurnNext(t, e).Some?
    ensures t.durable <= TurnNext(t, e).value.durable
  {
    if OffRow(e) { DurableGrowsOffRow(t, e); }
  }

  /** Steps of a worker that leave its queue row alone, whoever holds the lease. */
  predicate OffRow(e: Event) {
    || e.Begin? || e.MarkApplied? || e.StartExecution? || e.BeforeUnit? || e.RunStep? || e.SkipStep?
    || e.AfterUnit? || e.FinishPlan? || e.PersistTranscript? || e.Repair? || e.Raise? || e.Crash?
  }

  ghost predicate SameRow(t: Turn, t': Turn) {
    && t'.state == t.state && t'.token == t.token && t'.hasResult == t.hasResult && t'.queuedAt == t.queuedAt
    && t'.attempts == t.attempts && t'.maxAttempts == t.maxAttempts && t'.claimedAt == t.claimedAt
  }

  lemma OffRowKeepsRow(t: Turn, e: Event)
    requires OffRow(e) && TurnNext(t, e).Some?
    ensures SameRow(t, TurnNext(t, e).value)
  {
  }

  /** The other steps of a worker check the lease, parking excepted. */
  lemma LeaseIsChecked(t: Turn, e: Event, w: Token)
    requires (e.CancelClaimed? || e.Fail? || e.Complete?) && e.w == w && t.token != Some(w) && TurnNext(t, e).Some?
    ensures TurnNext(t, e).value == Forget(t, w)
  {
  }

  lemma CommitNeedsUnit(t: Turn, w: Token)
    requires TurnNext(t, AfterUnit(w)).Some?
    ensures w in t.workers && Holds(t, w) && t.workers[w].InUnit?
  {
  }

  lemma TranscriptNeedsEffects(t: Turn, w: Token)
    requires TurnNext(t, PersistTranscript(w)).Some?
    ensures w in t.workers && Holds(t, w) && t.workers[w].PostEffect?
  {
  }

  lemma ResultNeedsWork(t: Turn, w: Token)
    requires TurnNext(t, Complete(w)).Some?
    ensures w in t.workers && Holds(t, w) && (t.workers[w].PostEffect? || t.workers[w].Reasoning?)
  {
  }

  /** What commits work or a result holds the lease and has done something. */
  lemma CommitNeedsWork(t: Turn, e: Event)
    requires (e.AfterUnit? || e.PersistTranscript? || e.Complete?) && TurnNext(t, e).Some?
    ensures e.w in t.workers && Holds(t, e.w)
    ensures var u := t.workers[e.w]; u.InUnit? || u.PostEffect? || u.Reasoning?
  {
    match e
    case AfterUnit(w) => CommitNeedsUnit(t, w);
    case PersistTranscript(w) => TranscriptNeedsEffects(t, w);
    case Complete(w) => ResultNeedsWork(t, w);
  }

  lemma WaitingHolderCommitsNothing(t: Turn, e: Event, p: Plan)
    requires HolderWaits(t, p) && (e.AfterUnit? || e.PersistTranscript? || e.Complete?)
    ensures TurnNext(t, e).None?
  {
    if TurnNext(t, e).Some? { CommitNeedsWork(t, e); }
  }

  lemma EnteringIs(t: Turn, w: Token)
    requires w in t.workers && CanEnterUnit(t, w) && ValidUnits(t.workers[w].plan)
    ensures TurnNext(t, BeforeUnit(w)) == Some(EnterUnit(t, w))
  {
  }

  lemma LeavingIs(t: Turn, w: Token)
    requires w in t.workers && CanCommitUnit(t, w) && ValidUnits(t.workers[w].plan)
    ensures TurnNext(t, AfterUnit(w)) == Some(CommitUnit(t, w))
  {
  }

  /** A terminal turn stays as it is, unless a worker parks it; only a reviewed turn may be closed
      as failed. */
  lemma TerminalAbsorbs(t: Turn, e: Event)
    requires Inv(t) && TurnNext(t, e).Some? && Terminal(t.state)
    ensures Terminal(TurnNext(t, e).value.state) <==> !e.PersistAwaiting?
    ensures var t' := TurnNext(t, e).value;
            || t'.state == t.state || e.PersistAwaiting?
            || (e.Reconcile? && t.state == RecoveryRequired && t'.state == Failed && t.durable == {})
    ensures TurnNext(t, e).value.attempts == t.attempts
  {
    if OffRow(e) { OffRowKeepsRow(t, e); }
    else if e.CancelClaimed? || e.Fail? || e.Complete? { LeaseIsChecked(t, e, e.w); }
    else if e.Reconcile? { ReconcileKeeps(t, e.envelopeReadable); }
    else if !e.PersistAwaiting? { UserLeavesTerminal(t, e); }
  }

  lemma UserLeavesTerminal(t: Turn, e: Event)
    requires Terminal(t.state) && TurnNext(t, e).Some?
    requires e.RecoverStale? || e.Stop? || e.Redirect? || e.Approve? || e.Reject?
    ensures TurnNext(t, e).value == t
  {
  }

  /** The lease holder only parks a row that carries no barrier and still blocks its conversation. */
  lemma HolderParksSafely(t: Turn, w: Token)
    requires Inv(t) && w in t.workers && t.workers[w].Reasoning? && Holds(t, w)
    ensures !t.barrier && !Settled(t)
  {
    assert WorkerFits(t, w, t.workers[w]);
  }

  ghost predicate Fenced(t: Turn, e: Event, t': Turn) {
    && SameRow(t, t')
    && (!e.Repair? ==> t'.barrier == t.barrier && t'.plan == t.plan && t'.journal == t.journal)
    && (!e.RunStep? ==> t'.durable == t.durable)
  }

  predicate ParkedAs(t: Turn, proposal: Plan) {
    t.state == AwaitingConfirmation && t.token.None? && t.hasResult && t.plan == Some(proposal)
  }

  /** A worker whose lease was superseded changes nothing in the queue row and neither raises a
      barrier nor commits an effect, unless it parks a row that was not parked like that already.
      Beside that all that is left to it is a repair: to drop a plan in front of the barrier, or to
      withdraw the barrier of a dead turn whose journal shows no effect. */
  lemma SupersededWorkerIsFenced(t: Turn, e: Event, w: Token)
    requires WorkerOf(e) == Some(w) && t.token != Some(w) && TurnNext(t, e).Some?
    ensures Fenced(t, e, TurnNext(t, e).value) <==> (e.PersistAwaiting? ==> ParkedAs(t, e.proposal))
  {
    if OffRow(e) {
      OffRowKeepsRow(t, e);
      SupersededOffRow(t, e, w);
    } else if !e.PersistAwaiting? {
      LeaseIsChecked(t, e, w);
    }
  }

  lemma SupersededOffRow(t: Turn, e: Event, w: Token)
    requires OffRow(e) && e.w == w && t.token != Some(w) && TurnNext(t, e).Some?
    ensures var t' := TurnNext(t, e).value;
            && (!e.Repair? ==> t'.barrier == t.barrier && t'.plan == t.plan && t'.journal == t.journal)
            && (!e.RunStep? ==> t'.durable == t.durable)
  {
  }

  lemma SupersededRepair(t: Turn, w: Token)
    requires Inv(t) && t.token != Some(w) && TurnNext(t, Repair(w)).Some?
    ensures t.durable == {} && (t.barrier ==> Terminal(t.state))
  {
    RepairKeeps(t, w);
  }

  /** An external call that was under way when the lease was lost may still go out; its row already
      says that the outcome is uncertain. */
  lemma LateExternalCall(t: Turn, w: Token, x: StepId)
    requires Inv(t) && t.token != Some(w) && TurnNext(t, RunStep(w, x)).Some?
    requires TurnNext(t, RunStep(w, x)).value.durable != t.durable
    ensures Terminal(t.state) && x in t.journal && t.journal[x].mode.External? && t.journal[x].state.Uncertain?
  {
    SentIsExternal(t, w, x);
    LateIsTerminal(t, w);
    InFlightRow(t, w, x);
  }

  lemma SentIsExternal(t: Turn, w: Token, x: StepId)
    requires TurnNext(t, RunStep(w, x)).Some? && TurnNext(t, RunStep(w, x)).value.durable != t.durable
    ensures w in t.workers && InFlight(t, w, x) && t.workers[w].plan.units[t.workers[w].k].mode.External?
  {
  }

  lemma LateIsTerminal(t: Turn, w: Token)
    requires Inv(t) && w in t.workers && t.workers[w].InUnit? && t.token != Some(w)
    ensures t.barrier && Terminal(t.state)
  {
  }

  /** The row of a step that a dead turn's worker still has to run. */
  lemma InFlightRow(t: Turn, w: Token, x: StepId)
    requires Inv(t) && t.barrier && t.state != Running && w in t.workers && InFlight(t, w, x)
    ensures x in t.journal && t.journal[x].mode == t.workers[w].plan.units[t.workers[w].k].mode
    ensures t.journal[x].state == Interrupted(t.journal[x].mode)
  {
    assert WorkerFits(t, w, t.workers[w]);
    assert x in t.plan.value.steps;
    assert RowFits(t.plan.value, t.journal[x], x, false);
  }

  lemma AllApplied(c: Control)
    requires ControlInv(c) && ControlCurrent(c)
    ensures !c.cancel && forall i | 0 <= i < |c.rows| :: c.rows[i].applied && c.rows[i].sequence <= c.applied
  {
  }

  lemma OffRowBarrier(t: Turn, e: Event)
    requires OffRow(e) && TurnNext(t, e).Some? && !t.barrier && TurnNext(t, e).value.barrier
    ensures e.BeforeUnit? && e.w in t.workers && CanEnterUnit(t, e.w)
  {
  }

  lemma RowWriterBarrier(t: Turn, e: Event)
    requires !OffRow(e) && TurnNext(t, e).Some? && !t.barrier
    ensures !TurnNext(t, e).value.barrier
  {
  }

  lemma BarrierWriter(t: Turn, e: Event)
    requires TurnNext(t, e).Some? && !t.barrier && TurnNext(t, e).value.barrier
    ensures e.BeforeUnit? && e.w in t.workers && CanEnterUnit(t, e.w)
  {
    if OffRow(e) { OffRowBarrier(t, e); } else { RowWriterBarrier(t, e); }
  }

  /** The barrier goes up only at a checkpoint of the lease holder that has just seen every accepted
      redirect applied and no stop pending. */
  lemma BarrierGoesUp(t: Turn, e: Event)
    requires Inv(t) && TurnNext(t, e).Some? && !t.barrier && TurnNext(t, e).value.barrier
    ensures e.BeforeUnit? && Holds(t, e.w) && !t.control.cancel
    ensures forall i | 0 <= i < |t.control.rows| :: t.control.rows[i].applied && t.control.rows[i].sequence <= t.control.applied
  {
    BarrierWriter(t, e);
    AllApplied(t.control);
  }

  /** The barrier comes down only after a rollback that the journal proves: nothing survived, nothing
      is pending and every row says rolled back. */
  lemma BarrierComesDown(t: Turn, e: Event)
    requires Inv(t) && TurnNext(t, e).Some? && t.barrier && !TurnNext(t, e).value.barrier
    ensures e.Repair? && t.durable == {} && TurnNext(t, e).value.durable == {}
    ensures var t' := TurnNext(t, e).value;
            t'.journal != map[] && forall x | x in t'.journal :: t'.journal[x].state.RolledBack?
  {
    RepairKeeps(t, e.w);
  }

  /** A stop was accepted: the flag is up or the turn is over. */
  ghost predicate Stopped(t: Turn) {
    t.control.cancel || Terminal(t.state)
  }

  lemma StoppedRefusesUnit(t: Turn, w: Token)
    requires t.control.cancel || t.state != Running
    ensures TurnNext(t, BeforeUnit(w)).None?
  {
  }

  lemma StopStops(t: Turn, rowLocked: bool)
    ensures Stopped(StopTurn(t, rowLocked))
  {
  }

  /** Whatever the state and whoever has locked the row, a stop takes effect: no checkpoint in front
      of a unit passes any more. */
  lemma StopIsAccepted(t: Turn, rowLocked: bool, w: Token)
    ensures TurnNext(t, Stop(rowLocked)).Some? && Stopped(TurnNext(t, Stop(rowLocked)).value)
    ensures TurnNext(TurnNext(t, Stop(rowLocked)).value, BeforeUnit(w)).None?
  {
    StopStops(t, rowLocked);
    StoppedRefusesUnit(StopTurn(t, rowLocked), w);
  }

  lemma StopFlagStaysOffRow(t: Turn, e: Event)
    requires OffRow(e) && TurnNext(t, e).Some? && t.control.cancel
    ensures TurnNext(t, e).value.control.cancel
  {
  }

  lemma StopFlagStays(t: Turn, e: Event)
    requires TurnNext(t, e).Some? && t.control.cancel
    ensures TurnNext(t, e).value.control.cancel
  {
    if OffRow(e) { StopFlagStaysOffRow(t, e); }
  }

  lemma StoppedRefusesBarrier(t: Turn, e: Event)
    requires TurnNext(t, e).Some? && Stopped(t) && !t.barrier
    ensures !TurnNext(t, e).value.barrier
  {
    if TurnNext(t, e).value.barrier { BarrierWriter(t, e); }
  }

  /** A turn stopped in front of its barrier does not cross it with the next step and nothing of it
      survives. It stays stopped, unless a worker parks a turn that had ended without the flag. */
  lemma StoppedStaysBehindBarrier(t: Turn, e: Event)
    requires Inv(t) && TurnNext(t, e).Some? && Stopped(t) && !t.barrier
    ensures !TurnNext(t, e).value.barrier && TurnNext(t, e).value.durable == {}
    ensures Stopped(TurnNext(t, e).value) <==> (e.PersistAwaiting? ==> t.control.cancel)
  {
    StoppedRefusesBarrier(t, e);
    StepKeepsInv(t, e);
    if t.control.cancel { StopFlagStays(t, e); } else { TerminalAbsorbs(t, e); }
  }

  /** Nothing of the turn is out, and nothing can come out any more. */
  ghost predicate EffectFree(t: Turn) {
    && Terminal(t.state) && t.durable == {}
    && forall w, x | w in t.workers && InFlight(t, w, x) :: !t.workers[w].plan.units[t.workers[w].k].mode.External?
  }

  /** A row that says rolled back or skipped is not that of an external step under way. */
  lemma InFlightIsLocal(t: Turn, w: Token, x: StepId)
    requires Inv(t) && t.barrier && t.state != Running && AllRolledBack(t.journal) && w in t.workers && InFlight(t, w, x)
    ensures !t.workers[w].plan.units[t.workers[w].k].mode.External?
  {
    InFlightRow(t, w, x);
  }

  /** The host closes a review as "no change was confirmed" only when that is true ... */
  lemma ReconciledIsEffectFree(t: Turn, readable: bool)
    requires Inv(t) && TurnNext(t, Reconcile(readable)).Some?
    ensures EffectFree(TurnNext(t, Reconcile(readable)).value)
  {
    NothingSurvives(t);
    forall w, x | w in t.workers && InFlight(t, w, x)
      ensures !t.workers[w].plan.units[t.workers[w].k].mode.External?
    {
      InFlightIsLocal(t, w, x);
    }
    var t' := TurnNext(t, Reconcile(readable)).value;
    assert forall w, x | w in t'.workers && InFlight(t', w, x) :: InFlight(t, w, x);
  }

  lemma EffectFreeStep(t: Turn, w: Token, x: StepId)
    requires EffectFree(t) && TurnNext(t, RunStep(w, x)).Some?
    ensures EffectFree(TurnNext(t, RunStep(w, x)).value)
  {
    var t' := TurnNext(t, RunStep(w, x)).value;
    assert InFlight(t, w, x);
    forall v, y | v in t'.workers && InFlight(t', v, y)
      ensures InFlight(t, v, y) && t'.workers[v].plan.units == t.workers[v].plan.units && t'.workers[v].k == t.workers[v].k
    {
    }
  }

  lemma EffectFreeSkip(t: Turn, w: Token, x: StepId)
    requires EffectFree(t) && TurnNext(t, SkipStep(w, x)).Some?
    ensures EffectFree(TurnNext(t, SkipStep(w, x)).value)
  {
    var t' := TurnNext(t, SkipStep(w, x)).value;
    forall v, y | v in t'.workers && InFlight(t', v, y)
      ensures InFlight(t, v, y) && t'.workers[v].plan.units == t.workers[v].plan.units && t'.workers[v].k == t.workers[v].k
    {
    }
  }

  /** A dead turn's other steps only move a worker out of its unit or drop it. */
  lemma DeadTurnOffRow(t: Turn, e: Event)
    requires OffRow(e) && !e.RunStep? && !e.SkipStep? && TurnNext(t, e).Some? && t.state != Running
    ensures var t' := TurnNext(t, e).value;
            && t'.durable == t.durable && t'.state == t.state
            && t'.workers.Keys <= t.workers.Keys
            && forall v | v in t'.workers :: t'.workers[v] == t.workers[v] || !t'.workers[v].InUnit?
  {
  }

  /** ... and it stays true whatever the remaining workers do, parking excepted. */
  lemma EffectFreeStays(t: Turn, e: Event)
    requires Inv(t) && TurnNext(t, e).Some? && EffectFree(t)
    ensures EffectFree(TurnNext(t, e).value) <==> !e.PersistAwaiting?
  {
    if e.PersistAwaiting? { TerminalAbsorbs(t, e); }
    else if e.RunStep? { EffectFreeStep(t, e.w, e.x); }
    else if e.SkipStep? { EffectFreeSkip(t, e.w, e.x); }
    else {
      EffectFreeFrame(t, e);
      var t' := TurnNext(t, e).value;
      forall v, y | v in t'.workers && InFlight(t', v, y)
        ensures v in t.workers && InFlight(t, v, y) && t'.workers[v] == t.workers[v]
      {
      }
    }
  }

  lemma EffectFreeFrame(t: Turn, e: Event)
    requires QueueInv(t) && Terminal(t.state) && TurnNext(t, e).Some?
    requires !e.PersistAwaiting? && !e.RunStep? && !e.SkipStep?
    ensures var t' := TurnNext(t, e).value;
            && t'.durable == t.durable && Terminal(t'.state)
            && t'.workers.Keys <= t.workers.Keys
            && forall v | v in t'.workers :: t'.workers[v] == t.workers[v] || !t'.workers[v].InUnit?
  {
    if OffRow(e) { DeadTurnOffRow(t, e); }
    else if e.CancelClaimed? || e.Fail? || e.Complete? { LeaseIsChecked(t, e, e.w); }
    else if !e.Reconcile? { UserLeavesTerminal(t, e); }
  }

  lemma QueueWriter(t: Turn, e: Event)
    requires TurnNext(t, e).Some? && t.state != Queued && TurnNext(t, e).value.state == Queued
    ensures e.Fail? || e.RecoverStale? || e.Redirect? || e.Approve?
  {
    if OffRow(e) { OffRowKeepsRow(t, e); }
  }

  /** One more try is left: below the ceiling, or at a ceiling that a redirect may still raise. */
  predicate TryLeft(t: Turn, kind: FailureKind) {
    t.attempts < t.maxAttempts || (kind.Redirected? && t.attempts < MAX_ATTEMPTS_WITH_REDIRECTS)
  }

  /** Everything but a code that is listed as final and a provider failure that is not marked safe. */
  predicate MayRetry(kind: FailureKind) {
    kind != Permanent && kind != Structured(false)
  }

  /** A failure of the lease holder goes back into the queue exactly when no stop is pending, nothing
      was committed behind a barrier, the failure may be retried and a try is left; it is then
      claimable. A provider failure that is not marked safe never does. */
  lemma FailRequeuesExactly(t: Turn, w: Token, kind: FailureKind, now: nat)
    requires QueueInv(t) && t.token == Some(w) && TurnNext(t, Fail(w, kind, now)).Some?
    ensures var t' := TurnNext(t, Fail(w, kind, now)).value;
            && (t'.state == Queued <==> !t.control.cancel && !t.barrier && MayRetry(kind) && TryLeft(t, kind))
            && (t'.state == Failed <==> !t.control.cancel && !t.barrier && !(MayRetry(kind) && TryLeft(t, kind)))
            && (t'.state == Queued ==> t'.attempts < t'.maxAttempts && t'.queuedAt == now)
            && (t'.state == RecoveryRequired <==> !t.control.cancel && t.barrier)
            && (t'.state == Cancelled <==> t.control.cancel)
  {
  }

  /** A redirect that finds no try left buys exactly one more, up to 19; no other failure moves the ceiling. */
  lemma FailCeilingExactly(t: Turn, w: Token, kind: FailureKind, now: nat)
    requires QueueInv(t) && t.token == Some(w) && TurnNext(t, Fail(w, kind, now)).Some?
    ensures var t' := TurnNext(t, Fail(w, kind, now)).value;
            t'.maxAttempts == if kind == Redirected && !t.control.cancel && !t.barrier && t.attempts == t.maxAttempts < 19
                              then t.maxAttempts + 1 else t.maxAttempts
  {
  }

  lemma FailRequeues(t: Turn, w: Token, kind: FailureKind, now: nat)
    requires QueueInv(t) && TurnNext(t, Fail(w, kind, now)).Some? && t.state != Queued
    ensures var t' := TurnNext(t, Fail(w, kind, now)).value; t'.state == Queued ==> t'.attempts < t'.maxAttempts
  {
    if t.token == Some(w) { FailRequeuesExactly(t, w, kind, now); }
  }

  lemma RedirectRequeues(t: Turn, clientId: string, message: string, withinBudget: bool, now: nat)
    requires QueueInv(t) && TurnNext(t, Redirect(clientId, message, withinBudget, now)).Some? && t.state != Queued
    ensures var t' := TurnNext(t, Redirect(clientId, message, withinBudget, now)).value;
            t'.state == Queued ==> (t'.attempts < t'.maxAttempts <==> t.attempts < MAX_ATTEMPTS_WITH_REDIRECTS)
  {
  }

  lemma HostRequeues(t: Turn, e: Event)
    requires QueueInv(t) && (e.RecoverStale? || e.Approve?) && TurnNext(t, e).Some? && t.state != Queued
    ensures var t' := TurnNext(t, e).value; t'.state == Queued ==> t'.attempts < t'.maxAttempts
  {
  }

  /** Every way back into the queue leaves an attempt to use, except a redirect that hits the ceiling. */
  lemma RequeuedIsClaimable(t: Turn, e: Event)
    requires Inv(t) && TurnNext(t, e).Some? && t.state != Queued && TurnNext(t, e).value.state == Queued
    ensures var t' := TurnNext(t, e).value;
            t'.attempts < t'.maxAttempts <==> !(e.Redirect? && t.attempts >= MAX_ATTEMPTS_WITH_REDIRECTS)
  {
    QueueWriter(t, e);
    match e
    case Fail(w, kind, now) => FailRequeues(t, w, kind, now);
    case Redirect(clientId, message, within, now) => RedirectRequeues(t, clientId, message, within, now);
    case _ => HostRequeues(t, e);
  }

  // ----- What no step breaks, parking included -----

  lemma OffRowKeepsControl(t: Turn, e: Event)
    requires OffRow(e) && TurnNext(t, e).Some?
    ensures TurnNext(t, e).value.approvals == t.approvals
    ensures !e.MarkApplied? ==> TurnNext(t, e).value.control == t.control
  {
  }

  lemma OffRowKeepsRowInv(t: Turn, e: Event)
    requires RowInv(t) && OffRow(e) && TurnNext(t, e).Some?
    ensures RowInv(TurnNext(t, e).value)
  {
    OffRowKeepsRow(t, e);
    OffRowKeepsControl(t, e);
    if e.MarkApplied? { MarkAppliedKeeps(t.control, e.sequence); }
  }

  lemma FailKeepsRowInv(t: Turn, w: Token, kind: FailureKind, now: nat)
    requires RowInv(t) && TurnNext(t, Fail(w, kind, now)).Some?
    ensures RowInv(TurnNext(t, Fail(w, kind, now)).value)
  {
  }

  lemma LeaveKeepsRowInv(t: Turn, e: Event)
    requires RowInv(t) && (e.CancelClaimed? || e.PersistAwaiting? || e.Complete?) && TurnNext(t, e).Some?
    ensures RowInv(TurnNext(t, e).value)
  {
  }

  lemma RowWriterKeepsRowInv(t: Turn, e: Event)
    requires RowInv(t) && (e.CancelClaimed? || e.PersistAwaiting? || e.Fail? || e.Complete?) && TurnNext(t, e).Some?
    ensures RowInv(TurnNext(t, e).value)
  {
    if e.Fail? { FailKeepsRowInv(t, e.w, e.kind, e.now); } else { LeaveKeepsRowInv(t, e); }
  }

  lemma RedirectKeepsRowInv(t: Turn, clientId: string, message: string, withinBudget: bool, now: nat)
    requires RowInv(t) && RedirectTurn(t, clientId, message, withinBudget, now).Some?
    ensures RowInv(RedirectTurn(t, clientId, message, withinBudget, now).value)
  {
    FindClientFinds(t.control.rows, clientId);
    if FindClient(t.control.rows, clientId).None? { InterveneKeeps(t.control, clientId, message); }
  }

  lemma RecoverKeepsRowInv(t: Turn, e: Event)
    requires RowInv(t) && (e.RecoverStale? || e.Reconcile?) && TurnNext(t, e).Some?
    ensures RowInv(TurnNext(t, e).value)
  {
  }

  lemma UserKeepsRowInv(t: Turn, e: Event)
    requires RowInv(t) && (e.Stop? || e.Approve? || e.Reject?) && TurnNext(t, e).Some?
    ensures RowInv(TurnNext(t, e).value)
  {
  }

  lemma HostKeepsRowInv(t: Turn, e: Event)
    requires RowInv(t) && (e.RecoverStale? || e.Stop? || e.Approve? || e.Reject? || e.Reconcile?) && TurnNext(t, e).Some?
    ensures RowInv(TurnNext(t, e).value)
  {
    if e.RecoverStale? || e.Reconcile? { RecoverKeepsRowInv(t, e); } else { UserKeepsRowInv(t, e); }
  }

  /** Lease, attempts, ceiling and intervention log stay sound whatever happens, without any guard. */
  lemma StepKeepsRowInv(t: Turn, e: Event)
    requires RowInv(t) && TurnNext(t, e).Some?
    ensures RowInv(TurnNext(t, e).value)
  {
    if OffRow(e) { OffRowKeepsRowInv(t, e); }
    else if e.Redirect? { RedirectKeepsRowInv(t, e.clientId, e.message, e.withinBudget, e.now); }
    else if WorkerOf(e).Some? { RowWriterKeepsRowInv(t, e); }
    else { HostKeepsRowInv(t, e); }
  }
}
