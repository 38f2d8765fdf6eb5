/** Where the lifecycle stops short of what it is meant to give, shown on concrete runs or by the
    exact condition. */
module TurnLimits {
  import opened Prelude
  import opened TurnTypes
  import opened EffectJournal
  import opened TurnSteps
  import opened TurnInvariant
  import opened TurnSafety

  // ----- Parking without a lease check -----

  const STEP: StepId := "step-1"
  const CALL := "send"

  const PROPOSAL := Plan([Unit(External, UnitPrepared)], map[STEP := Step(0, CALL, Previewed)])
  const ENTERED_PLAN := Plan([Unit(External, UnitExecuting)], map[STEP := Step(0, CALL, Previewed)])
  const SENT_PLAN := Plan([Unit(External, UnitExecuting)], map[STEP := Step(0, CALL, StepDone)])

  // One turn. Worker 0 loses its lease while it reasons, worker 1 asks the user, and worker 2 sends the
  // external effect that the user approved.
  const NEW := NewTurn(0, 0, None, 0)
  const CLAIMED0 := NEW.(state := Running, attempts := 1, claimedAt := Some(1), token := Some(0), workers := map[0 := Launched])
  const REASONING0 := CLAIMED0.(workers := map[0 := Reasoning])
  const REQUEUED := REASONING0.(state := Queued, queuedAt := 2, token := None)
  const CLAIMED1 := REQUEUED.(state := Running, attempts := 2, claimedAt := Some(3), token := Some(1),
                              workers := map[0 := Reasoning, 1 := Launched])
  const REASONING1 := CLAIMED1.(workers := map[0 := Reasoning, 1 := Reasoning])
  const ASKED := REASONING1.(state := AwaitingConfirmation, plan := Some(PROPOSAL), hasResult := true, token := None,
                             workers := map[0 := Reasoning])
  const AGREED := ASKED.(state := Queued, queuedAt := 4, authorized := true, hasResult := false, approvals := 1)
  const CLAIMED2 := AGREED.(state := Running, attempts := 3, claimedAt := Some(5), token := Some(2),
                            workers := map[0 := Reasoning, 2 := Launched])
  const STARTED2 := CLAIMED2.(workers := map[0 := Reasoning, 2 := Between(PROPOSAL, 0)])
  const ENTERED2 := STARTED2.(workers := map[0 := Reasoning, 2 := InUnit(ENTERED_PLAN, 0, {})], barrier := true,
                              plan := Some(ENTERED_PLAN), authorized := false,
                              journal := map[STEP := JournalRow(0, External, CALL, RowExecuting)])
  const SENT := ENTERED2.(workers := map[0 := Reasoning, 2 := InUnit(SENT_PLAN, 0, {})], durable := {STEP})

  lemma LeaseIsLost()
    ensures ClaimTurn(NEW, 0, 1) == CLAIMED0
    ensures TurnNext(CLAIMED0, Begin(0)) == Some(REASONING0)
    ensures TurnNext(REASONING0, RecoverStale(2)) == Some(REQUEUED)
    ensures REQUEUED.attempts < REQUEUED.maxAttempts && ClaimTurn(REQUEUED, 1, 3) == CLAIMED1
  {
    assert CLAIMED0.workers[0 := Reasoning] == REASONING0.workers;
    assert REQUEUED.workers[1 := Launched] == CLAIMED1.workers;
  }

  lemma SuccessorAsks()
    ensures TurnNext(CLAIMED1, Begin(1)) == Some(REASONING1)
    ensures TurnNext(REASONING1, PersistAwaiting(1, PROPOSAL)) == Some(ASKED) && Holds(REASONING1, 1)
  {
    assert CLAIMED1.workers[1 := Reasoning] == REASONING1.workers;
    assert REASONING1.workers - {1} == ASKED.workers;
  }

  lemma UserAgrees()
    ensures TurnNext(ASKED, Approve(4, true)) == Some(AGREED)
    ensures AGREED.attempts < AGREED.maxAttempts && ClaimTurn(AGREED, 2, 5) == CLAIMED2
  {
    assert AGREED.workers[2 := Launched] == CLAIMED2.workers;
  }

  lemma ProposalIsFresh()
    ensures Fresh(PROPOSAL)
  {
    assert |PROPOSAL.steps| == 1;
  }

  lemma ApprovedStarts()
    ensures TurnNext(CLAIMED2, Begin(2)) == Some(STARTED2)
  {
    ProposalIsFresh();
    assert CLAIMED2.workers[2 := Between(PROPOSAL, 0)] == STARTED2.workers;
  }

  lemma FirstSnapshot()
    ensures SetUnit(PROPOSAL, 0, UnitExecuting) == ENTERED_PLAN
    ensures Syncable(map[], ENTERED_PLAN) && Synced(map[], ENTERED_PLAN) == ENTERED2.journal
  {
    assert |ENTERED_PLAN.steps| == 1;
  }

  lemma ApprovedEnters()
    ensures TurnNext(STARTED2, BeforeUnit(2)) == Some(ENTERED2)
  {
    FirstSnapshot();
    assert STARTED2.workers[2 := InUnit(ENTERED_PLAN, 0, {})] == ENTERED2.workers;
  }

  lemma StepSent()
    ensures SetStep(ENTERED_PLAN, STEP, StepDone) == SENT_PLAN
  {
    assert ENTERED_PLAN.steps[STEP := Step(0, CALL, StepDone)] == SENT_PLAN.steps;
  }

  lemma ApprovedSends()
    ensures TurnNext(ENTERED2, RunStep(2, STEP)) == Some(SENT)
  {
    StepSent();
    assert {} + {STEP} == {STEP};
    assert ENTERED2.workers[2 := InUnit(SENT_PLAN, 0, {})] == SENT.workers;
  }

  /** From the new turn to the external effect, which a user approved. */
  ghost predicate ComesToSend() {
    && ClaimTurn(NEW, 0, 1) == CLAIMED0 && TurnNext(CLAIMED0, Begin(0)) == Some(REASONING0)
    && TurnNext(REASONING0, RecoverStale(2)) == Some(REQUEUED) && ClaimTurn(REQUEUED, 1, 3) == CLAIMED1
    && TurnNext(CLAIMED1, Begin(1)) == Some(REASONING1) && TurnNext(REASONING1, PersistAwaiting(1, PROPOSAL)) == Some(ASKED)
    && TurnNext(ASKED, Approve(4, true)) == Some(AGREED) && ClaimTurn(AGREED, 2, 5) == CLAIMED2
    && TurnNext(CLAIMED2, Begin(2)) == Some(STARTED2)
    && TurnNext(STARTED2, BeforeUnit(2)) == Some(ENTERED2) && TurnNext(ENTERED2, RunStep(2, STEP)) == Some(SENT)
  }

  lemma SendRun()
    ensures ComesToSend()
  {
    LeaseIsLost();
    SuccessorAsks();
    UserAgrees();
    ApprovedStarts();
    ApprovedEnters();
    ApprovedSends();
  }

  // Worker 0, whose lease is long gone, parks the same plan once more.
  const PARKED := SENT.(state := AwaitingConfirmation, plan := Some(PROPOSAL), hasResult := true, token := None,
                        workers := map[2 := InUnit(SENT_PLAN, 0, {})])
  const APPROVED := PARKED.(state := Queued, queuedAt := 6, authorized := true, hasResult := false, approvals := 2,
                            maxAttempts := 4)

  lemma ParkedOnceMore()
    ensures TurnNext(SENT, PersistAwaiting(0, PROPOSAL)) == Some(PARKED) && !Holds(SENT, 0)
  {
    assert SENT.workers - {0} == PARKED.workers;
  }

  lemma ParkedAgain()
    ensures TurnNext(SENT, PersistAwaiting(0, PROPOSAL)) == Some(PARKED) && !Holds(SENT, 0)
    ensures TurnNext(PARKED, Approve(6, true)) == Some(APPROVED)
  {
    ParkedOnceMore();
  }

  /** The lease-less parking write lets the superseded worker 0 put a turn with a committed effect back in
      front of the user; one approval later the scheduler may claim it again. */
  lemma ZombieRun()
    ensures ComesToSend()
    ensures TurnNext(SENT, PersistAwaiting(0, PROPOSAL)) == Some(PARKED) && TurnNext(PARKED, Approve(6, true)) == Some(APPROVED)
    ensures APPROVED.state == Queued && APPROVED.attempts < APPROVED.maxAttempts && APPROVED.durable == {STEP}
  {
    SendRun();
    ParkedAgain();
  }

  // ... and the scheduler does claim it: worker 3 executes the approved plan once more.
  const CLAIMED3 := APPROVED.(state := Running, attempts := 4, claimedAt := Some(7), token := Some(3),
                              workers := map[2 := InUnit(SENT_PLAN, 0, {}), 3 := Launched])
  const STARTED3 := CLAIMED3.(workers := map[2 := InUnit(SENT_PLAN, 0, {}), 3 := Between(PROPOSAL, 0)])
  const ENTERED3 := STARTED3.(workers := map[2 := InUnit(SENT_PLAN, 0, {}), 3 := InUnit(ENTERED_PLAN, 0, {})],
                              plan := Some(ENTERED_PLAN), authorized := false)

  lemma ThirdWorkerStarts()
    ensures ClaimTurn(APPROVED, 3, 7) == CLAIMED3 && TurnNext(CLAIMED3, Begin(3)) == Some(STARTED3)
  {
    ProposalIsFresh();
    assert APPROVED.workers[3 := Launched] == CLAIMED3.workers;
    assert CLAIMED3.workers[3 := Between(PROPOSAL, 0)] == STARTED3.workers;
  }

  lemma SecondSnapshot()
    ensures Syncable(ENTERED2.journal, ENTERED_PLAN) && Synced(ENTERED2.journal, ENTERED_PLAN) == ENTERED2.journal
  {
    assert |ENTERED_PLAN.steps| == 1;
  }

  lemma ThirdWorkerMayEnter()
    ensures CanEnterUnit(STARTED3, 3)
  {
    FirstSnapshot();
    SecondSnapshot();
  }

  lemma EnteringWorkers()
    ensures STARTED3.workers[3 := InUnit(ENTERED_PLAN, 0, {})] == ENTERED3.workers
  {
  }

  lemma ThirdWorkerEntered()
    ensures EnterUnit(STARTED3, 3) == ENTERED3
  {
    FirstSnapshot();
    SecondSnapshot();
    EnteringWorkers();
    var t := SetWorker(STARTED3, 3, InUnit(ENTERED_PLAN, 0, {}));
    assert t.(barrier := true, plan := Some(ENTERED_PLAN), authorized := false, journal := ENTERED2.journal) == ENTERED3;
  }

  lemma ThirdWorkerEnters()
    ensures TurnNext(STARTED3, BeforeUnit(3)) == Some(ENTERED3)
  {
    ThirdWorkerMayEnter();
    ThirdWorkerEntered();
  }

  lemma ThirdWorkerSends()
    ensures STEP in ENTERED3.durable && TurnNext(ENTERED3, RunStep(3, STEP)).Some?
  {
    assert ENTERED3.workers[3] == InUnit(ENTERED_PLAN, 0, {});
  }

  /** The rest of that run: the external step that is already out is sent a second time. */
  lemma ZombieRunSendsTwice()
    ensures ClaimTurn(APPROVED, 3, 7) == CLAIMED3 && TurnNext(CLAIMED3, Begin(3)) == Some(STARTED3)
    ensures TurnNext(STARTED3, BeforeUnit(3)) == Some(ENTERED3)
    ensures STEP in ENTERED3.durable && TurnNext(ENTERED3, RunStep(3, STEP)).Some?
  {
    ThirdWorkerStarts();
    ThirdWorkerEnters();
    ThirdWorkerSends();
  }

  // Or worker 0 parks another plan: one local unit, under the unit number of the external one.
  const OTHER_STEP: StepId := "step-2"
  const LOCAL := Plan([Unit(OdooAtomic, UnitPrepared)], map[OTHER_STEP := Step(0, "write", Previewed)])
  const MISPARKED := PARKED.(plan := Some(LOCAL))
  const MISAPPROVED := APPROVED.(plan := Some(LOCAL))
  const MISCLAIMED := CLAIMED3.(plan := Some(LOCAL))
  const MISSTARTED := MISCLAIMED.(workers := map[2 := InUnit(SENT_PLAN, 0, {}), 3 := Between(LOCAL, 0)])
  const MISFAILING := MISCLAIMED.(workers := map[2 := InUnit(SENT_PLAN, 0, {}), 3 := Failing])
  const MISCLASSIFIED := MISFAILING.(state := RecoveryRequired, token := None, workers := map[2 := InUnit(SENT_PLAN, 0, {})],
                                     journal := map[STEP := JournalRow(0, External, CALL, RolledBack)])

  lemma OtherPlanIsParked()
    ensures TurnNext(SENT, PersistAwaiting(0, LOCAL)) == Some(MISPARKED)
  {
    assert SENT.workers - {0} == PARKED.workers;
  }

  lemma OtherPlanIsClaimed()
    ensures TurnNext(MISPARKED, Approve(6, true)) == Some(MISAPPROVED) && ClaimTurn(MISAPPROVED, 3, 7) == MISCLAIMED
  {
    assert APPROVED.workers[3 := Launched] == CLAIMED3.workers;
  }

  lemma LocalIsFresh()
    ensures Fresh(LOCAL)
  {
    assert |LOCAL.steps| == 1;
  }

  lemma OtherJob()
    ensures FirstJob(MISCLAIMED) == Between(LOCAL, 0)
  {
    LocalIsFresh();
  }

  lemma OtherWorkers()
    ensures SetWorker(MISCLAIMED, 3, Between(LOCAL, 0)) == MISSTARTED
  {
    assert MISCLAIMED.workers[3 := Between(LOCAL, 0)] == MISSTARTED.workers;
  }

  lemma HolderBegins(t: Turn, w: Token)
    requires w in t.workers && t.workers[w] == Launched && Holds(t, w)
    ensures TurnNext(t, Begin(w)) == Some(SetWorker(t, w, FirstJob(t)))
  {
  }

  lemma OtherPlanStarts()
    ensures TurnNext(MISCLAIMED, Begin(3)) == Some(MISSTARTED)
  {
    HolderBegins(MISCLAIMED, 3);
    OtherJob();
    OtherWorkers();
  }

  lemma OtherPlanMisses()
    ensures !Syncable(ENTERED2.journal, SetUnit(LOCAL, 0, UnitExecuting))
  {
    var rows := ENTERED2.journal;
    assert STEP in rows && Reusable(rows[STEP]);
    assert STEP !in SetUnit(LOCAL, 0, UnitExecuting).steps;
  }

  lemma MayNotEnter()
    ensures !CanEnterUnit(MISSTARTED, 3)
  {
    OtherPlanMisses();
    assert MISSTARTED.journal == ENTERED2.journal && MISSTARTED.workers[3] == Between(LOCAL, 0);
  }

  lemma OtherPlanIsRefused()
    ensures TurnNext(MISSTARTED, BeforeUnit(3)) == None
  {
    MayNotEnter();
  }

  lemma OtherPlanRaises()
    ensures TurnNext(MISSTARTED, Raise(3)) == Some(MISFAILING)
  {
    assert MISSTARTED.workers[3 := Failing] == MISFAILING.workers;
  }

  lemma ExternalIsMarked()
    ensures Marked(ENTERED2.journal, Some(LOCAL)) == MISCLASSIFIED.journal
  {
  }

  lemma OtherPlanFails()
    ensures TurnNext(MISFAILING, Fail(3, Permanent, 8)) == Some(MISCLASSIFIED)
  {
    ExternalIsMarked();
    assert MISFAILING.workers - {3} == MISCLASSIFIED.workers;
  }

  lemma ReviewIsClosed()
    ensures TurnNext(MISCLASSIFIED, Reconcile(true)).Some? && MISCLASSIFIED.durable == {STEP}
  {
    assert STEP in MISCLASSIFIED.journal;
  }

  /** From the effect to a review that may be closed. */
  ghost predicate ComesToReview() {
    && TurnNext(SENT, PersistAwaiting(0, LOCAL)) == Some(MISPARKED)
    && TurnNext(MISPARKED, Approve(6, true)) == Some(MISAPPROVED) && ClaimTurn(MISAPPROVED, 3, 7) == MISCLAIMED
    && TurnNext(MISCLAIMED, Begin(3)) == Some(MISSTARTED)
    && TurnNext(MISSTARTED, BeforeUnit(3)) == None && TurnNext(MISSTARTED, Raise(3)) == Some(MISFAILING)
    && TurnNext(MISFAILING, Fail(3, Permanent, 8)) == Some(MISCLASSIFIED)
    && TurnNext(MISCLASSIFIED, Reconcile(true)).Some?
  }

  lemma ReviewRun()
    ensures ComesToReview()
  {
    OtherPlanIsParked();
    OtherPlanIsClaimed();
    OtherPlanStarts();
    OtherPlanIsRefused();
    OtherPlanRaises();
    OtherPlanFails();
    ReviewIsClosed();
  }

  /** Another end of that run: the rows are classified by the units of the plan that worker 0 parked, the
      external row passes for rolled back, and the review may be closed as "no change was confirmed"
      while the effect is out. */
  lemma MismatchedRun()
    ensures ComesToSend() && ComesToReview() && MISCLASSIFIED.durable == {STEP}
  {
    SendRun();
    ReviewRun();
  }

  // ----- Replanning after a repair -----

  /** The first checkpoint of a plan passes exactly when no rolled-back plan of the turn used one
      of its step ids. The ids the planner falls back on, "step-1", "step-2", ..., repeat. */
  lemma ReplanNeedsFreshStepIds(t: Turn, w: Token)
    requires Inv(t) && w in t.workers && t.workers[w].Between? && t.workers[w].next == 0
    requires Holds(t, w) && ControlCurrent(t.control)
    ensures CanEnterUnit(t, w) <==> t.workers[w].plan.steps.Keys !! t.journal.Keys
  {
    assert WorkerFits(t, w, t.workers[w]);
    SyncableIsApart(t.journal, SetUnit(t.workers[w].plan, 0, UnitExecuting));
  }

  lemma SyncableIsApart(rows: Journal, p: Plan)
    requires WellFormed(p) && forall x | x in rows :: rows[x].state.RolledBack?
    ensures Syncable(rows, p) <==> p.steps.Keys !! rows.Keys
  {
    assert forall x | x in rows :: !Reusable(rows[x]);
    assert Syncable(rows, p) ==> forall x | x in p.steps :: x !in rows;
  }

  /** After a repair of an executed atomic unit every step id of the failed plan is in the journal. */
  lemma RepairBurnsStepIds(t: Turn, w: Token)
    requires Inv(t) && w in t.workers && RolledBackUnit(t, w)
    ensures t.workers[w].plan.steps.Keys <= RepairTurn(t, w).journal.Keys
  {
    assert WorkerFits(t, w, t.workers[w]);
  }
}
