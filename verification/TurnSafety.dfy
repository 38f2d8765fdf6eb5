/** Every step of a turn keeps the invariant. */
module TurnSafety {
  import opened Prelude
  import opened TurnTypes
  import opened EffectJournal
  import opened TurnSteps
  import opened TurnInvariant

  /** Parking is written without a lease check. The row itself stays sound exactly when it carries
      no write barrier (see `StepKeepsInv`). */
  predicate Guarded(t: Turn, e: Event) {
    e.PersistAwaiting? ==> !t.barrier
  }

  lemma NewTurnInv(conversation: nat, user: nat, requestId: Option<string>, now: nat)
    ensures Inv(NewTurn(conversation, user, requestId, now))
  {
  }

  lemma ClaimKeeps(t: Turn, w: Token, now: nat)
    requires Inv(t) && t.state == Queued && t.attempts < t.maxAttempts && w !in t.workers
    ensures Inv(ClaimTurn(t, w, now))
  {
    var t' := ClaimTurn(t, w, now);
    forall v | v in t'.workers
      ensures WorkerFits(t', v, t'.workers[v])
    {
      assert v != w ==> WorkerFits(t, v, t.workers[v]);
    }
  }

  /** A turn that leaves the active states for good keeps the journal honest. */
  lemma SettleKeeps(t: Turn, s: TurnState)
    requires Inv(t) && Terminal(s) && !Terminal(t.state)
    ensures Inv(Settle(t, s))
  {
    var t' := Settle(t, s);
    if t.barrier { MarkFits(t.journal, t.plan.value, true); }
    forall v | v in t'.workers
      ensures WorkerFits(t', v, t'.workers[v])
    {
      assert WorkerFits(t, v, t.workers[v]);
    }
  }

  lemma ForgetKeeps(t: Turn, w: Token)
    requires Inv(t)
    ensures Inv(Forget(t, w))
  {
    var t' := Forget(t, w);
    forall v | v in t'.workers
      ensures WorkerFits(t', v, t'.workers[v])
    {
      assert WorkerFits(t, v, t.workers[v]);
    }
  }

  lemma RequeueKeeps(t: Turn, now: nat)
    requires Inv(t) && !t.barrier && !t.hasResult
    ensures Inv(Requeue(t, now))
  {
    var t' := Requeue(t, now);
    forall v | v in t'.workers
      ensures WorkerFits(t', v, t'.workers[v])
    {
      assert WorkerFits(t, v, t.workers[v]);
    }
  }

  /** A worker only depends on the lease, the barrier, the plan and the durable effects. */
  lemma FitsCarriesOver(t: Turn, t': Turn, v: Token, worker: Worker)
    requires WorkerFits(t, v, worker)
    requires t'.token == t.token && t'.barrier == t.barrier && t'.plan == t.plan && t'.durable == t.durable
    ensures WorkerFits(t', v, worker)
  {
  }

  /** Replacing one worker by one that fits and has passed no barrier. */
  lemma SetQuietWorkerKeeps(t: Turn, w: Token, worker: Worker)
    requires Inv(t) && w in t.workers && !Effectful(worker) && WorkerFits(t, w, worker)
    ensures Inv(SetWorker(t, w, worker))
  {
    var t' := SetWorker(t, w, worker);
    forall v | v in t'.workers
      ensures WorkerFits(t', v, t'.workers[v])
    {
      FitsCarriesOver(t, t', v, t'.workers[v]);
    }
  }

  // ----- Effect steps -----

  lemma EnteringJournal(rows: Journal, q: Plan, k: nat)
    requires k < |q.units| && Progress(q, k)
    requires if k == 0 then Fresh(q) && forall x | x in rows :: rows[x].state.RolledBack?
             else JournalFits(rows, q, true)
    requires Syncable(rows, SetUnit(q, k, UnitExecuting))
    ensures JournalFits(Synced(rows, SetUnit(q, k, UnitExecuting)), SetUnit(q, k, UnitExecuting), true)
  {
    var p := SetUnit(q, k, UnitExecuting);
    if k == 0 {
      SyncFirst(rows, p, k);
    } else {
      assert Advances(q, p) by {
        forall x | x in q.steps ensures RowFits(q, rows[x], x, true) {}
      }
      SyncAdvances(rows, q, p);
    }
  }

  lemma EnteringSnapshot(rows: Journal, q: Plan, k: nat)
    requires k < |q.units| && Progress(q, k)
    requires Fresh(q) || JournalFits(rows, q, true)
    ensures Rewind(SetUnit(q, k, UnitExecuting), k) == SetUnit(q, k, UnitExecuting)
    ensures forall x | x in q.steps && q.steps[x].unit == k :: q.steps[x].state == Previewed
  {
    var p := SetUnit(q, k, UnitExecuting);
    forall x | x in q.steps && q.steps[x].unit == k
      ensures q.steps[x].state == Previewed
    {
      assert !Fresh(q) ==> RowFits(q, rows[x], x, true);
    }
    assert Rewind(p, k).units == p.units;
    assert Rewind(p, k).steps == p.steps;
  }

  lemma EnteringDurable(t: Turn, q: Plan, k: nat)
    requires EffectInv(t) && k < |q.units| && Progress(q, k) && WellFormed(q)
    requires if k == 0 then Fresh(q) && !t.barrier else t.barrier && t.plan == Some(q)
    ensures DurableFits(t.durable, SetUnit(q, k, UnitExecuting))
    ensures forall x | x in t.durable && x in q.steps :: q.steps[x].unit != k
  {
  }

  /** A worker that has passed no barrier only looks at the lease, so it does not care what the
      one effectful worker does. */
  lemma QuietWorkerFits(t: Turn, t': Turn, v: Token)
    requires v in t.workers && WorkerFits(t, v, t.workers[v]) && !Effectful(t.workers[v])
    requires t'.token == Some(v) ==> t.token == Some(v) && (t'.barrier ==> t.barrier)
    ensures WorkerFits(t', v, t.workers[v])
  {
  }

  lemma OthersFit(t: Turn, t': Turn, w: Token)
    requires WorkersInv(t) && t'.workers.Keys == t.workers.Keys
    requires forall v | v in t.workers && v != w :: !Effectful(t.workers[v]) && t'.workers[v] == t.workers[v]
    requires t'.token == t.token && (t'.barrier ==> t.barrier || t.token == Some(w))
    ensures forall v | v in t'.workers && v != w :: WorkerFits(t', v, t'.workers[v])
  {
    forall v | v in t'.workers && v != w
      ensures WorkerFits(t', v, t'.workers[v])
    {
      QuietWorkerFits(t, t', v);
    }
  }

  lemma EnteredFits(t: Turn, w: Token, p: Plan, k: nat)
    requires k < |p.units| && Entered(p, k) && t.plan == Some(p) && Rewind(p, k) == p
    requires forall x | x in t.durable && x in p.steps :: p.steps[x].unit != k
    requires forall x | x in p.steps && p.steps[x].unit == k :: p.steps[x].state == Previewed
    ensures WorkerFits(t, w, InUnit(p, k, {}))
  {
  }

  lemma EnterUnitWorkers(t: Turn, t': Turn, w: Token, p: Plan, k: nat)
    requires WorkersInv(t) && w in t.workers && Holds(t, w) && t.workers[w].Between?
    requires t' == t.(workers := t.workers[w := InUnit(p, k, {})], plan := Some(p), authorized := t'.authorized, barrier := true,
                     journal := t'.journal)
    requires t.barrier ==> t.workers[w].next > 0
    requires WorkerFits(t', w, InUnit(p, k, {}))
    requires forall v | v in t.workers && Effectful(t.workers[v]) :: v == w
    ensures WorkersInv(t')
  {
    OthersFit(t, t', w);
  }

  lemma EnterUnitKeeps(t: Turn, w: Token)
    requires Inv(t) && w in t.workers && CanEnterUnit(t, w)
    ensures ValidUnits(t.workers[w].plan) && Inv(EnterUnit(t, w))
  {
    var q, k := t.workers[w].plan, t.workers[w].next;
    assert WorkerFits(t, w, t.workers[w]);
    EnteringSnapshot(t.journal, q, k);
    EnteringJournal(t.journal, q, k);
    EnteringDurable(t, q, k);
    var p := SetUnit(q, k, UnitExecuting);
    EnteredFits(EnterUnit(t, w), w, p, k);
    EnterUnitWorkers(t, EnterUnit(t, w), w, p, k);
  }

  /** The one effectful worker moved on and everyone else stayed where they were. */
  lemma EffectfulStepKeeps(t: Turn, t': Turn, w: Token, worker: Worker)
    requires Inv(t) && w in t.workers && Effectful(t.workers[w]) && t.barrier
    requires t' == t.(workers := t.workers[w := worker], plan := t'.plan, authorized := t'.authorized, journal := t'.journal,
                     durable := t'.durable)
    requires EffectInv(t') && WorkerFits(t', w, worker)
    ensures Inv(t')
  {
    OthersFit(t, t', w);
  }

  lemma StepInUnitFits(t: Turn, t': Turn, w: Token, x: StepId, s: StepState)
    requires w in t.workers && InFlight(t, w, x) && WorkerFits(t, w, t.workers[w])
    requires s == StepDone || s == StepSkipped
    requires var external := t.workers[w].plan.units[t.workers[w].k].mode.External?;
             t'.plan == t.plan && t'.durable == if external && s == StepDone then t.durable + {x} else t.durable
    ensures var u := t.workers[w];
            var external := u.plan.units[u.k].mode.External?;
            var pending := if s == StepDone && !external then u.pending + {x} else u.pending;
            WorkerFits(t', w, InUnit(SetStep(u.plan, x, s), u.k, pending))
    ensures x !in t.workers[w].pending
    ensures t.workers[w].plan.units[t.workers[w].k].mode.External? ==> x !in t.durable
  {
    var u := t.workers[w];
    assert Rewind(SetStep(u.plan, x, s), u.k) == Rewind(u.plan, u.k);
  }

  lemma ExternalStepEffects(t: Turn, w: Token, x: StepId)
    requires EffectInv(t) && t.barrier && w in t.workers && InFlight(t, w, x) && WorkerFits(t, w, t.workers[w])
    ensures x !in t.durable || t.workers[w].plan.units[t.workers[w].k].mode.External?
    ensures t.workers[w].plan.units[t.workers[w].k].mode.External? ==> EffectInv(t.(durable := t.durable + {x}))
  {
    var u := t.workers[w];
    assert x in Rewind(u.plan, u.k).steps;
  }

  /** A step runs at most once: its effect is neither out nor pending when it starts. */
  lemma RunStepKeeps(t: Turn, w: Token, x: StepId)
    requires Inv(t) && w in t.workers && InFlight(t, w, x)
    ensures Inv(RunPlanStep(t, w, x).value)
    ensures x !in t.durable && x !in t.workers[w].pending
  {
    assert WorkerFits(t, w, t.workers[w]);
    var t' := RunPlanStep(t, w, x).value;
    ExternalStepEffects(t, w, x);
    StepInUnitFits(t, t', w, x, StepDone);
    EffectfulStepKeeps(t, t', w, t'.workers[w]);
  }

  lemma SkipStepKeeps(t: Turn, w: Token, x: StepId)
    requires Inv(t) && w in t.workers && InFlight(t, w, x)
    ensures Inv(SkipPlanStep(t, w, x).value)
  {
    assert WorkerFits(t, w, t.workers[w]);
    var t' := SkipPlanStep(t, w, x).value;
    StepInUnitFits(t, t', w, x, StepSkipped);
    EffectfulStepKeeps(t, t', w, t'.workers[w]);
  }

  // ----- Commits -----

  /** Unit k of the in-memory plan u is finished; the stored plan is its rewound snapshot. */
  ghost predicate ReadyToLand(t: Turn, u: Plan, k: nat, pending: set<StepId>) {
    && k < |u.units|
    && t.barrier && t.plan == Some(Rewind(u, k))
    && JournalFits(t.journal, Rewind(u, k), true)
    && DurableFits(t.durable, Rewind(u, k))
    && (forall j | 0 <= j < k :: u.units[j].state.UnitCompleted?)
    && (forall j | k < j < |u.units| :: u.units[j].state.UnitPrepared?)
    && UnitFinished(u, k)
    && PendingFits(t, u, k, pending)
  }

  lemma LandingAdvances(t: Turn, u: Plan, k: nat, pending: set<StepId>)
    requires ReadyToLand(t, u, k, pending)
    ensures Advances(Rewind(u, k), SetUnit(u, k, UnitCompleted))
  {
    var q, p := Rewind(u, k), SetUnit(u, k, UnitCompleted);
    forall x | x in p.steps
      ensures p.units[q.steps[x].unit].state.UnitCompleted? <==> !p.steps[x].state.Previewed?
    {
      assert RowFits(q, t.journal[x], x, true);
    }
  }

  /** When unit k lands, the journal says verified for exactly the effects that became durable. */
  lemma Landing(t: Turn, u: Plan, k: nat, pending: set<StepId>)
    requires ReadyToLand(t, u, k, pending)
    ensures var p := SetUnit(u, k, UnitCompleted);
            && WellFormed(p) && Syncable(t.journal, p)
            && JournalFits(Synced(t.journal, p), p, true)
            && DurableFits(t.durable + pending, p)
  {
    LandingAdvances(t, u, k, pending);
    SyncAdvances(t.journal, Rewind(u, k), SetUnit(u, k, UnitCompleted));
    LandingDurable(t, u, k, pending);
  }

  /** A durable or pending effect is that of a finished step of a completed unit ... */
  lemma LandedIsDone(t: Turn, u: Plan, k: nat, pending: set<StepId>, x: StepId)
    requires ReadyToLand(t, u, k, pending) && x in t.durable + pending
    ensures var p := SetUnit(u, k, UnitCompleted);
            && x in p.steps && p.steps[x].unit < |p.units|
            && p.units[p.steps[x].unit].state.UnitCompleted? && p.steps[x].state.StepDone?
  {
    assert Rewind(u, k).steps.Keys == u.steps.Keys;
    assert x in Rewind(u, k).steps;
  }

  /** ... and every such step has its effect. */
  lemma DoneIsLanded(t: Turn, u: Plan, k: nat, pending: set<StepId>, x: StepId)
    requires ReadyToLand(t, u, k, pending) && x in u.steps && u.steps[x].unit < |u.units|
    requires SetUnit(u, k, UnitCompleted).units[u.steps[x].unit].state.UnitCompleted? && u.steps[x].state.StepDone?
    ensures x in t.durable + pending
  {
    assert x in Rewind(u, k).steps;
  }

  lemma LandingDurable(t: Turn, u: Plan, k: nat, pending: set<StepId>)
    requires ReadyToLand(t, u, k, pending) && WellFormed(SetUnit(u, k, UnitCompleted))
    ensures DurableFits(t.durable + pending, SetUnit(u, k, UnitCompleted))
  {
    var p := SetUnit(u, k, UnitCompleted);
    forall x | x in t.durable + pending
      ensures x in p.steps && p.units[p.steps[x].unit].state.UnitCompleted? && p.steps[x].state.StepDone?
    {
      LandedIsDone(t, u, k, pending, x);
    }
    forall x | x in p.steps && p.units[p.steps[x].unit].state.UnitCompleted? && p.steps[x].state.StepDone?
      ensures x in t.durable + pending
    {
      DoneIsLanded(t, u, k, pending, x);
    }
  }

  lemma InUnitReady(t: Turn, w: Token)
    requires EffectInv(t) && t.barrier && t.state == Running && w in t.workers && CanLeaveUnit(t, w)
    requires WorkerFits(t, w, t.workers[w])
    ensures var u := t.workers[w]; ReadyToLand(t, u.plan, u.k, u.pending)
  {
  }

  lemma PostEffectReady(t: Turn, w: Token)
    requires Inv(t) && w in t.workers && t.workers[w].PostEffect? && !t.workers[w].saved && Holds(t, w)
    ensures var u := t.workers[w];
            |u.plan.units| > 0 && ReadyToLand(t, u.plan, |u.plan.units| - 1, u.pending)
    ensures var u := t.workers[w]; SetUnit(u.plan, |u.plan.units| - 1, UnitCompleted) == u.plan
    ensures var u := t.workers[w]; Progress(u.plan, |u.plan.units|) && UnitFinished(u.plan, |u.plan.units| - 1)
  {
    var u := t.workers[w];
    assert WorkerFits(t, w, u);
    assert SetUnit(u.plan, |u.plan.units| - 1, UnitCompleted).units == u.plan.units;
  }

  lemma SnapshotEffects(t: Turn, p: Plan)
    requires t.barrier && t.plan == Some(p) && t.state == Running
    requires JournalFits(t.journal, p, true) && DurableFits(t.durable, p)
    ensures EffectInv(t)
  {
  }

  lemma CommitUnitReady(t: Turn, w: Token)
    requires Inv(t) && w in t.workers && CanCommitUnit(t, w)
    ensures var u := t.workers[w]; ReadyToLand(t, u.plan, u.k, u.pending)
  {
    assert WorkerFits(t, w, t.workers[w]);
    InUnitReady(t, w);
  }

  lemma CommitUnitEffects(t: Turn, w: Token)
    requires w in t.workers && t.workers[w].InUnit? && t.workers[w].k < |t.workers[w].plan.units| && t.state == Running
    requires ReadyToLand(t, t.workers[w].plan, t.workers[w].k, t.workers[w].pending)
    ensures ValidUnits(t.workers[w].plan) && EffectInv(CommitUnit(t, w))
  {
    Landing(t, t.workers[w].plan, t.workers[w].k, t.workers[w].pending);
  }

  lemma CommitUnitKeeps(t: Turn, w: Token)
    requires Inv(t) && w in t.workers && CanCommitUnit(t, w)
    ensures ValidUnits(t.workers[w].plan) && Inv(CommitUnit(t, w))
  {
    CommitUnitReady(t, w);
    CommitUnitEffects(t, w);
    var t' := CommitUnit(t, w);
    LandedBetween(t, t', w);
    EffectfulStepKeeps(t, t', w, t'.workers[w]);
  }

  lemma LandedBetween(t: Turn, t': Turn, w: Token)
    requires w in t.workers && t.workers[w].InUnit? && t.workers[w].k + 1 < |t.workers[w].plan.units|
    requires ReadyToLand(t, t.workers[w].plan, t.workers[w].k, t.workers[w].pending)
    requires t'.plan == Some(SetUnit(t.workers[w].plan, t.workers[w].k, UnitCompleted))
    ensures WorkerFits(t', w, Between(SetUnit(t.workers[w].plan, t.workers[w].k, UnitCompleted), t.workers[w].k + 1))
  {
  }

  lemma LeftUnitFits(t: Turn, t': Turn, w: Token)
    requires w in t.workers && CanLeaveUnit(t, w) && t.workers[w].k + 1 == |t.workers[w].plan.units|
    requires WorkerFits(t, w, t.workers[w]) && t'.plan == t.plan && t'.durable == t.durable
    ensures var u := t.workers[w];
            WorkerFits(t', w, PostEffect(SetUnit(u.plan, u.k, UnitCompleted), u.pending, false))
  {
    var u := t.workers[w];
    var p := SetUnit(u.plan, u.k, UnitCompleted);
    assert Rewind(p, u.k).units == Rewind(u.plan, u.k).units;
    assert Rewind(p, u.k) == Rewind(u.plan, u.k);
  }

  lemma LeaveLastUnitKeeps(t: Turn, w: Token)
    requires Inv(t) && w in t.workers && CanLeaveUnit(t, w) && t.workers[w].k + 1 == |t.workers[w].plan.units|
    ensures Inv(LeaveLastUnit(t, w))
  {
    var t' := LeaveLastUnit(t, w);
    LeftUnitFits(t, t', w);
    EffectfulStepKeeps(t, t', w, t'.workers[w]);
  }

  /** The stored plan is already the executed one: committing again changes nothing. */
  lemma CommitAgain(rows: Journal, p: Plan)
    requires JournalFits(rows, p, true) && Progress(p, |p.units|)
    ensures Syncable(rows, p) && Synced(rows, p) == rows
  {
    forall x | x in p.steps
      ensures Reusable(rows[x]) && SameBinding(rows[x], p, x) && SyncedRow(rows, p, x) == rows[x]
    {
      assert RowFits(p, rows[x], x, true);
    }
  }

  lemma LandingAll(t: Turn, p: Plan, pending: set<StepId>)
    requires |p.units| > 0 && ReadyToLand(t, p, |p.units| - 1, pending)
    requires SetUnit(p, |p.units| - 1, UnitCompleted) == p
    ensures WellFormed(p) && Syncable(t.journal, p)
    ensures JournalFits(Synced(t.journal, p), p, true) && DurableFits(t.durable + pending, p)
  {
    var k := |p.units| - 1;
    var q := SetUnit(p, k, UnitCompleted);
    Landing(t, p, k, pending);
    LandedAs(t, p, q, pending);
  }

  lemma LandedAs(t: Turn, p: Plan, q: Plan, pending: set<StepId>)
    requires p == q && WellFormed(q) && Syncable(t.journal, q)
    requires JournalFits(Synced(t.journal, q), q, true) && DurableFits(t.durable + pending, q)
    ensures WellFormed(p) && Syncable(t.journal, p)
    ensures JournalFits(Synced(t.journal, p), p, true) && DurableFits(t.durable + pending, p)
  {
  }

  lemma CommitEffectsFirst(t: Turn, w: Token)
    requires w in t.workers && t.workers[w].PostEffect? && t.state == Running && |t.workers[w].plan.units| > 0
    requires ReadyToLand(t, t.workers[w].plan, |t.workers[w].plan.units| - 1, t.workers[w].pending)
    requires SetUnit(t.workers[w].plan, |t.workers[w].plan.units| - 1, UnitCompleted) == t.workers[w].plan
    ensures ValidUnits(t.workers[w].plan) && EffectInv(CommitEffects(t, w))
  {
    LandingAll(t, t.workers[w].plan, t.workers[w].pending);
    SnapshotEffects(CommitEffects(t, w), t.workers[w].plan);
  }

  lemma CommitEffectsAgain(t: Turn, w: Token)
    requires EffectInv(t) && w in t.workers && CanCommitEffects(t, w) && t.workers[w].saved && t.barrier
    requires WorkerFits(t, w, t.workers[w])
    ensures ValidUnits(t.workers[w].plan) && EffectInv(CommitEffects(t, w))
  {
    CommitAgain(t.journal, t.workers[w].plan);
    assert t.durable + t.workers[w].pending == t.durable;
  }

  lemma CommitEffectsLands(t: Turn, w: Token)
    requires Inv(t) && w in t.workers && CanCommitEffects(t, w)
    ensures ValidUnits(t.workers[w].plan) && EffectInv(CommitEffects(t, w))
  {
    assert WorkerFits(t, w, t.workers[w]);
    if t.workers[w].saved {
      CommitEffectsAgain(t, w);
    } else {
      PostEffectReady(t, w);
      CommitEffectsFirst(t, w);
    }
  }

  lemma CommitEffectsKeeps(t: Turn, w: Token)
    requires Inv(t) && w in t.workers && CanCommitEffects(t, w)
    ensures ValidUnits(t.workers[w].plan) && Inv(CommitEffects(t, w))
  {
    CommitEffectsLands(t, w);
    var u := t.workers[w];
    assert WorkerFits(t, w, u);
    SavedFits(CommitEffects(t, w), w, u.plan);
    EffectfulStepKeeps(t, CommitEffects(t, w), w, PostEffect(u.plan, {}, true));
  }

  lemma SavedFits(t: Turn, w: Token, p: Plan)
    requires |p.units| > 0 && Progress(p, |p.units|) && UnitFinished(p, |p.units| - 1) && t.plan == Some(p)
    ensures WorkerFits(t, w, PostEffect(p, {}, true))
  {
  }

  lemma CompleteAnswerKeeps(t: Turn, w: Token)
    requires Inv(t) && w in t.workers && t.workers[w].Reasoning? && Holds(t, w)
    ensures Inv(CompleteTurn(t, w))
  {
    assert WorkerFits(t, w, t.workers[w]);
    FinishKeeps(t);
    ForgetKeeps(t.(state := Completed, hasResult := true, token := None), w);
  }

  lemma CompleteEffectsKeeps(t: Turn, w: Token)
    requires Inv(t) && w in t.workers && CanCommitEffects(t, w)
    ensures ValidUnits(t.workers[w].plan) && Inv(CompleteTurn(t, w))
  {
    CommitEffectsKeeps(t, w);
    SavedFinishes(CommitEffects(t, w), w);
  }

  lemma SavedFinishes(t: Turn, w: Token)
    requires Inv(t) && w in t.workers && t.workers[w].PostEffect? && t.workers[w].saved && Holds(t, w)
    ensures Inv(Forget(t.(state := Completed, hasResult := true, token := None), w))
  {
    assert WorkerFits(t, w, t.workers[w]);
    FinishKeeps(t);
    ForgetKeeps(t.(state := Completed, hasResult := true, token := None), w);
  }

  lemma FinishKeeps(t: Turn)
    requires Inv(t) && !Terminal(t.state)
    requires t.barrier ==> Progress(t.plan.value, |t.plan.value.units|)
    ensures Inv(t.(state := Completed, hasResult := true, token := None))
  {
    var t' := t.(state := Completed, hasResult := true, token := None);
    forall v | v in t'.workers
      ensures WorkerFits(t', v, t'.workers[v])
    {
      assert WorkerFits(t, v, t.workers[v]);
    }
  }

  /** Classifying the only unit of a plan, an atomic one, while it executes: every row is rolled back. */
  lemma MarkedAtomic(rows: Journal, q: Plan, running: bool)
    requires JournalFits(rows, q, running) && |q.units| == 1 && q.units[0] == Unit(OdooAtomic, UnitExecuting)
    requires AllRolledBack(Marked(rows, Some(q)))
    ensures forall x | x in rows :: Marked(rows, Some(q))[x].state.RolledBack?
  {
    forall x | x in rows
      ensures Marked(rows, Some(q))[x].state.RolledBack?
    {
      assert x in q.steps ==> RowFits(q, rows[x], x, running);
      assert Marked(rows, Some(q))[x] == MarkRow(rows[x], Some(q));
    }
  }

  lemma RepairedJournal(t: Turn, w: Token)
    requires EffectInv(t) && t.barrier && w in t.workers && RolledBackUnit(t, w) && WorkerFits(t, w, t.workers[w])
    ensures t.durable == {}
    ensures forall x | x in t.journal :: Marked(t.journal, t.plan)[x].state.RolledBack?
  {
    var q := Rewind(t.workers[w].plan, 0);
    assert q.units[0] == Unit(OdooAtomic, UnitExecuting);
    MarkedAtomic(t.journal, q, t.state == Running);
  }

  lemma RepairUnitWorkers(t: Turn, w: Token)
    requires WorkersInv(t) && t.barrier && w in t.workers && RolledBackUnit(t, w)
    ensures WorkersInv(RepairTurn(t, w))
  {
    OthersFit(t, RepairTurn(t, w), w);
  }

  lemma RepairUnitKeeps(t: Turn, w: Token)
    requires Inv(t) && w in t.workers && RolledBackUnit(t, w)
    ensures Inv(RepairTurn(t, w)) && t.durable == {}
  {
    RepairedJournal(t, w);
    RepairUnitWorkers(t, w);
  }

  lemma RepairPreflightKeeps(t: Turn, w: Token)
    requires Inv(t) && w in t.workers && FailedPreflight(t, w)
    ensures Inv(RepairTurn(t, w)) && t.durable == {}
  {
    var t' := RepairTurn(t, w);
    forall v | v in t'.workers
      ensures WorkerFits(t', v, t'.workers[v])
    {
      assert WorkerFits(t, v, t.workers[v]);
    }
  }

  /** Giving a failure back to the model: the journal has proved that nothing survived. */
  lemma RepairKeeps(t: Turn, w: Token)
    requires Inv(t) && w in t.workers && CanRepair(t, w)
    ensures Inv(RepairTurn(t, w)) && t.durable == {}
  {
    if RolledBackUnit(t, w) { RepairUnitKeeps(t, w); } else { RepairPreflightKeeps(t, w); }
  }

  // ----- Failure, recovery and the user's requests -----

  lemma RaiseCeilingKeeps(t: Turn, ceiling: nat)
    requires Inv(t) && t.attempts <= ceiling <= MAX_ATTEMPTS_WITH_REDIRECTS + t.approvals && 1 <= ceiling
    ensures Inv(t.(maxAttempts := ceiling))
  {
    var t' := t.(maxAttempts := ceiling);
    forall v | v in t'.workers
      ensures WorkerFits(t', v, t'.workers[v])
    {
      assert WorkerFits(t, v, t.workers[v]);
    }
  }

  lemma FailedHolderKeeps(t: Turn, w: Token, kind: FailureKind, now: nat)
    requires Inv(t) && w in t.workers && FailClaimed(t, w, kind, now).Some? && t.token == Some(w) && !t.control.cancel
    ensures Inv(FailClaimed(t, w, kind, now).value)
  {
    var ceiling :=
      if kind.Redirected? && !t.barrier && t.maxAttempts < MAX_ATTEMPTS_WITH_REDIRECTS && t.attempts >= t.maxAttempts
      then Min(MAX_ATTEMPTS_WITH_REDIRECTS, t.maxAttempts + 1) else t.maxAttempts;
    var raised := t.(maxAttempts := ceiling);
    RaiseCeilingKeeps(t, ceiling);
    if Retryable(kind) && !t.barrier && t.attempts < ceiling {
      RequeueKeeps(raised, now);
      ForgetKeeps(Requeue(raised, now), w);
    } else {
      var s := if t.barrier then RecoveryRequired else Failed;
      SettleKeeps(raised, s);
      ForgetKeeps(Settle(raised, s), w);
    }
  }

  lemma FailKeeps(t: Turn, w: Token, kind: FailureKind, now: nat)
    requires Inv(t) && w in t.workers && FailClaimed(t, w, kind, now).Some?
    ensures Inv(FailClaimed(t, w, kind, now).value)
  {
    if t.token != Some(w) {
      ForgetKeeps(t, w);
    } else if t.control.cancel {
      SettleKeeps(t, Cancelled);
      ForgetKeeps(Settle(t, Cancelled), w);
    } else {
      FailedHolderKeeps(t, w, kind, now);
    }
  }

  /** Recovery of a stale lease. Its "result already stored" branch can never be taken. */
  lemma RecoverKeeps(t: Turn, now: nat)
    requires Inv(t) && RecoverTurn(t, now).Some?
    ensures Inv(RecoverTurn(t, now).value)
    ensures !t.hasResult && RecoverTurn(t, now).value.state != Completed
  {
    if t.control.cancel { SettleKeeps(t, Cancelled); }
    else if t.barrier { SettleKeeps(t, RecoveryRequired); }
    else if t.attempts < t.maxAttempts { RequeueKeeps(t, now); }
    else { SettleKeeps(t, Failed); }
  }

  lemma ControlChangeKeeps(t: Turn, c: Control)
    requires Inv(t) && ControlInv(c) && (t.barrier ==> c.sequence == c.applied)
    ensures Inv(t.(control := c))
  {
    var t' := t.(control := c);
    forall v | v in t'.workers
      ensures WorkerFits(t', v, t'.workers[v])
    {
      assert WorkerFits(t, v, t.workers[v]);
    }
  }

  lemma StopKeeps(t: Turn, rowLocked: bool)
    requires Inv(t)
    ensures Inv(StopTurn(t, rowLocked))
  {
    ControlChangeKeeps(t, t.control.(cancel := true));
    if t.state.Queued? && !rowLocked {
      SettleKeeps(t.(control := t.control.(cancel := true)), Cancelled);
    } else if t.state.AwaitingConfirmation? {
      SettleKeeps(t, Cancelled);
    }
  }

  lemma {:induction false} FindClientFinds(rows: seq<Intervention>, clientId: string)
    ensures match FindClient(rows, clientId)
            case Some(i) => i < |rows| && rows[i].clientId == clientId
            case None => forall i | 0 <= i < |rows| :: rows[i].clientId != clientId
  {
    if rows != [] && rows[|rows| - 1].clientId != clientId {
      FindClientFinds(rows[..|rows| - 1], clientId);
    }
  }

  lemma InterveneKeeps(c: Control, clientId: string, message: string)
    requires ControlInv(c) && FindClient(c.rows, clientId).None? && |c.rows| < MAX_INTERVENTIONS
    ensures ControlInv(Intervene(c, clientId, message))
  {
    FindClientFinds(c.rows, clientId);
  }

  lemma MarkAppliedKeeps(c: Control, sequence: nat)
    requires ControlInv(c) && MarkControlApplied(c, sequence).Some?
    ensures ControlInv(MarkControlApplied(c, sequence).value)
  {
  }

  lemma RedirectKeeps(t: Turn, clientId: string, message: string, withinBudget: bool, now: nat)
    requires Inv(t) && RedirectTurn(t, clientId, message, withinBudget, now).Some?
    ensures Inv(RedirectTurn(t, clientId, message, withinBudget, now).value)
  {
    FindClientFinds(t.control.rows, clientId);
    if FindClient(t.control.rows, clientId).None? {
      InterveneKeeps(t.control, clientId, message);
      var told := t.(control := Intervene(t.control, clientId, message));
      ControlChangeKeeps(t, told.control);
      if t.state.AwaitingConfirmation? {
        var ceiling := Min(MAX_ATTEMPTS_WITH_REDIRECTS, Max(t.maxAttempts, t.attempts + 2));
        RaiseCeilingKeeps(told, ceiling);
        ReopenKeeps(told.(maxAttempts := ceiling), None, false, now, t.approvals);
      }
    }
  }

  /** Putting a parked turn back into the queue. */
  lemma ReopenKeeps(t: Turn, plan: Option<Plan>, authorized: bool, now: nat, approvals: nat)
    requires Inv(t) && t.state == AwaitingConfirmation && t.approvals <= approvals
    ensures Inv(Requeue(t, now).(plan := plan, authorized := authorized, hasResult := false, approvals := approvals))
  {
    var t' := Requeue(t, now).(plan := plan, authorized := authorized, hasResult := false, approvals := approvals);
    forall v | v in t'.workers
      ensures WorkerFits(t', v, t'.workers[v])
    {
      assert WorkerFits(t, v, t.workers[v]);
    }
  }

  lemma ApproveKeeps(t: Turn, now: nat, planWaiting: bool)
    requires Inv(t) && CanDecide(t, planWaiting)
    ensures Inv(ApproveTurn(t, now, planWaiting).value)
  {
    ReopenKeeps(t, t.plan, true, now, t.approvals + 1);
    RaiseCeilingKeeps(Requeue(t, now).(authorized := true, hasResult := false, approvals := t.approvals + 1),
                      Max(t.maxAttempts, t.attempts + 1));
  }

  lemma ReconciledWorkers(t: Turn, t': Turn)
    requires WorkersInv(t) && t'.workers == t.workers && t'.token == t.token && t'.plan == t.plan && t'.barrier == t.barrier
    requires t'.durable == t.durable && t.state == RecoveryRequired && t'.state == Failed
    ensures WorkersInv(t')
  {
    forall v | v in t'.workers
      ensures WorkerFits(t', v, t'.workers[v])
    {
      assert WorkerFits(t, v, t.workers[v]);
    }
  }

  lemma ReconcileKeeps(t: Turn, readable: bool)
    requires Inv(t) && ReconcileTurn(t, readable).Some?
    ensures Inv(ReconcileTurn(t, readable).value) && t.durable == {}
  {
    MarkFits(t.journal, t.plan.value, false);
    NothingSurvives(t);
    ReconciledWorkers(t, ReconcileTurn(t, readable).value);
  }

  lemma ParkKeeps(t: Turn, w: Token, proposal: Plan)
    requires Inv(t) && w in t.workers && t.workers[w].Reasoning? && !t.barrier
    ensures Inv(PersistAwaitingPlan(t, w, proposal).value)
  {
    var parked := t.(state := AwaitingConfirmation, plan := Some(proposal), authorized := false,
                     hasResult := true, token := None);
    forall v | v in parked.workers
      ensures WorkerFits(parked, v, parked.workers[v])
    {
      assert WorkerFits(t, v, t.workers[v]);
    }
    ForgetKeeps(parked, w);
  }

  // ----- All steps -----

  lemma BeginKeeps(t: Turn, w: Token)
    requires Inv(t) && w in t.workers && BeginWork(t, w).Some?
    ensures Inv(BeginWork(t, w).value)
  {
    assert WorkerFits(t, w, t.workers[w]);
    if Holds(t, w) { SetQuietWorkerKeeps(t, w, FirstJob(t)); } else { ForgetKeeps(t, w); }
  }

  lemma CancelClaimedKeeps(t: Turn, w: Token)
    requires Inv(t) && w in t.workers && CancelClaimedTurn(t, w).Some?
    ensures Inv(CancelClaimedTurn(t, w).value)
  {
    if t.token != Some(w) {
      ForgetKeeps(t, w);
    } else {
      SettleKeeps(t, Cancelled);
      ForgetKeeps(Settle(t, Cancelled), w);
    }
  }

  lemma StartKeeps(t: Turn, w: Token, proposal: Plan)
    requires Inv(t) && w in t.workers && CanStart(t, w, proposal)
    ensures Inv(SetWorker(t, w, Between(proposal, 0)))
  {
    assert WorkerFits(t, w, t.workers[w]);
    SetQuietWorkerKeeps(t, w, Between(proposal, 0));
  }

  lemma AppliedKeeps(t: Turn, sequence: nat)
    requires Inv(t) && MarkControlApplied(t.control, sequence).Some?
    ensures Inv(t.(control := MarkControlApplied(t.control, sequence).value))
  {
    MarkAppliedKeeps(t.control, sequence);
    ControlChangeKeeps(t, MarkControlApplied(t.control, sequence).value);
  }

  lemma RejectKeeps(t: Turn, planWaiting: bool)
    requires Inv(t) && CanDecide(t, planWaiting)
    ensures Inv(RejectTurn(t, planWaiting).value)
  {
    FinishKeeps(t);
  }

  lemma CompleteStepKeepsInv(t: Turn, w: Token)
    requires Inv(t) && TurnNext(t, Complete(w)).Some?
    ensures Inv(TurnNext(t, Complete(w)).value)
  {
    if t.workers[w].Reasoning? { CompleteAnswerKeeps(t, w); } else { CompleteEffectsKeeps(t, w); }
  }

  lemma RaiseKeeps(t: Turn, w: Token)
    requires Inv(t) && w in t.workers
    ensures Inv(SetWorker(t, w, Failing))
  {
    SetQuietWorkerKeeps(t, w, Failing);
  }

  predicate Opening(e: Event) {
    e.Begin? || e.CancelClaimed? || e.MarkApplied? || e.StartExecution?
  }

  predicate Leaving(e: Event) {
    e.PersistAwaiting? || e.Raise? || e.Fail? || e.Crash?
  }

  predicate InsideUnit(e: Event) {
    e.BeforeUnit? || e.RunStep? || e.SkipStep? || e.AfterUnit?
  }

  predicate AfterUnits(e: Event) {
    e.FinishPlan? || e.PersistTranscript? || e.Complete? || e.Repair?
  }

  lemma OpeningKeeps(t: Turn, e: Event)
    requires Inv(t) && Opening(e) && TurnNext(t, e).Some?
    ensures Inv(TurnNext(t, e).value)
  {
    match e
    case Begin(w) => BeginKeeps(t, w);
    case CancelClaimed(w) => CancelClaimedKeeps(t, w);
    case MarkApplied(w, sequence) => AppliedKeeps(t, sequence);
    case StartExecution(w, proposal) => StartKeeps(t, w, proposal);
  }

  lemma FailStepKeeps(t: Turn, w: Token, kind: FailureKind, now: nat)
    requires Inv(t) && TurnNext(t, Fail(w, kind, now)).Some?
    ensures Inv(TurnNext(t, Fail(w, kind, now)).value)
  {
    FailKeeps(t, w, kind, now);
  }

  lemma ParkStepKeeps(t: Turn, w: Token, proposal: Plan)
    requires Inv(t) && TurnNext(t, PersistAwaiting(w, proposal)).Some? && !t.barrier
    ensures Inv(TurnNext(t, PersistAwaiting(w, proposal)).value)
  {
    ParkKeeps(t, w, proposal);
  }

  lemma RaiseStepKeeps(t: Turn, w: Token)
    requires Inv(t) && TurnNext(t, Raise(w)).Some?
    ensures Inv(TurnNext(t, Raise(w)).value)
  {
    RaiseKeeps(t, w);
  }

  lemma CrashStepKeeps(t: Turn, w: Token)
    requires Inv(t) && TurnNext(t, Crash(w)).Some?
    ensures Inv(TurnNext(t, Crash(w)).value)
  {
    ForgetKeeps(t, w);
  }

  lemma LeavingKeeps(t: Turn, e: Event)
    requires Inv(t) && Guarded(t, e) && Leaving(e) && TurnNext(t, e).Some?
    ensures Inv(TurnNext(t, e).value)
  {
    match e
    case PersistAwaiting(w, proposal) => ParkStepKeeps(t, w, proposal);
    case Raise(w) => RaiseStepKeeps(t, w);
    case Fail(w, kind, now) => FailStepKeeps(t, w, kind, now);
    case Crash(w) => CrashStepKeeps(t, w);
  }

  lemma BeforeUnitStepKeeps(t: Turn, w: Token)
    requires Inv(t) && TurnNext(t, BeforeUnit(w)).Some?
    ensures Inv(TurnNext(t, BeforeUnit(w)).value)
  {
    EnterUnitKeeps(t, w);
  }

  lemma RunStepStepKeeps(t: Turn, w: Token, x: StepId)
    requires Inv(t) && TurnNext(t, RunStep(w, x)).Some?
    ensures Inv(TurnNext(t, RunStep(w, x)).value)
  {
    RunStepKeeps(t, w, x);
  }

  lemma SkipStepStepKeeps(t: Turn, w: Token, x: StepId)
    requires Inv(t) && TurnNext(t, SkipStep(w, x)).Some?
    ensures Inv(TurnNext(t, SkipStep(w, x)).value)
  {
    SkipStepKeeps(t, w, x);
  }

  lemma AfterUnitStepKeeps(t: Turn, w: Token)
    requires Inv(t) && TurnNext(t, AfterUnit(w)).Some?
    ensures Inv(TurnNext(t, AfterUnit(w)).value)
  {
    CommitUnitKeeps(t, w);
  }

  lemma FinishPlanStepKeeps(t: Turn, w: Token)
    requires Inv(t) && TurnNext(t, FinishPlan(w)).Some?
    ensures Inv(TurnNext(t, FinishPlan(w)).value)
  {
    LeaveLastUnitKeeps(t, w);
  }

  lemma TranscriptStepKeeps(t: Turn, w: Token)
    requires Inv(t) && TurnNext(t, PersistTranscript(w)).Some?
    ensures Inv(TurnNext(t, PersistTranscript(w)).value)
  {
    CommitEffectsKeeps(t, w);
  }

  lemma RepairStepKeeps(t: Turn, w: Token)
    requires Inv(t) && TurnNext(t, Repair(w)).Some?
    ensures Inv(TurnNext(t, Repair(w)).value)
  {
    RepairKeeps(t, w);
  }

  lemma InsideUnitKeeps(t: Turn, e: Event)
    requires Inv(t) && InsideUnit(e) && TurnNext(t, e).Some?
    ensures Inv(TurnNext(t, e).value)
  {
    match e
    case BeforeUnit(w) => BeforeUnitStepKeeps(t, w);
    case RunStep(w, x) => RunStepStepKeeps(t, w, x);
    case SkipStep(w, x) => SkipStepStepKeeps(t, w, x);
    case AfterUnit(w) => AfterUnitStepKeeps(t, w);
  }

  lemma AfterUnitsKeeps(t: Turn, e: Event)
    requires Inv(t) && AfterUnits(e) && TurnNext(t, e).Some?
    ensures Inv(TurnNext(t, e).value)
  {
    match e
    case FinishPlan(w) => FinishPlanStepKeeps(t, w);
    case PersistTranscript(w) => TranscriptStepKeeps(t, w);
    case Complete(w) => CompleteStepKeepsInv(t, w);
    case Repair(w) => RepairStepKeeps(t, w);
  }

  lemma UserStepKeeps(t: Turn, e: Event)
    requires Inv(t) && (e.Stop? || e.Redirect? || e.Approve? || e.Reject?) && TurnNext(t, e).Some?
    ensures Inv(TurnNext(t, e).value)
  {
    match e
    case Stop(rowLocked) => StopKeeps(t, rowLocked);
    case Redirect(clientId, message, withinBudget, now) => RedirectKeeps(t, clientId, message, withinBudget, now);
    case Approve(now, planWaiting) => ApproveKeeps(t, now, planWaiting);
    case Reject(planWaiting) => RejectKeeps(t, planWaiting);
  }

  lemma HostStepKeeps(t: Turn, e: Event)
    requires Inv(t) && (e.RecoverStale? || e.Reconcile?) && TurnNext(t, e).Some?
    ensures Inv(TurnNext(t, e).value)
  {
    match e
    case RecoverStale(now) => RecoverKeeps(t, now);
    case Reconcile(readable) => ReconcileKeeps(t, readable);
  }

  lemma GuardedStepKeeps(t: Turn, e: Event)
    requires Inv(t) && Guarded(t, e) && TurnNext(t, e).Some?
    ensures Inv(TurnNext(t, e).value)
  {
    if Opening(e) { OpeningKeeps(t, e); }
    else if Leaving(e) { LeavingKeeps(t, e); }
    else if InsideUnit(e) { InsideUnitKeeps(t, e); }
    else if AfterUnits(e) { AfterUnitsKeeps(t, e); }
    else if e.RecoverStale? || e.Reconcile? { HostStepKeeps(t, e); }
    else { UserStepKeeps(t, e); }
  }

  /** Main preservation result: whatever happens to a turn, in whatever order, with any number of
      superseded workers still running, the invariant holds afterwards, with one exception: a worker
      that parks the turn while its write barrier stands. */
  lemma StepKeepsInv(t: Turn, e: Event)
    requires Inv(t) && TurnNext(t, e).Some?
    ensures Inv(TurnNext(t, e).value) <==> Guarded(t, e)
  {
    if Guarded(t, e) { GuardedStepKeeps(t, e); }
  }
}
