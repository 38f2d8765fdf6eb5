/** What every step keeps true of one turn, and what follows for its effects. */
module TurnInvariant {
  import opened Prelude
  import opened TurnTypes
  import opened EffectJournal
  import opened TurnSteps

  // ----- Queue row -----

  /** Behind a barrier no redirect is waiting. */
  predicate RedirectsBarred(t: Turn) {
    t.barrier ==> t.control.sequence == t.control.applied
  }

  ghost predicate QueueInv(t: Turn) {
    && t.state != CancelRequested
    && (t.token.Some? <==> t.state == Running)
    && t.attempts <= t.maxAttempts <= MAX_ATTEMPTS_WITH_REDIRECTS + t.approvals
    && 1 <= t.maxAttempts
    && ((t.state == Queued || t.state == AwaitingConfirmation) ==> !t.barrier)
    && ((t.state == Queued || t.state == Running) ==> !t.hasResult)
    && ((Live(t.state) || t.workers != map[] || t.barrier) ==> t.attempts > 0)
    && RedirectsBarred(t)
  }

  // ----- Intervention log -----

  ghost predicate ControlInv(c: Control) {
    && |c.rows| == c.sequence
    && c.applied <= c.sequence <= MAX_INTERVENTIONS
    && (forall i | 0 <= i < |c.rows| ::
          c.rows[i].sequence == i + 1 && (c.rows[i].applied <==> i + 1 <= c.applied))
    && (forall i, j | 0 <= i < j < |c.rows| :: c.rows[i].clientId != c.rows[j].clientId)
  }

  /** The part of queue row and control row that no step at all can break. */
  ghost predicate RowInv(t: Turn) {
    && t.state != CancelRequested
    && (t.token.Some? <==> t.state == Running)
    && t.attempts <= t.maxAttempts <= MAX_ATTEMPTS_WITH_REDIRECTS + t.approvals
    && 1 <= t.maxAttempts
    && ControlInv(t.control)
    && RedirectsBarred(t)
    && ((t.state == Queued || t.state == Running) ==> !t.hasResult)
  }

  // ----- Journal, plan and durable effects behind a committed barrier -----

  ghost predicate RowFits(p: Plan, row: JournalRow, x: StepId, running: bool)
    requires WellFormed(p) && x in p.steps
  {
    var unit := p.units[p.steps[x].unit];
    && SameBinding(row, p, x)
    && match unit.state
       case UnitCompleted =>
         (p.steps[x].state.StepDone? && row.state.Verified?) || (p.steps[x].state.StepSkipped? && row.state.Skipped?)
       case UnitExecuting =>
         p.steps[x].state.Previewed? && row.state == if running then RowExecuting else Interrupted(unit.mode)
       case UnitPrepared =>
         p.steps[x].state.Previewed? && row.state.RowPrepared?
  }

  ghost predicate JournalFits(rows: Journal, p: Plan, running: bool) {
    && WellFormed(p)
    && (forall x | x in p.steps :: x in rows && RowFits(p, rows[x], x, running))
    && (forall x | x in rows && x !in p.steps ::
          rows[x].state.RolledBack? || (!running && rows[x].state.Uncertain?))
  }

  ghost predicate DurableFits(durable: set<StepId>, p: Plan)
    requires WellFormed(p)
  {
    && (forall x | x in durable :: x in p.steps &&
          var unit := p.units[p.steps[x].unit];
          (unit.state.UnitCompleted? && p.steps[x].state.StepDone?) || (unit.state.UnitExecuting? && unit.mode.External?))
    && (forall x | x in p.steps && p.units[p.steps[x].unit].state.UnitCompleted? && p.steps[x].state.StepDone? ::
          x in durable)
  }

  ghost predicate EffectInv(t: Turn) {
    if t.barrier then
      && t.plan.Some?
      && JournalFits(t.journal, t.plan.value, t.state == Running)
      && DurableFits(t.durable, t.plan.value)
    else
      && t.durable == {}
      && forall x | x in t.journal :: t.journal[x].state.RolledBack?
  }

  // ----- Workers -----

  /** Units before k are completed, units from k on are untouched. */
  ghost predicate Progress(p: Plan, k: nat) {
    forall j | 0 <= j < |p.units| :: p.units[j].state == if j < k then UnitCompleted else UnitPrepared
  }

  ghost predicate Entered(p: Plan, k: nat)
    requires k < |p.units|
  {
    forall j | 0 <= j < |p.units| ::
      p.units[j].state == if j < k then UnitCompleted else if j == k then UnitExecuting else UnitPrepared
  }

  /** What unit k has done so far sits in the open transaction, or is already out when external. */
  ghost predicate PendingFits(t: Turn, p: Plan, k: nat, pending: set<StepId>)
    requires k < |p.units|
  {
    if p.units[k].mode.External? then
      && pending == {}
      && forall x | x in p.steps && p.steps[x].unit == k :: x in t.durable <==> p.steps[x].state.StepDone?
    else
      pending == set x | x in p.steps && p.steps[x].unit == k && p.steps[x].state.StepDone?
  }

  ghost predicate WorkerFits(t: Turn, w: Token, worker: Worker) {
    match worker
    case Launched => t.token == Some(w) ==> !t.barrier
    case Reasoning => t.token == Some(w) ==> !t.barrier
    case Between(p, next) =>
      if next == 0 then Fresh(p) && (t.token == Some(w) ==> !t.barrier)
      else t.plan == Some(p) && next < |p.units| && Progress(p, next)
    case InUnit(p, k, pending) =>
      && k < |p.units|
      && t.plan == Some(Rewind(p, k))
      && Entered(p, k)
      && PendingFits(t, p, k, pending)
    case PostEffect(p, pending, saved) =>
      && |p.units| > 0
      && Progress(p, |p.units|)
      && UnitFinished(p, |p.units| - 1)
      && (if saved then t.plan == Some(p) && pending == {}
          else t.plan == Some(Rewind(p, |p.units| - 1)) && PendingFits(t, p, |p.units| - 1, pending))
    case Failing => true
  }

  /** A lease holder that has not got beyond the stored plan. */
  predicate InFrontOf(u: Worker, p: Plan) {
    u == Launched || u == Failing || (u == Between(p, 0) && Fresh(p))
  }

  predicate HolderWaits(t: Turn, p: Plan) {
    forall w | w in t.workers && t.token == Some(w) :: InFrontOf(t.workers[w], p)
  }

  ghost predicate WorkersInv(t: Turn) {
    && (forall w | w in t.workers :: WorkerFits(t, w, t.workers[w]))
    && (forall w | w in t.workers && Effectful(t.workers[w]) :: t.barrier && (Holds(t, w) || Terminal(t.state)))
    && (forall v, w | v in t.workers && w in t.workers && Effectful(t.workers[v]) && Effectful(t.workers[w]) :: v == w)
  }

  ghost predicate Inv(t: Turn) {
    QueueInv(t) && ControlInv(t.control) && EffectInv(t) && WorkersInv(t)
  }

  // ----- Journal lemmas -----

  lemma MarkedRowFits(rows: Journal, p: Plan, x: StepId, running: bool)
    requires WellFormed(p) && x in p.steps && x in rows && RowFits(p, rows[x], x, running)
    ensures RowFits(p, MarkRow(rows[x], Some(p)), x, false)
  {
  }

  /** Classifying an interrupted turn keeps every row tied to its effect. */
  lemma MarkFits(rows: Journal, p: Plan, running: bool)
    requires JournalFits(rows, p, running)
    ensures JournalFits(Marked(rows, Some(p)), p, false)
  {
    var after := Marked(rows, Some(p));
    forall x | x in p.steps
      ensures x in after && RowFits(p, after[x], x, false)
    {
      MarkedRowFits(rows, p, x, running);
    }
    forall x | x in after && x !in p.steps
      ensures after[x].state.RolledBack? || after[x].state.Uncertain?
    {
      assert rows[x].state.RolledBack? || rows[x].state.Uncertain?;
    }
  }

  lemma FirstRow(rows: Journal, p: Plan, x: StepId)
    requires forall x | x in rows :: rows[x].state.RolledBack?
    requires Syncable(rows, p) && Entered(p, 0) && x in p.steps && p.steps[x].state.Previewed?
    ensures x !in rows && RowFits(p, SyncedRow(rows, p, x), x, true)
  {
  }

  /** The first snapshot after a clean start journals every step of the plan. */
  lemma SyncFirst(rows: Journal, p: Plan, k: nat)
    requires forall x | x in rows :: rows[x].state.RolledBack?
    requires Syncable(rows, p) && k < |p.units| && Entered(p, k) && k == 0
    requires forall x | x in p.steps :: p.steps[x].state.Previewed?
    ensures JournalFits(Synced(rows, p), p, true)
  {
    var after := Synced(rows, p);
    forall x | x in p.steps
      ensures x in after && RowFits(p, after[x], x, true)
    {
      FirstRow(rows, p, x);
      assert after[x] == SyncedRow(rows, p, x);
    }
    forall x | x in after && x !in p.steps
      ensures after[x].state.RolledBack?
    {
      assert after[x] == rows[x];
    }
  }

  /** The plan moved on from q to p: nothing finished was touched and no binding changed. */
  ghost predicate Advances(q: Plan, p: Plan)
    requires WellFormed(q)
  {
    && |p.units| == |q.units|
    && (forall j | 0 <= j < |p.units| :: p.units[j].mode == q.units[j].mode)
    && p.steps.Keys == q.steps.Keys
    && (forall x | x in q.steps :: p.steps[x].unit == q.steps[x].unit && p.steps[x].call == q.steps[x].call)
    && (forall x | x in q.steps && q.units[q.steps[x].unit].state.UnitCompleted? ::
          p.steps[x] == q.steps[x] && p.units[p.steps[x].unit].state.UnitCompleted?)
    && (forall x | x in p.steps ::
          p.units[q.steps[x].unit].state.UnitCompleted? <==> !p.steps[x].state.Previewed?)
  }

  lemma RowAdvances(rows: Journal, q: Plan, p: Plan, x: StepId)
    requires JournalFits(rows, q, true) && Advances(q, p) && WellFormed(p) && x in p.steps
    ensures x in rows && Reusable(rows[x]) && SameBinding(rows[x], p, x)
    ensures RowFits(p, SyncedRow(rows, p, x), x, true)
  {
    assert RowFits(q, rows[x], x, true);
  }

  lemma SyncAdvances(rows: Journal, q: Plan, p: Plan)
    requires JournalFits(rows, q, true) && Advances(q, p)
    ensures WellFormed(p) && Syncable(rows, p) && JournalFits(Synced(rows, p), p, true)
  {
    assert WellFormed(p) by {
      assert |p.steps| == |p.steps.Keys| == |q.steps.Keys| == |q.steps|;
    }
    forall x | x in p.steps
      ensures x in rows && Reusable(rows[x]) && SameBinding(rows[x], p, x)
      ensures RowFits(p, SyncedRow(rows, p, x), x, true)
    {
      RowAdvances(rows, q, p, x);
    }
    var after := Synced(rows, p);
    forall x | x in p.steps
      ensures x in after && RowFits(p, after[x], x, true)
    {
      assert after[x] == SyncedRow(rows, p, x);
    }
  }

  // ----- What the journal proves -----

  /** Journal soundness, forwards: an effect that survives is verified, or it is an external one
      whose row still says that its outcome is open. It is never reported as rolled back. */
  lemma DurableEffectIsReported(t: Turn, x: StepId)
    requires EffectInv(t) && x in t.durable
    ensures x in t.journal
    ensures t.journal[x].state.Verified?
            || (t.journal[x].mode.External? && t.journal[x].state == if t.state == Running then RowExecuting else Uncertain)
  {
    assert RowFits(t.plan.value, t.journal[x], x, t.state == Running);
  }

  /** Journal soundness, backwards: a verified row has its effect. */
  lemma VerifiedEffectIsDurable(t: Turn, x: StepId)
    requires EffectInv(t) && x in t.journal && t.journal[x].state.Verified?
    ensures t.barrier && x in t.durable
  {
    assert t.barrier && x in t.plan.value.steps ==> RowFits(t.plan.value, t.journal[x], x, t.state == Running);
  }

  /** When every row says rolled back or skipped, no effect is there. */
  lemma NothingSurvives(t: Turn)
    requires EffectInv(t) && forall x | x in t.journal :: t.journal[x].state.RolledBack? || t.journal[x].state.Skipped?
    ensures t.durable == {}
  {
    if x :| x in t.durable {
      DurableEffectIsReported(t, x);
    }
  }

  /** A turn at rest has no row that still claims to be executing, and an interrupted external
      unit is uncertain. */
  lemma InterruptedUnitIsClassified(t: Turn, x: StepId)
    requires EffectInv(t) && t.barrier && t.state != Running && x in t.plan.value.steps
    requires t.plan.value.steps[x].unit < |t.plan.value.units|
    requires t.plan.value.units[t.plan.value.steps[x].unit].state.UnitExecuting?
    ensures x in t.journal
    ensures t.journal[x].state == if t.journal[x].mode.External? then Uncertain else RolledBack
  {
    assert RowFits(t.plan.value, t.journal[x], x, false);
  }
}
