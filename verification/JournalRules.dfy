/** What the journal accepts, what it stores, and what an interrupted turn's rows become, row by row. */
module JournalRules {
  import opened Prelude
  import opened TurnTypes
  import opened EffectJournal
  import opened TurnSteps
  import opened TurnInvariant
  import opened TurnSafety
  import opened TurnProgress
  import opened Scheduler
  import opened WorldSafety
  import opened TurnRuns

  /** A snapshot is accepted exactly when it is well formed, every row of one of its steps may still be
      updated and was bound to the same unit, mode and call, and no other row may still be updated. */
  lemma SyncableExactly(rows: Journal, p: Plan)
    requires WellFormed(p)
    ensures Syncable(rows, p) <==>
              && (forall x | x in p.steps && x in rows ::
                    && rows[x].state != RolledBack && rows[x].state != Reverted
                    && rows[x].unit == p.steps[x].unit && rows[x].mode == p.units[p.steps[x].unit].mode
                    && rows[x].call == p.steps[x].call)
              && (forall x | x in rows && x !in p.steps :: rows[x].state == RolledBack || rows[x].state == Reverted)
  {
  }

  /** The state a step of a snapshot stands for. */
  predicate StandsFor(p: Plan, x: StepId, s: RowState)
    requires x in p.steps && p.steps[x].unit < |p.units|
  {
    && (s == Verified <==> p.steps[x].state == StepDone)
    && (s == Skipped <==> p.steps[x].state == StepSkipped)
    && (s == RowExecuting <==> p.steps[x].state == Previewed && p.units[p.steps[x].unit].state == UnitExecuting)
    && (s == RowPrepared <==> p.steps[x].state == Previewed && p.units[p.steps[x].unit].state != UnitExecuting)
  }

  predicate Final(s: RowState) {
    s == Verified || s == Skipped || s == Reverted
  }

  lemma StandsForTarget(p: Plan, x: StepId)
    requires x in p.steps && p.steps[x].unit < |p.units|
    ensures StandsFor(p, x, TargetState(p, x))
  {
  }

  lemma SyncedRowExactly(rows: Journal, p: Plan, x: StepId)
    requires Syncable(rows, p) && x in p.steps
    ensures var row := SyncedRow(rows, p, x);
            if x in rows && Final(rows[x].state) then row == rows[x]
            else && StandsFor(p, x, row.state) && row.unit == p.steps[x].unit && row.call == p.steps[x].call
                 && row.mode == p.units[p.steps[x].unit].mode
  {
    StandsForTarget(p, x);
  }

  /** An accepted snapshot leaves every finished row and every row of another plan alone, gives the other rows
      the state of their step, and binds a new row as its step says. */
  lemma SyncedExactly(rows: Journal, p: Plan, x: StepId)
    requires Syncable(rows, p)
    ensures x in Synced(rows, p) <==> x in rows || x in p.steps
    ensures x in rows && (x !in p.steps || Final(rows[x].state)) ==> Synced(rows, p)[x] == rows[x]
    ensures x in p.steps && !(x in rows && Final(rows[x].state)) ==>
              var row := Synced(rows, p)[x];
              && StandsFor(p, x, row.state) && row.unit == p.steps[x].unit && row.call == p.steps[x].call
              && row.mode == p.units[p.steps[x].unit].mode
  {
    if x in p.steps { SyncedRowExactly(rows, p, x); }
  }

  /** Classifying an interrupted turn: what is finished stays; a row whose unit the plan shows as completed
      becomes uncertain; one whose unit was executing, or that was itself, becomes uncertain when the unit is
      external and rolled back otherwise; without a unit in the plan an executing row becomes uncertain. Any
      other row stays. */
  lemma MarkedExactly(rows: Journal, plan: Option<Plan>, x: StepId)
    requires x in rows
    ensures x in Marked(rows, plan)
    ensures var (was, now) := (rows[x], Marked(rows, plan)[x]);
            && now == was.(state := now.state)
            && (Final(was.state) ==> now == was)
            && (!Final(was.state) && plan.Some? && was.unit < |plan.value.units| ==>
                  var unit := plan.value.units[was.unit];
                  if unit.state == UnitCompleted then now.state == Uncertain
                  else if unit.state == UnitExecuting || was.state == RowExecuting then
                    now.state == if unit.mode == External then Uncertain else RolledBack
                  else now == was)
            && (!Final(was.state) && (plan.None? || was.unit >= |plan.value.units|) ==>
                  now.state == if was.state == RowExecuting then Uncertain else was.state)
  {
  }

  // ----- Finished rows -----

  /** Row x says how its step ended. */
  predicate SaysFinal(t: Turn, x: StepId, s: RowState) {
    x in t.journal && t.journal[x].state == s
  }

  lemma SyncKeepsFinal(rows: Journal, p: Plan, x: StepId)
    requires Syncable(rows, p) && x in rows && Final(rows[x].state)
    ensures x in Synced(rows, p) && Synced(rows, p)[x] == rows[x]
  {
    SyncedExactly(rows, p, x);
  }

  lemma EnterKeepsFinal(t: Turn, w: Token, x: StepId, s: RowState)
    requires SaysFinal(t, x, s) && Final(s) && TurnNext(t, BeforeUnit(w)).Some?
    ensures SaysFinal(TurnNext(t, BeforeUnit(w)).value, x, s)
  {
    SyncKeepsFinal(t.journal, SetUnit(t.workers[w].plan, t.workers[w].next, UnitExecuting), x);
  }

  lemma LeaveKeepsFinal(t: Turn, w: Token, x: StepId, s: RowState)
    requires SaysFinal(t, x, s) && Final(s) && TurnNext(t, AfterUnit(w)).Some?
    ensures SaysFinal(TurnNext(t, AfterUnit(w)).value, x, s)
  {
    SyncKeepsFinal(t.journal, SetUnit(t.workers[w].plan, t.workers[w].k, UnitCompleted), x);
  }

  lemma TranscriptKeepsFinal(t: Turn, w: Token, x: StepId, s: RowState)
    requires SaysFinal(t, x, s) && Final(s) && TurnNext(t, PersistTranscript(w)).Some?
    ensures SaysFinal(TurnNext(t, PersistTranscript(w)).value, x, s)
  {
    SyncKeepsFinal(t.journal, t.workers[w].plan, x);
  }

  lemma ResultKeepsFinal(t: Turn, w: Token, x: StepId, s: RowState)
    requires SaysFinal(t, x, s) && Final(s) && TurnNext(t, Complete(w)).Some?
    ensures SaysFinal(TurnNext(t, Complete(w)).value, x, s)
  {
    if t.workers[w].PostEffect? { SyncKeepsFinal(t.journal, t.workers[w].plan, x); }
  }

  lemma MarkKeepsFinal(rows: Journal, plan: Option<Plan>, x: StepId)
    requires x in rows && Final(rows[x].state)
    ensures x in Marked(rows, plan) && Marked(rows, plan)[x] == rows[x]
  {
  }

  lemma FailureKeepsFinal(t: Turn, e: Event, x: StepId, s: RowState)
    requires SaysFinal(t, x, s) && Final(s) && (e.Fail? || e.CancelClaimed? || e.Repair?) && TurnNext(t, e).Some?
    ensures SaysFinal(TurnNext(t, e).value, x, s)
  {
    MarkKeepsFinal(t.journal, t.plan, x);
  }

  lemma HostKeepsFinal(t: Turn, e: Event, x: StepId, s: RowState)
    requires SaysFinal(t, x, s) && Final(s) && (e.RecoverStale? || e.Stop? || e.Reconcile?) && TurnNext(t, e).Some?
    ensures SaysFinal(TurnNext(t, e).value, x, s)
  {
    MarkKeepsFinal(t.journal, t.plan, x);
  }

  lemma UserKeepsJournal(t: Turn, e: Event)
    requires (e.Redirect? || e.Approve? || e.Reject?) && TurnNext(t, e).Some?
    ensures TurnNext(t, e).value.journal == t.journal
  {
  }

  lemma OpeningKeepsJournal(t: Turn, e: Event)
    requires (e.Begin? || e.MarkApplied? || e.StartExecution? || e.PersistAwaiting?) && TurnNext(t, e).Some?
    ensures TurnNext(t, e).value.journal == t.journal
  {
  }

  lemma WorkKeepsJournal(t: Turn, e: Event)
    requires (e.RunStep? || e.SkipStep? || e.FinishPlan? || e.Raise? || e.Crash?) && TurnNext(t, e).Some?
    ensures TurnNext(t, e).value.journal == t.journal
  {
  }

  lemma StepKeepsFinal(t: Turn, e: Event, x: StepId, s: RowState)
    requires SaysFinal(t, x, s) && Final(s) && TurnNext(t, e).Some?
    ensures SaysFinal(TurnNext(t, e).value, x, s)
  {
    if e.BeforeUnit? { EnterKeepsFinal(t, e.w, x, s); }
    else if e.AfterUnit? { LeaveKeepsFinal(t, e.w, x, s); }
    else if e.PersistTranscript? { TranscriptKeepsFinal(t, e.w, x, s); }
    else if e.Complete? { ResultKeepsFinal(t, e.w, x, s); }
    else if e.Fail? || e.CancelClaimed? || e.Repair? { FailureKeepsFinal(t, e, x, s); }
    else if e.RecoverStale? || e.Stop? || e.Reconcile? { HostKeepsFinal(t, e, x, s); }
    else if e.Redirect? || e.Approve? || e.Reject? { UserKeepsJournal(t, e); }
    else if e.Begin? || e.MarkApplied? || e.StartExecution? || e.PersistAwaiting? { OpeningKeepsJournal(t, e); }
    else { WorkKeepsJournal(t, e); }
  }

  lemma FinalIsKept(P: Turn -> bool, x: StepId, s: RowState)
    requires Final(s) && forall t: Turn :: P(t) <==> SaysFinal(t, x, s)
    ensures Kept(P)
  {
    forall t, e
      ensures KeptByStep(P, t, e)
    {
      if TurnNext(t, e).Some? && P(t) { StepKeepsFinal(t, e, x, s); }
    }
  }

  /** In every run, whatever is parked, repaired or recovered: a row that says verified or skipped says so
      for ever. */
  lemma FinalStays(ws: seq<World>, es: seq<WorldEvent>, i: nat, j: nat, id: nat, x: StepId, s: RowState)
    requires Run(ws, es) && i <= j < |ws| && id < |ws[i].turns| && Final(s) && SaysFinal(ws[i].turns[id], x, s)
    ensures id < |ws[j].turns| && SaysFinal(ws[j].turns[id], x, s)
  {
    var P := (t: Turn) => SaysFinal(t, x, s);
    FinalIsKept(P, x, s);
    KeptPersists(ws, es, i, j, id, P);
  }
}
