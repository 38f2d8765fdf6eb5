/** What the user's approval binds: the plan that runs next, and what becomes of a redirect sent after it. */
module TurnApproval {
  import opened Prelude
  import opened TurnTypes
  import opened EffectJournal
  import opened TurnSteps
  import opened TurnInvariant
  import opened TurnSafety
  import opened TurnProgress
  import opened Scheduler
  import opened WorldSafety
  import opened TurnRuns

  /** The lease holder of an approved turn has not got beyond the stored plan. */
  predicate BoundByApproval(t: Turn) {
    t.authorized ==> t.state != AwaitingConfirmation && t.plan.Some? && HolderWaits(t, t.plan.value)
  }

  // ----- Every step keeps the binding -----

  lemma ReplacedIsBound(t: Turn, t': Turn, w: Token, u: Worker)
    requires BoundByApproval(t) && t'.workers == t.workers[w := u] && t'.token == t.token && t'.plan == t.plan
    requires t'.state == t.state
    requires t'.authorized ==> t.authorized
    requires t.authorized && t.token == Some(w) ==> InFrontOf(u, t.plan.value)
    ensures BoundByApproval(t')
  {
  }

  lemma FewerAreBound(t: Turn, t': Turn)
    requires BoundByApproval(t) && t'.workers.Items <= t.workers.Items && t'.plan == t.plan
    requires t'.authorized ==> t.authorized
    requires t'.token == t.token || t'.token.None?
    requires t'.state == AwaitingConfirmation ==> t.state == AwaitingConfirmation
    ensures BoundByApproval(t')
  {
    forall w | w in t'.workers && t'.token == Some(w)
      ensures w in t.workers && t.workers[w] == t'.workers[w]
    {
      assert (w, t'.workers[w]) in t'.workers.Items;
    }
  }

  lemma BeginIsBound(t: Turn, w: Token)
    requires BoundByApproval(t) && TurnNext(t, Begin(w)).Some?
    ensures BoundByApproval(TurnNext(t, Begin(w)).value)
  {
    var t' := TurnNext(t, Begin(w)).value;
    if Holds(t, w) { ReplacedIsBound(t, t', w, FirstJob(t)); } else { FewerAreBound(t, t'); }
  }

  lemma WorkIsBound(t: Turn, e: Event)
    requires BoundByApproval(t) && TurnNext(t, e).Some?
    requires e.StartExecution? || e.RunStep? || e.SkipStep? || e.FinishPlan? || e.Raise?
    ensures BoundByApproval(TurnNext(t, e).value)
  {
    var t' := TurnNext(t, e).value;
    ReplacedIsBound(t, t', e.w, t'.workers[e.w]);
  }

  /** A checkpoint in front of a unit, a repair and another plan to confirm use an approval up. */
  predicate Spends(e: Event) {
    e.BeforeUnit? || e.Repair? || e.PersistAwaiting?
  }

  lemma SpentIsBound(t: Turn, e: Event)
    requires Spends(e) && TurnNext(t, e).Some?
    ensures !TurnNext(t, e).value.authorized
  {
  }

  lemma CommittedIsBound(t: Turn, e: Event)
    requires (e.AfterUnit? || e.PersistTranscript?) && TurnNext(t, e).Some?
    ensures !TurnNext(t, e).value.authorized
  {
  }

  lemma LeavingIsBound(t: Turn, e: Event)
    requires BoundByApproval(t) && (e.CancelClaimed? || e.Crash?) && TurnNext(t, e).Some?
    ensures BoundByApproval(TurnNext(t, e).value)
  {
    FewerAreBound(t, TurnNext(t, e).value);
  }

  lemma FailIsBound(t: Turn, w: Token, kind: FailureKind, now: nat)
    requires BoundByApproval(t) && TurnNext(t, Fail(w, kind, now)).Some?
    ensures BoundByApproval(TurnNext(t, Fail(w, kind, now)).value)
  {
    FewerAreBound(t, TurnNext(t, Fail(w, kind, now)).value);
  }

  lemma CompleteIsBound(t: Turn, w: Token)
    requires BoundByApproval(t) && TurnNext(t, Complete(w)).Some?
    ensures BoundByApproval(TurnNext(t, Complete(w)).value)
  {
    if t.authorized { WaitingHolderCommitsNothing(t, Complete(w), t.plan.value); }
  }

  lemma HostIsBound(t: Turn, e: Event)
    requires BoundByApproval(t) && (e.RecoverStale? || e.Stop? || e.Reconcile?) && TurnNext(t, e).Some?
    ensures BoundByApproval(TurnNext(t, e).value)
  {
  }

  lemma DecisionIsBound(t: Turn, e: Event)
    requires BoundByApproval(t) && (e.Redirect? || e.Approve? || e.Reject?) && TurnNext(t, e).Some?
    ensures BoundByApproval(TurnNext(t, e).value)
  {
  }

  lemma StepIsBound(t: Turn, e: Event)
    requires BoundByApproval(t) && TurnNext(t, e).Some?
    ensures BoundByApproval(TurnNext(t, e).value)
  {
    if e.RecoverStale? || e.Stop? || e.Reconcile? { HostIsBound(t, e); }
    else if e.Redirect? || e.Approve? || e.Reject? { DecisionIsBound(t, e); }
    else if Spends(e) { SpentIsBound(t, e); }
    else if e.AfterUnit? || e.PersistTranscript? { CommittedIsBound(t, e); }
    else if e.Begin? { BeginIsBound(t, e.w); }
    else if e.Complete? { CompleteIsBound(t, e.w); }
    else if e.Fail? { FailIsBound(t, e.w, e.kind, e.now); }
    else if e.CancelClaimed? || e.Crash? { LeavingIsBound(t, e); }
    else if !e.MarkApplied? { WorkIsBound(t, e); }
  }

  lemma BindingIsKept(P: Turn -> bool)
    requires forall t: Turn :: P(t) <==> BoundByApproval(t)
    ensures Kept(P)
  {
    forall t, e
      ensures KeptByStep(P, t, e)
    {
      if TurnNext(t, e).Some? && P(t) { StepIsBound(t, e); }
    }
  }

  /** In every run: the lease holder of an approved turn stands in front of the stored plan, or it has
      not begun, or it has failed. */
  lemma {:induction false} HolderRunsTheStoredPlan(ws: seq<World>, es: seq<WorldEvent>, i: nat, id: nat)
    requires Run(ws, es) && i < |ws| && id < |ws[i].turns|
    ensures BoundByApproval(ws[i].turns[id])
  {
    if i > 0 {
      assert Moves(ws[i - 1], es[i - 1], ws[i]);
      if id < |ws[i - 1].turns| {
        HolderRunsTheStoredPlan(ws, es, i - 1, id);
        var P := (t: Turn) => BoundByApproval(t);
        BindingIsKept(P);
        KeptAt(ws[i - 1], es[i - 1], ws[i], id, P);
      }
    }
  }

  // ----- How an approval ends -----

  ghost predicate SameApproval(t: Turn, t': Turn) {
    t'.authorized == t.authorized && t'.plan == t.plan
  }

  lemma OpeningKeepsApproval(t: Turn, e: Event)
    requires (e.Begin? || e.StartExecution? || e.MarkApplied?) && TurnNext(t, e).Some?
    ensures SameApproval(t, TurnNext(t, e).value)
  {
  }

  lemma WorkKeepsApproval(t: Turn, e: Event)
    requires (e.RunStep? || e.SkipStep? || e.FinishPlan? || e.Raise? || e.Crash?) && TurnNext(t, e).Some?
    ensures SameApproval(t, TurnNext(t, e).value)
  {
  }

  lemma LeavingKeepsApproval(t: Turn, e: Event)
    requires (e.Fail? || e.CancelClaimed?) && TurnNext(t, e).Some?
    ensures SameApproval(t, TurnNext(t, e).value)
  {
  }

  lemma UserKeepsApproval(t: Turn, e: Event)
    requires t.state != AwaitingConfirmation && WorkerOf(e).None? && TurnNext(t, e).Some?
    ensures SameApproval(t, TurnNext(t, e).value)
  {
  }

  /** An approval, and the plan it stands for, stays exactly until it is used up. */
  lemma ApprovalStep(t: Turn, e: Event)
    requires BoundByApproval(t) && t.authorized && TurnNext(t, e).Some?
    ensures TurnNext(t, e).value.authorized <==> !Spends(e)
    ensures !Spends(e) ==> TurnNext(t, e).value.plan == t.plan
  {
    if WorkerOf(e).None? { UserKeepsApproval(t, e); }
    else if Spends(e) { SpentIsBound(t, e); }
    else if e.AfterUnit? || e.PersistTranscript? || e.Complete? { WaitingHolderCommitsNothing(t, e, t.plan.value); }
    else if e.Begin? || e.StartExecution? || e.MarkApplied? { OpeningKeepsApproval(t, e); }
    else if e.Fail? || e.CancelClaimed? { LeavingKeepsApproval(t, e); }
    else { WorkKeepsApproval(t, e); }
  }

  /** The user approved the plan p, and nothing has used the approval up. */
  predicate ApprovedFor(t: Turn, p: Plan) {
    t.authorized && t.plan == Some(p)
  }

  predicate SpendsOn(e: WorldEvent, id: nat) {
    e.On? && e.id == id && Spends(e.event)
  }

  predicate Unspent(es: seq<WorldEvent>, id: nat, i: nat, j: nat)
    requires j <= |es|
  {
    forall k | i <= k < j :: !SpendsOn(es[k], id)
  }

  ghost predicate ApprovedFrom(ws: seq<World>, i: nat, j: nat, id: nat, p: Plan)
    requires j < |ws|
  {
    forall m | i <= m <= j :: id < |ws[m].turns| && ApprovedFor(ws[m].turns[id], p)
  }

  lemma ApprovalAt(w: World, e: WorldEvent, w': World, id: nat, p: Plan)
    requires Moves(w, e, w') && id < |w.turns| && BoundByApproval(w.turns[id]) && ApprovedFor(w.turns[id], p)
    ensures id < |w'.turns| && (ApprovedFor(w'.turns[id], p) <==> !SpendsOn(e, id))
  {
    if e.On? && e.id == id { ApprovalStep(w.turns[id], e.event); }
  }

  lemma ApprovedExtends(ws: seq<World>, i: nat, m: nat, id: nat, p: Plan)
    requires i <= m && m + 1 < |ws|
    ensures ApprovedFrom(ws, i, m + 1, id, p) <==>
              ApprovedFrom(ws, i, m, id, p) && id < |ws[m + 1].turns| && ApprovedFor(ws[m + 1].turns[id], p)
  {
  }

  lemma UnspentExtends(es: seq<WorldEvent>, id: nat, i: nat, m: nat)
    requires i <= m < |es|
    ensures Unspent(es, id, i, m + 1) <==> Unspent(es, id, i, m) && !SpendsOn(es[m], id)
  {
  }

  lemma ApprovalNext(ws: seq<World>, es: seq<WorldEvent>, m: nat, id: nat, p: Plan)
    requires Run(ws, es) && m < |es| && id < |ws[m].turns| && ApprovedFor(ws[m].turns[id], p)
    ensures id < |ws[m + 1].turns| && (ApprovedFor(ws[m + 1].turns[id], p) <==> !SpendsOn(es[m], id))
  {
    assert Moves(ws[m], es[m], ws[m + 1]);
    HolderRunsTheStoredPlan(ws, es, m, id);
    ApprovalAt(ws[m], es[m], ws[m + 1], id, p);
  }

  lemma {:induction false} ApprovedUntilSpent(ws: seq<World>, es: seq<WorldEvent>, i: nat, j: nat, id: nat, p: Plan)
    requires Run(ws, es) && i <= j < |ws| && id < |ws[i].turns| && ApprovedFor(ws[i].turns[id], p)
    ensures ApprovedFrom(ws, i, j, id, p) <==> Unspent(es, id, i, j)
  {
    if i < j {
      var m := j - 1;
      ApprovedUntilSpent(ws, es, i, m, id, p);
      ApprovedExtends(ws, i, m, id, p);
      UnspentExtends(es, id, i, m);
      if ApprovedFrom(ws, i, m, id, p) { ApprovalNext(ws, es, m, id, p); }
    }
  }

  lemma EnteredFromTheStart(t: Turn, w: Token, p: Plan)
    requires BoundByApproval(t) && ApprovedFor(t, p) && TurnNext(t, BeforeUnit(w)).Some?
    ensures w in t.workers && t.workers[w] == Between(p, 0) && Fresh(p)
  {
  }

  /** What runs after an approval is the approved plan, from its start. In every run: the approval stands
      for the plan that was stored when the user decided, exactly until a checkpoint, a repair or another
      parking write of the turn; and the checkpoint is passed by a worker in front of that very plan. */
  lemma ApprovedPlanIsWhatRuns(ws: seq<World>, es: seq<WorldEvent>, i: nat, j: nat, id: nat, now: nat, waiting: bool)
    requires Run(ws, es) && i < j < |ws| && es[i] == On(id, Approve(now, waiting))
    ensures id < |ws[i].turns| && ws[i].turns[id].plan.Some?
    ensures ApprovedFrom(ws, i + 1, j, id, ws[i].turns[id].plan.value) <==> Unspent(es, id, i + 1, j)
    ensures Unspent(es, id, i + 1, j) && j < |es| && es[j].On? && es[j].id == id && es[j].event.BeforeUnit? ==>
              var (t, w) := (ws[j].turns[id], es[j].event.w);
              w in t.workers && t.workers[w] == Between(ws[i].turns[id].plan.value, 0) && Fresh(ws[i].turns[id].plan.value)
  {
    assert Moves(ws[i], es[i], ws[i + 1]);
    var p := ws[i].turns[id].plan.value;
    ApprovedUntilSpent(ws, es, i + 1, j, id, p);
    if Unspent(es, id, i + 1, j) && j < |es| && es[j].On? && es[j].id == id && es[j].event.BeforeUnit? {
      assert Moves(ws[j], es[j], ws[j + 1]) && ApprovedFor(ws[j].turns[id], p);
      HolderRunsTheStoredPlan(ws, es, j, id);
      EnteredFromTheStart(ws[j].turns[id], es[j].event.w, p);
    }
  }

  // ----- A redirect after the approval -----

  /** Redirect number s is waiting, and the turn either still has its unused approval or it ended
      without a result. */
  predicate Unheard(t: Turn, s: nat) {
    && !t.barrier
    && t.control.applied < s <= t.control.sequence
    && (t.state == Cancelled || t.state == Failed || ((t.state == Queued || t.state == Running) && t.authorized))
  }

  /** Nobody parks the turn, and nobody who is still thinking reports redirect s as applied. */
  predicate Ignores(e: Event, s: nat) {
    !e.PersistAwaiting? && !(e.MarkApplied? && s <= e.sequence)
  }

  predicate IgnoredOn(es: seq<WorldEvent>, id: nat, s: nat, i: nat, j: nat)
    requires j <= |es|
  {
    forall k | i <= k < j && es[k].On? && es[k].id == id :: Ignores(es[k].event, s)
  }

  lemma UnheardApplied(t: Turn, w: Token, sequence: nat, s: nat)
    requires Unheard(t, s) && TurnNext(t, MarkApplied(w, sequence)).Some?
    ensures Unheard(TurnNext(t, MarkApplied(w, sequence)).value, s) <==> sequence < s
  {
  }

  lemma UnheardParked(t: Turn, w: Token, proposal: Plan, s: nat)
    requires TurnNext(t, PersistAwaiting(w, proposal)).Some?
    ensures !Unheard(TurnNext(t, PersistAwaiting(w, proposal)).value, s)
  {
  }

  /** With a redirect waiting, neither the checkpoint nor the repair goes through. */
  lemma UnheardIsStuck(t: Turn, e: Event, s: nat)
    requires Unheard(t, s) && (e.BeforeUnit? || e.Repair?)
    ensures TurnNext(t, e).None?
  {
  }

  lemma UnheardCommitsNothing(t: Turn, e: Event, s: nat)
    requires Unheard(t, s) && BoundByApproval(t) && (e.AfterUnit? || e.PersistTranscript? || e.Complete?)
    ensures TurnNext(t, e).None?
  {
    if t.authorized { WaitingHolderCommitsNothing(t, e, t.plan.value); }
    else if TurnNext(t, e).Some? { CommitNeedsWork(t, e); }
  }

  lemma UnheardWork(t: Turn, e: Event, s: nat)
    requires Unheard(t, s) && TurnNext(t, e).Some?
    requires e.Begin? || e.StartExecution? || e.RunStep? || e.SkipStep? || e.FinishPlan? || e.Raise? || e.Crash?
    ensures Unheard(TurnNext(t, e).value, s)
  {
  }

  lemma UnheardCancel(t: Turn, w: Token, s: nat)
    requires Unheard(t, s) && RowInv(t) && TurnNext(t, CancelClaimed(w)).Some?
    ensures Unheard(TurnNext(t, CancelClaimed(w)).value, s)
  {
  }

  lemma UnheardFailure(t: Turn, w: Token, kind: FailureKind, now: nat, s: nat)
    requires Unheard(t, s) && RowInv(t) && TurnNext(t, Fail(w, kind, now)).Some?
    ensures Unheard(TurnNext(t, Fail(w, kind, now)).value, s)
  {
  }

  lemma UnheardHost(t: Turn, e: Event, s: nat)
    requires Unheard(t, s) && RowInv(t) && (e.RecoverStale? || e.Stop? || e.Reconcile?) && TurnNext(t, e).Some?
    ensures Unheard(TurnNext(t, e).value, s)
  {
  }

  lemma UnheardDecision(t: Turn, e: Event, s: nat)
    requires Unheard(t, s) && (e.Redirect? || e.Approve? || e.Reject?) && TurnNext(t, e).Some?
    ensures Unheard(TurnNext(t, e).value, s)
  {
  }

  lemma UnheardStep(t: Turn, e: Event, s: nat)
    requires RowInv(t) && BoundByApproval(t) && Unheard(t, s) && TurnNext(t, e).Some?
    ensures Unheard(TurnNext(t, e).value, s) <==> Ignores(e, s)
  {
    if e.PersistAwaiting? { UnheardParked(t, e.w, e.proposal, s); }
    else if e.MarkApplied? { UnheardApplied(t, e.w, e.sequence, s); }
    else if e.BeforeUnit? || e.Repair? { UnheardIsStuck(t, e, s); }
    else if e.AfterUnit? || e.PersistTranscript? || e.Complete? { UnheardCommitsNothing(t, e, s); }
    else if e.CancelClaimed? { UnheardCancel(t, e.w, s); }
    else if e.Fail? { UnheardFailure(t, e.w, e.kind, e.now, s); }
    else if e.RecoverStale? || e.Stop? || e.Reconcile? { UnheardHost(t, e, s); }
    else if e.Redirect? || e.Approve? || e.Reject? { UnheardDecision(t, e, s); }
    else { UnheardWork(t, e, s); }
  }

  lemma UnheardAt(w: World, e: WorldEvent, w': World, id: nat, s: nat)
    requires Moves(w, e, w') && TableInv(w) && id < |w.turns| && BoundByApproval(w.turns[id]) && Unheard(w.turns[id], s)
    ensures id < |w'.turns|
    ensures Unheard(w'.turns[id], s) <==> (e.On? && e.id == id ==> Ignores(e.event, s))
  {
    if e.On? && e.id == id { UnheardStep(w.turns[id], e.event, s); }
  }

  ghost predicate UnheardFrom(ws: seq<World>, i: nat, j: nat, id: nat, s: nat)
    requires j < |ws|
  {
    forall m | i <= m <= j :: id < |ws[m].turns| && Unheard(ws[m].turns[id], s)
  }

  lemma UnheardExtends(ws: seq<World>, i: nat, m: nat, id: nat, s: nat)
    requires i <= m && m + 1 < |ws|
    ensures UnheardFrom(ws, i, m + 1, id, s) <==>
              UnheardFrom(ws, i, m, id, s) && id < |ws[m + 1].turns| && Unheard(ws[m + 1].turns[id], s)
  {
  }

  lemma IgnoredExtends(es: seq<WorldEvent>, id: nat, s: nat, i: nat, m: nat)
    requires i <= m < |es|
    ensures IgnoredOn(es, id, s, i, m + 1) <==>
              IgnoredOn(es, id, s, i, m) && (es[m].On? && es[m].id == id ==> Ignores(es[m].event, s))
  {
  }

  lemma UnheardNext(ws: seq<World>, es: seq<WorldEvent>, m: nat, id: nat, s: nat)
    requires Run(ws, es) && m < |es| && id < |ws[m].turns| && Unheard(ws[m].turns[id], s)
    ensures id < |ws[m + 1].turns|
    ensures Unheard(ws[m + 1].turns[id], s) <==> (es[m].On? && es[m].id == id ==> Ignores(es[m].event, s))
  {
    assert Moves(ws[m], es[m], ws[m + 1]);
    RunTable(ws, es, m);
    HolderRunsTheStoredPlan(ws, es, m, id);
    UnheardAt(ws[m], es[m], ws[m + 1], id, s);
  }

  lemma {:induction false} UnheardExactly(ws: seq<World>, es: seq<WorldEvent>, i: nat, j: nat, id: nat, s: nat)
    requires Run(ws, es) && i <= j < |ws| && id < |ws[i].turns| && Unheard(ws[i].turns[id], s)
    ensures UnheardFrom(ws, i, j, id, s) <==> IgnoredOn(es, id, s, i, j)
  {
    if i < j {
      var m := j - 1;
      UnheardExactly(ws, es, i, m, id, s);
      UnheardExtends(ws, i, m, id, s);
      IgnoredExtends(es, id, s, i, m);
      if UnheardFrom(ws, i, m, id, s) { UnheardNext(ws, es, m, id, s); }
    }
  }

  lemma RedirectIsWaiting(t: Turn, clientId: string, message: string, within: bool, now: nat)
    requires RowInv(t) && BoundByApproval(t) && t.authorized && FindClient(t.control.rows, clientId).None?
    requires TurnNext(t, Redirect(clientId, message, within, now)).Some?
    ensures var t' := TurnNext(t, Redirect(clientId, message, within, now)).value;
            && Unheard(t', t.control.sequence + 1)
            && t' == t.(control := t'.control)
  {
  }

  /** The code accepts a redirect on an approved turn, but it is not heard: the turn keeps its unused
      approval or ends without a result, and never gets a barrier, exactly as long as no superseded
      worker parks the turn or reports the redirect as applied. */
  lemma RedirectAfterApproval(ws: seq<World>, es: seq<WorldEvent>, i: nat, j: nat, id: nat,
                              clientId: string, message: string, within: bool, now: nat)
    requires Run(ws, es) && i < j < |ws| && es[i] == On(id, Redirect(clientId, message, within, now))
    requires id < |ws[i].turns| && ws[i].turns[id].authorized && FindClient(ws[i].turns[id].control.rows, clientId).None?
    ensures var s := ws[i].turns[id].control.sequence + 1;
            UnheardFrom(ws, i + 1, j, id, s) <==> IgnoredOn(es, id, s, i + 1, j)
  {
    assert Moves(ws[i], es[i], ws[i + 1]);
    RunTable(ws, es, i);
    HolderRunsTheStoredPlan(ws, es, i, id);
    RedirectIsWaiting(ws[i].turns[id], clientId, message, within, now);
    UnheardExactly(ws, es, i + 1, j, id, ws[i].turns[id].control.sequence + 1);
  }

  // ----- With no superseded worker at work -----

  predicate Silent(t: Turn) {
    forall w | w in t.workers :: !t.workers[w].Reasoning? && !t.workers[w].InUnit? && !t.workers[w].PostEffect?
  }

  /** Nothing can happen any more that the redirect could reach. */
  ghost predicate Deaf(t: Turn, s: nat, durable: set<StepId>) {
    RowInv(t) && BoundByApproval(t) && Unheard(t, s) && Silent(t) && t.durable == durable
  }

  lemma SilentOne(t: Turn, t': Turn, w: Token, u: Worker)
    requires Silent(t) && t'.workers == t.workers[w := u] && !u.Reasoning? && !u.InUnit? && !u.PostEffect?
    ensures Silent(t')
  {
  }

  lemma SilentBegin(t: Turn, w: Token, s: nat)
    requires Silent(t) && Unheard(t, s) && BoundByApproval(t) && TurnNext(t, Begin(w)).Some?
    ensures Silent(TurnNext(t, Begin(w)).value) && TurnNext(t, Begin(w)).value.durable == t.durable
  {
    if Holds(t, w) { SilentOne(t, TurnNext(t, Begin(w)).value, w, FirstJob(t)); }
  }

  /** Who has not started the model and is in no unit can only begin, fail or vanish. */
  lemma SilentRefuses(t: Turn, e: Event)
    requires Silent(t) && (e.MarkApplied? || e.PersistAwaiting? || e.StartExecution?)
    ensures TurnNext(t, e).None?
  {
  }

  lemma SilentRunsNothing(t: Turn, e: Event)
    requires Silent(t) && (e.RunStep? || e.SkipStep? || e.FinishPlan?)
    ensures TurnNext(t, e).None?
  {
  }

  lemma SilentGone(t: Turn, t': Turn, w: Token)
    requires Silent(t) && t'.workers == t.workers - {w}
    ensures Silent(t')
  {
  }

  lemma LeaverIsGone(t: Turn, e: Event)
    requires (e.CancelClaimed? || e.Crash?) && TurnNext(t, e).Some?
    ensures TurnNext(t, e).value.workers == t.workers - {e.w} && TurnNext(t, e).value.durable == t.durable
  {
  }

  lemma FailedIsGone(t: Turn, w: Token, kind: FailureKind, now: nat)
    requires TurnNext(t, Fail(w, kind, now)).Some?
    ensures TurnNext(t, Fail(w, kind, now)).value.workers == t.workers - {w}
    ensures TurnNext(t, Fail(w, kind, now)).value.durable == t.durable
  {
  }

  lemma SilentLeaves(t: Turn, e: Event)
    requires Silent(t) && (e.Fail? || e.CancelClaimed? || e.Crash?) && TurnNext(t, e).Some?
    ensures Silent(TurnNext(t, e).value) && TurnNext(t, e).value.durable == t.durable
  {
    if e.Fail? { FailedIsGone(t, e.w, e.kind, e.now); } else { LeaverIsGone(t, e); }
    SilentGone(t, TurnNext(t, e).value, e.w);
  }

  lemma DeafIgnores(t: Turn, e: Event, s: nat, durable: set<StepId>)
    requires Deaf(t, s, durable) && TurnNext(t, e).Some?
    ensures Silent(TurnNext(t, e).value) && TurnNext(t, e).value.durable == durable && Ignores(e, s)
  {
    if WorkerOf(e).None? { UserFrame(t, e); }
    else if e.Begin? { SilentBegin(t, e.w, s); }
    else if e.BeforeUnit? || e.Repair? { UnheardIsStuck(t, e, s); }
    else if e.AfterUnit? || e.PersistTranscript? || e.Complete? { UnheardCommitsNothing(t, e, s); }
    else if e.Fail? || e.CancelClaimed? || e.Crash? { SilentLeaves(t, e); }
    else if e.Raise? { SilentOne(t, TurnNext(t, e).value, e.w, Failing); }
    else if e.RunStep? || e.SkipStep? || e.FinishPlan? { SilentRunsNothing(t, e); }
    else { SilentRefuses(t, e); }
  }

  lemma DeafStep(t: Turn, e: Event, s: nat, durable: set<StepId>)
    requires Deaf(t, s, durable) && TurnNext(t, e).Some?
    ensures Deaf(TurnNext(t, e).value, s, durable)
  {
    DeafIgnores(t, e, s, durable);
    UnheardStep(t, e, s);
    StepKeepsRowInv(t, e);
    StepIsBound(t, e);
  }

  lemma DeafClaim(t: Turn, w: Token, now: nat, s: nat, durable: set<StepId>)
    requires Deaf(t, s, durable) && Claimable(t)
    ensures Deaf(ClaimTurn(t, w, now), s, durable)
  {
    SilentOne(t, ClaimTurn(t, w, now), w, Launched);
  }

  lemma DeafIsKept(P: Turn -> bool, s: nat, durable: set<StepId>)
    requires forall t: Turn :: P(t) <==> Deaf(t, s, durable)
    ensures Kept(P)
  {
    forall t, e
      ensures KeptByStep(P, t, e)
    {
      if TurnNext(t, e).Some? && P(t) { DeafStep(t, e, s, durable); }
    }
    forall t, w, now
      ensures KeptByClaim(P, t, w, now)
    {
      if Claimable(t) && P(t) { DeafClaim(t, w, now, s, durable); }
    }
  }

  /** When no superseded worker of the approved turn is at work, the redirect is lost for good: whatever
      happens later, it is not applied, no further effect comes out and the turn never completes. */
  lemma RedirectIsNeverHeard(ws: seq<World>, es: seq<WorldEvent>, i: nat, j: nat, id: nat,
                             clientId: string, message: string, within: bool, now: nat)
    requires Run(ws, es) && i < j < |ws| && es[i] == On(id, Redirect(clientId, message, within, now))
    requires id < |ws[i].turns| && ws[i].turns[id].authorized && FindClient(ws[i].turns[id].control.rows, clientId).None?
    requires Silent(ws[i].turns[id])
    ensures id < |ws[j].turns| && Unheard(ws[j].turns[id], ws[i].turns[id].control.sequence + 1)
    ensures ws[j].turns[id].durable == ws[i].turns[id].durable
  {
    var t := ws[i].turns[id];
    assert Moves(ws[i], es[i], ws[i + 1]);
    RunTable(ws, es, i);
    HolderRunsTheStoredPlan(ws, es, i, id);
    RedirectIsWaiting(t, clientId, message, within, now);
    RunTable(ws, es, i + 1);
    var P := (u: Turn) => Deaf(u, t.control.sequence + 1, t.durable);
    DeafIsKept(P, t.control.sequence + 1, t.durable);
    KeptPersists(ws, es, i + 1, j, id, P);
  }
}
