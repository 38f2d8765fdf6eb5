/** What a parking write behind a standing barrier makes possible: when a committed step runs again, and
    when a review is closed although its effect is out. */
module TurnReplay {
  import opened Prelude
  import opened TurnTypes
  import opened EffectJournal
  import opened TurnSteps
  import opened TurnInvariant
  import opened TurnSafety
  import opened TurnProgress
  import opened WorldSafety
  import opened TurnRuns

  // ----- Continuations of one turn -----

  /** A step of the turn, or a claim by the scheduler. No second parking write is looked at. */
  datatype Move = Act(event: Event) | Take(token: Token, now: nat)

  ghost function MoveNext(t: Turn, m: Move): Option<Turn> {
    match m
    case Act(e) => if e.PersistAwaiting? then None else TurnNext(t, e)
    case Take(w, now) => if Claimable(t) && w !in t.workers then Some(ClaimTurn(t, w, now)) else None
  }

  ghost predicate Trace(ts: seq<Turn>, ms: seq<Move>) {
    |ts| == |ms| + 1 && forall i | 0 <= i < |ms| :: MoveNext(ts[i], ms[i]) == Some(ts[i + 1])
  }

  ghost predicate Connects(ts: seq<Turn>, ms: seq<Move>, t: Turn, t': Turn) {
    Trace(ts, ms) && ts[0] == t && ts[|ms|] == t'
  }

  ghost predicate Reaches(t: Turn, t': Turn) {
    exists ts, ms :: Connects(ts, ms, t, t')
  }

  lemma ReachesItself(t: Turn)
    ensures Reaches(t, t)
  {
    assert Connects([t], [], t, t);
  }

  lemma ReachesNext(t: Turn, t': Turn, m: Move, t'': Turn)
    requires Reaches(t, t') && MoveNext(t', m) == Some(t'')
    ensures Reaches(t, t'')
  {
    var ts, ms :| Connects(ts, ms, t, t');
    var (us, ns) := (ts + [t''], ms + [m]);
    forall i | 0 <= i < |ns|
      ensures MoveNext(us[i], ns[i]) == Some(us[i + 1])
    {
      if i < |ms| { assert MoveNext(ts[i], ms[i]) == Some(ts[i + 1]); }
    }
    assert Connects(us, ns, t, t'');
  }

  /** A continuation comes to a worker that executes step x while its effect is out. */
  ghost predicate RunsAgain(t: Turn, x: StepId) {
    exists t', w :: Reaches(t, t') && x in t'.durable && TurnNext(t', RunStep(w, x)).Some?
  }

  // ----- With the stop flag up nothing runs again -----

  ghost predicate Quiet(t: Turn, x: StepId) {
    t.control.cancel && forall w | w in t.workers :: !InFlight(t, w, x)
  }

  ghost predicate NoneEnters(t: Turn, t': Turn) {
    t'.workers.Keys <= t.workers.Keys
    && forall v | v in t'.workers :: t'.workers[v] == t.workers[v] || !t'.workers[v].InUnit?
  }

  lemma NoneEntersIsQuiet(t: Turn, t': Turn, x: StepId)
    requires Quiet(t, x) && NoneEnters(t, t') && t'.control.cancel
    ensures Quiet(t', x)
  {
    forall v | v in t'.workers
      ensures !InFlight(t', v, x)
    {
      assert !InFlight(t, v, x);
    }
  }

  lemma StopFlagRefusesUnit(t: Turn, e: Event)
    requires t.control.cancel && TurnNext(t, e).Some?
    ensures !e.BeforeUnit?
  {
    if e.BeforeUnit? { StoppedRefusesUnit(t, e.w); }
  }

  lemma QuietOpening(t: Turn, e: Event)
    requires (e.Begin? || e.MarkApplied? || e.StartExecution?) && TurnNext(t, e).Some?
    ensures NoneEnters(t, TurnNext(t, e).value)
  {
  }

  lemma ReplacedEnters(t: Turn, t': Turn, w: Token, worker: Worker)
    requires w in t.workers && t'.workers == t.workers[w := worker] && !worker.InUnit?
    ensures NoneEnters(t, t')
  {
  }

  lemma QuietAfterUnit(t: Turn, w: Token)
    requires TurnNext(t, AfterUnit(w)).Some?
    ensures NoneEnters(t, TurnNext(t, AfterUnit(w)).value)
  {
    var t' := CommitUnit(t, w);
    ReplacedEnters(t, t', w, t'.workers[w]);
  }

  lemma QuietFinishPlan(t: Turn, w: Token)
    requires TurnNext(t, FinishPlan(w)).Some?
    ensures NoneEnters(t, TurnNext(t, FinishPlan(w)).value)
  {
    var t' := LeaveLastUnit(t, w);
    ReplacedEnters(t, t', w, t'.workers[w]);
  }

  lemma QuietTranscript(t: Turn, w: Token)
    requires TurnNext(t, PersistTranscript(w)).Some?
    ensures NoneEnters(t, TurnNext(t, PersistTranscript(w)).value)
  {
    var t' := CommitEffects(t, w);
    ReplacedEnters(t, t', w, t'.workers[w]);
  }

  lemma QuietLeaving(t: Turn, e: Event)
    requires (e.Repair? || e.Raise? || e.Crash?) && TurnNext(t, e).Some?
    ensures NoneEnters(t, TurnNext(t, e).value)
  {
  }

  lemma QuietOffRow(t: Turn, e: Event)
    requires OffRow(e) && !e.RunStep? && !e.SkipStep? && !e.BeforeUnit? && TurnNext(t, e).Some?
    ensures NoneEnters(t, TurnNext(t, e).value)
  {
    if e.Begin? || e.MarkApplied? || e.StartExecution? { QuietOpening(t, e); }
    else if e.Repair? || e.Raise? || e.Crash? { QuietLeaving(t, e); }
    else if e.AfterUnit? { QuietAfterUnit(t, e.w); }
    else if e.FinishPlan? { QuietFinishPlan(t, e.w); }
    else { QuietTranscript(t, e.w); }
  }

  lemma QuietCancel(t: Turn, w: Token)
    requires TurnNext(t, CancelClaimed(w)).Some?
    ensures NoneEnters(t, TurnNext(t, CancelClaimed(w)).value)
  {
  }

  lemma QuietFailure(t: Turn, w: Token, kind: FailureKind, now: nat)
    requires TurnNext(t, Fail(w, kind, now)).Some?
    ensures NoneEnters(t, TurnNext(t, Fail(w, kind, now)).value)
  {
    assert TurnNext(t, Fail(w, kind, now)).value.workers == t.workers - {w};
  }

  lemma QuietResult(t: Turn, e: Event)
    requires (e.Complete? || e.PersistAwaiting?) && TurnNext(t, e).Some?
    ensures NoneEnters(t, TurnNext(t, e).value)
  {
  }

  lemma QuietHost(t: Turn, e: Event)
    requires WorkerOf(e).None? && TurnNext(t, e).Some?
    ensures NoneEnters(t, TurnNext(t, e).value)
  {
    UserFrame(t, e);
  }

  /** A worker inside its unit settles one step; no other step becomes pending. */
  lemma QuietStep(t: Turn, w: Token, y: StepId, s: StepState, t': Turn, x: StepId)
    requires Quiet(t, x) && w in t.workers && InFlight(t, w, y) && s != Previewed && t'.control == t.control
    requires t'.workers.Keys == t.workers.Keys && forall v | v in t.workers && v != w :: t'.workers[v] == t.workers[v]
    requires t'.workers[w].InUnit? && t'.workers[w].k == t.workers[w].k
    requires t'.workers[w].plan == SetStep(t.workers[w].plan, y, s)
    ensures Quiet(t', x)
  {
    forall v | v in t'.workers
      ensures !InFlight(t', v, x)
    {
      assert !InFlight(t, v, x);
    }
  }

  lemma QuietEvent(t: Turn, e: Event, x: StepId)
    requires Quiet(t, x) && TurnNext(t, e).Some?
    ensures Quiet(TurnNext(t, e).value, x)
  {
    var t' := TurnNext(t, e).value;
    StopFlagStays(t, e);
    StopFlagRefusesUnit(t, e);
    if e.RunStep? { QuietStep(t, e.w, e.x, StepDone, t', x); }
    else if e.SkipStep? { QuietStep(t, e.w, e.x, StepSkipped, t', x); }
    else {
      if OffRow(e) { QuietOffRow(t, e); }
      else if WorkerOf(e).None? { QuietHost(t, e); }
      else if e.CancelClaimed? { QuietCancel(t, e.w); }
      else if e.Fail? { QuietFailure(t, e.w, e.kind, e.now); }
      else { QuietResult(t, e); }
      NoneEntersIsQuiet(t, t', x);
    }
  }

  lemma QuietMove(t: Turn, m: Move, x: StepId)
    requires Quiet(t, x) && MoveNext(t, m).Some?
    ensures Quiet(MoveNext(t, m).value, x)
  {
    match m
    case Act(e) => QuietEvent(t, e, x);
    case Take(w, now) =>
      forall v | v in ClaimTurn(t, w, now).workers
        ensures !InFlight(ClaimTurn(t, w, now), v, x)
      {
        assert v != w ==> !InFlight(t, v, x);
      }
  }

  lemma {:induction false} QuietTrace(ts: seq<Turn>, ms: seq<Move>, i: nat, x: StepId)
    requires Trace(ts, ms) && Quiet(ts[0], x) && i < |ts|
    ensures Quiet(ts[i], x)
  {
    if i > 0 {
      QuietTrace(ts, ms, i - 1, x);
      assert MoveNext(ts[i - 1], ms[i - 1]) == Some(ts[i]);
      QuietMove(ts[i - 1], ms[i - 1], x);
    }
  }

  lemma QuietRefuses(t: Turn, w: Token, x: StepId)
    requires Quiet(t, x)
    ensures TurnNext(t, RunStep(w, x)).None?
  {
    if w in t.workers { assert !InFlight(t, w, x); }
  }

  lemma QuietNeverRuns(t: Turn, x: StepId)
    requires Quiet(t, x)
    ensures !RunsAgain(t, x)
  {
    forall t', w | Reaches(t, t')
      ensures TurnNext(t', RunStep(w, x)).None?
    {
      var ts, ms :| Connects(ts, ms, t, t');
      QuietTrace(ts, ms, |ms|, x);
      QuietRefuses(t', w, x);
    }
  }

  // ----- Without it, an accepted plan is run from the start -----

  /** The same steps, in whatever state. */
  ghost predicate SameShape(p: Plan, q: Plan) {
    && |p.units| == |q.units| && p.steps.Keys == q.steps.Keys
    && (forall j | 0 <= j < |p.units| :: p.units[j].mode == q.units[j].mode)
    && (forall s | s in p.steps :: p.steps[s].unit == q.steps[s].unit && p.steps[s].call == q.steps[s].call)
  }

  lemma SameShapeFits(p: Plan, q: Plan)
    requires WellFormed(p) && SameShape(p, q)
    ensures WellFormed(q)
  {
    assert |p.steps| == |p.steps.Keys| && |q.steps| == |q.steps.Keys|;
  }

  lemma SyncableRow(rows: Journal, p: Plan, q: Plan, s: StepId)
    requires Syncable(rows, p) && SameShape(p, q) && WellFormed(q) && s in q.steps
    ensures s in rows ==> Reusable(rows[s]) && SameBinding(rows[s], q, s)
    ensures Reusable(SyncedRow(rows, q, s)) && SameBinding(SyncedRow(rows, q, s), q, s)
  {
    assert s in p.steps;
  }

  /** Whether the journal accepts a plan does not depend on how far it has come, and an accepted snapshot
      is followed by others. */
  lemma SyncableAlike(rows: Journal, p: Plan, q: Plan)
    requires Syncable(rows, p) && SameShape(p, q)
    ensures Syncable(rows, q) && Syncable(Synced(rows, q), q)
  {
    SameShapeFits(p, q);
    var after := Synced(rows, q);
    forall s | s in q.steps
      ensures s in rows ==> Reusable(rows[s]) && SameBinding(rows[s], q, s)
      ensures s in after && Reusable(after[s]) && SameBinding(after[s], q, s)
    {
      SyncableRow(rows, p, q, s);
      assert after[s] == SyncedRow(rows, q, s);
    }
    assert forall s | s in after && s !in q.steps :: s in rows && after[s] == rows[s];
  }

  ghost predicate Ready(t: Turn, w: Token) {
    w in t.workers && Holds(t, w) && ControlCurrent(t.control) && t.barrier
  }

  /** Worker w stands in front of unit j; x is in this unit or a later one. */
  ghost predicate Before(t: Turn, w: Token, p: Plan, j: nat, x: StepId) {
    && Ready(t, w) && t.workers[w] == Between(p, j) && Syncable(t.journal, p)
    && x in p.steps && j <= p.steps[x].unit
    && forall s | s in p.steps && p.steps[s].unit >= j :: p.steps[s].state == Previewed
  }

  /** Worker w is in unit j; x is in this unit, untouched, or in a later one. */
  ghost predicate Inside(t: Turn, w: Token, p: Plan, j: nat, pending: set<StepId>, x: StepId) {
    && Ready(t, w) && t.workers[w] == InUnit(p, j, pending) && Syncable(t.journal, p)
    && x in p.steps && j <= p.steps[x].unit
    && forall s | s in p.steps && p.steps[s].unit > j :: p.steps[s].state == Previewed
  }

  lemma MayEnter(t: Turn, w: Token, p: Plan, j: nat, x: StepId)
    requires Before(t, w, p, j, x)
    ensures j < |p.units| && ValidUnits(p) && CanEnterUnit(t, w)
  {
    SyncableAlike(t.journal, p, SetUnit(p, j, UnitExecuting));
  }

  lemma Entered(t: Turn, w: Token, p: Plan, j: nat, x: StepId)
    requires Before(t, w, p, j, x) && j < |p.units| && ValidUnits(p)
    ensures Inside(EnterUnit(t, w), w, SetUnit(p, j, UnitExecuting), j, {}, x) && EnterUnit(t, w).durable == t.durable
  {
    SyncableAlike(t.journal, p, SetUnit(p, j, UnitExecuting));
  }

  lemma Enters(t: Turn, w: Token, p: Plan, j: nat, x: StepId) returns (t': Turn)
    requires Before(t, w, p, j, x)
    ensures j < |p.units| && TurnNext(t, BeforeUnit(w)) == Some(t')
    ensures Inside(t', w, SetUnit(p, j, UnitExecuting), j, {}, x) && t'.durable == t.durable
  {
    MayEnter(t, w, p, j, x);
    Entered(t, w, p, j, x);
    EnteringIs(t, w);
    t' := EnterUnit(t, w);
  }

  lemma SkipFits(rows: Journal, p: Plan, s: StepId)
    requires Syncable(rows, p) && s in p.steps
    ensures Syncable(rows, SetStep(p, s, StepSkipped))
  {
    SyncableAlike(rows, p, SetStep(p, s, StepSkipped));
  }

  lemma Skips(t: Turn, w: Token, p: Plan, j: nat, pending: set<StepId>, x: StepId, s: StepId) returns (t': Turn)
    requires Inside(t, w, p, j, pending, x) && j < p.steps[x].unit
    requires s in p.steps && p.steps[s].unit == j && p.steps[s].state == Previewed
    ensures TurnNext(t, SkipStep(w, s)) == Some(t')
    ensures Inside(t', w, SetStep(p, s, StepSkipped), j, pending, x) && t'.durable == t.durable
  {
    SkipFits(t.journal, p, s);
    t' := SetWorker(t, w, InUnit(SetStep(p, s, StepSkipped), j, pending));
    SkipIs(t, w, p, j, pending, s);
  }

  lemma SkipIs(t: Turn, w: Token, p: Plan, j: nat, pending: set<StepId>, s: StepId)
    requires w in t.workers && t.workers[w] == InUnit(p, j, pending) && j < |p.units|
    requires s in p.steps && p.steps[s].unit == j && p.steps[s].state == Previewed
    ensures TurnNext(t, SkipStep(w, s)) == Some(SetWorker(t, w, InUnit(SetStep(p, s, StepSkipped), j, pending)))
  {
  }

  lemma MayLeave(t: Turn, w: Token, p: Plan, j: nat, pending: set<StepId>, x: StepId)
    requires Inside(t, w, p, j, pending, x) && j < p.steps[x].unit && UnitFinished(p, j)
    ensures j < |p.units| && ValidUnits(p) && CanCommitUnit(t, w)
  {
    SyncableAlike(t.journal, p, SetUnit(p, j, UnitCompleted));
  }

  lemma LeftRow(t: Turn, w: Token, p: Plan, j: nat, pending: set<StepId>)
    requires Ready(t, w) && t.workers[w] == InUnit(p, j, pending) && j < |p.units| && ValidUnits(p)
    ensures var t' := CommitUnit(t, w);
            && Ready(t', w) && t'.workers[w] == Between(SetUnit(p, j, UnitCompleted), j + 1)
            && t'.journal == Synced(t.journal, SetUnit(p, j, UnitCompleted)) && t.durable <= t'.durable
  {
  }

  lemma Left(t: Turn, w: Token, p: Plan, j: nat, pending: set<StepId>, x: StepId)
    requires Inside(t, w, p, j, pending, x) && j < p.steps[x].unit && j < |p.units| && ValidUnits(p)
    ensures Before(CommitUnit(t, w), w, SetUnit(p, j, UnitCompleted), j + 1, x)
    ensures t.durable <= CommitUnit(t, w).durable
  {
    LeftRow(t, w, p, j, pending);
    SyncableAlike(t.journal, p, SetUnit(p, j, UnitCompleted));
  }

  lemma Leaves(t: Turn, w: Token, p: Plan, j: nat, pending: set<StepId>, x: StepId) returns (t': Turn)
    requires Inside(t, w, p, j, pending, x) && j < p.steps[x].unit && UnitFinished(p, j)
    ensures j < |p.units| && TurnNext(t, AfterUnit(w)) == Some(t')
    ensures Before(t', w, SetUnit(p, j, UnitCompleted), j + 1, x) && t.durable <= t'.durable
  {
    MayLeave(t, w, p, j, pending, x);
    Left(t, w, p, j, pending, x);
    LeavingIs(t, w);
    t' := CommitUnit(t, w);
  }

  function Pending(p: Plan, j: nat): set<StepId> {
    set s | s in p.steps && p.steps[s].unit == j && p.steps[s].state == Previewed
  }

  lemma PendingShrinks(p: Plan, j: nat, s: StepId)
    requires s in Pending(p, j)
    ensures |Pending(SetStep(p, s, StepSkipped), j)| < |Pending(p, j)|
  {
    assert Pending(SetStep(p, s, StepSkipped), j) == Pending(p, j) - {s};
  }

  lemma NothingPending(p: Plan, j: nat)
    requires Pending(p, j) == {}
    ensures UnitFinished(p, j)
  {
    forall s | s in p.steps && p.steps[s].unit == j
      ensures p.steps[s].state != Previewed
    {
      assert s !in Pending(p, j);
    }
  }

  lemma InsideRuns(start: Turn, t: Turn, w: Token, p: Plan, j: nat, pending: set<StepId>, x: StepId)
    requires Reaches(start, t) && Inside(t, w, p, j, pending, x) && x in t.durable
    requires p.steps[x] == p.steps[x].(unit := j, state := Previewed)
    ensures RunsAgain(start, x)
  {
    assert InFlight(t, w, x);
    assert TurnNext(t, RunStep(w, x)).Some?;
  }

  lemma {:induction false} FromInside(start: Turn, t: Turn, w: Token, p: Plan, j: nat, pending: set<StepId>, x: StepId)
    requires Reaches(start, t) && Inside(t, w, p, j, pending, x) && j < p.steps[x].unit && x in t.durable
    ensures RunsAgain(start, x)
    decreases p.steps[x].unit - j, 0, |Pending(p, j)|
  {
    if s :| s in Pending(p, j) {
      var t' := Skips(t, w, p, j, pending, x, s);
      PendingShrinks(p, j, s);
      ReachesNext(start, t, Act(SkipStep(w, s)), t');
      FromInside(start, t', w, SetStep(p, s, StepSkipped), j, pending, x);
    } else {
      NothingPending(p, j);
      var t' := Leaves(t, w, p, j, pending, x);
      ReachesNext(start, t, Act(AfterUnit(w)), t');
      FromBefore(start, t', w, SetUnit(p, j, UnitCompleted), j + 1, x);
    }
  }

  /** Unit by unit: skip what stands in front of x, then run x. */
  lemma {:induction false} FromBefore(start: Turn, t: Turn, w: Token, p: Plan, j: nat, x: StepId)
    requires Reaches(start, t) && Before(t, w, p, j, x) && x in t.durable
    ensures RunsAgain(start, x)
    decreases p.steps[x].unit - j, 1, 0
  {
    var t' := Enters(t, w, p, j, x);
    ReachesNext(start, t, Act(BeforeUnit(w)), t');
    if j < p.steps[x].unit {
      FromInside(start, t', w, SetUnit(p, j, UnitExecuting), j, {}, x);
    } else {
      InsideRuns(start, t', w, SetUnit(p, j, UnitExecuting), j, {}, x);
    }
  }

  // ----- From the parked turn to the first unit -----

  lemma {:induction false} Unused(ws: set<Token>) returns (w: Token)
    ensures forall v | v in ws :: v < w
  {
    if ws == {} { return 0; }
    var v :| v in ws;
    var u := Unused(ws - {v});
    w := if u > v then u else v + 1;
    assert forall y | y in ws :: y == v || y in ws - {v};
  }

  /** The parked row, with its approved plan and a new lease holder that has not started. */
  lemma Reclaimed(parked: Turn, w: Token) returns (t: Turn)
    requires CanDecide(parked, true) && w !in parked.workers
    ensures Reaches(parked, t) && w in t.workers && t.workers[w] == Launched && Holds(t, w)
    ensures t == parked.(state := Running, token := Some(w), authorized := true, workers := t.workers, hasResult := false,
                         queuedAt := t.queuedAt, claimedAt := t.claimedAt, attempts := t.attempts,
                         maxAttempts := t.maxAttempts, approvals := t.approvals)
  {
    ReachesItself(parked);
    var approved := ApproveTurn(parked, 0, true).value;
    ReachesNext(parked, parked, Act(Approve(0, true)), approved);
    t := ClaimTurn(approved, w, 0);
    ReachesNext(parked, approved, Take(w, 0), t);
  }

  ghost predicate ParkedFrom(t: Turn, v: Token, proposal: Plan, p: Turn) {
    && p.state == AwaitingConfirmation && p.plan == Some(proposal) && p.barrier == t.barrier && p.control == t.control
    && p.journal == t.journal && p.durable == t.durable && p.workers == t.workers - {v} && !p.authorized
    && p.token.None?
  }

  lemma ParkedKeeps(t: Turn, v: Token, proposal: Plan)
    requires TurnNext(t, PersistAwaiting(v, proposal)).Some?
    ensures ParkedFrom(t, v, proposal, TurnNext(t, PersistAwaiting(v, proposal)).value)
  {
  }

  /** The approved plan is fresh and the journal accepts it: the new worker runs it from the start. */
  lemma AcceptedRunsAgain(parked: Turn, proposal: Plan, x: StepId)
    requires CanDecide(parked, true) && parked.plan == Some(proposal) && parked.barrier && ControlCurrent(parked.control)
    requires Fresh(proposal) && Syncable(parked.journal, proposal) && x in proposal.steps && x in parked.durable
    ensures RunsAgain(parked, x)
  {
    var w := Unused(parked.workers.Keys);
    var claimed := Reclaimed(parked, w);
    var t := SetWorker(claimed, w, Between(proposal, 0));
    ReachesNext(parked, claimed, Act(Begin(w)), t);
    FromBefore(parked, t, w, proposal, 0, x);
  }

  /** A durable step of a sound running turn has a row that can still be found. */
  lemma DurableRow(t: Turn, x: StepId)
    requires EffectInv(t) && t.state == Running && x in t.durable
    ensures x in t.journal && Reusable(t.journal[x])
  {
    DurableEffectIsReported(t, x);
  }

  // ----- A parked plan that the journal refuses -----

  predicate SingleAtomic(p: Plan) {
    |p.units| == 1 && p.units[0].mode == OdooAtomic
  }

  /** Nothing this worker may still do runs x, and it has no repair that withdraws a barrier. */
  predicate Harmless(u: Worker, x: StepId) {
    u.InUnit? ==>
      && !SingleAtomic(u.plan)
      && !(u.k < |u.plan.units| && x in u.plan.steps && u.plan.steps[x].unit == u.k && u.plan.steps[x].state == Previewed)
  }

  predicate AllHarmless(t: Turn, x: StepId) {
    forall w | w in t.workers :: Harmless(t.workers[w], x)
  }

  /** The parked turn before it ends: plan, journal and barrier are as they were parked. */
  ghost predicate Stranded(t: Turn, rows: Journal, p: Plan, stopped: bool, x: StepId) {
    && RowInv(t) && !Terminal(t.state) && t.barrier && t.journal == rows && t.plan == Some(p)
    && (t.authorized <==> t.state != AwaitingConfirmation)
    && (stopped ==> t.control.cancel)
    && AllHarmless(t, x) && HolderWaits(t, p)
  }

  /** After it has ended: a turn under review has the rows that the parked plan classified. */
  ghost predicate Ended(t: Turn, rows: Journal, p: Plan, stopped: bool, x: StepId) {
    && RowInv(t) && Terminal(t.state) && AllHarmless(t, x)
    && (t.state == RecoveryRequired ==> !stopped && t.barrier && t.journal == Marked(rows, Some(p)))
  }

  ghost predicate Refused(rows: Journal, p: Plan) {
    !(Fresh(p) && Syncable(rows, p))
  }

  ghost predicate StrandedOrEnded(t: Turn, rows: Journal, p: Plan, stopped: bool, x: StepId) {
    Stranded(t, rows, p, stopped, x) || Ended(t, rows, p, stopped, x)
  }

  lemma SetHarmless(t: Turn, t': Turn, w: Token, u: Worker, x: StepId)
    requires AllHarmless(t, x) && Harmless(u, x) && t'.workers == t.workers[w := u]
    ensures AllHarmless(t', x)
  {
  }

  lemma DropHarmless(t: Turn, t': Turn, w: Token, x: StepId)
    requires AllHarmless(t, x) && t'.workers == t.workers - {w}
    ensures AllHarmless(t', x)
  {
  }

  lemma StepHarmless(u: Worker, y: StepId, s: StepState, pending: set<StepId>, x: StepId)
    requires u.InUnit? && Harmless(u, x) && y in u.plan.steps && s != Previewed
    ensures Harmless(InUnit(SetStep(u.plan, y, s), u.k, pending), x)
  {
  }

  /** What a worker other than the lease holder can do to the row: nothing but the control row. */
  ghost predicate RowKept(t: Turn, t': Turn) {
    && t'.state == t.state && t'.token == t.token && t'.barrier == t.barrier && t'.journal == t.journal
    && t'.plan == t.plan && t'.authorized == t.authorized && (t.control.cancel ==> t'.control.cancel)
  }

  lemma KeptIsStranded(t: Turn, t': Turn, rows: Journal, p: Plan, stopped: bool, x: StepId)
    requires StrandedOrEnded(t, rows, p, stopped, x) && RowKept(t, t') && RowInv(t') && AllHarmless(t', x)
    requires Stranded(t, rows, p, stopped, x) ==> HolderWaits(t', p)
    ensures StrandedOrEnded(t', rows, p, stopped, x)
  {
  }

  lemma BeginStrands(t: Turn, w: Token, rows: Journal, p: Plan, stopped: bool, x: StepId)
    requires StrandedOrEnded(t, rows, p, stopped, x) && TurnNext(t, Begin(w)).Some?
    ensures StrandedOrEnded(TurnNext(t, Begin(w)).value, rows, p, stopped, x)
  {
    var t' := TurnNext(t, Begin(w)).value;
    StepKeepsRowInv(t, Begin(w));
    if Holds(t, w) { SetHarmless(t, t', w, FirstJob(t), x); } else { DropHarmless(t, t', w, x); }
    KeptIsStranded(t, t', rows, p, stopped, x);
  }

  lemma OpenStrands(t: Turn, e: Event, rows: Journal, p: Plan, stopped: bool, x: StepId)
    requires StrandedOrEnded(t, rows, p, stopped, x) && (e.MarkApplied? || e.StartExecution?) && TurnNext(t, e).Some?
    ensures StrandedOrEnded(TurnNext(t, e).value, rows, p, stopped, x)
  {
    var t' := TurnNext(t, e).value;
    StepKeepsRowInv(t, e);
    if e.StartExecution? { SetHarmless(t, t', e.w, Between(e.proposal, 0), x); }
    KeptIsStranded(t, t', rows, p, stopped, x);
  }

  lemma RunStrands(t: Turn, w: Token, y: StepId, rows: Journal, p: Plan, stopped: bool, x: StepId)
    requires StrandedOrEnded(t, rows, p, stopped, x) && TurnNext(t, RunStep(w, y)).Some?
    ensures StrandedOrEnded(TurnNext(t, RunStep(w, y)).value, rows, p, stopped, x)
  {
    var t' := TurnNext(t, RunStep(w, y)).value;
    StepKeepsRowInv(t, RunStep(w, y));
    StepHarmless(t.workers[w], y, StepDone, t'.workers[w].pending, x);
    SetHarmless(t, t', w, t'.workers[w], x);
    KeptIsStranded(t, t', rows, p, stopped, x);
  }

  lemma SkipStrands(t: Turn, w: Token, y: StepId, rows: Journal, p: Plan, stopped: bool, x: StepId)
    requires StrandedOrEnded(t, rows, p, stopped, x) && TurnNext(t, SkipStep(w, y)).Some?
    ensures StrandedOrEnded(TurnNext(t, SkipStep(w, y)).value, rows, p, stopped, x)
  {
    var t' := TurnNext(t, SkipStep(w, y)).value;
    StepKeepsRowInv(t, SkipStep(w, y));
    StepHarmless(t.workers[w], y, StepSkipped, t'.workers[w].pending, x);
    SetHarmless(t, t', w, t'.workers[w], x);
    KeptIsStranded(t, t', rows, p, stopped, x);
  }

  lemma DroppedStrands(t: Turn, w: Token, rows: Journal, p: Plan, stopped: bool, x: StepId)
    requires StrandedOrEnded(t, rows, p, stopped, x) && w in t.workers
    ensures StrandedOrEnded(Forget(t, w), rows, p, stopped, x)
  {
    DropHarmless(t, Forget(t, w), w, x);
    assert RowInv(Forget(t, w));
    KeptIsStranded(t, Forget(t, w), rows, p, stopped, x);
  }

  lemma FinishStrands(t: Turn, e: Event, rows: Journal, p: Plan, stopped: bool, x: StepId)
    requires StrandedOrEnded(t, rows, p, stopped, x) && (e.FinishPlan? || e.Raise?) && TurnNext(t, e).Some?
    ensures StrandedOrEnded(TurnNext(t, e).value, rows, p, stopped, x)
  {
    var t' := TurnNext(t, e).value;
    StepKeepsRowInv(t, e);
    SetHarmless(t, t', e.w, t'.workers[e.w], x);
    KeptIsStranded(t, t', rows, p, stopped, x);
  }

  lemma HolderHasNotStarted(t: Turn, w: Token, rows: Journal, p: Plan, stopped: bool, x: StepId)
    requires StrandedOrEnded(t, rows, p, stopped, x) && w in t.workers && Holds(t, w)
    ensures t.workers[w] == Launched || t.workers[w] == Failing || t.workers[w] == Between(p, 0)
  {
  }

  lemma EnteredIsAccepted(rows: Journal, p: Plan)
    requires Fresh(p) && Syncable(rows, SetUnit(p, 0, UnitExecuting))
    ensures Syncable(rows, p)
  {
    var q := SetUnit(p, 0, UnitExecuting);
    assert SameShape(q, p);
    SyncableAlike(rows, q, p);
  }

  lemma EnteringNeedsFresh(t: Turn, w: Token, rows: Journal, p: Plan, stopped: bool, x: StepId)
    requires StrandedOrEnded(t, rows, p, stopped, x) && w in t.workers && CanEnterUnit(t, w)
    ensures Fresh(p) && Syncable(rows, SetUnit(p, 0, UnitExecuting))
  {
    HolderHasNotStarted(t, w, rows, p, stopped, x);
  }

  /** The checkpoint in front of the parked plan is the one that fails. */
  lemma NoneEntersUnit(t: Turn, w: Token, rows: Journal, p: Plan, stopped: bool, x: StepId)
    requires StrandedOrEnded(t, rows, p, stopped, x)
    ensures TurnNext(t, BeforeUnit(w)).Some? ==> !Refused(rows, p)
  {
    if w in t.workers && CanEnterUnit(t, w) {
      EnteringNeedsFresh(t, w, rows, p, stopped, x);
      EnteredIsAccepted(rows, p);
    }
  }

  lemma NoneCommits(t: Turn, e: Event, rows: Journal, p: Plan, stopped: bool, x: StepId)
    requires StrandedOrEnded(t, rows, p, stopped, x) && (e.AfterUnit? || e.PersistTranscript? || e.Complete?)
    ensures TurnNext(t, e).None?
  {
    if Stranded(t, rows, p, stopped, x) { WaitingHolderCommitsNothing(t, e, p); }
    else if TurnNext(t, e).Some? { CommitNeedsWork(t, e); }
  }

  lemma RepairStrands(t: Turn, w: Token, rows: Journal, p: Plan, stopped: bool, x: StepId)
    requires StrandedOrEnded(t, rows, p, stopped, x) && TurnNext(t, Repair(w)).Some?
    ensures StrandedOrEnded(TurnNext(t, Repair(w)).value, rows, p, stopped, x)
  {
    StepKeepsRowInv(t, Repair(w));
    assert Harmless(t.workers[w], x);
    assert !RolledBackUnit(t, w);
    SetHarmless(t, TurnNext(t, Repair(w)).value, w, Reasoning, x);
  }

  lemma FailEnds(t: Turn, w: Token, kind: FailureKind, now: nat, rows: Journal, p: Plan, stopped: bool, x: StepId)
    requires Stranded(t, rows, p, stopped, x) && t.token == Some(w) && TurnNext(t, Fail(w, kind, now)).Some?
    ensures Ended(TurnNext(t, Fail(w, kind, now)).value, rows, p, stopped, x)
  {
    StepKeepsRowInv(t, Fail(w, kind, now));
    DropHarmless(t, TurnNext(t, Fail(w, kind, now)).value, w, x);
  }

  lemma CancelEnds(t: Turn, w: Token, rows: Journal, p: Plan, stopped: bool, x: StepId)
    requires Stranded(t, rows, p, stopped, x) && t.token == Some(w) && TurnNext(t, CancelClaimed(w)).Some?
    ensures Ended(TurnNext(t, CancelClaimed(w)).value, rows, p, stopped, x)
  {
    StepKeepsRowInv(t, CancelClaimed(w));
    DropHarmless(t, TurnNext(t, CancelClaimed(w)).value, w, x);
  }

  lemma LeaveStrands(t: Turn, e: Event, rows: Journal, p: Plan, stopped: bool, x: StepId)
    requires StrandedOrEnded(t, rows, p, stopped, x) && (e.Fail? || e.CancelClaimed?) && TurnNext(t, e).Some?
    ensures StrandedOrEnded(TurnNext(t, e).value, rows, p, stopped, x)
  {
    if t.token != Some(e.w) {
      LeaseIsChecked(t, e, e.w);
      DroppedStrands(t, e.w, rows, p, stopped, x);
    } else if e.Fail? {
      FailEnds(t, e.w, e.kind, e.now, rows, p, stopped, x);
    } else {
      CancelEnds(t, e.w, rows, p, stopped, x);
    }
  }

  lemma RecoverStrands(t: Turn, now: nat, rows: Journal, p: Plan, stopped: bool, x: StepId)
    requires StrandedOrEnded(t, rows, p, stopped, x) && TurnNext(t, RecoverStale(now)).Some?
    ensures StrandedOrEnded(TurnNext(t, RecoverStale(now)).value, rows, p, stopped, x)
  {
    StepKeepsRowInv(t, RecoverStale(now));
  }

  lemma StopStrands(t: Turn, rowLocked: bool, rows: Journal, p: Plan, stopped: bool, x: StepId)
    requires StrandedOrEnded(t, rows, p, stopped, x)
    ensures StrandedOrEnded(StopTurn(t, rowLocked), rows, p, stopped, x)
  {
    assert TurnNext(t, Stop(rowLocked)) == Some(StopTurn(t, rowLocked));
    StepKeepsRowInv(t, Stop(rowLocked));
  }

  lemma DecisionStrands(t: Turn, e: Event, rows: Journal, p: Plan, stopped: bool, x: StepId)
    requires StrandedOrEnded(t, rows, p, stopped, x) && (e.Approve? || e.Reject? || e.Reconcile?) && TurnNext(t, e).Some?
    ensures StrandedOrEnded(TurnNext(t, e).value, rows, p, stopped, x)
  {
    StepKeepsRowInv(t, e);
  }

  lemma UserStrands(t: Turn, e: Event, rows: Journal, p: Plan, stopped: bool, x: StepId)
    requires StrandedOrEnded(t, rows, p, stopped, x) && WorkerOf(e).None? && TurnNext(t, e).Some?
    ensures StrandedOrEnded(TurnNext(t, e).value, rows, p, stopped, x)
  {
    match e
    case RecoverStale(now) => RecoverStrands(t, now, rows, p, stopped, x);
    case Stop(rowLocked) => StopStrands(t, rowLocked, rows, p, stopped, x);
    case Redirect(clientId, message, within, now) => NoRedirect(t, clientId, message, within, now, rows, p, stopped, x);
    case _ => DecisionStrands(t, e, rows, p, stopped, x);
  }

  lemma NoRedirect(t: Turn, clientId: string, message: string, within: bool, now: nat, rows: Journal, p: Plan,
                   stopped: bool, x: StepId)
    requires StrandedOrEnded(t, rows, p, stopped, x)
    ensures TurnNext(t, Redirect(clientId, message, within, now)).None?
  {
  }

  lemma EventStrands(t: Turn, e: Event, rows: Journal, p: Plan, stopped: bool, x: StepId)
    requires StrandedOrEnded(t, rows, p, stopped, x) && Refused(rows, p) && !e.PersistAwaiting? && TurnNext(t, e).Some?
    ensures StrandedOrEnded(TurnNext(t, e).value, rows, p, stopped, x)
  {
    if WorkerOf(e).None? { UserStrands(t, e, rows, p, stopped, x); }
    else if e.Begin? { BeginStrands(t, e.w, rows, p, stopped, x); }
    else if e.MarkApplied? || e.StartExecution? { OpenStrands(t, e, rows, p, stopped, x); }
    else if e.RunStep? { RunStrands(t, e.w, e.x, rows, p, stopped, x); }
    else if e.SkipStep? { SkipStrands(t, e.w, e.x, rows, p, stopped, x); }
    else if e.FinishPlan? || e.Raise? { FinishStrands(t, e, rows, p, stopped, x); }
    else if e.Crash? { DroppedStrands(t, e.w, rows, p, stopped, x); }
    else if e.Repair? { RepairStrands(t, e.w, rows, p, stopped, x); }
    else if e.Fail? || e.CancelClaimed? { LeaveStrands(t, e, rows, p, stopped, x); }
    else if e.BeforeUnit? { NoneEntersUnit(t, e.w, rows, p, stopped, x); }
    else { NoneCommits(t, e, rows, p, stopped, x); }
  }

  lemma ClaimStrands(t: Turn, w: Token, now: nat, rows: Journal, p: Plan, stopped: bool, x: StepId)
    requires StrandedOrEnded(t, rows, p, stopped, x) && Claimable(t) && w !in t.workers
    ensures StrandedOrEnded(ClaimTurn(t, w, now), rows, p, stopped, x)
  {
    SetHarmless(t, ClaimTurn(t, w, now), w, Launched, x);
  }

  lemma {:induction false} TraceStrands(ts: seq<Turn>, ms: seq<Move>, i: nat, rows: Journal, p: Plan, stopped: bool, x: StepId)
    requires Trace(ts, ms) && i < |ts| && StrandedOrEnded(ts[0], rows, p, stopped, x) && Refused(rows, p)
    ensures StrandedOrEnded(ts[i], rows, p, stopped, x)
  {
    if i > 0 {
      TraceStrands(ts, ms, i - 1, rows, p, stopped, x);
      assert MoveNext(ts[i - 1], ms[i - 1]) == Some(ts[i]);
      match ms[i - 1]
      case Act(e) => EventStrands(ts[i - 1], e, rows, p, stopped, x);
      case Take(w, now) => ClaimStrands(ts[i - 1], w, now, rows, p, stopped, x);
    }
  }

  lemma ReachesStrands(t: Turn, t': Turn, rows: Journal, p: Plan, stopped: bool, x: StepId)
    requires Reaches(t, t') && StrandedOrEnded(t, rows, p, stopped, x) && Refused(rows, p)
    ensures StrandedOrEnded(t', rows, p, stopped, x)
  {
    var ts, ms :| Connects(ts, ms, t, t');
    TraceStrands(ts, ms, |ms|, rows, p, stopped, x);
  }

  lemma HarmlessRefuses(t: Turn, w: Token, x: StepId)
    requires AllHarmless(t, x)
    ensures TurnNext(t, RunStep(w, x)).None?
  {
    if w in t.workers { assert Harmless(t.workers[w], x); }
  }

  lemma RefusedNeverRuns(parked: Turn, rows: Journal, p: Plan, stopped: bool, x: StepId)
    requires StrandedOrEnded(parked, rows, p, stopped, x) && Refused(rows, p)
    ensures !RunsAgain(parked, x)
  {
    forall t', w | Reaches(parked, t')
      ensures TurnNext(t', RunStep(w, x)).None?
    {
      ReachesStrands(parked, t', rows, p, stopped, x);
      HarmlessRefuses(t', w, x);
    }
  }

  // ----- The parked turn -----

  lemma OldWorkerIsHarmless(t: Turn, w: Token, x: StepId)
    requires Inv(t) && t.barrier && x in t.durable && w in t.workers
    ensures Harmless(t.workers[w], x)
  {
    if t.workers[w].InUnit? {
      assert WorkerFits(t, w, t.workers[w]);
      if SingleAtomic(t.workers[w].plan) { AtomicLeavesNothing(t, t.workers[w].plan, x); }
      if InFlight(t, w, x) { RunStepKeeps(t, w, x); }
    }
  }

  /** While the only unit of a plan, an atomic one, executes, nothing of the turn is durable. */
  lemma AtomicLeavesNothing(t: Turn, p: Plan, x: StepId)
    requires EffectInv(t) && t.barrier && SingleAtomic(p) && t.plan == Some(Rewind(p, 0))
    ensures x !in t.durable
  {
    var q := Rewind(p, 0);
    assert q.units == [Unit(OdooAtomic, UnitExecuting)];
    assert x in q.steps ==> q.steps[x].unit == 0;
  }

  lemma ParkedStrands(t: Turn, v: Token, proposal: Plan, x: StepId)
    requires Inv(t) && t.state == Running && t.barrier && x in t.durable
    requires TurnNext(t, PersistAwaiting(v, proposal)).Some?
    ensures Stranded(TurnNext(t, PersistAwaiting(v, proposal)).value, t.journal, proposal, t.control.cancel, x)
  {
    var parked := TurnNext(t, PersistAwaiting(v, proposal)).value;
    ParkedKeeps(t, v, proposal);
    StepKeepsRowInv(t, PersistAwaiting(v, proposal));
    forall w | w in parked.workers
      ensures Harmless(parked.workers[w], x)
    {
      OldWorkerIsHarmless(t, w, x);
    }
  }

  lemma ParkedIsQuiet(t: Turn, v: Token, proposal: Plan, x: StepId)
    requires Inv(t) && x in t.durable && t.control.cancel && TurnNext(t, PersistAwaiting(v, proposal)).Some?
    ensures Quiet(TurnNext(t, PersistAwaiting(v, proposal)).value, x)
  {
    var parked := TurnNext(t, PersistAwaiting(v, proposal)).value;
    ParkedKeeps(t, v, proposal);
    forall w | w in parked.workers
      ensures !InFlight(parked, w, x)
    {
      if InFlight(t, w, x) { RunStepKeeps(t, w, x); }
    }
  }

  lemma ParkedRunsAgain(t: Turn, v: Token, proposal: Plan, x: StepId)
    requires Inv(t) && t.state == Running && t.barrier && x in t.durable && !t.control.cancel
    requires TurnNext(t, PersistAwaiting(v, proposal)).Some? && Fresh(proposal) && Syncable(t.journal, proposal)
    ensures RunsAgain(TurnNext(t, PersistAwaiting(v, proposal)).value, x)
  {
    ParkedKeeps(t, v, proposal);
    DurableRow(t, x);
    AcceptedRunsAgain(TurnNext(t, PersistAwaiting(v, proposal)).value, proposal, x);
  }

  /** A running turn is parked while its barrier stands. A step whose effect is out has a continuation in
      which it runs once more if and only if no stop was accepted before, the parked plan is a fresh one
      and the journal accepts it. */
  lemma ParkedMayRunAgainExactly(t: Turn, v: Token, proposal: Plan, x: StepId)
    requires Inv(t) && t.state == Running && t.barrier && x in t.durable
    requires TurnNext(t, PersistAwaiting(v, proposal)).Some?
    ensures RunsAgain(TurnNext(t, PersistAwaiting(v, proposal)).value, x) <==>
              !t.control.cancel && Fresh(proposal) && Syncable(t.journal, proposal)
  {
    var parked := TurnNext(t, PersistAwaiting(v, proposal)).value;
    if t.control.cancel {
      ParkedIsQuiet(t, v, proposal, x);
      QuietNeverRuns(parked, x);
    } else if Refused(t.journal, proposal) {
      ParkedStrands(t, v, proposal, x);
      RefusedNeverRuns(parked, t.journal, proposal, false, x);
    } else {
      ParkedRunsAgain(t, v, proposal, x);
    }
  }

  // ----- A review of the parked turn -----

  /** A continuation comes to a review that may be closed as "no change was confirmed" while the effect of
      x is out. */
  ghost predicate ClosedFalsely(t: Turn, x: StepId) {
    exists t' :: Reaches(t, t') && x in t'.durable && TurnNext(t', Reconcile(true)).Some?
  }

  lemma ReviewNeedsRows(parked: Turn, rows: Journal, p: Plan, stopped: bool, x: StepId)
    requires Stranded(parked, rows, p, stopped, x) && Refused(rows, p) && ClosedFalsely(parked, x)
    ensures !stopped && AllRolledBack(Marked(rows, Some(p)))
  {
    var t' :| Reaches(parked, t') && x in t'.durable && TurnNext(t', Reconcile(true)).Some?;
    ReachesStrands(parked, t', rows, p, stopped, x);
  }

  lemma FailsIntoReview(t: Turn, w: Token)
    requires w in t.workers && t.workers[w] == Failing && Holds(t, w) && t.barrier && !t.control.cancel
    ensures TurnNext(t, Fail(w, Permanent, 0)) == Some(Forget(Settle(t, RecoveryRequired), w))
  {
  }

  lemma ReviewOpens(t: Turn)
    requires t.state == RecoveryRequired && t.barrier && AllRolledBack(t.journal)
    ensures TurnNext(t, Reconcile(true)).Some?
  {
  }

  /** Approved, claimed, failed: the rows are classified by the parked plan. */
  lemma ReviewComes(parked: Turn, p: Plan, x: StepId)
    requires CanDecide(parked, true) && parked.plan == Some(p) && parked.barrier && !parked.control.cancel
    requires AllRolledBack(Marked(parked.journal, Some(p))) && x in parked.durable
    ensures ClosedFalsely(parked, x)
  {
    var w := Unused(parked.workers.Keys);
    var claimed := Reclaimed(parked, w);
    var failing := SetWorker(claimed, w, Failing);
    ReachesNext(parked, claimed, Act(Raise(w)), failing);
    FailsIntoReview(failing, w);
    var review := Forget(Settle(failing, RecoveryRequired), w);
    ReachesNext(parked, failing, Act(Fail(w, Permanent, 0)), review);
    ReviewOpens(review);
  }

  /** A running turn is parked, while its barrier stands, with a plan that the journal refuses. A review
      may be closed as "no change was confirmed", although an effect is out, if and only if no stop was
      accepted before and the units of the parked plan turn every row into rolled back or skipped. */
  lemma ParkedMayBeClosedExactly(t: Turn, v: Token, proposal: Plan, x: StepId)
    requires Inv(t) && t.state == Running && t.barrier && x in t.durable && Refused(t.journal, proposal)
    requires TurnNext(t, PersistAwaiting(v, proposal)).Some?
    ensures ClosedFalsely(TurnNext(t, PersistAwaiting(v, proposal)).value, x) <==>
              !t.control.cancel && AllRolledBack(Marked(t.journal, Some(proposal)))
  {
    var parked := TurnNext(t, PersistAwaiting(v, proposal)).value;
    ParkedKeeps(t, v, proposal);
    ParkedStrands(t, v, proposal, x);
    if ClosedFalsely(parked, x) { ReviewNeedsRows(parked, t.journal, proposal, t.control.cancel, x); }
    if !t.control.cancel && AllRolledBack(Marked(t.journal, Some(proposal))) { ReviewComes(parked, proposal, x); }
  }
}
