/** Everything that can happen to one turn, one database commit at a time.
    `None` means that the request or the worker's check was refused and nothing was written. */
module TurnSteps {
  import opened Prelude
  import opened TurnTypes
  import opened EffectJournal

  /** How a worker's exception is classified before it is stored. */
  datatype FailureKind =
    | Redirected                 // the control row moved on: `agent_redirected`
    | Transient                  // any code outside the non-retryable list
    | Permanent                  // a code of the non-retryable list
    | Structured(safe: bool)     // a provider failure envelope, retried only when marked safe

  predicate Retryable(kind: FailureKind) {
    kind.Redirected? || kind.Transient? || (kind.Structured? && kind.safe)
  }

  datatype Event =
    | Begin(w: Token)
    | CancelClaimed(w: Token)
    | MarkApplied(w: Token, sequence: nat)
    | PersistAwaiting(w: Token, proposal: Plan)
    | StartExecution(w: Token, proposal: Plan)
    | BeforeUnit(w: Token)
    | RunStep(w: Token, x: StepId)
    | SkipStep(w: Token, x: StepId)
    | AfterUnit(w: Token)
    | FinishPlan(w: Token)
    | PersistTranscript(w: Token)
    | Complete(w: Token)
    | Repair(w: Token)
    | Raise(w: Token)
    | Fail(w: Token, kind: FailureKind, now: nat)
    | Crash(w: Token)
    | RecoverStale(now: nat)
    | Stop(rowLocked: bool)
    | Redirect(clientId: string, message: string, withinBudget: bool, now: nat)
    | Approve(now: nat, planWaiting: bool)
    | Reject(planWaiting: bool)
    | Reconcile(envelopeReadable: bool)

  // ----- Shared transitions -----

  /** Leave the active states for good. The model's write hook classifies the journal when the
      turn stops behind a committed barrier. */
  function Settle(t: Turn, s: TurnState): Turn {
    t.(state := s, token := None,
       journal := if t.barrier then Marked(t.journal, t.plan) else t.journal)
  }

  function Requeue(t: Turn, now: nat): Turn {
    t.(state := Queued, queuedAt := now, token := None)
  }

  function Forget(t: Turn, w: Token): Turn {
    t.(workers := t.workers - {w})
  }

  function SetWorker(t: Turn, w: Token, worker: Worker): Turn {
    t.(workers := t.workers[w := worker])
  }

  // ----- The worker -----

  function ClaimTurn(t: Turn, w: Token, now: nat): Turn {
    t.(state := Running, attempts := t.attempts + 1, claimedAt := Some(now), token := Some(w),
       workers := t.workers[w := Launched])
  }

  /** What a lease holder starts with: the stored plan when it was approved, and else the model. A
      stored plan that does not validate is an error. */
  function FirstJob(t: Turn): Worker {
    if !t.authorized || t.plan.None? then Reasoning
    else if Fresh(t.plan.value) then Between(t.plan.value, 0)
    else Failing
  }

  /** The opening check of the work transaction; a superseded worker just leaves. */
  function BeginWork(t: Turn, w: Token): Option<Turn>
    requires w in t.workers
  {
    if !t.workers[w].Launched? then None
    else if Holds(t, w) then Some(SetWorker(t, w, FirstJob(t)))
    else Some(Forget(t, w))
  }

  function CancelClaimedTurn(t: Turn, w: Token): Option<Turn>
    requires w in t.workers
  {
    if !t.workers[w].Launched? || !(t.state == CancelRequested || t.control.cancel) then None
    else if t.token != Some(w) then Some(Forget(t, w))
    else Some(Forget(Settle(t, Cancelled), w))
  }

  function MarkControlApplied(c: Control, sequence: nat): Option<Control> {
    if sequence > c.sequence then None
    else if sequence <= c.applied then Some(c)
    else Some(c.(applied := sequence,
                 rows := seq(|c.rows|, i requires 0 <= i < |c.rows| =>
                   if c.rows[i].sequence <= sequence then c.rows[i].(applied := true) else c.rows[i])))
  }

  /** Park the turn until the user decides. The code writes this without looking at the lease. */
  function PersistAwaitingPlan(t: Turn, w: Token, proposal: Plan): Option<Turn>
    requires w in t.workers
  {
    if !t.workers[w].Reasoning? then None
    else Some(Forget(t.(state := AwaitingConfirmation, plan := Some(proposal), authorized := false,
                        hasResult := true, token := None), w))
  }

  ghost predicate CanStart(t: Turn, w: Token, proposal: Plan)
    requires w in t.workers
  {
    t.workers[w].Reasoning? && Fresh(proposal)
  }

  /** Checkpoint before a recovery unit, under the effect lock: lease, stop/redirect, journal
      intent and write barrier in one commit. */
  ghost predicate CanEnterUnit(t: Turn, w: Token)
    requires w in t.workers
  {
    && t.workers[w].Between?
    && t.workers[w].next < |t.workers[w].plan.units|
    && Holds(t, w)
    && ControlCurrent(t.control)
    && Syncable(t.journal, SetUnit(t.workers[w].plan, t.workers[w].next, UnitExecuting))
  }

  function EnterUnit(t: Turn, w: Token): Turn
    requires w in t.workers && t.workers[w].Between? && t.workers[w].next < |t.workers[w].plan.units|
    requires forall x | x in t.workers[w].plan.steps ::
               t.workers[w].plan.steps[x].unit < |t.workers[w].plan.units|
  {
    var p := SetUnit(t.workers[w].plan, t.workers[w].next, UnitExecuting);
    SetWorker(t, w, InUnit(p, t.workers[w].next, {}))
      .(barrier := true, plan := Some(p), authorized := false, journal := Synced(t.journal, p))
  }

  predicate InFlight(t: Turn, w: Token, x: StepId)
    requires w in t.workers
  {
    && t.workers[w].InUnit?
    && t.workers[w].k < |t.workers[w].plan.units|
    && x in t.workers[w].plan.steps
    && t.workers[w].plan.steps[x].unit == t.workers[w].k
    && t.workers[w].plan.steps[x].state == Previewed
  }

  /** Run one step. An external effect is out at once, whatever the database does later; any other
      effect stays inside the worker's open transaction. */
  function RunPlanStep(t: Turn, w: Token, x: StepId): Option<Turn>
    requires w in t.workers
  {
    if !InFlight(t, w, x) then None
    else
      var u := t.workers[w];
      var external := u.plan.units[u.k].mode.External?;
      var pending := if external then u.pending else u.pending + {x};
      Some(SetWorker(t, w, InUnit(SetStep(u.plan, x, StepDone), u.k, pending))
             .(durable := if external then t.durable + {x} else t.durable))
  }

  function SkipPlanStep(t: Turn, w: Token, x: StepId): Option<Turn>
    requires w in t.workers
  {
    if !InFlight(t, w, x) then None
    else
      var u := t.workers[w];
      Some(SetWorker(t, w, InUnit(SetStep(u.plan, x, StepSkipped), u.k, u.pending)))
  }

  predicate ValidUnits(p: Plan) {
    forall x | x in p.steps :: p.steps[x].unit < |p.units|
  }

  ghost predicate CanLeaveUnit(t: Turn, w: Token)
    requires w in t.workers
  {
    && t.workers[w].InUnit?
    && t.workers[w].k < |t.workers[w].plan.units|
    && UnitFinished(t.workers[w].plan, t.workers[w].k)
  }

  /** Checkpoint after a unit that is not the last: its effects, receipts and the plan commit together. */
  ghost predicate CanCommitUnit(t: Turn, w: Token)
    requires w in t.workers
  {
    && CanLeaveUnit(t, w)
    && t.workers[w].k + 1 < |t.workers[w].plan.units|
    && Holds(t, w)
    && t.barrier
    && Syncable(t.journal, SetUnit(t.workers[w].plan, t.workers[w].k, UnitCompleted))
  }

  function CommitUnit(t: Turn, w: Token): Turn
    requires w in t.workers && t.workers[w].InUnit? && t.workers[w].k < |t.workers[w].plan.units|
    requires ValidUnits(t.workers[w].plan)
  {
    var u := t.workers[w];
    var p := SetUnit(u.plan, u.k, UnitCompleted);
    SetWorker(t, w, Between(p, u.k + 1))
      .(plan := Some(p), authorized := false, journal := Synced(t.journal, p), durable := t.durable + u.pending)
  }

  /** The last unit stays in the worker's transaction until the transcript or the result commits. */
  function LeaveLastUnit(t: Turn, w: Token): Turn
    requires w in t.workers && t.workers[w].InUnit? && t.workers[w].k < |t.workers[w].plan.units|
  {
    var u := t.workers[w];
    SetWorker(t, w, PostEffect(SetUnit(u.plan, u.k, UnitCompleted), u.pending, false))
  }

  /** Store the executed plan, its receipts and the pending effects. */
  function CommitEffects(t: Turn, w: Token): Turn
    requires w in t.workers && t.workers[w].PostEffect? && ValidUnits(t.workers[w].plan)
  {
    var u := t.workers[w];
    SetWorker(t, w, PostEffect(u.plan, {}, true))
      .(plan := Some(u.plan), authorized := false, journal := Synced(t.journal, u.plan),
        durable := t.durable + u.pending)
  }

  ghost predicate CanCommitEffects(t: Turn, w: Token)
    requires w in t.workers
  {
    t.workers[w].PostEffect? && Holds(t, w) && Syncable(t.journal, t.workers[w].plan)
  }

  /** The final commit: result, state and, after effects, everything still pending. */
  function CompleteTurn(t: Turn, w: Token): Turn
    requires w in t.workers && (t.workers[w].PostEffect? ==> ValidUnits(t.workers[w].plan))
  {
    var done := if t.workers[w].PostEffect? then CommitEffects(t, w) else t;
    Forget(done.(state := Completed, hasResult := true, token := None), w)
  }

  /** A failed execution that may go back to the model: one atomic unit, rolled back, and the journal
      agrees. */
  predicate RolledBackUnit(t: Turn, w: Token)
    requires w in t.workers
  {
    && t.workers[w].InUnit?
    && |t.workers[w].plan.units| == 1
    && t.workers[w].plan.units[0].mode == OdooAtomic
    && AllRolledBack(Marked(t.journal, t.plan))
  }

  /** A failed preflight in front of the first barrier. */
  predicate FailedPreflight(t: Turn, w: Token)
    requires w in t.workers
  {
    t.workers[w].Between? && !t.barrier
  }

  /** Give the failure to the model. The code rechecks stop and redirect here, not the lease. */
  predicate CanRepair(t: Turn, w: Token)
    requires w in t.workers
  {
    ControlCurrent(t.control) && (RolledBackUnit(t, w) || FailedPreflight(t, w))
  }

  function RepairTurn(t: Turn, w: Token): Turn
    requires w in t.workers
  {
    SetWorker(t, w, Reasoning)
      .(barrier := false, plan := None, authorized := false,
        journal := if t.workers[w].InUnit? then Marked(t.journal, t.plan) else t.journal)
  }

  /** Store a worker's failure. A stale lease changes nothing. */
  function FailClaimed(t: Turn, w: Token, kind: FailureKind, now: nat): Option<Turn>
    requires w in t.workers
  {
    if !t.workers[w].Failing? then None
    else if t.token != Some(w) then Some(Forget(t, w))
    else if t.state == CancelRequested || t.control.cancel then Some(Forget(Settle(t, Cancelled), w))
    else
      var ceiling :=
        if kind.Redirected? && !t.barrier && t.maxAttempts < MAX_ATTEMPTS_WITH_REDIRECTS
           && t.attempts >= t.maxAttempts
        then Min(MAX_ATTEMPTS_WITH_REDIRECTS, t.maxAttempts + 1) else t.maxAttempts;
      var raised := t.(maxAttempts := ceiling);
      if Retryable(kind) && !t.barrier && t.attempts < ceiling then Some(Forget(Requeue(raised, now), w))
      else Some(Forget(Settle(raised, if t.barrier then RecoveryRequired else Failed), w))
  }

  /** One expired lease found by the stale scan. */
  function RecoverTurn(t: Turn, now: nat): Option<Turn> {
    if !Active(t.state) then None
    else if t.state == CancelRequested || t.control.cancel then Some(Settle(t, Cancelled))
    else if t.hasResult then Some(t.(state := Completed, token := None))
    else if t.barrier then Some(Settle(t, RecoveryRequired))
    else if t.attempts < t.maxAttempts then Some(Requeue(t, now))
    else Some(Settle(t, Failed))
  }

  // ----- The user -----

  /** Stop. A queued turn first gets the independent flag, so that a scheduler that wins the race
      (and holds the row) still runs into it. */
  function StopTurn(t: Turn, rowLocked: bool): Turn {
    if t.state.Queued? then
      var flagged := t.(control := t.control.(cancel := true));
      if rowLocked then flagged else Settle(flagged, Cancelled)
    else if Terminal(t.state) then t
    else if t.state.AwaitingConfirmation? then Settle(t, Cancelled)
    else t.(control := t.control.(cancel := true))
  }

  function FindClient(rows: seq<Intervention>, clientId: string): Option<nat> {
    if rows == [] then None
    else if rows[|rows| - 1].clientId == clientId then Some(|rows| - 1)
    else FindClient(rows[..|rows| - 1], clientId)
  }

  function Intervene(c: Control, clientId: string, message: string): Control {
    c.(sequence := c.sequence + 1,
       rows := c.rows + [Intervention(c.sequence + 1, clientId, message, false)])
  }

  function RedirectTurn(t: Turn, clientId: string, message: string, withinBudget: bool, now: nat): Option<Turn> {
    if t.barrier || !(t.state.Queued? || t.state.Running? || t.state.AwaitingConfirmation?) then None
    else
      var existing := FindClient(t.control.rows, clientId);
      if existing.Some? then
        if existing.value < |t.control.rows| && t.control.rows[existing.value].message == message
        then Some(t) else None
      else if |t.control.rows| >= MAX_INTERVENTIONS || !withinBudget then None
      else if t.control.rows != [] && t.control.rows[|t.control.rows| - 1].sequence >= t.control.sequence + 1 then None
      else
        var told := t.(control := Intervene(t.control, clientId, message));
        if !t.state.AwaitingConfirmation? then Some(told)
        else
          var ceiling := Min(MAX_ATTEMPTS_WITH_REDIRECTS, Max(t.maxAttempts, t.attempts + 2));
          if t.attempts > ceiling then None   // the table's attempt check refuses the update
          else Some(Requeue(told, now).(plan := None, authorized := false, hasResult := false, maxAttempts := ceiling))
  }

  /** Both decisions need a stored plan that says itself that it is waiting. */
  predicate CanDecide(t: Turn, planWaiting: bool) {
    t.state.AwaitingConfirmation? && t.plan.Some? && planWaiting
  }

  function ApproveTurn(t: Turn, now: nat, planWaiting: bool): Option<Turn> {
    if !CanDecide(t, planWaiting) then None
    else Some(Requeue(t, now).(maxAttempts := Max(t.maxAttempts, t.attempts + 1), authorized := true, hasResult := false,
                               approvals := t.approvals + 1))
  }

  function RejectTurn(t: Turn, planWaiting: bool): Option<Turn> {
    if !CanDecide(t, planWaiting) then None
    else Some(t.(state := Completed, hasResult := true, token := None))
  }

  /** Close a review once the journal proves that nothing survived. */
  function ReconcileTurn(t: Turn, envelopeReadable: bool): Option<Turn> {
    if t.state != RecoveryRequired || !t.barrier || !AllRolledBack(t.journal) || !envelopeReadable then None
    else Some(t.(state := Failed, journal := Marked(t.journal, t.plan)))
  }

  // ----- One event -----

  function WorkerOf(e: Event): Option<Token> {
    if e.RecoverStale? || e.Stop? || e.Redirect? || e.Approve? || e.Reject? || e.Reconcile? then None
    else Some(e.w)
  }

  ghost function TurnNext(t: Turn, e: Event): Option<Turn> {
    if WorkerOf(e).Some? && WorkerOf(e).value !in t.workers then None else
    match e
    case Begin(w) => BeginWork(t, w)
    case CancelClaimed(w) => CancelClaimedTurn(t, w)
    case MarkApplied(w, sequence) =>
      if !(t.workers[w].Reasoning? || t.workers[w].PostEffect?) then None else
      var c := MarkControlApplied(t.control, sequence);
      if c.None? then None else Some(t.(control := c.value))
    case PersistAwaiting(w, proposal) => PersistAwaitingPlan(t, w, proposal)
    case StartExecution(w, proposal) =>
      if CanStart(t, w, proposal) then Some(SetWorker(t, w, Between(proposal, 0))) else None
    case BeforeUnit(w) => if CanEnterUnit(t, w) then Some(EnterUnit(t, w)) else None
    case RunStep(w, x) => RunPlanStep(t, w, x)
    case SkipStep(w, x) => SkipPlanStep(t, w, x)
    case AfterUnit(w) => if CanCommitUnit(t, w) then Some(CommitUnit(t, w)) else None
    case FinishPlan(w) =>
      if CanLeaveUnit(t, w) && t.workers[w].k + 1 == |t.workers[w].plan.units| then Some(LeaveLastUnit(t, w)) else None
    case PersistTranscript(w) => if CanCommitEffects(t, w) then Some(CommitEffects(t, w)) else None
    case Complete(w) =>
      if CanCommitEffects(t, w) || (t.workers[w].Reasoning? && Holds(t, w)) then Some(CompleteTurn(t, w)) else None
    case Repair(w) => if CanRepair(t, w) then Some(RepairTurn(t, w)) else None
    case Raise(w) => Some(SetWorker(t, w, Failing))
    case Fail(w, kind, now) => FailClaimed(t, w, kind, now)
    case Crash(w) => Some(Forget(t, w))
    case RecoverStale(now) => RecoverTurn(t, now)
    case Stop(rowLocked) => Some(StopTurn(t, rowLocked))
    case Redirect(clientId, message, withinBudget, now) => RedirectTurn(t, clientId, message, withinBudget, now)
    case Approve(now, planWaiting) => ApproveTurn(t, now, planWaiting)
    case Reject(planWaiting) => RejectTurn(t, planWaiting)
    case Reconcile(readable) => ReconcileTurn(t, readable)
  }
}
