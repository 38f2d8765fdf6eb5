/** The durable record of one assistant turn: queue row, control row, intervention log,
    effect journal and the workers that still believe they own it. */
module TurnTypes {
  import opened Prelude

  const MAX_ATTEMPTS: nat := 3
  const MAX_ATTEMPTS_WITH_REDIRECTS: nat := 19
  const MAX_INTERVENTIONS: nat := 16
  const MAX_PLAN_STEPS: nat := 8

  datatype TurnState =
    | Queued | Running | CancelRequested | AwaitingConfirmation
    | Completed | Failed | Cancelled | RecoveryRequired

  predicate Terminal(s: TurnState) {
    s.Completed? || s.Failed? || s.Cancelled? || s.RecoveryRequired?
  }

  /** The states that hold one of the scheduler's slots. */
  predicate Active(s: TurnState) {
    s.Running? || s.CancelRequested?
  }

  /** The states that block every later turn of the conversation. */
  predicate Live(s: TurnState) {
    Active(s) || s.AwaitingConfirmation?
  }

  // ----- Effect plans -----

  type StepId = string

  datatype UnitMode = OdooAtomic | Segmented | External

  datatype UnitState = UnitPrepared | UnitExecuting | UnitCompleted

  datatype StepState = Previewed | StepDone | StepSkipped

  datatype Unit = Unit(mode: UnitMode, state: UnitState)

  /** `call` stands for what a step is bound to beside its unit: the capability and its version, the
      classification and the captured state before it. */
  datatype Step = Step(unit: nat, call: string, state: StepState)

  /** Recovery units in execution order, and the steps by id. */
  datatype Plan = Plan(units: seq<Unit>, steps: map<StepId, Step>)

  predicate WellFormed(p: Plan) {
    && 1 <= |p.steps| <= MAX_PLAN_STEPS
    && 1 <= |p.units|
    && (forall x | x in p.steps :: p.steps[x].unit < |p.units|)
  }

  /** A plan as `prepare` returns it: nothing has started. */
  predicate Fresh(p: Plan) {
    && WellFormed(p)
    && (forall i | 0 <= i < |p.units| :: p.units[i].state == UnitPrepared)
    && (forall x | x in p.steps :: p.steps[x].state == Previewed)
  }

  function SetUnit(p: Plan, k: nat, s: UnitState): Plan
    requires k < |p.units|
  {
    p.(units := p.units[k := p.units[k].(state := s)])
  }

  function SetStep(p: Plan, x: StepId, s: StepState): Plan
    requires x in p.steps
  {
    p.(steps := p.steps[x := p.steps[x].(state := s)])
  }

  /** The snapshot persisted before unit k ran: unit k executing, its steps untouched. */
  function Rewind(p: Plan, k: nat): Plan
    requires k < |p.units|
  {
    SetUnit(p, k, UnitExecuting).(steps :=
      map x | x in p.steps :: if p.steps[x].unit == k then p.steps[x].(state := Previewed) else p.steps[x])
  }

  ghost predicate UnitFinished(p: Plan, k: nat) {
    forall x | x in p.steps && p.steps[x].unit == k :: p.steps[x].state != Previewed
  }

  // ----- Effect journal -----

  datatype RowState = RowPrepared | RowExecuting | Verified | Skipped | RolledBack | Uncertain | Reverted

  datatype JournalRow = JournalRow(unit: nat, mode: UnitMode, call: string, state: RowState)

  type Journal = map<StepId, JournalRow>

  // ----- Control row and interventions -----

  datatype Intervention = Intervention(sequence: nat, clientId: string, message: string, applied: bool)

  datatype Control = Control(cancel: bool, sequence: nat, applied: nat, rows: seq<Intervention>)

  const NO_CONTROL := Control(false, 0, 0, [])

  // ----- Workers -----

  type Token = nat

  /** What one worker process holds in memory. `pending` are the effects of its open database
      transaction; they vanish with a rollback or a crash. */
  datatype Worker =
    | Launched
    | Reasoning
    | Between(plan: Plan, next: nat)
    | InUnit(plan: Plan, k: nat, pending: set<StepId>)
    | PostEffect(plan: Plan, pending: set<StepId>, saved: bool)
    | Failing

  /** The worker has passed a write barrier and has not reported the outcome. */
  predicate Effectful(w: Worker) {
    w.InUnit? || w.PostEffect? || (w.Between? && w.next > 0)
  }

  // ----- The turn -----

  datatype Turn = Turn(
    conversation: nat,
    user: nat,
    requestId: Option<string>,
    queuedAt: nat,
    claimedAt: Option<nat>,
    state: TurnState,
    attempts: nat,
    maxAttempts: nat,
    token: Option<Token>,
    barrier: bool,
    plan: Option<Plan>,
    authorized: bool,              // the user approved the stored plan
    hasResult: bool,
    control: Control,
    journal: Journal,
    workers: map<Token, Worker>,   // processes still alive, by the lease they were given
    durable: set<StepId>,          // step effects that survive any crash from now on
    approvals: nat)                // how often the user approved a plan of this turn

  function NewTurn(conversation: nat, user: nat, requestId: Option<string>, now: nat): Turn {
    Turn(conversation, user, requestId, now, None, Queued, 0, MAX_ATTEMPTS, None, false, None, false, false,
         NO_CONTROL, map[], map[], {}, 0)
  }

  predicate Holds(t: Turn, w: Token) {
    t.state == Running && t.token == Some(w)
  }

  predicate Exhausted(t: Turn) {
    t.state == Queued && t.attempts >= t.maxAttempts
  }

  /** A predecessor that no longer blocks its conversation. */
  predicate Settled(t: Turn) {
    Terminal(t.state) || Exhausted(t)
  }

  predicate ControlCurrent(c: Control) {
    !c.cancel && c.sequence == c.applied
  }
}
