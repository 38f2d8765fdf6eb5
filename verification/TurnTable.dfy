/** The turn table as the cron slots and the user's requests update it. Every method is one
    database transaction and does exactly what the step function of `Scheduler` says. */
module TurnTable {
  import opened Prelude
  import opened TurnTypes
  import opened EffectJournal
  import opened TurnSteps
  import opened TurnInvariant
  import opened TurnSafety
  import opened TurnProgress
  import opened Scheduler
  import opened WorldSafety
  import opened TurnOutcomes
  import opened ClaimOrder
  import opened JournalTable

  const STALE_SCAN_LIMIT: nat := 25

  function Recovered(t: Turn, scanned: bool, now: nat): Turn {
    if scanned && RecoverTurn(t, now).Some? then RecoverTurn(t, now).value else t
  }

  lemma RecoveredKeepsWorld(w: World, id: nat, now: nat)
    requires WorldInv(w) && id < |w.turns|
    ensures WorldInv(w.(turns := w.turns[id := Recovered(w.turns[id], true, now)]))
  {
    if Active(w.turns[id].state) {
      TurnStepKeepsWorld(w, id, RecoverStale(now));
    } else {
      assert w.turns[id := w.turns[id]] == w.turns;
    }
  }

  ghost predicate RecoveredUpTo(was: seq<Turn>, turns: seq<Turn>, ids: seq<nat>, now: nat) {
    |turns| == |was| && forall i | 0 <= i < |was| :: turns[i] == Recovered(was[i], i in ids, now)
  }

  lemma RecoveredExtends(was: seq<Turn>, turns: seq<Turn>, ids: seq<nat>, k: nat, now: nat)
    requires k < |ids| && RecoveredUpTo(was, turns, ids[..k], now) && ids[k] < |was| && ids[k] !in ids[..k]
    ensures RecoveredUpTo(was, turns[ids[k] := Recovered(turns[ids[k]], true, now)], ids[..k + 1], now)
  {
    assert ids[..k + 1] == ids[..k] + [ids[k]];
  }

  /** When nothing can be claimed, no slot is free or no open turn can be locked. */
  lemma ClaimNeeds(w: World, configured: int, locked: set<nat>, now: nat)
    requires TableInv(w)
    ensures (forall id: nat :: !Candidate(w.turns, locked, id)) ==> forall id: nat :: Open(w.turns, id) ==> id in locked
    ensures ActiveCount(w.turns, None) == |Taken(w.turns)|
  {
    ActiveCountIsTaken(w.turns);
    forall id: nat | Open(w.turns, id) && id !in locked
      ensures Candidate(w.turns, locked, id)
    {
      EligibleIsOpen(w, id);
    }
  }

  /** What the scan leaves behind, in the words of the outcome. */
  lemma ScanIsRecovery(was: World, turns: seq<Turn>, expired: seq<nat>, now: nat)
    requires WorldInv(was) && forall i | 0 <= i < |expired| :: expired[i] < |was.turns|
    requires RecoveredUpTo(was.turns, turns, expired[..Min(|expired|, STALE_SCAN_LIMIT)], now)
    ensures forall k | 0 <= k < |expired| && k < STALE_SCAN_LIMIT ::
              was.turns[expired[k]].state == Running ==> RecoveredTo(was.turns[expired[k]], turns[expired[k]].state)
  {
    forall k | 0 <= k < |expired| && k < STALE_SCAN_LIMIT && was.turns[expired[k]].state == Running
      ensures RecoveredTo(was.turns[expired[k]], turns[expired[k]].state)
    {
      assert expired[..Min(|expired|, STALE_SCAN_LIMIT)][k] == expired[k];
      assert RowInv(was.turns[expired[k]]);
      RecoverExactly(was.turns[expired[k]], now);
    }
  }

  /** The update of the claimed row. */
  method ClaimRow(row: Turn, w: Token, now: nat) returns (t: Turn)
    ensures t == ClaimTurn(row, w, now)
  {
    t := row.(state := Running, attempts := row.attempts + 1);
    t := t.(claimedAt := Some(now), token := Some(w), workers := t.workers[w := Launched]);
  }

  /** The branches of the stale scan for one row. */
  method RecoverRow(row: Turn, now: nat) returns (t: Turn)
    ensures t == Recovered(row, true, now)
  {
    t := row;
    if Active(t.state) {
      if t.state == CancelRequested || t.control.cancel {
        t := Settle(t, Cancelled);
      } else if t.hasResult {
        t := t.(state := Completed, token := None);
      } else if t.barrier {
        t := Settle(t, RecoveryRequired);
      } else if t.attempts < t.maxAttempts {
        t := Requeue(t, now);
      } else {
        t := Settle(t, Failed);
      }
    }
  }

  /** Append a new instruction to one row, or answer a known client id from the log. `None` stands
      for the errors the code raises. */
  method RedirectRow(row: Turn, clientId: string, message: string, withinBudget: bool, now: nat)
    returns (next: Option<Turn>)
    requires ControlInv(row.control)
    ensures next == RedirectTurn(row, clientId, message, withinBudget, now)
  {
    FindClientFinds(row.control.rows, clientId);
    if row.barrier || !(row.state.Queued? || row.state.Running? || row.state.AwaitingConfirmation?) { return None; }
    var rows := row.control.rows;
    for k := 0 to |rows|
      invariant forall i | 0 <= i < k :: rows[i].clientId != clientId
    {
      if rows[k].clientId == clientId { return if rows[k].message == message then Some(row) else None; }
    }
    if |rows| >= MAX_INTERVENTIONS || !withinBudget { return None; }
    var sequence := row.control.sequence + 1;
    var t := row.(control := row.control.(sequence := sequence,
                    rows := rows + [Intervention(sequence, clientId, message, false)]));
    if t.state.AwaitingConfirmation? {
      var ceiling := Min(MAX_ATTEMPTS_WITH_REDIRECTS, Max(t.maxAttempts, t.attempts + 2));
      if t.attempts > ceiling { return None; }
      t := Requeue(t, now);
      t := t.(plan := None, authorized := false, hasResult := false, maxAttempts := ceiling);
    }
    next := Some(t);
  }

  /** Mark the interventions up to a sequence as applied, row by row. */
  method MarkRows(c: Control, sequence: nat) returns (next: Option<Control>)
    ensures next == MarkControlApplied(c, sequence)
  {
    if sequence > c.sequence { return None; }
    if sequence <= c.applied { return Some(c); }
    var rows := c.rows;
    for i := 0 to |rows|
      invariant |rows| == |c.rows|
      invariant forall k | 0 <= k < |rows| ::
                  rows[k] == if k < i && c.rows[k].sequence <= sequence then c.rows[k].(applied := true) else c.rows[k]
    {
      if rows[i].sequence <= sequence { rows := rows[i := rows[i].(applied := true)]; }
    }
    next := Some(c.(applied := sequence, rows := rows));
    assert rows == next.value.rows == MarkControlApplied(c, sequence).value.rows;
  }

  lemma SnapshotUnits(p: Plan, k: nat, s: UnitState)
    requires k < |p.units| && WellFormed(SetUnit(p, k, s))
    ensures ValidUnits(p)
  {
  }

  lemma EnterUnitIs(t: Turn, w: Token, plan: Plan, rows: Journal)
    requires w in t.workers && t.workers[w].Between? && t.workers[w].next < |t.workers[w].plan.units|
    requires ValidUnits(t.workers[w].plan)
    requires plan == SetUnit(t.workers[w].plan, t.workers[w].next, UnitExecuting) && rows == Synced(t.journal, plan)
    ensures EnterUnit(t, w) == SetWorker(t, w, InUnit(plan, t.workers[w].next, {}))
              .(barrier := true, plan := Some(plan), authorized := false, journal := rows)
  {
  }

  /** The checkpoint before a recovery unit: lease, stop and redirect, journal, barrier. */
  method BeforeUnitRow(row: Turn, w: Token, ids: seq<StepId>) returns (next: Option<Turn>)
    requires w in row.workers && row.workers[w].Between? && row.workers[w].next < |row.workers[w].plan.units|
    requires Distinct(ids) && Keys(ids) == row.workers[w].plan.steps.Keys
    ensures next.Some? <==> CanEnterUnit(row, w)
    ensures next.Some? ==> next.value == EnterUnit(row, w)
  {
    if row.state != Running || row.token != Some(w) { return None; }
    if row.control.cancel || row.control.sequence != row.control.applied { return None; }
    var k := row.workers[w].next;
    var plan := SetUnit(row.workers[w].plan, k, UnitExecuting);
    var rows := SyncSnapshot(row.journal, plan, ids);
    if rows.None? { return None; }
    SnapshotUnits(row.workers[w].plan, k, UnitExecuting);
    EnterUnitIs(row, w, plan, rows.value);
    var t := SetWorker(row, w, InUnit(plan, k, {}));
    next := Some(t.(barrier := true, plan := Some(plan), authorized := false, journal := rows.value));
  }

  lemma BeforeUnitStep(t: Turn, w: Token)
    requires w in t.workers && t.workers[w].Between? && t.workers[w].next < |t.workers[w].plan.units|
    ensures CanEnterUnit(t, w) ==> ValidUnits(t.workers[w].plan) && TurnNext(t, BeforeUnit(w)) == Some(EnterUnit(t, w))
    ensures !CanEnterUnit(t, w) ==> TurnNext(t, BeforeUnit(w)) == None
  {
    if CanEnterUnit(t, w) { SnapshotUnits(t.workers[w].plan, t.workers[w].next, UnitExecuting); }
  }

  method BeforeUnitChecked(row: Turn, w: Token, ids: seq<StepId>) returns (next: Option<Turn>)
    requires w in row.workers && row.workers[w].Between? && row.workers[w].next < |row.workers[w].plan.units|
    requires Distinct(ids) && Keys(ids) == row.workers[w].plan.steps.Keys
    ensures next == TurnNext(row, BeforeUnit(w))
  {
    BeforeUnitStep(row, w);
    next := BeforeUnitRow(row, w, ids);
  }

  lemma CommitUnitIs(t: Turn, w: Token, plan: Plan, rows: Journal)
    requires w in t.workers && t.workers[w].InUnit? && t.workers[w].k < |t.workers[w].plan.units|
    requires ValidUnits(t.workers[w].plan)
    requires plan == SetUnit(t.workers[w].plan, t.workers[w].k, UnitCompleted) && rows == Synced(t.journal, plan)
    ensures CommitUnit(t, w) == SetWorker(t, w, Between(plan, t.workers[w].k + 1))
              .(plan := Some(plan), authorized := false, journal := rows, durable := t.durable + t.workers[w].pending)
  {
  }

  /** The write behind that checkpoint: worker, plan, journal and effects together. */
  method LandUnit(row: Turn, w: Token, plan: Plan, rows: Journal) returns (t: Turn)
    requires w in row.workers && row.workers[w].InUnit? && row.workers[w].k < |row.workers[w].plan.units|
    requires ValidUnits(row.workers[w].plan)
    requires plan == SetUnit(row.workers[w].plan, row.workers[w].k, UnitCompleted) && rows == Synced(row.journal, plan)
    ensures t == CommitUnit(row, w)
  {
    var u := row.workers[w];
    CommitUnitIs(row, w, plan, rows);
    t := SetWorker(row, w, Between(plan, u.k + 1));
    t := t.(plan := Some(plan), authorized := false, journal := rows, durable := row.durable + u.pending);
  }

  /** The checkpoint after a unit that is not the last: lease, barrier, journal. */
  method AfterUnitRow(row: Turn, w: Token, ids: seq<StepId>) returns (next: Option<Turn>)
    requires w in row.workers && row.workers[w].InUnit? && row.workers[w].k < |row.workers[w].plan.units|
    requires Distinct(ids) && Keys(ids) == row.workers[w].plan.steps.Keys
    ensures var u := row.workers[w];
            next.Some? <==> Holds(row, w) && row.barrier && Syncable(row.journal, SetUnit(u.plan, u.k, UnitCompleted))
    ensures next.Some? ==> ValidUnits(row.workers[w].plan) && next.value == CommitUnit(row, w)
  {
    if row.state != Running || row.token != Some(w) || !row.barrier { return None; }
    var u := row.workers[w];
    var plan := SetUnit(u.plan, u.k, UnitCompleted);
    var rows := SyncSnapshot(row.journal, plan, ids);
    if rows.None? { return None; }
    SnapshotUnits(u.plan, u.k, UnitCompleted);
    var t := LandUnit(row, w, plan, rows.value);
    next := Some(t);
  }

  lemma AfterUnitStep(t: Turn, w: Token)
    requires w in t.workers && CanLeaveUnit(t, w) && t.workers[w].k + 1 < |t.workers[w].plan.units|
    ensures var u := t.workers[w];
            var ready := Holds(t, w) && t.barrier && Syncable(t.journal, SetUnit(u.plan, u.k, UnitCompleted));
            && (ready ==> ValidUnits(u.plan) && TurnNext(t, AfterUnit(w)) == Some(CommitUnit(t, w)))
            && (!ready ==> TurnNext(t, AfterUnit(w)) == None)
  {
    var u := t.workers[w];
    if Syncable(t.journal, SetUnit(u.plan, u.k, UnitCompleted)) { SnapshotUnits(u.plan, u.k, UnitCompleted); }
  }

  method AfterUnitChecked(row: Turn, w: Token, ids: seq<StepId>) returns (next: Option<Turn>)
    requires w in row.workers && CanLeaveUnit(row, w) && row.workers[w].k + 1 < |row.workers[w].plan.units|
    requires Distinct(ids) && Keys(ids) == row.workers[w].plan.steps.Keys
    ensures next == TurnNext(row, AfterUnit(w))
  {
    AfterUnitStep(row, w);
    next := AfterUnitRow(row, w, ids);
  }

  method MarkAppliedRow(row: Turn, w: Token, sequence: nat) returns (next: Option<Turn>)
    requires w in row.workers && (row.workers[w].Reasoning? || row.workers[w].PostEffect?)
    ensures next == TurnNext(row, MarkApplied(w, sequence))
  {
    var control := MarkRows(row.control, sequence);
    next := if control.None? then None else Some(row.(control := control.value));
  }

  /** The repair: an atomic unit is classified and checked against the journal, a failed preflight
      only against the barrier. */
  method RepairRow(row: Turn, w: Token) returns (next: Option<Turn>)
    requires w in row.workers
    ensures next == if CanRepair(row, w) then Some(RepairTurn(row, w)) else None
  {
    if row.control.cancel || row.control.sequence != row.control.applied { return None; }
    var u := row.workers[w];
    var rows := row.journal;
    if u.InUnit? {
      if |u.plan.units| != 1 || u.plan.units[0].mode != OdooAtomic { return None; }
      rows := Marked(row.journal, row.plan);
      if !AllRolledBack(rows) { return None; }
    } else if !u.Between? || row.barrier {
      return None;
    }
    var t := row.(journal := rows, barrier := false, plan := None, authorized := false);
    next := Some(t.(workers := t.workers[w := Reasoning]));
  }

  /** Store a worker's failure: stale lease, stop, one more try, or a final state. */
  method FailRow(row: Turn, w: Token, kind: FailureKind, now: nat) returns (next: Turn)
    requires w in row.workers && row.workers[w].Failing?
    ensures FailClaimed(row, w, kind, now) == Some(next)
  {
    var t := row;
    if t.token == Some(w) {
      if t.state == CancelRequested || t.control.cancel {
        t := Settle(t, Cancelled);
      } else {
        if kind.Redirected? && !t.barrier && t.maxAttempts < MAX_ATTEMPTS_WITH_REDIRECTS && t.attempts >= t.maxAttempts {
          t := t.(maxAttempts := Min(MAX_ATTEMPTS_WITH_REDIRECTS, t.maxAttempts + 1));
        }
        if Retryable(kind) && !t.barrier && t.attempts < t.maxAttempts {
          t := Requeue(t, now);
        } else {
          t := Settle(t, if t.barrier then RecoveryRequired else Failed);
        }
      }
    }
    next := Forget(t, w);
  }

  /** The user's decision about a parked plan. */
  method DecideRow(row: Turn, approve: bool, now: nat, planWaiting: bool) returns (next: Option<Turn>)
    ensures next == if approve then ApproveTurn(row, now, planWaiting) else RejectTurn(row, planWaiting)
  {
    if !row.state.AwaitingConfirmation? { return None; }
    if row.plan.None? || !planWaiting { return None; }
    var t := row;
    if approve {
      t := t.(maxAttempts := Max(t.maxAttempts, t.attempts + 1));
      t := Requeue(t, now).(authorized := true, hasResult := false, approvals := t.approvals + 1);
    } else {
      t := t.(state := Completed, hasResult := true, token := None);
    }
    next := Some(t);
  }

  /** The checks behind "no change was confirmed". */
  method ReconcileRow(row: Turn, envelopeReadable: bool) returns (next: Option<Turn>)
    ensures next == ReconcileTurn(row, envelopeReadable)
  {
    if row.state != RecoveryRequired || !row.barrier { return None; }
    if !AllRolledBack(row.journal) || !envelopeReadable { return None; }
    next := Some(row.(state := Failed, journal := Marked(row.journal, row.plan)));
  }

  /** One step of one row, as a step of the table. */
  lemma RowStepIsTableStep(w: World, id: nat, e: Event, next: Option<Turn>)
    requires WorldInv(w) && id < |w.turns| && !e.PersistAwaiting? && next == TurnNext(w.turns[id], e)
    ensures next.None? ==> WorldNext(w, On(id, e)) == None
    ensures next.Some? ==> var w' := w.(turns := w.turns[id := next.value]);
                           WorldNext(w, On(id, e)) == Some(w') && WorldInv(w')
  {
    if next.Some? { TurnStepKeepsWorld(w, id, e); }
  }

  function Decision(approve: bool, now: nat, planWaiting: bool): Event {
    if approve then Approve(now, planWaiting) else Reject(planWaiting)
  }

  lemma DecisionIs(t: Turn, approve: bool, now: nat, planWaiting: bool)
    ensures TurnNext(t, Decision(approve, now, planWaiting))
         == if approve then ApproveTurn(t, now, planWaiting) else RejectTurn(t, planWaiting)
  {
  }

  lemma ReconcileIs(t: Turn, readable: bool)
    ensures TurnNext(t, Reconcile(readable)) == ReconcileTurn(t, readable)
  {
  }

  lemma ReconcileClean(w: World, id: nat, readable: bool)
    requires WorldInv(w) && id < |w.turns| && ReconcileTurn(w.turns[id], readable).Some?
    ensures ReconcileTurn(w.turns[id], readable).value.durable == {}
  {
    assert Inv(w.turns[id]);
    ReconcileKeeps(w.turns[id], readable);
  }

  class Table {
    var turns: seq<Turn>
    var nextToken: Token

    function State(): World
      reads this
    {
      World(turns, nextToken)
    }

    ghost predicate Valid()
      reads this
    {
      WorldInv(State())
    }

    constructor ()
      ensures State() == EMPTY && Valid()
    {
      turns, nextToken := [], 0;
    }

    /** A request id that the user sent before is answered with the turn it created. */
    method EnqueueForCurrentUser(conversation: nat, user: nat, requestId: Option<string>, now: nat) returns (id: nat)
      requires Valid()
      modifies this
      ensures Valid() && State() == Enqueued(old(State()), conversation, user, requestId, now)
      ensures id < |turns| && turns[id].user == user && turns[id].requestId == requestId
      ensures if Known(old(turns), user, requestId) then id < |old(turns)| && turns == old(turns) else id == |old(turns)|
      ensures !Known(old(turns), user, requestId) ==>
                && turns[..id] == old(turns) && turns[id].conversation == conversation && turns[id].queuedAt == now
                && turns[id].state == Queued && turns[id].attempts == 0 && turns[id].control.rows == []
    {
      EnqueueKeepsWorld(State(), conversation, user, requestId, now);
      if requestId.Some? {
        for i := 0 to |turns|
          invariant forall k | 0 <= k < i :: !SameRequest(turns[k], user, requestId)
        {
          if SameRequest(turns[i], user, requestId) { return i; }
        }
      }
      id := |turns|;
      turns := turns + [NewTurn(conversation, user, requestId, now)];
    }

    /** Claim one eligible turn, or none when the slots are taken or nobody may go. */
    method ClaimNextTurn(configured: int, locked: set<nat>, now: nat) returns (claim: Option<(nat, Token)>)
      requires Valid()
      modifies this
      ensures Valid()
      ensures match claim
              case Some((id, w)) =>
                && w == old(nextToken)
                && CanClaim(old(State()), Claim(configured, locked, id, now))
                && State() == Claimed(old(State()), id, now)
              case None =>
                && State() == old(State())
                && forall id :: !CanClaim(State(), Claim(configured, locked, id, now))
      ensures claim.Some? ==> GoesFirst(old(turns), EffectiveCapacity(configured), locked, claim.value.0)
      ensures claim.None? ==> |Taken(turns)| >= EffectiveCapacity(configured) || forall id: nat :: Open(turns, id) ==> id in locked
    {
      ClaimNeeds(State(), configured, locked, now);
      if ActiveCount(turns, None) >= EffectiveCapacity(configured) { return None; }
      var best := SelectCandidate(turns, locked);
      if best.None? { return None; }
      var (id, w) := (best.value, nextToken);
      ClaimExactly(State(), configured, locked, id, now);
      ClaimKeepsWorld(State(), Claim(configured, locked, id, now));
      var t := ClaimRow(turns[id], w, now);
      turns, nextToken := turns[id := t], w + 1;
      assert State() == Claimed(old(State()), id, now);
      claim := Some((id, w));
    }

    method FailClaimedTurn(id: nat, w: Token, kind: FailureKind, now: nat)
      requires Valid() && id < |turns| && w in turns[id].workers && turns[id].workers[w].Failing?
      modifies this
      ensures Valid() && WorldNext(old(State()), On(id, Fail(w, kind, now))) == Some(State())
    {
      var next := FailRow(turns[id], w, kind, now);
      TurnStepKeepsWorld(State(), id, Fail(w, kind, now));
      turns := turns[id := next];
    }

    /** Checkpoint before a recovery unit. False stands for a lost lease, a pending stop or redirect,
        or a snapshot that the journal refuses. */
    method CheckpointBefore(id: nat, w: Token, ids: seq<StepId>) returns (ok: bool)
      requires Valid() && id < |turns| && w in turns[id].workers && turns[id].workers[w].Between?
      requires turns[id].workers[w].next < |turns[id].workers[w].plan.units|
      requires Distinct(ids) && Keys(ids) == turns[id].workers[w].plan.steps.Keys
      modifies this
      ensures Valid()
      ensures var next := WorldNext(old(State()), On(id, BeforeUnit(w)));
              ok == next.Some? && State() == if ok then next.value else old(State())
    {
      var next := BeforeUnitChecked(turns[id], w, ids);
      if next.None? { return false; }
      TurnStepKeepsWorld(State(), id, BeforeUnit(w));
      turns := turns[id := next.value];
      ok := true;
    }

    /** Checkpoint after a unit that is not the last: effects, receipts and plan in one commit. */
    method CheckpointAfter(id: nat, w: Token, ids: seq<StepId>) returns (ok: bool)
      requires Valid() && id < |turns| && w in turns[id].workers && CanLeaveUnit(turns[id], w)
      requires turns[id].workers[w].k + 1 < |turns[id].workers[w].plan.units|
      requires Distinct(ids) && Keys(ids) == turns[id].workers[w].plan.steps.Keys
      modifies this
      ensures Valid()
      ensures var next := WorldNext(old(State()), On(id, AfterUnit(w)));
              ok == next.Some? && State() == if ok then next.value else old(State())
    {
      var next := AfterUnitChecked(turns[id], w, ids);
      if next.None? { return false; }
      TurnStepKeepsWorld(State(), id, AfterUnit(w));
      turns := turns[id := next.value];
      ok := true;
    }

    /** Give a failed plan back to the model. */
    method RepairRecoverablePlan(id: nat, w: Token) returns (ok: bool)
      requires Valid() && id < |turns| && w in turns[id].workers
      modifies this
      ensures Valid()
      ensures var next := WorldNext(old(State()), On(id, Repair(w)));
              ok == next.Some? && State() == if ok then next.value else old(State())
    {
      var next := RepairRow(turns[id], w);
      if next.None? { return false; }
      TurnStepKeepsWorld(State(), id, Repair(w));
      turns := turns[id := next.value];
      ok := true;
    }

    /** Park the turn until the user decides. The table stays sound exactly when the row carries no
        barrier and no later turn of the conversation was claimed, which the lease holder always meets. */
    method PersistAwaitingPlan(id: nat, w: Token, proposal: Plan)
      requires Valid() && id < |turns| && w in turns[id].workers && turns[id].workers[w].Reasoning?
      modifies this
      ensures WorldNext(old(State()), On(id, PersistAwaiting(w, proposal))) == Some(State())
      ensures Valid() <==> !old(turns)[id].barrier && NoLaterClaimed(old(turns), id)
      ensures Holds(old(turns)[id], w) ==> Valid()
    {
      assert Inv(turns[id]);
      if Holds(turns[id], w) {
        HolderParksSafely(turns[id], w);
        assert forall b | id < b < |turns| :: CausalPair(turns[id], turns[b]);
      }
      WorldStepKeeps(State(), On(id, PersistAwaiting(w, proposal)));
      var t := turns[id];
      t := t.(state := AwaitingConfirmation, plan := Some(proposal), authorized := false, hasResult := true, token := None);
      turns := turns[id := t.(workers := t.workers - {w})];
    }

    /** Mark redirects as applied on behalf of a worker. */
    method MarkRuntimeControlApplied(id: nat, w: Token, sequence: nat) returns (ok: bool)
      requires Valid() && id < |turns| && w in turns[id].workers
      requires turns[id].workers[w].Reasoning? || turns[id].workers[w].PostEffect?
      modifies this
      ensures Valid()
      ensures var next := WorldNext(old(State()), On(id, MarkApplied(w, sequence)));
              ok == next.Some? && State() == if ok then next.value else old(State())
    {
      var next := MarkAppliedRow(turns[id], w, sequence);
      if next.None? { return false; }
      TurnStepKeepsWorld(State(), id, MarkApplied(w, sequence));
      turns := turns[id := next.value];
      ok := true;
    }

    /** Recover the turns whose lease has expired, at most 25 in one scan. */
    method RecoverStaleTurns(expired: seq<nat>, now: nat)
      requires Valid()
      requires forall i | 0 <= i < |expired| :: expired[i] < |turns|
      requires forall i, j | 0 <= i < j < |expired| :: expired[i] != expired[j]
      modifies this
      ensures Valid() && nextToken == old(nextToken)
      ensures RecoveredUpTo(old(turns), turns, expired[..Min(|expired|, STALE_SCAN_LIMIT)], now)
      ensures |turns| == |old(turns)| && forall k | 0 <= k < |expired| && k < STALE_SCAN_LIMIT ::
                old(turns)[expired[k]].state == Running ==> RecoveredTo(old(turns)[expired[k]], turns[expired[k]].state)
    {
      var n := Min(|expired|, STALE_SCAN_LIMIT);
      for k := 0 to n
        invariant Valid() && nextToken == old(nextToken)
        invariant RecoveredUpTo(old(turns), turns, expired[..k], now)
      {
        var id := expired[k];
        RecoveredKeepsWorld(State(), id, now);
        RecoveredExtends(old(turns), turns, expired, k, now);
        var t := RecoverRow(turns[id], now);
        turns := turns[id := t];
      }
      ScanIsRecovery(old(State()), turns, expired, now);
    }

    method CancelForCurrentUser(id: nat, rowLocked: bool)
      requires Valid() && id < |turns|
      modifies this
      ensures Valid() && WorldNext(old(State()), On(id, Stop(rowLocked))) == Some(State())
    {
      TurnStepKeepsWorld(State(), id, Stop(rowLocked));
      var t := turns[id];
      if t.state.Queued? {
        t := t.(control := t.control.(cancel := true));
        if !rowLocked { t := Settle(t, Cancelled); }
      } else if t.state.AwaitingConfirmation? {
        t := Settle(t, Cancelled);
      } else if !Terminal(t.state) {
        t := t.(control := t.control.(cancel := true));
      }
      turns := turns[id := t];
    }

    /** Record a new instruction. False stands for the errors the code raises. */
    method RedirectForCurrentUser(id: nat, clientId: string, message: string, withinBudget: bool, now: nat)
      returns (accepted: bool)
      requires Valid() && id < |turns|
      modifies this
      ensures Valid()
      ensures var next := WorldNext(old(State()), On(id, Redirect(clientId, message, withinBudget, now)));
              accepted == next.Some? && State() == if accepted then next.value else old(State())
    {
      assert Inv(turns[id]);
      var next := RedirectRow(turns[id], clientId, message, withinBudget, now);
      if next.None? { return false; }
      TurnStepKeepsWorld(State(), id, Redirect(clientId, message, withinBudget, now));
      turns := turns[id := next.value];
      accepted := true;
    }

    /** Approve or reject a parked plan. */
    method DecideCapabilityPlan(id: nat, approve: bool, now: nat, planWaiting: bool) returns (accepted: bool)
      requires Valid() && id < |turns|
      modifies this
      ensures Valid()
      ensures var next := WorldNext(old(State()), On(id, Decision(approve, now, planWaiting)));
              accepted == next.Some? && State() == if accepted then next.value else old(State())
    {
      var next := DecideRow(turns[id], approve, now, planWaiting);
      DecisionIs(turns[id], approve, now, planWaiting);
      RowStepIsTableStep(State(), id, Decision(approve, now, planWaiting), next);
      if next.None? { return false; }
      turns := turns[id := next.value];
      accepted := true;
    }

    /** Close a review as "no change was confirmed". */
    method ReconcileConfirmedAtomicRollback(id: nat, envelopeReadable: bool) returns (resolved: bool)
      requires Valid() && id < |turns|
      modifies this
      ensures Valid()
      ensures var next := WorldNext(old(State()), On(id, Reconcile(envelopeReadable)));
              resolved == next.Some? && State() == if resolved then next.value else old(State())
      ensures resolved ==> turns[id].durable == {}
    {
      var next := ReconcileRow(turns[id], envelopeReadable);
      ReconcileIs(turns[id], envelopeReadable);
      RowStepIsTableStep(State(), id, Reconcile(envelopeReadable), next);
      if next.None? { return false; }
      ReconcileClean(State(), id, envelopeReadable);
      turns := turns[id := next.value];
      resolved := true;
    }
  }
}
