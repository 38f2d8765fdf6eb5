/** The short-lived journal that says, step by step, what survived. */
module EffectJournal {
  import opened Prelude
  import opened TurnTypes

  /** The state a plan snapshot asks for. */
  function TargetState(p: Plan, x: StepId): RowState
    requires x in p.steps && p.steps[x].unit < |p.units|
  {
    match p.steps[x].state
    case StepDone => Verified
    case StepSkipped => Skipped
    case Previewed => if p.units[p.steps[x].unit].state.UnitExecuting? then RowExecuting else RowPrepared
  }

  /** Verified, skipped and reverted rows are never taken back by a later snapshot. */
  function MergeState(current: RowState, target: RowState): RowState {
    if current.Verified? || current.Skipped? || current.Reverted? then current else target
  }

  predicate SameBinding(row: JournalRow, p: Plan, x: StepId)
    requires x in p.steps && p.steps[x].unit < |p.units|
  {
    row.unit == p.steps[x].unit && row.mode == p.units[row.unit].mode && row.call == p.steps[x].call
  }

  /** A row that a snapshot may still update. A rolled back row is not looked up again, so a step
      that reuses its id would be inserted a second time and the unique (turn, step) key refuses it. */
  predicate Reusable(row: JournalRow) {
    !row.state.RolledBack? && !row.state.Reverted?
  }

  /** The snapshot is accepted. */
  ghost predicate Syncable(rows: Journal, p: Plan) {
    && WellFormed(p)
    && (forall x | x in p.steps && x in rows :: Reusable(rows[x]) && SameBinding(rows[x], p, x))
    && (forall x | x in rows && Reusable(rows[x]) :: x in p.steps)
  }

  function SyncedRow(rows: Journal, p: Plan, x: StepId): JournalRow
    requires x in p.steps && p.steps[x].unit < |p.units|
  {
    if x in rows then rows[x].(state := MergeState(rows[x].state, TargetState(p, x)))
    else JournalRow(p.steps[x].unit, p.units[p.steps[x].unit].mode, p.steps[x].call, TargetState(p, x))
  }

  function Synced(rows: Journal, p: Plan): Journal
    requires forall x | x in p.steps :: p.steps[x].unit < |p.units|
  {
    map x | x in rows.Keys + p.steps.Keys :: if x in p.steps then SyncedRow(rows, p, x) else rows[x]
  }

  /** What an interrupted row becomes once the worker transaction is gone. */
  function Interrupted(mode: UnitMode): RowState {
    if mode.External? then Uncertain else RolledBack
  }

  function MarkRow(row: JournalRow, plan: Option<Plan>): JournalRow {
    if plan.None? then
      if row.state.RowExecuting? then row.(state := Uncertain) else row
    else if row.state.Verified? || row.state.Skipped? || row.state.Reverted? then row
    else if row.unit >= |plan.value.units| then
      if row.state.RowExecuting? then row.(state := Uncertain) else row
    else
      var unit := plan.value.units[row.unit];
      if unit.state.UnitCompleted? then row.(state := Uncertain)
      else if unit.state.UnitExecuting? || row.state.RowExecuting? then row.(state := Interrupted(unit.mode))
      else row
  }

  function Marked(rows: Journal, plan: Option<Plan>): Journal {
    map x | x in rows :: MarkRow(rows[x], plan)
  }

  /** The journal proves that the whole effect is gone. */
  predicate AllRolledBack(rows: Journal) {
    rows != map[] && forall x | x in rows :: rows[x].state.RolledBack? || rows[x].state.Skipped?
  }
}
