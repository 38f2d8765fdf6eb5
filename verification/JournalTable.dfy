/** The journal as the host updates it: row by row, inside one transaction. */
module JournalTable {
  import opened Prelude
  import opened TurnTypes
  import opened EffectJournal

  predicate Distinct(ids: seq<StepId>) {
    forall i, j | 0 <= i < j < |ids| :: ids[i] != ids[j]
  }

  function Keys(ids: seq<StepId>): set<StepId> {
    set x | x in ids
  }

  lemma {:induction false} DistinctSize(ids: seq<StepId>)
    ensures |Keys(ids)| <= |ids|
    ensures Distinct(ids) ==> |Keys(ids)| == |ids|
  {
    if ids != [] {
      var n := |ids| - 1;
      DistinctSize(ids[..n]);
      assert Keys(ids) == Keys(ids[..n]) + {ids[n]};
    }
  }

  /** The snapshot's step x finds a row it may create or update. */
  predicate Accepts(rows: Journal, p: Plan, x: StepId)
    requires x in p.steps
  {
    p.steps[x].unit < |p.units| && (x in rows ==> Reusable(rows[x]) && SameBinding(rows[x], p, x))
  }

  lemma AcceptsExactly(rows: Journal, p: Plan)
    ensures Syncable(rows, p) <==>
              && 1 <= |p.steps| <= MAX_PLAN_STEPS && 1 <= |p.units|
              && (forall x | x in p.steps :: Accepts(rows, p, x))
              && (forall x | x in rows && Reusable(rows[x]) :: x in p.steps)
  {
    assert (forall x | x in p.steps :: Accepts(rows, p, x)) ==> forall x | x in p.steps :: p.steps[x].unit < |p.units|;
  }

  ghost predicate Staged(rows: Journal, p: Plan, seen: set<StepId>, next: Journal)
    requires seen <= p.steps.Keys && forall x | x in seen :: p.steps[x].unit < |p.units|
  {
    next.Keys == rows.Keys + seen
    && forall x | x in next :: next[x] == if x in seen then SyncedRow(rows, p, x) else rows[x]
  }

  /** One pass over the listed steps, up to the first that does not fit. */
  method StageRows(rows: Journal, p: Plan, ids: seq<StepId>) returns (next: Option<Journal>)
    requires Keys(ids) == p.steps.Keys
    ensures next.Some? <==> Distinct(ids) && forall x | x in p.steps :: Accepts(rows, p, x)
    ensures next.Some? ==> Staged(rows, p, p.steps.Keys, next.value)
  {
    var (staged, seen) := (rows, {});
    for i := 0 to |ids|
      invariant seen == Keys(ids[..i]) && Distinct(ids[..i]) && seen <= p.steps.Keys
      invariant forall x | x in seen :: Accepts(rows, p, x)
      invariant Staged(rows, p, seen, staged)
    {
      var x := ids[i];
      assert x in Keys(ids) && Keys(ids[..i + 1]) == Keys(ids[..i]) + {x};
      if x in seen || !Accepts(rows, p, x) { return None; }
      staged := staged[x := SyncedRow(rows, p, x)];
      seen := seen + {x};
    }
    assert ids[..|ids|] == ids;
    next := Some(staged);
  }

  /** The whole snapshot, or None where the code raises. */
  method SyncSnapshot(rows: Journal, p: Plan, ids: seq<StepId>) returns (next: Option<Journal>)
    requires Keys(ids) == p.steps.Keys
    ensures next.Some? <==> Distinct(ids) && Syncable(rows, p)
    ensures next.Some? ==> next.value == Synced(rows, p)
  {
    DistinctSize(ids);
    AcceptsExactly(rows, p);
    assert |p.steps| == |p.steps.Keys|;
    if !(1 <= |ids| <= MAX_PLAN_STEPS) || |p.units| == 0 { return None; }
    next := StageRows(rows, p, ids);
    if next.None? || exists x | x in rows :: Reusable(rows[x]) && x !in p.steps { return None; }
    StagedIsSynced(rows, p, next.value);
  }

  lemma StagedIsSynced(rows: Journal, p: Plan, next: Journal)
    requires (forall x | x in p.steps :: p.steps[x].unit < |p.units|) && Staged(rows, p, p.steps.Keys, next)
    ensures next == Synced(rows, p)
  {
  }

  class JournalRows {
    var rows: Journal

    constructor ()
      ensures rows == map[]
    {
      rows := map[];
    }

    /** Create or update one row per listed step. A refused snapshot raises, and the raised error
        rolls the transaction back, so the rows only change when the whole snapshot fits. */
    method SyncPlan(p: Plan, ids: seq<StepId>) returns (ok: bool)
      requires Keys(ids) == p.steps.Keys
      modifies this
      ensures ok <==> Distinct(ids) && Syncable(old(rows), p)
      ensures rows == if ok then Synced(old(rows), p) else old(rows)
    {
      var next := SyncSnapshot(rows, p, ids);
      if next.Some? { rows := next.value; }
      ok := next.Some?;
    }

    /** Classify the rows of an interrupted unit. */
    method MarkTurnFailure(plan: Option<Plan>)
      modifies this
      ensures rows == Marked(old(rows), plan)
    {
      var (was, todo) := (rows, rows.Keys);
      while todo != {}
        invariant todo <= was.Keys == rows.Keys
        invariant forall x | x in was :: rows[x] == if x in todo then was[x] else MarkRow(was[x], plan)
        decreases todo
      {
        var x :| x in todo;
        var row := rows[x];
        if plan.None? {
          if row.state.RowExecuting? { row := row.(state := Uncertain); }
        } else if !row.state.Verified? && !row.state.Skipped? && !row.state.Reverted? {
          if row.unit >= |plan.value.units| {
            if row.state.RowExecuting? { row := row.(state := Uncertain); }
          } else {
            var unit := plan.value.units[row.unit];
            if unit.state.UnitCompleted? {
              row := row.(state := Uncertain);
            } else if unit.state.UnitExecuting? || row.state.RowExecuting? {
              row := row.(state := if unit.mode.External? then Uncertain else RolledBack);
            }
          }
        }
        rows := rows[x := row];
        todo := todo - {x};
      }
      assert rows == Marked(was, plan);
    }

    method AllTurnEffectsRolledBack() returns (all: bool)
      ensures all <==> AllRolledBack(rows)
    {
      all := rows != map[];
      var todo := rows.Keys;
      while all && todo != {}
        invariant todo <= rows.Keys && (all ==> rows != map[])
        invariant all ==> forall x | x in rows && x !in todo :: rows[x].state.RolledBack? || rows[x].state.Skipped?
        invariant !all ==> !AllRolledBack(rows)
        decreases todo
      {
        var x :| x in todo;
        if !rows[x].state.RolledBack? && !rows[x].state.Skipped? { all := false; }
        todo := todo - {x};
      }
    }
  }
}
