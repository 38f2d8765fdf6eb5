/** The import session as the cron worker and the repair request update it. */
module ImportSession {
  import opened Prelude
  import opened DataImport
  import opened DataImportProofs
  import opened ImportOutcomes

  /** How many changed rows lie in a chunk. */
  method CountBetween(changed: set<nat>, from: nat, to: nat) returns (n: nat)
    ensures n == |Between(changed, from, to)|
  {
    n := 0;
    var todo := changed;
    while todo != {}
      invariant todo <= changed
      invariant n == |Between(changed - todo, from, to)|
      decreases todo
    {
      var i :| i in todo;
      if from <= i < to {
        assert Between(changed - (todo - {i}), from, to) == Between(changed - todo, from, to) + {i};
        n := n + 1;
      } else {
        assert Between(changed - (todo - {i}), from, to) == Between(changed - todo, from, to);
      }
      todo := todo - {i};
    }
    assert changed - todo == changed;
  }

  method Repeats(cs: seq<Correction>, c: Correction) returns (found: bool)
    ensures found <==> exists i | 0 <= i < |cs| :: SameCell(cs[i], c)
  {
    for j := 0 to |cs|
      invariant forall i | 0 <= i < j :: !SameCell(cs[i], c)
    {
      if SameCell(cs[j], c) { return true; }
    }
    found := false;
  }

  ghost predicate Sound(s: Import, r: Receipt, cs: seq<Correction>, k: nat)
    requires k <= |cs|
  {
    && (forall i | 0 <= i < k :: ValidCorrection(s, r, cs[i]))
    && (forall i, j | 0 <= i < j < k :: !SameCell(cs[i], cs[j]))
  }

  lemma CorrectedExtends(rows: seq<Row>, cs: seq<Correction>, k: nat)
    requires k < |cs| && Addresses(rows, cs[k])
    ensures var (before, c) := (Corrected(rows, cs[..k]), cs[k]);
            && Addresses(before, c)
            && Corrected(rows, cs[..k + 1]) == before[c.row - 1 := before[c.row - 1][c.column := c.value]]
  {
    ShapeKept(rows, cs[..k]);
    assert cs[..k + 1][..k] == cs[..k];
  }

  lemma TouchedExtends(cs: seq<Correction>, k: nat)
    requires k < |cs| && cs[k].row > 0
    ensures Touched(cs[..k + 1]) == Touched(cs[..k]) + {cs[k].row - 1}
  {
    var (a, b) := (cs[..k], cs[..k + 1]);
    assert b[k] == cs[k];
    forall x | x in Touched(b)
      ensures x in Touched(a) + {cs[k].row - 1}
    {
      var i :| 0 <= i < |b| && b[i].row > 0 && b[i].row - 1 == x;
      if i < k { assert a[i] == b[i]; }
    }
    forall x | x in Touched(a)
      ensures x in Touched(b)
    {
      var i :| 0 <= i < |a| && a[i].row > 0 && a[i].row - 1 == x;
      assert b[i] == a[i];
    }
  }

  /** Refuse a correction that is out of range, repeats a cell or changes nothing. */
  method NormalizeRepairCorrections(s: Import, r: Receipt, cs: seq<Correction>) returns (valid: bool)
    ensures valid <==> ValidCorrections(s, r, cs)
  {
    if !(1 <= |cs| <= MAX_CORRECTIONS) { return false; }
    for k := 0 to |cs|
      invariant Sound(s, r, cs, k)
    {
      var repeated := Repeats(cs[..k], cs[k]);
      if repeated {
        var i :| 0 <= i < k && SameCell(cs[..k][i], cs[k]);
        assert SameCell(cs[i], cs[k]);
        return false;
      }
      if !ValidCorrection(s, r, cs[k]) { return false; }
    }
    valid := true;
  }

  /** Apply the corrections cell by cell and collect the rows they touch. */
  method ApplyCorrections(rows: seq<Row>, cs: seq<Correction>) returns (edited: seq<Row>, touched: set<nat>)
    requires forall k | 0 <= k < |cs| :: Addresses(rows, cs[k])
    ensures edited == Corrected(rows, cs) && touched == Touched(cs)
  {
    edited, touched := rows, {};
    for k := 0 to |cs|
      invariant edited == Corrected(rows, cs[..k])
      invariant touched == Touched(cs[..k])
    {
      var c := cs[k];
      CorrectedExtends(rows, cs, k);
      TouchedExtends(cs, k);
      edited := edited[c.row - 1 := edited[c.row - 1][c.column := c.value]];
      touched := touched + {c.row - 1};
    }
    assert cs[..|cs|] == cs;
  }

  /** The checks and the new plan of a repair request; nothing is written yet. */
  method PrepareRepairRequest(s: Import, cs: seq<Correction>, withinSize: bool) returns (plan: Option<Import>)
    requires Rectangular(s.rows, s.width) && s.chunkSize > 0
    ensures plan == Repair(s, cs, withinSize)
  {
    var rejected := ActiveRejected(s);
    if rejected.None? { return None; }
    var valid := NormalizeRepairCorrections(s, rejected.value, cs);
    if !valid || !withinSize { return None; }
    assert forall k | 0 <= k < |cs| :: ValidCorrection(s, rejected.value, cs[k]) && Addresses(s.rows, cs[k]);
    var edited, touched := ApplyCorrections(s.rows, cs);
    if s.failedRows < rejected.value.inputCount || s.totalRows <= s.nextRow { return None; }
    var planned := s.chunkCount + CeilDiv(s.totalRows - s.nextRow, s.chunkSize);
    if planned > MAX_CHUNKS { return None; }
    var changed := s.changed + touched;
    plan := Some(s.(rows := edited, changed := changed, plannedCorrectedRows := |changed|,
                    failedRows := s.failedRows - rejected.value.inputCount, plannedChunkCount := planned,
                    state := Queued));
  }

  /** The values an accepted chunk writes. */
  method AcceptedChunk(s: Import) returns (next: Import)
    ensures next == AcceptChunk(s)
  {
    var (offset, n) := (s.nextRow, ChunkLength(s));
    next := s.(receipts := s.receipts + [Receipt(s.chunkCount + 1, offset + 1, n, true, Chunk(s))]);
    next := next.(nextRow := offset + n, importedRows := s.importedRows + n, chunkCount := s.chunkCount + 1);
    next := next.(state := if next.nextRow >= s.totalRows then Completed else Queued);
    var delta := CountBetween(s.changed, offset, offset + n);
    next := next.(correctedRows := s.correctedRows + delta);
  }

  /** The values a rejected chunk writes. */
  method RejectedChunk(s: Import) returns (next: Import)
    ensures next == RejectChunk(s)
  {
    var n := ChunkLength(s);
    next := s.(receipts := s.receipts + [Receipt(s.chunkCount + 1, s.nextRow + 1, n, false, [])]);
    next := next.(failedRows := s.failedRows + n, chunkCount := s.chunkCount + 1);
    next := next.(state := if s.importedRows > 0 then Partial else Failed);
  }

  class Session {
    const width: nat
    const totalRows: nat
    const chunkSize: nat
    var rows: seq<Row>
    var nextRow: nat
    var importedRows: nat
    var failedRows: nat
    var correctedRows: nat
    var chunkCount: nat
    var plannedChunkCount: nat
    var changed: set<nat>
    var plannedCorrectedRows: nat
    var state: ImportState
    var receipts: seq<Receipt>

    function Value(): Import
      reads this
    {
      Import(width, rows, totalRows, chunkSize, nextRow, importedRows, failedRows, correctedRows, chunkCount,
             plannedChunkCount, changed, plannedCorrectedRows, state, receipts)
    }

    ghost predicate Valid()
      reads this
    {
      ImportInv(Value())
    }

    constructor (width: nat, rows: seq<Row>, chunkSize: nat, changed: set<nat>)
      requires Rectangular(rows, width) && AllBelow(changed, |rows|)
      requires Planned(width, rows, chunkSize, changed).Some?
      ensures Valid() && Value() == Planned(width, rows, chunkSize, changed).value
    {
      PlannedInv(width, rows, chunkSize, changed);
      this.width, this.rows, totalRows, this.chunkSize := width, rows, |rows|, chunkSize;
      nextRow, importedRows, failedRows, correctedRows, chunkCount := 0, 0, 0, 0, 0;
      plannedChunkCount := CeilDiv(|rows|, chunkSize);
      this.changed, plannedCorrectedRows := changed, |changed|;
      state, receipts := Queued, [];
    }

    /** One chunk inside the savepoint. Only an accepted chunk writes anything. */
    method ProcessOneChunk()
      requires Valid() && state == Queued
      modifies this
      ensures Valid() && Value() == AcceptChunk(old(Value()))
    {
      AcceptKeeps(Value());
      var next := AcceptedChunk(Value());
      receipts, state := next.receipts, next.state;
      nextRow, importedRows, chunkCount := next.nextRow, next.importedRows, next.chunkCount;
      correctedRows := next.correctedRows;
    }

    method RecordRejectedChunk()
      requires Valid() && state == Queued
      modifies this
      ensures Valid() && Value() == RejectChunk(old(Value()))
    {
      RejectKeeps(Value());
      var next := RejectedChunk(Value());
      receipts, state := next.receipts, next.state;
      failedRows, chunkCount := next.failedRows, next.chunkCount;
    }

    /** The cron step: at most one chunk, and its outcome is what gets committed. */
    method CronProcessPending(outcome: Outcome) returns (claimed: bool)
      requires Valid()
      modifies this
      ensures Valid()
      ensures claimed == ProcessChunk(old(Value()), outcome).Some?
      ensures Value() == if claimed then ProcessChunk(old(Value()), outcome).value else old(Value())
      ensures claimed <==> old(state) == Queued
      ensures claimed ==> match outcome
                          case Accepted => Delivered(old(Value()), Value())
                          case Rejected => TurnedDown(old(Value()), Value())
                          case Raised => Value() == old(Value()).(state := Failed)
    {
      if state != Queued { return false; }
      GuardsNeverFire(Value());
      AcceptedExactly(Value());
      RejectedExactly(Value());
      match outcome {
        case Accepted => ProcessOneChunk();
        case Rejected => RecordRejectedChunk();
        case Raised => state := Failed;
      }
      claimed := true;
    }

    /** Repair the rejected rows and resume. */
    method ResumeWithCorrections(cs: seq<Correction>, withinSize: bool) returns (resumed: bool)
      requires Valid()
      modifies this
      ensures Valid()
      ensures resumed == Repair(old(Value()), cs, withinSize).Some?
      ensures Value() == if resumed then Repair(old(Value()), cs, withinSize).value else old(Value())
    {
      var plan := PrepareRepairRequest(Value(), cs, withinSize);
      if plan.None? { return false; }
      RepairKeeps(Value(), cs, withinSize);
      rows, changed, plannedCorrectedRows := plan.value.rows, plan.value.changed, plan.value.plannedCorrectedRows;
      failedRows, plannedChunkCount := plan.value.failedRows, plan.value.plannedChunkCount;
      state := Queued;
      resumed := true;
    }
  }
}
