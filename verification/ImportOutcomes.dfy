/** What each outcome of the native importer, and each repair, leaves behind. */
module ImportOutcomes {
  import opened Prelude
  import opened DataImport
  import opened DataImportProofs

  /** The rows the next chunk is made of. */
  function NextRows(s: Import): nat
    requires s.nextRow <= |s.rows|
  {
    Min(s.chunkSize, |s.rows| - s.nextRow)
  }

  ghost predicate SamePlan(s: Import, s': Import) {
    && s'.width == s.width && s'.rows == s.rows && s'.totalRows == s.totalRows && s'.chunkSize == s.chunkSize
    && s'.changed == s.changed && s'.plannedCorrectedRows == s.plannedCorrectedRows
    && s'.plannedChunkCount == s.plannedChunkCount
  }

  ghost predicate SameProgress(s: Import, s': Import) {
    && s'.nextRow == s.nextRow && s'.importedRows == s.importedRows && s'.correctedRows == s.correctedRows
  }

  /** The worker takes a chunk exactly from a session that is queued. */
  lemma ProcessExactly(s: Import, outcome: Outcome)
    ensures ImportNext(s, Process(outcome)).Some? <==> s.state == Queued
  {
  }

  /** The next rows were delivered, and the session moved past them. */
  ghost predicate Delivered(s: Import, s': Import)
    requires s.nextRow <= |s.rows|
  {
    var n := NextRows(s);
    && n > 0 && Imported(s'.receipts) == Imported(s.receipts) + s.rows[s.nextRow..s.nextRow + n]
    && s'.nextRow == s.nextRow + n && s'.importedRows == s.importedRows + n && s'.failedRows == s.failedRows
    && |s'.receipts| == |s.receipts| + 1 && s.receipts <= s'.receipts && s'.chunkCount == s.chunkCount + 1
    && SamePlan(s, s')
    && s'.state == if s'.nextRow == |s.rows| then Completed else Queued
  }

  /** Nothing was delivered: one receipt without rows, its rows counted as failed, the session open for a
      repair of exactly these rows. */
  ghost predicate TurnedDown(s: Import, s': Import)
    requires s.nextRow <= |s.rows|
  {
    var n := NextRows(s);
    && n > 0 && s'.receipts == s.receipts + [Receipt(|s.receipts| + 1, s.nextRow + 1, n, false, [])]
    && s'.failedRows == s.failedRows + n && s'.chunkCount == s.chunkCount + 1
    && SamePlan(s, s') && SameProgress(s, s')
    && s'.state == if s.importedRows > 0 then Partial else Failed
  }

  lemma AcceptedExactly(s: Import)
    requires ImportInv(s) && s.state == Queued
    ensures ImportNext(s, Process(Accepted)).Some? && Delivered(s, ImportNext(s, Process(Accepted)).value)
  {
    GuardsNeverFire(s);
    AppendReceipt(s.receipts, Receipt(s.chunkCount + 1, s.nextRow + 1, ChunkLength(s), true, Chunk(s)));
  }

  lemma RejectedExactly(s: Import)
    requires ImportInv(s) && s.state == Queued
    ensures ImportNext(s, Process(Rejected)).Some?
    ensures var s' := ImportNext(s, Process(Rejected)).value;
            TurnedDown(s, s') && Imported(s'.receipts) == Imported(s.receipts) && JustRejected(s')
  {
    GuardsNeverFire(s);
    RejectKeeps(s);
  }

  /** Any other exception changes nothing but the state, and the session accepts nothing any more. */
  lemma RaisedExactly(s: Import, e: ImportEvent)
    requires ImportInv(s) && s.state == Queued
    ensures ImportNext(s, Process(Raised)).Some?
    ensures var s' := ImportNext(s, Process(Raised)).value;
            s' == s.(state := Failed) && ImportNext(s', e).None?
  {
    GuardsNeverFire(s);
    GenericFailureIsFinal(s, e);
  }

  /** In every run: nothing follows an exception. */
  lemma RaisedIsLast(ss: seq<Import>, es: seq<ImportEvent>, k: nat)
    requires ImportRun(ss, es) && Started(ss[0]) && k < |es| && es[k] == Process(Raised)
    ensures k == |es| - 1 && ss[k + 1] == ss[k].(state := Failed)
  {
    StartedInv(ss[0]);
    ImportRunInv(ss, es, k);
    assert ImportStep(ss[k], es[k], ss[k + 1]);
    RaisedExactly(ss[k], Process(Raised));
    if k + 1 < |es| {
      assert ImportStep(ss[k + 1], es[k + 1], ss[k + 2]);
      RaisedExactly(ss[k], es[k + 1]);
    }
  }

  lemma RepairNeedsFailed(s: Import, cs: seq<Correction>, within: bool)
    requires ImportInv(s) && ImportNext(s, Resume(cs, within)).Some?
    ensures s.failedRows > 0
  {
    RepairAcceptedExactly(s, cs, within);
  }

  lemma FailedAfter(ss: seq<Import>, es: seq<ImportEvent>, m: nat)
    requires ImportRun(ss, es) && ImportInv(ss[0]) && m < |es| && ss[m + 1].failedRows > 0
    ensures es[m] == Process(Rejected)
  {
    ImportRunInv(ss, es, m);
    assert ImportStep(ss[m], es[m], ss[m + 1]);
    if es[m] != Process(Rejected) { NothingFailedLeft(ss[m], es[m]); }
  }

  lemma RepairedAt(ss: seq<Import>, es: seq<ImportEvent>, k: nat)
    requires ImportRun(ss, es) && ImportInv(ss[0]) && k < |es| && es[k].Resume?
    ensures ss[k].failedRows > 0
  {
    ImportRunInv(ss, es, k);
    assert ImportStep(ss[k], es[k], ss[k + 1]);
    RepairNeedsFailed(ss[k], es[k].corrections, es[k].withinSize);
  }

  lemma StartedIsClean(s: Import)
    requires Started(s)
    ensures s.failedRows == 0 && ImportInv(s)
  {
    StartedInv(s);
  }

  /** In every run: a repair directly follows the rejection it repairs. */
  lemma RepairFollowsRejection(ss: seq<Import>, es: seq<ImportEvent>, k: nat)
    requires ImportRun(ss, es) && Started(ss[0]) && k < |es| && es[k].Resume?
    ensures k > 0 && es[k - 1] == Process(Rejected)
  {
    StartedIsClean(ss[0]);
    RepairedAt(ss, es, k);
    if k > 0 { FailedAfter(ss, es, k - 1); }
  }

  lemma NothingFailedLeft(s: Import, e: ImportEvent)
    requires ImportInv(s) && ImportNext(s, e).Some? && e != Process(Rejected)
    ensures ImportNext(s, e).value.failedRows == 0
  {
    match e
    case Process(outcome) => GuardsNeverFire(s);
    case Resume(cs, within) => RepairLeavesNone(s, cs, within);
  }

  lemma RepairLeavesNone(s: Import, cs: seq<Correction>, within: bool)
    requires ImportInv(s) && Repair(s, cs, within).Some?
    ensures Repair(s, cs, within).value.failedRows == 0
  {
    RepairAcceptedExactly(s, cs, within);
    RejectedIsLast(s);
  }

  // ----- What a repair changes -----

  /** An accepted repair writes the corrections and nothing else into the rows, leaves what was imported
      and its receipts alone, takes the rejected rows off the failed ones, marks exactly the edited rows as
      changed and queues the session with a plan for the rest. */
  lemma RepairExactly(s: Import, cs: seq<Correction>, within: bool, i: nat, column: nat)
    requires ImportInv(s) && ImportNext(s, Resume(cs, within)).Some?
    ensures var s' := ImportNext(s, Resume(cs, within)).value;
            && s'.state == Queued && s'.failedRows == 0 && s'.receipts == s.receipts && SameProgress(s, s')
            && |s'.rows| == |s.rows| && s'.totalRows == s.totalRows && s'.chunkSize == s.chunkSize
            && s'.plannedChunkCount == s.chunkCount + CeilDiv(|s.rows| - s.nextRow, s.chunkSize)
    ensures i < |s.rows| ==>
              var s' := ImportNext(s, Resume(cs, within)).value;
              && |s'.rows[i]| == |s.rows[i]|
              && (i in s'.changed <==> i in s.changed || s'.rows[i] != s.rows[i])
              && (i < s.nextRow ==> s'.rows[i] == s.rows[i])
    ensures i < |s.rows| && column < |s.rows[i]| ==>
              var s' := ImportNext(s, Resume(cs, within)).value;
              && (forall k | 0 <= k < |cs| && cs[k].row == i + 1 && cs[k].column == column :: s'.rows[i][column] == cs[k].value)
              && (!Names(cs, i, column) ==> s'.rows[i][column] == s.rows[i][column])
  {
    RepairAcceptedExactly(s, cs, within);
    RejectedIsLast(s);
    var r := s.receipts[|s.receipts| - 1];
    RepairKeepsImported(s, cs, r);
    if i < |s.rows| {
      TouchedExactly(s, r, cs, i);
      if i < s.nextRow { assert s.rows[..s.nextRow][i] == s.rows[i]; }
      assert forall k | 0 <= k < |cs| :: ValidCorrection(s, r, cs[k]) && Addresses(s.rows, cs[k]);
      if column < |s.rows[i]| { CorrectedCell(s.rows, cs, i, column); }
    }
  }

  /** A session is accepted exactly with a chunk size from 1 to 1000 and between one row and 4096 chunks of rows. */
  lemma PlannedExactly(width: nat, rows: seq<Row>, chunkSize: nat, changed: set<nat>)
    ensures Planned(width, rows, chunkSize, changed).Some? <==>
              1 <= chunkSize <= MAX_CHUNK_SIZE && 1 <= |rows| <= MAX_CHUNKS * chunkSize
    ensures Planned(width, rows, chunkSize, changed).Some? ==>
              var s := Planned(width, rows, chunkSize, changed).value;
              && s.rows == rows && s.width == width && s.chunkSize == chunkSize && s.changed == changed
              && s.state == Queued && s.receipts == [] && s.nextRow == 0 && s.failedRows == 0
              && (s.plannedChunkCount - 1) * chunkSize < |rows| <= s.plannedChunkCount * chunkSize
  {
    if chunkSize > 0 { CeilDivIsLeast(|rows|, chunkSize, MAX_CHUNKS); }
  }

  lemma {:induction false} CeilDivIsLeast(a: nat, b: nat, n: nat)
    requires b > 0
    ensures CeilDiv(a, b) <= n <==> a <= n * b
    ensures a > 0 ==> (CeilDiv(a, b) - 1) * b < a <= CeilDiv(a, b) * b
  {
    var (x, q) := (a + b - 1, CeilDiv(a, b));
    assert x == q * b + x % b;
    assert (q - 1) * b == q * b - b;
    if q <= n { if q < n { ProductGrows(q, n, b); } } else { ProductGrows(n, q, b); }
  }
}
