/** Exactly-once import and its accounting, over every interleaving of accepted, rejected and
    failed chunks and of repairs. */
module DataImportProofs {
  import opened Prelude
  import opened DataImport

  /** All rows the target model received, in the order it received them. */
  function Imported(receipts: seq<Receipt>): seq<Row> {
    if receipts == [] then []
    else Imported(receipts[..|receipts| - 1]) + receipts[|receipts| - 1].rows
  }

  /** A receipt starts right behind the rows imported before it, and a rejected one wrote nothing. */
  ghost predicate ReceiptFits(receipts: seq<Receipt>, i: nat)
    requires i < |receipts|
  {
    && receipts[i].sequence == i + 1
    && receipts[i].rowStart == |Imported(receipts[..i])| + 1
    && receipts[i].inputCount > 0
    && |receipts[i].rows| == if receipts[i].completed then receipts[i].inputCount else 0
  }

  ghost predicate ReceiptsFit(receipts: seq<Receipt>) {
    forall i | 0 <= i < |receipts| :: ReceiptFits(receipts, i)
  }

  /** The last thing that happened was a rejection. */
  ghost predicate JustRejected(s: Import) {
    && (s.state.Partial? || s.state.Failed?)
    && s.receipts != []
    && !s.receipts[|s.receipts| - 1].completed
    && s.failedRows == s.receipts[|s.receipts| - 1].inputCount == ChunkLength(s)
  }

  ghost predicate AllBelow(changed: set<nat>, n: nat) {
    forall i | i in changed :: i < n
  }

  ghost predicate Static(s: Import) {
    && 1 <= s.chunkSize <= MAX_CHUNK_SIZE
    && s.totalRows == |s.rows| > 0
    && Rectangular(s.rows, s.width)
  }

  ghost predicate Progress(s: Import) {
    && s.nextRow <= s.totalRows && s.chunkSize > 0
    && s.importedRows == s.nextRow
    && (s.state.Completed? <==> s.nextRow == s.totalRows)
    && s.chunkCount == |s.receipts|
    && s.chunkCount <= s.plannedChunkCount <= MAX_CHUNKS
    && (s.state.Queued? ==> s.plannedChunkCount - s.chunkCount == CeilDiv(s.totalRows - s.nextRow, s.chunkSize))
    && (s.failedRows == 0 || JustRejected(s))
    && (s.state.Partial? ==> s.nextRow > 0 && s.failedRows > 0)
  }

  ghost predicate Corrections(s: Import) {
    && AllBelow(s.changed, s.totalRows)
    && s.plannedCorrectedRows == |s.changed|
    && s.correctedRows == |Between(s.changed, 0, s.nextRow)|
  }

  /** Exactly once: what the target received is the prefix of the current rows, in order. */
  ghost predicate ExactlyOnce(s: Import) {
    && ReceiptsFit(s.receipts)
    && s.nextRow <= |s.rows|
    && Imported(s.receipts) == s.rows[..s.nextRow]
  }

  ghost predicate ImportInv(s: Import) {
    Static(s) && Progress(s) && Corrections(s) && ExactlyOnce(s)
  }

  // ----- Planning -----

  lemma {:induction false} ProductGrows(x: nat, y: nat, b: nat)
    requires x < y
    ensures x * b + b <= y * b
  {
    assert y * b == (y - 1) * b + b;
    if x < y - 1 { ProductGrows(x, y - 1, b); }
  }

  lemma QuotientIs(x: nat, b: nat, q: nat)
    requires b > 0 && q * b <= x < q * b + b
    ensures x / b == q
  {
    var p := x / b;
    assert x == p * b + x % b;
    if p < q {
      ProductGrows(p, q, b);
    } else if p > q {
      ProductGrows(q, p, b);
    }
  }

  lemma CeilDivFacts(a: nat, b: nat)
    requires b > 0
    ensures a > 0 ==> CeilDiv(a, b) >= 1
    ensures a > b ==> CeilDiv(a, b) == 1 + CeilDiv(a - b, b)
    ensures 0 < a <= b ==> CeilDiv(a, b) == 1
    ensures CeilDiv(0, b) == 0
  {
    QuotientIs(b - 1, b, 0);
    if 0 < a <= b {
      QuotientIs(a + b - 1, b, 1);
    } else if a > b {
      var (q, x) := (CeilDiv(a - b, b), a - b + b - 1);
      assert x == q * b + x % b;
      assert (q + 1) * b == q * b + b;
      QuotientIs(a + b - 1, b, q + 1);
    }
  }

  lemma PlannedInv(width: nat, rows: seq<Row>, chunkSize: nat, changed: set<nat>)
    requires Rectangular(rows, width) && AllBelow(changed, |rows|)
    requires Planned(width, rows, chunkSize, changed).Some?
    ensures ImportInv(Planned(width, rows, chunkSize, changed).value)
  {
    CeilDivFacts(|rows|, chunkSize);
    assert Between(changed, 0, 0) == {};
  }

  // ----- Chunks -----

  lemma AppendReceipt(receipts: seq<Receipt>, r: Receipt)
    requires ReceiptsFit(receipts)
    requires r.sequence == |receipts| + 1 && r.rowStart == |Imported(receipts)| + 1 && r.inputCount > 0
    requires |r.rows| == if r.completed then r.inputCount else 0
    ensures ReceiptsFit(receipts + [r]) && Imported(receipts + [r]) == Imported(receipts) + r.rows
  {
    var after := receipts + [r];
    assert after[..|receipts|] == receipts;
    forall i | 0 <= i < |after|
      ensures ReceiptFits(after, i)
    {
      if i < |receipts| {
        assert ReceiptFits(receipts, i);
        assert after[..i] == receipts[..i];
      }
    }
  }

  lemma BetweenSplits(changed: set<nat>, a: nat, b: nat)
    requires a <= b
    ensures |Between(changed, 0, b)| == |Between(changed, 0, a)| + |Between(changed, a, b)|
  {
    assert Between(changed, 0, b) == Between(changed, 0, a) + Between(changed, a, b);
    assert Between(changed, 0, a) !! Between(changed, a, b);
  }

  lemma AcceptDelivers(s: Import)
    requires Static(s) && ExactlyOnce(s) && s.chunkCount == |s.receipts| && s.nextRow < s.totalRows
    ensures ExactlyOnce(AcceptChunk(s))
  {
    AppendReceipt(s.receipts, Receipt(s.chunkCount + 1, s.nextRow + 1, ChunkLength(s), true, Chunk(s)));
    assert s.rows[..s.nextRow] + Chunk(s) == s.rows[..s.nextRow + ChunkLength(s)];
  }

  lemma AcceptAdvances(s: Import)
    requires Static(s) && Progress(s) && s.state.Queued?
    ensures Progress(AcceptChunk(s))
  {
    CeilDivFacts(s.totalRows - s.nextRow, s.chunkSize);
  }

  lemma AcceptKeeps(s: Import)
    requires ImportInv(s) && s.state.Queued?
    ensures ImportInv(AcceptChunk(s))
  {
    AcceptAdvances(s);
    AcceptDelivers(s);
    BetweenSplits(s.changed, s.nextRow, s.nextRow + ChunkLength(s));
  }

  lemma RejectKeeps(s: Import)
    requires ImportInv(s) && s.state.Queued?
    ensures ImportInv(RejectChunk(s)) && JustRejected(RejectChunk(s)) && RejectChunk(s).failedRows > 0
    ensures Imported(RejectChunk(s).receipts) == Imported(s.receipts)
  {
    CeilDivFacts(s.totalRows - s.nextRow, s.chunkSize);
    AppendReceipt(s.receipts, Receipt(s.chunkCount + 1, s.nextRow + 1, ChunkLength(s), false, []));
  }

  /** Neither guard of the worker ever fires: the plan always has a sequence number left and the
      artifact is never found corrupt. */
  lemma GuardsNeverFire(s: Import)
    requires ImportInv(s) && s.state.Queued?
    ensures s.plannedCorrectedRows == |s.changed| && s.nextRow < s.totalRows
    ensures ChunkLength(s) > 0 && s.chunkCount + 1 <= s.plannedChunkCount
  {
    CeilDivFacts(s.totalRows - s.nextRow, s.chunkSize);
  }

  lemma ProcessKeeps(s: Import, outcome: Outcome)
    requires ImportInv(s) && ProcessChunk(s, outcome).Some?
    ensures ImportInv(ProcessChunk(s, outcome).value)
  {
    GuardsNeverFire(s);
    match outcome
    case Accepted => AcceptKeeps(s);
    case Rejected => RejectKeeps(s);
    case Raised =>
  }

  // ----- Corrections -----

  ghost predicate Names(cs: seq<Correction>, i: nat, column: nat) {
    exists k | 0 <= k < |cs| :: cs[k].row == i + 1 && cs[k].column == column
  }

  lemma NamesOfPrefix(cs: seq<Correction>, i: nat, column: nat)
    requires cs != []
    ensures var (n, last) := (|cs| - 1, cs[|cs| - 1]);
            Names(cs, i, column) <==> Names(cs[..n], i, column) || (last.row == i + 1 && last.column == column)
  {
    var n := |cs| - 1;
    assert forall k | 0 <= k < n :: cs[..n][k] == cs[k];
  }

  /** Every cell holds the value of the correction that names it, or what it held before. The order
      of the corrections does not matter. */
  lemma {:induction false} CorrectedCell(rows: seq<Row>, cs: seq<Correction>, i: nat, column: nat)
    requires i < |rows| && column < |rows[i]|
    requires forall k | 0 <= k < |cs| :: Addresses(rows, cs[k])
    requires forall a, b | 0 <= a < b < |cs| :: !SameCell(cs[a], cs[b])
    ensures CorrectedShape(rows, Corrected(rows, cs))
    ensures forall k | 0 <= k < |cs| && cs[k].row == i + 1 && cs[k].column == column :: Corrected(rows, cs)[i][column] == cs[k].value
    ensures !Names(cs, i, column) ==> Corrected(rows, cs)[i][column] == rows[i][column]
  {
    ShapeKept(rows, cs);
    if cs != [] {
      var (n, last) := (|cs| - 1, cs[|cs| - 1]);
      CorrectedCell(rows, cs[..n], i, column);
      NamesOfPrefix(cs, i, column);
      forall k | 0 <= k < |cs| && cs[k].row == i + 1 && cs[k].column == column
        ensures Corrected(rows, cs)[i][column] == cs[k].value
      {
        if k < n { assert cs[..n][k] == cs[k] && !SameCell(cs[k], last); }
      }
    }
  }

  ghost predicate CorrectedShape(rows: seq<Row>, after: seq<Row>) {
    |after| == |rows| && forall i | 0 <= i < |rows| :: |after[i]| == |rows[i]|
  }

  lemma {:induction false} ShapeKept(rows: seq<Row>, cs: seq<Correction>)
    ensures CorrectedShape(rows, Corrected(rows, cs))
  {
    if cs != [] { ShapeKept(rows, cs[..|cs| - 1]); }
  }

  /** A repair changes exactly the rows it names. */
  lemma TouchedExactly(s: Import, r: Receipt, cs: seq<Correction>, i: nat)
    requires ValidCorrections(s, r, cs) && i < |s.rows|
    ensures CorrectedShape(s.rows, Corrected(s.rows, cs))
    ensures Corrected(s.rows, cs)[i] != s.rows[i] <==> i in Touched(cs)
  {
    var after := Corrected(s.rows, cs);
    ShapeKept(s.rows, cs);
    assert forall k | 0 <= k < |cs| :: ValidCorrection(s, r, cs[k]) && Addresses(s.rows, cs[k]);
    if i in Touched(cs) {
      var k :| 0 <= k < |cs| && cs[k].row > 0 && cs[k].row - 1 == i;
      CorrectedCell(s.rows, cs, i, cs[k].column);
      assert ValidCorrection(s, r, cs[k]);
      assert after[i][cs[k].column] == cs[k].value != s.rows[i][cs[k].column];
    } else {
      forall column | 0 <= column < |s.rows[i]|
        ensures after[i][column] == s.rows[i][column]
      {
        CorrectedCell(s.rows, cs, i, column);
      }
    }
  }

  // ----- Repairs -----

  lemma RejectedIsLast(s: Import)
    requires ImportInv(s) && JustRejected(s)
    ensures ActiveRejected(s) == Some(s.receipts[|s.receipts| - 1])
  {
    var n := |s.receipts| - 1;
    assert ReceiptFits(s.receipts, n);
    assert Imported(s.receipts) == Imported(s.receipts[..n]) + [];
  }

  /** A repair gets past its state checks exactly when the last thing that happened to the session
      was a rejection. After a generic failure the last receipt may still be a rejected one in front
      of the next row; the failed-row count is what refuses it. */
  lemma RepairOnlyAfterRejection(s: Import)
    requires ImportInv(s)
    ensures (ActiveRejected(s).Some? && s.failedRows >= ActiveRejected(s).value.inputCount) <==> s.failedRows > 0
  {
    if s.failedRows > 0 {
      RejectedIsLast(s);
    } else if ActiveRejected(s).Some? {
      LastRejectedIsReceipt(s.receipts);
    }
  }

  /** Exactly which repairs are accepted. */
  lemma RepairAcceptedExactly(s: Import, cs: seq<Correction>, withinSize: bool)
    requires ImportInv(s)
    ensures Repair(s, cs, withinSize).Some? <==>
              && s.failedRows > 0
              && s.receipts != [] && ValidCorrections(s, s.receipts[|s.receipts| - 1], cs)
              && withinSize
              && s.chunkCount + CeilDiv(s.totalRows - s.nextRow, s.chunkSize) <= MAX_CHUNKS
  {
    RepairOnlyAfterRejection(s);
    if s.failedRows > 0 { RejectedIsLast(s); }
  }

  /** A generic failure ends the session for good. */
  lemma GenericFailureIsFinal(s: Import, e: ImportEvent)
    requires ImportInv(s) && s.state.Queued?
    ensures ImportInv(FailSession(s)) && ImportNext(FailSession(s), e).None?
  {
    if e.Resume? { RepairAcceptedExactly(FailSession(s), e.corrections, e.withinSize); }
  }

  lemma {:induction false} LastRejectedIsReceipt(receipts: seq<Receipt>)
    requires ReceiptsFit(receipts)
    ensures LastRejected(receipts).Some? ==> LastRejected(receipts).value.inputCount > 0
  {
    if receipts != [] {
      var n := |receipts| - 1;
      assert ReceiptFits(receipts, n);
      forall i | 0 <= i < n ensures ReceiptFits(receipts[..n], i) {
        assert ReceiptFits(receipts, i) && receipts[..n][..i] == receipts[..i];
      }
      LastRejectedIsReceipt(receipts[..n]);
    }
  }

  lemma RepairKeepsImported(s: Import, cs: seq<Correction>, r: Receipt)
    requires ImportInv(s) && ValidCorrections(s, r, cs) && r.rowStart == s.nextRow + 1
    ensures Rectangular(Corrected(s.rows, cs), s.width) && |Corrected(s.rows, cs)| == |s.rows|
    ensures Corrected(s.rows, cs)[..s.nextRow] == s.rows[..s.nextRow]
    ensures forall i | i in Touched(cs) :: s.nextRow <= i < s.totalRows
  {
    ShapeKept(s.rows, cs);
    forall i | i in Touched(cs)
      ensures s.nextRow <= i < s.totalRows
    {
      var k :| 0 <= k < |cs| && cs[k].row > 0 && cs[k].row - 1 == i;
      assert ValidCorrection(s, r, cs[k]);
    }
    forall i | 0 <= i < s.nextRow
      ensures Corrected(s.rows, cs)[i] == s.rows[i]
    {
      TouchedExactly(s, r, cs, i);
    }
  }

  lemma RepairKeeps(s: Import, cs: seq<Correction>, withinSize: bool)
    requires ImportInv(s) && Repair(s, cs, withinSize).Some?
    ensures ImportInv(Repair(s, cs, withinSize).value)
  {
    RepairOnlyAfterRejection(s);
    RejectedIsLast(s);
    RepairKeepsImported(s, cs, ActiveRejected(s).value);
    var s' := Repair(s, cs, withinSize).value;
    assert Between(s'.changed, 0, s.nextRow) == Between(s.changed, 0, s.nextRow);
  }

  // ----- Runs -----

  ghost predicate ImportStep(s: Import, e: ImportEvent, s': Import) {
    ImportNext(s, e) == Some(s')
  }

  ghost predicate ImportRun(ss: seq<Import>, es: seq<ImportEvent>) {
    && |ss| == |es| + 1
    && (forall i | 0 <= i < |es| :: ImportStep(ss[i], es[i], ss[i + 1]))
  }

  ghost predicate Started(s: Import) {
    exists width, rows, chunkSize, changed ::
      Planned(width, rows, chunkSize, changed) == Some(s) && Rectangular(rows, width) && AllBelow(changed, |rows|)
  }

  lemma StartedInv(s: Import)
    requires Started(s)
    ensures ImportInv(s)
  {
    var width, rows, chunkSize, changed :|
      Planned(width, rows, chunkSize, changed) == Some(s) && Rectangular(rows, width) && AllBelow(changed, |rows|);
    PlannedInv(width, rows, chunkSize, changed);
  }

  lemma ImportStepKeeps(s: Import, e: ImportEvent, s': Import)
    requires ImportInv(s) && ImportStep(s, e, s')
    ensures ImportInv(s')
  {
    match e
    case Process(outcome) => ProcessKeeps(s, outcome);
    case Resume(cs, withinSize) => RepairKeeps(s, cs, withinSize);
  }

  lemma {:induction false} ImportRunInv(ss: seq<Import>, es: seq<ImportEvent>, i: nat)
    requires ImportRun(ss, es) && ImportInv(ss[0]) && i < |ss|
    ensures ImportInv(ss[i])
  {
    if i > 0 {
      ImportRunInv(ss, es, i - 1);
      assert ImportStep(ss[i - 1], es[i - 1], ss[i]);
      ImportStepKeeps(ss[i - 1], es[i - 1], ss[i]);
    }
  }

  /** Exactly once, over every run: the target has received the first `nextRow` rows, each once and
      in order; a completed session has delivered all of them and counted every correction. */
  lemma ImportedExactlyOnce(ss: seq<Import>, es: seq<ImportEvent>, i: nat)
    requires ImportRun(ss, es) && Started(ss[0]) && i < |ss|
    ensures var s := ss[i];
            && s.nextRow <= |s.rows| && Imported(s.receipts) == s.rows[..s.nextRow]
            && s.importedRows == s.nextRow && s.importedRows + s.failedRows <= s.totalRows
            && s.correctedRows == |Between(s.changed, 0, s.nextRow)|
            && (s.state.Completed? ==> Imported(s.receipts) == s.rows && s.correctedRows == s.plannedCorrectedRows)
  {
    StartedInv(ss[0]);
    ImportRunInv(ss, es, i);
    var s := ss[i];
    if s.state.Completed? {
      assert s.rows[..s.nextRow] == s.rows;
      assert Between(s.changed, 0, s.nextRow) == s.changed;
    }
  }

  /** Receipts are only ever added. */
  ghost predicate Extends(s: Import, s': Import) {
    s.nextRow <= s'.nextRow && s.receipts <= s'.receipts
  }

  lemma StepExtends(s: Import, e: ImportEvent)
    requires ImportInv(s) && ImportNext(s, e).Some?
    ensures Extends(s, ImportNext(s, e).value)
  {
    if e.Process? { GuardsNeverFire(s); }
  }

  lemma {:induction false} ImportedOfPrefix(receipts: seq<Receipt>, n: nat)
    requires n <= |receipts|
    ensures Imported(receipts[..n]) <= Imported(receipts)
  {
    if n < |receipts| {
      var m := |receipts| - 1;
      ImportedOfPrefix(receipts[..m], n);
      assert receipts[..m][..n] == receipts[..n];
    } else {
      assert receipts[..n] == receipts;
    }
  }

  lemma RunExtendsOnce(ss: seq<Import>, es: seq<ImportEvent>, k: nat)
    requires ImportRun(ss, es) && ImportInv(ss[0]) && k < |es|
    ensures Extends(ss[k], ss[k + 1])
  {
    ImportRunInv(ss, es, k);
    assert ImportStep(ss[k], es[k], ss[k + 1]);
    StepExtends(ss[k], es[k]);
  }

  lemma {:induction false} RunExtends(ss: seq<Import>, es: seq<ImportEvent>, i: nat, j: nat)
    requires ImportRun(ss, es) && ImportInv(ss[0]) && i <= j < |ss|
    ensures Extends(ss[i], ss[j])
  {
    if i < j {
      RunExtends(ss, es, i, j - 1);
      RunExtendsOnce(ss, es, j - 1);
    }
  }

  /** What was imported once is never imported again, changed or taken back by a later step. */
  lemma ImportedGrows(ss: seq<Import>, es: seq<ImportEvent>, i: nat, j: nat)
    requires ImportRun(ss, es) && Started(ss[0]) && i <= j < |ss|
    ensures ss[i].nextRow <= ss[j].nextRow && Imported(ss[i].receipts) <= Imported(ss[j].receipts)
  {
    StartedInv(ss[0]);
    RunExtends(ss, es, i, j);
    ImportedOfPrefix(ss[j].receipts, |ss[i].receipts|);
    assert ss[j].receipts[..|ss[i].receipts|] == ss[i].receipts;
  }

  /** The plan is exact: when every chunk is accepted, the session completes with its last planned chunk. */
  lemma {:induction false} AcceptedChunksComplete(s: Import)
    requires ImportInv(s) && s.state.Queued?
    ensures var last := AcceptAll(s, s.plannedChunkCount - s.chunkCount);
            last.state.Completed? && last.chunkCount == s.plannedChunkCount
    ensures s.plannedChunkCount - s.chunkCount > 1 ==> AcceptAll(s, s.plannedChunkCount - s.chunkCount - 1).state.Queued?
    decreases s.plannedChunkCount - s.chunkCount
  {
    GuardsNeverFire(s);
    AcceptKeeps(s);
    CeilDivFacts(s.totalRows - s.nextRow, s.chunkSize);
    if AcceptChunk(s).state.Queued? {
      AcceptedChunksComplete(AcceptChunk(s));
    }
  }

  function AcceptAll(s: Import, n: nat): Import
    decreases n
  {
    if n == 0 then s else AcceptAll(AcceptChunk(s), n - 1)
  }
}
