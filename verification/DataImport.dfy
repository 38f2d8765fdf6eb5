/** Chunked import of prepared rows with rejection receipts and repairs: one step per database
    commit. Every transition is a function on the persisted session. */
module DataImport {
  import opened Prelude

  const MAX_CHUNK_SIZE: nat := 1000
  const MAX_CHUNKS: nat := 4096
  const MAX_CORRECTIONS: nat := 64
  const MAX_RULE_VALUE: nat := 1024

  type Row = seq<string>

  datatype ImportState = Queued | Partial | Failed | Completed

  /** A chunk receipt. `rows` are the rows the target model received with it. */
  datatype Receipt = Receipt(sequence: nat, rowStart: nat, inputCount: nat, completed: bool, rows: seq<Row>)

  datatype Import = Import(
    width: nat,
    rows: seq<Row>,
    totalRows: nat,
    chunkSize: nat,
    nextRow: nat,
    importedRows: nat,
    failedRows: nat,
    correctedRows: nat,
    chunkCount: nat,
    plannedChunkCount: nat,
    changed: set<nat>,
    plannedCorrectedRows: nat,
    state: ImportState,
    receipts: seq<Receipt>)

  /** What the native importer did inside the savepoint. */
  datatype Outcome = Accepted | Rejected | Raised

  /** Replace one cell. Row numbers start at 1. */
  datatype Correction = Correction(row: nat, column: nat, value: string)

  function CeilDiv(a: nat, b: nat): nat
    requires b > 0
  {
    (a + b - 1) / b
  }

  predicate Rectangular(rows: seq<Row>, width: nat) {
    forall i | 0 <= i < |rows| :: |rows[i]| == width
  }

  // ----- Planning -----

  /** A new session, or `None` for an invalid chunk size, an empty file or too many chunks. */
  function Planned(width: nat, rows: seq<Row>, chunkSize: nat, changed: set<nat>): Option<Import> {
    if !(1 <= chunkSize <= MAX_CHUNK_SIZE) || rows == [] || CeilDiv(|rows|, chunkSize) > MAX_CHUNKS then None
    else Some(Import(width, rows, |rows|, chunkSize, 0, 0, 0, 0, 0, CeilDiv(|rows|, chunkSize),
                     changed, |changed|, Queued, []))
  }

  // ----- One cron step -----

  function ChunkLength(s: Import): nat {
    if s.nextRow >= |s.rows| then 0 else Min(s.chunkSize, |s.rows| - s.nextRow)
  }

  function Chunk(s: Import): seq<Row> {
    if s.nextRow >= |s.rows| then [] else s.rows[s.nextRow..s.nextRow + ChunkLength(s)]
  }

  function Between(changed: set<nat>, from: nat, to: nat): set<nat> {
    set i | i in changed && from <= i < to
  }

  function AcceptChunk(s: Import): Import {
    var n := ChunkLength(s);
    s.(state := if s.nextRow + n >= s.totalRows then Completed else Queued,
       nextRow := s.nextRow + n,
       importedRows := s.importedRows + n,
       correctedRows := s.correctedRows + |Between(s.changed, s.nextRow, s.nextRow + n)|,
       chunkCount := s.chunkCount + 1,
       receipts := s.receipts + [Receipt(s.chunkCount + 1, s.nextRow + 1, n, true, Chunk(s))])
  }

  /** The savepoint is rolled back and a receipt without rows is written. */
  function RejectChunk(s: Import): Import {
    var n := ChunkLength(s);
    s.(state := if s.importedRows > 0 then Partial else Failed,
       failedRows := s.failedRows + n,
       chunkCount := s.chunkCount + 1,
       receipts := s.receipts + [Receipt(s.chunkCount + 1, s.nextRow + 1, n, false, [])])
  }

  /** Any other error rolls the savepoint back and ends the session without a receipt. */
  function FailSession(s: Import): Import {
    s.(state := Failed)
  }

  /** `None`: the worker only claims queued sessions. */
  function ProcessChunk(s: Import, outcome: Outcome): Option<Import> {
    if !s.state.Queued? then None
    else if s.plannedCorrectedRows != |s.changed| || |s.rows| != s.totalRows then Some(FailSession(s))
    else if s.nextRow >= s.totalRows then Some(s.(state := Completed))
    else if ChunkLength(s) == 0 || s.chunkCount + 1 > s.plannedChunkCount then Some(FailSession(s))
    else Some(match outcome
              case Accepted => AcceptChunk(s)
              case Rejected => RejectChunk(s)
              case Raised => FailSession(s))
  }

  // ----- Repair -----

  function LastRejected(receipts: seq<Receipt>): Option<Receipt> {
    if receipts == [] then None
    else if !receipts[|receipts| - 1].completed then Some(receipts[|receipts| - 1])
    else LastRejected(receipts[..|receipts| - 1])
  }

  /** The rejected chunk a repair may edit: the last receipt, still in front of the next row. */
  function ActiveRejected(s: Import): Option<Receipt> {
    if !s.state.Partial? && !s.state.Failed? then None
    else
      var r := LastRejected(s.receipts);
      if r.None? || r.value.sequence != s.chunkCount || r.value.rowStart != s.nextRow + 1 then None else r
  }

  predicate SameCell(a: Correction, b: Correction) {
    a.row == b.row && a.column == b.column
  }

  /** A replacement value: bounded, and without the NUL character. */
  predicate RuleValue(value: string) {
    |value| <= MAX_RULE_VALUE && '\0' !in value
  }

  predicate ValidCorrection(s: Import, r: Receipt, c: Correction) {
    && r.rowStart <= c.row < r.rowStart + r.inputCount
    && 1 <= c.row <= |s.rows|
    && c.column < s.width
    && c.column < |s.rows[c.row - 1]|
    && RuleValue(c.value)
    && s.rows[c.row - 1][c.column] != c.value
  }

  predicate ValidCorrections(s: Import, r: Receipt, cs: seq<Correction>) {
    && 1 <= |cs| <= MAX_CORRECTIONS
    && (forall i | 0 <= i < |cs| :: ValidCorrection(s, r, cs[i]))
    && (forall i, j | 0 <= i < j < |cs| :: !SameCell(cs[i], cs[j]))
  }

  predicate Addresses(rows: seq<Row>, c: Correction) {
    1 <= c.row <= |rows| && c.column < |rows[c.row - 1]|
  }

  function Patched(rows: seq<Row>, c: Correction): seq<Row> {
    if Addresses(rows, c) then rows[c.row - 1 := rows[c.row - 1][c.column := c.value]] else rows
  }

  function Corrected(rows: seq<Row>, cs: seq<Correction>): seq<Row> {
    if cs == [] then rows else Patched(Corrected(rows, cs[..|cs| - 1]), cs[|cs| - 1])
  }

  function Touched(cs: seq<Correction>): set<nat> {
    set i | 0 <= i < |cs| && cs[i].row > 0 :: cs[i].row - 1
  }

  /** Edit the rejected rows, plan the remaining chunks again and put the session back in the queue. */
  function Repair(s: Import, cs: seq<Correction>, withinSize: bool): Option<Import> {
    var r := ActiveRejected(s);
    if r.None? || !Rectangular(s.rows, s.width) || !ValidCorrections(s, r.value, cs) || !withinSize then None
    else if s.failedRows < r.value.inputCount || s.totalRows <= s.nextRow || s.chunkSize == 0 then None
    else
      var planned := s.chunkCount + CeilDiv(s.totalRows - s.nextRow, s.chunkSize);
      if planned > MAX_CHUNKS then None
      else
        var changed := s.changed + Touched(cs);
        Some(s.(rows := Corrected(s.rows, cs),
                changed := changed,
                plannedCorrectedRows := |changed|,
                failedRows := s.failedRows - r.value.inputCount,
                plannedChunkCount := planned,
                state := Queued))
  }

  datatype ImportEvent = Process(outcome: Outcome) | Resume(corrections: seq<Correction>, withinSize: bool)

  function ImportNext(s: Import, e: ImportEvent): Option<Import> {
    match e
    case Process(outcome) => ProcessChunk(s, outcome)
    case Resume(cs, withinSize) => Repair(s, cs, withinSize)
  }
}
