/** Which blocks a chunk is made of: whole blocks with a blank line between them, as many as fit. */
module ChunkMerging {
  import opened Prelude
  import opened TextLines
  import opened TextChunks

  /** A run of blocks that share a chunk, or one block that is too long for a chunk. */
  datatype Part = Merged(blocks: seq<Block>) | Cut(block: Block)

  /** The texts with a blank line between them. */
  function Joined(blocks: seq<Block>): string {
    if blocks == [] then ""
    else if |blocks| == 1 then blocks[0].text
    else Joined(blocks[..|blocks| - 1]) + ("\n\n" + blocks[|blocks| - 1].text)
  }

  function BlocksOf(parts: seq<Part>): seq<Block> {
    if parts == [] then []
    else (if parts[0].Merged? then parts[0].blocks else [parts[0].block]) + BlocksOf(parts[1..])
  }

  function NonBlank(blocks: seq<Block>): seq<Block> {
    if blocks == [] then []
    else if blocks[0].text == "" then NonBlank(blocks[1..])
    else [blocks[0]] + NonBlank(blocks[1..])
  }

  /** The k-th piece of a long block: 6000 characters, less at the end. */
  function PieceAt(b: Block, k: nat): Chunk
    requires k * MAX_CHUNK_CHARS < |b.text|
  {
    var from := k * MAX_CHUNK_CHARS;
    ChunkRow(b.start + from, b.text[from..Min(from + MAX_CHUNK_CHARS, |b.text|)])
  }

  function PieceCount(b: Block): (n: nat)
    ensures (n - 1) * MAX_CHUNK_CHARS < |b.text| <= n * MAX_CHUNK_CHARS
  {
    (|b.text| + MAX_CHUNK_CHARS - 1) / MAX_CHUNK_CHARS
  }

  function RowsOf(p: Part): seq<Chunk>
    requires p.Merged? ==> p.blocks != []
  {
    match p
    case Merged(blocks) => [ChunkRow(blocks[0].start, Joined(blocks))]
    case Cut(b) => seq(PieceCount(b), k requires 0 <= k < PieceCount(b) => PieceAt(b, k))
  }

  predicate FitsChunk(blocks: seq<Block>) {
    |Joined(blocks)| <= MAX_CHUNK_CHARS
  }

  predicate PartFits(p: Part) {
    match p
    case Merged(blocks) => blocks != [] && FitsChunk(blocks) && forall i | 0 <= i < |blocks| :: blocks[i].text != ""
    case Cut(b) => |b.text| > MAX_CHUNK_CHARS
  }

  function AllRows(parts: seq<Part>): seq<Chunk>
    requires forall i | 0 <= i < |parts| :: PartFits(parts[i])
  {
    if parts == [] then []
    else
      assert forall i | 0 <= i < |parts| - 1 :: parts[1..][i] == parts[i + 1];
      assert PartFits(parts[0]);
      RowsOf(parts[0]) + AllRows(parts[1..])
  }

  /** Two runs in a row: the first block of the second one did not fit any more. */
  predicate ClosedInTime(p: Part, q: Part) {
    p.Merged? && q.Merged? && q.blocks != [] ==> !FitsChunk(p.blocks + [q.blocks[0]])
  }

  /** The non-blank blocks in order, cut into runs as long as possible. */
  ghost predicate Grouped(blocks: seq<Block>, parts: seq<Part>) {
    && (forall i | 0 <= i < |parts| :: PartFits(parts[i]))
    && (forall i | 0 <= i < |parts| - 1 :: ClosedInTime(parts[i], parts[i + 1]))
    && BlocksOf(parts) == NonBlank(blocks)
  }

  // ----- The runs, as the loop makes them -----

  function Opened(run: seq<Block>): seq<Part> {
    if run == [] then [] else [Merged(run)]
  }

  function Parts(blocks: seq<Block>, run: seq<Block>): seq<Part> {
    if blocks == [] then Opened(run)
    else
      var (b, rest) := (blocks[0], blocks[1..]);
      if b.text == "" then Parts(rest, run)
      else if |b.text| > MAX_CHUNK_CHARS then Opened(run) + ([Cut(b)] + Parts(rest, []))
      else if run != [] && !FitsChunk(run + [b]) then [Merged(run)] + Parts(rest, [b])
      else Parts(rest, run + [b])
  }

  /** What is open: short blocks that fit together. */
  ghost predicate RunFits(run: seq<Block>) {
    run != [] ==> PartFits(Merged(run))
  }

  lemma JoinedMore(run: seq<Block>, b: Block)
    ensures Joined(run + [b]) == if run == [] then b.text else Joined(run) + ("\n\n" + b.text)
  {
    var all := run + [b];
    assert all[..|all| - 1] == run && all[|all| - 1] == b;
  }

  lemma RunMore(run: seq<Block>, b: Block)
    requires RunFits(run) && b.text != "" && |b.text| <= MAX_CHUNK_CHARS && (run == [] || FitsChunk(run + [b]))
    ensures RunFits(run + [b])
  {
    JoinedMore(run, b);
  }

  /** The first run starts with what is open. */
  ghost predicate StartsWith(parts: seq<Part>, run: seq<Block>) {
    run != [] ==> parts != [] && parts[0].Merged? && run <= parts[0].blocks
  }

  lemma {:induction false} PartsStart(blocks: seq<Block>, run: seq<Block>)
    requires RunFits(run)
    ensures StartsWith(Parts(blocks, run), run)
  {
    if blocks != [] {
      var (b, rest) := (blocks[0], blocks[1..]);
      if b.text == "" { PartsStart(rest, run); }
      else if |b.text| <= MAX_CHUNK_CHARS && (run == [] || FitsChunk(run + [b])) {
        RunMore(run, b);
        PartsStart(rest, run + [b]);
      }
    }
  }

  ghost predicate PartsFit(parts: seq<Part>) {
    && (forall i | 0 <= i < |parts| :: PartFits(parts[i]))
    && (forall i | 0 <= i < |parts| - 1 :: ClosedInTime(parts[i], parts[i + 1]))
  }

  lemma Prepended(p: Part, parts: seq<Part>)
    requires PartsFit(parts) && PartFits(p) && (parts != [] ==> ClosedInTime(p, parts[0]))
    ensures PartsFit([p] + parts)
  {
    var all := [p] + parts;
    forall i | 0 <= i < |all| - 1
      ensures ClosedInTime(all[i], all[i + 1])
    {
      if i > 0 { assert all[i] == parts[i - 1] && all[i + 1] == parts[i]; }
    }
  }

  lemma OneBlockFits(b: Block)
    requires b.text != "" && |b.text| <= MAX_CHUNK_CHARS
    ensures RunFits([b])
  {
    assert Joined([b]) == b.text;
  }

  lemma {:induction false} PartsAreFit(blocks: seq<Block>, run: seq<Block>)
    requires RunFits(run)
    ensures PartsFit(Parts(blocks, run))
  {
    if blocks != [] {
      var (b, rest) := (blocks[0], blocks[1..]);
      if b.text == "" {
        PartsAreFit(rest, run);
      } else if |b.text| > MAX_CHUNK_CHARS {
        PartsAreFit(rest, []);
        Prepended(Cut(b), Parts(rest, []));
        if run != [] { Prepended(Merged(run), [Cut(b)] + Parts(rest, [])); }
        else { assert Opened(run) + ([Cut(b)] + Parts(rest, [])) == [Cut(b)] + Parts(rest, []); }
      } else if run != [] && !FitsChunk(run + [b]) {
        OneBlockFits(b);
        PartsAreFit(rest, [b]);
        PartsStart(rest, [b]);
        Prepended(Merged(run), Parts(rest, [b]));
      } else {
        RunMore(run, b);
        PartsAreFit(rest, run + [b]);
      }
    }
  }

  lemma BlocksOfMore(p: Part, parts: seq<Part>)
    ensures BlocksOf([p] + parts) == (if p.Merged? then p.blocks else [p.block]) + BlocksOf(parts)
  {
    assert ([p] + parts)[1..] == parts;
  }

  lemma OpenedBlocks(run: seq<Block>, parts: seq<Part>)
    ensures BlocksOf(Opened(run) + parts) == run + BlocksOf(parts)
  {
    if run == [] { assert [] + parts == parts; } else { BlocksOfMore(Merged(run), parts); }
  }

  lemma LongIsCovered(b: Block, run: seq<Block>, parts: seq<Part>, rest: seq<Block>)
    requires BlocksOf(parts) == [] + rest
    ensures BlocksOf(Opened(run) + ([Cut(b)] + parts)) == run + ([b] + rest)
  {
    BlocksOfMore(Cut(b), parts);
    OpenedBlocks(run, [Cut(b)] + parts);
  }

  lemma {:induction false} PartsCover(blocks: seq<Block>, run: seq<Block>)
    ensures BlocksOf(Parts(blocks, run)) == run + NonBlank(blocks)
  {
    if blocks == [] {
      OpenedBlocks(run, []);
      assert Opened(run) + [] == Opened(run);
    } else {
      var (b, rest) := (blocks[0], blocks[1..]);
      if b.text == "" {
        PartsCover(rest, run);
      } else if |b.text| > MAX_CHUNK_CHARS {
        PartsCover(rest, []);
        LongIsCovered(b, run, Parts(rest, []), NonBlank(rest));
      } else if run != [] && !FitsChunk(run + [b]) {
        PartsCover(rest, [b]);
        BlocksOfMore(Merged(run), Parts(rest, [b]));
      } else {
        PartsCover(rest, run + [b]);
        assert (run + [b]) + NonBlank(rest) == run + ([b] + NonBlank(rest));
      }
    }
  }

  // ----- The chunks of the runs -----

  lemma {:induction false} SliceOfRest(t: string, n: nat, from: nat, to: nat)
    requires n <= |t| && from <= to <= |t| - n
    ensures t[n..][from..to] == t[n + from..n + to]
  {
  }

  lemma {:induction false} PieceShifts(b: Block, k: nat)
    requires |b.text| > MAX_CHUNK_CHARS && k * MAX_CHUNK_CHARS < |b.text| - MAX_CHUNK_CHARS
    ensures PieceAt(Block(b.start + MAX_CHUNK_CHARS, b.text[MAX_CHUNK_CHARS..]), k) == PieceAt(b, k + 1)
  {
    var (n, from) := (MAX_CHUNK_CHARS, k * MAX_CHUNK_CHARS);
    assert (k + 1) * MAX_CHUNK_CHARS == n + from;
    SliceOfRest(b.text, n, from, Min(from + n, |b.text| - n));
  }

  lemma OnePiece(b: Block)
    requires 0 < |b.text| <= MAX_CHUNK_CHARS
    ensures RowsOf(Cut(b)) == [ChunkRow(b.start, b.text)]
  {
    assert PieceCount(b) == 1 && b.text[0..|b.text|] == b.text;
  }

  function RestOf(b: Block): Block
    requires |b.text| > MAX_CHUNK_CHARS
  {
    Block(b.start + MAX_CHUNK_CHARS, b.text[MAX_CHUNK_CHARS..])
  }

  lemma {:induction false} OnePieceMore(b: Block)
    requires |b.text| > MAX_CHUNK_CHARS
    ensures PieceCount(b) == PieceCount(RestOf(b)) + 1
  {
  }

  lemma FirstPiece(b: Block)
    requires |b.text| > MAX_CHUNK_CHARS
    ensures PieceAt(b, 0) == ChunkRow(b.start, b.text[..MAX_CHUNK_CHARS])
  {
    assert b.text[0..MAX_CHUNK_CHARS] == b.text[..MAX_CHUNK_CHARS];
  }

  lemma SeqSplits(all: seq<Chunk>, first: Chunk, rest: seq<Chunk>)
    requires |all| == |rest| + 1 && all[0] == first && forall k | 0 <= k < |rest| :: rest[k] == all[k + 1]
    ensures all == [first] + rest
  {
  }

  lemma {:induction false} MorePieces(b: Block)
    requires |b.text| > MAX_CHUNK_CHARS
    ensures RowsOf(Cut(b)) == [ChunkRow(b.start, b.text[..MAX_CHUNK_CHARS])] + RowsOf(Cut(RestOf(b)))
  {
    OnePieceMore(b);
    FirstPiece(b);
    var (all, rest) := (RowsOf(Cut(b)), RowsOf(Cut(RestOf(b))));
    forall k | 0 <= k < |rest|
      ensures rest[k] == all[k + 1]
    {
      PieceShifts(b, k);
    }
    SeqSplits(all, PieceAt(b, 0), rest);
  }

  lemma {:induction false} LongPieces(b: Block)
    requires |b.text| > MAX_CHUNK_CHARS
    ensures Pieces(b.start, b.text) == [ChunkRow(b.start, b.text[..MAX_CHUNK_CHARS])] + Pieces(RestOf(b).start, RestOf(b).text)
  {
  }

  lemma {:induction false} PiecesAre(b: Block)
    requires b.text != ""
    ensures Pieces(b.start, b.text) == RowsOf(Cut(b))
    decreases |b.text|
  {
    if |b.text| <= MAX_CHUNK_CHARS {
      OnePiece(b);
    } else {
      MorePieces(b);
      LongPieces(b);
      PiecesAre(RestOf(b));
    }
  }

  lemma RowsMore(p: Part, parts: seq<Part>)
    requires PartFits(p) && PartsFit(parts) && PartsFit([p] + parts)
    ensures AllRows([p] + parts) == RowsOf(p) + AllRows(parts)
  {
    assert ([p] + parts)[1..] == parts;
  }

  lemma CandidateIs(run: seq<Block>, b: Block)
    requires RunFits(run)
    ensures Candidate(Joined(run), b.text) == Joined(run + [b])
  {
    JoinedMore(run, b);
    if run != [] { RunIsText(run); }
  }

  lemma RunIsText(run: seq<Block>)
    requires run != [] && RunFits(run)
    ensures Joined(run) != ""
  {
    if |run| > 1 { assert |Joined(run)| >= 2; }
  }

  lemma FlushedRun(run: seq<Block>, start: nat)
    requires RunFits(run) && (run != [] ==> start == run[0].start)
    ensures Flush(Joined(run), start) == if run == [] then [] else RowsOf(Merged(run))
  {
    if run != [] { RunIsText(run); }
  }

  lemma Regroup(a: seq<Chunk>, b: seq<Chunk>, c: seq<Chunk>)
    ensures a + (b + c) == (a + b) + c
    ensures ([] + b) + c == b + c
  {
  }

  lemma NothingOpened(parts: seq<Part>)
    ensures Opened([]) + parts == parts
  {
  }

  lemma {:induction false} OpenedRows(run: seq<Block>, start: nat, parts: seq<Part>)
    requires RunFits(run) && (run != [] ==> start == run[0].start) && PartsFit(parts) && PartsFit(Opened(run) + parts)
    ensures AllRows(Opened(run) + parts) == Flush(Joined(run), start) + AllRows(parts)
  {
    FlushedRun(run, start);
    if run != [] {
      assert Opened(run) == [Merged(run)];
      RowsMore(Merged(run), parts);
    } else {
      NothingOpened(parts);
    }
  }

  lemma CutRows(b: Block, run: seq<Block>, start: nat, parts: seq<Part>)
    requires |b.text| > MAX_CHUNK_CHARS && RunFits(run) && (run != [] ==> start == run[0].start) && PartsFit(parts)
    requires PartsFit([Cut(b)] + parts) && PartsFit(Opened(run) + ([Cut(b)] + parts))
    ensures AllRows(Opened(run) + ([Cut(b)] + parts)) == (Flush(Joined(run), start) + Pieces(b.start, b.text)) + AllRows(parts)
  {
    PiecesAre(b);
    RowsMore(Cut(b), parts);
    OpenedRows(run, start, [Cut(b)] + parts);
    Regroup(Flush(Joined(run), start), Pieces(b.start, b.text), AllRows(parts));
  }

  /** The loop makes exactly these runs. */
  lemma {:induction false} AssembleIsParts(blocks: seq<Block>, run: seq<Block>, start: nat)
    requires RunFits(run) && (run != [] ==> start == run[0].start)
    ensures PartsFit(Parts(blocks, run))
    ensures Assemble(blocks, Joined(run), start) == AllRows(Parts(blocks, run))
  {
    PartsAreFit(blocks, run);
    FlushedRun(run, start);
    if blocks == [] {
      if run != [] { RowsMore(Merged(run), []); assert [Merged(run)] + [] == [Merged(run)]; }
    } else {
      var (b, rest) := (blocks[0], blocks[1..]);
      CandidateIs(run, b);
      if b.text == "" {
        AssembleIsParts(rest, run, start);
      } else if |b.text| > MAX_CHUNK_CHARS {
        AssembleIsParts(rest, [], start);
        Prepended(Cut(b), Parts(rest, []));
        CutRows(b, run, start, Parts(rest, []));
      } else if run != [] && !FitsChunk(run + [b]) {
        OneBlockFits(b);
        AssembleIsParts(rest, [b], b.start);
        RowsMore(Merged(run), Parts(rest, [b]));
        RunIsText(run);
      } else {
        RunMore(run, b);
        AssembleIsParts(rest, run + [b], if run == [] then b.start else start);
        if run != [] { RunIsText(run); }
      }
    }
  }

  /** The chunks of a text: its non-blank blocks in order, in runs that share a chunk with a blank line
      between them, a run closed only by a long block or by one that does not fit any more; a long block by
      itself, cut every 6000 characters. */
  lemma ChunksAreRuns(t: string)
    requires t != ""
    ensures exists parts ::
              && Grouped(Blocks(t), parts)
              && ChunkText(t) == if |AllRows(parts)| > MAX_CHUNKS then Err(TooManyChunks) else Ok(AllRows(parts))
  {
    AssembleIsParts(Blocks(t), [], 0);
    PartsCover(Blocks(t), []);
    assert Joined([]) == "" && [] + NonBlank(Blocks(t)) == NonBlank(Blocks(t));
    assert Grouped(Blocks(t), Parts(Blocks(t), []));
  }
}
