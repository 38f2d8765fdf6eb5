/** Splitting a document into bounded chunks: blank-line blocks, merged while they fit, cut when they
    do not. */
module TextChunks {
  import opened Prelude
  import opened TextLines

  const MAX_CHUNK_CHARS: nat := 6000
  const MAX_CHUNKS: nat := 2048

  /** Content and its range of character offsets in the text. */
  datatype Chunk = Chunk(content: string, start: nat, end: nat)

  datatype Block = Block(start: nat, text: string)

  datatype ChunkError = TooManyChunks

  // ----- Blocks: what lies between blank lines -----

  /** End of the white space from i on. */
  function RunEnd(t: string, i: nat): (q: nat)
    requires i <= |t|
    ensures i <= q <= |t|
    decreases |t| - i
  {
    if i == |t| || !IsSpace(t[i]) then i else RunEnd(t, i + 1)
  }

  /** Last line feed in [from, to). */
  function LastLineFeed(t: string, from: nat, limit: nat): (l: Option<nat>)
    requires from <= limit <= |t|
    ensures l.Some? ==> from <= l.value < limit
    decreases limit
  {
    if from == limit then None
    else if t[limit - 1] == '\n' then Some(limit - 1)
    else LastLineFeed(t, from, limit - 1)
  }

  /** Where a blank-line separator that starts at p ends: behind the last line feed of the white
      space, if there is a second one. */
  function SeparatorEnd(t: string, p: nat): (e: Option<nat>)
    requires p < |t|
    ensures e.Some? ==> p + 2 <= e.value <= |t|
  {
    if t[p] != '\n' then None
    else
      var l := LastLineFeed(t, p + 1, RunEnd(t, p + 1));
      if l.None? then None else Some(l.value + 1)
  }

  /** The leftmost separator at or behind `from`. */
  function NextSeparator(t: string, from: nat): (m: Option<(nat, nat)>)
    requires from <= |t|
    ensures m.Some? ==> from <= m.value.0 && m.value.0 + 2 <= m.value.1 <= |t|
    decreases |t| - from
  {
    if from == |t| then None
    else if SeparatorEnd(t, from).Some? then Some((from, SeparatorEnd(t, from).value))
    else NextSeparator(t, from + 1)
  }

  function BlocksFrom(t: string, start: nat): seq<Block>
    requires start <= |t|
    decreases |t| - start
  {
    var m := NextSeparator(t, start);
    if m.None? then
      if start < |t| then [Block(start, Strip(t[start..]))] else []
    else
      (if m.value.0 > start then [Block(start, Strip(t[start..m.value.0]))] else []) + BlocksFrom(t, m.value.1)
  }

  /** A text of separators only is one block, as it is. */
  function Blocks(t: string): seq<Block> {
    var blocks := BlocksFrom(t, 0);
    if blocks == [] then [Block(0, t)] else blocks
  }

  // ----- Chunks -----

  function ChunkRow(start: nat, content: string): Chunk {
    Chunk(Strip(content), start, start + |Strip(content)|)
  }

  function Pieces(start: nat, block: string): seq<Chunk>
    decreases |block|
  {
    if block == "" then []
    else if |block| <= MAX_CHUNK_CHARS then [ChunkRow(start, block)]
    else [ChunkRow(start, block[..MAX_CHUNK_CHARS])] + Pieces(start + MAX_CHUNK_CHARS, block[MAX_CHUNK_CHARS..])
  }

  function Flush(buffer: string, start: nat): seq<Chunk> {
    if buffer == "" then [] else [ChunkRow(start, buffer)]
  }

  function Candidate(buffer: string, block: string): string {
    if buffer == "" then block else buffer + ("\n\n" + block)
  }

  /** What one block adds to the chunks, and the buffer it leaves. */
  datatype Added = Added(chunks: seq<Chunk>, buffer: string, start: nat)

  function AddBlock(b: Block, buffer: string, start: nat): Added {
    if b.text == "" then Added([], buffer, start)
    else if |b.text| > MAX_CHUNK_CHARS then Added(Flush(buffer, start) + Pieces(b.start, b.text), "", start)
    else if |Candidate(buffer, b.text)| > MAX_CHUNK_CHARS && buffer != "" then Added(Flush(buffer, start), b.text, b.start)
    else Added([], Candidate(buffer, b.text), if buffer == "" then b.start else start)
  }

  function Assemble(blocks: seq<Block>, buffer: string, start: nat): seq<Chunk> {
    if blocks == [] then Flush(buffer, start)
    else
      var added := AddBlock(blocks[0], buffer, start);
      added.chunks + Assemble(blocks[1..], added.buffer, added.start)
  }

  function ChunkText(t: string): Result<seq<Chunk>, ChunkError> {
    if t == "" then Ok([])
    else
      var chunks := Assemble(Blocks(t), "", 0);
      if |chunks| > MAX_CHUNKS then Err(TooManyChunks) else Ok(chunks)
  }

  // ----- The loops -----

  function Piece(t: string, start: nat, end: nat): seq<Block>
    requires start <= end <= |t|
  {
    if end > start then [Block(start, Strip(t[start..end]))] else []
  }

  lemma BlocksStep(t: string, blocks: seq<Block>, start: nat)
    requires start <= |t|
    ensures var m := NextSeparator(t, start);
            blocks + BlocksFrom(t, start)
            == if m.Some? then (blocks + Piece(t, start, m.value.0)) + BlocksFrom(t, m.value.1)
               else blocks + Piece(t, start, |t|)
  {
    assert t[start..|t|] == t[start..];
  }

  method FindBlocks(t: string) returns (blocks: seq<Block>)
    ensures blocks == Blocks(t)
  {
    blocks := [];
    var start: nat := 0;
    var m := NextSeparator(t, start);
    while m.Some?
      invariant start <= |t| && m == NextSeparator(t, start)
      invariant BlocksFrom(t, 0) == blocks + BlocksFrom(t, start)
      decreases |t| - start
    {
      BlocksStep(t, blocks, start);
      blocks := blocks + Piece(t, start, m.value.0);
      start := m.value.1;
      m := NextSeparator(t, start);
    }
    BlocksStep(t, blocks, start);
    blocks := blocks + Piece(t, start, |t|);
    if blocks == [] { blocks := [Block(0, t)]; }
  }

  /** Cut a long block; None as soon as there are too many chunks. */
  method CutBlock(chunks: seq<Chunk>, b: Block) returns (result: Option<seq<Chunk>>)
    requires b.text != ""
    ensures result == if |chunks + Pieces(b.start, b.text)| > MAX_CHUNKS then None else Some(chunks + Pieces(b.start, b.text))
  {
    var (list, rest, start) := (chunks, b.text, b.start);
    while rest != ""
      invariant list + Pieces(start, rest) == chunks + Pieces(b.start, b.text)
      invariant rest == b.text || |list| <= MAX_CHUNKS
      decreases |rest|
    {
      var n := Min(MAX_CHUNK_CHARS, |rest|);
      PieceStep(start, rest);
      list := list + [ChunkRow(start, rest[..n])];
      start, rest := start + n, rest[n..];
      if |list| > MAX_CHUNKS { return None; }
    }
    assert Pieces(start, rest) == [] && list + [] == list;
    result := Some(list);
  }

  lemma PieceStep(start: nat, rest: string)
    requires rest != ""
    ensures var n := Min(MAX_CHUNK_CHARS, |rest|);
            Pieces(start, rest) == [ChunkRow(start, rest[..n])] + Pieces(start + n, rest[n..])
  {
    if |rest| <= MAX_CHUNK_CHARS { assert rest[..|rest|] == rest; }
  }

  /** One block: flush, cut or merge. None as soon as there are too many chunks. */
  method TakeBlock(chunks: seq<Chunk>, b: Block, buffer: string, start: nat) returns (list: seq<Chunk>, added: Added)
    requires |chunks| <= MAX_CHUNKS
    ensures added == AddBlock(b, buffer, start)
    ensures |chunks + added.chunks| <= MAX_CHUNKS ==> list == chunks + added.chunks
    ensures |chunks + added.chunks| > MAX_CHUNKS ==> |list| > MAX_CHUNKS
  {
    list, added := chunks, Added([], buffer, start);
    if b.text == "" { return; }
    var candidate := Candidate(buffer, b.text);
    if |b.text| > MAX_CHUNK_CHARS {
      var flushed := chunks + Flush(buffer, start);
      var cut := CutBlock(flushed, b);
      added := Added(Flush(buffer, start) + Pieces(b.start, b.text), "", start);
      assert flushed + Pieces(b.start, b.text) == chunks + added.chunks;
      list := if cut.Some? then cut.value else chunks + added.chunks;
    } else if |candidate| > MAX_CHUNK_CHARS && buffer != "" {
      list := chunks + Flush(buffer, start);
      added := Added(Flush(buffer, start), b.text, b.start);
    } else {
      added := Added([], candidate, if buffer == "" then b.start else start);
    }
  }

  lemma AssembleStep(blocks: seq<Block>, i: nat, chunks: seq<Chunk>, buffer: string, start: nat)
    requires i < |blocks|
    ensures var added := AddBlock(blocks[i], buffer, start);
            chunks + Assemble(blocks[i..], buffer, start)
            == (chunks + added.chunks) + Assemble(blocks[i + 1..], added.buffer, added.start)
  {
    assert blocks[i..][0] == blocks[i] && blocks[i..][1..] == blocks[i + 1..];
  }

  /** Merge blocks while they fit; the limit is checked on the way. */
  method AssembleChunks(blocks: seq<Block>) returns (result: Result<seq<Chunk>, ChunkError>)
    ensures var all := Assemble(blocks, "", 0);
            result == if |all| > MAX_CHUNKS then Err(TooManyChunks) else Ok(all)
  {
    var chunks: seq<Chunk>, buffer: string, start: nat := [], "", 0;
    assert blocks[0..] == blocks;
    for i := 0 to |blocks|
      invariant chunks + Assemble(blocks[i..], buffer, start) == Assemble(blocks, "", 0)
      invariant |chunks| <= MAX_CHUNKS
    {
      AssembleStep(blocks, i, chunks, buffer, start);
      var list, added := TakeBlock(chunks, blocks[i], buffer, start);
      if |list| > MAX_CHUNKS { return Err(TooManyChunks); }
      chunks, buffer, start := list, added.buffer, added.start;
    }
    chunks := chunks + Flush(buffer, start);
    result := if |chunks| > MAX_CHUNKS then Err(TooManyChunks) else Ok(chunks);
  }

  method Chunked(t: string) returns (result: Result<seq<Chunk>, ChunkError>)
    ensures result == ChunkText(t)
  {
    if t == "" { return Ok([]); }
    var blocks := FindBlocks(t);
    result := AssembleChunks(blocks);
  }
}
