/** What chunking keeps: every character that is not white space, in order; bounded chunks; ordered,
    disjoint ranges inside the text. */
module TextChunkProofs {
  import opened Prelude
  import opened TextLines
  import opened TextChunks

  /** The characters that are not white space, in order. */
  function Ink(t: string): string {
    if t == "" then "" else (if IsSpace(t[0]) then "" else [t[0]]) + Ink(t[1..])
  }

  function ChunkInk(chunks: seq<Chunk>): string {
    if chunks == [] then "" else Ink(chunks[0].content) + ChunkInk(chunks[1..])
  }

  function BlockInk(blocks: seq<Block>): string {
    if blocks == [] then "" else Ink(blocks[0].text) + BlockInk(blocks[1..])
  }

  // ----- Ink -----

  lemma {:induction false} InkConcat(a: string, b: string)
    ensures Ink(a + b) == Ink(a) + Ink(b)
  {
    if a == "" {
      assert a + b == b;
    } else {
      assert (a + b)[1..] == a[1..] + b;
      InkConcat(a[1..], b);
    }
  }

  lemma {:induction false} InkOfSpace(t: string)
    requires AllSpace(t)
    ensures Ink(t) == ""
  {
    if t != "" { InkOfSpace(t[1..]); }
  }

  lemma {:induction false} InkOfRightStrip(t: string)
    ensures Ink(RightStrip(t)) == Ink(t)
  {
    if t != "" && IsSpace(t[|t| - 1]) {
      InkOfRightStrip(t[..|t| - 1]);
      InkConcat(t[..|t| - 1], [t[|t| - 1]]);
      InkOfSpace([t[|t| - 1]]);
      assert t == t[..|t| - 1] + [t[|t| - 1]];
    }
  }

  lemma {:induction false} InkOfLeading(t: string)
    ensures Ink(t[LeadingSpace(t)..]) == Ink(t)
  {
    if t != "" && IsSpace(t[0]) {
      InkOfLeading(t[1..]);
      assert t[LeadingSpace(t)..] == t[1..][LeadingSpace(t[1..])..];
    }
  }

  /** Stripping loses no ink and makes nothing longer. */
  lemma InkOfStrip(t: string)
    ensures Ink(Strip(t)) == Ink(t) && |Strip(t)| <= |t|
  {
    InkOfLeading(t);
    InkOfRightStrip(t[LeadingSpace(t)..]);
  }

  lemma {:induction false} ChunkInkConcat(a: seq<Chunk>, b: seq<Chunk>)
    ensures ChunkInk(a + b) == ChunkInk(a) + ChunkInk(b)
  {
    if a == [] {
      assert a + b == b;
    } else {
      assert (a + b)[1..] == a[1..] + b;
      ChunkInkConcat(a[1..], b);
    }
  }

  lemma {:induction false} BlockInkConcat(a: seq<Block>, b: seq<Block>)
    ensures BlockInk(a + b) == BlockInk(a) + BlockInk(b)
  {
    if a == [] {
      assert a + b == b;
    } else {
      assert (a + b)[1..] == a[1..] + b;
      BlockInkConcat(a[1..], b);
    }
  }

  // ----- Blocks keep the ink -----

  lemma {:induction false} RunIsSpace(t: string, i: nat)
    requires i <= |t|
    ensures forall k | i <= k < RunEnd(t, i) :: IsSpace(t[k])
    decreases |t| - i
  {
    if i < |t| && IsSpace(t[i]) { RunIsSpace(t, i + 1); }
  }

  /** A separator is white space only. */
  lemma {:induction false} SeparatorIsSpace(t: string, from: nat)
    requires from <= |t| && NextSeparator(t, from).Some?
    ensures var (a, b) := NextSeparator(t, from).value; AllSpace(t[a..b])
    decreases |t| - from
  {
    if SeparatorEnd(t, from).Some? {
      RunIsSpace(t, from + 1);
    } else {
      SeparatorIsSpace(t, from + 1);
    }
  }

  lemma PieceInk(t: string, start: nat, end: nat)
    requires start <= end <= |t|
    ensures BlockInk(Piece(t, start, end)) == Ink(t[start..end])
  {
    InkOfStrip(t[start..end]);
    if end > start { assert Piece(t, start, end)[1..] == []; }
  }

  lemma BlocksUnfold(t: string, start: nat)
    requires start <= |t|
    ensures var m := NextSeparator(t, start);
            BlocksFrom(t, start)
            == if m.Some? then Piece(t, start, m.value.0) + BlocksFrom(t, m.value.1) else Piece(t, start, |t|)
  {
    assert t[start..|t|] == t[start..];
  }

  lemma CutInk(t: string, start: nat, a: nat, b: nat)
    requires start <= a <= b <= |t| && AllSpace(t[a..b])
    ensures Ink(t[start..]) == Ink(t[start..a]) + Ink(t[b..])
  {
    InkOfSpace(t[a..b]);
    InkConcat(t[start..a], t[a..]);
    InkConcat(t[a..b], t[b..]);
    assert t[start..] == t[start..a] + t[a..];
    assert t[a..] == t[a..b] + t[b..];
  }

  lemma {:induction false} BlocksFromInk(t: string, start: nat)
    requires start <= |t|
    ensures BlockInk(BlocksFrom(t, start)) == Ink(t[start..])
    decreases |t| - start
  {
    var m := NextSeparator(t, start);
    BlocksUnfold(t, start);
    if m.None? {
      PieceInk(t, start, |t|);
      assert t[start..|t|] == t[start..];
    } else {
      var (a, b) := m.value;
      PieceInk(t, start, a);
      BlocksFromInk(t, b);
      BlockInkConcat(Piece(t, start, a), BlocksFrom(t, b));
      SeparatorIsSpace(t, start);
      CutInk(t, start, a, b);
    }
  }

  lemma BlocksInk(t: string)
    ensures BlockInk(Blocks(t)) == Ink(t)
  {
    BlocksFromInk(t, 0);
    assert t[0..] == t;
    if BlocksFrom(t, 0) == [] { assert [Block(0, t)][1..] == []; }
  }

  // ----- Chunks keep the ink -----

  lemma OneChunkInk(c: Chunk)
    ensures ChunkInk([c]) == Ink(c.content)
  {
    assert [c][1..] == [];
  }

  lemma FlushInk(buffer: string, start: nat)
    ensures ChunkInk(Flush(buffer, start)) == Ink(buffer)
  {
    InkOfStrip(buffer);
    OneChunkInk(ChunkRow(start, buffer));
  }

  lemma {:induction false} PiecesInk(start: nat, block: string)
    ensures ChunkInk(Pieces(start, block)) == Ink(block)
    decreases |block|
  {
    if block != "" {
      var n := Min(MAX_CHUNK_CHARS, |block|);
      PieceStep(start, block);
      PiecesInk(start + n, block[n..]);
      InkOfStrip(block[..n]);
      OneChunkInk(ChunkRow(start, block[..n]));
      ChunkInkConcat([ChunkRow(start, block[..n])], Pieces(start + n, block[n..]));
      InkConcat(block[..n], block[n..]);
      assert block == block[..n] + block[n..];
    }
  }

  lemma BehindBlankLineInk(block: string)
    ensures Ink("\n\n" + block) == Ink(block)
  {
    InkOfSpace("\n\n");
    InkConcat("\n\n", block);
  }

  lemma CandidateInk(buffer: string, block: string)
    ensures Ink(Candidate(buffer, block)) == Ink(buffer) + Ink(block)
  {
    if buffer != "" {
      BehindBlankLineInk(block);
      InkConcat(buffer, "\n\n" + block);
    }
  }

  lemma AddBlockInk(b: Block, buffer: string, start: nat)
    ensures var added := AddBlock(b, buffer, start);
            ChunkInk(added.chunks) + Ink(added.buffer) == Ink(buffer) + Ink(b.text)
  {
    FlushInk(buffer, start);
    PiecesInk(b.start, b.text);
    CandidateInk(buffer, b.text);
    ChunkInkConcat(Flush(buffer, start), Pieces(b.start, b.text));
  }

  lemma InkRegroup(a: string, b: string, c: string, d: string, e: string)
    requires a + b == c + d
    ensures a + (b + e) == c + (d + e)
  {
    assert a + (b + e) == (a + b) + e;
    assert c + (d + e) == (c + d) + e;
  }

  lemma {:induction false} AssembleInk(blocks: seq<Block>, buffer: string, start: nat)
    ensures ChunkInk(Assemble(blocks, buffer, start)) == Ink(buffer) + BlockInk(blocks)
  {
    if blocks == [] {
      FlushInk(buffer, start);
    } else {
      var added := AddBlock(blocks[0], buffer, start);
      AddBlockInk(blocks[0], buffer, start);
      AssembleInk(blocks[1..], added.buffer, added.start);
      ChunkInkConcat(added.chunks, Assemble(blocks[1..], added.buffer, added.start));
      InkRegroup(ChunkInk(added.chunks), Ink(added.buffer), Ink(buffer), Ink(blocks[0].text), BlockInk(blocks[1..]));
    }
  }

  /** Conservation: the chunks hold exactly the text's characters, white space aside. */
  lemma ChunkingKeepsInk(t: string)
    requires ChunkText(t).Ok?
    ensures ChunkInk(ChunkText(t).value) == Ink(t)
  {
    if t != "" {
      BlocksInk(t);
      AssembleInk(Blocks(t), "", 0);
    }
  }

  // ----- Bounds and ranges -----

  ghost predicate Bounded(chunks: seq<Chunk>) {
    forall i | 0 <= i < |chunks| :: |chunks[i].content| <= MAX_CHUNK_CHARS
  }

  /** Ranges follow one another inside [lo, hi], each as long as its content. */
  ghost predicate InOrder(chunks: seq<Chunk>, lo: nat, hi: nat) {
    && lo <= hi
    && (chunks != [] ==>
          && lo <= chunks[0].start
          && chunks[0].end == chunks[0].start + |chunks[0].content|
          && InOrder(chunks[1..], chunks[0].end, hi))
  }

  lemma {:induction false} InOrderConcat(a: seq<Chunk>, b: seq<Chunk>, lo: nat, mid: nat, hi: nat)
    requires InOrder(a, lo, mid) && InOrder(b, mid, hi)
    ensures InOrder(a + b, lo, hi)
  {
    if a == [] {
      assert a + b == b;
      InOrderWiden(b, lo, mid, hi);
    } else {
      assert (a + b)[1..] == a[1..] + b;
      InOrderConcat(a[1..], b, a[0].end, mid, hi);
    }
  }

  lemma InOrderWiden(a: seq<Chunk>, lo: nat, mid: nat, hi: nat)
    requires lo <= mid && InOrder(a, mid, hi)
    ensures InOrder(a, lo, hi)
  {
  }

  lemma FlushInOrder(buffer: string, start: nat, lo: nat)
    requires lo <= start
    ensures InOrder(Flush(buffer, start), lo, start + |buffer|)
  {
    InkOfStrip(buffer);
  }

  lemma RowInOrder(start: nat, content: string)
    ensures InOrder([ChunkRow(start, content)], start, start + |content|)
    ensures |ChunkRow(start, content).content| <= |content|
  {
    InkOfStrip(content);
    assert [ChunkRow(start, content)][1..] == [];
  }

  lemma RowBefore(row: Chunk, rest: seq<Chunk>, lo: nat, mid: nat, hi: nat)
    requires InOrder([row], lo, mid) && InOrder(rest, mid, hi) && Bounded(rest) && |row.content| <= MAX_CHUNK_CHARS
    ensures InOrder([row] + rest, lo, hi) && Bounded([row] + rest)
  {
    InOrderConcat([row], rest, lo, mid, hi);
  }

  ghost predicate Ordered(chunks: seq<Chunk>, lo: nat, hi: nat) {
    InOrder(chunks, lo, hi) && Bounded(chunks)
  }

  lemma PieceBefore(start: nat, content: string, rest: seq<Chunk>, hi: nat)
    requires |content| <= MAX_CHUNK_CHARS && Ordered(rest, start + |content|, hi)
    ensures Ordered([ChunkRow(start, content)] + rest, start, hi)
  {
    RowInOrder(start, content);
    RowBefore(ChunkRow(start, content), rest, start, start + |content|, hi);
  }

  lemma {:induction false} PiecesInOrder(start: nat, block: string)
    ensures Ordered(Pieces(start, block), start, start + |block|)
    decreases |block|
  {
    if block != "" {
      var n := Min(MAX_CHUNK_CHARS, |block|);
      PieceStep(start, block);
      PiecesInOrder(start + n, block[n..]);
      PieceBefore(start, block[..n], Pieces(start + n, block[n..]), start + |block|);
    }
  }

  /** Blocks lie apart by at least the two characters of a separator. */
  ghost predicate Placed(blocks: seq<Block>, lo: nat, hi: nat) {
    blocks != [] ==>
      && lo <= blocks[0].start && blocks[0].start + |blocks[0].text| <= hi
      && Placed(blocks[1..], blocks[0].start + |blocks[0].text| + 2, hi)
  }

  lemma {:induction false} PlacedWiden(blocks: seq<Block>, lo: nat, mid: nat, hi: nat)
    requires lo <= mid && Placed(blocks, mid, hi)
    ensures Placed(blocks, lo, hi)
  {
  }

  lemma PiecePlaced(t: string, start: nat, a: nat, b: nat, rest: seq<Block>)
    requires start <= a && a + 2 <= b <= |t| && Placed(rest, b, |t|)
    ensures Placed(Piece(t, start, a) + rest, start, |t|)
  {
    InkOfStrip(t[start..a]);
    if a > start {
      PlacedWiden(rest, start + |Strip(t[start..a])| + 2, b, |t|);
      assert (Piece(t, start, a) + rest)[1..] == rest;
    } else {
      assert Piece(t, start, a) + rest == rest;
      PlacedWiden(rest, start, b, |t|);
    }
  }

  lemma OnePlaced(b: Block, lo: nat, hi: nat)
    requires lo <= b.start && b.start + |b.text| <= hi
    ensures Placed([b], lo, hi)
  {
    assert [b][1..] == [];
  }

  lemma LastPlaced(t: string, start: nat)
    requires start <= |t|
    ensures Placed(Piece(t, start, |t|), start, |t|)
  {
    if start < |t| {
      var text := Strip(t[start..|t|]);
      assert |text| <= |t| - start by { InkOfStrip(t[start..|t|]); }
      OnePlaced(Block(start, text), start, |t|);
    }
  }

  lemma {:induction false} BlocksPlaced(t: string, start: nat)
    requires start <= |t|
    ensures Placed(BlocksFrom(t, start), start, |t|)
    decreases |t| - start
  {
    var m := NextSeparator(t, start);
    BlocksUnfold(t, start);
    if m.None? {
      LastPlaced(t, start);
    } else {
      BlocksPlaced(t, m.value.1);
      PiecePlaced(t, start, m.value.0, m.value.1, BlocksFrom(t, m.value.1));
    }
  }

  /** The buffer stands for a stretch of text from `start` on; what comes next lies behind it. */
  ghost predicate BufferFits(blocks: seq<Block>, buffer: string, start: nat, lo: nat, hi: nat) {
    && |buffer| <= MAX_CHUNK_CHARS
    && if buffer == "" then lo <= hi && Placed(blocks, lo, hi)
       else lo <= start && start + |buffer| <= hi && Placed(blocks, start + |buffer| + 2, hi)
  }

  /** Where the next range may start once a block was added. */
  function Edge(b: Block, buffer: string, start: nat, lo: nat): nat {
    if b.text == "" then lo
    else if |b.text| > MAX_CHUNK_CHARS then b.start + |b.text|
    else if |Candidate(buffer, b.text)| > MAX_CHUNK_CHARS && buffer != "" then start + |buffer|
    else lo
  }

  lemma LongBlockInOrder(b: Block, buffer: string, start: nat, lo: nat)
    requires |buffer| <= MAX_CHUNK_CHARS && lo <= b.start
    requires buffer != "" ==> lo <= start && start + |buffer| <= b.start
    ensures var all := Flush(buffer, start) + Pieces(b.start, b.text);
            InOrder(all, lo, b.start + |b.text|) && Bounded(all)
  {
    var (flushed, pieces, edge) := (Flush(buffer, start), Pieces(b.start, b.text), b.start + |b.text|);
    PiecesInOrder(b.start, b.text);
    InkOfStrip(buffer);
    if buffer == "" {
      InOrderWiden(pieces, lo, b.start, edge);
      assert [] + pieces == pieces;
    } else {
      FlushInOrder(buffer, start, lo);
      InOrderWiden(pieces, start + |buffer|, b.start, edge);
      InOrderConcat(flushed, pieces, lo, start + |buffer|, edge);
    }
  }

  lemma ShortBlockInOrder(b: Block, rest: seq<Block>, buffer: string, start: nat, lo: nat, hi: nat)
    requires b.text != "" && |b.text| <= MAX_CHUNK_CHARS && Placed(rest, b.start + |b.text| + 2, hi)
    requires b.start + |b.text| <= hi && |buffer| <= MAX_CHUNK_CHARS
    requires if buffer == "" then lo <= b.start else lo <= start && start + |buffer| + 2 <= b.start
    ensures var (added, edge) := (AddBlock(b, buffer, start), Edge(b, buffer, start, lo));
            && InOrder(added.chunks, lo, edge) && Bounded(added.chunks)
            && BufferFits(rest, added.buffer, added.start, edge, hi)
  {
    if buffer != "" {
      InkOfStrip(buffer);
      FlushInOrder(buffer, start, lo);
      PlacedWiden(rest, start + |Candidate(buffer, b.text)| + 2, b.start + |b.text| + 2, hi);
    }
  }

  lemma AddBlockInOrder(blocks: seq<Block>, buffer: string, start: nat, lo: nat, hi: nat)
    requires blocks != [] && BufferFits(blocks, buffer, start, lo, hi)
    ensures var (added, edge) := (AddBlock(blocks[0], buffer, start), Edge(blocks[0], buffer, start, lo));
            && InOrder(added.chunks, lo, edge) && Bounded(added.chunks)
            && BufferFits(blocks[1..], added.buffer, added.start, edge, hi)
  {
    var (b, edge) := (blocks[0], Edge(blocks[0], buffer, start, lo));
    var next := b.start + |b.text| + 2;
    if b.text == "" {
      PlacedWiden(blocks[1..], lo, next, hi);
      if buffer != "" { PlacedWiden(blocks[1..], start + |buffer| + 2, next, hi); }
    } else if |b.text| > MAX_CHUNK_CHARS {
      PlacedWiden(blocks[1..], edge, next, hi);
      LongBlockInOrder(b, buffer, start, lo);
    } else {
      ShortBlockInOrder(b, blocks[1..], buffer, start, lo, hi);
    }
  }

  lemma {:induction false} AssembleInOrder(blocks: seq<Block>, buffer: string, start: nat, lo: nat, hi: nat)
    requires BufferFits(blocks, buffer, start, lo, hi)
    ensures InOrder(Assemble(blocks, buffer, start), lo, hi) && Bounded(Assemble(blocks, buffer, start))
    decreases |blocks|
  {
    if blocks == [] {
      InkOfStrip(buffer);
      if buffer != "" {
        FlushInOrder(buffer, start, lo);
        assert Flush(buffer, start)[1..] == [];
      }
    } else {
      var (added, edge) := (AddBlock(blocks[0], buffer, start), Edge(blocks[0], buffer, start, lo));
      AddBlockInOrder(blocks, buffer, start, lo, hi);
      var rest := Assemble(blocks[1..], added.buffer, added.start);
      AssembleInOrder(blocks[1..], added.buffer, added.start, edge, hi);
      InOrderConcat(added.chunks, rest, lo, edge, hi);
    }
  }

  lemma {:induction false} InOrderFacts(chunks: seq<Chunk>, lo: nat, hi: nat, i: nat, j: nat)
    requires InOrder(chunks, lo, hi) && i <= j < |chunks|
    ensures lo <= chunks[i].start && chunks[i].end == chunks[i].start + |chunks[i].content| <= hi
    ensures i < j ==> chunks[i].end <= chunks[j].start
  {
    if i > 0 {
      InOrderFacts(chunks[1..], chunks[0].end, hi, i - 1, j - 1);
    } else if j > 0 {
      InOrderFacts(chunks[1..], chunks[0].end, hi, 0, j - 1);
      InOrderFacts(chunks[1..], chunks[0].end, hi, j - 1, j - 1);
    }
  }

  lemma AllBlocksPlaced(t: string)
    ensures Placed(Blocks(t), 0, |t|)
  {
    BlocksPlaced(t, 0);
    if BlocksFrom(t, 0) == [] { assert [Block(0, t)][1..] == []; }
  }

  lemma AssembledInOrder(t: string)
    ensures InOrder(Assemble(Blocks(t), "", 0), 0, |t|) && Bounded(Assemble(Blocks(t), "", 0))
  {
    AllBlocksPlaced(t);
    AssembleInOrder(Blocks(t), "", 0, 0, |t|);
  }

  /** At most 2048 chunks of at most 6000 characters, with ranges inside the text, each as long as
      its content, in order and disjoint. */
  lemma ChunksAreBounded(t: string, i: nat, j: nat)
    requires ChunkText(t).Ok? && i <= j < |ChunkText(t).value|
    ensures var chunks := ChunkText(t).value;
            && |chunks| <= MAX_CHUNKS && |chunks[i].content| <= MAX_CHUNK_CHARS
            && chunks[i].end == chunks[i].start + |chunks[i].content| <= |t|
            && (i < j ==> chunks[i].end <= chunks[j].start)
  {
    AssembledInOrder(t);
    InOrderFacts(ChunkText(t).value, 0, |t|, i, j);
  }
}
