/** What a block is: the stripped text between two blank-line separators, where a separator is as far to the
    left and as long as it can be. */
module TextParagraphs {
  import opened Prelude
  import opened TextLines
  import opened TextChunks
  import opened TextChunkProofs
  import opened ChunkMerging

  /** White space from p to e that begins and ends with a line feed, two different ones. */
  ghost predicate BlankLine(t: string, p: nat, e: nat) {
    && p + 2 <= e <= |t| && t[p] == '\n' && t[e - 1] == '\n'
    && forall i | p <= i < e :: IsSpace(t[i])
  }

  lemma {:induction false} RunEndFacts(t: string, i: nat)
    requires i <= |t|
    ensures var q := RunEnd(t, i);
            && (forall k | i <= k < q :: IsSpace(t[k])) && (q < |t| ==> !IsSpace(t[q]))
    decreases |t| - i
  {
    if i < |t| && IsSpace(t[i]) { RunEndFacts(t, i + 1); }
  }

  lemma {:induction false} LastLineFeedFacts(t: string, from: nat, limit: nat)
    requires from <= limit <= |t|
    ensures var l := LastLineFeed(t, from, limit);
            && (l.Some? ==> t[l.value] == '\n' && forall k | l.value < k < limit :: t[k] != '\n')
            && (l.None? ==> forall k | from <= k < limit :: t[k] != '\n')
    decreases limit
  {
    if from < limit && t[limit - 1] != '\n' { LastLineFeedFacts(t, from, limit - 1); }
  }

  /** A separator starts at p exactly when a blank line does, and it takes the longest one. */
  lemma SeparatorExactly(t: string, p: nat, e: nat)
    requires p < |t|
    ensures SeparatorEnd(t, p) == Some(e) ==> BlankLine(t, p, e)
    ensures BlankLine(t, p, e) ==> SeparatorEnd(t, p).Some? && e <= SeparatorEnd(t, p).value
  {
    RunEndFacts(t, p + 1);
    var q := RunEnd(t, p + 1);
    LastLineFeedFacts(t, p + 1, q);
    if BlankLine(t, p, e) {
      assert p + 1 <= e - 1 < q;
    }
  }

  /** No blank line starts from a to b. */
  ghost predicate NoSeparator(t: string, a: nat, b: nat) {
    forall p, e: nat | a <= p < b :: !BlankLine(t, p, e)
  }

  lemma NoneStartsAt(t: string, p: nat)
    requires p < |t| && SeparatorEnd(t, p).None?
    ensures forall e: nat :: !BlankLine(t, p, e)
  {
    forall e: nat
      ensures !BlankLine(t, p, e)
    {
      SeparatorExactly(t, p, e);
    }
  }

  /** The search finds the leftmost one. */
  lemma {:induction false} NextSeparatorFacts(t: string, from: nat)
    requires from <= |t|
    ensures var m := NextSeparator(t, from);
            && (m.Some? ==> m.value.0 < |t| && SeparatorEnd(t, m.value.0) == Some(m.value.1) && NoSeparator(t, from, m.value.0))
            && (m.None? ==> NoSeparator(t, from, |t|))
    decreases |t| - from
  {
    if from < |t| && SeparatorEnd(t, from).None? {
      NoneStartsAt(t, from);
      NextSeparatorFacts(t, from + 1);
    }
  }

  /** Block b is a paragraph that starts at `from` or later: from the start of the text or behind a longest
      blank line, up to the next blank line or the end of the text. */
  ghost predicate ParagraphTo(t: string, b: Block, e: nat) {
    && b.start < e <= |t| && b.text == Strip(t[b.start..e])
    && NoSeparator(t, b.start, e) && (e == |t| || SeparatorEnd(t, e).Some?)
  }

  ghost predicate StartsParagraph(t: string, start: nat) {
    start == 0 || exists p :: 0 <= p < |t| && SeparatorEnd(t, p) == Some(start)
  }

  ghost predicate Paragraph(t: string, b: Block) {
    StartsParagraph(t, b.start) && exists e: nat :: ParagraphTo(t, b, e)
  }

  lemma LastParagraph(t: string, start: nat)
    requires start < |t| && StartsParagraph(t, start) && NoSeparator(t, start, |t|)
    ensures Paragraph(t, Block(start, Strip(t[start..])))
  {
    assert t[start..|t|] == t[start..];
    assert ParagraphTo(t, Block(start, Strip(t[start..])), |t|);
  }

  lemma InnerParagraph(t: string, start: nat, e: nat)
    requires start < e < |t| && StartsParagraph(t, start) && NoSeparator(t, start, e) && SeparatorEnd(t, e).Some?
    ensures Paragraph(t, Block(start, Strip(t[start..e])))
  {
    assert ParagraphTo(t, Block(start, Strip(t[start..e])), e);
  }

  ghost predicate AllParagraphs(t: string, blocks: seq<Block>) {
    forall i | 0 <= i < |blocks| :: Paragraph(t, blocks[i])
  }

  lemma LastPiece(t: string, start: nat)
    requires start <= |t| && StartsParagraph(t, start) && NoSeparator(t, start, |t|)
    ensures AllParagraphs(t, Piece(t, start, |t|))
  {
    if start < |t| {
      LastParagraph(t, start);
      assert t[start..|t|] == t[start..];
    }
  }

  lemma InnerPiece(t: string, start: nat, e: nat)
    requires start <= e < |t| && StartsParagraph(t, start) && NoSeparator(t, start, e) && SeparatorEnd(t, e).Some?
    ensures AllParagraphs(t, Piece(t, start, e))
  {
    if start < e { InnerParagraph(t, start, e); }
  }

  lemma MoreParagraphs(t: string, a: seq<Block>, b: seq<Block>)
    requires AllParagraphs(t, a) && AllParagraphs(t, b)
    ensures AllParagraphs(t, a + b)
  {
  }

  lemma {:induction false} BlocksFromAreParagraphs(t: string, start: nat)
    requires start <= |t| && StartsParagraph(t, start)
    ensures AllParagraphs(t, BlocksFrom(t, start))
    decreases |t| - start
  {
    var m := NextSeparator(t, start);
    NextSeparatorFacts(t, start);
    BlocksUnfold(t, start);
    if m.None? {
      LastPiece(t, start);
    } else {
      InnerPiece(t, start, m.value.0);
      BlocksFromAreParagraphs(t, m.value.1);
      MoreParagraphs(t, Piece(t, start, m.value.0), BlocksFrom(t, m.value.1));
    }
  }

  /** Every block of a text is a paragraph of it; a text of separators only is one block as it is. */
  lemma BlocksAreParagraphs(t: string)
    ensures AllParagraphs(t, Blocks(t)) || Blocks(t) == [Block(0, t)]
  {
    BlocksFromAreParagraphs(t, 0);
  }

  // ----- The contents of the chunks -----

  lemma {:induction false} RightStripEnds(t: string)
    ensures RightStrip(t) <= t && (RightStrip(t) != "" ==> !IsSpace(RightStrip(t)[|RightStrip(t)| - 1]))
  {
    if t != "" && IsSpace(t[|t| - 1]) { RightStripEnds(t[..|t| - 1]); }
  }

  lemma StripIsTrimmed(t: string)
    ensures Strip(t) == "" || Trimmed(Strip(t))
  {
    LeadingSpaceFacts(t);
    RightStripEnds(t[LeadingSpace(t)..]);
  }

  /** A chunk without white space at its ends, whose range is as long as its content. */
  predicate Tidy(c: Chunk) {
    (c.content == "" || Trimmed(c.content)) && c.end == c.start + |c.content|
  }

  ghost predicate AllTidy(cs: seq<Chunk>) {
    forall i | 0 <= i < |cs| :: Tidy(cs[i])
  }

  lemma RowIsTidy(start: nat, content: string)
    ensures Tidy(ChunkRow(start, content))
  {
    StripIsTrimmed(content);
  }

  lemma {:induction false} PiecesAreTidy(start: nat, block: string)
    ensures AllTidy(Pieces(start, block))
    decreases |block|
  {
    if block != "" {
      var n := Min(MAX_CHUNK_CHARS, |block|);
      PieceStep(start, block);
      RowIsTidy(start, block[..n]);
      PiecesAreTidy(start + n, block[n..]);
    }
  }

  lemma FlushIsTidy(buffer: string, start: nat)
    ensures AllTidy(Flush(buffer, start))
  {
    RowIsTidy(start, buffer);
  }

  lemma {:induction false} AssembledAreTidy(blocks: seq<Block>, buffer: string, start: nat)
    ensures AllTidy(Assemble(blocks, buffer, start))
  {
    FlushIsTidy(buffer, start);
    if blocks != [] {
      var added := AddBlock(blocks[0], buffer, start);
      PiecesAreTidy(blocks[0].start, blocks[0].text);
      assert AllTidy(added.chunks);
      AssembledAreTidy(blocks[1..], added.buffer, added.start);
    }
  }

  lemma ChunksAreTidy(t: string)
    requires ChunkText(t).Ok?
    ensures AllTidy(ChunkText(t).value)
  {
    AssembledAreTidy(Blocks(t), "", 0);
  }
}
