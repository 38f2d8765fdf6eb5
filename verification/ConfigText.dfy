/** What joining an edited list of lines and splitting the text again gives. */
module ConfigText {
  import opened Prelude
  import opened TextLines
  import opened ConfigLine
  import opened ConfigRegion
  import opened ConfigPatch

  // ----- Lines -----

  lemma PrefixNoBreak(l: string, n: nat)
    requires IsLine(l) && n < |l| && !IsBreak(l[n])
    ensures NoBreak(l[..n])
  {
    var body, end := LineParts(l);
    if n >= |body| { assert l[n] == end[n - |body|]; }
    assert forall i | 0 <= i < n :: l[..n][i] == body[i];
  }

  lemma EndTerminates(body: string, end: string)
    requires IsTerminator(end)
    ensures Terminated(body + end)
  {
    assert (body + end)[|body + end| - 1] == end[|end| - 1];
  }

  lemma UnterminatedNoBreak(l: string)
    requires IsLine(l) && !Terminated(l)
    ensures NoBreak(l)
  {
    var body, end := LineParts(l);
    if end != "" { EndTerminates(body, end); }
    assert l == body + "";
  }

  lemma NoBreakConcat(a: string, b: string)
    requires NoBreak(a) && NoBreak(b)
    ensures NoBreak(a + b)
  {
  }

  lemma JoinAround(front: seq<string>, x: string, rest: seq<string>)
    ensures Join(front + [x] + rest) == Join(front) + (x + Join(rest))
  {
    JoinConcat(front + [x], rest);
    JoinConcat(front, [x]);
    assert Join([x]) == x + Join([][..]) == x;
  }

  lemma PiecesWellFormed(lines: seq<string>, i: nat)
    requires WellFormedLines(lines) && i < |lines|
    ensures WellFormedLines(lines[..i]) && WellFormedLines(lines[i + 1..]) && IsLine(lines[i])
    ensures i > 0 ==> Terminated(lines[..i][i - 1]) && !Glued(lines[..i][i - 1], lines[i])
    ensures i + 1 < |lines| ==> Terminated(lines[i]) && !Glued(lines[i], lines[i + 1])
  {
  }

  /** The text in front of line i splits into the lines in front, whatever follows. */
  lemma SplitBehind(lines: seq<string>, i: nat, t: string)
    requires WellFormedLines(lines) && i < |lines| && t != "" && t[0] == lines[i][0]
    ensures Split(Join(lines[..i]) + t) == lines[..i] + Split(t)
  {
    PiecesWellFormed(lines, i);
    SplitPrefix(lines[..i], t);
  }

  /** A replaced line that stays a line of its own. */
  lemma SplitReplaced(lines: seq<string>, i: nat, x: string)
    requires WellFormedLines(lines) && i < |lines| && IsLine(x) && x[0] == lines[i][0]
    requires i + 1 < |lines| ==> Terminated(x) && !Glued(x, lines[i + 1])
    ensures Split(Join(lines[i := x])) == lines[i := x]
  {
    ReplaceWellFormed(lines, i, x);
    SplitOfJoin(lines[i := x]);
  }

  lemma UpdateParts<T>(s: seq<T>, i: nat, x: T)
    requires i < |s|
    ensures s[i := x] == s[..i] + [x] + s[i + 1..]
  {
  }

  /** A replaced line without a terminator runs into the next one. */
  lemma SplitMerged(lines: seq<string>, i: nat, x: string)
    requires WellFormedLines(lines) && i + 1 < |lines| && NoBreak(x) && x != "" && x[0] == lines[i][0]
    ensures Split(Join(lines[i := x])) == lines[..i] + ([x + lines[i + 1]] + lines[i + 1..][1..])
  {
    var (next, rest) := (lines[i + 1], lines[i + 1..][1..]);
    UpdateParts(lines, i, x);
    JoinAround(lines[..i], x, lines[i + 1..]);
    assert Join(lines[i + 1..]) == next + Join(rest);
    assert x + (next + Join(rest)) == (x + next) + Join(rest);
    PiecesWellFormed(lines, i + 1);
    PiecesWellFormed(lines, i);
    assert rest == lines[i + 2..];
    PrependLine(x, next);
    SplitBehind(lines, i, (x + next) + Join(rest));
    if rest != [] { assert Join(rest)[0] == rest[0][0]; }
    SplitFirst(x + next, Join(rest));
    SplitOfJoin(rest);
  }

  lemma PrependLine(x: string, l: string)
    requires NoBreak(x) && IsLine(l)
    ensures IsLine(x + l) && (Terminated(l) ==> Terminated(x + l))
  {
    var body, end := LineParts(l);
    NoBreakConcat(x, body);
    LineOf(x + body, end);
    assert x + body + end == x + l;
  }

  lemma SplitContinuedAt(lines: seq<string>, i: nat, tail: string)
    requires WellFormedLines(lines) && i < |lines| && Terminated(lines[i]) && tail != "" && !IsSpace(tail[0])
    ensures Split(Join(lines[..i]) + (lines[i] + tail)) == lines[..i] + ([lines[i]] + Split(tail))
  {
    PiecesWellFormed(lines, i);
    SplitBehind(lines, i, lines[i] + tail);
    SplitFirst(lines[i], tail);
  }

  lemma StartOfConcat(a: string, b: string)
    requires a != ""
    ensures a + b != "" && (a + b)[0] == a[0]
  {
  }

  /** A terminated line with text behind it stays what it was. */
  lemma SplitContinued(lines: seq<string>, i: nat, more: string)
    requires WellFormedLines(lines) && i < |lines| && Terminated(lines[i]) && more != "" && !IsSpace(more[0])
    ensures Split(Join(lines[i := lines[i] + more])) == lines[..i] + ([lines[i]] + Split(more + Join(lines[i + 1..])))
  {
    UpdateParts(lines, i, lines[i] + more);
    JoinAround(lines[..i], lines[i] + more, lines[i + 1..]);
    Regrouped(lines[i], more, Join(lines[i + 1..]));
    StartOfConcat(more, Join(lines[i + 1..]));
    SplitContinuedAt(lines, i, more + Join(lines[i + 1..]));
  }

  // ----- Insertions -----

  /** The list after an insertion: `silent` lines and the new one in front of line `end`. */
  function WithLine(lines: seq<string>, end: nat, silent: seq<string>, x: string): seq<string>
    requires end <= |lines|
  {
    lines[..end] + (silent + [x]) + lines[end..]
  }

  lemma WithLineFacts(lines: seq<string>, end: nat, silent: seq<string>, x: string)
    requires end <= |lines|
    ensures |WithLine(lines, end, silent, x)| == |lines| + |silent| + 1
    ensures WithLine(lines, end, silent, x)[end + |silent|] == x
    ensures end == |lines| ==> WithLine(lines, end, silent, x) == lines + (silent + [x])
  {
  }

  lemma MiddleWellFormed(lines: seq<string>, end: nat, x: string)
    requires WellFormedLines(lines) && 0 < end < |lines|
    requires IsLine(x) && Terminated(x) && !IsSpace(x[0]) && x[|x| - 1] == '\n'
    ensures WellFormedLines(lines[..end] + [x] + lines[end..])
  {
    var after := lines[..end] + [x] + lines[end..];
    forall i | 0 <= i < |after| - 1
      ensures IsLine(after[i]) && Terminated(after[i]) && !Glued(after[i], after[i + 1])
    {
      if i < end - 1 { assert after[i] == lines[i] && after[i + 1] == lines[i + 1]; }
      else if i == end - 1 { assert after[i] == lines[i]; }
      else if i > end { assert after[i] == lines[i - 1] && after[i + 1] == lines[i]; }
    }
    assert after[|after| - 1] == lines[|lines| - 1];
  }

  lemma SplitInsertedMiddle(lines: seq<string>, end: nat, x: string)
    requires WellFormedLines(lines) && 0 < end < |lines|
    requires IsLine(x) && Terminated(x) && !IsSpace(x[0]) && x[|x| - 1] == '\n'
    ensures Split(Join(lines[..end] + [x] + lines[end..])) == WithLine(lines, end, [], x)
  {
    MiddleWellFormed(lines, end, x);
    SplitOfJoin(lines[..end] + [x] + lines[end..]);
    assert [] + [x] == [x];
  }

  lemma SplitAppended(lines: seq<string>, more: string)
    requires WellFormedLines(lines) && lines != [] && Terminated(lines[|lines| - 1])
    requires more != "" ==> !Glued(lines[|lines| - 1], more)
    ensures Split(Join(lines) + more) == lines + Split(more)
  {
    SplitPrefix(lines, more);
  }

  lemma SplitOne(x: string)
    requires IsLine(x)
    ensures Split(x) == [x]
  {
    SplitFirst(x, "");
    assert x + "" == x;
    assert [x] + Split("") == [x];
  }

  lemma JoinAppended(lines: seq<string>, x: string)
    ensures Join(lines + [x]) == Join(lines) + x
  {
    JoinConcat(lines, [x]);
    assert [x][1..] == [];
    assert x + "" == x;
  }

  lemma LastApart<T>(s: seq<T>)
    requires s != []
    ensures s == s[..|s| - 1] + [s[|s| - 1]]
  {
  }

  lemma Regrouped(a: string, b: string, c: string)
    ensures a + (b + c) == (a + b) + c
  {
  }

  /** Behind a file that ends its last line. */
  lemma SplitAtEnd(lines: seq<string>, x: string)
    requires WellFormedLines(lines) && lines != [] && EndsLine(lines[|lines| - 1])
    requires IsLine(x) && !IsSpace(x[0])
    ensures Split(Join(lines + [x])) == WithLine(lines, |lines|, [], x)
  {
    JoinAppended(lines, x);
    SplitAppended(lines, x);
    SplitOne(x);
    WithLineFacts(lines, |lines|, [], x);
    assert [] + [x] == [x];
  }

  /** The terminator that is added to the last line, as text. */
  lemma JoinLast(lines: seq<string>, nl: string, x: string)
    requires lines != []
    ensures Join(lines[..|lines| - 1] + [lines[|lines| - 1] + nl] + [x]) == Join(lines) + (nl + x)
  {
    var (init, last) := (lines[..|lines| - 1], lines[|lines| - 1]);
    JoinAppended(init + [last + nl], x);
    JoinAppended(init, last + nl);
    LastApart(lines);
    JoinAppended(init, last);
    Regrouped(Join(init), last, nl);
    Regrouped(Join(lines), nl, x);
  }

  /** Behind a file that ends with another separator: the added terminator is a line of its own. */
  lemma SplitAfterSeparator(lines: seq<string>, nl: string, x: string)
    requires WellFormedLines(lines) && lines != []
    requires Terminated(lines[|lines| - 1]) && !EndsLine(lines[|lines| - 1])
    requires IsLine(nl) && Terminated(nl) && IsLine(x) && !IsSpace(x[0])
    ensures Split(Join(lines[..|lines| - 1] + [lines[|lines| - 1] + nl] + [x])) == WithLine(lines, |lines|, [nl], x)
  {
    JoinLast(lines, nl, x);
    SplitAppended(lines, nl + x);
    SplitFirst(nl, x);
    SplitOne(x);
    WithLineFacts(lines, |lines|, [nl], x);
  }

  /** Behind an open last line, which gets its terminator. */
  lemma SplitAfterOpenLine(lines: seq<string>, nl: string, x: string)
    requires WellFormedLines(lines) && lines != [] && !Terminated(lines[|lines| - 1])
    requires IsFileNewline(nl) && IsLine(x) && !IsSpace(x[0])
    ensures var closed := lines[|lines| - 1 := lines[|lines| - 1] + nl];
            Split(Join(lines[..|lines| - 1] + [lines[|lines| - 1] + nl] + [x])) == WithLine(closed, |closed|, [], x)
  {
    var (n, last) := (|lines| - 1, lines[|lines| - 1]);
    UnterminatedNoBreak(last);
    LineOf(last, nl);
    ReplaceWellFormed(lines, n, last + nl);
    var closed := lines[n := last + nl];
    LastApart(closed);
    assert closed[..n] == lines[..n];
    SplitAtEnd(closed, x);
  }

  lemma FileNewlineIsLine(text: string)
    ensures IsFileNewline(FileNewline(text)) && IsLine(FileNewline(text)) && Terminated(FileNewline(text))
    ensures AllSpace(FileNewline(text))
  {
    var nl := FileNewline(text);
    LineOf("", nl);
    assert "" + nl == nl;
  }
}
