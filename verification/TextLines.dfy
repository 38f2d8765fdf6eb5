/** Text as lines that keep their terminators, split the way the host language splits strings. */
module TextLines {

  /** Line separators. */
  predicate IsBreak(c: char) {
    || c == '\n' || c == '\r' || c == '\U{0B}' || c == '\U{0C}' || c == '\U{1C}' || c == '\U{1D}' || c == '\U{1E}'
    || c == '\U{85}' || c == '\U{2028}' || c == '\U{2029}'
  }

  /** White space, as stripping and the pattern class `\s` see it. Every line separator is one. */
  predicate IsSpace(c: char) {
    || IsBreak(c) || c == ' ' || c == '\t' || c == '\U{1F}' || c == '\U{A0}' || c == '\U{1680}'
    || '\U{2000}' <= c <= '\U{200A}' || c == '\U{202F}' || c == '\U{205F}' || c == '\U{3000}'
  }

  predicate NoBreak(t: string) {
    forall i | 0 <= i < |t| :: !IsBreak(t[i])
  }

  predicate AllSpace(t: string) {
    forall i | 0 <= i < |t| :: IsSpace(t[i])
  }

  /** Length of the first line, its terminator included; `\r\n` is one terminator. */
  function LineEnd(t: string): (n: nat)
    ensures n <= |t| && (t != "" ==> n > 0)
  {
    if t == "" then 0
    else if !IsBreak(t[0]) then 1 + LineEnd(t[1..])
    else if t[0] == '\r' && |t| > 1 && t[1] == '\n' then 2
    else 1
  }

  function Split(t: string): seq<string> {
    if t == "" then [] else [t[..LineEnd(t)]] + Split(t[LineEnd(t)..])
  }

  function Join(lines: seq<string>): string {
    if lines == [] then "" else lines[0] + Join(lines[1..])
  }

  // ----- Single lines -----

  predicate IsLine(l: string) {
    l != "" && LineEnd(l) == |l|
  }

  predicate Terminated(l: string) {
    l != "" && IsBreak(l[|l| - 1])
  }

  /** The end of l and the start of t would be read as one terminator. */
  predicate Glued(l: string, t: string) {
    l != "" && t != "" && l[|l| - 1] == '\r' && t[0] == '\n'
  }

  predicate IsTerminator(t: string) {
    t == "\r\n" || (|t| == 1 && IsBreak(t[0]))
  }

  lemma {:induction false} LineOf(body: string, end: string)
    requires NoBreak(body) && (end == "" || IsTerminator(end)) && body + end != ""
    ensures IsLine(body + end)
  {
    if body == "" {
      assert body + end == end;
    } else {
      assert (body + end)[1..] == body[1..] + end;
      if body[1..] + end != "" { LineOf(body[1..], end); }
    }
  }

  /** A line is a break-free body and at most one terminator. */
  lemma {:induction false} LineParts(l: string) returns (body: string, end: string)
    requires IsLine(l)
    ensures l == body + end && NoBreak(body) && (end == "" || IsTerminator(end))
  {
    if IsBreak(l[0]) {
      body, end := "", l;
    } else if |l| == 1 {
      body, end := l, "";
    } else {
      var b, e := LineParts(l[1..]);
      body, end := [l[0]] + b, e;
    }
  }

  /** Appending to a terminated line does not move its end. */
  lemma {:induction false} LineEndOfConcat(l: string, t: string)
    requires IsLine(l) && (Terminated(l) || t == "") && !Glued(l, t)
    ensures LineEnd(l + t) == |l|
  {
    if t == "" {
      assert l + t == l;
    } else if !IsBreak(l[0]) {
      assert (l + t)[1..] == l[1..] + t;
      LineEndOfConcat(l[1..], t);
    }
  }

  lemma SplitFirst(l: string, t: string)
    requires IsLine(l) && (Terminated(l) || t == "") && !Glued(l, t)
    ensures Split(l + t) == [l] + Split(t)
  {
    LineEndOfConcat(l, t);
    assert (l + t)[..|l|] == l && (l + t)[|l|..] == t;
  }

  // ----- Lists of lines -----

  /** Joined and split again, the list comes back. */
  predicate WellFormedLines(lines: seq<string>) {
    && (forall i | 0 <= i < |lines| :: IsLine(lines[i]))
    && (forall i | 0 <= i < |lines| - 1 :: Terminated(lines[i]) && !Glued(lines[i], lines[i + 1]))
  }

  lemma HeadFirst<T>(s: seq<T>, t: seq<T>)
    requires s != []
    ensures [s[0]] + (s[1..] + t) == s + t
  {
  }

  lemma TailWellFormed(lines: seq<string>)
    requires WellFormedLines(lines) && lines != []
    ensures IsLine(lines[0]) && WellFormedLines(lines[1..])
    ensures |lines| > 1 ==> IsLine(lines[1]) && Terminated(lines[0]) && !Glued(lines[0], lines[1])
  {
  }

  lemma JoinHead(lines: seq<string>, t: string)
    requires lines != []
    ensures Join(lines) + t == lines[0] + (Join(lines[1..]) + t)
    ensures |lines| > 1 && lines[1] != "" ==> var rest := Join(lines[1..]) + t; rest != "" && rest[0] == lines[1][0]
    ensures |lines| == 1 ==> Join(lines[1..]) + t == t
  {
  }

  lemma {:induction false} SplitPrefix(lines: seq<string>, t: string)
    requires WellFormedLines(lines)
    requires lines != [] && t != "" ==> Terminated(lines[|lines| - 1]) && !Glued(lines[|lines| - 1], t)
    ensures Split(Join(lines) + t) == lines + Split(t)
  {
    if lines == [] {
      assert Join(lines) + t == t;
    } else {
      TailWellFormed(lines);
      SplitPrefix(lines[1..], t);
      JoinHead(lines, t);
      SplitFirst(lines[0], Join(lines[1..]) + t);
      HeadFirst(lines, Split(t));
    }
  }

  lemma SplitOfJoin(lines: seq<string>)
    requires WellFormedLines(lines)
    ensures Split(Join(lines)) == lines
  {
    SplitPrefix(lines, "");
    assert Join(lines) + "" == Join(lines);
    assert lines + Split("") == lines;
  }

  lemma {:induction false} LineEndIsLine(t: string)
    requires t != ""
    ensures IsLine(t[..LineEnd(t)])
    ensures LineEnd(t) < |t| ==> Terminated(t[..LineEnd(t)]) && !Glued(t[..LineEnd(t)], t[LineEnd(t)..])
  {
    var n := LineEnd(t);
    if !IsBreak(t[0]) {
      assert t[..n][1..] == t[1..][..n - 1];
      if t[1..] != "" {
        LineEndIsLine(t[1..]);
        assert t[1..][n - 1..] == t[n..];
        assert t[..n][|t[..n]| - 1] == t[1..][..n - 1][|t[1..][..n - 1]| - 1];
      }
    }
  }

  lemma ConsWellFormed(l: string, rest: seq<string>)
    requires IsLine(l) && WellFormedLines(rest)
    requires rest != [] ==> Terminated(l) && !Glued(l, rest[0])
    ensures WellFormedLines([l] + rest)
  {
    var lines := [l] + rest;
    forall i | 0 <= i < |lines| - 1
      ensures Terminated(lines[i]) && !Glued(lines[i], lines[i + 1])
    {
      if i > 0 { assert lines[i] == rest[i - 1] && lines[i + 1] == rest[i]; }
    }
  }

  lemma {:induction false} SplitIsWellFormed(t: string)
    ensures WellFormedLines(Split(t)) && Join(Split(t)) == t
  {
    if t != "" {
      var (l, more) := (t[..LineEnd(t)], t[LineEnd(t)..]);
      LineEndIsLine(t);
      SplitIsWellFormed(more);
      var rest := Split(more);
      assert ([l] + rest)[1..] == rest;
      assert t == l + more;
      if rest != [] { LineEndIsLine(more); }
      ConsWellFormed(l, rest);
    }
  }

  lemma {:induction false} JoinConcat(a: seq<string>, b: seq<string>)
    ensures Join(a + b) == Join(a) + Join(b)
  {
    if a == [] {
      assert a + b == b;
    } else {
      assert (a + b)[1..] == a[1..] + b;
      JoinConcat(a[1..], b);
    }
  }

  /** Replacing a line inside a text. */
  lemma ReplaceWellFormed(lines: seq<string>, i: nat, l: string)
    requires WellFormedLines(lines) && i < |lines| && IsLine(l)
    requires i + 1 < |lines| ==> Terminated(l) && !Glued(l, lines[i + 1])
    requires i > 0 ==> !Glued(lines[i - 1], l)
    ensures WellFormedLines(lines[i := l])
  {
  }

  // ----- Stripping -----

  function LeadingSpace(t: string): (n: nat)
    ensures n <= |t|
  {
    if t == "" || !IsSpace(t[0]) then 0 else 1 + LeadingSpace(t[1..])
  }

  lemma {:induction false} LeadingSpaceFacts(t: string)
    ensures AllSpace(t[..LeadingSpace(t)])
    ensures LeadingSpace(t) < |t| ==> !IsSpace(t[LeadingSpace(t)])
  {
    if t != "" && IsSpace(t[0]) {
      LeadingSpaceFacts(t[1..]);
      assert t[..LeadingSpace(t)] == [t[0]] + t[1..][..LeadingSpace(t[1..])];
    }
  }

  function RightStrip(t: string): (r: string)
    ensures |r| <= |t|
  {
    if t == "" || !IsSpace(t[|t| - 1]) then t else RightStrip(t[..|t| - 1])
  }

  function Strip(t: string): string {
    RightStrip(t[LeadingSpace(t)..])
  }

  /** Non-empty, no white space at either end. */
  predicate Trimmed(t: string) {
    t != "" && !IsSpace(t[0]) && !IsSpace(t[|t| - 1])
  }

  lemma StripKeeps(t: string)
    requires Trimmed(t)
    ensures Strip(t) == t
  {
    assert LeadingSpace(t) == 0;
    assert t[0..] == t;
  }

  /** White space behind a trimmed text is what stripping removes, and nothing else is. */
  lemma {:induction false} StripTail(t: string, more: string)
    requires Trimmed(t)
    ensures Strip(t + more) == t <==> AllSpace(more)
  {
    var s := t + more;
    assert LeadingSpace(s) == 0 && s[0..] == s;
    if more == "" {
      assert s == t;
    } else {
      var m := |more| - 1;
      if IsSpace(more[m]) {
        assert s[..|s| - 1] == t + more[..m];
        StripTail(t, more[..m]);
        assert (t + more[..m])[0..] == t + more[..m] && LeadingSpace(t + more[..m]) == 0;
        assert AllSpace(more) <==> AllSpace(more[..m]);
      } else {
        assert RightStrip(s) == s && |s| > |t|;
      }
    }
  }
}
