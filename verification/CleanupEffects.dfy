/** What each cleanup rule does to a cell, and in which order. */
module CleanupEffects {
  import opened Prelude
  import opened TextLines
  import opened DataImport
  import opened CleanupRules

  // ----- Words -----

  predicate Word(w: string) {
    w != "" && forall i | 0 <= i < |w| :: !IsSpace(w[i])
  }

  ghost predicate AllWords(ws: seq<string>) {
    forall i | 0 <= i < |ws| :: Word(ws[i])
  }

  /** A text split at its white space. */
  function Words(t: string): seq<string>
    decreases |t|
  {
    var s := t[LeadingSpace(t)..];
    LeadingSpaceFacts(t);
    if s == "" then [] else [s[..WordLength(s)]] + Words(s[WordLength(s)..])
  }

  function Spaced(ws: seq<string>): string {
    if ws == [] then ""
    else if |ws| == 1 then ws[0]
    else ws[0] + (" " + Spaced(ws[1..]))
  }

  lemma {:induction false} WordLengthFacts(t: string)
    ensures forall i | 0 <= i < WordLength(t) :: !IsSpace(t[i])
    ensures WordLength(t) < |t| ==> IsSpace(t[WordLength(t)])
  {
    if t != "" && !IsSpace(t[0]) {
      WordLengthFacts(t[1..]);
      assert forall i | 1 <= i < WordLength(t) :: t[i] == t[1..][i - 1];
    }
  }

  lemma {:induction false} FirstIsWord(s: string)
    requires s != "" && !IsSpace(s[0])
    ensures Word(s[..WordLength(s)])
  {
    WordLengthFacts(s);
  }

  lemma {:induction false} MoreWords(w: string, ws: seq<string>)
    requires Word(w) && AllWords(ws)
    ensures AllWords([w] + ws)
  {
  }

  lemma {:induction false} AfterSpace(t: string)
    ensures var s := t[LeadingSpace(t)..]; s != "" ==> !IsSpace(s[0])
  {
    LeadingSpaceFacts(t);
  }

  lemma {:induction false} WordsAreWords(t: string)
    ensures AllWords(Words(t))
    decreases |t|
  {
    var s := t[LeadingSpace(t)..];
    AfterSpace(t);
    if s != "" {
      FirstIsWord(s);
      WordsAreWords(s[WordLength(s)..]);
      MoreWords(s[..WordLength(s)], Words(s[WordLength(s)..]));
    }
  }

  lemma SpacedMore(w: string, ws: seq<string>)
    ensures Spaced([w] + ws) == if ws == [] then w else w + (" " + Spaced(ws))
  {
    assert ([w] + ws)[1..] == ws;
  }

  lemma {:induction false} SpacedIsEmpty(ws: seq<string>)
    requires AllWords(ws)
    ensures Spaced(ws) == "" <==> ws == []
  {
    if ws != [] { assert Word(ws[0]); }
  }

  /** Squeezing writes the words with one blank between them. */
  lemma {:induction false} SqueezeIsSpaced(t: string)
    ensures Squeeze(t) == Spaced(Words(t))
    decreases |t|
  {
    var s := t[LeadingSpace(t)..];
    LeadingSpaceFacts(t);
    if s != "" {
      var (w, more) := (s[..WordLength(s)], s[WordLength(s)..]);
      SqueezeIsSpaced(more);
      WordsAreWords(more);
      SpacedIsEmpty(Words(more));
      SpacedMore(w, Words(more));
    }
  }

  lemma {:induction false} WordLengthOf(w: string, t: string)
    requires (forall i | 0 <= i < |w| :: !IsSpace(w[i])) && (t == "" || IsSpace(t[0]))
    ensures WordLength(w + t) == |w|
  {
    if w == "" {
      assert w + t == t;
    } else {
      assert (w + t)[1..] == w[1..] + t;
      WordLengthOf(w[1..], t);
    }
  }

  /** A word in front of white space, or of nothing, is the first one. */
  lemma {:induction false} FirstWord(w: string, t: string)
    requires Word(w) && (t == "" || IsSpace(t[0]))
    ensures Words(w + t) == [w] + Words(t)
  {
    var all := w + t;
    assert all[0] == w[0];
    assert LeadingSpace(all) == 0 && all[0..] == all;
    WordLengthOf(w, t);
    assert all[..|w|] == w && all[|w|..] == t;
  }

  lemma {:induction false} SpaceInFront(c: char, t: string)
    requires IsSpace(c)
    ensures Words([c] + t) == Words(t)
  {
    var all := [c] + t;
    assert all[1..] == t;
    assert all[LeadingSpace(all)..] == t[LeadingSpace(t)..];
  }

  lemma NoWords()
    ensures Words("") == []
  {
  }

  /** Writing words and splitting them again gives the same words. */
  lemma {:induction false} WordsOfSpaced(ws: seq<string>)
    requires AllWords(ws)
    ensures Words(Spaced(ws)) == ws
  {
    if ws == [] {
      NoWords();
    } else {
      var (w, more) := (ws[0], ws[1..]);
      assert Word(w) && ws == [w] + more;
      SpacedMore(w, more);
      WordsOfSpaced(more);
      if more == [] {
        FirstWord(w, "");
        NoWords();
        assert w + "" == w;
      } else {
        FirstWord(w, " " + Spaced(more));
        SpaceInFront(' ', Spaced(more));
      }
    }
  }

  /** Squeezing keeps the words, and twice is once. */
  lemma SqueezeKeepsWords(t: string)
    ensures Words(Squeeze(t)) == Words(t) && Squeeze(Squeeze(t)) == Squeeze(t)
  {
    SqueezeIsSpaced(t);
    WordsAreWords(t);
    WordsOfSpaced(Words(t));
    SqueezeIsSpaced(Squeeze(t));
  }

  // ----- The rules of one column -----

  /** No two rules ask for the same column and operation, or for the same replacement. */
  ghost predicate RulesApart(rules: seq<Rule>) {
    forall i, j | 0 <= i < j < |rules| :: !SameKey(rules[i], rules[j])
  }

  /** What the plan of a column says, rule by rule. */
  ghost predicate PlanSays(p: FieldPlan, rules: seq<Rule>, c: nat) {
    && (p.trim <==> Trim(c) in rules)
    && (p.squeeze <==> NormalizeWhitespace(c) in rules)
    && (forall m, v :: ReplaceExact(c, m, v) in rules <==> m in p.replacements && p.replacements[m] == v)
    && (forall v :: SetIfEmpty(c, v) in rules <==> p.setIfEmpty == Some(v))
  }

  lemma NothingSaid(c: nat)
    ensures PlanSays(NO_PLAN, [], c)
  {
  }

  lemma LastOfPrefix(rules: seq<Rule>, r: Rule)
    requires rules != []
    ensures r in rules <==> r in rules[..|rules| - 1] || r == rules[|rules| - 1]
  {
    assert rules == rules[..|rules| - 1] + [rules[|rules| - 1]];
  }

  lemma OtherColumnSays(p: FieldPlan, rules: seq<Rule>, c: nat)
    requires rules != [] && rules[|rules| - 1].column != c && PlanSays(p, rules[..|rules| - 1], c)
    ensures PlanSays(p, rules, c)
  {
    LastOfPrefix(rules, Trim(c));
    LastOfPrefix(rules, NormalizeWhitespace(c));
    forall m, v
      ensures ReplaceExact(c, m, v) in rules <==> m in p.replacements && p.replacements[m] == v
    {
      LastOfPrefix(rules, ReplaceExact(c, m, v));
    }
    forall v
      ensures SetIfEmpty(c, v) in rules <==> p.setIfEmpty == Some(v)
    {
      LastOfPrefix(rules, SetIfEmpty(c, v));
    }
  }

  /** The last rule's key is not in the list before it. */
  lemma LastKeyIsNew(rules: seq<Rule>, r: Rule)
    requires rules != [] && RulesApart(rules) && r in rules[..|rules| - 1]
    ensures !SameKey(r, rules[|rules| - 1])
  {
    var n := |rules| - 1;
    var i :| 0 <= i < n && rules[..n][i] == r;
    assert rules[i] == r;
  }

  lemma SameColumnSays(p: FieldPlan, rules: seq<Rule>, c: nat)
    requires rules != [] && RulesApart(rules) && rules[|rules| - 1].column == c && PlanSays(p, rules[..|rules| - 1], c)
    ensures PlanSays(Extend(p, rules[|rules| - 1]), rules, c)
  {
    var (before, last) := (rules[..|rules| - 1], rules[|rules| - 1]);
    var q := Extend(p, last);
    LastOfPrefix(rules, Trim(c));
    LastOfPrefix(rules, NormalizeWhitespace(c));
    forall m, v
      ensures ReplaceExact(c, m, v) in rules <==> m in q.replacements && q.replacements[m] == v
    {
      LastOfPrefix(rules, ReplaceExact(c, m, v));
      if ReplaceExact(c, m, v) in before { LastKeyIsNew(rules, ReplaceExact(c, m, v)); }
    }
    forall v
      ensures SetIfEmpty(c, v) in rules <==> q.setIfEmpty == Some(v)
    {
      LastOfPrefix(rules, SetIfEmpty(c, v));
      if SetIfEmpty(c, v) in before { LastKeyIsNew(rules, SetIfEmpty(c, v)); }
    }
  }

  lemma {:induction false} PlanForSays(rules: seq<Rule>, c: nat)
    requires RulesApart(rules)
    ensures PlanSays(PlanFor(rules, c), rules, c)
  {
    if rules == [] {
      NothingSaid(c);
    } else {
      var n := |rules| - 1;
      assert RulesApart(rules[..n]) by {
        assert forall i | 0 <= i < n :: rules[..n][i] == rules[i];
      }
      PlanForSays(rules[..n], c);
      if rules[n].column == c { SameColumnSays(PlanFor(rules[..n], c), rules, c); }
      else { OtherColumnSays(PlanFor(rules[..n], c), rules, c); }
    }
  }

  // ----- One cell -----

  /** From the cell to its clean value: trim, then squeeze, then one exact replacement, then the value for a
      blank cell. */
  ghost predicate Stages(rules: seq<Rule>, c: nat, cell: string, trimmed: string, squeezed: string, replaced: string,
                         clean: string) {
    && trimmed == (if Trim(c) in rules then Strip(cell) else cell)
    && squeezed == (if NormalizeWhitespace(c) in rules then Spaced(Words(trimmed)) else trimmed)
    && (forall v | ReplaceExact(c, squeezed, v) in rules :: replaced == v)
    && ((forall v :: ReplaceExact(c, squeezed, v) !in rules) ==> replaced == squeezed)
    && (AllSpace(replaced) ==> forall v | SetIfEmpty(c, v) in rules :: clean == v)
    && (!AllSpace(replaced) || (forall v :: SetIfEmpty(c, v) !in rules) ==> clean == replaced)
  }

  lemma {:induction false} RightStripKeepsFirst(t: string)
    requires t != "" && !IsSpace(t[0])
    ensures RightStrip(t) != ""
  {
    if IsSpace(t[|t| - 1]) { RightStripKeepsFirst(t[..|t| - 1]); }
  }

  lemma {:induction false} BlankIsStripped(t: string)
    ensures Strip(t) == "" <==> AllSpace(t)
  {
    var n := LeadingSpace(t);
    LeadingSpaceFacts(t);
    if n == |t| {
      assert t[..n] == t && t[n..] == "";
    } else {
      assert t[n..][0] == t[n];
      RightStripKeepsFirst(t[n..]);
    }
  }

  lemma CleanCellStages(p: FieldPlan, rules: seq<Rule>, c: nat, cell: string)
    requires PlanSays(p, rules, c)
    ensures exists trimmed, squeezed, replaced :: Stages(rules, c, cell, trimmed, squeezed, replaced, CleanCell(p, cell))
  {
    var trimmed := if p.trim then Strip(cell) else cell;
    SqueezeIsSpaced(trimmed);
    var squeezed := if p.squeeze then Squeeze(trimmed) else trimmed;
    var replaced := if squeezed in p.replacements then p.replacements[squeezed] else squeezed;
    BlankIsStripped(replaced);
    assert squeezed in p.replacements ==> ReplaceExact(c, squeezed, p.replacements[squeezed]) in rules;
    assert p.setIfEmpty.Some? ==> SetIfEmpty(c, p.setIfEmpty.value) in rules;
    assert Stages(rules, c, cell, trimmed, squeezed, replaced, CleanCell(p, cell));
  }

  /** Every cell of a cleaned row went through these stages, whatever the order of the rules. */
  lemma CleanedCell(rules: seq<Rule>, row: Row, c: nat)
    requires RulesApart(rules) && c < |row|
    ensures |CleanRow(rules, row)| == |row|
    ensures exists trimmed, squeezed, replaced :: Stages(rules, c, row[c], trimmed, squeezed, replaced, CleanRow(rules, row)[c])
  {
    PlanForSays(rules, c);
    CleanCellStages(PlanFor(rules, c), rules, c, row[c]);
    assert CleanRow(rules, row)[c] == CleanCell(PlanFor(rules, c), row[c]);
    var trimmed, squeezed, replaced :|
      Stages(rules, c, row[c], trimmed, squeezed, replaced, CleanCell(PlanFor(rules, c), row[c]));
    assert Stages(rules, c, row[c], trimmed, squeezed, replaced, CleanRow(rules, row)[c]);
  }

  /** A value for blank cells touches blank cells only. */
  lemma OnlyBlankIsSet(rules: seq<Rule>, row: Row, c: nat, v: string)
    requires RulesApart(rules) && c < |row| && SetIfEmpty(c, v) in rules
    requires forall r | r in rules && r.column == c :: r == SetIfEmpty(c, v)
    ensures |CleanRow(rules, row)| == |row|
    ensures CleanRow(rules, row)[c] == if AllSpace(row[c]) then v else row[c]
  {
    CleanedCell(rules, row, c);
    var trimmed, squeezed, replaced :| Stages(rules, c, row[c], trimmed, squeezed, replaced, CleanRow(rules, row)[c]);
    assert Trim(c) !in rules && NormalizeWhitespace(c) !in rules;
    forall w
      ensures ReplaceExact(c, squeezed, w) !in rules
    {
      assert ReplaceExact(c, squeezed, w) != SetIfEmpty(c, v);
    }
    assert squeezed == row[c] && replaced == squeezed;
  }

  /** The canonical list is a permutation of the accepted one, without two rules of one key. */
  lemma CanonicalKeeps(rules: seq<Rule>, width: nat, textColumns: set<nat>)
    requires Normalize(rules, width, textColumns).Ok?
    ensures multiset(Normalize(rules, width, textColumns).value) == multiset(rules)
    ensures RulesApart(Normalize(rules, width, textColumns).value)
  {
    SortedKeeps(rules);
    AcceptanceIgnoresOrder(rules, Sorted(rules), width, textColumns);
  }

  /** Its order: by column, and inside a column trim, normalize, the replacements by pattern, the value for
      blank cells. */
  lemma CanonicalOrder(rules: seq<Rule>, width: nat, textColumns: set<nat>, i: nat, j: nat)
    requires Normalize(rules, width, textColumns).Ok? && i < j < |Normalize(rules, width, textColumns).value|
    ensures var (a, b) := (Normalize(rules, width, textColumns).value[i], Normalize(rules, width, textColumns).value[j]);
            && a.column <= b.column
            && (a.column == b.column ==>
                  && !b.Trim? && !a.SetIfEmpty? && (b.NormalizeWhitespace? ==> a.Trim?)
                  && (a.ReplaceExact? && b.ReplaceExact? ==> Less(a.pattern, b.pattern)))
  {
    SortedAscends(rules);
    CanonicalKeeps(rules, width, textColumns);
    var sorted := Sorted(rules);
    assert !SameKey(sorted[i], sorted[j]) && Before(sorted[i], sorted[j]);
  }

  /** The order of patterns: a prefix comes first, and else the first character that differs decides. */
  lemma {:induction false} LessExactly(a: string, b: string, n: nat)
    requires n <= |a| && n <= |b| && a[..n] == b[..n]
    ensures n < |a| && n < |b| && a[n] != b[n] ==> (Less(a, b) <==> a[n] < b[n])
    ensures n == |a| ==> (Less(a, b) <==> n < |b|)
    ensures n == |b| ==> !Less(a, b)
  {
    if n > 0 {
      assert a[0] == a[..n][0] == b[..n][0] == b[0];
      assert a[1..][..n - 1] == a[..n][1..] && b[1..][..n - 1] == b[..n][1..];
      LessExactly(a[1..], b[1..], n - 1);
    }
  }

  /** A row is dropped only when every cell of it is empty to the last character; white space keeps it. */
  lemma OneCharacterKeepsRow(row: Row)
    ensures !Blank(row) <==> exists c :: 0 <= c < |row| && |row[c]| > 0
  {
  }
}
