/** Cleanup rules for imported rows: one canonical list per set of rules, and their application. */
module CleanupRules {
  import opened Prelude
  import opened TextLines
  import opened DataImport

  const MAX_RULES: nat := 32

  /** A rule for one mapped column. */
  datatype Rule =
    | Trim(column: nat)
    | NormalizeWhitespace(column: nat)
    | ReplaceExact(column: nat, pattern: string, value: string)
    | SetIfEmpty(column: nat, value: string)

  datatype CleanupError = CleanupInvalid | RemovesRow

  // ----- The order of the canonical list -----

  predicate Less(a: string, b: string) {
    b != "" && (a == "" || a[0] < b[0] || (a[0] == b[0] && Less(a[1..], b[1..])))
  }

  function Order(r: Rule): nat {
    match r
    case Trim(_) => 0
    case NormalizeWhitespace(_) => 1
    case ReplaceExact(_, _, _) => 2
    case SetIfEmpty(_, _) => 3
  }

  function Match(r: Rule): string {
    if r.ReplaceExact? then r.pattern else ""
  }

  function Value(r: Rule): string {
    if r.ReplaceExact? || r.SetIfEmpty? then r.value else ""
  }

  /** Column, operation, match, value. */
  predicate Before(a: Rule, b: Rule) {
    || a.column < b.column
    || (a.column == b.column && Order(a) < Order(b))
    || (a.column == b.column && Order(a) == Order(b) && Less(Match(a), Match(b)))
    || (a.column == b.column && Order(a) == Order(b) && Match(a) == Match(b) && Less(Value(a), Value(b)))
  }

  /** Two rules that may not stand in one list. */
  predicate SameKey(a: Rule, b: Rule) {
    a.column == b.column && Order(a) == Order(b) && Match(a) == Match(b)
  }

  predicate ValidRule(r: Rule, width: nat, textColumns: set<nat>) {
    && r.column < width
    && (r.Trim? || r.NormalizeWhitespace? ==> r.column in textColumns)
    && RuleValue(Match(r)) && RuleValue(Value(r))
  }

  function Insert(r: Rule, sorted: seq<Rule>): seq<Rule> {
    if sorted == [] || Before(r, sorted[0]) then [r] + sorted else [sorted[0]] + Insert(r, sorted[1..])
  }

  function Sorted(rules: seq<Rule>): seq<Rule> {
    if rules == [] then [] else Insert(rules[0], Sorted(rules[1..]))
  }

  predicate Acceptable(rules: seq<Rule>, width: nat, textColumns: set<nat>) {
    && 1 <= |rules| <= MAX_RULES
    && (forall i | 0 <= i < |rules| :: ValidRule(rules[i], width, textColumns))
    && (forall i, j | 0 <= i < j < |rules| :: !SameKey(rules[i], rules[j]))
  }

  function Normalize(rules: seq<Rule>, width: nat, textColumns: set<nat>): Result<seq<Rule>, CleanupError> {
    if Acceptable(rules, width, textColumns) then Ok(Sorted(rules)) else Err(CleanupInvalid)
  }

  // ----- The order is strict and total -----

  lemma {:induction false} LessIsTotal(a: string, b: string)
    ensures a != b ==> (Less(a, b) <==> !Less(b, a))
    ensures !Less(a, a)
  {
    if a != "" { LessIsTotal(a[1..], a[1..]); }
    if a != "" && b != "" && a[0] == b[0] {
      LessIsTotal(a[1..], b[1..]);
      assert a == [a[0]] + a[1..] && b == [b[0]] + b[1..];
    }
  }

  lemma {:induction false} LessIsTransitive(a: string, b: string, c: string)
    requires Less(a, b) && Less(b, c)
    ensures Less(a, c)
  {
    if a != "" && a[0] == b[0] && b[0] == c[0] { LessIsTransitive(a[1..], b[1..], c[1..]); }
  }

  lemma BeforeIsTotal(a: Rule, b: Rule)
    ensures a != b ==> (Before(a, b) <==> !Before(b, a))
    ensures !Before(a, a)
  {
    LessIsTotal(Match(a), Match(b));
    LessIsTotal(Value(a), Value(b));
  }

  lemma BeforeIsTransitive(a: Rule, b: Rule, c: Rule)
    requires Before(a, b) && Before(b, c)
    ensures Before(a, c)
  {
    if Less(Match(a), Match(b)) && Less(Match(b), Match(c)) { LessIsTransitive(Match(a), Match(b), Match(c)); }
    if Less(Value(a), Value(b)) && Less(Value(b), Value(c)) { LessIsTransitive(Value(a), Value(b), Value(c)); }
  }

  // ----- Sorting -----

  ghost predicate Ascending(rules: seq<Rule>) {
    forall i, j | 0 <= i < j < |rules| :: Before(rules[i], rules[j])
  }

  ghost predicate Apart(rules: seq<Rule>) {
    forall i, j | 0 <= i < j < |rules| :: rules[i] != rules[j]
  }

  lemma {:induction false} InsertKeeps(r: Rule, sorted: seq<Rule>)
    ensures multiset(Insert(r, sorted)) == multiset(sorted) + multiset{r}
  {
    if sorted == [] || Before(r, sorted[0]) {
    } else {
      InsertKeeps(r, sorted[1..]);
      assert sorted == [sorted[0]] + sorted[1..];
    }
  }

  lemma {:induction false} SortedKeeps(rules: seq<Rule>)
    ensures multiset(Sorted(rules)) == multiset(rules)
  {
    if rules != [] {
      SortedKeeps(rules[1..]);
      InsertKeeps(rules[0], Sorted(rules[1..]));
      assert rules == [rules[0]] + rules[1..];
    }
  }

  lemma {:induction false} InsertAscends(r: Rule, sorted: seq<Rule>)
    requires Ascending(sorted) && r !in sorted
    ensures Ascending(Insert(r, sorted))
  {
    if sorted != [] {
      BeforeIsTotal(r, sorted[0]);
      if Before(r, sorted[0]) {
        forall j | 0 < j < |sorted| ensures Before(r, sorted[j]) { BeforeIsTransitive(r, sorted[0], sorted[j]); }
      } else {
        var rest := Insert(r, sorted[1..]);
        InsertAscends(r, sorted[1..]);
        InsertKeeps(r, sorted[1..]);
        forall j | 0 <= j < |rest|
          ensures Before(sorted[0], rest[j])
        {
          assert rest[j] in multiset(rest);
          assert rest[j] == r || rest[j] in sorted[1..];
        }
      }
    }
  }

  lemma HeadIsApart(rules: seq<Rule>)
    requires Apart(rules) && rules != []
    ensures rules[0] !in multiset(rules[1..])
  {
    forall k | 0 <= k < |rules[1..]|
      ensures rules[1..][k] != rules[0]
    {
      assert rules[1..][k] == rules[k + 1];
    }
  }

  lemma {:induction false} SortedAscends(rules: seq<Rule>)
    requires Apart(rules)
    ensures Ascending(Sorted(rules))
  {
    if rules != [] {
      SortedAscends(rules[1..]);
      SortedKeeps(rules[1..]);
      HeadIsApart(rules);
      assert rules[0] !in multiset(Sorted(rules[1..]));
      InsertAscends(rules[0], Sorted(rules[1..]));
    }
  }

  lemma HeadsAgree(a: seq<Rule>, b: seq<Rule>)
    requires Ascending(a) && Ascending(b) && multiset(a) == multiset(b) && a != [] && b != []
    ensures a[0] == b[0]
  {
    assert a[0] in multiset(b) && b[0] in multiset(a);
    if a[0] != b[0] {
      var i :| 0 <= i < |b| && b[i] == a[0];
      var j :| 0 <= j < |a| && a[j] == b[0];
      assert Before(b[0], b[i]) && Before(a[0], a[j]);
      BeforeIsTotal(a[0], b[0]);
    }
  }

  lemma TailsAgree(a: seq<Rule>, b: seq<Rule>)
    requires a != [] && b != [] && a[0] == b[0] && multiset(a) == multiset(b)
    ensures multiset(a[1..]) == multiset(b[1..])
  {
    assert a == [a[0]] + a[1..] && b == [b[0]] + b[1..];
    assert multiset(a[1..]) == multiset(a) - multiset{a[0]};
  }

  /** Two ascending lists of the same rules are the same list. */
  lemma {:induction false} AscendingIsUnique(a: seq<Rule>, b: seq<Rule>)
    requires Ascending(a) && Ascending(b) && multiset(a) == multiset(b)
    ensures a == b
  {
    assert |a| == |multiset(a)| == |b|;
    if a != [] {
      HeadsAgree(a, b);
      TailsAgree(a, b);
      AscendingIsUnique(a[1..], b[1..]);
      assert a == [a[0]] + a[1..] && b == [b[0]] + b[1..];
    }
  }

  // ----- One canonical list -----

  lemma CountTwo(rules: seq<Rule>, i: nat, j: nat)
    requires i < j < |rules| && rules[i] == rules[j]
    ensures multiset(rules)[rules[i]] >= 2
  {
    assert rules == rules[..j] + rules[j..];
    assert rules[..j][i] == rules[i] && rules[j..][0] == rules[i];
    assert rules[i] in multiset(rules[..j]) && rules[i] in multiset(rules[j..]);
    assert multiset(rules) == multiset(rules[..j]) + multiset(rules[j..]);
  }

  lemma {:induction false} CountAtLeastTwo(rules: seq<Rule>, r: Rule) returns (i: nat, j: nat)
    requires multiset(rules)[r] >= 2
    ensures i < j < |rules| && rules[i] == r && rules[j] == r
  {
    assert rules == [rules[0]] + rules[1..];
    if rules[0] == r {
      assert r in multiset(rules[1..]);
      var k :| 0 <= k < |rules[1..]| && rules[1..][k] == r;
      i, j := 0, k + 1;
    } else {
      var a, b := CountAtLeastTwo(rules[1..], r);
      i, j := a + 1, b + 1;
    }
  }

  /** Acceptance does not look at the order. */
  lemma AcceptanceIgnoresOrder(a: seq<Rule>, b: seq<Rule>, width: nat, textColumns: set<nat>)
    requires multiset(a) == multiset(b) && Acceptable(a, width, textColumns)
    ensures Acceptable(b, width, textColumns)
  {
    assert |a| == |multiset(a)| == |multiset(b)| == |b|;
    forall i | 0 <= i < |b|
      ensures ValidRule(b[i], width, textColumns)
    {
      assert b[i] in multiset(a);
    }
    forall i, j | 0 <= i < j < |b|
      ensures !SameKey(b[i], b[j])
    {
      if b[i] == b[j] {
        CountTwo(b, i, j);
        var k, l := CountAtLeastTwo(a, b[i]);
      } else {
        assert b[i] in multiset(a) && b[j] in multiset(a);
        var k :| 0 <= k < |a| && a[k] == b[i];
        var l :| 0 <= l < |a| && a[l] == b[j];
      }
    }
  }

  /** Any permutation of a rule list gives the same canonical list, or the same failure. */
  lemma NormalizeIgnoresOrder(a: seq<Rule>, b: seq<Rule>, width: nat, textColumns: set<nat>)
    requires multiset(a) == multiset(b)
    ensures Normalize(a, width, textColumns) == Normalize(b, width, textColumns)
  {
    if Acceptable(a, width, textColumns) {
      AcceptanceIgnoresOrder(a, b, width, textColumns);
      SortedAscends(a);
      SortedAscends(b);
      SortedKeeps(a);
      SortedKeeps(b);
      AscendingIsUnique(Sorted(a), Sorted(b));
    } else if Acceptable(b, width, textColumns) {
      AcceptanceIgnoresOrder(b, a, width, textColumns);
    }
  }

  // ----- Applying a canonical list -----

  datatype FieldPlan = FieldPlan(trim: bool, squeeze: bool, replacements: map<string, string>, setIfEmpty: Option<string>)

  const NO_PLAN := FieldPlan(false, false, map[], None)

  function Extend(p: FieldPlan, r: Rule): FieldPlan {
    match r
    case Trim(_) => p.(trim := true)
    case NormalizeWhitespace(_) => p.(squeeze := true)
    case ReplaceExact(_, m, value) => p.(replacements := p.replacements[m := value])
    case SetIfEmpty(_, value) => p.(setIfEmpty := Some(value))
  }

  /** What the rules ask of one column. */
  function PlanFor(rules: seq<Rule>, column: nat): FieldPlan {
    if rules == [] then NO_PLAN
    else
      var (before, last) := (PlanFor(rules[..|rules| - 1], column), rules[|rules| - 1]);
      if last.column == column then Extend(before, last) else before
  }

  function WordLength(t: string): (n: nat)
    ensures n <= |t| && (t != "" && !IsSpace(t[0]) ==> n > 0)
  {
    if t == "" || IsSpace(t[0]) then 0 else 1 + WordLength(t[1..])
  }

  /** The words of a text, one blank between them. */
  function Squeeze(t: string): string
    decreases |t|
  {
    var s := t[LeadingSpace(t)..];
    LeadingSpaceFacts(t);
    if s == "" then ""
    else
      var rest := Squeeze(s[WordLength(s)..]);
      s[..WordLength(s)] + if rest == "" then "" else " " + rest
  }

  function CleanCell(p: FieldPlan, cell: string): string {
    var trimmed := if p.trim then Strip(cell) else cell;
    var squeezed := if p.squeeze then Squeeze(trimmed) else trimmed;
    var replaced := if squeezed in p.replacements then p.replacements[squeezed] else squeezed;
    if Strip(replaced) == "" && p.setIfEmpty.Some? then p.setIfEmpty.value else replaced
  }

  function CleanRow(rules: seq<Rule>, row: Row): Row {
    seq(|row|, c requires 0 <= c < |row| => CleanCell(PlanFor(rules, c), row[c]))
  }

  predicate Blank(row: Row) {
    forall c | 0 <= c < |row| :: row[c] == ""
  }

  /** The plan dictionary, rule by rule. */
  method BuildPlan(rules: seq<Rule>) returns (plan: map<nat, FieldPlan>)
    ensures forall c: nat :: PlanFor(rules, c) == if c in plan then plan[c] else NO_PLAN
  {
    plan := map[];
    for i := 0 to |rules|
      invariant forall c: nat :: PlanFor(rules[..i], c) == if c in plan then plan[c] else NO_PLAN
    {
      var r := rules[i];
      assert rules[..i + 1][..i] == rules[..i];
      var current := if r.column in plan then plan[r.column] else NO_PLAN;
      plan := plan[r.column := Extend(current, r)];
    }
    assert rules[..|rules|] == rules;
  }

  method CleanCells(plan: map<nat, FieldPlan>, rules: seq<Rule>, source: Row) returns (row: Row, changed: bool)
    requires forall c: nat :: PlanFor(rules, c) == if c in plan then plan[c] else NO_PLAN
    ensures row == CleanRow(rules, source) && (changed <==> row != source)
  {
    row, changed := source, false;
    for c := 0 to |source|
      invariant |row| == |source|
      invariant forall k | 0 <= k < |row| :: row[k] == if k < c then CleanCell(PlanFor(rules, k), source[k]) else source[k]
      invariant changed <==> exists k :: 0 <= k < c && row[k] != source[k]
    {
      if c in plan {
        var after := CleanCell(plan[c], source[c]);
        if after != source[c] {
          ghost var earlier := row;
          row := row[c := after];
          changed := true;
          assert row[c] != source[c];
        }
      } else {
        PlainCell(source[c]);
      }
    }
  }

  lemma PlainCell(cell: string)
    ensures CleanCell(NO_PLAN, cell) == cell
  {
  }

  ghost predicate CleanedTo(rules: seq<Rule>, rows: seq<Row>, n: nat, cleaned: seq<Row>, changed: set<nat>)
    requires n <= |rows|
  {
    && |cleaned| == n
    && (forall i | 0 <= i < n :: cleaned[i] == CleanRow(rules, rows[i]))
    && (forall i: nat :: i in changed <==> i < n && cleaned[i] != rows[i])
  }

  lemma CleanedMore(rules: seq<Rule>, rows: seq<Row>, n: nat, cleaned: seq<Row>, changed: set<nat>, row: Row)
    requires n < |rows| && CleanedTo(rules, rows, n, cleaned, changed) && row == CleanRow(rules, rows[n])
    ensures CleanedTo(rules, rows, n + 1, cleaned + [row], if row != rows[n] then changed + {n} else changed)
  {
  }

  /** Clean every row; report the rows that changed, or refuse when one becomes blank. */
  method ApplyCleanupRules(rows: seq<Row>, rules: seq<Rule>) returns (result: Result<(seq<Row>, set<nat>), CleanupError>)
    ensures result.Err? <==> exists i | 0 <= i < |rows| :: Blank(CleanRow(rules, rows[i]))
    ensures result.Err? ==> result.error == RemovesRow
    ensures result.Ok? ==> CleanedTo(rules, rows, |rows|, result.value.0, result.value.1)
  {
    var plan := BuildPlan(rules);
    var cleaned: seq<Row>, changed: set<nat> := [], {};
    var i: nat := 0;
    while i < |rows|
      invariant i <= |rows| && CleanedTo(rules, rows, i, cleaned, changed)
      invariant forall k | 0 <= k < i :: !Blank(CleanRow(rules, rows[k]))
    {
      var row, rowChanged := CleanCells(plan, rules, rows[i]);
      if Blank(row) { return Err(RemovesRow); }
      CleanedMore(rules, rows, i, cleaned, changed, row);
      cleaned := cleaned + [row];
      if rowChanged { changed := changed + {i}; }
      i := i + 1;
    }
    result := Ok((cleaned, changed));
  }

  /** Cleaning keeps the width of a row and every column without a rule. */
  lemma {:induction false} UnruledColumnStays(rules: seq<Rule>, row: Row, c: nat)
    requires c < |row| && forall i | 0 <= i < |rules| :: rules[i].column != c
    ensures |CleanRow(rules, row)| == |row| && CleanRow(rules, row)[c] == row[c]
  {
    if rules != [] {
      var n := |rules| - 1;
      assert forall i | 0 <= i < n :: rules[..n][i] == rules[i];
      UnruledColumnStays(rules[..n], row, c);
    }
  }
}
