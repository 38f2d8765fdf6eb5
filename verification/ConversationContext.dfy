/** Per-turn context checkpoints: built from the newest stored checkpoint, equal to a fold of the
    whole conversation. */
module ConversationContext {
  import opened Prelude
  import opened BoundedMerge

  const WINDOW: nat := 24
  const MAX_SUMMARY: nat := 6
  const MAX_REFS: nat := 8

  datatype Ref = OdooModel(model: string) | OdooRecord(model: string, resId: nat)

  datatype EffectRef = EffectRef(turnId: string, position: nat, capability: string, detail: string)

  datatype EffectKey = EffectKey(turnId: string, position: nat, capability: string)

  datatype Summary = Summary(turnId: string, userIntent: string, assistantOutcome: string)

  /** The folded part of a checkpoint. */
  datatype Context = Context(revision: nat, rolling: seq<Summary>, active: seq<Ref>, effects: seq<EffectRef>)

  /** A predecessor turn, with what it contributes and the checkpoint it stored when it ran. */
  datatype PastTurn = PastTurn(terminal: bool, summary: Summary, screen: seq<Ref>, effects: seq<EffectRef>,
                               checkpoint: Option<Context>)

  const EMPTY_CONTEXT := Context(0, [], [], [])

  const REF_KEY: Ref -> Ref := (r: Ref) => r
  const EFFECT_KEY: EffectRef -> EffectKey := (e: EffectRef) => EffectKey(e.turnId, e.position, e.capability)

  function MergeRefs(existing: seq<Ref>, more: seq<Ref>): seq<Ref> {
    Merge(existing, more, REF_KEY, MAX_REFS)
  }

  function MergeEffectRefs(existing: seq<EffectRef>, more: seq<EffectRef>): seq<EffectRef> {
    Merge(existing, more, EFFECT_KEY, MAX_REFS)
  }

  function FoldTurn(c: Context, t: PastTurn): Context {
    Context(c.revision + 1, Tail(c.rolling + [t.summary], MAX_SUMMARY), MergeRefs(c.active, t.screen),
            MergeEffectRefs(c.effects, t.effects))
  }

  function FoldTurns(c: Context, turns: seq<PastTurn>): Context {
    if turns == [] then c else FoldTurn(FoldTurns(c, turns[..|turns| - 1]), turns[|turns| - 1])
  }

  /** The stored snapshot also shows the turn's own screen. */
  function Snapshot(c: Context, screen: seq<Ref>): Context {
    c.(active := MergeRefs(c.active, screen))
  }

  /** Reference definition: fold the whole conversation. */
  function FullSnapshot(history: seq<PastTurn>, screen: seq<Ref>): Context {
    Snapshot(FoldTurns(EMPTY_CONTEXT, history), screen)
  }

  // ----- What the code computes -----

  function WindowStart(n: nat): nat {
    if n <= WINDOW then 0 else n - WINDOW
  }

  /** Newest checkpoint at or after `from`. */
  function NewestCheckpoint(history: seq<PastTurn>, from: nat): (i: Option<nat>)
    ensures i.Some? ==> from <= i.value < |history| && history[i.value].checkpoint.Some?
    ensures i.Some? ==> forall k | i.value < k < |history| :: history[k].checkpoint.None?
    ensures i.None? ==> forall k | from <= k < |history| :: history[k].checkpoint.None?
    decreases |history|
  {
    if |history| <= from then None
    else if history[|history| - 1].checkpoint.Some? then Some(|history| - 1)
    else NewestCheckpoint(history[..|history| - 1], from)
  }

  predicate WindowTerminal(history: seq<PastTurn>) {
    forall i | WindowStart(|history|) <= i < |history| :: history[i].terminal
  }

  /** `None`: a predecessor in the window is not terminal. */
  function Build(history: seq<PastTurn>, screen: seq<Ref>): Option<Context> {
    if !WindowTerminal(history) then None
    else
      var from := WindowStart(|history|);
      var newest := NewestCheckpoint(history, from);
      Some(Snapshot(if newest.Some? then FoldTurns(history[newest.value].checkpoint.value, history[newest.value..])
                    else FoldTurns(EMPTY_CONTEXT, history[from..]), screen))
  }

  /** The backwards scan for the newest checkpoint. */
  method BaseCheckpoint(history: seq<PastTurn>, from: nat) returns (newest: Option<nat>)
    ensures newest == NewestCheckpoint(history, from)
  {
    var index: nat := |history|;
    while index > from
      invariant index <= |history| && forall k | index <= k < |history| :: history[k].checkpoint.None?
    {
      index := index - 1;
      if history[index].checkpoint.Some? { return Some(index); }
    }
    newest := None;
  }

  method FoldForwards(c: Context, turns: seq<PastTurn>) returns (base: Context)
    ensures base == FoldTurns(c, turns)
  {
    base := c;
    for i := 0 to |turns|
      invariant base == FoldTurns(c, turns[..i])
    {
      assert turns[..i + 1][..i] == turns[..i];
      base := FoldTurn(base, turns[i]);
    }
    assert turns[..|turns|] == turns;
  }

  /** The builder: refuse an open predecessor, scan backwards, fold forwards. */
  method BuildSnapshot(history: seq<PastTurn>, screen: seq<Ref>) returns (snapshot: Option<Context>)
    ensures snapshot == Build(history, screen)
    ensures snapshot.Some? && StoredByBuild(history) && WindowReaches(history) ==>
              && snapshot.value.revision == |history|
              && snapshot.value.rolling == Tail(Summaries(history), MAX_SUMMARY)
              && snapshot.value.active == Tail(LastOccurrences(Screens(history) + screen, REF_KEY), MAX_REFS)
              && snapshot.value.effects == Tail(LastOccurrences(Effects(history), EFFECT_KEY), MAX_REFS)
  {
    var from := WindowStart(|history|);
    for i := from to |history|
      invariant forall k | from <= k < i :: history[k].terminal
    {
      if !history[i].terminal { return None; }
    }
    var base: Context;
    var newest := BaseCheckpoint(history, from);
    if newest.Some? {
      base := FoldForwards(history[newest.value].checkpoint.value, history[newest.value..]);
    } else {
      base := FoldForwards(EMPTY_CONTEXT, history[from..]);
    }
    snapshot := Some(Snapshot(base, screen));
    if StoredByBuild(history) && WindowReaches(history) { BuildMeans(history, screen); }
  }

  // ----- Incremental equals full -----

  lemma {:induction false} FoldConcat(c: Context, a: seq<PastTurn>, b: seq<PastTurn>)
    ensures FoldTurns(c, a + b) == FoldTurns(FoldTurns(c, a), b)
  {
    if b == [] {
      assert a + b == a;
    } else {
      var n := |b| - 1;
      assert (a + b)[..|a + b| - 1] == a + b[..n];
      FoldConcat(c, a, b[..n]);
    }
  }

  lemma {:induction false} FoldRevision(c: Context, turns: seq<PastTurn>)
    ensures FoldTurns(c, turns).revision == c.revision + |turns|
  {
    if turns != [] { FoldRevision(c, turns[..|turns| - 1]); }
  }

  /** Every stored checkpoint is the full fold of what came before it. */
  ghost predicate CheckpointExact(history: seq<PastTurn>, i: nat)
    requires i < |history|
  {
    history[i].checkpoint.Some? ==> history[i].checkpoint.value == FullSnapshot(history[..i], history[i].screen)
  }

  ghost predicate StoredExact(history: seq<PastTurn>) {
    forall i | 0 <= i < |history| :: CheckpointExact(history, i)
  }

  /** The window reaches the start of the conversation or holds a checkpoint. */
  predicate WindowReaches(history: seq<PastTurn>) {
    |history| <= WINDOW || NewestCheckpoint(history, WindowStart(|history|)).Some?
  }

  /** Folding the owner of a checkpoint on top of it: its own screen is already merged, once more
      does not hurt. */
  lemma FoldOwnCheckpoint(c: Context, t: PastTurn)
    ensures FoldTurn(Snapshot(c, t.screen), t) == FoldTurn(c, t)
  {
    MergeIsIdempotent(c.active, t.screen, REF_KEY, MAX_REFS);
  }

  lemma FoldFirst(c: Context, turns: seq<PastTurn>)
    requires turns != []
    ensures FoldTurns(c, turns) == FoldTurns(FoldTurn(c, turns[0]), turns[1..])
  {
    var first := [turns[0]];
    assert turns == first + turns[1..] && first[..0] == [];
    FoldConcat(c, first, turns[1..]);
    assert FoldTurns(c, first) == FoldTurn(FoldTurns(c, first[..0]), first[0]);
  }

  lemma FoldFromCheckpoint(history: seq<PastTurn>, i: nat)
    requires i < |history| && history[i].checkpoint == Some(FullSnapshot(history[..i], history[i].screen))
    ensures FoldTurns(history[i].checkpoint.value, history[i..]) == FoldTurns(EMPTY_CONTEXT, history)
  {
    var full := FoldTurns(EMPTY_CONTEXT, history[..i]);
    assert history == history[..i] + history[i..];
    FoldConcat(EMPTY_CONTEXT, history[..i], history[i..]);
    FoldFirst(history[i].checkpoint.value, history[i..]);
    FoldFirst(full, history[i..]);
    FoldOwnCheckpoint(full, history[i]);
  }

  /** With exact checkpoints behind it, the builder is exact when and only when the window reaches:
      otherwise even the revision restarts. */
  lemma BuildExactly(history: seq<PastTurn>, screen: seq<Ref>)
    requires StoredExact(history) && WindowTerminal(history)
    ensures Build(history, screen).Some?
    ensures Build(history, screen).value == FullSnapshot(history, screen) <==> WindowReaches(history)
  {
    var from := WindowStart(|history|);
    var newest := NewestCheckpoint(history, from);
    if newest.Some? {
      assert CheckpointExact(history, newest.value);
      FoldFromCheckpoint(history, newest.value);
    } else if |history| <= WINDOW {
      assert history[0..] == history;
    } else {
      FoldRevision(EMPTY_CONTEXT, history[from..]);
      FoldRevision(EMPTY_CONTEXT, history);
    }
  }

  /** Each stored checkpoint is what the builder returned for the predecessors, at a time when the
      window reached. */
  ghost predicate StoredByBuild(history: seq<PastTurn>) {
    forall i | 0 <= i < |history| && history[i].checkpoint.Some? ::
      WindowReaches(history[..i]) && Build(history[..i], history[i].screen) == history[i].checkpoint
  }

  lemma StoredBefore(history: seq<PastTurn>, n: nat)
    requires n <= |history| && StoredByBuild(history)
    ensures StoredByBuild(history[..n])
  {
    var before := history[..n];
    forall i | 0 <= i < n && before[i].checkpoint.Some?
      ensures WindowReaches(before[..i]) && Build(before[..i], before[i].screen) == before[i].checkpoint
    {
      assert before[..i] == history[..i];
    }
  }

  lemma NewestIsExact(history: seq<PastTurn>, n: nat)
    requires n < |history| && StoredByBuild(history) && StoredExact(history[..n])
    ensures CheckpointExact(history, n)
  {
    if history[n].checkpoint.Some? { BuildExactly(history[..n], history[n].screen); }
  }

  lemma {:induction false} StoredIsExact(history: seq<PastTurn>)
    requires StoredByBuild(history)
    ensures StoredExact(history)
  {
    forall n | 0 <= n < |history|
      ensures CheckpointExact(history, n)
    {
      StoredBefore(history, n);
      StoredIsExact(history[..n]);
      NewestIsExact(history, n);
    }
  }

  /** Incremental equals full, however long the conversation is. */
  lemma IncrementalEqualsFull(history: seq<PastTurn>, screen: seq<Ref>)
    requires StoredByBuild(history) && WindowTerminal(history) && WindowReaches(history)
    ensures Build(history, screen) == Some(FullSnapshot(history, screen))
  {
    StoredIsExact(history);
    BuildExactly(history, screen);
  }

  // ----- What the full fold is -----

  function Summaries(history: seq<PastTurn>): seq<Summary> {
    seq(|history|, i requires 0 <= i < |history| => history[i].summary)
  }

  function Screens(history: seq<PastTurn>): seq<Ref> {
    if history == [] then [] else Screens(history[..|history| - 1]) + history[|history| - 1].screen
  }

  function Effects(history: seq<PastTurn>): seq<EffectRef> {
    if history == [] then [] else Effects(history[..|history| - 1]) + history[|history| - 1].effects
  }

  /** The bounded fold loses nothing but the bound: revision counts the turns, the summary is the last
      six turns, the references are the last eight distinct ones ever seen on a screen, the effects
      the last eight distinct ones ever verified. */
  lemma {:induction false} FoldMeans(history: seq<PastTurn>)
    ensures var c := FoldTurns(EMPTY_CONTEXT, history);
            && c.revision == |history|
            && c.rolling == Tail(Summaries(history), MAX_SUMMARY)
            && c.active == Tail(LastOccurrences(Screens(history), REF_KEY), MAX_REFS)
            && c.effects == Tail(LastOccurrences(Effects(history), EFFECT_KEY), MAX_REFS)
  {
    if history != [] {
      var (before, last) := (history[..|history| - 1], history[|history| - 1]);
      FoldMeans(before);
      SummariesExtend(history);
      TailComposes(Summaries(before), [last.summary], MAX_SUMMARY);
      MergeExtends(Screens(before), last.screen, REF_KEY, MAX_REFS);
      MergeExtends(Effects(before), last.effects, EFFECT_KEY, MAX_REFS);
    }
  }

  lemma SummariesExtend(history: seq<PastTurn>)
    requires history != []
    ensures Summaries(history) == Summaries(history[..|history| - 1]) + [history[|history| - 1].summary]
  {
  }

  /** What the builder stores, in terms of the conversation alone: built step by step from earlier
      checkpoints it counts all turns, shows the last six summaries, the last eight distinct references of
      all screens with the turn's own screen last, and the last eight distinct effects. */
  lemma BuildMeans(history: seq<PastTurn>, screen: seq<Ref>)
    requires StoredByBuild(history) && WindowTerminal(history) && WindowReaches(history)
    ensures Build(history, screen).Some?
    ensures var c := Build(history, screen).value;
            && c.revision == |history|
            && c.rolling == Tail(Summaries(history), MAX_SUMMARY)
            && c.active == Tail(LastOccurrences(Screens(history) + screen, REF_KEY), MAX_REFS)
            && c.effects == Tail(LastOccurrences(Effects(history), EFFECT_KEY), MAX_REFS)
  {
    IncrementalEqualsFull(history, screen);
    FoldMeans(history);
    MergeExtends(Screens(history), screen, REF_KEY, MAX_REFS);
  }

  /** Nothing is stored exactly when one of the newest 24 predecessors is still open. */
  lemma BuildRefusesExactly(history: seq<PastTurn>, screen: seq<Ref>)
    ensures Build(history, screen).None? <==>
              exists i :: 0 <= i < |history| && |history| - i <= 24 && !history[i].terminal
  {
    if i :| 0 <= i < |history| && |history| - i <= 24 && !history[i].terminal {
      assert WindowStart(|history|) <= i;
    }
    if !WindowTerminal(history) {
      var i :| WindowStart(|history|) <= i < |history| && !history[i].terminal;
      assert |history| - i <= 24;
    }
  }

  /** Two effects count as one exactly when turn, position and capability agree; what else they say does not
      matter. References count as one only when they are equal. */
  lemma SameEffectExactly(a: EffectRef, b: EffectRef)
    ensures EFFECT_KEY(a) == EFFECT_KEY(b) <==> a.(detail := b.detail) == b
  {
  }
}
