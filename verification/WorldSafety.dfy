/** What every step of the whole turn table keeps true. */
module WorldSafety {
  import opened Prelude
  import opened TurnTypes
  import opened EffectJournal
  import opened TurnSteps
  import opened TurnInvariant
  import opened TurnSafety
  import opened TurnProgress
  import opened Scheduler
  import opened ConversationContext

  // ----- Frames of a single turn step -----

  ghost predicate SameIdentity(t: Turn, t': Turn) {
    && t'.conversation == t.conversation && t'.user == t.user && t'.requestId == t.requestId
    && t'.claimedAt == t.claimedAt && t'.attempts == t.attempts
  }

  ghost predicate SameFrame(t: Turn, t': Turn) {
    SameIdentity(t, t') && t'.workers == t.workers && t'.durable == t.durable
  }

  predicate FromUserOrHost(e: Event) {
    e.RecoverStale? || e.Stop? || e.Redirect? || e.Approve? || e.Reject? || e.Reconcile?
  }

  lemma OffRowFrame(t: Turn, e: Event)
    requires OffRow(e) && TurnNext(t, e).Some?
    ensures SameIdentity(t, TurnNext(t, e).value)
  {
  }

  lemma FailFrame(t: Turn, w: Token, kind: FailureKind, now: nat)
    requires w in t.workers && FailClaimed(t, w, kind, now).Some?
    ensures SameIdentity(t, FailClaimed(t, w, kind, now).value)
    ensures FailClaimed(t, w, kind, now).value.workers.Keys <= t.workers.Keys
  {
  }

  lemma ParkFrame(t: Turn, w: Token, proposal: Plan)
    requires w in t.workers && PersistAwaitingPlan(t, w, proposal).Some?
    ensures SameIdentity(t, PersistAwaitingPlan(t, w, proposal).value)
    ensures PersistAwaitingPlan(t, w, proposal).value.workers.Keys <= t.workers.Keys
  {
  }

  lemma CancelFrame(t: Turn, w: Token)
    requires w in t.workers && CancelClaimedTurn(t, w).Some?
    ensures SameIdentity(t, CancelClaimedTurn(t, w).value)
    ensures CancelClaimedTurn(t, w).value.workers.Keys <= t.workers.Keys
  {
  }

  lemma CompleteFrame(t: Turn, w: Token)
    requires TurnNext(t, Complete(w)).Some?
    ensures SameIdentity(t, TurnNext(t, Complete(w)).value)
    ensures TurnNext(t, Complete(w)).value.workers.Keys <= t.workers.Keys
  {
  }

  lemma RowWriterFrame(t: Turn, e: Event)
    requires !OffRow(e) && !FromUserOrHost(e) && TurnNext(t, e).Some?
    ensures SameIdentity(t, TurnNext(t, e).value)
    ensures TurnNext(t, e).value.workers.Keys <= t.workers.Keys
  {
    match e
    case Fail(w, kind, now) => FailFrame(t, w, kind, now);
    case PersistAwaiting(w, proposal) => ParkFrame(t, w, proposal);
    case CancelClaimed(w) => CancelFrame(t, w);
    case Complete(w) => CompleteFrame(t, w);
  }

  lemma RedirectFrame(t: Turn, clientId: string, message: string, withinBudget: bool, now: nat)
    requires RedirectTurn(t, clientId, message, withinBudget, now).Some?
    ensures SameFrame(t, RedirectTurn(t, clientId, message, withinBudget, now).value)
  {
  }

  lemma RecoverFrame(t: Turn, now: nat)
    requires RecoverTurn(t, now).Some?
    ensures SameFrame(t, RecoverTurn(t, now).value)
  {
  }

  lemma StopFrame(t: Turn, rowLocked: bool)
    ensures SameFrame(t, StopTurn(t, rowLocked))
  {
  }

  lemma ReconcileFrame(t: Turn, readable: bool)
    requires ReconcileTurn(t, readable).Some?
    ensures SameFrame(t, ReconcileTurn(t, readable).value)
  {
  }

  lemma DecisionFrame(t: Turn, e: Event)
    requires (e.Approve? || e.Reject?) && TurnNext(t, e).Some?
    ensures SameFrame(t, TurnNext(t, e).value)
  {
  }

  lemma UserFrame(t: Turn, e: Event)
    requires FromUserOrHost(e) && TurnNext(t, e).Some?
    ensures SameFrame(t, TurnNext(t, e).value)
  {
    match e
    case Redirect(clientId, message, within, now) => RedirectFrame(t, clientId, message, within, now);
    case Approve(_, _) => DecisionFrame(t, e);
    case Reject(_) => DecisionFrame(t, e);
    case RecoverStale(now) => RecoverFrame(t, now);
    case Stop(rowLocked) => StopFrame(t, rowLocked);
    case Reconcile(readable) => ReconcileFrame(t, readable);
  }

  /** No step other than a claim changes who the turn belongs to or how often it was claimed. */
  lemma IdentityKept(t: Turn, e: Event)
    requires TurnNext(t, e).Some?
    ensures SameIdentity(t, TurnNext(t, e).value)
  {
    if OffRow(e) { OffRowFrame(t, e); } else if FromUserOrHost(e) { UserFrame(t, e); } else { RowWriterFrame(t, e); }
  }

  lemma OffRowApprovals(t: Turn, e: Event)
    requires !FromUserOrHost(e) && TurnNext(t, e).Some?
    ensures TurnNext(t, e).value.approvals == t.approvals
  {
  }

  lemma ApprovalsCounted(t: Turn, e: Event)
    requires TurnNext(t, e).Some?
    ensures TurnNext(t, e).value.approvals == t.approvals + if e.Approve? then 1 else 0
  {
    if !FromUserOrHost(e) { OffRowApprovals(t, e); }
  }

  lemma EnterUnitAddsNone(t: Turn, w: Token)
    requires TurnNext(t, BeforeUnit(w)).Some?
    ensures TurnNext(t, BeforeUnit(w)).value.workers.Keys <= t.workers.Keys
  {
    assert EnterUnit(t, w).workers.Keys == t.workers.Keys;
  }

  lemma CommitUnitAddsNone(t: Turn, w: Token)
    requires TurnNext(t, AfterUnit(w)).Some?
    ensures TurnNext(t, AfterUnit(w)).value.workers.Keys <= t.workers.Keys
  {
    assert CommitUnit(t, w).workers.Keys == t.workers.Keys;
  }

  lemma PlanStepWorkers(t: Turn, e: Event)
    requires (e.RunStep? || e.SkipStep?) && TurnNext(t, e).Some?
    ensures TurnNext(t, e).value.workers.Keys <= t.workers.Keys
  {
  }

  lemma InsideUnitWorkers(t: Turn, e: Event)
    requires InsideUnit(e) && TurnNext(t, e).Some?
    ensures TurnNext(t, e).value.workers.Keys <= t.workers.Keys
  {
    if e.BeforeUnit? { EnterUnitAddsNone(t, e.w); }
    else if e.AfterUnit? { CommitUnitAddsNone(t, e.w); }
    else { PlanStepWorkers(t, e); }
  }

  lemma LandingWorkers(t: Turn, e: Event)
    requires (e.FinishPlan? || e.PersistTranscript?) && TurnNext(t, e).Some?
    ensures TurnNext(t, e).value.workers.Keys <= t.workers.Keys
  {
  }

  lemma OffRowWorkers(t: Turn, e: Event)
    requires OffRow(e) && TurnNext(t, e).Some?
    ensures TurnNext(t, e).value.workers.Keys <= t.workers.Keys
  {
    if InsideUnit(e) { InsideUnitWorkers(t, e); }
    else if e.FinishPlan? || e.PersistTranscript? { LandingWorkers(t, e); }
  }

  lemma NoNewWorkers(t: Turn, e: Event)
    requires TurnNext(t, e).Some?
    ensures TurnNext(t, e).value.workers.Keys <= t.workers.Keys
  {
    if OffRow(e) { OffRowWorkers(t, e); } else if FromUserOrHost(e) { UserFrame(t, e); } else { RowWriterFrame(t, e); }
  }

  /** Only a claim makes a turn active. */
  lemma ActivityEnds(t: Turn, e: Event)
    requires TurnNext(t, e).Some? && Active(TurnNext(t, e).value.state)
    ensures Active(t.state)
  {
    if OffRow(e) { OffRowKeepsRow(t, e); }
    else if !FromUserOrHost(e) { WriterLeavesActivity(t, e); }
  }

  lemma WriterLeavesActivity(t: Turn, e: Event)
    requires !OffRow(e) && !FromUserOrHost(e) && TurnNext(t, e).Some?
    ensures Active(TurnNext(t, e).value.state) ==> Active(t.state)
  {
  }

  /** A predecessor that stopped blocking its conversation never blocks it again, unless a worker
      parks it. */
  lemma SettledStays(t: Turn, e: Event)
    requires Inv(t) && TurnNext(t, e).Some? && Settled(t)
    ensures Settled(TurnNext(t, e).value) <==> !e.PersistAwaiting?
  {
    if Terminal(t.state) { TerminalAbsorbs(t, e); }
    else if !e.PersistAwaiting? { ExhaustedStays(t, e); }
  }

  lemma ExhaustedStays(t: Turn, e: Event)
    requires Inv(t) && TurnNext(t, e).Some? && Exhausted(t) && !e.PersistAwaiting?
    ensures Settled(TurnNext(t, e).value)
  {
    if OffRow(e) { OffRowKeepsRow(t, e); }
    else if e.CancelClaimed? || e.Fail? || e.Complete? { LeaseIsChecked(t, e, e.w); }
  }

  // ----- The invariant of the table -----

  /** A later turn was never claimed while an earlier one of its conversation was still open. */
  ghost predicate CausalPair(a: Turn, b: Turn) {
    a.conversation == b.conversation && b.attempts > 0 ==> Settled(a)
  }

  ghost predicate Causal(turns: seq<Turn>) {
    forall a, b | 0 <= a < b < |turns| :: CausalPair(turns[a], turns[b])
  }

  ghost predicate RequestsDiffer(a: Turn, b: Turn) {
    a.requestId.Some? && a.user == b.user ==> a.requestId != b.requestId
  }

  ghost predicate RequestsUnique(turns: seq<Turn>) {
    forall i, j | 0 <= i < |turns| && 0 <= j < |turns| && i != j :: RequestsDiffer(turns[i], turns[j])
  }

  ghost predicate LeasesIssued(t: Turn, nextToken: Token) {
    forall w | w in t.workers :: w < nextToken
  }

  /** What no step at all can break, parking included. */
  ghost predicate TableInv(w: World) {
    && (forall i | 0 <= i < |w.turns| :: RowInv(w.turns[i]) && LeasesIssued(w.turns[i], w.nextToken))
    && ActiveCount(w.turns, None) <= SUPPORTED_CAPACITY
    && RequestsUnique(w.turns)
  }

  ghost predicate WorldInv(w: World) {
    && TableInv(w)
    && (forall i | 0 <= i < |w.turns| :: Inv(w.turns[i]))
    && Causal(w.turns)
  }

  predicate NoLaterClaimed(turns: seq<Turn>, id: nat)
    requires id < |turns|
  {
    forall b | id < b < |turns| && turns[b].conversation == turns[id].conversation :: turns[b].attempts == 0
  }

  /** The condition under which the lease-less parking write leaves the table sound: no write barrier
      on the row, and no later turn of the conversation was claimed. */
  predicate WorldGuarded(w: World, e: WorldEvent) {
    e.On? && e.id < |w.turns| && e.event.PersistAwaiting? ==>
      !w.turns[e.id].barrier && NoLaterClaimed(w.turns, e.id)
  }

  // ----- One row replaced -----

  ghost predicate SameOwner(t: Turn, t': Turn) {
    t'.conversation == t.conversation && t'.user == t.user && t'.requestId == t.requestId
  }

  lemma ReplaceKeepsCausal(turns: seq<Turn>, i: nat, t': Turn)
    requires i < |turns| && Causal(turns) && SameOwner(turns[i], t')
    requires (Settled(turns[i]) ==> Settled(t')) || NoLaterClaimed(turns, i)
    requires t'.attempts > 0 ==> turns[i].attempts > 0 || forall a | 0 <= a < i :: CausalPair(turns[a], t')
    ensures Causal(turns[i := t'])
  {
    var after := turns[i := t'];
    forall a, b | 0 <= a < b < |after|
      ensures CausalPair(after[a], after[b])
    {
      assert CausalPair(turns[a], turns[b]);
    }
  }

  lemma ReplaceKeepsRequests(turns: seq<Turn>, i: nat, t': Turn)
    requires i < |turns| && RequestsUnique(turns) && SameOwner(turns[i], t')
    ensures RequestsUnique(turns[i := t'])
  {
    var after := turns[i := t'];
    forall a, b | 0 <= a < |after| && 0 <= b < |after| && a != b
      ensures RequestsDiffer(after[a], after[b])
    {
      assert RequestsDiffer(turns[a], turns[b]);
    }
  }

  lemma ReplaceKeepsTable(w: World, id: nat, t': Turn)
    requires TableInv(w) && id < |w.turns| && RowInv(t') && LeasesIssued(t', w.nextToken)
    requires SameOwner(w.turns[id], t') && (Active(t'.state) ==> Active(w.turns[id].state))
    ensures TableInv(w.(turns := w.turns[id := t']))
  {
    CountAfterUpdate(w.turns, id, t', None);
    ReplaceKeepsRequests(w.turns, id, t');
  }

  lemma TurnStepKeepsTable(w: World, id: nat, e: Event)
    requires TableInv(w) && id < |w.turns| && TurnNext(w.turns[id], e).Some?
    ensures TableInv(w.(turns := w.turns[id := TurnNext(w.turns[id], e).value]))
  {
    var t := w.turns[id];
    assert RowInv(t) && LeasesIssued(t, w.nextToken);
    var t' := TurnNext(t, e).value;
    StepKeepsRowInv(t, e);
    NoNewWorkers(t, e);
    IdentityKept(t, e);
    if Active(t'.state) { ActivityEnds(t, e); }
    ReplaceKeepsTable(w, id, t');
  }

  /** The causal order survives a step of a turn: it stays settled when it was, or nothing later was
      claimed that could mind. */
  lemma TurnStepKeepsCausal(turns: seq<Turn>, id: nat, e: Event)
    requires Causal(turns) && id < |turns| && Inv(turns[id]) && TurnNext(turns[id], e).Some?
    requires e.PersistAwaiting? ==> NoLaterClaimed(turns, id)
    ensures Causal(turns[id := TurnNext(turns[id], e).value])
  {
    IdentityKept(turns[id], e);
    if Settled(turns[id]) { SettledStays(turns[id], e); }
    ReplaceKeepsCausal(turns, id, TurnNext(turns[id], e).value);
  }

  lemma TurnStepKeepsWorld(w: World, id: nat, e: Event)
    requires WorldInv(w) && id < |w.turns| && WorldGuarded(w, On(id, e)) && TurnNext(w.turns[id], e).Some?
    ensures WorldInv(w.(turns := w.turns[id := TurnNext(w.turns[id], e).value]))
  {
    assert Inv(w.turns[id]);
    StepKeepsInv(w.turns[id], e);
    TurnStepKeepsTable(w, id, e);
    TurnStepKeepsCausal(w.turns, id, e);
  }

  lemma ClaimKeepsRow(t: Turn, w: Token, now: nat)
    requires RowInv(t) && t.state == Queued && t.attempts < t.maxAttempts
    ensures RowInv(ClaimTurn(t, w, now))
  {
  }

  lemma ClaimKeepsTable(w: World, e: WorldEvent)
    requires TableInv(w) && e.Claim? && CanClaim(w, e)
    ensures TableInv(Claimed(w, e.id, e.claimedAt))
  {
    var (t, t') := (w.turns[e.id], ClaimTurn(w.turns[e.id], w.nextToken, e.claimedAt));
    assert RowInv(t) && LeasesIssued(t, w.nextToken);
    ClaimKeepsRow(t, w.nextToken, e.claimedAt);
    CountAfterUpdate(w.turns, e.id, t', None);
    ReplaceKeepsRequests(w.turns, e.id, t');
    var after := w.turns[e.id := t'];
    forall i | 0 <= i < |after|
      ensures RowInv(after[i]) && LeasesIssued(after[i], w.nextToken + 1)
    {
      assert RowInv(w.turns[i]) && LeasesIssued(w.turns[i], w.nextToken);
    }
  }

  lemma ClaimKeepsCausal(turns: seq<Turn>, id: nat, w: Token, now: nat)
    requires Causal(turns) && id < |turns| && Eligible(turns, id)
    ensures Causal(turns[id := ClaimTurn(turns[id], w, now)])
  {
    var t' := ClaimTurn(turns[id], w, now);
    forall a | 0 <= a < id
      ensures CausalPair(turns[a], t')
    {
      assert !Blocks(turns[a], turns[id]);
    }
    ReplaceKeepsCausal(turns, id, t');
  }

  lemma ClaimKeepsWorld(w: World, e: WorldEvent)
    requires WorldInv(w) && e.Claim? && CanClaim(w, e)
    ensures WorldInv(Claimed(w, e.id, e.claimedAt))
  {
    assert Inv(w.turns[e.id]) && LeasesIssued(w.turns[e.id], w.nextToken);
    ClaimKeeps(w.turns[e.id], w.nextToken, e.claimedAt);
    ClaimKeepsTable(w, e);
    ClaimKeepsCausal(w.turns, e.id, w.nextToken, e.claimedAt);
  }

  lemma AppendKeepsRequests(turns: seq<Turn>, t: Turn)
    requires RequestsUnique(turns) && !Known(turns, t.user, t.requestId)
    ensures RequestsUnique(turns + [t])
  {
    var after := turns + [t];
    forall a, b | 0 <= a < |after| && 0 <= b < |after| && a != b
      ensures RequestsDiffer(after[a], after[b])
    {
      if a < |turns| && b < |turns| { assert RequestsDiffer(turns[a], turns[b]); }
      else if a < |turns| { assert !SameRequest(turns[a], t.user, t.requestId); }
      else { assert !SameRequest(turns[b], t.user, t.requestId); }
    }
  }

  lemma AppendKeepsCausal(turns: seq<Turn>, t: Turn)
    requires Causal(turns) && t.attempts == 0
    ensures Causal(turns + [t])
  {
    var after := turns + [t];
    forall a, b | 0 <= a < b < |after|
      ensures CausalPair(after[a], after[b])
    {
      if b < |turns| { assert CausalPair(turns[a], turns[b]); }
    }
  }

  lemma EnqueueKeepsTable(w: World, conversation: nat, user: nat, requestId: Option<string>, now: nat)
    requires TableInv(w)
    ensures TableInv(Enqueued(w, conversation, user, requestId, now))
  {
    if !Known(w.turns, user, requestId) {
      AppendKeepsRequests(w.turns, NewTurn(conversation, user, requestId, now));
      assert (w.turns + [NewTurn(conversation, user, requestId, now)])[..|w.turns|] == w.turns;
    }
  }

  lemma EnqueueKeepsWorld(w: World, conversation: nat, user: nat, requestId: Option<string>, now: nat)
    requires WorldInv(w)
    ensures WorldInv(Enqueued(w, conversation, user, requestId, now))
  {
    EnqueueKeepsTable(w, conversation, user, requestId, now);
    if !Known(w.turns, user, requestId) {
      NewTurnInv(conversation, user, requestId, now);
      AppendKeepsCausal(w.turns, NewTurn(conversation, user, requestId, now));
    }
  }

  /** Capacity, leases, attempts, logs and request ids survive every step, without any guard. */
  lemma StepKeepsTable(w: World, e: WorldEvent)
    requires TableInv(w) && WorldNext(w, e).Some?
    ensures TableInv(WorldNext(w, e).value)
  {
    match e
    case Enqueue(conversation, user, requestId, now) => EnqueueKeepsTable(w, conversation, user, requestId, now);
    case Claim(_, _, id, now) => ClaimKeepsTable(w, e);
    case On(id, event) => TurnStepKeepsTable(w, id, event);
  }

  lemma ParkedIsLive(t: Turn, v: Token, proposal: Plan)
    requires Inv(t) && TurnNext(t, PersistAwaiting(v, proposal)).Some?
    ensures var t' := TurnNext(t, PersistAwaiting(v, proposal)).value;
            t'.conversation == t.conversation && Live(t'.state) && t.attempts > 0
  {
  }

  lemma LiveBreaksOrder(turns: seq<Turn>, id: nat, t': Turn)
    requires id < |turns| && !NoLaterClaimed(turns, id)
    requires t'.conversation == turns[id].conversation && Live(t'.state)
    ensures !Causal(turns[id := t'])
  {
    var b :| id < b < |turns| && turns[b].conversation == turns[id].conversation && turns[b].attempts != 0;
    assert !CausalPair(turns[id := t'][id], turns[id := t'][b]);
  }

  lemma UnguardedParkBreaks(w: World, id: nat, v: Token, proposal: Plan)
    requires WorldInv(w) && id < |w.turns| && TurnNext(w.turns[id], PersistAwaiting(v, proposal)).Some?
    requires w.turns[id].barrier || !NoLaterClaimed(w.turns, id)
    ensures !WorldInv(w.(turns := w.turns[id := TurnNext(w.turns[id], PersistAwaiting(v, proposal)).value]))
  {
    var (t, t') := (w.turns[id], TurnNext(w.turns[id], PersistAwaiting(v, proposal)).value);
    assert Inv(t);
    if t.barrier {
      StepKeepsInv(t, PersistAwaiting(v, proposal));
      assert w.turns[id := t'][id] == t';
    } else {
      ParkedIsLive(t, v, proposal);
      LiveBreaksOrder(w.turns, id, t');
    }
  }

  /** Everything, the causal order of a conversation included, survives every step but one: a parking
      write that meets a barrier or a later turn that was claimed already. */
  lemma WorldStepKeeps(w: World, e: WorldEvent)
    requires WorldInv(w) && WorldNext(w, e).Some?
    ensures WorldInv(WorldNext(w, e).value) <==> WorldGuarded(w, e)
  {
    if !WorldGuarded(w, e) {
      UnguardedParkBreaks(w, e.id, e.event.w, e.event.proposal);
    } else {
      match e
      case Enqueue(conversation, user, requestId, now) => EnqueueKeepsWorld(w, conversation, user, requestId, now);
      case Claim(_, _, id, now) => ClaimKeepsWorld(w, e);
      case On(id, event) => TurnStepKeepsWorld(w, id, event);
    }
  }

  // ----- What the invariant says about a conversation -----

  lemma LaterIsNotLive(w: World, a: nat, b: nat)
    requires WorldInv(w) && a < b < |w.turns| && w.turns[a].conversation == w.turns[b].conversation
    requires Live(w.turns[a].state)
    ensures !Live(w.turns[b].state)
  {
    assert CausalPair(w.turns[a], w.turns[b]) && Inv(w.turns[b]);
  }

  /** At most one turn of a conversation is running, being cancelled or awaiting confirmation. */
  lemma OneLiveTurnPerConversation(w: World, a: nat, b: nat)
    requires WorldInv(w) && a < |w.turns| && b < |w.turns|
    requires w.turns[a].conversation == w.turns[b].conversation && Live(w.turns[a].state) && Live(w.turns[b].state)
    ensures a == b
  {
    if a < b { LaterIsNotLive(w, a, b); }
    if b < a { LaterIsNotLive(w, b, a); }
  }

  // ----- Parking -----

  ghost predicate OneLive(turns: seq<Turn>) {
    forall a, b | 0 <= a < |turns| && 0 <= b < |turns| && turns[a].conversation == turns[b].conversation
                  && Live(turns[a].state) && Live(turns[b].state) :: a == b
  }

  ghost predicate LaterLive(turns: seq<Turn>, id: nat)
    requires id < |turns|
  {
    exists b :: id < b < |turns| && turns[b].conversation == turns[id].conversation && Live(turns[b].state)
  }

  lemma EarlierIsNotLive(w: World, a: nat, id: nat)
    requires WorldInv(w) && a < id < |w.turns| && w.turns[id].attempts > 0
    requires w.turns[a].conversation == w.turns[id].conversation
    ensures !Live(w.turns[a].state)
  {
    assert CausalPair(w.turns[a], w.turns[id]);
  }

  lemma LivePairs(w: World, id: nat, t': Turn)
    requires WorldInv(w) && id < |w.turns| && t'.conversation == w.turns[id].conversation && Live(t'.state)
    requires w.turns[id].attempts > 0 && !LaterLive(w.turns, id)
    ensures OneLive(w.turns[id := t'])
  {
    var (turns, after) := (w.turns, w.turns[id := t']);
    forall a, b | 0 <= a < |after| && 0 <= b < |after| && after[a].conversation == after[b].conversation
                  && Live(after[a].state) && Live(after[b].state)
      ensures a == b
    {
      if a != id && b != id { OneLiveTurnPerConversation(w, a, b); }
      else if a < b == id { EarlierIsNotLive(w, a, id); }
      else if b < a == id { EarlierIsNotLive(w, b, id); }
    }
  }

  lemma ParkedPairs(w: World, id: nat, v: Token, proposal: Plan)
    requires WorldInv(w) && id < |w.turns| && TurnNext(w.turns[id], PersistAwaiting(v, proposal)).Some?
    ensures OneLive(w.turns[id := TurnNext(w.turns[id], PersistAwaiting(v, proposal)).value]) <==> !LaterLive(w.turns, id)
  {
    var (turns, t') := (w.turns, TurnNext(w.turns[id], PersistAwaiting(v, proposal)).value);
    assert Inv(turns[id]);
    ParkedIsLive(turns[id], v, proposal);
    if LaterLive(turns, id) {
      var b :| id < b < |turns| && turns[b].conversation == turns[id].conversation && Live(turns[b].state);
      assert turns[id := t'][b] == turns[b] && turns[id := t'][id] == t';
    } else {
      LivePairs(w, id, t');
    }
  }

  /** The one write that does not look at the lease, on any sound table. It leaves the table sound and
      revives no finished turn exactly when the row carries no barrier, is not terminal and, if it is
      out of attempts, no later turn of its conversation was claimed. Two turns of one conversation
      are live afterwards exactly when a later one was live before. */
  lemma ParkKeepsExactly(w: World, id: nat, v: Token, proposal: Plan)
    requires WorldInv(w) && WorldNext(w, On(id, PersistAwaiting(v, proposal))).Some?
    ensures var (t, w') := (w.turns[id], WorldNext(w, On(id, PersistAwaiting(v, proposal))).value);
            && ((WorldInv(w') && (Terminal(t.state) ==> Terminal(w'.turns[id].state))) <==>
                  !t.barrier && !Terminal(t.state) && (Exhausted(t) ==> NoLaterClaimed(w.turns, id)))
            && (OneLive(w'.turns) <==> !LaterLive(w.turns, id))
  {
    var t := w.turns[id];
    assert Inv(t);
    WorldStepKeeps(w, On(id, PersistAwaiting(v, proposal)));
    ParkedPairs(w, id, v, proposal);
    if Terminal(t.state) { TerminalAbsorbs(t, PersistAwaiting(v, proposal)); }
    if !Settled(t) { assert forall b | id < b < |w.turns| :: CausalPair(t, w.turns[b]); }
  }

  // ----- The context builder's check -----

  /** The ids below n of the conversation's turns, oldest first. */
  function Predecessors(turns: seq<Turn>, conversation: nat, n: nat): seq<nat>
    requires n <= |turns|
  {
    if n == 0 then []
    else Predecessors(turns, conversation, n - 1) + if turns[n - 1].conversation == conversation then [n - 1] else []
  }

  lemma {:induction false} PredecessorsAre(turns: seq<Turn>, conversation: nat, n: nat)
    requires n <= |turns|
    ensures forall p: nat :: p in Predecessors(turns, conversation, n) <==> p < n && turns[p].conversation == conversation
  {
    if n > 0 { PredecessorsAre(turns, conversation, n - 1); }
  }

  /** What the context builder is told about those turns. */
  predicate Describes(turns: seq<Turn>, ids: seq<nat>, history: seq<PastTurn>) {
    |history| == |ids|
    && forall k | 0 <= k < |ids| :: ids[k] < |turns| && (history[k].terminal <==> Terminal(turns[ids[k]].state))
  }

  /** One of the newest turns, as many as the builder looks at, sits in the queue without attempts. */
  predicate ScanMeetsExhausted(turns: seq<Turn>, ids: seq<nat>) {
    exists k :: WindowStart(|ids|) <= k < |ids| && ids[k] < |turns| && Exhausted(turns[ids[k]])
  }

  lemma ScanExactly(turns: seq<Turn>, ids: seq<nat>, history: seq<PastTurn>)
    requires Describes(turns, ids, history)
    requires forall k | 0 <= k < |ids| :: Settled(turns[ids[k]])
    ensures !WindowTerminal(history) <==> ScanMeetsExhausted(turns, ids)
  {
    forall k | 0 <= k < |ids|
      ensures !history[k].terminal <==> Exhausted(turns[ids[k]])
    {
      assert Settled(turns[ids[k]]);
    }
  }

  /** The context builder's "non-terminal predecessor" error hits a claimed turn exactly when one of
      the newest 24 earlier turns of its conversation sits in the queue without attempts. */
  lemma ContextErrorExactly(w: World, id: nat, history: seq<PastTurn>, screen: seq<Ref>)
    requires WorldInv(w) && id < |w.turns| && w.turns[id].attempts > 0
    requires Describes(w.turns, Predecessors(w.turns, w.turns[id].conversation, id), history)
    ensures Build(history, screen).None? <==>
              ScanMeetsExhausted(w.turns, Predecessors(w.turns, w.turns[id].conversation, id))
  {
    var ids := Predecessors(w.turns, w.turns[id].conversation, id);
    PredecessorsAre(w.turns, w.turns[id].conversation, id);
    forall k | 0 <= k < |ids|
      ensures Settled(w.turns[ids[k]])
    {
      assert ids[k] in ids;
      assert CausalPair(w.turns[ids[k]], w.turns[id]);
    }
    ScanExactly(w.turns, ids, history);
  }
}
