/** A run from the empty table after which one parking write makes two turns of a conversation live.
    No write barrier is involved. */
module TurnExhausted {
  import opened Prelude
  import opened TurnTypes
  import opened EffectJournal
  import opened TurnSteps
  import opened TurnInvariant
  import opened TurnSafety
  import opened Scheduler
  import opened WorldSafety
  import opened TurnRuns
  import opened TurnLimits

  // ----- Reachable tables -----

  ghost predicate LeadsTo(ws: seq<World>, es: seq<WorldEvent>, w: World) {
    Run(ws, es) && GuardedUpTo(ws, es, |es|) && ws[|es|] == w
  }

  /** Some run from the empty table leads here, and every parking write of it met the guard. */
  ghost predicate Reachable(w: World) {
    exists ws, es :: LeadsTo(ws, es, w)
  }

  lemma EmptyIsReachable()
    ensures Reachable(EMPTY)
  {
    assert LeadsTo([EMPTY], [], EMPTY);
  }

  lemma StepIsReachable(w: World, e: WorldEvent, w': World)
    requires Reachable(w) && WorldNext(w, e) == Some(w') && WorldGuarded(w, e)
    ensures Reachable(w')
  {
    var ws, es :| LeadsTo(ws, es, w);
    var (vs, fs) := (ws + [w'], es + [e]);
    forall i | 0 <= i < |fs|
      ensures Moves(vs[i], fs[i], vs[i + 1]) && WorldGuarded(vs[i], fs[i])
    {
      if i < |es| { assert Moves(ws[i], es[i], ws[i + 1]) && WorldGuarded(ws[i], es[i]); }
    }
    assert LeadsTo(vs, fs, w');
  }

  lemma ReachableIsSound(w: World)
    requires Reachable(w)
    ensures WorldInv(w)
  {
    var ws, es :| LeadsTo(ws, es, w);
    GuardedRunInv(ws, es, |es|);
  }

  // ----- Two turns of one conversation; the second never runs before the first is out of attempts -----

  const NEXT := NewTurn(0, 0, None, 0)

  function Two(t: Turn, nextToken: Token): World {
    World([t, NEXT], nextToken)
  }

  lemma TwoMove(t: Turn, t': Turn, n: Token, e: Event)
    requires TurnNext(t, e) == Some(t')
    ensures WorldNext(Two(t, n), On(0, e)) == Some(Two(t', n))
  {
    assert Two(t, n).turns[0 := t'] == Two(t', n).turns;
  }

  lemma TwoGuarded(t: Turn, n: Token, e: Event)
    requires !t.barrier
    ensures WorldGuarded(Two(t, n), On(0, e))
  {
  }

  lemma FirstMoves(t: Turn, t': Turn, n: Token, e: Event)
    requires Reachable(Two(t, n)) && !t.barrier && TurnNext(t, e) == Some(t')
    ensures Reachable(Two(t', n))
  {
    TwoMove(t, t', n, e);
    TwoGuarded(t, n, e);
    StepIsReachable(Two(t, n), On(0, e), Two(t', n));
  }

  lemma FirstIsChosen(t: Turn, n: Token)
    requires Claimable(t) && t.conversation == 0
    ensures CanClaim(Two(t, n), Claim(2, {}, 0, 0))
  {
    var turns := Two(t, n).turns;
    CountZero(turns, None);
    assert Blocks(turns[0], turns[1]);
    assert Candidate(turns, {}, 0) && forall j: nat :: Candidate(turns, {}, j) ==> j == 0;
  }

  lemma FirstIsClaimed(t: Turn, n: Token)
    requires Reachable(Two(t, n)) && Claimable(t) && t.conversation == 0
    ensures Reachable(Two(ClaimTurn(t, n, 0), n + 1))
  {
    FirstIsChosen(t, n);
    assert Two(t, n).turns[0 := ClaimTurn(t, n, 0)] == Two(ClaimTurn(t, n, 0), n + 1).turns;
    StepIsReachable(Two(t, n), Claim(2, {}, 0, 0), Two(ClaimTurn(t, n, 0), n + 1));
  }

  // ----- One attempt -----

  /** The first turn in the queue, with worker 0 of its first attempt still reasoning. */
  function Again(attempts: nat, ceiling: nat, c: Control): Turn {
    NEXT.(state := Queued, attempts := attempts, maxAttempts := ceiling, claimedAt := Some(0), control := c,
          workers := map[0 := Reasoning])
  }

  /** The same turn in front of the user. */
  function Parked(attempts: nat, ceiling: nat, c: Control): Turn {
    Again(attempts, ceiling, c).(state := AwaitingConfirmation, plan := Some(PROPOSAL), hasResult := true)
  }

  function Held(t: Turn, n: Token, worker: Worker): Turn {
    ClaimTurn(t, n, 0).(workers := map[0 := Reasoning, n := worker])
  }

  lemma Holding(t: Turn, n: Token, worker: Worker)
    requires t.workers == map[0 := Reasoning] && n > 0
    ensures ClaimTurn(t, n, 0) == Held(t, n, Launched)
    ensures forall before: Worker :: SetWorker(Held(t, n, before), n, worker) == Held(t, n, worker)
    ensures Held(t, n, worker).workers - {n} == t.workers
  {
    assert t.workers[n := Launched] == map[0 := Reasoning, n := Launched];
    forall before: Worker
      ensures SetWorker(Held(t, n, before), n, worker) == Held(t, n, worker)
    {
      assert Held(t, n, before).workers[n := worker] == map[0 := Reasoning, n := worker];
    }
  }

  lemma FailsOnce(attempts: nat, ceiling: nat, c: Control, n: Token)
    requires n > 0 && attempts + 1 < ceiling && !c.cancel
    ensures TurnNext(Held(Again(attempts, ceiling, c), n, Failing), Fail(n, Transient, 0))
         == Some(Again(attempts + 1, ceiling, c))
  {
    Holding(Again(attempts, ceiling, c), n, Failing);
  }

  /** An attempt that fails and may be retried. */
  lemma Burn(attempts: nat, ceiling: nat, c: Control, n: Token)
    requires Reachable(Two(Again(attempts, ceiling, c), n)) && n > 0 && attempts + 1 < ceiling && !c.cancel
    ensures Reachable(Two(Again(attempts + 1, ceiling, c), n + 1))
  {
    var t := Again(attempts, ceiling, c);
    Holding(t, n, Failing);
    FirstIsClaimed(t, n);
    FirstMoves(Held(t, n, Launched), Held(t, n, Failing), n + 1, Raise(n));
    FailsOnce(attempts, ceiling, c, n);
    FirstMoves(Held(t, n, Failing), Again(attempts + 1, ceiling, c), n + 1, Fail(n, Transient, 0));
  }

  lemma Parks(attempts: nat, ceiling: nat, c: Control, n: Token)
    requires n > 0
    ensures TurnNext(Held(Again(attempts, ceiling, c), n, Reasoning), PersistAwaiting(n, PROPOSAL))
         == Some(Parked(attempts + 1, ceiling, c))
  {
    Holding(Again(attempts, ceiling, c), n, Reasoning);
  }

  lemma Applies(t: Turn, n: Token, c: Control)
    requires n > 0 && MarkControlApplied(t.control, t.control.sequence) == Some(c)
    ensures TurnNext(Held(t, n, Reasoning), MarkApplied(n, t.control.sequence)) == Some(Held(t.(control := c), n, Reasoning))
  {
  }

  /** An attempt that applies the redirects and asks the user. */
  lemma Ask(attempts: nat, ceiling: nat, c: Control, c': Control, n: Token)
    requires Reachable(Two(Again(attempts, ceiling, c), n)) && n > 0 && attempts < ceiling
    requires MarkControlApplied(c, c.sequence) == Some(c')
    ensures Reachable(Two(Parked(attempts + 1, ceiling, c'), n + 1))
  {
    var (t, t') := (Again(attempts, ceiling, c), Again(attempts, ceiling, c'));
    Holding(t, n, Reasoning);
    FirstIsClaimed(t, n);
    FirstMoves(Held(t, n, Launched), Held(t, n, Reasoning), n + 1, Begin(n));
    Applies(t, n, c');
    FirstMoves(Held(t, n, Reasoning), Held(t', n, Reasoning), n + 1, MarkApplied(n, c.sequence));
    Parks(attempts, ceiling, c', n);
    FirstMoves(Held(t', n, Reasoning), Parked(attempts + 1, ceiling, c'), n + 1, PersistAwaiting(n, PROPOSAL));
  }

  // ----- The user redirects the parked turn again and again -----

  function ClientId(c: nat): string {
    seq(c + 1, i => 'r')
  }

  function Log(c: nat): seq<Intervention> {
    seq(c, i requires 0 <= i < c => Intervention(i + 1, ClientId(i), "m", true))
  }

  function Told(c: nat): Control {
    Control(false, c + 1, c, Log(c) + [Intervention(c + 1, ClientId(c), "m", false)])
  }

  function Heard(c: nat): Control {
    Control(false, c, c, Log(c))
  }

  lemma ClientIsNew(c: nat)
    ensures FindClient(Log(c), ClientId(c)) == None
  {
    FindClientFinds(Log(c), ClientId(c));
    assert forall i | 0 <= i < c :: |Log(c)[i].clientId| < |ClientId(c)|;
  }

  lemma ToldIsHeard(c: nat)
    ensures MarkControlApplied(Told(c), c + 1) == Some(Heard(c + 1))
  {
    assert MarkControlApplied(Told(c), c + 1).value.rows == Log(c + 1);
  }

  lemma Redirected(attempts: nat, c: nat)
    requires attempts <= MAX_ATTEMPTS_WITH_REDIRECTS && c < MAX_INTERVENTIONS
    ensures TurnNext(Parked(attempts, attempts, Heard(c)), Redirect(ClientId(c), "m", true, 0))
         == Some(Again(attempts, Min(MAX_ATTEMPTS_WITH_REDIRECTS, attempts + 2), Told(c)))
  {
    ClientIsNew(c);
  }

  /** After c redirects the turn has used 3 + 2c attempts and asks once more. */
  lemma {:induction false} Tired(c: nat)
    requires c <= 8
    ensures Reachable(Two(Parked(3 + 2 * c, 3 + 2 * c, Heard(c)), 3 + 2 * c))
  {
    if c == 0 {
      FirstAsk();
    } else {
      var (a, b) := (3 + 2 * (c - 1), c - 1);
      Tired(b);
      Redirected(a, b);
      FirstMoves(Parked(a, a, Heard(b)), Again(a, a + 2, Told(b)), a, Redirect(ClientId(b), "m", true, 0));
      Burn(a, a + 2, Told(b), a);
      ToldIsHeard(b);
      Ask(a + 1, a + 2, Told(b), Heard(c), a + 1);
    }
  }

  lemma BothWait()
    ensures Reachable(Two(NEXT, 0))
  {
    EmptyIsReachable();
    assert EMPTY.turns + [NEXT] == [NEXT] && [NEXT] + [NEXT] == [NEXT, NEXT];
    StepIsReachable(EMPTY, Enqueue(0, 0, None, 0), World([NEXT], 0));
    StepIsReachable(World([NEXT], 0), Enqueue(0, 0, None, 0), Two(NEXT, 0));
  }

  lemma LosesLease()
    ensures TurnNext(ClaimTurn(NEXT, 0, 0), Begin(0)) == Some(ClaimTurn(NEXT, 0, 0).(workers := map[0 := Reasoning]))
    ensures TurnNext(ClaimTurn(NEXT, 0, 0).(workers := map[0 := Reasoning]), RecoverStale(0))
         == Some(Again(1, MAX_ATTEMPTS, Heard(0)))
  {
    assert ClaimTurn(NEXT, 0, 0).workers[0 := Reasoning] == map[0 := Reasoning];
    assert Log(0) == [];
  }

  /** Worker 0 loses its lease, one attempt fails, the third asks the user. */
  lemma FirstAsk()
    ensures Reachable(Two(Parked(3, 3, Heard(0)), 3))
  {
    BothWait();
    FirstIsClaimed(NEXT, 0);
    LosesLease();
    var started := ClaimTurn(NEXT, 0, 0).(workers := map[0 := Reasoning]);
    FirstMoves(ClaimTurn(NEXT, 0, 0), started, 1, Begin(0));
    FirstMoves(started, Again(1, 3, Heard(0)), 1, RecoverStale(0));
    Burn(1, 3, Heard(0), 1);
    Ask(2, 3, Heard(0), Heard(0), 2);
  }

  // ----- The ninth redirect -----

  const EXHAUSTED := Again(19, 19, Heard(9))

  lemma OldWorkerApplies()
    ensures TurnNext(Again(19, 19, Told(8)), MarkApplied(0, 9)) == Some(EXHAUSTED)
  {
    ToldIsHeard(8);
  }

  /** Worker 0 still reasons and is the one that applies it. */
  lemma RedirectExhausts()
    ensures Reachable(Two(EXHAUSTED, 19))
  {
    Tired(8);
    Redirected(19, 8);
    FirstMoves(Parked(19, 19, Heard(8)), Again(19, 19, Told(8)), 19, Redirect(ClientId(8), "m", true, 0));
    OldWorkerApplies();
    FirstMoves(Again(19, 19, Told(8)), EXHAUSTED, 19, MarkApplied(0, 9));
  }

  lemma NextIsChosen()
    ensures CanClaim(Two(EXHAUSTED, 19), Claim(2, {}, 1, 0))
  {
    var turns := Two(EXHAUSTED, 19).turns;
    CountZero(turns, None);
    assert !Blocks(turns[0], turns[1]);
    assert Candidate(turns, {}, 1) && forall j: nat :: Candidate(turns, {}, j) ==> j == 1;
  }

  const BOTH := World([EXHAUSTED, ClaimTurn(NEXT, 19, 0)], 20)

  lemma NextIsClaimed()
    ensures Reachable(BOTH)
  {
    RedirectExhausts();
    NextIsChosen();
    assert Two(EXHAUSTED, 19).turns[1 := ClaimTurn(NEXT, 19, 0)] == BOTH.turns;
    StepIsReachable(Two(EXHAUSTED, 19), Claim(2, {}, 1, 0), BOTH);
  }

  /** A run from the empty table, without a barrier anywhere and with no stop or redirect waiting at its
      end: the first turn sits in the queue without an attempt, the second one of the conversation runs,
      and a parking write of worker 0 makes both of them live. */
  lemma ExhaustedRun()
    ensures Reachable(BOTH) && WorldInv(BOTH)
    ensures !EXHAUSTED.barrier && !Terminal(EXHAUSTED.state) && ControlCurrent(EXHAUSTED.control)
    ensures WorldNext(BOTH, On(0, PersistAwaiting(0, PROPOSAL))).Some?
    ensures !OneLive(WorldNext(BOTH, On(0, PersistAwaiting(0, PROPOSAL))).value.turns)
  {
    NextIsClaimed();
    ReachableIsSound(BOTH);
    assert Live(BOTH.turns[1].state);
    ParkKeepsExactly(BOTH, 0, 0, PROPOSAL);
  }
}
