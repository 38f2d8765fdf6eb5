/** The log of redirects: numbering, idempotent client ids and the snapshot a worker validates. */
module InterventionLog {
  import opened Prelude
  import opened TurnTypes
  import opened TurnSteps
  import opened TurnInvariant
  import opened TurnSafety
  import opened TurnProgress
  import opened Scheduler
  import opened WorldSafety
  import opened TurnRuns

  /** The snapshot check of the runtime, item by item. */
  method ValidateSnapshotSequence(sequences: seq<nat>, expected: nat) returns (valid: bool)
    ensures valid <==> |sequences| == expected && forall i | 0 <= i < |sequences| :: sequences[i] == i + 1
  {
    var previous := 0;
    for i := 0 to |sequences|
      invariant previous == i && forall k | 0 <= k < i :: sequences[k] == k + 1
    {
      if sequences[i] != previous + 1 { return false; }
      previous := sequences[i];
    }
    valid := previous == expected;
  }

  function Sequences(c: Control): seq<nat> {
    seq(|c.rows|, i requires 0 <= i < |c.rows| => c.rows[i].sequence)
  }

  /** In every reachable state the snapshot passes that check. */
  lemma SnapshotNeverFails(ws: seq<World>, es: seq<WorldEvent>, i: nat, id: nat)
    requires Run(ws, es) && i < |ws| && id < |ws[i].turns|
    ensures var c := ws[i].turns[id].control;
            && |Sequences(c)| == c.sequence
            && (forall k | 0 <= k < |Sequences(c)| :: Sequences(c)[k] == k + 1)
            && (forall k | 0 <= k < |c.rows| :: c.rows[k].applied <==> c.rows[k].sequence <= c.applied)
  {
    RunTable(ws, es, i);
    assert RowInv(ws[i].turns[id]);
  }

  ghost predicate Logged(c: Control, k: nat, clientId: string, message: string) {
    k < |c.rows| && c.rows[k].clientId == clientId && c.rows[k].message == message
  }

  /** A client id that is not in the log yet finds room for its row. */
  predicate RoomFor(t: Turn, withinBudget: bool) {
    && |t.control.rows| < MAX_INTERVENTIONS && withinBudget
    && (t.state == AwaitingConfirmation ==> t.attempts <= MAX_ATTEMPTS_WITH_REDIRECTS)
  }

  /** Exactly which redirects are accepted: none behind the barrier or on a finished turn, a known
      client id with its own message, and a new one as long as there is room. */
  lemma RedirectAcceptedExactly(t: Turn, clientId: string, message: string, withinBudget: bool, now: nat)
    requires RowInv(t)
    ensures TurnNext(t, Redirect(clientId, message, withinBudget, now)).Some? <==>
              && !t.barrier && !Terminal(t.state)
              && (if exists k :: 0 <= k < |t.control.rows| && t.control.rows[k].clientId == clientId
                  then exists k :: 0 <= k < |t.control.rows| && Logged(t.control, k, clientId, message)
                  else RoomFor(t, withinBudget))
  {
    FindClientFinds(t.control.rows, clientId);
    var found := FindClient(t.control.rows, clientId);
    if found.Some? { assert Logged(t.control, found.value, clientId, t.control.rows[found.value].message); }
  }

  /** A client id that is in the log is answered from the log: the same message changes nothing,
      another message is refused. */
  lemma LoggedIsReplayed(t: Turn, k: nat, clientId: string, message: string, other: string, withinBudget: bool, now: nat)
    requires ControlInv(t.control) && Logged(t.control, k, clientId, message)
    ensures var r := RedirectTurn(t, clientId, other, withinBudget, now);
            r == if !t.barrier && (t.state.Queued? || t.state.Running? || t.state.AwaitingConfirmation?) && other == message
                 then Some(t) else None
  {
    FindClientFinds(t.control.rows, clientId);
    var found := FindClient(t.control.rows, clientId);
    assert found.Some?;
    assert found.value == k;
  }

  /** An accepted new client id becomes the next row, still pending, and nothing else in the log moves. */
  lemma AcceptedIsLogged(t: Turn, clientId: string, message: string, withinBudget: bool, now: nat)
    requires ControlInv(t.control) && RedirectTurn(t, clientId, message, withinBudget, now).Some?
    requires forall k | 0 <= k < |t.control.rows| :: t.control.rows[k].clientId != clientId
    ensures var c := RedirectTurn(t, clientId, message, withinBudget, now).value.control;
            && c.sequence == t.control.sequence + 1 == |c.rows| && c.applied == t.control.applied
            && c.rows[..|t.control.rows|] == t.control.rows
            && c.rows[c.sequence - 1] == Intervention(c.sequence, clientId, message, false)
  {
    FindClientFinds(t.control.rows, clientId);
  }

  lemma RedirectKeepsLog(t: Turn, a: string, b: string, withinBudget: bool, now: nat, k: nat, clientId: string, message: string)
    requires RedirectTurn(t, a, b, withinBudget, now).Some? && Logged(t.control, k, clientId, message)
    ensures Logged(RedirectTurn(t, a, b, withinBudget, now).value.control, k, clientId, message)
  {
  }

  lemma OffRowKeepsLog(t: Turn, e: Event)
    requires OffRow(e) && !e.MarkApplied? && TurnNext(t, e).Some?
    ensures TurnNext(t, e).value.control.rows == t.control.rows
  {
  }

  lemma OnlyRedirectAndMarkWriteLog(t: Turn, e: Event)
    requires TurnNext(t, e).Some? && !e.Redirect? && !e.MarkApplied?
    ensures TurnNext(t, e).value.control.rows == t.control.rows
  {
    if OffRow(e) { OffRowKeepsLog(t, e); }
  }

  lemma LogIsKept(t: Turn, e: Event, k: nat, clientId: string, message: string)
    requires TurnNext(t, e).Some? && Logged(t.control, k, clientId, message)
    ensures Logged(TurnNext(t, e).value.control, k, clientId, message)
  {
    match e
    case Redirect(a, b, within, now) => RedirectKeepsLog(t, a, b, within, now, k, clientId, message);
    case MarkApplied(_, _) =>
    case _ => OnlyRedirectAndMarkWriteLog(t, e);
  }

  lemma LoggedIsKept(k: nat, clientId: string, message: string)
    ensures Kept((t: Turn) => Logged(t.control, k, clientId, message))
  {
    var P := (t: Turn) => Logged(t.control, k, clientId, message);
    forall t, e
      ensures KeptByStep(P, t, e)
    {
      if TurnNext(t, e).Some? && P(t) { LogIsKept(t, e, k, clientId, message); }
    }
  }

  /** Redirects are idempotent over the whole life of a turn: once a client id is logged, sending it
      again at any later time, with any message, leaves the turn exactly as it is. */
  lemma RedirectIsIdempotent(ws: seq<World>, es: seq<WorldEvent>, i: nat, j: nat, id: nat, k: nat,
                             clientId: string, message: string, other: string, withinBudget: bool, now: nat)
    requires Run(ws, es) && i <= j < |es| && id < |ws[i].turns| && Logged(ws[i].turns[id].control, k, clientId, message)
    requires es[j] == On(id, Redirect(clientId, other, withinBudget, now))
    ensures ws[j + 1] == ws[j] && other == message
  {
    LoggedIsKept(k, clientId, message);
    KeptPersists(ws, es, i, j, id, (t: Turn) => Logged(t.control, k, clientId, message));
    RunTable(ws, es, j);
    assert Moves(ws[j], es[j], ws[j + 1]) && RowInv(ws[j].turns[id]);
    LoggedIsReplayed(ws[j].turns[id], k, clientId, message, other, withinBudget, now);
    assert ws[j].turns[id := ws[j].turns[id]] == ws[j].turns;
  }
}
