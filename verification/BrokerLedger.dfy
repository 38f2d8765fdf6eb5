/** The host broker's replay ledger and the effectful path of its engine, with handlers that may run
    at the same time and a process that may die between any two steps. */
module BrokerLedger {
  import opened Prelude

  datatype Request = Request(
    protocol: nat, id: string, operation: string, phase: string, binding: string, payload: string,
    issuedAt: int, expiresAt: int)

  /** What identifies a request for replay: everything but the transport timestamps. */
  datatype Identity = Identity(
    protocol: nat, id: string, operation: string, phase: string, binding: string, payload: string)

  /** The replay hash, taken as injective on its canonical input. */
  function ReplayIdentity(r: Request): Identity {
    Identity(r.protocol, r.id, r.operation, r.phase, r.binding, r.payload)
  }

  datatype Outcome = Outcome(
    status: string, effect: string, precondition: Option<string>, postcondition: Option<string>,
    classification: string, token: Option<string>, error: Option<string>)

  datatype Receipt = Receipt(requestId: string, operation: string, phase: string, outcome: Outcome,
                             startedAt: int, completedAt: int)

  datatype Entry = Running(hash: Identity) | Terminal(hash: Identity, receipt: Receipt)

  type Ledger = map<string, Entry>

  datatype BeginResult = New | Known(receipt: Receipt) | InFlight | Conflict | Unavailable

  /** What the caller gets back. */
  datatype Answer = Stored(receipt: Receipt) | Fresh(outcome: Outcome)

  const UNCERTAIN := Outcome("uncertain", "unknown", None, None, "external_or_unknown", None, Some("broker_effect_uncertain"))
  const DENIED := Outcome("denied", "none", None, None, "none", None, Some("broker_request_replay_mismatch"))

  /** What the caller gets when the ledger raises before it has answered: an error without an effect. */
  const INTERNAL := Outcome("error", "none", None, None, "none", None, Some("broker_internal_error"))

  /** The effect may have happened but the ledger could not say so. */
  function Unrecorded(o: Outcome): Outcome {
    Outcome("uncertain", "unknown", o.precondition, o.postcondition,
            if o.classification != "none" then o.classification else "external_or_unknown",
            o.token, Some("broker_effect_uncertain"))
  }

  /** The caller is told that nobody knows whether something happened. */
  predicate SaysUncertain(o: Outcome) {
    o.status == "uncertain" && o.effect == "unknown" && o.classification != "none" && o.error == Some("broker_effect_uncertain")
  }

  /** ... with the fingerprints, the token and the classification of the run, as far as it gave one. */
  predicate KeepsTraces(o: Outcome, run: Outcome) {
    && o.precondition == run.precondition && o.postcondition == run.postcondition && o.token == run.token
    && (run.classification != "none" ==> o.classification == run.classification)
  }

  lemma UnrecordedSays(o: Outcome)
    ensures SaysUncertain(Unrecorded(o)) && KeepsTraces(Unrecorded(o), o)
  {
    assert "external_or_unknown"[0] != "none"[0];
  }

  lemma UncertainSays()
    ensures SaysUncertain(UNCERTAIN)
  {
    assert "external_or_unknown"[0] != "none"[0];
  }

  /** How the privileged implementation ended. */
  datatype Implementation = Returned(outcome: Outcome) | OperationError(outcome: Outcome) | Crashed

  /** What a run is reported as: what the implementation said, and uncertain when it broke off. */
  predicate Reports(o: Outcome, i: Implementation) {
    if i.Crashed? then SaysUncertain(o) else o == i.outcome
  }

  function OutcomeOf(i: Implementation): Outcome {
    if i.Crashed? then UNCERTAIN else i.outcome
  }

  // ----- The ledger -----

  /** `readable` is false when the ledger raises: its database is locked, it is still inside a
      transaction, or a stored receipt does not parse. Nothing is written then. */
  function Begin(l: Ledger, r: Request, readable: bool): BeginResult {
    if !readable then Unavailable
    else if r.id !in l then New
    else if l[r.id].hash != ReplayIdentity(r) then Conflict
    else if l[r.id].Running? then InFlight
    else Known(l[r.id].receipt)
  }

  function Begun(l: Ledger, r: Request, readable: bool): Ledger {
    if !readable || r.id in l then l else l[r.id := Running(ReplayIdentity(r))]
  }

  function Finish(l: Ledger, receipt: Receipt): Option<Ledger> {
    if receipt.requestId !in l || !l[receipt.requestId].Running? then None
    else Some(l[receipt.requestId := Terminal(l[receipt.requestId].hash, receipt)])
  }

  class ExecutionLedger {
    var rows: Ledger

    constructor ()
      ensures rows == map[]
    {
      rows := map[];
    }

    /** Insert a running row for an unknown id, and classify a known one. */
    method BeginExecution(r: Request, readable: bool) returns (result: BeginResult)
      modifies this
      ensures result == Begin(old(rows), r, readable) && rows == Begun(old(rows), r, readable)
    {
      if !readable { return Unavailable; }
      if r.id !in rows {
        rows := rows[r.id := Running(ReplayIdentity(r))];
        return New;
      }
      var row := rows[r.id];
      if row.hash != ReplayIdentity(r) { return Conflict; }
      if row.Running? { return InFlight; }
      result := Known(row.receipt);
    }

    /** Update exactly one running row, or raise. */
    method FinishExecution(receipt: Receipt) returns (ok: bool)
      modifies this
      ensures ok == Finish(old(rows), receipt).Some?
      ensures rows == if ok then Finish(old(rows), receipt).value else old(rows)
    {
      if receipt.requestId !in rows || !rows[receipt.requestId].Running? { return false; }
      rows := rows[receipt.requestId := Terminal(rows[receipt.requestId].hash, receipt)];
      ok := true;
    }
  }

  // ----- The engine as a state machine -----

  /** One call of the effectful path between its commits. */
  datatype Handler = Started(request: Request, at: int) | Ran(request: Request, receipt: Receipt)

  datatype Broker = Broker(
    ledger: Ledger,
    handlers: map<nat, Handler>,
    runs: seq<(string, Outcome)>,           // every run of a privileged implementation
    answers: seq<(Request, Answer)>)

  datatype BrokerEvent =
    | Arrive(handler: nat, request: Request, now: int, readable: bool)
    | Execute(handler: nat, result: Implementation, now: int)
    | Store(handler: nat, writable: bool)
    | Crash

  const IDLE := Broker(map[], map[], [], [])

  function MakeReceipt(r: Request, o: Outcome, startedAt: int, now: int): Receipt {
    Receipt(r.id, r.operation, r.phase, o, startedAt, now)
  }

  function Answered(b: Broker, r: Request, a: Answer): Broker {
    b.(answers := b.answers + [(r, a)])
  }

  function BrokerNext(b: Broker, e: BrokerEvent): Option<Broker> {
    match e
    case Arrive(h, r, now, readable) =>
      if h in b.handlers then None else
      var begun := b.(ledger := Begun(b.ledger, r, readable));
      Some(match Begin(b.ledger, r, readable)
           case New => begun.(handlers := b.handlers[h := Started(r, now)])
           case Known(receipt) => Answered(begun, r, Stored(receipt))
           case InFlight => Answered(begun, r, Fresh(UNCERTAIN))
           case Conflict => Answered(begun, r, Fresh(DENIED))
           case Unavailable => Answered(begun, r, Fresh(INTERNAL)))
    case Execute(h, result, now) =>
      if h !in b.handlers || !b.handlers[h].Started? then None else
      var (r, at, o) := (b.handlers[h].request, b.handlers[h].at, OutcomeOf(result));
      Some(b.(runs := b.runs + [(r.id, o)], handlers := b.handlers[h := Ran(r, MakeReceipt(r, o, at, now))]))
    case Store(h, writable) =>
      if h !in b.handlers || !b.handlers[h].Ran? then None else
      var (r, receipt) := (b.handlers[h].request, b.handlers[h].receipt);
      var done := b.(handlers := b.handlers - {h});
      var stored := Finish(b.ledger, receipt);
      Some(if writable && stored.Some? then Answered(done.(ledger := stored.value), r, Stored(receipt))
           else Answered(done, r, Fresh(Unrecorded(receipt.outcome))))
    case Crash => Some(b.(handlers := map[]))
  }

  /** The engine's effectful path for one request, start to end. */
  class BrokerEngine {
    const ledger: ExecutionLedger
    var runs: seq<(string, Outcome)>

    constructor ()
      ensures fresh(ledger) && ledger.rows == map[] && runs == []
    {
      ledger := new ExecutionLedger();
      runs := [];
    }

    /** The error of a ledger that cannot be read leaves this path; the caller turns it into an answer. */
    method Effectful(r: Request, result: Implementation, readable: bool, writable: bool, now: int)
        returns (answer: Answer)
      modifies this, ledger
      ensures var l := old(ledger.rows);
              var o := OutcomeOf(result);
              match Begin(l, r, readable)
              case New =>
                && runs == old(runs) + [(r.id, o)]
                && (if writable then
                      && answer == Stored(MakeReceipt(r, o, now, now))
                      && ledger.rows == l[r.id := Terminal(ReplayIdentity(r), MakeReceipt(r, o, now, now))]
                    else answer == Fresh(Unrecorded(o)) && ledger.rows == l[r.id := Running(ReplayIdentity(r))])
              case Known(receipt) => answer == Stored(receipt) && runs == old(runs) && ledger.rows == l
              case InFlight => answer == Fresh(UNCERTAIN) && runs == old(runs) && ledger.rows == l
              case Conflict => answer == Fresh(DENIED) && runs == old(runs) && ledger.rows == l
              case Unavailable => answer == Fresh(INTERNAL) && runs == old(runs) && ledger.rows == l
      ensures |runs| > |old(runs)| <==> readable && r.id !in old(ledger.rows)
      ensures |runs| > |old(runs)| ==>
                && runs[..|old(runs)|] == old(runs) && |runs| == |old(runs)| + 1 && runs[|old(runs)|].0 == r.id
                && Reports(runs[|old(runs)|].1, result)
                && (writable ==> answer.Stored? && answer.receipt.outcome == runs[|old(runs)|].1)
                && (!writable ==>
                      answer.Fresh? && SaysUncertain(answer.outcome) && KeepsTraces(answer.outcome, runs[|old(runs)|].1))
      ensures readable && r.id in old(ledger.rows) && old(ledger.rows)[r.id] == Running(ReplayIdentity(r)) ==>
                answer.Fresh? && SaysUncertain(answer.outcome)
    {
      UncertainSays();
      UnrecordedSays(OutcomeOf(result));
      var begun := ledger.BeginExecution(r, readable);
      if begun.Unavailable? { return Fresh(INTERNAL); }
      if begun.Conflict? { return Fresh(DENIED); }
      if begun.Known? { return Stored(begun.receipt); }
      if begun.InFlight? { return Fresh(UNCERTAIN); }
      runs := runs + [(r.id, OutcomeOf(result))];
      var receipt := MakeReceipt(r, OutcomeOf(result), now, now);
      var stored := false;
      if writable { stored := ledger.FinishExecution(receipt); }
      if !stored { return Fresh(Unrecorded(OutcomeOf(result))); }
      answer := Stored(receipt);
    }
  }

  // ----- Invariant -----

  ghost predicate RanOnce(runs: seq<(string, Outcome)>) {
    forall i, j | 0 <= i < j < |runs| :: runs[i].0 != runs[j].0
  }

  ghost predicate HandlerFits(b: Broker, h: Handler) {
    && h.request.id in b.ledger && b.ledger[h.request.id] == Running(ReplayIdentity(h.request))
    && match h
       case Started(r, _) => forall i | 0 <= i < |b.runs| :: b.runs[i].0 != r.id
       case Ran(r, receipt) => receipt.requestId == r.id && (r.id, receipt.outcome) in b.runs
  }

  ghost predicate EntryFits(b: Broker, id: string)
    requires id in b.ledger
  {
    && b.ledger[id].hash.id == id
    && (b.ledger[id].Terminal? ==>
          b.ledger[id].receipt.requestId == id && (id, b.ledger[id].receipt.outcome) in b.runs)
  }

  ghost predicate BrokerInv(b: Broker) {
    && RanOnce(b.runs)
    && (forall i | 0 <= i < |b.runs| :: b.runs[i].0 in b.ledger)
    && (forall h | h in b.handlers :: HandlerFits(b, b.handlers[h]))
    && (forall g, h | g in b.handlers && h in b.handlers && g != h :: b.handlers[g].request.id != b.handlers[h].request.id)
    && (forall id | id in b.ledger :: EntryFits(b, id))
  }

  lemma NewArrivalKeeps(b: Broker, h: nat, r: Request, now: int)
    requires BrokerInv(b) && h !in b.handlers && r.id !in b.ledger
    ensures BrokerInv(BrokerNext(b, Arrive(h, r, now, true)).value)
  {
    var b' := BrokerNext(b, Arrive(h, r, now, true)).value;
    forall g | g in b'.handlers
      ensures HandlerFits(b', b'.handlers[g]) && (g != h ==> b'.handlers[g].request.id != r.id)
    {
      if g in b.handlers { assert HandlerFits(b, b.handlers[g]); }
    }
    forall id | id in b'.ledger
      ensures EntryFits(b', id)
    {
      if id in b.ledger { assert EntryFits(b, id); }
    }
  }

  lemma ArriveKeeps(b: Broker, h: nat, r: Request, now: int, readable: bool)
    requires BrokerInv(b) && h !in b.handlers
    ensures BrokerInv(BrokerNext(b, Arrive(h, r, now, readable)).value)
  {
    if readable && r.id !in b.ledger {
      NewArrivalKeeps(b, h, r, now);
    } else {
      var b' := BrokerNext(b, Arrive(h, r, now, readable)).value;
      forall g | g in b'.handlers ensures HandlerFits(b', b'.handlers[g]) { assert HandlerFits(b, b.handlers[g]); }
      forall id | id in b'.ledger ensures EntryFits(b', id) { assert EntryFits(b, id); }
    }
  }

  lemma ExecuteKeeps(b: Broker, h: nat, result: Implementation, now: int)
    requires BrokerInv(b) && BrokerNext(b, Execute(h, result, now)).Some?
    ensures BrokerInv(BrokerNext(b, Execute(h, result, now)).value)
  {
    var b' := BrokerNext(b, Execute(h, result, now)).value;
    assert HandlerFits(b, b.handlers[h]);
    assert forall x | x in b.runs :: x in b'.runs;
    assert b'.runs[|b.runs|] in b'.runs;
    forall g | g in b'.handlers
      ensures HandlerFits(b', b'.handlers[g])
    {
      assert HandlerFits(b, b.handlers[g]);
    }
    forall id | id in b'.ledger
      ensures EntryFits(b', id)
    {
      assert EntryFits(b, id);
    }
  }

  lemma StoreKeeps(b: Broker, h: nat, writable: bool)
    requires BrokerInv(b) && BrokerNext(b, Store(h, writable)).Some?
    ensures BrokerInv(BrokerNext(b, Store(h, writable)).value)
  {
    var b' := BrokerNext(b, Store(h, writable)).value;
    assert HandlerFits(b, b.handlers[h]);
    forall g | g in b'.handlers
      ensures HandlerFits(b', b'.handlers[g])
    {
      assert HandlerFits(b, b.handlers[g]);
    }
    forall id | id in b'.ledger
      ensures EntryFits(b', id)
    {
      assert EntryFits(b, id);
    }
  }

  ghost predicate BrokerStep(b: Broker, e: BrokerEvent, b': Broker) {
    BrokerNext(b, e) == Some(b')
  }

  ghost predicate BrokerRun(bs: seq<Broker>, es: seq<BrokerEvent>) {
    |bs| == |es| + 1 && bs[0] == IDLE && forall i | 0 <= i < |es| :: BrokerStep(bs[i], es[i], bs[i + 1])
  }

  lemma {:induction false} BrokerRunInv(bs: seq<Broker>, es: seq<BrokerEvent>, i: nat)
    requires BrokerRun(bs, es) && i < |bs|
    ensures BrokerInv(bs[i])
  {
    if i > 0 {
      BrokerRunInv(bs, es, i - 1);
      assert BrokerStep(bs[i - 1], es[i - 1], bs[i]);
      match es[i - 1]
      case Arrive(h, r, now, readable) => ArriveKeeps(bs[i - 1], h, r, now, readable);
      case Execute(h, result, now) => ExecuteKeeps(bs[i - 1], h, result, now);
      case Store(h, writable) => StoreKeeps(bs[i - 1], h, writable);
      case Crash =>
        forall id | id in bs[i].ledger ensures EntryFits(bs[i], id) { assert EntryFits(bs[i - 1], id); }
    }
  }

  // ----- At most once -----

  /** Over any run, with retries, failures and crashes in any order, no privileged implementation
      runs twice for one request id. */
  lemma ImplementationAtMostOnce(bs: seq<Broker>, es: seq<BrokerEvent>, n: nat, i: nat, j: nat)
    requires BrokerRun(bs, es) && n < |bs| && i < |bs[n].runs| && j < |bs[n].runs|
    requires bs[n].runs[i].0 == bs[n].runs[j].0
    ensures i == j
  {
    BrokerRunInv(bs, es, n);
  }

  lemma EntryStep(b: Broker, e: BrokerEvent, b': Broker, id: string)
    requires BrokerInv(b) && BrokerStep(b, e, b') && id in b.ledger
    ensures id in b'.ledger && b'.ledger[id].hash == b.ledger[id].hash
    ensures b.ledger[id].Terminal? ==> b'.ledger[id] == b.ledger[id]
    ensures b.ledger[id].Running? && b'.ledger[id].Terminal? ==>
              e.Store? && e.handler in b.handlers && b.handlers[e.handler].request.id == id
  {
    if e.Store? { assert HandlerFits(b, b.handlers[e.handler]); }
  }

  lemma EntryStepAt(bs: seq<Broker>, es: seq<BrokerEvent>, k: nat, id: string)
    requires BrokerRun(bs, es) && k < |es| && id in bs[k].ledger
    ensures id in bs[k + 1].ledger && bs[k + 1].ledger[id].hash == bs[k].ledger[id].hash
    ensures bs[k].ledger[id].Terminal? ==> bs[k + 1].ledger[id] == bs[k].ledger[id]
  {
    BrokerRunInv(bs, es, k);
    assert BrokerStep(bs[k], es[k], bs[k + 1]);
    EntryStep(bs[k], es[k], bs[k + 1], id);
  }

  /** A stored receipt, and the identity an id was first used with, never change. */
  lemma {:induction false} StoredReceiptNeverChanges(bs: seq<Broker>, es: seq<BrokerEvent>, i: nat, j: nat, id: string)
    requires BrokerRun(bs, es) && i <= j < |bs| && id in bs[i].ledger
    ensures id in bs[j].ledger && bs[j].ledger[id].hash == bs[i].ledger[id].hash
    ensures bs[i].ledger[id].Terminal? ==> bs[j].ledger[id] == bs[i].ledger[id]
  {
    if i < j {
      StoredReceiptNeverChanges(bs, es, i, j - 1, id);
      EntryStepAt(bs, es, j - 1, id);
    }
  }

  /** A retry with refreshed timestamps gets the stored receipt, at any later time, exactly when the
      ledger can be read; any other request under the same id is denied then. A ledger that cannot be
      read answers with an internal error. Nothing runs in any case. */
  lemma RetryGetsStoredReceipt(bs: seq<Broker>, es: seq<BrokerEvent>, i: nat, j: nat, h: nat, r: Request, now: int,
                               readable: bool)
    requires BrokerRun(bs, es) && i <= j < |es| && r.id in bs[i].ledger && bs[i].ledger[r.id].Terminal?
    requires es[j] == Arrive(h, r, now, readable)
    ensures var entry := bs[i].ledger[r.id];
            bs[j + 1] == Answered(bs[j], r, if !readable then Fresh(INTERNAL)
                                            else if ReplayIdentity(r) == entry.hash then Stored(entry.receipt)
                                            else Fresh(DENIED))
    ensures bs[j + 1].runs == bs[j].runs
  {
    StoredReceiptNeverChanges(bs, es, i, j, r.id);
    assert BrokerStep(bs[j], es[j], bs[j + 1]);
  }

  /** The id is running and the process that served it is gone. */
  ghost predicate Orphaned(b: Broker, id: string) {
    && id in b.ledger && b.ledger[id].Running?
    && forall h | h in b.handlers :: b.handlers[h].request.id != id
  }

  lemma OrphanStep(bs: seq<Broker>, es: seq<BrokerEvent>, k: nat, id: string)
    requires BrokerRun(bs, es) && k < |es| && Orphaned(bs[k], id)
    ensures Orphaned(bs[k + 1], id) && bs[k + 1].ledger[id] == bs[k].ledger[id]
  {
    BrokerRunInv(bs, es, k);
    assert BrokerStep(bs[k], es[k], bs[k + 1]);
    EntryStep(bs[k], es[k], bs[k + 1], id);
  }

  lemma {:induction false} OrphanStays(bs: seq<Broker>, es: seq<BrokerEvent>, i: nat, j: nat, id: string)
    requires BrokerRun(bs, es) && i <= j < |bs| && Orphaned(bs[i], id)
    ensures Orphaned(bs[j], id) && bs[j].ledger[id] == bs[i].ledger[id]
  {
    if i < j {
      OrphanStays(bs, es, i, j - 1, id);
      OrphanStep(bs, es, j - 1, id);
    }
  }

  /** The answer a request was given in the step from b to b'. */
  predicate AnswerIs(b: Broker, b': Broker, r: Request, o: Outcome) {
    b' == Answered(b, r, Fresh(o))
  }

  /** An id left running by a crash or a failed ledger write is never tried again. Its own request is
      answered as uncertain at any later time if and only if the ledger can be read; otherwise the
      answer denies an effect that may have happened. */
  lemma OrphanIsUncertain(bs: seq<Broker>, es: seq<BrokerEvent>, i: nat, j: nat, h: nat, r: Request, now: int,
                          readable: bool)
    requires BrokerRun(bs, es) && i <= j < |es| && Orphaned(bs[i], r.id) && es[j] == Arrive(h, r, now, readable)
    ensures bs[j + 1].runs == bs[j].runs
    ensures ReplayIdentity(r) == bs[i].ledger[r.id].hash ==>
              && (AnswerIs(bs[j], bs[j + 1], r, UNCERTAIN) <==> readable)
              && (AnswerIs(bs[j], bs[j + 1], r, INTERNAL) <==> !readable)
    ensures ReplayIdentity(r) != bs[i].ledger[r.id].hash ==>
              AnswerIs(bs[j], bs[j + 1], r, if readable then DENIED else INTERNAL)
  {
    OrphanStays(bs, es, i, j, r.id);
    assert BrokerStep(bs[j], es[j], bs[j + 1]);
    var (before, after) := (bs[j].answers, bs[j + 1].answers);
    assert after[|before|] == (r, Fresh(if !readable then INTERNAL
                                        else if ReplayIdentity(r) == bs[i].ledger[r.id].hash then UNCERTAIN else DENIED));
    assert (before + [(r, Fresh(UNCERTAIN))])[|before|] == (r, Fresh(UNCERTAIN));
    assert (before + [(r, Fresh(INTERNAL))])[|before|] == (r, Fresh(INTERNAL));
  }

  /** A crash and a failed ledger write both leave exactly that situation behind. */
  lemma InterruptedIsOrphaned(b: Broker, h: nat)
    requires BrokerInv(b) && h in b.handlers
    ensures Orphaned(BrokerNext(b, Crash).value, b.handlers[h].request.id)
    ensures b.handlers[h].Ran? ==> Orphaned(BrokerNext(b, Store(h, false)).value, b.handlers[h].request.id)
  {
    assert HandlerFits(b, b.handlers[h]);
  }

  /** A terminal receipt reports the outcome of the one run of its implementation. */
  lemma ReceiptReportsTheRun(bs: seq<Broker>, es: seq<BrokerEvent>, i: nat, id: string, k: nat)
    requires BrokerRun(bs, es) && i < |bs| && id in bs[i].ledger && bs[i].ledger[id].Terminal?
    requires k < |bs[i].runs| && bs[i].runs[k].0 == id
    ensures bs[i].ledger[id].receipt.outcome == bs[i].runs[k].1
  {
    BrokerRunInv(bs, es, i);
    assert EntryFits(bs[i], id);
    var m :| 0 <= m < |bs[i].runs| && bs[i].runs[m] == (id, bs[i].ledger[id].receipt.outcome);
  }

  // ----- A run whose last answer denies the effect -----

  /** Run, fail to record, retry while the ledger cannot be read: whatever the implementation did, the
      retry is told that nothing happened. */
  function UnreadableEvents(r: Request, o: Outcome): seq<BrokerEvent> {
    [Arrive(0, r, 0, true), Execute(0, Returned(o), 1), Store(0, false), Arrive(1, r, 2, false)]
  }

  function UnreadableStates(r: Request, o: Outcome): seq<Broker> {
    var row := map[r.id := Running(ReplayIdentity(r))];
    var first := (r, Fresh(Unrecorded(o)));
    [IDLE,
     Broker(row, map[0 := Started(r, 0)], [], []),
     Broker(row, map[0 := Ran(r, MakeReceipt(r, o, 0, 1))], [(r.id, o)], []),
     Broker(row, map[], [(r.id, o)], [first]),
     Broker(row, map[], [(r.id, o)], [first, (r, Fresh(INTERNAL))])]
  }

  lemma UnreadableStarts(r: Request, o: Outcome)
    ensures var bs := UnreadableStates(r, o);
            && BrokerStep(bs[0], Arrive(0, r, 0, true), bs[1])
            && BrokerStep(bs[1], Execute(0, Returned(o), 1), bs[2])
  {
    assert IDLE.handlers[0 := Started(r, 0)] == map[0 := Started(r, 0)];
    assert IDLE.ledger[r.id := Running(ReplayIdentity(r))] == map[r.id := Running(ReplayIdentity(r))];
    var ran := Ran(r, MakeReceipt(r, o, 0, 1));
    assert map[0 := Started(r, 0)][0 := ran] == map[0 := ran];
    assert [] + [(r.id, o)] == [(r.id, o)];
  }

  lemma UnreadableEnds(r: Request, o: Outcome)
    ensures var bs := UnreadableStates(r, o);
            && BrokerStep(bs[2], Store(0, false), bs[3])
            && BrokerStep(bs[3], Arrive(1, r, 2, false), bs[4])
  {
    var first := (r, Fresh(Unrecorded(o)));
    assert map[0 := Ran(r, MakeReceipt(r, o, 0, 1))] - {0} == map[];
    assert [] + [first] == [first] && [first] + [(r, Fresh(INTERNAL))] == [first, (r, Fresh(INTERNAL))];
  }

  lemma RetryIsToldNoEffect(r: Request, o: Outcome)
    ensures BrokerRun(UnreadableStates(r, o), UnreadableEvents(r, o))
    ensures var last := UnreadableStates(r, o)[4];
            && (r.id, o) in last.runs && Orphaned(last, r.id)
            && last.answers[1] == (r, Fresh(INTERNAL)) && INTERNAL.effect == "none"
  {
    UnreadableStarts(r, o);
    UnreadableEnds(r, o);
    assert (r.id, o) == UnreadableStates(r, o)[4].runs[0];
  }
}
