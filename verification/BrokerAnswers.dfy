/** What the caller of the broker is told, in the words of the protocol, at every answer of every run. */
module BrokerAnswers {
  import opened Prelude
  import opened BrokerLedger

  /** Two requests are the same one for replay exactly when they differ in the transport timestamps only. */
  lemma ReplayIdentityIs(a: Request, b: Request)
    ensures ReplayIdentity(a) == ReplayIdentity(b) <==> a == b.(issuedAt := a.issuedAt, expiresAt := a.expiresAt)
  {
  }

  predicate SaysDenied(o: Outcome) {
    o.status == "denied" && o.effect == "none" && o.error == Some("broker_request_replay_mismatch")
  }

  predicate SaysInternal(o: Outcome) {
    o.status == "error" && o.effect == "none" && o.error == Some("broker_internal_error")
  }

  lemma DeniedSays()
    ensures SaysDenied(DENIED)
  {
  }

  lemma InternalSays()
    ensures SaysInternal(INTERNAL)
  {
  }

  /** The step answered request r with a, and nobody else. */
  predicate Answers(b: Broker, b': Broker, r: Request, a: Answer) {
    b'.answers == b.answers + [(r, a)]
  }

  /** A receipt carries the request it answers and the outcome of the run. */
  lemma ExecuteExactly(b: Broker, h: nat, result: Implementation, now: int)
    requires h in b.handlers && b.handlers[h].Started?
    ensures BrokerNext(b, Execute(h, result, now)).Some?
    ensures var b' := BrokerNext(b, Execute(h, result, now)).value;
            && h in b'.handlers && b'.handlers[h].Ran?
            && var (r, receipt) := (b.handlers[h].request, b'.handlers[h].receipt);
               && b'.handlers[h].request == r && Reports(receipt.outcome, result) && b'.runs == b.runs + [(r.id, receipt.outcome)]
               && receipt.requestId == r.id && receipt.operation == r.operation && receipt.phase == r.phase
               && receipt.startedAt == b.handlers[h].at && receipt.completedAt == now
               && b'.ledger == b.ledger && b'.answers == b.answers
  {
    UncertainSays();
  }

  /** The closing write: the receipt becomes the answer and the ledger's row, or the answer is uncertain and
      the row stays open. */
  lemma StoreExactly(b: Broker, h: nat, writable: bool) returns (a: Answer)
    requires BrokerInv(b) && h in b.handlers && b.handlers[h].Ran?
    ensures BrokerNext(b, Store(h, writable)).Some?
    ensures var (r, receipt, b') := (b.handlers[h].request, b.handlers[h].receipt, BrokerNext(b, Store(h, writable)).value);
            && Answers(b, b', r, a) && h !in b'.handlers && b'.runs == b.runs
            && r.id in b.ledger && b.ledger[r.id].Running?
            && (writable ==> a == Stored(receipt) && b'.ledger == b.ledger[r.id := Terminal(b.ledger[r.id].hash, receipt)])
            && (!writable ==>
                  && a.Fresh? && SaysUncertain(a.outcome) && KeepsTraces(a.outcome, receipt.outcome)
                  && b'.ledger == b.ledger)
  {
    assert HandlerFits(b, b.handlers[h]);
    var receipt := b.handlers[h].receipt;
    UnrecordedSays(receipt.outcome);
    a := if writable then Stored(receipt) else Fresh(Unrecorded(receipt.outcome));
  }

  /** A request that arrives: it starts a handler exactly when its id is new and the ledger can be read;
      otherwise it is answered at once. */
  lemma ArriveStarts(b: Broker, h: nat, r: Request, now: int, readable: bool)
    requires h !in b.handlers
    ensures BrokerNext(b, Arrive(h, r, now, readable)).Some?
    ensures var b' := BrokerNext(b, Arrive(h, r, now, readable)).value;
            && b'.runs == b.runs
            && (h in b'.handlers <==> readable && r.id !in b.ledger)
            && (h in b'.handlers ==>
                  && b'.handlers[h] == Started(r, now) && b'.answers == b.answers
                  && b'.ledger == b.ledger[r.id := Running(ReplayIdentity(r))])
            && (h !in b'.handlers ==> b'.ledger == b.ledger && b'.handlers == b.handlers && |b'.answers| == |b.answers| + 1)
  {
  }

  lemma ArriveAnswers(b: Broker, h: nat, r: Request, now: int, readable: bool) returns (a: Answer)
    requires h !in b.handlers && (readable ==> r.id in b.ledger)
    ensures BrokerNext(b, Arrive(h, r, now, readable)).Some?
    ensures Answers(b, BrokerNext(b, Arrive(h, r, now, readable)).value, r, a)
    ensures !readable ==> a.Fresh? && SaysInternal(a.outcome)
    ensures readable && b.ledger[r.id].hash != ReplayIdentity(r) ==> a.Fresh? && SaysDenied(a.outcome)
    ensures readable && b.ledger[r.id] == Running(ReplayIdentity(r)) ==> a.Fresh? && SaysUncertain(a.outcome)
    ensures readable && b.ledger[r.id].hash == ReplayIdentity(r) && b.ledger[r.id].Terminal? ==> a == Stored(b.ledger[r.id].receipt)
  {
    UncertainSays();
    DeniedSays();
    InternalSays();
    a := match Begin(b.ledger, r, readable)
         case Known(receipt) => Stored(receipt)
         case InFlight => Fresh(UNCERTAIN)
         case Conflict => Fresh(DENIED)
         case _ => Fresh(INTERNAL);
  }

  /** The answer given in the step: by the closing write, or to a repeated request by a ledger that can be
      read, under the identity the id was first used with. */
  ghost predicate OwnAnswer(b: Broker, e: BrokerEvent) {
    || e.Store?
    || (e.Arrive? && e.readable && e.request.id in b.ledger && b.ledger[e.request.id].hash == ReplayIdentity(e.request))
  }

  lemma OwnAnswerStep(b: Broker, e: BrokerEvent, b': Broker) returns (r: Request, a: Answer)
    requires BrokerInv(b) && BrokerStep(b, e, b') && OwnAnswer(b, e)
    ensures Answers(b, b', r, a) && r.id in b'.ledger
    ensures a.Fresh? <==> b'.ledger[r.id].Running?
    ensures a.Fresh? ==> SaysUncertain(a.outcome)
    ensures a.Stored? ==> b'.ledger[r.id].Terminal? && a.receipt == b'.ledger[r.id].receipt && a.receipt.requestId == r.id
    ensures a.Stored? ==> (r.id, a.receipt.outcome) in b'.runs
  {
    if e.Store? {
      r := b.handlers[e.handler].request;
      assert HandlerFits(b, b.handlers[e.handler]);
      a := StoreExactly(b, e.handler, e.writable);
    } else {
      r := e.request;
      a := ArriveAnswers(b, e.handler, r, e.now, true);
      assert EntryFits(b, r.id);
    }
  }

  /** The i-th run was one for this id. */
  predicate RunFor(b: Broker, i: nat, id: string) {
    i < |b.runs| && b.runs[i].0 == id
  }

  /** A stored receipt that reports exactly what the runs of the id came to, and there is one. */
  ghost predicate ReportsTheRun(b: Broker, id: string, o: Outcome) {
    && (exists i: nat :: RunFor(b, i, id))
    && (forall i: nat | RunFor(b, i, id) :: b.runs[i].1 == o)
  }

  lemma StoredReportsTheRun(bs: seq<Broker>, es: seq<BrokerEvent>, n: nat, id: string)
    requires BrokerRun(bs, es) && n < |bs| && id in bs[n].ledger && bs[n].ledger[id].Terminal?
    ensures ReportsTheRun(bs[n], id, bs[n].ledger[id].receipt.outcome)
  {
    BrokerRunInv(bs, es, n);
    assert EntryFits(bs[n], id);
    var i :| 0 <= i < |bs[n].runs| && bs[n].runs[i] == (id, bs[n].ledger[id].receipt.outcome);
    assert RunFor(bs[n], i, id);
    forall k: nat | RunFor(bs[n], k, id)
      ensures bs[n].runs[k].1 == bs[n].ledger[id].receipt.outcome
    {
      ReceiptReportsTheRun(bs, es, n, id, k);
    }
  }

  /** In every run: such an answer is the stored receipt, which reports the outcome of the one run, or it
      says that nobody knows. It never denies an effect that may have happened. */
  lemma AnswerIsTheRunOrUncertain(bs: seq<Broker>, es: seq<BrokerEvent>, k: nat)
    requires BrokerRun(bs, es) && k < |es| && OwnAnswer(bs[k], es[k])
    ensures |bs[k + 1].answers| == |bs[k].answers| + 1
    ensures var (b', (r, a)) := (bs[k + 1], bs[k + 1].answers[|bs[k].answers|]);
            && r.id in b'.ledger
            && (b'.ledger[r.id].Running? ==> a.Fresh? && SaysUncertain(a.outcome))
            && (b'.ledger[r.id].Terminal? ==> a == Stored(b'.ledger[r.id].receipt) && ReportsTheRun(b', r.id, a.receipt.outcome))
  {
    BrokerRunInv(bs, es, k);
    assert BrokerStep(bs[k], es[k], bs[k + 1]);
    var r, a := OwnAnswerStep(bs[k], es[k], bs[k + 1]);
    if a.Stored? { StoredReportsTheRun(bs, es, k + 1, r.id); }
  }
}
