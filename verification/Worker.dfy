/**
 * The ingest worker as it is written: look up the ledger, check for a duplicate, seal, announce,
 * settle. Undisturbed, it is one path through the pipeline's step machine.
 */
module Workers {
  import opened Wrappers
  import opened Digests
  import opened DigestIndex
  import opened StorageRef
  import opened Ledgers
  import opened Lockers
  import opened Pipeline
  import SP = SealProtocol

  /** Errors as the worker tells them apart: by identity, not by what they wrap. */
  datatype Error = LedgerNotFound(subject: string) | ContextCanceled | Wrapped(context: string, cause: Error) | Failure(text: string)

  /** What the worker tells the queue. */
  datatype Verdict = Ack | Nak | Term

  predicate IsPermanent(err: Error) {
    err.LedgerNotFound? || err == ContextCanceled
  }

  /** The one ledger that work for a subject may touch, if there is one. */
  ghost function Touched(locker: Locker, subject: string): set<Ledger>
    reads locker
  {
    if subject in locker.ledgers then {locker.ledgers[subject]} else {}
  }

  /** The subject's open ledger, or its absence, is what the machine has for the subject. */
  ghost predicate Represents(locker: Locker, subject: string, lk: SP.State)
    reads locker, Touched(locker, subject)
  {
    && (subject in locker.ledgers <==> subject in lk.index)
    && (subject in locker.ledgers ==> Mirrors(locker.ledgers[subject], SP.LogOf(lk, subject), lk.index[subject]))
  }

  ghost predicate Mirrors(ledger: Ledger, log: seq<SP.Entry>, index: Index)
    reads ledger
  {
    ledger.log == SP.Payloads(log) && ledger.digestIndex == index
  }

  ghost predicate Holds(s: State, ref: IngestRef) {
    s.worker.WGot? && s.worker.m < |s.queue| && s.queue[s.worker.m].ref == ref && s.lk.up && s.lk.jobs.worker == SP.Idle
  }

  /** The logs and indexes once an entry is appended and indexed. */
  function WithEntry(lk: SP.State, subject: string, entry: SP.Entry): SP.State
    requires subject in lk.index
  {
    var log := SP.LogOf(lk, subject);
    var index: Index := lk.index[subject][Digest(entry.bytes) := |log|];
    lk.(logs := lk.logs[subject := log + [entry]], index := lk.index[subject := index])
  }

  /** What the worker finds and does. */
  datatype Outcome = Missing | Duplicate | Refused | SealedAt(index: nat)

  function Decide(lk: SP.State, ref: IngestRef, accepted: bool): Outcome {
    if ref.subject !in lk.index then Missing
    else if Digest(ref.receipt) in lk.index[ref.subject] then Duplicate
    else if !accepted then Refused
    else SealedAt(|SP.LogOf(lk, ref.subject)|)
  }

  function LogsAfter(lk: SP.State, ref: IngestRef, m: nat, accepted: bool): SP.State {
    if Decide(lk, ref, accepted).SealedAt? then WithEntry(lk, ref.subject, SP.Entry(ref.receipt, SP.FromWorker(m))) else lk
  }

  /** The event handed to the publisher. */
  function EventOf(ref: IngestRef, o: Outcome): Option<SealedEvent> {
    if o.SealedAt? then Some(EventFor(ref, o.index)) else None
  }

  function PcAfter(m: nat, o: Outcome): WorkerPc {
    match o
    case Missing => WFailed(m, true)
    case Refused => WFailed(m, false)
    case _ => WDone(m)
  }

  /** The state an undisturbed worker leads to from the one it got the message in. */
  function After(s: State, ref: IngestRef, accepted: bool, published: bool): State
    requires Holds(s, ref)
  {
    var o := Decide(s.lk, ref, accepted);
    s.(worker := PcAfter(s.worker.m, o),
       lk := LogsAfter(s.lk, ref, s.worker.m, accepted),
       events := if published && EventOf(ref, o).Some? then s.events + [EventOf(ref, o).value] else s.events)
  }

  lemma FirstHalf(s: State, ref: IngestRef, accepted: bool) returns (steps: seq<Step>, mid: State)
    requires Holds(s, ref) && ref.subject in s.lk.index && Digest(ref.receipt) !in s.lk.index[ref.subject]
    ensures Run(s, steps) == Some(mid)
    ensures var e, log := SP.Entry(ref.receipt, SP.FromWorker(s.worker.m)), SP.LogOf(s.lk, ref.subject);
            mid == if accepted
                   then s.(worker := WSealing(s.worker.m),
                           lk := s.lk.(logs := s.lk.logs[ref.subject := log + [e]],
                                       jobs := s.lk.jobs.(worker := SP.Appended(ref.subject, e, |log|))))
                   else s.(worker := WFailed(s.worker.m, false))
  {
    Step1(s, Work(Check));
    Then(s, [Work(Check)], Work(Append(accepted)));
    steps := [Work(Check)] + [Work(Append(accepted))];
    mid := Run(s, steps).value;
  }

  lemma SealPath(s: State, ref: IngestRef, accepted: bool, published: bool) returns (steps: seq<Step>)
    requires Holds(s, ref) && ref.subject in s.lk.index && Digest(ref.receipt) !in s.lk.index[ref.subject]
    ensures Run(s, steps) == Some(After(s, ref, accepted, published))
  {
    var mid;
    steps, mid := FirstHalf(s, ref, accepted);
    if accepted {
      Then(s, steps, Work(Index));
      steps := steps + [Work(Index)];
      Then(s, steps, Work(Emit(published)));
      steps := steps + [Work(Emit(published))];
    }
  }

  /** It is where a run of the step machine leads, through steps of the worker alone. */
  lemma AfterIsRun(s: State, ref: IngestRef, accepted: bool, published: bool) returns (steps: seq<Step>)
    requires Holds(s, ref)
    ensures Run(s, steps) == Some(After(s, ref, accepted, published))
  {
    if ref.subject in s.lk.index && Digest(ref.receipt) !in s.lk.index[ref.subject] {
      steps := SealPath(s, ref, accepted, published);
    } else {
      steps := [Work(Check)];
      Step1(s, Work(Check));
    }
  }

  lemma PayloadsAppend(log: seq<SP.Entry>, e: SP.Entry)
    ensures SP.Payloads(log + [e]) == SP.Payloads(log) + [e.bytes]
  {
  }

  class Worker {
    const locker: Locker

    constructor (lk: Locker)
      ensures locker == lk
    {
      locker := lk;
    }

    /**
     * Seals one receipt unless its digest is already indexed. `refusal` is the append's error, if
     * any; `sent` is the event handed to the publisher, whose own failure changes nothing here. If
     * the subject's ledger stands for the log and index of a machine state, it ends up standing for
     * those the worker's machine steps lead to; no other ledger is touched.
     */
    method ProcessReceipt(ref: IngestRef, refusal: Option<Error>, ghost lk: SP.State, ghost m: nat)
      returns (err: Option<Error>, sent: Option<SealedEvent>)
      requires locker.Valid() && Represents(locker, ref.subject, lk)
      modifies Touched(locker, ref.subject)
      ensures locker.Valid() && Represents(locker, ref.subject, LogsAfter(lk, ref, m, refusal.None?))
      ensures sent == EventOf(ref, Decide(lk, ref, refusal.None?))
      ensures PcAfter(m, Decide(lk, ref, refusal.None?)) == if err.None? then WDone(m) else WFailed(m, IsPermanent(err.value))
    {
      var found := locker.GetLedger(ref.subject);
      if found.None? {
        return Some(LedgerNotFound(ref.subject)), None;
      }
      var ledger := found.value;
      var digest := Digest(ref.receipt);
      var dup := ledger.VerifyDigest(digest);
      if dup.Some? {
        return None, None;
      }
      var index := ledger.Seal(ref.receipt, refusal.None?);
      if index.None? {
        return Some(Wrapped("sealing receipt", refusal.value)), None;
      }
      PayloadsAppend(SP.LogOf(lk, ref.subject), SP.Entry(ref.receipt, SP.FromWorker(m)));
      var storageRef := Format(ref.subject, index.value);
      return None, Some(SealedEvent(ref.subject, ref.contentDigest, digest, index.value, storageRef));
    }

    /**
     * One message. Undecodable data is terminated and touches nothing; otherwise the verdict is the
     * one the machine settles with: terminate exactly when the ledger is missing, give back when
     * the append was refused for whatever reason, cancellation included, else acknowledge.
     */
    method HandleMessage(data: Option<IngestRef>, refusal: Option<Error>, ghost lk: SP.State, ghost m: nat)
      returns (v: Verdict, sent: Option<SealedEvent>)
      requires locker.Valid() && (data.Some? ==> Represents(locker, data.value.subject, lk))
      modifies if data.Some? then Touched(locker, data.value.subject) else {}
      ensures locker.Valid()
      ensures data.None? ==> v == Term && sent == None
      ensures data.Some? ==>
                && Represents(locker, data.value.subject, LogsAfter(lk, data.value, m, refusal.None?))
                && sent == EventOf(data.value, Decide(lk, data.value, refusal.None?))
      ensures data.Some? ==> (v == Term <==> data.value.subject !in locker.ledgers)
      ensures data.Some? ==>
                PcAfter(m, Decide(lk, data.value, refusal.None?)) == if v == Ack then WDone(m) else WFailed(m, v == Term)
    {
      if data.None? {
        return Term, None;
      }
      var err;
      err, sent := ProcessReceipt(data.value, refusal, lk, m);
      if err.None? {
        v := Ack;
      } else {
        v := if IsPermanent(err.value) then Term else Nak;
      }
    }
  }
}
