/** What every run of the pipeline keeps. */
module PipelineSafety {
  import opened Wrappers
  import opened Digests
  import opened Receipts
  import opened StorageRef
  import opened TrustKv
  import opened Authn
  import opened Authz
  import opened Pipeline
  import SP = SealProtocol

  // ---- What only ever grows ----

  ghost predicate SameOp(a: Op, b: Op) {
    a.kind == b.kind && a.subject == b.subject && a.list == b.list && a.caller == b.caller
  }

  ghost predicate GwGrows(a: Gateway, b: Gateway) {
    && a.cfg == b.cfg && a.kv.writes <= b.kv.writes && a.kv.entries.Keys <= b.kv.entries.Keys
    && a.registry <= b.registry && a.authorised <= b.authorised
    && |a.ops| <= |b.ops| && forall i :: 0 <= i < |a.ops| ==> SameOp(a.ops[i], b.ops[i])
  }

  ghost predicate QueueGrows(a: seq<Msg>, b: seq<Msg>) {
    |a| <= |b| && forall i :: 0 <= i < |a| ==> a[i].ref == b[i].ref
  }

  // ---- The invariant, one predicate for each concern ----

  ghost predicate IsRegistration(gw: Gateway, e: SP.Entry, subject: string) {
    && e.from.Registration? && e.from.op < |gw.ops|
    && gw.ops[e.from.op].kind == Register && gw.ops[e.from.op].subject == subject
  }

  /** The subject's ledger exists and starts with its registration receipt. */
  ghost predicate HasLedger(gw: Gateway, lk: SP.State, subject: string) {
    subject in lk.logs && |lk.logs[subject]| > 0 && IsRegistration(gw, lk.logs[subject][0], subject)
  }

  ghost predicate OpOk(gw: Gateway, lk: SP.State, op: Op) {
    && (op.pc == Written ==> op.subject in gw.kv.entries)
    && if op.kind == Register
       then op.pc == New || op.pc == Sent || op.pc == Failed || HasLedger(gw, lk, op.subject)
       else op.subject in gw.registry
  }

  /** A ledger with any entry at all starts with its registration receipt. */
  ghost predicate Started(gw: Gateway, lk: SP.State) {
    forall subject :: subject in lk.logs && lk.logs[subject] != [] ==> HasLedger(gw, lk, subject)
  }

  ghost predicate JobsOk(gw: Gateway, lk: SP.State) {
    && Started(gw, lk)
    && (lk.jobs.worker != SP.Idle ==> HasLedger(gw, lk, lk.jobs.worker.subject))
    && (lk.jobs.sealer != SP.Idle ==> HasLedger(gw, lk, lk.jobs.sealer.subject))
    && (lk.jobs.registrar != SP.Idle ==> IsRegistration(gw, lk.jobs.registrar.entry, lk.jobs.registrar.subject))
    && (lk.jobs.registrar.Appended? ==> HasLedger(gw, lk, lk.jobs.registrar.subject))
  }

  /** Registry entry, then trust key, then ledger: each stands on the one before. */
  ghost predicate Ordered(gw: Gateway, lk: SP.State, replying: Option<nat>) {
    && (forall subject :: subject in gw.kv.entries ==> HasLedger(gw, lk, subject))
    && (forall subject :: subject in gw.registry ==> subject in gw.kv.entries)
    && (forall i :: 0 <= i < |gw.ops| ==> OpOk(gw, lk, gw.ops[i]))
    && (replying.Some? ==> replying.value < |gw.ops| && HasLedger(gw, lk, gw.ops[replying.value].subject))
    && JobsOk(gw, lk)
  }

  /** The receipt names a publisher-class identity that the subject trusted when it was authorised. */
  ghost predicate Vouched(gw: Gateway, ref: IngestRef) {
    && ref.authAt <= |gw.kv.writes|
    && ref.publisher in ListAfter(gw.kv.writes[..ref.authAt], ref.subject)
    && ref.publisher.issuer != gw.cfg.oidc
    && UnwrapContent(ref.receipt).Ok? && UnwrapContent(ref.receipt).value.publisher == ref.publisher
  }

  ghost predicate RefOk(gw: Gateway, lk: SP.State, ref: IngestRef) {
    ValidSubjectID(ref.subject) && HasLedger(gw, lk, ref.subject) && Vouched(gw, ref)
  }

  ghost predicate RefsOk(gw: Gateway, lk: SP.State, queue: seq<Msg>) {
    && (forall i :: 0 <= i < |gw.authorised| ==> RefOk(gw, lk, gw.authorised[i]))
    && (forall i :: 0 <= i < |queue| ==> RefOk(gw, lk, queue[i].ref))
  }

  ghost predicate EntryOk(queue: seq<Msg>, subject: string, e: SP.Entry) {
    e.from.FromWorker? ==>
      e.from.msg < |queue| && queue[e.from.msg].ref.subject == subject && queue[e.from.msg].ref.receipt == e.bytes
  }

  /** Every worker entry is the receipt of a queued message for that subject. */
  ghost predicate EntriesOk(queue: seq<Msg>, lk: SP.State) {
    forall subject :: subject in lk.logs ==>
      forall i :: 0 <= i < |lk.logs[subject]| ==> EntryOk(queue, subject, lk.logs[subject][i])
  }

  /** The worker's program counter and its sealing job tell the same story. */
  ghost predicate Coupled(queue: seq<Msg>, worker: WorkerPc, lk: SP.State) {
    && (worker.WSealing? <==> lk.jobs.worker != SP.Idle)
    && (worker != WIdle ==> lk.up && worker.m < |queue|)
    && (worker.WSealing? ==>
          && lk.jobs.worker.subject == queue[worker.m].ref.subject
          && lk.jobs.worker.entry == SP.Entry(queue[worker.m].ref.receipt, SP.FromWorker(worker.m)))
  }

  ghost predicate InLog(lk: SP.State, ref: IngestRef) {
    SP.HasDigest(SP.LogOf(lk, ref.subject), Digest(ref.receipt))
  }

  /** Sealed, or taken for sealed because of what a rebuild once read from the ledger. */
  ghost predicate Accounted(lk: SP.State, ref: IngestRef) {
    SP.Explained(SP.LogOf(lk, ref.subject), Digest(ref.receipt))
  }

  ghost predicate MsgOk(lk: SP.State, msg: Msg) {
    && (msg.status == Acked ==> Accounted(lk, msg.ref))
    && msg.deliveries <= MAX_DELIVER && (msg.status == Pending ==> msg.deliveries < MAX_DELIVER)
  }

  ghost predicate WorkerOk(lk: SP.State, queue: seq<Msg>, worker: WorkerPc) {
    match worker
    case WDone(m) => m < |queue| && Accounted(lk, queue[m].ref)
    case WSealed(m, at) =>
      m < |queue| && at < |SP.LogOf(lk, queue[m].ref.subject)|
      && SP.LogOf(lk, queue[m].ref.subject)[at].bytes == queue[m].ref.receipt
    case _ => true
  }

  /** Acknowledged means sealed, or taken for it. */
  ghost predicate MsgsOk(lk: SP.State, queue: seq<Msg>) {
    forall m :: 0 <= m < |queue| ==> MsgOk(lk, queue[m])
  }

  ghost predicate EventOk(lk: SP.State, e: SealedEvent) {
    && ValidSubjectID(e.subject) && e.storageRef == Format(e.subject, e.logIndex)
    && e.logIndex < |SP.LogOf(lk, e.subject)|
    && Digest(SP.LogOf(lk, e.subject)[e.logIndex].bytes) == e.receiptDigest
  }

  ghost predicate EventsOk(lk: SP.State, events: seq<SealedEvent>) {
    forall i :: 0 <= i < |events| ==> EventOk(lk, events[i])
  }

  /** What every run keeps. */
  ghost predicate Base(s: State) {
    && SP.Base(s.lk)
    && Consistent(s.gw.kv)
    && Ordered(s.gw, s.lk, s.replying)
    && RefsOk(s.gw, s.lk, s.queue)
    && EntriesOk(s.queue, s.lk)
    && Coupled(s.queue, s.worker, s.lk)
    && MsgsOk(s.lk, s.queue)
    && WorkerOk(s.lk, s.queue, s.worker)
    && EventsOk(s.lk, s.events)
  }

  /** The message is not terminated, and the worker is not about to. */
  ghost predicate Spared(s: State, m: nat) {
    m < |s.queue| ==> s.queue[m].status != Termed && s.worker != WFailed(m, true)
  }

  /** No message of this subject is terminated. */
  ghost predicate NoneTermed(s: State, subject: string) {
    forall m :: 0 <= m < |s.queue| && s.queue[m].ref.subject == subject ==> Spared(s, m)
  }

  // ---- What growth keeps ----

  lemma HasLedgerGrows(gw: Gateway, lk: SP.State, gw': Gateway, lk': SP.State, subject: string)
    requires GwGrows(gw, gw') && SP.Grows(lk, lk') && HasLedger(gw, lk, subject)
    ensures HasLedger(gw', lk', subject)
  {
    var e := lk.logs[subject][0];
    assert lk'.logs[subject][0] == e;
    assert SameOp(gw.ops[e.from.op], gw'.ops[e.from.op]);
  }

  lemma VouchedGrows(gw: Gateway, gw': Gateway, ref: IngestRef)
    requires GwGrows(gw, gw') && Vouched(gw, ref)
    ensures Vouched(gw', ref)
  {
    assert gw'.kv.writes[..ref.authAt] == gw.kv.writes[..ref.authAt];
  }

  lemma RefsGrow(gw: Gateway, lk: SP.State, queue: seq<Msg>, gw': Gateway, lk': SP.State, queue': seq<Msg>)
    requires RefsOk(gw, lk, queue) && GwGrows(gw, gw') && SP.Grows(lk, lk')
    requires gw'.authorised == gw.authorised && |queue'| == |queue| && QueueGrows(queue, queue')
    ensures RefsOk(gw', lk', queue')
  {
    forall i | 0 <= i < |gw.authorised| ensures RefOk(gw', lk', gw.authorised[i]) {
      HasLedgerGrows(gw, lk, gw', lk', gw.authorised[i].subject);
      VouchedGrows(gw, gw', gw.authorised[i]);
    }
    forall i | 0 <= i < |queue| ensures RefOk(gw', lk', queue'[i].ref) {
      assert RefOk(gw, lk, queue[i].ref) && queue'[i].ref == queue[i].ref;
      HasLedgerGrows(gw, lk, gw', lk', queue[i].ref.subject);
      VouchedGrows(gw, gw', queue[i].ref);
    }
  }

  lemma AccountedGrows(lk: SP.State, lk': SP.State, ref: IngestRef)
    requires SP.Grows(lk, lk') && Accounted(lk, ref)
    ensures Accounted(lk', ref)
  {
    if ref.subject in lk.logs {
      SP.ExplainedGrows(lk.logs[ref.subject], lk'.logs[ref.subject], Digest(ref.receipt));
    } else {
      SP.ExplainedGrows([], SP.LogOf(lk', ref.subject), Digest(ref.receipt));
    }
  }

  lemma EventsGrow(lk: SP.State, lk': SP.State, events: seq<SealedEvent>)
    requires SP.Grows(lk, lk') && EventsOk(lk, events)
    ensures EventsOk(lk', events)
  {
    forall i | 0 <= i < |events| ensures EventOk(lk', events[i]) {
      assert EventOk(lk, events[i]);
    }
  }

  lemma MsgsGrow(lk: SP.State, lk': SP.State, queue: seq<Msg>, worker: WorkerPc)
    requires SP.Grows(lk, lk') && MsgsOk(lk, queue) && WorkerOk(lk, queue, worker)
    ensures MsgsOk(lk', queue) && WorkerOk(lk', queue, worker)
  {
    forall m | 0 <= m < |queue| ensures MsgOk(lk', queue[m]) {
      assert MsgOk(lk, queue[m]);
      if queue[m].status == Acked {
        AccountedGrows(lk, lk', queue[m].ref);
      }
    }
    if worker.WDone? {
      AccountedGrows(lk, lk', queue[worker.m].ref);
    }
  }

  lemma OrderedGrows(gw: Gateway, lk: SP.State, lk': SP.State, replying: Option<nat>)
    requires Ordered(gw, lk, replying) && SP.Grows(lk, lk') && JobsOk(gw, lk')
    ensures Ordered(gw, lk', replying)
  {
    forall subject | HasLedger(gw, lk, subject) ensures HasLedger(gw, lk', subject) {
      HasLedgerGrows(gw, lk, gw, lk', subject);
    }
    forall i | 0 <= i < |gw.ops| ensures OpOk(gw, lk', gw.ops[i]) {
      assert OpOk(gw, lk, gw.ops[i]);
    }
  }

  /** A sealing step keeps everything that does not mention the jobs or a new entry. */
  lemma Carry(s: State, step: SP.Step, lk': SP.State)
    requires Base(s) && SP.Next(s.lk, step) == Some(lk') && JobsOk(s.gw, lk')
    ensures SP.Base(lk') && SP.Grows(s.lk, lk') && Ordered(s.gw, lk', s.replying)
    ensures RefsOk(s.gw, lk', s.queue) && EventsOk(lk', s.events)
    ensures MsgsOk(lk', s.queue) && WorkerOk(lk', s.queue, s.worker)
  {
    SP.BaseStep(s.lk, step, lk');
    SP.StepGrows(s.lk, step, lk');
    RefsGrow(s.gw, s.lk, s.queue, s.gw, lk', s.queue);
    EventsGrow(s.lk, lk', s.events);
    MsgsGrow(s.lk, lk', s.queue, s.worker);
    OrderedGrows(s.gw, s.lk, lk', s.replying);
  }

  /** A message may change its bookkeeping as long as it still tells the truth. */
  lemma SetMsgKeeps(gw: Gateway, lk: SP.State, queue: seq<Msg>, m: nat, msg: Msg)
    requires RefsOk(gw, lk, queue) && EntriesOk(queue, lk) && MsgsOk(lk, queue)
    requires m < |queue| && msg.ref == queue[m].ref && MsgOk(lk, msg)
    ensures var queue' := queue[m := msg];
            RefsOk(gw, lk, queue') && EntriesOk(queue', lk) && MsgsOk(lk, queue') && QueueGrows(queue, queue')
  {
    RefsGrow(gw, lk, queue, gw, lk, queue[m := msg]);
  }

  /** What refers to a message by number is untouched when only its bookkeeping changes. */
  lemma SameRefs(lk: SP.State, queue: seq<Msg>, queue': seq<Msg>, worker: WorkerPc)
    requires Coupled(queue, worker, lk) && WorkerOk(lk, queue, worker) && QueueGrows(queue, queue')
    ensures Coupled(queue', worker, lk) && WorkerOk(lk, queue', worker)
  {
  }

  // ---- The queue ----

  lemma PublishKeeps(s: State, i: nat, s': State)
    requires Base(s) && BusNext(s, Publish(i)) == Some(s')
    ensures Base(s')
  {
    assert RefOk(s.gw, s.lk, s.gw.authorised[i]);
    SameRefs(s.lk, s.queue, s'.queue, s.worker);
    assert EntriesOk(s'.queue, s.lk);
  }

  lemma StatusKeeps(s: State, m: nat, status: Status)
    requires Base(s) && m < |s.queue| && MsgOk(s.lk, s.queue[m].(status := status))
    ensures Base(SetStatus(s, m, status))
  {
    var msg := s.queue[m].(status := status);
    SetMsgKeeps(s.gw, s.lk, s.queue, m, msg);
    SameRefs(s.lk, s.queue, s.queue[m := msg], s.worker);
  }

  lemma BusKeeps(s: State, step: BusStep, s': State)
    requires Base(s) && BusNext(s, step) == Some(s')
    ensures Base(s')
  {
    match step
    case Publish(i) => PublishKeeps(s, i, s');
    case Expire(m) => StatusKeeps(s, m, s'.queue[m].status);
    case AgeOut(m) => StatusKeeps(s, m, AgedOut);
  }

  // ---- The worker ----

  lemma DeliverKeeps(s: State, m: nat, s': State)
    requires Base(s) && WorkNext(s, Deliver(m)) == Some(s')
    ensures Base(s')
  {
    SetMsgKeeps(s.gw, s.lk, s.queue, m, s'.queue[m]);
  }

  lemma DuplicateIsAccounted(lk: SP.State, ref: IngestRef)
    requires SP.IndexExplained(lk) && ref.subject in lk.index && Digest(ref.receipt) in lk.index[ref.subject]
    ensures Accounted(lk, ref)
  {
  }

  lemma CheckFreshKeeps(s: State, s': State)
    requires Base(s) && WorkNext(s, Check) == Some(s') && s'.worker.WSealing?
    ensures Base(s')
  {
    var m := s.worker.m;
    var ref := s.queue[m].ref;
    assert RefOk(s.gw, s.lk, ref);
    Carry(s, SP.Begin(SP.Worker, ref.subject, SP.Entry(ref.receipt, SP.FromWorker(m))), s'.lk);
  }

  lemma CheckKeeps(s: State, s': State)
    requires Base(s) && WorkNext(s, Check) == Some(s')
    ensures Base(s')
  {
    var ref := s.queue[s.worker.m].ref;
    if ref.subject in s.lk.index {
      if Digest(ref.receipt) in s.lk.index[ref.subject] {
        DuplicateIsAccounted(s.lk, ref);
      } else {
        CheckFreshKeeps(s, s');
      }
    }
  }

  /** Worker and sealer append only to ledgers that have started. */
  lemma AppendKeepsJobs(gw: Gateway, lk: SP.State, t: SP.Thread, lk': SP.State)
    requires JobsOk(gw, lk) && t != SP.Registrar && SP.Next(lk, SP.Append(t)) == Some(lk')
    ensures JobsOk(gw, lk')
  {
    SP.StepGrows(lk, SP.Append(t), lk');
    forall subject | HasLedger(gw, lk, subject) ensures HasLedger(gw, lk', subject) {
      HasLedgerGrows(gw, lk, gw, lk', subject);
    }
  }

  lemma AppendKeepsEntries(queue: seq<Msg>, lk: SP.State, t: SP.Thread, lk': SP.State)
    requires EntriesOk(queue, lk) && SP.Next(lk, SP.Append(t)) == Some(lk')
    requires EntryOk(queue, lk.jobs.Get(t).subject, lk.jobs.Get(t).entry)
    ensures EntriesOk(queue, lk')
  {
  }

  lemma WorkerAppendKeeps(s: State, s': State)
    requires Base(s) && WorkNext(s, Append(true)) == Some(s')
    ensures Base(s')
  {
    AppendKeepsJobs(s.gw, s.lk, SP.Worker, s'.lk);
    AppendKeepsEntries(s.queue, s.lk, SP.Worker, s'.lk);
    Carry(s, SP.Append(SP.Worker), s'.lk);
  }

  lemma WorkerAbortKeeps(s: State, s': State)
    requires Base(s) && WorkNext(s, Append(false)) == Some(s')
    ensures Base(s')
  {
    Carry(s, SP.Abort(SP.Worker), s'.lk);
  }

  lemma IndexedJob(lk: SP.State, t: SP.Thread, lk': SP.State)
    requires SP.JobFits(lk, t) && SP.Next(lk, SP.WriteIndex(t)) == Some(lk')
    ensures lk'.logs == lk.logs && lk'.jobs == lk.jobs.Set(t, SP.Idle) && lk'.up == lk.up
    ensures var job := lk.jobs.Get(t);
            job.at < |SP.LogOf(lk', job.subject)| && SP.LogOf(lk', job.subject)[job.at] == job.entry
  {
  }

  lemma WorkerIndexKeeps(s: State, s': State)
    requires Base(s) && WorkNext(s, Index) == Some(s')
    ensures Base(s')
  {
    IndexedJob(s.lk, SP.Worker, s'.lk);
    Carry(s, SP.WriteIndex(SP.Worker), s'.lk);
  }

  lemma EventIsOk(gw: Gateway, lk: SP.State, queue: seq<Msg>, worker: WorkerPc, events: seq<SealedEvent>)
    requires worker.WSealed? && WorkerOk(lk, queue, worker) && RefsOk(gw, lk, queue) && EventsOk(lk, events)
    ensures EventsOk(lk, events + [EventFor(queue[worker.m].ref, worker.at)]) && Accounted(lk, queue[worker.m].ref)
  {
    var ref := queue[worker.m].ref;
    assert RefOk(gw, lk, ref);
    assert EventOk(lk, EventFor(ref, worker.at));
    assert Digest(SP.LogOf(lk, ref.subject)[worker.at].bytes) == Digest(ref.receipt);
  }

  lemma EmitKeeps(s: State, ok: bool, s': State)
    requires Base(s) && WorkNext(s, Emit(ok)) == Some(s')
    ensures Base(s')
  {
    EventIsOk(s.gw, s.lk, s.queue, s.worker, s.events);
  }

  lemma SettledIsOk(s: State, heard: bool, s': State)
    requires MsgsOk(s.lk, s.queue) && WorkerOk(s.lk, s.queue, s.worker) && SettleNext(s, heard) == Some(s')
    ensures s' == s.(worker := WIdle, queue := s.queue[s.worker.m := s'.queue[s.worker.m]])
    ensures s'.queue[s.worker.m].ref == s.queue[s.worker.m].ref && MsgOk(s.lk, s'.queue[s.worker.m])
  {
    assert MsgOk(s.lk, s.queue[s.worker.m]);
  }

  lemma SettleKeeps(s: State, heard: bool, s': State)
    requires Base(s) && WorkNext(s, Settle(heard)) == Some(s')
    ensures Base(s')
  {
    SettledIsOk(s, heard, s');
    SetMsgKeeps(s.gw, s.lk, s.queue, s.worker.m, s'.queue[s.worker.m]);
  }

  lemma WorkKeeps(s: State, step: WorkStep, s': State)
    requires Base(s) && WorkNext(s, step) == Some(s')
    ensures Base(s')
  {
    match step
    case Deliver(m) => DeliverKeeps(s, m, s');
    case Check => CheckKeeps(s, s');
    case Append(ok) => if ok { WorkerAppendKeeps(s, s'); } else { WorkerAbortKeeps(s, s'); }
    case Index => WorkerIndexKeeps(s, s');
    case Emit(ok) => EmitKeeps(s, ok, s');
    case Settle(heard) => SettleKeeps(s, heard, s');
  }

  // ---- The gateway's own state ----

  /** What a change of the gateway's state owes to keep the registration order. */
  ghost predicate StillOrdered(gw: Gateway, gw': Gateway, lk: SP.State) {
    && (forall subject :: subject in gw'.kv.entries ==> HasLedger(gw, lk, subject))
    && (forall subject :: subject in gw'.registry ==> subject in gw'.kv.entries)
    && (forall i :: 0 <= i < |gw'.ops| ==> OpOk(gw', lk, gw'.ops[i]))
  }

  lemma JobsOkGrows(gw: Gateway, gw': Gateway, lk: SP.State)
    requires JobsOk(gw, lk) && GwGrows(gw, gw')
    ensures JobsOk(gw', lk)
  {
    forall subject | HasLedger(gw, lk, subject) ensures HasLedger(gw', lk, subject) {
      HasLedgerGrows(gw, lk, gw', lk, subject);
    }
    if lk.jobs.registrar != SP.Idle {
      var op := lk.jobs.registrar.entry.from.op;
      assert SameOp(gw.ops[op], gw'.ops[op]);
    }
  }

  lemma OrderedGwGrows(gw: Gateway, gw': Gateway, lk: SP.State, replying: Option<nat>)
    requires Ordered(gw, lk, replying) && GwGrows(gw, gw') && StillOrdered(gw, gw', lk)
    ensures Ordered(gw', lk, replying)
  {
    JobsOkGrows(gw, gw', lk);
    forall subject | HasLedger(gw, lk, subject) ensures HasLedger(gw', lk, subject) {
      HasLedgerGrows(gw, lk, gw', lk, subject);
    }
    if replying.Some? {
      assert SameOp(gw.ops[replying.value], gw'.ops[replying.value]);
    }
  }

  lemma GwCarry(s: State, gw': Gateway)
    requires Base(s) && GwGrows(s.gw, gw') && gw'.authorised == s.gw.authorised
    requires Consistent(gw'.kv) && StillOrdered(s.gw, gw', s.lk)
    ensures Base(s.(gw := gw'))
  {
    OrderedGwGrows(s.gw, gw', s.lk, s.replying);
    RefsGrow(s.gw, s.lk, s.queue, gw', s.lk, s.queue);
  }

  /** Ops that only move on keep their promise when the one that moved keeps its own. */
  lemma OpsStillOk(gw: Gateway, gw': Gateway, lk: SP.State)
    requires GwGrows(gw, gw') && (forall i :: 0 <= i < |gw.ops| ==> OpOk(gw, lk, gw.ops[i]))
    ensures forall i :: 0 <= i < |gw.ops| && gw'.ops[i].pc == gw.ops[i].pc ==> OpOk(gw', lk, gw'.ops[i])
  {
    forall i | 0 <= i < |gw.ops| && gw'.ops[i].pc == gw.ops[i].pc ensures OpOk(gw', lk, gw'.ops[i]) {
      assert SameOp(gw.ops[i], gw'.ops[i]) && OpOk(gw, lk, gw.ops[i]);
      if HasLedger(gw, lk, gw.ops[i].subject) {
        HasLedgerGrows(gw, lk, gw', lk, gw.ops[i].subject);
      }
    }
  }

  /** A step of one operation that changes neither trust nor registry. */
  lemma SetPcKeeps(s: State, op: nat, pc: OpPc, inbox: set<nat>)
    requires Base(s) && op < |s.gw.ops| && OpOk(s.gw, s.lk, s.gw.ops[op].(pc := pc))
    ensures Base(s.(gw := SetPc(s.gw, op, pc).(inbox := inbox)))
  {
    var gw := SetPc(s.gw, op, pc).(inbox := inbox);
    OpsStillOk(s.gw, gw, s.lk);
    if HasLedger(s.gw, s.lk, gw.ops[op].subject) {
      HasLedgerGrows(s.gw, s.lk, gw, s.lk, gw.ops[op].subject);
    }
    GwCarry(s, gw);
  }

  lemma NewOpKeeps(s: State, op: Op)
    requires Base(s) && op.pc == New && (op.kind == Modify ==> op.subject in s.gw.registry)
    ensures Base(s.(gw := s.gw.(ops := s.gw.ops + [op])))
  {
    var gw := s.gw.(ops := s.gw.ops + [op]);
    OpsStillOk(s.gw, gw, s.lk);
    GwCarry(s, gw);
  }

  /** Whoever gets to write a subject's trust list has seen its ledger: the write keeps the order. */
  lemma WriteStillOrdered(gw: Gateway, lk: SP.State, replying: Option<nat>, op: nat, kv: Kv)
    requires Ordered(gw, lk, replying) && op < |gw.ops| && gw.ops[op].pc.Read?
    requires Commit(gw.kv, Write(gw.ops[op].subject, gw.ops[op].list, gw.ops[op].pc.rev, op)) == Some(kv)
    ensures var gw' := SetPc(gw, op, Written).(kv := kv); GwGrows(gw, gw') && StillOrdered(gw, gw', lk)
  {
    var gw' := SetPc(gw, op, Written).(kv := kv);
    assert OpOk(gw, lk, gw.ops[op]);
    assert HasLedger(gw, lk, gw.ops[op].subject);
    OpsStillOk(gw, gw', lk);
    HasLedgerGrows(gw, lk, gw', lk, gw.ops[op].subject);
  }

  lemma WriteTrustKeeps(s: State, op: nat, gw: Gateway)
    requires Base(s) && GwNext(s.gw, WriteTrust(op)) == Some(gw)
    ensures Base(s.(gw := gw))
  {
    var o := s.gw.ops[op];
    var w := Write(o.subject, o.list, o.pc.rev, op);
    if Commit(s.gw.kv, w).Some? {
      CommitKeeps(s.gw.kv, w, gw.kv);
      WriteStillOrdered(s.gw, s.lk, s.replying, op, gw.kv);
      GwCarry(s, gw);
    } else {
      SetPcKeeps(s, op, Failed, s.gw.inbox);
    }
  }

  lemma PutRegistryStillOrdered(gw: Gateway, lk: SP.State, replying: Option<nat>, op: nat, gw': Gateway)
    requires Ordered(gw, lk, replying) && GwNext(gw, PutRegistry(op)) == Some(gw')
    ensures GwGrows(gw, gw') && StillOrdered(gw, gw', lk)
  {
    assert OpOk(gw, lk, gw.ops[op]);
    OpsStillOk(gw, gw', lk);
    HasLedgerGrows(gw, lk, gw', lk, gw.ops[op].subject);
  }

  lemma DropRequestKeeps(s: State, inbox: set<nat>)
    requires Base(s)
    ensures Base(s.(gw := s.gw.(inbox := inbox)))
  {
    var gw := s.gw.(inbox := inbox);
    OpsStillOk(s.gw, gw, s.lk);
    GwCarry(s, gw);
  }

  lemma OpIsOk(s: State, op: nat)
    requires Base(s) && op < |s.gw.ops|
    ensures OpOk(s.gw, s.lk, s.gw.ops[op])
  {
  }

  /** The steps of an operation that only move its program counter. */
  predicate OnlyMoves(step: GwStep) {
    step.SendRegister? || step.ReadTrust? || step.SendSeal? || step.GiveUp?
  }

  lemma MoveIsSetPc(gw: Gateway, step: GwStep, gw': Gateway)
    requires OnlyMoves(step) && GwNext(gw, step) == Some(gw')
    ensures step.op < |gw.ops| && |gw'.ops| == |gw.ops|
    ensures gw' == SetPc(gw, step.op, gw'.ops[step.op].pc).(inbox := gw'.inbox)
  {
  }

  lemma MovedOk(gw: Gateway, lk: SP.State, step: GwStep, gw': Gateway)
    requires OnlyMoves(step) && GwNext(gw, step) == Some(gw') && OpOk(gw, lk, gw.ops[step.op])
    ensures OpOk(gw, lk, gw.ops[step.op].(pc := gw'.ops[step.op].pc))
  {
  }

  lemma MoveKeeps(s: State, step: GwStep, gw: Gateway)
    requires Base(s) && OnlyMoves(step) && GwNext(s.gw, step) == Some(gw)
    ensures Base(s.(gw := gw))
  {
    MoveIsSetPc(s.gw, step, gw);
    OpIsOk(s, step.op);
    MovedOk(s.gw, s.lk, step, gw);
    SetPcKeeps(s, step.op, gw.ops[step.op].pc, gw.inbox);
  }

  lemma AdminOpKeeps(s: State, step: GwStep, gw: Gateway)
    requires Base(s) && GwNext(s.gw, step) == Some(gw)
    requires !step.Authorise?
    ensures Base(s.(gw := gw))
  {
    match step
    case BeginRegister(subject, list, caller) => NewOpKeeps(s, Op(Register, subject, list, caller, New));
    case BeginModify(subject, list, caller) => NewOpKeeps(s, Op(Modify, subject, list, caller, New));
    case DropRequest(op) => DropRequestKeeps(s, gw.inbox);
    case PutRegistry(op) =>
      PutRegistryStillOrdered(s.gw, s.lk, s.replying, op, gw);
      GwCarry(s, gw);
    case WriteTrust(op) => WriteTrustKeeps(s, op, gw);
    case _ => MoveKeeps(s, step, gw);
  }

  /** A request that passes is vouched for by the trust list of this very moment. */
  lemma AdmittedIsVouched(gw: Gateway, keys: set<string>, tok: Token, subject: string)
    requires Admitted(gw, keys, tok, subject) && Consistent(gw.kv)
    ensures subject in gw.kv.entries && tok.iss != gw.cfg.oidc
    ensures Publisher(tok.iss, tok.sub) in ListAfter(gw.kv.writes, subject)
  {
    var p := Authenticate(gw.cfg.(staticKeys := keys), tok).value;
    var lookup := (s: string) => Some(Publisher(tok.iss, tok.sub) in CurrentList(gw.kv, s));
    PublishPassesIff(p, subject, lookup, "complytime-admin", "complytime-auditor");
    PublisherClassIff(gw.cfg.(staticKeys := keys), tok);
    assert CurrentList(gw.kv, subject) == ListAfter(gw.kv.writes, subject);
  }

  lemma RefsAdd(gw: Gateway, lk: SP.State, queue: seq<Msg>, ref: IngestRef)
    requires RefsOk(gw, lk, queue) && RefOk(gw, lk, ref)
    ensures RefsOk(gw.(authorised := gw.authorised + [ref]), lk, queue)
  {
    var gw' := gw.(authorised := gw.authorised + [ref]);
    forall r | RefOk(gw, lk, r) ensures RefOk(gw', lk, r) {
      HasLedgerGrows(gw, lk, gw', lk, r.subject);
      VouchedGrows(gw, gw', r);
    }
  }

  /** The reference an admitted request leaves behind meets every promise made about references. */
  lemma AuthorisedRefOk(gw: Gateway, lk: SP.State, replying: Option<nat>, step: GwStep, gw': Gateway)
    requires Laws() && Ordered(gw, lk, replying) && Consistent(gw.kv) && step.Authorise? && GwNext(gw, step) == Some(gw')
    ensures |gw'.authorised| == |gw.authorised| + 1 && RefOk(gw, lk, gw'.authorised[|gw.authorised|])
  {
    AdmittedIsVouched(gw, step.keys, step.tok, step.subject);
    WrapUnwrap(step.body, Publisher(step.tok.iss, step.tok.sub), step.subject, step.artifactType, step.at);
    assert gw.kv.writes[..|gw.kv.writes|] == gw.kv.writes;
  }

  lemma AuthoriseOrdered(gw: Gateway, lk: SP.State, replying: Option<nat>, refs: seq<IngestRef>)
    requires Ordered(gw, lk, replying) && gw.authorised <= refs
    ensures Ordered(gw.(authorised := refs), lk, replying)
  {
    var gw' := gw.(authorised := refs);
    OpsStillOk(gw, gw', lk);
    OrderedGwGrows(gw, gw', lk, replying);
  }

  lemma AuthoriseKeeps(s: State, step: GwStep, gw: Gateway)
    requires Laws() && Base(s) && step.Authorise? && GwNext(s.gw, step) == Some(gw)
    ensures Base(s.(gw := gw))
  {
    AuthorisedRefOk(s.gw, s.lk, s.replying, step, gw);
    var ref := gw.authorised[|s.gw.authorised|];
    assert gw == s.gw.(authorised := s.gw.authorised + [ref]);
    RefsAdd(s.gw, s.lk, s.queue, ref);
    AuthoriseOrdered(s.gw, s.lk, s.replying, gw.authorised);
  }

  lemma GwKeeps(s: State, step: GwStep, gw: Gateway)
    requires Laws() && Base(s) && GwNext(s.gw, step) == Some(gw)
    ensures Base(s.(gw := gw))
  {
    if step.Authorise? {
      AuthoriseKeeps(s, step, gw);
    } else {
      AdminOpKeeps(s, step, gw);
    }
  }

  // ---- The admin subscriptions ----

  lemma RefuseKeeps(s: State, op: nat)
    requires Base(s)
    ensures Base(Refuse(s, op))
  {
    if op < |s.gw.ops| && s.gw.ops[op].pc == Sent {
      OpIsOk(s, op);
      SetPcKeeps(s, op, Failed, s.gw.inbox);
    }
  }

  lemma CreateKeeps(s: State, subject: string, rebuild: SP.Rebuild, s': State)
    requires Base(s) && s.lk.up && InLocker(s, SP.Create(subject, rebuild)) == Some(s')
    ensures Base(s') && s' == s.(lk := s'.lk) && s'.lk.jobs == s.lk.jobs && s'.lk.up
  {
    SP.StepGrows(s.lk, SP.Create(subject, rebuild), s'.lk);
    forall other | HasLedger(s.gw, s.lk, other) ensures HasLedger(s.gw, s'.lk, other) {
      HasLedgerGrows(s.gw, s.lk, s.gw, s'.lk, other);
    }
    Carry(s, SP.Create(subject, rebuild), s'.lk);
  }

  lemma BeginRegistrationKeeps(s: State, op: nat, bytes: Bytes, s': State)
    requires Base(s) && op < |s.gw.ops| && s.gw.ops[op].kind == Register
    requires InLocker(s, SP.Begin(SP.Registrar, s.gw.ops[op].subject, SP.Entry(bytes, SP.Registration(op)))) == Some(s')
    ensures Base(s')
  {
    Carry(s, SP.Begin(SP.Registrar, s.gw.ops[op].subject, SP.Entry(bytes, SP.Registration(op))), s'.lk);
  }

  lemma TakeRegisterKeeps(s: State, op: nat, ok: bool, at: string, rebuild: SP.Rebuild, s': State)
    requires Base(s) && TakeRegisterNext(s, op, ok, at, rebuild) == Some(s')
    ensures Base(s')
  {
    var subject := s.gw.ops[op].subject;
    var taken := s.(gw := s.gw.(inbox := s.gw.inbox - {op}));
    DropRequestKeeps(s, s.gw.inbox - {op});
    if subject in s.lk.index || !ok {
      RefuseKeeps(taken, op);
    } else {
      var s1 := InLocker(taken, SP.Create(subject, rebuild)).value;
      CreateKeeps(taken, subject, rebuild, s1);
      var receipt := RegistrationReceipt(subject, s.gw.ops[op].caller, at);
      if receipt.Some? {
        BeginRegistrationKeeps(s1, op, receipt.value, s');
      } else {
        RefuseKeeps(s1, op);
      }
    }
  }

  /** A registration receipt is the first entry of its ledger, or joins one that has started. */
  lemma RegistrarAppendsFirst(gw: Gateway, lk: SP.State, lk': SP.State)
    requires JobsOk(gw, lk) && SP.Next(lk, SP.Append(SP.Registrar)) == Some(lk')
    ensures JobsOk(gw, lk')
  {
    SP.StepGrows(lk, SP.Append(SP.Registrar), lk');
    forall subject | HasLedger(gw, lk, subject) ensures HasLedger(gw, lk', subject) {
      HasLedgerGrows(gw, lk, gw, lk', subject);
    }
    var log := SP.LogOf(lk, lk.jobs.registrar.subject);
    assert log == [] ==> lk'.logs[lk.jobs.registrar.subject] == [lk.jobs.registrar.entry];
  }

  lemma RegistrarAppendKeeps(s: State, s': State)
    requires Base(s) && InLocker(s, SP.Append(SP.Registrar)) == Some(s')
    ensures Base(s')
  {
    RegistrarAppendsFirst(s.gw, s.lk, s'.lk);
    AppendKeepsEntries(s.queue, s.lk, SP.Registrar, s'.lk);
    Carry(s, SP.Append(SP.Registrar), s'.lk);
  }

  lemma AbortKeeps(s: State, t: SP.Thread, s': State)
    requires Base(s) && t != SP.Worker && InLocker(s, SP.Abort(t)) == Some(s')
    ensures Base(s')
  {
    Carry(s, SP.Abort(t), s'.lk);
  }

  lemma IndexKeeps(s: State, t: SP.Thread, s': State)
    requires Base(s) && t != SP.Worker && InLocker(s, SP.WriteIndex(t)) == Some(s')
    ensures Base(s')
  {
    IndexedJob(s.lk, t, s'.lk);
    Carry(s, SP.WriteIndex(t), s'.lk);
  }

  lemma RegistrarIndexKeeps(s: State, s': State)
    requires Base(s) && AdminNext(s, RegistrarIndex) == Some(s')
    ensures Base(s')
  {
    var mid := InLocker(s, SP.WriteIndex(SP.Registrar)).value;
    IndexedJob(s.lk, SP.Registrar, mid.lk);
    IndexKeeps(s, SP.Registrar, mid);
    var op := s.lk.jobs.registrar.entry.from.op;
    assert HasLedger(s.gw, mid.lk, s.gw.ops[op].subject);
  }

  lemma ReplyKeeps(s: State, s': State)
    requires Base(s) && AdminNext(s, Reply) == Some(s')
    ensures Base(s')
  {
    var op := s.replying.value;
    var done := s.(replying := None);
    assert Base(done);
    if s.gw.ops[op].pc == Sent {
      OpIsOk(s, op);
      SetPcKeeps(done, op, Replied, s.gw.inbox);
    }
  }

  lemma BeginSealKeeps(s: State, op: nat, bytes: Bytes, s': State)
    requires Base(s) && op < |s.gw.ops| && HasLedger(s.gw, s.lk, s.gw.ops[op].subject)
    requires InLocker(s, SP.Begin(SP.Sealer, s.gw.ops[op].subject, SP.Entry(bytes, SP.TrustChange(op)))) == Some(s')
    ensures Base(s')
  {
    Carry(s, SP.Begin(SP.Sealer, s.gw.ops[op].subject, SP.Entry(bytes, SP.TrustChange(op))), s'.lk);
  }

  /** A trust modification got past the registry check, so its subject has a ledger. */
  lemma ModifyHasLedger(s: State, op: nat)
    requires Base(s) && op < |s.gw.ops| && s.gw.ops[op].kind == Modify
    ensures HasLedger(s.gw, s.lk, s.gw.ops[op].subject)
  {
    OpIsOk(s, op);
  }

  lemma TakeSealKeeps(s: State, op: nat, at: string, s': State)
    requires Base(s) && TakeSealNext(s, op, at) == Some(s')
    ensures Base(s')
  {
    var taken := s.(gw := s.gw.(inbox := s.gw.inbox - {op}));
    DropRequestKeeps(s, s.gw.inbox - {op});
    var receipt := TrustReceipt(s.gw.ops[op].subject, s.gw.ops[op].list, s.gw.ops[op].caller, at);
    if s.gw.ops[op].subject in s.lk.index && receipt.Some? {
      ModifyHasLedger(taken, op);
      BeginSealKeeps(taken, op, receipt.value, s');
    }
  }

  lemma SealerAppendKeeps(s: State, s': State)
    requires Base(s) && InLocker(s, SP.Append(SP.Sealer)) == Some(s')
    ensures Base(s')
  {
    assert SP.JobFits(s.lk, SP.Sealer);
    AppendKeepsJobs(s.gw, s.lk, SP.Sealer, s'.lk);
    AppendKeepsEntries(s.queue, s.lk, SP.Sealer, s'.lk);
    Carry(s, SP.Append(SP.Sealer), s'.lk);
  }

  lemma AdminKeeps(s: State, step: AdminStep, s': State)
    requires Base(s) && AdminNext(s, step) == Some(s')
    ensures Base(s')
  {
    match step
    case TakeRegister(op, ok, at, rebuild) => TakeRegisterKeeps(s, op, ok, at, rebuild, s');
    case RegistrarAppend(ok) =>
      if ok {
        RegistrarAppendKeeps(s, s');
      } else {
        var mid := InLocker(s, SP.Abort(SP.Registrar)).value;
        AbortKeeps(s, SP.Registrar, mid);
        RefuseKeeps(mid, s.lk.jobs.registrar.entry.from.op);
      }
    case RegistrarIndex => RegistrarIndexKeeps(s, s');
    case Reply => ReplyKeeps(s, s');
    case TakeSeal(op, at) => TakeSealKeeps(s, op, at, s');
    case SealerAppend(ok) => if ok { SealerAppendKeeps(s, s'); } else { AbortKeeps(s, SP.Sealer, s'); }
    case SealerIndex => IndexKeeps(s, SP.Sealer, s');
  }

  /** How far a registration gets in the locker when it is taken. */
  lemma TakeRegisterLocker(s: State, op: nat, ok: bool, at: string, rebuild: SP.Rebuild, s': State)
    requires TakeRegisterNext(s, op, ok, at, rebuild) == Some(s')
    ensures s'.lk == s.lk || (var mid := SP.Next(s.lk, SP.Create(s.gw.ops[op].subject, rebuild));
                              mid.Some? && s'.lk == mid.value.(jobs := s.lk.jobs.(registrar := s'.lk.jobs.registrar)))
  {
  }

  /** What taking a registration leaves alone: every log's entries and the other goroutines' jobs. */
  lemma TakeRegisterFrame(s: State, op: nat, ok: bool, at: string, rebuild: SP.Rebuild, s': State)
    requires TakeRegisterNext(s, op, ok, at, rebuild) == Some(s')
    ensures forall subject :: SP.LogOf(s'.lk, subject) == SP.LogOf(s.lk, subject)
    ensures SP.Grows(s.lk, s'.lk)
    ensures s'.lk.jobs.worker == s.lk.jobs.worker && s'.lk.jobs.sealer == s.lk.jobs.sealer
  {
    TakeRegisterLocker(s, op, ok, at, rebuild, s');
  }

  lemma TakeRegisterGw(s: State, op: nat, ok: bool, at: string, rebuild: SP.Rebuild, s': State)
    requires TakeRegisterNext(s, op, ok, at, rebuild) == Some(s')
    ensures var gw := s.gw.(inbox := s.gw.inbox - {op}); s'.gw == gw || s'.gw == SetPc(gw, op, Failed)
  {
  }

  /** Another admin handler takes a request off the wire, answers it, or leaves the gateway alone. */
  lemma AdminGw(s: State, step: AdminStep, s': State)
    requires AdminNext(s, step) == Some(s') && !step.TakeRegister?
    ensures s'.gw == s.gw || s'.gw == s.gw.(inbox := s'.gw.inbox)
            || exists op: nat, pc :: op < |s.gw.ops| && (pc == Failed || pc == Replied) && s'.gw == SetPc(s.gw, op, pc)
  {
  }

  // ---- Crash and restart ----

  lemma CrashKeeps(s: State, s': State)
    requires Base(s) && Next(s, Crash) == Some(s')
    ensures Base(s')
  {
    Carry(s, SP.Crash, s'.lk);
    var down := s.(lk := s'.lk, worker := WIdle, replying := None);
    assert Base(down);
    DropRequestKeeps(down, {});
  }

  lemma RestartKeeps(s: State, reopened: set<string>, rebuilds: map<string, SP.Rebuild>, s': State)
    requires Base(s) && InLocker(s, SP.Restart(reopened, rebuilds)) == Some(s')
    ensures Base(s')
  {
    Carry(s, SP.Restart(reopened, rebuilds), s'.lk);
  }

  /** Every step at all keeps the pipeline's base invariant. */
  lemma BaseStep(s: State, step: Step, s': State)
    requires Laws() && Base(s) && Next(s, step) == Some(s')
    ensures Base(s')
  {
    match step
    case Gw(g) => GwKeeps(s, g, s'.gw);
    case Bus(b) => BusKeeps(s, b, s');
    case Work(w) => WorkKeeps(s, w, s');
    case Admin(a) => AdminKeeps(s, a, s');
    case Crash => CrashKeeps(s, s');
    case Restart(reopened, rebuilds) => RestartKeeps(s, reopened, rebuilds, s');
  }

  lemma {:induction false} RunBase(cfg: Registry, steps: seq<Step>)
    requires Laws() && Run(Init(cfg), steps).Some?
    ensures Base(Run(Init(cfg), steps).value)
  {
    if steps != [] {
      RunBase(cfg, steps[..|steps| - 1]);
      BaseStep(Run(Init(cfg), steps[..|steps| - 1]).value, steps[|steps| - 1], Run(Init(cfg), steps).value);
    }
  }

  // ---- Ledgers that stay open ----

  /** The ledger of a subject with a trust list or a queued message is open, so the worker never finds it missing. */
  lemma LedgerIsOpen(s: State, subject: string)
    requires Base(s) && SP.Open(s.lk, subject) && s.lk.up
    requires subject in s.gw.kv.entries || exists m :: 0 <= m < |s.queue| && s.queue[m].ref.subject == subject
    ensures subject in s.lk.index && HasLedger(s.gw, s.lk, subject)
  {
    if m :| 0 <= m < |s.queue| && s.queue[m].ref.subject == subject {
      assert RefOk(s.gw, s.lk, s.queue[m].ref);
    }
  }

  lemma WorkOpen(s: State, step: WorkStep, s': State, subject: string)
    requires SP.JobsFit(s.lk) && SP.Open(s.lk, subject) && WorkNext(s, step) == Some(s')
    ensures SP.Open(s'.lk, subject)
  {
    assert SP.JobFits(s.lk, SP.Worker);
  }

  lemma AdminOpen(s: State, step: AdminStep, s': State, subject: string)
    requires SP.JobsFit(s.lk) && SP.Open(s.lk, subject) && AdminNext(s, step) == Some(s')
    ensures SP.Open(s'.lk, subject)
  {
    assert SP.JobFits(s.lk, SP.Registrar) && SP.JobFits(s.lk, SP.Sealer);
    if step.TakeRegister? {
      TakeRegisterLocker(s, step.op, step.ok, step.at, step.rebuild, s');
    }
  }

  lemma LockerOpen(s: State, step: Step, s': State, subject: string)
    requires SP.JobsFit(s.lk) && SP.Open(s.lk, subject) && Next(s, step) == Some(s') && Reopens(s, step, subject)
    ensures SP.Open(s'.lk, subject)
  {
    match step
    case Work(w) => WorkOpen(s, w, s', subject);
    case Admin(a) => AdminOpen(s, a, s', subject);
    case _ =>
  }

  lemma WorkSpares(s: State, step: WorkStep, s': State, m: nat)
    requires Spared(s, m) && WorkNext(s, step) == Some(s')
    requires step.Check? && s.worker.m == m && m < |s.queue| ==> s.queue[m].ref.subject in s.lk.index
    ensures Spared(s', m)
  {
  }

  lemma OtherSpares(s: State, step: Step, s': State, m: nat)
    requires !step.Work? && Spared(s, m) && Coupled(s.queue, s.worker, s.lk) && Next(s, step) == Some(s')
    ensures Spared(s', m)
  {
    if step.Admin? {
      AdminLeavesQueue(s, step.a, s');
    }
  }

  lemma AdminLeavesQueue(s: State, step: AdminStep, s': State)
    requires AdminNext(s, step) == Some(s')
    ensures s'.queue == s.queue && s'.worker == s.worker && s'.events == s.events
  {
  }

  lemma CheckFinds(s: State, s': State, m: nat)
    requires Base(s) && WorkNext(s, Check) == Some(s')
    requires m < |s.queue| ==> SP.Open(s.lk, s.queue[m].ref.subject)
    ensures m < |s.queue| ==> s.queue[m].ref.subject in s.lk.index
  {
    if m < |s.queue| {
      LedgerIsOpen(s, s.queue[m].ref.subject);
    }
  }

  /** No step ends a message whose ledger is open. */
  lemma StepSpares(s: State, step: Step, s': State, m: nat)
    requires Base(s) && Spared(s, m) && Next(s, step) == Some(s')
    requires m < |s.queue| ==> SP.Open(s.lk, s.queue[m].ref.subject)
    ensures Spared(s', m)
  {
    if step.Work? {
      if step.w.Check? {
        CheckFinds(s, s', m);
      }
      WorkSpares(s, step.w, s', m);
    } else {
      OtherSpares(s, step, s', m);
    }
  }

  lemma TermsStep(s: State, step: Step, s': State, subject: string)
    requires Base(s) && SP.Open(s.lk, subject) && NoneTermed(s, subject) && Next(s, step) == Some(s')
    requires QueueGrows(s.queue, s'.queue)
    ensures NoneTermed(s', subject)
  {
    forall m | 0 <= m < |s'.queue| && s'.queue[m].ref.subject == subject ensures Spared(s', m) {
      assert m < |s.queue| ==> s.queue[m].ref == s'.queue[m].ref;
      StepSpares(s, step, s', m);
    }
  }

  // ---- Ledgers that are clean ----

  /** Where every entry fits its bundle, what is taken for sealed is sealed. */
  lemma AccountedIsSealed(lk: SP.State, ref: IngestRef)
    requires Accounted(lk, ref) && SP.Short(SP.LogOf(lk, ref.subject))
    ensures InLog(lk, ref)
  {
    if SP.Reread(SP.LogOf(lk, ref.subject), Digest(ref.receipt)) {
      SP.RereadIsSealed(SP.LogOf(lk, ref.subject), Digest(ref.receipt));
    }
  }

  lemma WorkLocker(s: State, step: WorkStep, s': State, subject: string)
    requires SP.Inv(s.lk, subject) && WorkNext(s, step) == Some(s')
    ensures SP.Inv(s'.lk, subject)
  {
    match step
    case Append(ok) => SP.StepKeeps(s.lk, if ok then SP.Append(SP.Worker) else SP.Abort(SP.Worker), s'.lk, subject);
    case Index => SP.StepKeeps(s.lk, SP.WriteIndex(SP.Worker), s'.lk, subject);
    case Check =>
      if s'.lk != s.lk {
        var ref := s.queue[s.worker.m].ref;
        SP.StepKeeps(s.lk, SP.Begin(SP.Worker, ref.subject, SP.Entry(ref.receipt, SP.FromWorker(s.worker.m))), s'.lk, subject);
      }
    case _ =>
  }

  lemma TakeRegisterClean(s: State, op: nat, ok: bool, at: string, rebuild: SP.Rebuild, s': State, subject: string)
    requires SP.Inv(s.lk, subject) && TakeRegisterNext(s, op, ok, at, rebuild) == Some(s')
    requires Clean(s, Admin(TakeRegister(op, ok, at, rebuild)), subject)
    ensures SP.Inv(s'.lk, subject)
  {
    var name := s.gw.ops[op].subject;
    if name !in s.lk.index && ok {
      var mid := SP.Next(s.lk, SP.Create(name, rebuild)).value;
      SP.StepKeeps(s.lk, SP.Create(name, rebuild), mid, subject);
      var receipt := RegistrationReceipt(name, s.gw.ops[op].caller, at);
      if receipt.Some? {
        SP.StepKeeps(mid, SP.Begin(SP.Registrar, name, SP.Entry(receipt.value, SP.Registration(op))), s'.lk, subject);
      }
    }
  }

  lemma TakeSealClean(s: State, op: nat, at: string, s': State, subject: string)
    requires SP.Inv(s.lk, subject) && TakeSealNext(s, op, at) == Some(s')
    ensures SP.Inv(s'.lk, subject)
  {
    var sealed := s.gw.ops[op].subject;
    var receipt := TrustReceipt(sealed, s.gw.ops[op].list, s.gw.ops[op].caller, at);
    if sealed in s.lk.index && receipt.Some? {
      SP.StepKeeps(s.lk, SP.Begin(SP.Sealer, sealed, SP.Entry(receipt.value, SP.TrustChange(op))), s'.lk, subject);
    }
  }

  lemma AdminLocker(s: State, step: AdminStep, s': State, subject: string)
    requires SP.Inv(s.lk, subject) && AdminNext(s, step) == Some(s') && Clean(s, Admin(step), subject)
    ensures SP.Inv(s'.lk, subject)
  {
    match step
    case TakeRegister(op, ok, at, rebuild) => TakeRegisterClean(s, op, ok, at, rebuild, s', subject);
    case RegistrarAppend(ok) => SP.StepKeeps(s.lk, if ok then SP.Append(SP.Registrar) else SP.Abort(SP.Registrar), s'.lk, subject);
    case RegistrarIndex => SP.StepKeeps(s.lk, SP.WriteIndex(SP.Registrar), s'.lk, subject);
    case Reply =>
    case TakeSeal(op, at) => TakeSealClean(s, op, at, s', subject);
    case SealerAppend(ok) => SP.StepKeeps(s.lk, if ok then SP.Append(SP.Sealer) else SP.Abort(SP.Sealer), s'.lk, subject);
    case SealerIndex => SP.StepKeeps(s.lk, SP.WriteIndex(SP.Sealer), s'.lk, subject);
  }

  /** In the locker, a pipeline step that is clean for a ledger is sealing steps that are. */
  lemma StepKeeps(s: State, step: Step, s': State, subject: string)
    requires SP.Inv(s.lk, subject) && Next(s, step) == Some(s') && Clean(s, step, subject)
    ensures SP.Inv(s'.lk, subject)
  {
    match step
    case Work(w) => WorkLocker(s, w, s', subject);
    case Admin(a) => AdminLocker(s, a, s', subject);
    case Crash => SP.StepKeeps(s.lk, SP.Crash, s'.lk, subject);
    case Restart(reopened, rebuilds) => SP.StepKeeps(s.lk, SP.Restart(reopened, rebuilds), s'.lk, subject);
    case _ =>
  }

  lemma {:induction false} RunKeeps(cfg: Registry, steps: seq<Step>, subject: string)
    requires CleanRun(Init(cfg), steps, subject) && Run(Init(cfg), steps).Some?
    ensures SP.Inv(Run(Init(cfg), steps).value.lk, subject)
  {
    if steps != [] {
      var mid := Run(Init(cfg), steps[..|steps| - 1]).value;
      RunKeeps(cfg, steps[..|steps| - 1], subject);
      StepKeeps(mid, steps[|steps| - 1], Run(Init(cfg), steps).value, subject);
    }
  }
}
