/** What the pipeline promises in every reachable state, read off its invariants. */
module Guarantees {
  import opened Wrappers
  import opened Digests
  import opened Decimal
  import opened Bundle
  import opened Receipts
  import opened StorageRef
  import opened TrustKv
  import opened Authn
  import opened Pipeline
  import opened PipelineSafety
  import TR = TrustReceipts
  import SP = SealProtocol

  /** By any run, whatever its restarts reopened and re-read. */
  ghost predicate Reachable(cfg: Registry, s: State) {
    exists steps :: Run(Init(cfg), steps) == Some(s)
  }

  /** By a run whose restarts open this subject's ledger again, whatever their rebuilds read. */
  ghost predicate OpenlyReachable(cfg: Registry, s: State, subject: string) {
    exists steps :: ReopeningRun(Init(cfg), steps, subject) && Run(Init(cfg), steps) == Some(s)
  }

  /** By a run that is clean for this subject's ledger. */
  ghost predicate CleanlyReachable(cfg: Registry, s: State, subject: string) {
    exists steps :: CleanRun(Init(cfg), steps, subject) && Run(Init(cfg), steps) == Some(s)
  }

  // ---- Nothing is taken back ----

  /** What any step at all leaves in place. */
  ghost predicate Grows(a: State, b: State) {
    GwGrows(a.gw, b.gw) && QueueGrows(a.queue, b.queue) && SP.Grows(a.lk, b.lk) && a.events <= b.events
  }

  lemma GwStepGrows(gw: Gateway, step: GwStep, gw': Gateway)
    requires GwNext(gw, step) == Some(gw')
    ensures GwGrows(gw, gw')
  {
    forall i | 0 <= i < |gw.ops| ensures SameOp(gw.ops[i], gw'.ops[i]) {
    }
  }

  lemma WorkStepGrows(s: State, step: WorkStep, s': State)
    requires WorkNext(s, step) == Some(s')
    ensures Grows(s, s')
  {
    match step
    case Append(ok) => SP.StepGrows(s.lk, if ok then SP.Append(SP.Worker) else SP.Abort(SP.Worker), s'.lk);
    case Index => SP.StepGrows(s.lk, SP.WriteIndex(SP.Worker), s'.lk);
    case _ =>
  }

  lemma AdminGrowsLogs(s: State, step: AdminStep, s': State)
    requires AdminNext(s, step) == Some(s')
    ensures SP.Grows(s.lk, s'.lk)
  {
    if step.TakeRegister? {
      TakeRegisterFrame(s, step.op, step.ok, step.at, step.rebuild, s');
    }
  }

  lemma SetPcGrows(gw: Gateway, op: nat, pc: OpPc, inbox: set<nat>)
    requires op < |gw.ops|
    ensures GwGrows(gw, SetPc(gw, op, pc).(inbox := inbox))
  {
  }

  lemma AdminGrowsGw(s: State, step: AdminStep, s': State)
    requires AdminNext(s, step) == Some(s')
    ensures GwGrows(s.gw, s'.gw)
  {
    if step.TakeRegister? {
      TakeRegisterGw(s, step.op, step.ok, step.at, step.rebuild, s');
      SetPcGrows(s.gw, step.op, Failed, s'.gw.inbox);
    } else {
      AdminGw(s, step, s');
      if op: nat, pc :| op < |s.gw.ops| && s'.gw == SetPc(s.gw, op, pc) {
        SetPcGrows(s.gw, op, pc, s.gw.inbox);
      }
    }
  }

  lemma AdminStepGrows(s: State, step: AdminStep, s': State)
    requires AdminNext(s, step) == Some(s')
    ensures Grows(s, s')
  {
    AdminGrowsLogs(s, step, s');
    AdminGrowsGw(s, step, s');
    AdminLeavesQueue(s, step, s');
  }

  lemma BusStepGrows(s: State, step: BusStep, s': State)
    requires BusNext(s, step) == Some(s')
    ensures Grows(s, s')
  {
  }

  lemma StepGrows(s: State, step: Step, s': State)
    requires Next(s, step) == Some(s')
    ensures Grows(s, s')
  {
    match step
    case Gw(g) => GwStepGrows(s.gw, g, s'.gw);
    case Bus(b) => BusStepGrows(s, b, s');
    case Work(w) => WorkStepGrows(s, w, s');
    case Admin(a) => AdminStepGrows(s, a, s');
    case Restart(reopened, rebuilds) => SP.StepGrows(s.lk, SP.Restart(reopened, rebuilds), s'.lk);
    case _ =>
  }

  lemma GrowsTrans(a: State, b: State, c: State)
    requires Grows(a, b) && Grows(b, c)
    ensures Grows(a, c)
  {
    forall i | 0 <= i < |a.gw.ops| ensures SameOp(a.gw.ops[i], c.gw.ops[i]) {
      assert SameOp(a.gw.ops[i], b.gw.ops[i]) && SameOp(b.gw.ops[i], c.gw.ops[i]);
    }
    forall i | 0 <= i < |a.queue| ensures a.queue[i].ref == c.queue[i].ref {
      assert a.queue[i].ref == b.queue[i].ref;
    }
  }

  /**
   * Whatever runs, crashes and partial rebuilds included: logs, trust history, operations, queue
   * and events only grow, and an entry once at a position stays there.
   */
  lemma {:induction false} RunGrows(s: State, steps: seq<Step>)
    requires Run(s, steps).Some?
    ensures Grows(s, Run(s, steps).value)
  {
    if steps != [] {
      var mid := Run(s, steps[..|steps| - 1]).value;
      RunGrows(s, steps[..|steps| - 1]);
      StepGrows(mid, steps[|steps| - 1], Run(s, steps).value);
      GrowsTrans(s, mid, Run(s, steps).value);
    }
  }

  lemma Known(cfg: Registry, s: State)
    requires Laws() && Reachable(cfg, s)
    ensures Base(s) && TR.WritesOk(s.gw) && s.gw.cfg == cfg
  {
    var steps :| Run(Init(cfg), steps) == Some(s);
    RunBase(cfg, steps);
    TR.RunReceipts(cfg, steps);
    RunGrows(Init(cfg), steps);
  }

  lemma {:induction false} RunSpares(s: State, steps: seq<Step>, subject: string)
    requires Laws() && Base(s) && SP.Open(s.lk, subject) && NoneTermed(s, subject)
    requires ReopeningRun(s, steps, subject) && Run(s, steps).Some?
    ensures var s' := Run(s, steps).value; Base(s') && SP.Open(s'.lk, subject) && NoneTermed(s', subject)
  {
    if steps != [] {
      var mid, last, s' := Run(s, steps[..|steps| - 1]).value, steps[|steps| - 1], Run(s, steps).value;
      RunSpares(s, steps[..|steps| - 1], subject);
      BaseStep(mid, last, s');
      LockerOpen(mid, last, s', subject);
      StepGrows(mid, last, s');
      TermsStep(mid, last, s', subject);
    }
  }

  // ---- Provenance ----

  ghost predicate WorkerEntry(s: State, subject: string, i: nat) {
    subject in s.lk.logs && i < |s.lk.logs[subject]| && s.lk.logs[subject][i].from.FromWorker?
  }

  /** Some administrator's write put the publisher on the subject's list before that moment. */
  ghost predicate PutOnList(gw: Gateway, subject: string, p: Publisher, before: nat) {
    exists k :: 0 <= k < before <= |gw.kv.writes| && gw.kv.writes[k].subject == subject && p in gw.kv.writes[k].list
  }

  lemma ListedWasWritten(gw: Gateway, subject: string, p: Publisher, n: nat)
    requires n <= |gw.kv.writes| && p in ListAfter(gw.kv.writes[..n], subject)
    ensures PutOnList(gw, subject, p, n)
  {
    var past := gw.kv.writes[..n];
    LastRevIsLast(past, subject);
    var k := LastRev(past, subject).value - 1;
    assert past[k] == gw.kv.writes[k];
  }

  lemma WrittenIsValid(gw: Gateway, subject: string, p: Publisher, n: nat)
    requires TR.WritesOk(gw) && PutOnList(gw, subject, p, n)
    ensures ValidTrustEntry(gw.cfg, p.issuer, p.sub)
  {
    var k :| 0 <= k < n <= |gw.kv.writes| && gw.kv.writes[k].subject == subject && p in gw.kv.writes[k].list;
    var w := gw.kv.writes[k];
    assert w.list == gw.ops[w.op].list && EntriesValid(gw.cfg, gw.ops[w.op].list);
    var j :| 0 <= j < |w.list| && w.list[j] == p;
  }

  /**
   * Where every receipt the worker sealed comes from: it is the receipt of a queued message for
   * this very subject; it unwraps to that message's publisher; that publisher was on the subject's
   * trust list at the moment of authorisation; its issuer is a configured publisher issuer, never
   * the human identity provider and never a stored key alone; and the ledger it sits in opens
   * with the registration of that subject.
   */
  lemma Provenance(cfg: Registry, s: State, subject: string, i: nat)
    requires Laws() && Reachable(cfg, s) && WorkerEntry(s, subject, i)
    ensures var e := s.lk.logs[subject][i];
            && e.from.msg < |s.queue|
            && var ref := s.queue[e.from.msg].ref;
            && ref.subject == subject && ref.receipt == e.bytes && ref.authAt <= |s.gw.kv.writes|
            && UnwrapContent(e.bytes).Ok?
            && var p := UnwrapContent(e.bytes).value.publisher;
            && p in ListAfter(s.gw.kv.writes[..ref.authAt], subject) && PutOnList(s.gw, subject, p, ref.authAt)
            && p.issuer != cfg.oidc && p.issuer in cfg.publishers && cfg.publishers[p.issuer].accepts(p.sub)
    ensures i > 0 && IsRegistration(s.gw, s.lk.logs[subject][0], subject)
  {
    Known(cfg, s);
    var e := s.lk.logs[subject][i];
    assert EntryOk(s.queue, subject, e);
    var ref := s.queue[e.from.msg].ref;
    assert RefOk(s.gw, s.lk, ref);
    ListedWasWritten(s.gw, subject, ref.publisher, ref.authAt);
    WrittenIsValid(s.gw, subject, ref.publisher, ref.authAt);
  }

  /** Revoking trust does not unseal: what was sealed under an earlier list stays and stays justified. */
  lemma SealedStaysJustified(cfg: Registry, s: State, subject: string, i: nat, more: seq<Step>)
    requires Laws() && Reachable(cfg, s) && WorkerEntry(s, subject, i) && Run(s, more).Some?
    ensures var s' := Run(s, more).value;
            && WorkerEntry(s', subject, i) && s'.lk.logs[subject][i] == s.lk.logs[subject][i]
            && var m := s.lk.logs[subject][i].from.msg;
            && m < |s.queue| && m < |s'.queue| && s'.queue[m].ref == s.queue[m].ref
            && Vouched(s'.gw, s'.queue[m].ref)
  {
    Known(cfg, s);
    RunGrows(s, more);
    var m := s.lk.logs[subject][i].from.msg;
    assert EntryOk(s.queue, subject, s.lk.logs[subject][i]);
    assert RefOk(s.gw, s.lk, s.queue[m].ref);
    VouchedGrows(s.gw, Run(s, more).value.gw, s.queue[m].ref);
  }

  // ---- Order, sealing, acknowledgement ----

  /**
   * Registry entry implies trust list implies ledger, and every ledger with any entry at all starts
   * with the registration receipt of its own subject, whatever failed, timed out or crashed in between.
   */
  lemma RegistrationOrder(cfg: Registry, s: State, subject: string)
    requires Laws() && Reachable(cfg, s)
    ensures subject in s.gw.registry ==> subject in s.gw.kv.entries
    ensures subject in s.gw.kv.entries ==> HasLedger(s.gw, s.lk, subject)
    ensures SP.LogOf(s.lk, subject) != [] ==> HasLedger(s.gw, s.lk, subject)
  {
    Known(cfg, s);
  }

  lemma OpenlyKnown(cfg: Registry, s: State, subject: string)
    requires Laws() && OpenlyReachable(cfg, s, subject)
    ensures Base(s) && SP.Open(s.lk, subject) && NoneTermed(s, subject)
  {
    var steps :| ReopeningRun(Init(cfg), steps, subject) && Run(Init(cfg), steps) == Some(s);
    RunSpares(Init(cfg), steps, subject);
  }

  /**
   * While restarts open a subject's ledger again, whatever their rebuilds read and whatever becomes of
   * other ledgers: once the subject has a trust list or a queued message its ledger is open whenever
   * the locker is up, and none of its messages is ever terminated.
   */
  lemma NeverTerminated(cfg: Registry, s: State, subject: string)
    requires Laws() && OpenlyReachable(cfg, s, subject)
    ensures subject in s.gw.kv.entries && s.lk.up ==> subject in s.lk.index
    ensures forall m :: 0 <= m < |s.queue| && s.queue[m].ref.subject == subject ==>
              s.queue[m].status != Termed && (s.lk.up ==> subject in s.lk.index)
  {
    OpenlyKnown(cfg, s, subject);
    if s.lk.up && (subject in s.gw.kv.entries || exists m :: 0 <= m < |s.queue| && s.queue[m].ref.subject == subject) {
      LedgerIsOpen(s, subject);
    }
  }

  ghost predicate Terminated(s: State, m: nat) {
    m < |s.queue| && s.queue[m].status == Termed
  }

  lemma {:induction false} RunSparesOne(s: State, steps: seq<Step>, m: nat)
    requires Laws() && Base(s) && m < |s.queue| && SP.Open(s.lk, s.queue[m].ref.subject) && Spared(s, m)
    requires Unbroken(steps) && Run(s, steps).Some?
    ensures var s' := Run(s, steps).value;
            Base(s') && m < |s'.queue| && s'.queue[m].ref == s.queue[m].ref && SP.Open(s'.lk, s.queue[m].ref.subject) && Spared(s', m)
  {
    if steps != [] {
      var mid, last, s' := Run(s, steps[..|steps| - 1]).value, steps[|steps| - 1], Run(s, steps).value;
      RunSparesOne(s, steps[..|steps| - 1], m);
      BaseStep(mid, last, s');
      LockerOpen(mid, last, s', s.queue[m].ref.subject);
      StepGrows(mid, last, s');
      StepSpares(mid, last, s', m);
    }
  }

  lemma MissingSteps(s: State, m: nat, got: State, failed: State)
    requires s.lk.up && s.worker == WIdle && m < |s.queue| && s.queue[m].status == Pending && s.queue[m].deliveries < MAX_DELIVER
    requires s.queue[m].ref.subject !in s.lk.index
    requires got == s.(queue := s.queue[m := Msg(s.queue[m].ref, s.queue[m].deliveries + 1, Outstanding)], worker := WGot(m))
    requires failed == got.(worker := WFailed(m, true))
    ensures Next(s, Work(Deliver(m))) == Some(got) && Next(got, Work(Check)) == Some(failed)
    ensures Next(failed, Work(Settle(true))).Some? && Terminated(Next(failed, Work(Settle(true))).value, m)
  {
  }

  lemma MissingTerminates(s: State, m: nat) returns (steps: seq<Step>)
    requires s.lk.up && s.worker == WIdle && m < |s.queue| && s.queue[m].status == Pending && s.queue[m].deliveries < MAX_DELIVER
    requires s.queue[m].ref.subject !in s.lk.index
    ensures Unbroken(steps) && Run(s, steps).Some? && Terminated(Run(s, steps).value, m)
  {
    var msg := Msg(s.queue[m].ref, s.queue[m].deliveries + 1, Outstanding);
    var got := s.(queue := s.queue[m := msg], worker := WGot(m));
    var failed := s.(queue := s.queue[m := msg], worker := WFailed(m, true));
    MissingSteps(s, m, got, failed);
    Step1(s, Work(Deliver(m)));
    steps := [Work(Deliver(m))];
    Then(s, steps, Work(Check));
    steps := steps + [Work(Check)];
    Then(s, steps, Work(Settle(true)));
    steps := steps + [Work(Settle(true))];
  }

  /** A waiting message can be terminated before the next restart exactly when its ledger is not open. */
  lemma TerminatedIffClosed(cfg: Registry, s: State, m: nat)
    requires Laws() && Reachable(cfg, s) && s.lk.up && s.worker == WIdle && m < |s.queue| && s.queue[m].status == Pending
    ensures (exists steps :: Unbroken(steps) && Run(s, steps).Some? && Terminated(Run(s, steps).value, m))
       <==> s.queue[m].ref.subject !in s.lk.index
  {
    Known(cfg, s);
    assert MsgOk(s.lk, s.queue[m]);
    if s.queue[m].ref.subject in s.lk.index {
      forall steps | Unbroken(steps) && Run(s, steps).Some? ensures !Terminated(Run(s, steps).value, m) {
        RunSparesOne(s, steps, m);
      }
    } else {
      var steps := MissingTerminates(s, m);
    }
  }

  /** A ledger whose own openings are clean never holds two worker entries with one digest. */
  lemma SealedAtMostOnce(cfg: Registry, s: State, subject: string, i: nat, j: nat)
    requires CleanlyReachable(cfg, s, subject) && WorkerEntry(s, subject, i) && WorkerEntry(s, subject, j)
    requires Digest(s.lk.logs[subject][i].bytes) == Digest(s.lk.logs[subject][j].bytes)
    ensures i == j
  {
    var steps :| CleanRun(Init(cfg), steps, subject) && Run(Init(cfg), steps) == Some(s);
    RunKeeps(cfg, steps, subject);
    assert SP.OnceIn(SP.LogOf(s.lk, subject));
  }

  /**
   * An acknowledged message is in its subject's ledger, in every run, as long as every entry of that
   * ledger fits its bundle; without that it is there or was taken for something the rebuild once read.
   */
  lemma AcknowledgedIsSealed(cfg: Registry, s: State, m: nat)
    requires Laws() && Reachable(cfg, s) && m < |s.queue| && s.queue[m].status == Acked
    ensures Accounted(s.lk, s.queue[m].ref)
    ensures SP.Short(SP.LogOf(s.lk, s.queue[m].ref.subject)) ==> InLog(s.lk, s.queue[m].ref)
  {
    Known(cfg, s);
    assert MsgOk(s.lk, s.queue[m]);
    if SP.Short(SP.LogOf(s.lk, s.queue[m].ref.subject)) {
      AccountedIsSealed(s.lk, s.queue[m].ref);
    }
  }

  /** Concurrent trust writes of one subject never start from one revision: no update is lost. */
  lemma NoLostTrustUpdate(cfg: Registry, s: State, i: nat, j: nat)
    requires Laws() && Reachable(cfg, s) && i < j < |s.gw.kv.writes|
    requires s.gw.kv.writes[i].subject == s.gw.kv.writes[j].subject
    ensures s.gw.kv.writes[j].read.Some? && s.gw.kv.writes[j].read.value > i
    ensures s.gw.kv.writes[i].read != s.gw.kv.writes[j].read
  {
    Known(cfg, s);
    NoSharedRevision(s.gw.kv.writes, i, j);
  }

  // ---- Sealed events ----

  /**
   * A sealed event stays good: in every later state, its reference is accepted by the driver, the
   * driver and the loader ask for the same path, the locker routes that path to the event's
   * subject and index, the entry there has the announced receipt digest, and reading it through its
   * bundle returns it, however many entries are integrated, as long as that bundle's entries fit.
   */
  lemma EventsResolve(cfg: Registry, s: State, k: nat, more: seq<Step>)
    requires Laws() && Reachable(cfg, s) && k < |s.events| && Run(s, more).Some? && s.events[k].logIndex <= MAX_INT64
    ensures var s', e := Run(s, more).value, s.events[k];
            && k < |s'.events| && s'.events[k] == e && |e.storageRef| >= |SCHEME|
            && DriverPath(e.storageRef) == Some(LoaderPath(e.storageRef))
            && Route(LoaderPath(e.storageRef)) == Some((e.subject, e.logIndex))
            && e.subject in s'.lk.logs
            && var log := s'.lk.logs[e.subject];
            && e.logIndex < |log| && Digest(log[e.logIndex].bytes) == e.receiptDigest
            && forall n :: e.logIndex < n <= |log| && SP.ShortBundle(log, e.logIndex) ==>
                 FetchAt(SP.Payloads(log), n, e.logIndex) == Ok(log[e.logIndex].bytes)
  {
    Known(cfg, s);
    RunGrows(s, more);
    var e := s.events[k];
    assert EventOk(s.lk, e);
    RefRoundTrip(e.subject, e.logIndex);
    var log := Run(s, more).value.lk.logs[e.subject];
    assert log[e.logIndex] == s.lk.logs[e.subject][e.logIndex];
    forall n | e.logIndex < n <= |log| && SP.ShortBundle(log, e.logIndex)
      ensures FetchAt(SP.Payloads(log), n, e.logIndex) == Ok(log[e.logIndex].bytes)
    {
      SP.ReadsSealed(log, e.logIndex, n);
    }
  }
}
