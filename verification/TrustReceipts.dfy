/** Trust-modification receipts: each stands for one successful change of the trust list. */
module TrustReceipts {
  import opened Wrappers
  import opened Receipts
  import opened TrustKv
  import opened Authn
  import opened Pipeline
  import opened PipelineSafety
  import SP = SealProtocol

  // ---- Trust writes and the operations behind them ----

  ghost predicate Wrote(gw: Gateway, op: nat) {
    exists k :: 0 <= k < |gw.kv.writes| && gw.kv.writes[k].op == op
  }

  /** Every write is some operation's, every list was validated, and a written operation shows in the history. */
  ghost predicate WritesOk(gw: Gateway) {
    && (forall i :: 0 <= i < |gw.ops| ==> EntriesValid(gw.cfg, gw.ops[i].list) && (gw.ops[i].pc == Written ==> Wrote(gw, i)))
    && (forall k :: 0 <= k < |gw.kv.writes| ==>
          var w := gw.kv.writes[k];
          w.op < |gw.ops| && w.subject == gw.ops[w.op].subject && w.list == gw.ops[w.op].list)
  }

  /** Steps that write no trust list keep this as long as no operation claims to have written one. */
  lemma WritesFrame(gw: Gateway, gw': Gateway)
    requires WritesOk(gw) && gw'.kv == gw.kv && gw'.cfg == gw.cfg && |gw.ops| <= |gw'.ops|
    requires forall i :: 0 <= i < |gw.ops| ==> SameOp(gw.ops[i], gw'.ops[i])
    requires forall i :: 0 <= i < |gw'.ops| && gw'.ops[i].pc == Written ==> i < |gw.ops| && gw.ops[i].pc == Written
    requires forall i :: |gw.ops| <= i < |gw'.ops| ==> EntriesValid(gw.cfg, gw'.ops[i].list)
    ensures WritesOk(gw')
  {
    forall i | 0 <= i < |gw'.ops| ensures EntriesValid(gw'.cfg, gw'.ops[i].list) && (gw'.ops[i].pc == Written ==> Wrote(gw', i)) {
      if i < |gw.ops| {
        assert SameOp(gw.ops[i], gw'.ops[i]) && EntriesValid(gw.cfg, gw.ops[i].list);
        assert Wrote(gw, i) ==> Wrote(gw', i);
      }
    }
    forall k | 0 <= k < |gw.kv.writes| ensures
      var w := gw.kv.writes[k];
      w.op < |gw'.ops| && w.subject == gw'.ops[w.op].subject && w.list == gw'.ops[w.op].list
    {
      assert SameOp(gw.ops[gw.kv.writes[k].op], gw'.ops[gw.kv.writes[k].op]);
    }
  }

  lemma WritesCommit(gw: Gateway, op: nat, kv: Kv)
    requires WritesOk(gw) && op < |gw.ops| && gw.ops[op].pc.Read?
    requires Commit(gw.kv, Write(gw.ops[op].subject, gw.ops[op].list, gw.ops[op].pc.rev, op)) == Some(kv)
    ensures WritesOk(SetPc(gw, op, Written).(kv := kv))
  {
    var gw' := SetPc(gw, op, Written).(kv := kv);
    forall i | Wrote(gw, i) ensures Wrote(gw', i) {
      var k :| 0 <= k < |gw.kv.writes| && gw.kv.writes[k].op == i;
      assert gw'.kv.writes[k] == gw.kv.writes[k];
    }
    assert gw'.kv.writes[|gw.kv.writes|].op == op;
  }

  lemma WritesStep(gw: Gateway, step: GwStep, gw': Gateway)
    requires WritesOk(gw) && GwNext(gw, step) == Some(gw')
    ensures WritesOk(gw')
  {
    if step.WriteTrust? && gw'.ops[step.op].pc == Written {
      WritesCommit(gw, step.op, gw'.kv);
    } else {
      WritesFrame(gw, gw');
    }
  }

  // ---- Receipts ----

  /** Possibly sent to the locker: giving up on the answer does not unsend a request. */
  ghost predicate InFlight(op: Op) {
    op.kind == Modify && (op.pc == Sent || op.pc == Failed)
  }

  ghost predicate Launched(gw: Gateway, op: nat) {
    op < |gw.ops| && InFlight(gw.ops[op]) && Wrote(gw, op)
  }

  ghost predicate ReceiptOf(e: SP.Entry, op: nat) {
    e.from == SP.TrustChange(op)
  }

  ghost predicate Receipted(lk: SP.State, op: nat) {
    exists subject, i :: subject in lk.logs && 0 <= i < |lk.logs[subject]| && ReceiptOf(lk.logs[subject][i], op)
  }

  /** Neither sealed nor being sealed. */
  ghost predicate Untouched(lk: SP.State, op: nat) {
    !Receipted(lk, op) && (lk.jobs.sealer != SP.Idle ==> !ReceiptOf(lk.jobs.sealer.entry, op))
  }

  ghost predicate InboxOk(gw: Gateway, lk: SP.State) {
    forall op :: op in gw.inbox ==> op < |gw.ops| && (gw.ops[op].kind == Modify ==> Launched(gw, op) && Untouched(lk, op))
  }

  ghost predicate SealerOk(gw: Gateway, lk: SP.State) {
    lk.jobs.sealer != SP.Idle ==>
      && lk.jobs.sealer.entry.from.TrustChange?
      && var op := lk.jobs.sealer.entry.from.op;
         && Launched(gw, op) && op !in gw.inbox && gw.ops[op].subject == lk.jobs.sealer.subject
         && (lk.jobs.sealer.Ready? ==> !Receipted(lk, op))
  }

  ghost predicate LoggedOk(gw: Gateway, lk: SP.State) {
    forall subject :: subject in lk.logs ==> forall i :: 0 <= i < |lk.logs[subject]| && lk.logs[subject][i].from.TrustChange? ==>
      var op := lk.logs[subject][i].from.op;
      Launched(gw, op) && op !in gw.inbox && gw.ops[op].subject == subject
  }

  ghost predicate NoDoubles(lk: SP.State) {
    forall subject :: subject in lk.logs ==> forall i, j :: 0 <= i < j < |lk.logs[subject]| && lk.logs[subject][i].from.TrustChange? ==>
      lk.logs[subject][i].from != lk.logs[subject][j].from
  }

  /** Each launched modification is in at most one place: on the wire, being sealed, or sealed once. */
  ghost predicate ReceiptsOk(gw: Gateway, lk: SP.State, replying: Option<nat>) {
    && InboxOk(gw, lk) && SealerOk(gw, lk) && LoggedOk(gw, lk) && NoDoubles(lk)
    && (replying.Some? ==> replying.value < |gw.ops| && gw.ops[replying.value].kind == Register)
  }

  /** What the gateway may do to an operation without losing track of it. */
  ghost predicate Tracks(gw: Gateway, gw': Gateway) {
    && |gw.ops| <= |gw'.ops| && gw.kv.writes <= gw'.kv.writes
    && forall i :: 0 <= i < |gw.ops| ==> SameOp(gw.ops[i], gw'.ops[i]) && (InFlight(gw.ops[i]) ==> InFlight(gw'.ops[i]))
  }

  lemma LaunchedStays(gw: Gateway, gw': Gateway, op: nat)
    requires Tracks(gw, gw') && Launched(gw, op)
    ensures Launched(gw', op)
  {
    var k :| 0 <= k < |gw.kv.writes| && gw.kv.writes[k].op == op;
    assert gw'.kv.writes[k] == gw.kv.writes[k];
    assert SameOp(gw.ops[op], gw'.ops[op]);
  }

  /** A gateway change keeps the receipts' story if every new request is freshly launched. */
  lemma GwReceipts(gw: Gateway, gw': Gateway, lk: SP.State, replying: Option<nat>)
    requires ReceiptsOk(gw, lk, replying) && Tracks(gw, gw')
    requires forall op :: op in gw'.inbox && op !in gw.inbox ==>
               op < |gw'.ops| && !Launched(gw, op) && (gw'.ops[op].kind == Modify ==> Launched(gw', op))
    ensures ReceiptsOk(gw', lk, replying)
  {
    forall op: nat | Launched(gw, op) ensures Launched(gw', op) && gw'.ops[op].subject == gw.ops[op].subject {
      LaunchedStays(gw, gw', op);
      assert SameOp(gw.ops[op], gw'.ops[op]);
    }
    forall op: nat | !Launched(gw, op) ensures Untouched(lk, op) {
    }
    assert forall i :: 0 <= i < |gw.ops| ==> SameOp(gw.ops[i], gw'.ops[i]);
  }

  lemma StepTracks(gw: Gateway, step: GwStep, gw': Gateway)
    requires GwNext(gw, step) == Some(gw')
    ensures Tracks(gw, gw')
  {
    forall i | 0 <= i < |gw.ops| ensures SameOp(gw.ops[i], gw'.ops[i]) && (InFlight(gw.ops[i]) ==> InFlight(gw'.ops[i])) {
    }
  }

  lemma GwStepReceipts(gw: Gateway, step: GwStep, gw': Gateway, lk: SP.State, replying: Option<nat>)
    requires ReceiptsOk(gw, lk, replying) && WritesOk(gw) && GwNext(gw, step) == Some(gw')
    ensures ReceiptsOk(gw', lk, replying)
  {
    StepTracks(gw, step, gw');
    if step.SendSeal? {
      assert Wrote(gw, step.op);
      assert Wrote(gw', step.op);
    }
    GwReceipts(gw, gw', lk, replying);
  }

  // ---- The locker's side ----

  /** Logs unchanged up to new empty ones, and the sealer idle or as it was. */
  lemma QuietLocker(gw: Gateway, lk: SP.State, lk': SP.State, replying: Option<nat>)
    requires ReceiptsOk(gw, lk, replying)
    requires forall subject :: SP.LogOf(lk', subject) == SP.LogOf(lk, subject)
    requires lk'.jobs.sealer == lk.jobs.sealer || lk'.jobs.sealer == SP.Idle
    ensures ReceiptsOk(gw, lk', replying)
  {
    forall subject | subject in lk'.logs && lk'.logs[subject] != [] ensures subject in lk.logs && lk'.logs[subject] == lk.logs[subject] {
      assert SP.LogOf(lk', subject) == SP.LogOf(lk, subject);
    }
    forall op: nat | Receipted(lk', op) ensures Receipted(lk, op) {
    }
  }

  /** An append by the worker or the registrar adds no trust receipt. */
  lemma OtherAppend(gw: Gateway, lk: SP.State, t: SP.Thread, lk': SP.State, replying: Option<nat>)
    requires ReceiptsOk(gw, lk, replying) && SP.JobFits(lk, t) && t != SP.Sealer && SP.Next(lk, SP.Append(t)) == Some(lk')
    ensures ReceiptsOk(gw, lk', replying)
  {
    forall op: nat | Receipted(lk', op) ensures Receipted(lk, op) {
      var subject, i :| subject in lk'.logs && 0 <= i < |lk'.logs[subject]| && ReceiptOf(lk'.logs[subject][i], op);
      assert lk'.logs[subject][i] == SP.LogOf(lk, subject)[i];
    }
  }

  /** The sealer's append turns the request it took into the one receipt of that operation. */
  lemma SealerAppend(gw: Gateway, lk: SP.State, lk': SP.State, replying: Option<nat>)
    requires ReceiptsOk(gw, lk, replying) && SP.Next(lk, SP.Append(SP.Sealer)) == Some(lk')
    ensures ReceiptsOk(gw, lk', replying)
  {
    var own := lk.jobs.sealer.entry.from.op;
    var log := SP.LogOf(lk, lk.jobs.sealer.subject);
    forall op: nat | Receipted(lk', op) && op != own ensures Receipted(lk, op) {
      var subject, i :| subject in lk'.logs && 0 <= i < |lk'.logs[subject]| && ReceiptOf(lk'.logs[subject][i], op);
      assert lk'.logs[subject][i] == SP.LogOf(lk, subject)[i];
    }
    forall i | 0 <= i < |log| ensures log[i].from != SP.TrustChange(own) {
      assert !Receipted(lk, own);
      assert !ReceiptOf(lk.logs[lk.jobs.sealer.subject][i], own);
    }
  }

  lemma TakeSealReceipts(s: State, op: nat, at: string, s': State)
    requires ReceiptsOk(s.gw, s.lk, s.replying) && TakeSealNext(s, op, at) == Some(s')
    ensures ReceiptsOk(s'.gw, s'.lk, s'.replying)
  {
    GwReceipts(s.gw, s'.gw, s.lk, s.replying);
    forall o: nat | Receipted(s'.lk, o) ensures Receipted(s.lk, o) {
    }
  }

  /** Nothing but the trust-receipt handler touches the sealer; the rest leaves logs or adds other entries. */
  lemma LockerReceipts(gw: Gateway, lk: SP.State, step: SP.Step, lk': SP.State, replying: Option<nat>)
    requires ReceiptsOk(gw, lk, replying) && SP.JobsFit(lk) && SP.Next(lk, step) == Some(lk')
    requires step.Begin? ==> step.t != SP.Sealer
    ensures ReceiptsOk(gw, lk', replying)
  {
    if step.Append? {
      assert SP.JobFits(lk, step.t);
      if step.t == SP.Sealer {
        SealerAppend(gw, lk, lk', replying);
      } else {
        OtherAppend(gw, lk, step.t, lk', replying);
      }
    } else {
      forall subject ensures SP.LogOf(lk', subject) == SP.LogOf(lk, subject) {
      }
      QuietLocker(gw, lk, lk', replying);
    }
  }

  lemma RefuseReceipts(s: State, op: nat)
    requires ReceiptsOk(s.gw, s.lk, s.replying)
    ensures ReceiptsOk(Refuse(s, op).gw, s.lk, s.replying)
  {
    GwReceipts(s.gw, Refuse(s, op).gw, s.lk, s.replying);
  }

  lemma TakeRegisterReceipts(s: State, op: nat, ok: bool, at: string, rebuild: SP.Rebuild, s': State)
    requires ReceiptsOk(s.gw, s.lk, s.replying) && SP.JobsFit(s.lk) && TakeRegisterNext(s, op, ok, at, rebuild) == Some(s')
    ensures ReceiptsOk(s'.gw, s'.lk, s'.replying)
  {
    var subject := s.gw.ops[op].subject;
    var taken := s.(gw := s.gw.(inbox := s.gw.inbox - {op}));
    GwReceipts(s.gw, taken.gw, s.lk, s.replying);
    if subject in s.lk.index || !ok {
      RefuseReceipts(taken, op);
    } else {
      var mid := SP.Next(s.lk, SP.Create(subject, rebuild)).value;
      SP.JobsFitStep(s.lk, SP.Create(subject, rebuild), mid);
      LockerReceipts(taken.gw, s.lk, SP.Create(subject, rebuild), mid, s.replying);
      var receipt := RegistrationReceipt(subject, s.gw.ops[op].caller, at);
      if receipt.Some? {
        LockerReceipts(taken.gw, mid, SP.Begin(SP.Registrar, subject, SP.Entry(receipt.value, SP.Registration(op))), s'.lk, s.replying);
      } else {
        RefuseReceipts(taken.(lk := mid), op);
      }
    }
  }

  /** A pipeline step that is one sealing step, or none, and not the start of a trust receipt. */
  ghost predicate Inside(s: State, s': State) {
    && s'.gw == s.gw
    && (s'.lk == s.lk || exists step: SP.Step :: (step.Begin? ==> step.t != SP.Sealer) && SP.Next(s.lk, step) == Some(s'.lk))
  }

  lemma InsideReceipts(s: State, s': State)
    requires ReceiptsOk(s.gw, s.lk, s.replying) && SP.JobsFit(s.lk) && Inside(s, s')
    requires s'.replying == s.replying || s'.replying == None
    ensures ReceiptsOk(s'.gw, s'.lk, s'.replying)
  {
    if s'.lk != s.lk {
      var step: SP.Step :| (step.Begin? ==> step.t != SP.Sealer) && SP.Next(s.lk, step) == Some(s'.lk);
      LockerReceipts(s.gw, s.lk, step, s'.lk, s.replying);
    }
  }

  lemma WorkIsInside(s: State, step: WorkStep, s': State)
    requires WorkNext(s, step) == Some(s')
    ensures Inside(s, s') && s'.replying == s.replying
  {
    match step
    case Append(ok) => assert SP.Next(s.lk, if ok then SP.Append(SP.Worker) else SP.Abort(SP.Worker)) == Some(s'.lk);
    case Index => assert SP.Next(s.lk, SP.WriteIndex(SP.Worker)) == Some(s'.lk);
    case Check =>
      if s'.lk != s.lk {
        var ref := s.queue[s.worker.m].ref;
        assert SP.Next(s.lk, SP.Begin(SP.Worker, ref.subject, SP.Entry(ref.receipt, SP.FromWorker(s.worker.m)))) == Some(s'.lk);
      }
    case _ =>
  }

  lemma AdminIsInside(s: State, step: AdminStep, s': State)
    requires step.SealerAppend? || step.SealerIndex? || step.RegistrarAppend? || step.RegistrarIndex?
    requires AdminNext(s, step) == Some(s')
    ensures Inside(s, s'.(gw := s.gw))
  {
    match step
    case RegistrarAppend(ok) => assert SP.Next(s.lk, if ok then SP.Append(SP.Registrar) else SP.Abort(SP.Registrar)) == Some(s'.lk);
    case RegistrarIndex => assert SP.Next(s.lk, SP.WriteIndex(SP.Registrar)) == Some(s'.lk);
    case SealerAppend(ok) => assert SP.Next(s.lk, if ok then SP.Append(SP.Sealer) else SP.Abort(SP.Sealer)) == Some(s'.lk);
    case SealerIndex => assert SP.Next(s.lk, SP.WriteIndex(SP.Sealer)) == Some(s'.lk);
  }

  /** The registrar's steps: refusing, and turning the sealed registration into a reply. */
  lemma RegistrarReceipts(s: State, step: AdminStep, s': State)
    requires ReceiptsOk(s.gw, s.lk, s.replying) && SP.JobsFit(s.lk) && JobsOk(s.gw, s.lk)
    requires (step.RegistrarAppend? || step.RegistrarIndex?) && AdminNext(s, step) == Some(s')
    ensures ReceiptsOk(s'.gw, s'.lk, s'.replying)
  {
    AdminIsInside(s, step, s');
    var mid := s.(lk := s'.lk);
    InsideReceipts(s, mid);
    if step.RegistrarAppend? && !step.ok {
      RefuseReceipts(mid, s.lk.jobs.registrar.entry.from.op);
    }
  }

  lemma ReplyReceipts(s: State, s': State)
    requires ReceiptsOk(s.gw, s.lk, s.replying) && AdminNext(s, Reply) == Some(s')
    ensures ReceiptsOk(s'.gw, s'.lk, s'.replying)
  {
    GwReceipts(s.gw, s'.gw, s.lk, s.replying);
  }

  lemma AdminReceipts(s: State, step: AdminStep, s': State)
    requires ReceiptsOk(s.gw, s.lk, s.replying) && SP.JobsFit(s.lk) && JobsOk(s.gw, s.lk) && AdminNext(s, step) == Some(s')
    ensures ReceiptsOk(s'.gw, s'.lk, s'.replying)
  {
    match step
    case TakeRegister(op, ok, at, rebuild) => TakeRegisterReceipts(s, op, ok, at, rebuild, s');
    case RegistrarAppend(ok) => RegistrarReceipts(s, step, s');
    case RegistrarIndex => RegistrarReceipts(s, step, s');
    case Reply => ReplyReceipts(s, s');
    case TakeSeal(op, at) => TakeSealReceipts(s, op, at, s');
    case _ =>
      AdminIsInside(s, step, s');
      InsideReceipts(s, s');
  }

  lemma CrashReceipts(s: State, s': State)
    requires ReceiptsOk(s.gw, s.lk, s.replying) && SP.JobsFit(s.lk) && Next(s, Crash) == Some(s')
    ensures ReceiptsOk(s'.gw, s'.lk, s'.replying)
  {
    LockerReceipts(s.gw, s.lk, SP.Crash, s'.lk, s.replying);
    GwReceipts(s.gw, s'.gw, s'.lk, s.replying);
  }

  lemma QuietIsInside(s: State, step: Step, s': State)
    requires (step.Bus? || step.Work? || step.Restart?) && Next(s, step) == Some(s')
    ensures Inside(s, s') && s'.replying == s.replying
  {
    if step.Work? {
      WorkIsInside(s, step.w, s');
    } else if step.Restart? {
      assert SP.Next(s.lk, SP.Restart(step.reopened, step.rebuilds)) == Some(s'.lk);
    }
  }

  lemma StepReceipts(s: State, step: Step, s': State)
    requires SP.JobsFit(s.lk) && JobsOk(s.gw, s.lk) && ReceiptsOk(s.gw, s.lk, s.replying) && WritesOk(s.gw)
    requires Next(s, step) == Some(s')
    ensures ReceiptsOk(s'.gw, s'.lk, s'.replying)
  {
    match step
    case Gw(g) => GwStepReceipts(s.gw, g, s'.gw, s.lk, s.replying);
    case Admin(a) => AdminReceipts(s, a, s');
    case Crash => CrashReceipts(s, s');
    case _ =>
      QuietIsInside(s, step, s');
      InsideReceipts(s, s');
  }

  lemma AdminWrites(s: State, step: AdminStep, s': State)
    requires WritesOk(s.gw) && AdminNext(s, step) == Some(s')
    ensures WritesOk(s'.gw)
  {
    if step.TakeRegister? {
      TakeRegisterGw(s, step.op, step.ok, step.at, step.rebuild, s');
    } else {
      AdminGw(s, step, s');
    }
    WritesFrame(s.gw, s'.gw);
  }

  /** Only the gateway's own steps write trust lists or claim to have. */
  lemma StepWrites(s: State, step: Step, s': State)
    requires WritesOk(s.gw) && Next(s, step) == Some(s')
    ensures WritesOk(s'.gw)
  {
    match step
    case Gw(g) => WritesStep(s.gw, g, s'.gw);
    case Admin(a) => AdminWrites(s, a, s');
    case Crash => WritesFrame(s.gw, s'.gw);
    case _ => QuietIsInside(s, step, s');
  }

  lemma {:induction false} RunReceipts(cfg: Registry, steps: seq<Step>)
    requires Laws() && Run(Init(cfg), steps).Some?
    ensures var s := Run(Init(cfg), steps).value;
            WritesOk(s.gw) && ReceiptsOk(s.gw, s.lk, s.replying)
  {
    if steps != [] {
      var mid := Run(Init(cfg), steps[..|steps| - 1]).value;
      RunReceipts(cfg, steps[..|steps| - 1]);
      RunBase(cfg, steps[..|steps| - 1]);
      StepWrites(mid, steps[|steps| - 1], Run(Init(cfg), steps).value);
      StepReceipts(mid, steps[|steps| - 1], Run(Init(cfg), steps).value);
    }
  }
}
