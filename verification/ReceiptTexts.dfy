/** What the receipts in the ledgers say, and that it is true. */
module ReceiptTexts {
  import opened Wrappers
  import opened Receipts
  import opened TrustKv
  import opened Authn
  import opened Pipeline
  import opened PipelineSafety
  import opened Guarantees
  import TR = TrustReceipts
  import SP = SealProtocol

  /** The entry is worded as the operation behind it asked: who, which subject, which list. */
  ghost predicate Tells(gw: Gateway, subject: string, e: SP.Entry) {
    match e.from
    case FromWorker(_) => true
    case Registration(op) =>
      && op < |gw.ops| && gw.ops[op].subject == subject
      && exists at :: RegistrationReceipt(subject, gw.ops[op].caller, at) == Some(e.bytes)
    case TrustChange(op) =>
      && op < |gw.ops| && gw.ops[op].subject == subject
      && exists at :: TrustReceipt(subject, gw.ops[op].list, gw.ops[op].caller, at) == Some(e.bytes)
  }

  ghost predicate TextsOk(gw: Gateway, lk: SP.State) {
    && (forall subject :: subject in lk.logs ==>
          forall i :: 0 <= i < |lk.logs[subject]| ==> Tells(gw, subject, lk.logs[subject][i]))
    && (forall t :: lk.jobs.Get(t) != SP.Idle ==> Tells(gw, lk.jobs.Get(t).subject, lk.jobs.Get(t).entry))
  }

  lemma TellsGrows(gw: Gateway, gw': Gateway, subject: string, e: SP.Entry)
    requires GwGrows(gw, gw') && Tells(gw, subject, e)
    ensures Tells(gw', subject, e)
  {
    if !e.from.FromWorker? {
      assert SameOp(gw.ops[e.from.op], gw'.ops[e.from.op]);
    }
  }

  lemma GwTexts(gw: Gateway, gw': Gateway, lk: SP.State)
    requires TextsOk(gw, lk) && GwGrows(gw, gw')
    ensures TextsOk(gw', lk)
  {
    forall subject, e | Tells(gw, subject, e) ensures Tells(gw', subject, e) {
      TellsGrows(gw, gw', subject, e);
    }
  }

  lemma LockerTexts(gw: Gateway, lk: SP.State, step: SP.Step, lk': SP.State)
    requires TextsOk(gw, lk) && SP.Next(lk, step) == Some(lk')
    requires step.Begin? ==> Tells(gw, step.subject, step.entry)
    ensures TextsOk(gw, lk')
  {
    forall t | lk'.jobs.Get(t) != SP.Idle ensures Tells(gw, lk'.jobs.Get(t).subject, lk'.jobs.Get(t).entry) {
      if step.Begin? || step.Append? || step.Abort? || step.WriteIndex? {
        assert t != step.t ==> lk'.jobs.Get(t) == lk.jobs.Get(t);
      }
    }
  }

  lemma TakeRegisterTexts(s: State, op: nat, ok: bool, at: string, rebuild: SP.Rebuild, s': State)
    requires TextsOk(s.gw, s.lk) && TakeRegisterNext(s, op, ok, at, rebuild) == Some(s')
    ensures TextsOk(s.gw, s'.lk)
  {
    var subject := s.gw.ops[op].subject;
    if subject !in s.lk.index && ok {
      var mid := SP.Next(s.lk, SP.Create(subject, rebuild)).value;
      LockerTexts(s.gw, s.lk, SP.Create(subject, rebuild), mid);
      var receipt := RegistrationReceipt(subject, s.gw.ops[op].caller, at);
      if receipt.Some? {
        LockerTexts(s.gw, mid, SP.Begin(SP.Registrar, subject, SP.Entry(receipt.value, SP.Registration(op))), s'.lk);
      }
    }
  }

  lemma TakeSealTexts(s: State, op: nat, at: string, s': State)
    requires TextsOk(s.gw, s.lk) && TakeSealNext(s, op, at) == Some(s')
    ensures TextsOk(s.gw, s'.lk)
  {
    var subject := s.gw.ops[op].subject;
    var receipt := TrustReceipt(subject, s.gw.ops[op].list, s.gw.ops[op].caller, at);
    if subject in s.lk.index && receipt.Some? {
      LockerTexts(s.gw, s.lk, SP.Begin(SP.Sealer, subject, SP.Entry(receipt.value, SP.TrustChange(op))), s'.lk);
    }
  }

  lemma AdminTexts(s: State, step: AdminStep, s': State)
    requires TextsOk(s.gw, s.lk) && AdminNext(s, step) == Some(s')
    ensures TextsOk(s'.gw, s'.lk)
  {
    match step {
      case TakeRegister(op, ok, at, rebuild) => TakeRegisterTexts(s, op, ok, at, rebuild, s');
      case TakeSeal(op, at) => TakeSealTexts(s, op, at, s');
      case RegistrarAppend(ok) => LockerTexts(s.gw, s.lk, if ok then SP.Append(SP.Registrar) else SP.Abort(SP.Registrar), s'.lk);
      case RegistrarIndex => LockerTexts(s.gw, s.lk, SP.WriteIndex(SP.Registrar), s'.lk);
      case SealerAppend(ok) => LockerTexts(s.gw, s.lk, if ok then SP.Append(SP.Sealer) else SP.Abort(SP.Sealer), s'.lk);
      case SealerIndex => LockerTexts(s.gw, s.lk, SP.WriteIndex(SP.Sealer), s'.lk);
      case Reply =>
    }
    AdminGrowsGw(s, step, s');
    GwTexts(s.gw, s'.gw, s'.lk);
  }

  lemma WorkTexts(s: State, step: WorkStep, s': State)
    requires TextsOk(s.gw, s.lk) && WorkNext(s, step) == Some(s')
    ensures TextsOk(s'.gw, s'.lk)
  {
    match step
    case Append(ok) => LockerTexts(s.gw, s.lk, if ok then SP.Append(SP.Worker) else SP.Abort(SP.Worker), s'.lk);
    case Index => LockerTexts(s.gw, s.lk, SP.WriteIndex(SP.Worker), s'.lk);
    case Check =>
      if s'.lk != s.lk {
        var ref := s.queue[s.worker.m].ref;
        LockerTexts(s.gw, s.lk, SP.Begin(SP.Worker, ref.subject, SP.Entry(ref.receipt, SP.FromWorker(s.worker.m))), s'.lk);
      }
    case _ =>
  }

  lemma StepTexts(s: State, step: Step, s': State)
    requires TextsOk(s.gw, s.lk) && Next(s, step) == Some(s')
    ensures TextsOk(s'.gw, s'.lk)
  {
    match step
    case Gw(g) =>
      GwStepGrows(s.gw, g, s'.gw);
      GwTexts(s.gw, s'.gw, s.lk);
    case Work(w) => WorkTexts(s, w, s');
    case Admin(a) => AdminTexts(s, a, s');
    case Crash =>
      LockerTexts(s.gw, s.lk, SP.Crash, s'.lk);
      GwTexts(s.gw, s'.gw, s'.lk);
    case Restart(reopened, rebuilds) => LockerTexts(s.gw, s.lk, SP.Restart(reopened, rebuilds), s'.lk);
    case Bus(_) =>
  }

  lemma {:induction false} RunTexts(cfg: Registry, steps: seq<Step>)
    requires Run(Init(cfg), steps).Some?
    ensures var s := Run(Init(cfg), steps).value; TextsOk(s.gw, s.lk)
  {
    if steps != [] {
      RunTexts(cfg, steps[..|steps| - 1]);
      StepTexts(Run(Init(cfg), steps[..|steps| - 1]).value, steps[|steps| - 1], Run(Init(cfg), steps).value);
    }
  }

  // ---- What it adds up to ----

  lemma {:induction false} PublishersTextInjective(a: TrustList, b: TrustList)
    requires PublishersJson(a) == PublishersJson(b)
    ensures a == b
  {
    if a == [] || b == [] {
      assert |PublishersJson(a)| == 0 && |PublishersJson(b)| == 0;
    } else {
      var x, y := PublishersJson(a), PublishersJson(b);
      var p, q := a[|a| - 1], b[|b| - 1];
      assert x[|x| - 1] == y[|y| - 1] && x[..|x| - 1] == y[..|y| - 1];
      assert x[|x| - 1].fields["issuer"] == y[|y| - 1].fields["issuer"] && x[|x| - 1].fields["sub"] == y[|y| - 1].fields["sub"];
      PublishersTextInjective(a[..|a| - 1], b[..|b| - 1]);
      assert a == a[..|a| - 1] + [p] && b == b[..|b| - 1] + [q];
    }
  }

  /** The text of a trust receipt belongs to one subject, one list and one operator. */
  lemma TrustTextInjective(s: string, a: TrustList, p: Publisher, t: string, b: TrustList, q: Publisher)
    requires TrustJson(s, a, p) == TrustJson(t, b, q)
    ensures s == t && a == b && p == q
  {
    var x, y := TrustJson(s, a, p).fields, TrustJson(t, b, q).fields;
    assert x["subjectId"] == y["subjectId"] && x["trustedPublishers"] == y["trustedPublishers"];
    assert x["operatorIssuer"] == y["operatorIssuer"] && x["operatorSub"] == y["operatorSub"];
    PublishersTextInjective(a, b);
  }

  /** The entry unwraps to content that is, as JSON, this statement of this identity. */
  ghost predicate Says(bytes: Bytes, who: Publisher, what: Json) {
    && UnwrapContent(bytes).Ok? && UnwrapContent(bytes).value.publisher == who
    && UnmarshalJson(UnwrapContent(bytes).value.content) == Some(what)
  }

  lemma WrappedSays(what: Json, who: Publisher, subject: string, artifactType: string, at: string, bytes: Bytes)
    requires Laws() && what.Obj? && Plain(what) && Wrap(MarshalJson(what), who, subject, artifactType, at) == Some(bytes)
    ensures Says(bytes, who, what)
  {
    WrapUnwrap(MarshalJson(what), who, subject, artifactType, at);
  }

  lemma RegistrationIsPlain(subject: string, caller: Publisher)
    ensures Plain(RegistrationJson(subject, caller))
  {
  }

  lemma {:induction false} PublishersArePlain(list: TrustList)
    ensures forall i :: 0 <= i < |PublishersJson(list)| ==> Plain(PublishersJson(list)[i])
  {
    if list != [] {
      PublishersArePlain(list[..|list| - 1]);
      var last := list[|list| - 1];
      assert Plain(Obj(map["issuer" := Str(last.issuer), "sub" := Str(last.sub)]));
    }
  }

  lemma TrustIsPlain(subject: string, list: TrustList, caller: Publisher)
    ensures Plain(TrustJson(subject, list, caller))
  {
    PublishersArePlain(list);
    assert Plain(Arr(PublishersJson(list)));
  }

  /** Whoever has a trust list has a ledger whose first entry says that this subject was registered, and by whom. */
  lemma RegistrationSays(cfg: Registry, s: State, subject: string)
    requires Laws() && Reachable(cfg, s) && subject in s.gw.kv.entries
    ensures HasLedger(s.gw, s.lk, subject)
    ensures var e := s.lk.logs[subject][0];
            Says(e.bytes, s.gw.ops[e.from.op].caller, RegistrationJson(subject, s.gw.ops[e.from.op].caller))
  {
    Known(cfg, s);
    var steps :| Run(Init(cfg), steps) == Some(s);
    RunTexts(cfg, steps);
    var e := s.lk.logs[subject][0];
    assert Tells(s.gw, subject, e);
    var caller := s.gw.ops[e.from.op].caller;
    var at :| RegistrationReceipt(subject, caller, at) == Some(e.bytes);
    RegistrationIsPlain(subject, caller);
    WrappedSays(RegistrationJson(subject, caller), caller, subject, "subject-registration", at, e.bytes);
  }

  ghost predicate IsTrustReceipt(s: State, subject: string, i: nat) {
    subject in s.lk.logs && i < |s.lk.logs[subject]| && s.lk.logs[subject][i].from.TrustChange?
  }

  /**
   * The k-th trust write is the change that this receipt records: it is the write of the operation
   * the receipt was sealed for, and the receipt's own text names its subject, its list and its operator.
   */
  ghost predicate Records(s: State, subject: string, i: nat, k: nat) {
    && IsTrustReceipt(s, subject, i) && k < |s.gw.kv.writes| && s.gw.kv.writes[k].op < |s.gw.ops|
    && var e, w := s.lk.logs[subject][i], s.gw.kv.writes[k];
    && e.from.op == w.op && w.subject == subject && s.gw.ops[w.op].kind == Modify
    && Says(e.bytes, s.gw.ops[w.op].caller, TrustJson(w.subject, w.list, s.gw.ops[w.op].caller))
  }

  lemma ReceiptRecords(gw: Gateway, lk: SP.State, subject: string, i: nat) returns (k: nat)
    requires Laws() && TextsOk(gw, lk) && TR.WritesOk(gw) && TR.LoggedOk(gw, lk)
    requires subject in lk.logs && i < |lk.logs[subject]| && lk.logs[subject][i].from.TrustChange?
    ensures k < |gw.kv.writes| && gw.kv.writes[k].op == lk.logs[subject][i].from.op < |gw.ops|
    ensures var e, w := lk.logs[subject][i], gw.kv.writes[k];
            && w.subject == subject && gw.ops[w.op].kind == Modify
            && Says(e.bytes, gw.ops[w.op].caller, TrustJson(w.subject, w.list, gw.ops[w.op].caller))
  {
    var e := lk.logs[subject][i];
    var op := gw.ops[e.from.op];
    assert Tells(gw, subject, e) && TR.Launched(gw, e.from.op);
    k :| 0 <= k < |gw.kv.writes| && gw.kv.writes[k].op == e.from.op;
    var at :| TrustReceipt(subject, op.list, op.caller, at) == Some(e.bytes);
    TrustIsPlain(subject, op.list, op.caller);
    WrappedSays(TrustJson(subject, op.list, op.caller), op.caller, subject, "trust-modification", at, e.bytes);
  }

  /** Receipts of one operation are one receipt. */
  lemma OneReceipt(gw: Gateway, lk: SP.State, subject: string, i: nat, subject': string, i': nat)
    requires TR.LoggedOk(gw, lk) && TR.NoDoubles(lk)
    requires subject in lk.logs && i < |lk.logs[subject]| && subject' in lk.logs && i' < |lk.logs[subject']|
    requires lk.logs[subject][i].from.TrustChange? && lk.logs[subject][i].from == lk.logs[subject'][i'].from
    ensures subject == subject' && i == i'
  {
  }

  /**
   * In every run, every trust receipt records a trust write that took effect, and no write is
   * recorded twice: neither in one ledger nor in two.
   */
  lemma ReceiptsRecordWrites(cfg: Registry, steps: seq<Step>)
    requires Laws() && Run(Init(cfg), steps).Some?
    ensures var s := Run(Init(cfg), steps).value;
            && (forall subject, i: nat :: IsTrustReceipt(s, subject, i) ==> exists k :: Records(s, subject, i, k))
            && (forall subject, i: nat, subject', i': nat, k :: Records(s, subject, i, k) && Records(s, subject', i', k) ==>
                  subject == subject' && i == i')
  {
    TR.RunReceipts(cfg, steps);
    RunTexts(cfg, steps);
    var s := Run(Init(cfg), steps).value;
    forall subject, i: nat | IsTrustReceipt(s, subject, i) ensures exists k :: Records(s, subject, i, k) {
      var k := ReceiptRecords(s.gw, s.lk, subject, i);
      assert Records(s, subject, i, k);
    }
    forall subject, i: nat, subject', i': nat, k | Records(s, subject, i, k) && Records(s, subject', i', k)
      ensures subject == subject' && i == i'
    {
      OneReceipt(s.gw, s.lk, subject, i, subject', i');
    }
  }
}
