/**
 * When a registration that has left a ledger behind can still be completed. The ledger is created
 * before the trust list is written, and a second registration of a subject with a ledger is
 * refused, so a lost reply can leave the subject unusable.
 */
module RegistrationProgress {
  import opened Wrappers
  import opened Receipts
  import opened StorageRef
  import opened TrustKv
  import opened Authn
  import opened Pipeline
  import opened PipelineSafety
  import SP = SealProtocol

  /** The caller has neither heard the answer nor given up on it. */
  predicate Waiting(pc: OpPc) {
    pc == New || pc == Sent
  }

  ghost predicate Underway(s: State, i: nat) {
    s.replying == Some(i) || (s.lk.jobs.registrar != SP.Idle && s.lk.jobs.registrar.entry.from == SP.Registration(i))
  }

  /** The i-th operation registers the subject and is past the refusal, with its caller still listening. */
  ghost predicate Live(s: State, subject: string, i: nat) {
    && i < |s.gw.ops| && s.gw.ops[i].kind == Register && s.gw.ops[i].subject == subject
    && var pc := s.gw.ops[i].pc;
       pc == Replied || pc == Read(None) || (Waiting(pc) && Underway(s, i))
  }

  /** The subject has a ledger, no trust list, and nobody who will write one. */
  ghost predicate Stuck(s: State, subject: string) {
    subject in s.lk.logs && subject !in s.gw.kv.entries && forall i :: !Live(s, subject, i)
  }

  /** Some continuation, whose restarts open the subject's ledger again, gives it a trust list. */
  ghost predicate CanComplete(s: State, subject: string) {
    exists steps :: ReopeningRun(s, steps, subject) && Run(s, steps).Some? && subject in Run(s, steps).value.gw.kv.entries
  }

  // ---- A stuck subject stays stuck ----

  /** Nobody may write a stuck subject's trust list: the one who read "no such key" would be live. */
  lemma WriteStuck(s: State, op: nat, gw: Gateway, subject: string)
    requires Stuck(s, subject) && Ordered(s.gw, s.lk, s.replying) && GwNext(s.gw, WriteTrust(op)) == Some(gw)
    ensures subject !in gw.kv.entries
  {
    assert OpOk(s.gw, s.lk, s.gw.ops[op]);
    assert !Live(s, subject, op);
  }

  /** What a gateway step can do to a registration that is not live: nothing that revives it. */
  lemma NotRevived(gw: Gateway, step: GwStep, gw': Gateway, i: nat)
    requires GwNext(gw, step) == Some(gw') && i < |gw'.ops| && gw'.ops[i].kind == Register
    ensures i < |gw.ops| ==> gw'.ops[i].subject == gw.ops[i].subject && gw.ops[i].kind == Register
    ensures i < |gw.ops| && Waiting(gw'.ops[i].pc) ==> Waiting(gw.ops[i].pc)
    ensures gw'.ops[i].pc == Replied || gw'.ops[i].pc == Read(None) ==>
              i < |gw.ops| && (gw.ops[i].pc == Replied || gw.ops[i].pc == Read(None))
  {
  }

  lemma GwStuck(s: State, step: GwStep, gw: Gateway, subject: string)
    requires Stuck(s, subject) && Ordered(s.gw, s.lk, s.replying) && GwNext(s.gw, step) == Some(gw)
    ensures Stuck(s.(gw := gw), subject)
  {
    if step.WriteTrust? {
      WriteStuck(s, step.op, gw, subject);
    }
    forall i: nat ensures !Live(s.(gw := gw), subject, i) {
      assert !Live(s, subject, i);
      if i < |gw.ops| && gw.ops[i].kind == Register {
        NotRevived(s.gw, step, gw, i);
      }
    }
  }

  /** With the subject's ledger open, a registration of it is refused before it gets under way. */
  lemma TakeRegisterStuck(s: State, op: nat, ok: bool, at: string, rebuild: SP.Rebuild, s': State, subject: string)
    requires Stuck(s, subject) && SP.Open(s.lk, subject) && TakeRegisterNext(s, op, ok, at, rebuild) == Some(s')
    ensures Stuck(s', subject)
  {
    TakeRegisterFrame(s, op, ok, at, rebuild, s');
    TakeRegisterGw(s, op, ok, at, rebuild, s');
    forall i: nat | Live(s', subject, i) ensures Live(s, subject, i) {
      TakenRevivesNone(s, op, ok, at, rebuild, s', subject, i);
    }
  }

  lemma TakenRevivesNone(s: State, op: nat, ok: bool, at: string, rebuild: SP.Rebuild, s': State, subject: string, i: nat)
    requires subject in s.lk.logs && SP.Open(s.lk, subject) && TakeRegisterNext(s, op, ok, at, rebuild) == Some(s') && Live(s', subject, i)
    ensures Live(s, subject, i)
  {
  }

  /** An admin handler other than the registration's first half makes no registration live. */
  lemma AdminRevivesNone(s: State, step: AdminStep, s': State, subject: string, i: nat)
    requires AdminNext(s, step) == Some(s') && !step.TakeRegister? && Live(s', subject, i)
    ensures Live(s, subject, i)
  {
  }

  lemma AdminKeepsFacts(s: State, step: AdminStep, s': State, subject: string)
    requires AdminNext(s, step) == Some(s') && !step.TakeRegister?
    ensures s'.gw.kv == s.gw.kv && (subject in s.lk.logs ==> subject in s'.lk.logs)
  {
  }

  lemma AdminStuck(s: State, step: AdminStep, s': State, subject: string)
    requires Stuck(s, subject) && SP.Open(s.lk, subject) && AdminNext(s, step) == Some(s')
    ensures Stuck(s', subject)
  {
    if step.TakeRegister? {
      TakeRegisterStuck(s, step.op, step.ok, step.at, step.rebuild, s', subject);
    } else {
      AdminKeepsFacts(s, step, s', subject);
      forall i: nat | Live(s', subject, i) ensures false {
        AdminRevivesNone(s, step, s', subject, i);
      }
    }
  }

  lemma WorkQuiet(s: State, step: WorkStep, s': State)
    requires WorkNext(s, step) == Some(s')
    ensures s'.gw == s.gw && s'.replying == s.replying && s'.lk.jobs.registrar == s.lk.jobs.registrar
    ensures SP.Grows(s.lk, s'.lk)
  {
  }

  /** The queue, the worker, a crash and a restart start no registration and answer none. */
  lemma QuietStep(s: State, step: Step, s': State)
    requires !step.Gw? && !step.Admin? && Next(s, step) == Some(s')
    ensures s'.gw.ops == s.gw.ops && s'.gw.kv == s.gw.kv && SP.Grows(s.lk, s'.lk)
    ensures forall i :: Underway(s', i) ==> Underway(s, i)
  {
    match step
    case Work(w) => WorkQuiet(s, w, s');
    case Restart(reopened, rebuilds) => SP.StepGrows(s.lk, SP.Restart(reopened, rebuilds), s'.lk);
    case _ =>
  }

  lemma StepStuck(s: State, step: Step, s': State, subject: string)
    requires SP.Open(s.lk, subject) && Ordered(s.gw, s.lk, s.replying) && Stuck(s, subject) && Next(s, step) == Some(s')
    ensures Stuck(s', subject)
  {
    match step
    case Gw(g) => GwStuck(s, g, s'.gw, subject);
    case Admin(a) => AdminStuck(s, a, s', subject);
    case _ =>
      QuietStep(s, step, s');
      forall i ensures !Live(s', subject, i) {
        assert !Live(s, subject, i);
      }
  }

  lemma {:induction false} RunStuck(s: State, steps: seq<Step>, subject: string)
    requires Laws() && Base(s) && SP.Open(s.lk, subject) && Stuck(s, subject)
    requires ReopeningRun(s, steps, subject) && Run(s, steps).Some?
    ensures var s' := Run(s, steps).value; Base(s') && SP.Open(s'.lk, subject) && Stuck(s', subject)
  {
    if steps != [] {
      var mid := Run(s, steps[..|steps| - 1]).value;
      RunStuck(s, steps[..|steps| - 1], subject);
      BaseStep(mid, steps[|steps| - 1], Run(s, steps).value);
      LockerOpen(mid, steps[|steps| - 1], Run(s, steps).value, subject);
      StepStuck(mid, steps[|steps| - 1], Run(s, steps).value, subject);
    }
  }

  // ---- A live registration can be completed ----

  lemma {:induction false} Prepend(s: State, step: Step, s1: State, steps: seq<Step>, subject: string)
    requires Next(s, step) == Some(s1) && Reopens(s, step, subject) && ReopeningRun(s1, steps, subject) && Run(s1, steps).Some?
    ensures ReopeningRun(s, [step] + steps, subject) && Run(s, [step] + steps) == Run(s1, steps)
  {
    var all := [step] + steps;
    if steps == [] {
      assert all == [step] && all[..0] == [];
      assert Run(s, all[..|all| - 1]) == Some(s);
    } else {
      assert all[..|all| - 1] == [step] + steps[..|steps| - 1];
      Prepend(s, step, s1, steps[..|steps| - 1], subject);
    }
  }

  lemma OneStep(s: State, step: Step, s1: State, subject: string)
    requires Next(s, step) == Some(s1) && Reopens(s, step, subject) && CanComplete(s1, subject)
    ensures CanComplete(s, subject)
  {
    var steps :| ReopeningRun(s1, steps, subject) && Run(s1, steps).Some? && subject in Run(s1, steps).value.gw.kv.entries;
    Prepend(s, step, s1, steps, subject);
    assert ReopeningRun(s, [step] + steps, subject);
  }

  lemma FromRead(s: State, subject: string, i: nat)
    requires Live(s, subject, i) && s.gw.ops[i].pc == Read(None) && subject !in s.gw.kv.entries
    ensures CanComplete(s, subject)
  {
    var s1 := Next(s, Gw(WriteTrust(i))).value;
    assert ReopeningRun(s1, [], subject) && Run(s1, []) == Some(s1) && subject in s1.gw.kv.entries;
    OneStep(s, Gw(WriteTrust(i)), s1, subject);
  }

  lemma FromReplied(s: State, subject: string, i: nat)
    requires Live(s, subject, i) && s.gw.ops[i].pc == Replied && subject !in s.gw.kv.entries
    ensures CanComplete(s, subject)
  {
    var s1 := Next(s, Gw(ReadTrust(i))).value;
    FromRead(s1, subject, i);
    OneStep(s, Gw(ReadTrust(i)), s1, subject);
  }

  lemma FromReplying(s: State, subject: string, i: nat)
    requires Live(s, subject, i) && Waiting(s.gw.ops[i].pc) && s.replying == Some(i) && subject !in s.gw.kv.entries
    ensures CanComplete(s, subject)
    decreases s.gw.ops[i].pc == New
  {
    if s.gw.ops[i].pc == New {
      var s1 := Next(s, Gw(SendRegister(i))).value;
      FromReplying(s1, subject, i);
      OneStep(s, Gw(SendRegister(i)), s1, subject);
    } else {
      var s1 := Next(s, Admin(Reply)).value;
      FromReplied(s1, subject, i);
      OneStep(s, Admin(Reply), s1, subject);
    }
  }

  lemma FromAppended(s: State, subject: string, i: nat)
    requires SP.JobsFit(s.lk) && Live(s, subject, i) && Waiting(s.gw.ops[i].pc) && subject !in s.gw.kv.entries
    requires s.lk.jobs.registrar.Appended? && s.lk.jobs.registrar.entry.from == SP.Registration(i)
    ensures CanComplete(s, subject)
  {
    assert SP.JobFits(s.lk, SP.Registrar);
    var s1 := Next(s, Admin(RegistrarIndex)).value;
    FromReplying(s1, subject, i);
    OneStep(s, Admin(RegistrarIndex), s1, subject);
  }

  lemma FromReady(s: State, subject: string, i: nat)
    requires SP.JobsFit(s.lk) && Live(s, subject, i) && Waiting(s.gw.ops[i].pc) && subject !in s.gw.kv.entries
    requires s.lk.jobs.registrar.Ready? && s.lk.jobs.registrar.entry.from == SP.Registration(i)
    ensures CanComplete(s, subject)
  {
    var s1 := Next(s, Admin(RegistrarAppend(true))).value;
    SP.JobsFitStep(s.lk, SP.Append(SP.Registrar), s1.lk);
    FromAppended(s1, subject, i);
    OneStep(s, Admin(RegistrarAppend(true)), s1, subject);
  }

  lemma LiveCompletes(s: State, subject: string, i: nat)
    requires SP.JobsFit(s.lk) && Live(s, subject, i) && subject !in s.gw.kv.entries
    ensures CanComplete(s, subject)
  {
    var pc := s.gw.ops[i].pc;
    if pc == Replied {
      FromReplied(s, subject, i);
    } else if pc == Read(None) {
      FromRead(s, subject, i);
    } else if s.replying == Some(i) {
      FromReplying(s, subject, i);
    } else if s.lk.jobs.registrar.Appended? {
      FromAppended(s, subject, i);
    } else {
      FromReady(s, subject, i);
    }
  }

  lemma {:induction false} RunOpen(cfg: Registry, steps: seq<Step>, subject: string)
    requires Laws() && ReopeningRun(Init(cfg), steps, subject) && Run(Init(cfg), steps).Some?
    ensures var s := Run(Init(cfg), steps).value; Base(s) && SP.Open(s.lk, subject)
  {
    if steps != [] {
      var mid := Run(Init(cfg), steps[..|steps| - 1]).value;
      RunOpen(cfg, steps[..|steps| - 1], subject);
      BaseStep(mid, steps[|steps| - 1], Run(Init(cfg), steps).value);
      LockerOpen(mid, steps[|steps| - 1], Run(Init(cfg), steps).value, subject);
    }
  }

  /** A stuck subject stays so while restarts open its ledger again. */
  lemma StuckForGood(s: State, subject: string)
    requires Laws() && Base(s) && SP.Open(s.lk, subject) && Stuck(s, subject)
    ensures !CanComplete(s, subject)
  {
    forall more | ReopeningRun(s, more, subject) && Run(s, more).Some? ensures subject !in Run(s, more).value.gw.kv.entries {
      RunStuck(s, more, subject);
    }
  }

  /**
   * In every state that a run reaches whose restarts open the subject's ledger again, whatever their
   * rebuilds read, a subject that has a ledger but no trust list can still get one exactly when some
   * registration of it is past the refusal with its caller still listening. So a caller that times
   * out, or a locker that crashes before it answers, leaves a subject that no later request can complete.
   */
  lemma CompletesIffLive(cfg: Registry, steps: seq<Step>, subject: string)
    requires Laws() && ReopeningRun(Init(cfg), steps, subject) && Run(Init(cfg), steps).Some?
    requires var s := Run(Init(cfg), steps).value; subject in s.lk.logs && subject !in s.gw.kv.entries
    ensures var s := Run(Init(cfg), steps).value;
            CanComplete(s, subject) <==> exists i :: Live(s, subject, i)
  {
    RunOpen(cfg, steps, subject);
    var s := Run(Init(cfg), steps).value;
    if i :| Live(s, subject, i) {
      LiveCompletes(s, subject, i);
    } else {
      StuckForGood(s, subject);
    }
  }

  lemma GiveUpStrands(s: State, subject: string, i: nat)
    requires subject in s.lk.logs && subject !in s.gw.kv.entries
    requires Live(s, subject, i) && forall j :: Live(s, subject, j) ==> j == i
    ensures Next(s, Gw(GiveUp(i))).Some? && Stuck(Next(s, Gw(GiveUp(i))).value, subject)
  {
    var s' := Next(s, Gw(GiveUp(i))).value;
    forall j ensures !Live(s', subject, j) {
      assert Live(s, subject, j) ==> j == i;
    }
  }

  /**
   * The caller's timeout is enough: giving up on the one live registration leaves the subject without
   * a trust list in every continuation whose restarts open its ledger again.
   */
  lemma TimeoutStrands(cfg: Registry, steps: seq<Step>, subject: string, i: nat)
    requires Laws() && ReopeningRun(Init(cfg), steps, subject) && Run(Init(cfg), steps).Some?
    requires var s := Run(Init(cfg), steps).value;
             && subject in s.lk.logs && subject !in s.gw.kv.entries
             && Live(s, subject, i) && forall j :: Live(s, subject, j) ==> j == i
    ensures var s := Run(Init(cfg), steps).value;
            && Next(s, Gw(GiveUp(i))).Some?
            && Stuck(Next(s, Gw(GiveUp(i))).value, subject) && !CanComplete(Next(s, Gw(GiveUp(i))).value, subject)
  {
    RunOpen(cfg, steps, subject);
    var s := Run(Init(cfg), steps).value;
    GiveUpStrands(s, subject, i);
    BaseStep(s, Gw(GiveUp(i)), Next(s, Gw(GiveUp(i))).value);
    StuckForGood(Next(s, Gw(GiveUp(i))).value, subject);
  }

  // ---- A closed ledger ----

  /** A new registration of a subject whose ledger is not open gets under way, whatever the ledger holds. */
  lemma TakesClosed(s: State, op: nat, at: string)
    requires s.lk.up && s.replying == None && s.lk.jobs.registrar == SP.Idle && SP.JobsFit(s.lk)
    requires op < |s.gw.ops| && op in s.gw.inbox && s.gw.ops[op].kind == Register && s.gw.ops[op].pc == Sent
    requires s.gw.ops[op].subject !in s.lk.index && RegistrationReceipt(s.gw.ops[op].subject, s.gw.ops[op].caller, at).Some?
    ensures var s' := Next(s, Admin(TakeRegister(op, true, at, SP.Rebuild(0, []))));
            s'.Some? && Live(s'.value, s.gw.ops[op].subject, op) && SP.JobsFit(s'.value.lk) && s'.value.gw.kv == s.gw.kv
  {
    var subject := s.gw.ops[op].subject;
    var create := SP.Create(subject, SP.Rebuild(0, []));
    var mid := SP.Next(s.lk, create).value;
    SP.JobsFitStep(s.lk, create, mid);
    var e := SP.Entry(RegistrationReceipt(subject, s.gw.ops[op].caller, at).value, SP.Registration(op));
    SP.JobsFitStep(mid, SP.Begin(SP.Registrar, subject, e), SP.Next(mid, SP.Begin(SP.Registrar, subject, e)).value);
  }

  /**
   * So "for good" takes restarts that reopen: where one has left a subject's ledger closed, a new
   * registration is not refused and completes.
   */
  lemma ClosedCompletes(s: State, subject: string, list: TrustList, caller: Publisher, at: string)
    requires s.lk.up && s.replying == None && s.lk.jobs.registrar == SP.Idle && SP.JobsFit(s.lk)
    requires subject !in s.lk.index && subject !in s.gw.kv.entries
    requires ValidSubjectID(subject) && list != [] && EntriesValid(s.gw.cfg, list) && RegistrationReceipt(subject, caller, at).Some?
    ensures CanComplete(s, subject)
  {
    var op := |s.gw.ops|;
    var s1 := Next(s, Gw(BeginRegister(subject, list, caller))).value;
    var s2 := Next(s1, Gw(SendRegister(op))).value;
    TakesClosed(s2, op, at);
    var take := Admin(TakeRegister(op, true, at, SP.Rebuild(0, [])));
    LiveCompletes(Next(s2, take).value, subject, op);
    OneStep(s2, take, Next(s2, take).value, subject);
    OneStep(s1, Gw(SendRegister(op)), s2, subject);
    OneStep(s, Gw(BeginRegister(subject, list, caller)), s1, subject);
  }
}
