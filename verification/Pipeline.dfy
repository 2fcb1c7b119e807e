/**
 * The whole evidence pipeline as one step machine: gateway requests, the trust bucket and subject
 * registry, admin request-reply, the ingest work queue, the worker and the sealing goroutines of
 * the locker, and the sealed events. Any step may be taken whenever it is enabled, so every
 * interleaving, timeout, lost reply, lost acknowledgement, redelivery and crash is a run.
 */
module Pipeline {
  import opened Wrappers
  import opened Digests
  import opened Receipts
  import opened StorageRef
  import opened TrustKv
  import opened Authn
  import opened Authz
  import SP = SealProtocol

  // ---- Gateway ----

  /** An authorised submission. `authAt` counts the trust writes made before it was authorised. */
  datatype IngestRef = IngestRef(subject: string, receipt: Bytes, contentDigest: string, publisher: Publisher, authAt: nat)

  datatype OpKind = Register | Modify

  /** Where an admin request has got to; `Failed` also stands for a caller that gave up waiting. */
  datatype OpPc = New | Sent | Replied | Read(rev: Option<nat>) | Written | Finished | Failed

  datatype Op = Op(kind: OpKind, subject: string, list: TrustList, caller: Publisher, pc: OpPc)

  datatype Gateway = Gateway(cfg: Registry, kv: Kv, registry: set<string>, ops: seq<Op>, inbox: set<nat>, authorised: seq<IngestRef>)

  datatype GwStep =
    | Authorise(keys: set<string>, tok: Token, subject: string, body: Bytes, artifactType: string, at: string)
    | BeginRegister(subject: string, list: TrustList, caller: Publisher)
    | BeginModify(subject: string, list: TrustList, caller: Publisher)
    | SendRegister(op: nat)
    | ReadTrust(op: nat)
    | WriteTrust(op: nat)
    | PutRegistry(op: nat)
    | SendSeal(op: nat)
    | GiveUp(op: nat)
    | DropRequest(op: nat)

  /** The request passes authentication, the middleware and the handler's own subject check. */
  ghost predicate Admitted(gw: Gateway, keys: set<string>, tok: Token, subject: string) {
    && ValidSubjectID(subject)
    && var p := Authenticate(gw.cfg.(staticKeys := keys), tok);
       p.Some? &&
       Middleware(BasePolicies(), p.value, Some(PublishArtifact), subject,
                  s => Some(Publisher(tok.iss, tok.sub) in CurrentList(gw.kv, s)),
                  "complytime-admin", "complytime-auditor") == Pass
  }

  predicate EntriesValid(cfg: Registry, list: TrustList) {
    forall i :: 0 <= i < |list| ==> ValidTrustEntry(cfg, list[i].issuer, list[i].sub)
  }

  function SetPc(gw: Gateway, op: nat, pc: OpPc): Gateway
    requires op < |gw.ops|
  {
    gw.(ops := gw.ops[op := gw.ops[op].(pc := pc)])
  }

  ghost function GwNext(gw: Gateway, step: GwStep): Option<Gateway> {
    match step
    case Authorise(keys, tok, subject, body, artifactType, at) =>
      var p := Publisher(tok.iss, tok.sub);
      var receipt := Wrap(body, p, subject, artifactType, at);
      if Admitted(gw, keys, tok, subject) && receipt.Some? then
        Some(gw.(authorised := gw.authorised + [IngestRef(subject, receipt.value, Digest(body), p, |gw.kv.writes|)]))
      else None
    case BeginRegister(subject, list, caller) =>
      if ValidSubjectID(subject) && list != [] && EntriesValid(gw.cfg, list) then
        Some(gw.(ops := gw.ops + [Op(Register, subject, list, caller, New)]))
      else None
    case BeginModify(subject, list, caller) =>
      if ValidSubjectID(subject) && subject in gw.registry && EntriesValid(gw.cfg, list) then
        Some(gw.(ops := gw.ops + [Op(Modify, subject, list, caller, New)]))
      else None
    case SendRegister(op) =>
      if op < |gw.ops| && gw.ops[op].kind == Register && gw.ops[op].pc == New then
        Some(SetPc(gw, op, Sent).(inbox := gw.inbox + {op}))
      else None
    case ReadTrust(op) =>
      if op < |gw.ops| && gw.ops[op].pc == (if gw.ops[op].kind == Register then Replied else New) then
        Some(SetPc(gw, op, Read(Revision(gw.kv, gw.ops[op].subject))))
      else None
    case WriteTrust(op) =>
      if op < |gw.ops| && gw.ops[op].pc.Read? then
        match Commit(gw.kv, Write(gw.ops[op].subject, gw.ops[op].list, gw.ops[op].pc.rev, op))
        case Some(kv) => Some(SetPc(gw, op, Written).(kv := kv))
        case None => Some(SetPc(gw, op, Failed))
      else None
    case PutRegistry(op) =>
      if op < |gw.ops| && gw.ops[op].kind == Register && gw.ops[op].pc == Written then
        Some(SetPc(gw, op, Finished).(registry := gw.registry + {gw.ops[op].subject}))
      else None
    case SendSeal(op) =>
      if op < |gw.ops| && gw.ops[op].kind == Modify && gw.ops[op].pc == Written then
        Some(SetPc(gw, op, Sent).(inbox := gw.inbox + {op}))
      else None
    case GiveUp(op) =>
      if op < |gw.ops| then Some(SetPc(gw, op, Failed)) else None
    case DropRequest(op) =>
      Some(gw.(inbox := gw.inbox - {op}))
  }

  // ---- Queue, worker, events ----

  /** Deliveries the consumer makes of one message before it gives up. */
  const MAX_DELIVER := 5

  datatype Status = Pending | Outstanding | Acked | Termed | Exhausted | AgedOut

  datatype Msg = Msg(ref: IngestRef, deliveries: nat, status: Status)

  datatype WorkerPc =
    | WIdle
    | WGot(m: nat)
    | WSealing(m: nat)
    | WSealed(m: nat, at: nat)
    | WDone(m: nat)
    | WFailed(m: nat, permanent: bool)

  datatype SealedEvent = SealedEvent(subject: string, contentDigest: string, receiptDigest: string, logIndex: nat, storageRef: string)

  /** `replying` is the registration the locker has sealed but not yet answered. */
  datatype State = State(gw: Gateway, queue: seq<Msg>, worker: WorkerPc, replying: Option<nat>, lk: SP.State, events: seq<SealedEvent>)

  /** What happens to messages without the worker: arrival, redelivery timer, age limit. */
  datatype BusStep = Publish(i: nat) | Expire(m: nat) | AgeOut(m: nat)

  /** The worker's moves from one fetch to the next. */
  datatype WorkStep = Deliver(m: nat) | Check | Append(ok: bool) | Index | Emit(ok: bool) | Settle(heard: bool)

  /** The two admin subscriptions of the locker. */
  datatype AdminStep =
    | TakeRegister(op: nat, ok: bool, at: string, rebuild: SP.Rebuild)
    | RegistrarAppend(ok: bool)
    | RegistrarIndex
    | Reply
    | TakeSeal(op: nat, at: string)
    | SealerAppend(ok: bool)
    | SealerIndex

  datatype Step =
    | Gw(g: GwStep)
    | Bus(b: BusStep)
    | Work(w: WorkStep)
    | Admin(a: AdminStep)
    | Crash
    | Restart(reopened: set<string>, rebuilds: map<string, SP.Rebuild>)

  function SetStatus(s: State, m: nat, status: Status): State
    requires m < |s.queue|
  {
    s.(queue := s.queue[m := s.queue[m].(status := status)])
  }

  /** Back to the queue, unless the deliveries are used up. */
  function Requeued(msg: Msg): Status {
    if msg.deliveries < MAX_DELIVER then Pending else Exhausted
  }

  predicate InStream(status: Status) {
    status == Pending || status == Outstanding || status == Exhausted
  }

  /** The error reply to a registration that the locker refused; unheard if the gateway gave up. */
  function Refuse(s: State, op: nat): State {
    if op < |s.gw.ops| && s.gw.ops[op].pc == Sent then s.(gw := SetPc(s.gw, op, Failed)) else s
  }

  function EventFor(ref: IngestRef, at: nat): SealedEvent {
    SealedEvent(ref.subject, ref.contentDigest, Digest(ref.receipt), at, Format(ref.subject, at))
  }

  /** Runs one sealing step inside the locker and applies the rest of the pipeline step to it. */
  function InLocker(s: State, step: SP.Step): Option<State> {
    match SP.Next(s.lk, step)
    case Some(lk) => Some(s.(lk := lk))
    case None => None
  }

  /** What the worker makes of the message it holds: ledger lookup, then the duplicate check. */
  function CheckNext(s: State): Option<State> {
    if !s.worker.WGot? || s.worker.m >= |s.queue| || !s.lk.up then None
    else
      var m, ref := s.worker.m, s.queue[s.worker.m].ref;
      if ref.subject !in s.lk.index then
        Some(s.(worker := WFailed(m, true)))
      else if Digest(ref.receipt) in s.lk.index[ref.subject] then
        Some(s.(worker := WDone(m)))
      else
        match InLocker(s, SP.Begin(SP.Worker, ref.subject, SP.Entry(ref.receipt, SP.FromWorker(m))))
        case Some(s') => Some(s'.(worker := WSealing(m)))
        case None => None
  }

  /** Acknowledge, terminate or give back the message; the server may not hear it. */
  function SettleNext(s: State, heard: bool): Option<State> {
    if !(s.worker.WDone? || s.worker.WFailed?) || s.worker.m >= |s.queue| then None
    else
      var msg := s.queue[s.worker.m];
      var live := heard && (msg.status == Outstanding || msg.status == Pending);
      var status :=
        if !live then msg.status
        else if s.worker.WDone? then Acked
        else if s.worker.permanent then Termed
        else if msg.status == Outstanding then Requeued(msg)
        else msg.status;
      Some(SetStatus(s, s.worker.m, status).(worker := WIdle))
  }

  /** What a registration receipt says. */
  function RegistrationJson(subject: string, caller: Publisher): Json {
    Obj(map["subjectId" := Str(subject), "registrantIssuer" := Str(caller.issuer), "registrantSub" := Str(caller.sub)])
  }

  function RegistrationReceipt(subject: string, caller: Publisher, at: string): Option<Bytes> {
    Wrap(MarshalJson(RegistrationJson(subject, caller)), caller, subject, "subject-registration", at)
  }

  function PublishersJson(list: TrustList): seq<Json> {
    if list == [] then []
    else
      var last := list[|list| - 1];
      PublishersJson(list[..|list| - 1]) + [Obj(map["issuer" := Str(last.issuer), "sub" := Str(last.sub)])]
  }

  /** What a trust receipt says. */
  function TrustJson(subject: string, list: TrustList, caller: Publisher): Json {
    Obj(map["subjectId" := Str(subject), "trustedPublishers" := Arr(PublishersJson(list)),
            "operatorIssuer" := Str(caller.issuer), "operatorSub" := Str(caller.sub)])
  }

  function TrustReceipt(subject: string, list: TrustList, caller: Publisher, at: string): Option<Bytes> {
    Wrap(MarshalJson(TrustJson(subject, list, caller)), caller, subject, "trust-modification", at)
  }

  /** The registration handler up to the point where it starts to seal. */
  function TakeRegisterNext(s: State, op: nat, ok: bool, at: string, rebuild: SP.Rebuild): Option<State> {
    if !s.lk.up || s.replying.Some? || s.lk.jobs.registrar != SP.Idle || op !in s.gw.inbox
       || op >= |s.gw.ops| || s.gw.ops[op].kind != Register then None
    else
      var subject := s.gw.ops[op].subject;
      var taken := s.(gw := s.gw.(inbox := s.gw.inbox - {op}));
      if subject in s.lk.index || !ok then
        Some(Refuse(taken, op))
      else
        match (InLocker(taken, SP.Create(subject, rebuild)), RegistrationReceipt(subject, s.gw.ops[op].caller, at))
        case (Some(s1), Some(bytes)) => InLocker(s1, SP.Begin(SP.Registrar, subject, SP.Entry(bytes, SP.Registration(op))))
        case (Some(s1), None) => Some(Refuse(s1, op))
        case (None, _) => None
  }

  /** The trust-receipt handler up to the point where it starts to seal. */
  function TakeSealNext(s: State, op: nat, at: string): Option<State> {
    if !s.lk.up || s.lk.jobs.sealer != SP.Idle || op !in s.gw.inbox
       || op >= |s.gw.ops| || s.gw.ops[op].kind != Modify then None
    else
      var subject := s.gw.ops[op].subject;
      var taken := s.(gw := s.gw.(inbox := s.gw.inbox - {op}));
      var receipt := TrustReceipt(subject, s.gw.ops[op].list, s.gw.ops[op].caller, at);
      if subject !in s.lk.index || receipt.None? then Some(taken)
      else InLocker(taken, SP.Begin(SP.Sealer, subject, SP.Entry(receipt.value, SP.TrustChange(op))))
  }

  function BusNext(s: State, step: BusStep): Option<State> {
    match step
    case Publish(i) =>
      if i < |s.gw.authorised| then Some(s.(queue := s.queue + [Msg(s.gw.authorised[i], 0, Pending)])) else None
    case Expire(m) =>
      if m < |s.queue| && s.queue[m].status == Outstanding then Some(SetStatus(s, m, Requeued(s.queue[m]))) else None
    case AgeOut(m) =>
      if m < |s.queue| && InStream(s.queue[m].status) then Some(SetStatus(s, m, AgedOut)) else None
  }

  function WorkNext(s: State, step: WorkStep): Option<State> {
    match step
    case Deliver(m) =>
      if s.lk.up && s.worker == WIdle && m < |s.queue| && s.queue[m].status == Pending && s.queue[m].deliveries < MAX_DELIVER
      then Some(s.(queue := s.queue[m := Msg(s.queue[m].ref, s.queue[m].deliveries + 1, Outstanding)], worker := WGot(m)))
      else None
    case Check => CheckNext(s)
    case Append(ok) =>
      if !s.worker.WSealing? then None
      else if ok then InLocker(s, SP.Append(SP.Worker))
      else
        (match InLocker(s, SP.Abort(SP.Worker))
         case Some(s') => Some(s'.(worker := WFailed(s.worker.m, false)))
         case None => None)
    case Index =>
      if !s.worker.WSealing? || !s.lk.jobs.worker.Appended? then None
      else
        (match InLocker(s, SP.WriteIndex(SP.Worker))
         case Some(s') => Some(s'.(worker := WSealed(s.worker.m, s.lk.jobs.worker.at)))
         case None => None)
    case Emit(ok) =>
      if !s.worker.WSealed? || s.worker.m >= |s.queue| then None
      else Some(s.(worker := WDone(s.worker.m),
                   events := if ok then s.events + [EventFor(s.queue[s.worker.m].ref, s.worker.at)] else s.events))
    case Settle(heard) => SettleNext(s, heard)
  }

  function AdminNext(s: State, step: AdminStep): Option<State> {
    match step
    case TakeRegister(op, ok, at, rebuild) => TakeRegisterNext(s, op, ok, at, rebuild)
    case RegistrarAppend(ok) =>
      if !s.lk.jobs.registrar.Ready? then None
      else if ok then InLocker(s, SP.Append(SP.Registrar))
      else
        (match InLocker(s, SP.Abort(SP.Registrar))
         case Some(s') =>
           Some(if s.lk.jobs.registrar.entry.from.Registration? then Refuse(s', s.lk.jobs.registrar.entry.from.op) else s')
         case None => None)
    case RegistrarIndex =>
      if !s.lk.jobs.registrar.Appended? || !s.lk.jobs.registrar.entry.from.Registration? then None
      else
        (match InLocker(s, SP.WriteIndex(SP.Registrar))
         case Some(s') => Some(s'.(replying := Some(s.lk.jobs.registrar.entry.from.op)))
         case None => None)
    case Reply =>
      if s.replying.None? then None
      else
        var op := s.replying.value;
        var done := s.(replying := None);
        Some(if op < |s.gw.ops| && s.gw.ops[op].pc == Sent then done.(gw := SetPc(s.gw, op, Replied)) else done)
    case TakeSeal(op, at) => TakeSealNext(s, op, at)
    case SealerAppend(ok) => InLocker(s, if ok then SP.Append(SP.Sealer) else SP.Abort(SP.Sealer))
    case SealerIndex => InLocker(s, SP.WriteIndex(SP.Sealer))
  }

  /** One step of the pipeline, or nothing when it is not enabled. */
  ghost function Next(s: State, step: Step): Option<State> {
    match step
    case Gw(g) =>
      (match GwNext(s.gw, g)
       case Some(gw) => Some(s.(gw := gw))
       case None => None)
    case Bus(b) => BusNext(s, b)
    case Work(w) => WorkNext(s, w)
    case Admin(a) => AdminNext(s, a)
    case Crash =>
      (match InLocker(s, SP.Crash)
       case Some(s') => Some(s'.(worker := WIdle, replying := None, gw := s.gw.(inbox := {})))
       case None => None)
    case Restart(reopened, rebuilds) => InLocker(s, SP.Restart(reopened, rebuilds))
  }

  /** A restart opens this subject's ledger again, if it has one. */
  predicate Reopens(s: State, step: Step, subject: string) {
    step.Restart? ==> SP.Reopens(s.lk, SP.Restart(step.reopened, step.rebuilds), subject)
  }

  /** Wherever this subject's ledger is opened, its rebuild succeeds over entries that fit their bundles. */
  predicate Clean(s: State, step: Step, subject: string) {
    match step
    case Admin(TakeRegister(op, ok, at, rebuild)) =>
      ok && op < |s.gw.ops| && s.gw.ops[op].subject == subject && subject !in s.lk.index ==>
        SP.Clean(s.lk, SP.Create(subject, rebuild), subject)
    case Restart(reopened, rebuilds) => SP.Clean(s.lk, SP.Restart(reopened, rebuilds), subject)
    case _ => true
  }

  function Init(cfg: Registry): State {
    State(Gateway(cfg, EMPTY, {}, [], {}, []), [], WIdle, None, SP.INIT, [])
  }

  ghost function Run(s: State, steps: seq<Step>): Option<State> {
    if steps == [] then Some(s)
    else
      match Run(s, steps[..|steps| - 1])
      case Some(mid) => Next(mid, steps[|steps| - 1])
      case None => None
  }

  lemma Step1(s: State, step: Step)
    requires Next(s, step).Some?
    ensures Run(s, [step]) == Next(s, step)
  {
    assert [step][..0] == [];
    assert Run(s, [step][..|[step]| - 1]) == Some(s);
  }

  lemma Then(s: State, steps: seq<Step>, step: Step)
    requires Run(s, steps).Some?
    ensures Run(s, steps + [step]) == Next(Run(s, steps).value, step)
  {
    assert (steps + [step])[..|steps|] == steps;
  }

  /** Runs without a restart. */
  ghost predicate Unbroken(steps: seq<Step>) {
    forall i :: 0 <= i < |steps| ==> !steps[i].Restart?
  }

  /** Every restart opens this subject's ledger again. */
  ghost predicate ReopeningRun(s: State, steps: seq<Step>, subject: string) {
    steps == [] ||
    match Run(s, steps[..|steps| - 1])
    case Some(mid) => ReopeningRun(s, steps[..|steps| - 1], subject) && Reopens(mid, steps[|steps| - 1], subject)
    case None => true
  }

  /** Every opening of this subject's ledger is clean. */
  ghost predicate CleanRun(s: State, steps: seq<Step>, subject: string) {
    steps == [] ||
    match Run(s, steps[..|steps| - 1])
    case Some(mid) => CleanRun(s, steps[..|steps| - 1], subject) && Clean(mid, steps[|steps| - 1], subject)
    case None => true
  }
}
