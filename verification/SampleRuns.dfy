/** Runs from the initial state, step by step: where each of the pipeline's weak spots shows. */
module SampleRuns {
  import opened Wrappers
  import opened Digests
  import opened DigestIndex
  import opened StorageRef
  import opened Receipts
  import opened TrustKv
  import opened Authn
  import opened Authz
  import opened Pipeline
  import opened RegistrationProgress
  import opened Announcements
  import SP = SealProtocol

  lemma {:induction false} UnbrokenReopens(s: State, steps: seq<Step>, subject: string)
    requires Unbroken(steps)
    ensures ReopeningRun(s, steps, subject)
  {
    if steps != [] {
      UnbrokenReopens(s, steps[..|steps| - 1], subject);
    }
  }

  // ---- Registration ----

  /** While one registration is under way and nothing else has happened. */
  function Registering(cfg: Registry, op: Op, inbox: set<nat>, replying: Option<nat>, lk: SP.State): State {
    State(Gateway(cfg, EMPTY, {}, [op], inbox, []), [], WIdle, replying, lk, [])
  }

  function Sealing(subject: string, log: seq<SP.Entry>, index: Index, registrar: SP.Job): SP.State {
    SP.State(map[subject := log], true, map[subject := index], SP.Jobs(SP.Idle, registrar, SP.Idle))
  }

  lemma Asks(cfg: Registry, subject: string, list: TrustList, caller: Publisher) returns (steps: seq<Step>)
    requires ValidSubjectID(subject) && list != [] && EntriesValid(cfg, list)
    ensures Run(Init(cfg), steps) == Some(Registering(cfg, Op(Register, subject, list, caller, Sent), {0}, None, SP.INIT)) && Unbroken(steps)
  {
    var begin := Gw(BeginRegister(subject, list, caller));
    Step1(Init(cfg), begin);
    var op := Op(Register, subject, list, caller, New);
    var s1 := Registering(cfg, op, {}, None, SP.INIT);
    assert [] + [op] == [op];
    assert Next(Init(cfg), begin) == Some(s1);
    Then(Init(cfg), [begin], Gw(SendRegister(0)));
    steps := [begin] + [Gw(SendRegister(0))];
    assert {} + {0} == {0} && [op][0 := op.(pc := Sent)] == [op.(pc := Sent)];
  }

  /** The request is taken and its receipt appended: the ledger is there, and nobody has been told. */
  lemma AsksAndSeals(cfg: Registry, subject: string, list: TrustList, caller: Publisher, at: string, bytes: Bytes)
    returns (steps: seq<Step>)
    requires ValidSubjectID(subject) && list != [] && EntriesValid(cfg, list) && RegistrationReceipt(subject, caller, at) == Some(bytes)
    ensures var e := SP.Entry(bytes, SP.Registration(0));
            Run(Init(cfg), steps) == Some(Registering(cfg, Op(Register, subject, list, caller, Sent), {}, None,
                                                      Sealing(subject, [e], map[], SP.Appended(subject, e, 0))))
    ensures Unbroken(steps)
  {
    var op, e := Op(Register, subject, list, caller, Sent), SP.Entry(bytes, SP.Registration(0));
    steps := Asks(cfg, subject, list, caller);
    var s2 := Registering(cfg, op, {0}, None, SP.INIT);
    var take := Admin(TakeRegister(0, true, at, SP.Rebuild(0, [])));
    var s3 := Registering(cfg, op, {}, None, Sealing(subject, [], map[], SP.Ready(subject, e)));
    Then(Init(cfg), steps, take);
    Takes(cfg, op, subject, caller, at, bytes);
    steps := steps + [take];
    Then(Init(cfg), steps, Admin(RegistrarAppend(true)));
    steps := steps + [Admin(RegistrarAppend(true))];
    assert [] + [e] == [e];
    assert s3.lk.logs[subject := [e]] == map[subject := [e]];
  }

  lemma Takes(cfg: Registry, op: Op, subject: string, caller: Publisher, at: string, bytes: Bytes)
    requires op.kind == Register && op.subject == subject && op.caller == caller && RegistrationReceipt(subject, caller, at) == Some(bytes)
    ensures var e := SP.Entry(bytes, SP.Registration(0));
            Next(Registering(cfg, op, {0}, None, SP.INIT), Admin(TakeRegister(0, true, at, SP.Rebuild(0, []))))
            == Some(Registering(cfg, op, {}, None, Sealing(subject, [], map[], SP.Ready(subject, e))))
  {
    var r := SP.Rebuild(0, []);
    assert SP.LogOf(SP.INIT, subject) == [] && SP.Reads([], r);
    var mid := SP.Next(SP.INIT, SP.Create(subject, r)).value;
    assert mid.logs == map[subject := []] && mid.index == map[subject := map[]];
    assert {0} - {0} == {};
  }

  /**
   * A subject stranded for good: the locker has sealed its registration when the caller stops waiting,
   * and no continuation whose restarts open its ledger again gives it a trust list.
   */
  lemma StuckRun(cfg: Registry, subject: string, list: TrustList, caller: Publisher, at: string, bytes: Bytes)
    returns (steps: seq<Step>)
    requires Laws() && ValidSubjectID(subject) && list != [] && EntriesValid(cfg, list)
    requires RegistrationReceipt(subject, caller, at) == Some(bytes)
    ensures Unbroken(steps) && Run(Init(cfg), steps).Some? && Stuck(Run(Init(cfg), steps).value, subject)
    ensures !CanComplete(Run(Init(cfg), steps).value, subject)
  {
    steps := AsksAndSeals(cfg, subject, list, caller, at, bytes);
    Then(Init(cfg), steps, Gw(GiveUp(0)));
    steps := steps + [Gw(GiveUp(0))];
    UnbrokenReopens(Init(cfg), steps, subject);
    GivenUp(Run(Init(cfg), steps).value, subject);
    CompletesIffLive(cfg, steps, subject);
  }

  lemma GivenUp(s: State, subject: string)
    requires subject in s.lk.logs && s.gw.kv.entries == map[] && |s.gw.ops| == 1 && s.gw.ops[0].pc == Failed
    ensures Stuck(s, subject)
  {
  }

  /** Once the subject is registered: trust list, registry entry and a ledger with its receipt. */
  function Gateway1(cfg: Registry, subject: string, list: TrustList, caller: Publisher, refs: seq<IngestRef>): Gateway {
    Gateway(cfg, Kv(map[subject := Versioned(list, 1)], [Write(subject, list, None, 0)]), {subject},
            [Op(Register, subject, list, caller, Finished)], {}, refs)
  }

  function Idling(gw: Gateway, queue: seq<Msg>, subject: string, log: seq<SP.Entry>, index: Index): State {
    State(gw, queue, WIdle, None, Sealing(subject, log, index, SP.Idle), [])
  }

  lemma StepIndex(cfg: Registry, op: Op, subject: string, e: SP.Entry)
    requires e.from == SP.Registration(0)
    ensures Next(Registering(cfg, op, {}, None, Sealing(subject, [e], map[], SP.Appended(subject, e, 0))), Admin(RegistrarIndex))
         == Some(Registering(cfg, op, {}, Some(0), Sealing(subject, [e], map[Digest(e.bytes) := 0], SP.Idle)))
  {
    var index: Index := map[Digest(e.bytes) := 0];
    assert map[subject := map[]][subject := index] == map[subject := index];
  }

  lemma StepReply(cfg: Registry, op: Op, lk: SP.State)
    requires op.pc == Sent
    ensures Next(Registering(cfg, op, {}, Some(0), lk), Admin(Reply)) == Some(Registering(cfg, op.(pc := Replied), {}, None, lk))
  {
    assert [op][0 := op.(pc := Replied)] == [op.(pc := Replied)];
  }

  lemma StepRead(cfg: Registry, op: Op, lk: SP.State)
    requires op.kind == Register && op.pc == Replied
    ensures Next(Registering(cfg, op, {}, None, lk), Gw(ReadTrust(0))) == Some(Registering(cfg, op.(pc := Read(None)), {}, None, lk))
  {
    assert [op][0 := op.(pc := Read(None))] == [op.(pc := Read(None))];
  }

  /** Behind the trust write, and behind the registry write. */
  function Written(cfg: Registry, op: Op, registry: set<string>, lk: SP.State): State {
    State(Gateway(cfg, Kv(map[op.subject := Versioned(op.list, 1)], [Write(op.subject, op.list, None, 0)]), registry, [op], {}, []),
          [], WIdle, None, lk, [])
  }

  lemma StepWrite(cfg: Registry, op: Op, lk: SP.State)
    requires op.pc == Read(None)
    ensures Next(Registering(cfg, op, {}, None, lk), Gw(WriteTrust(0))) == Some(Written(cfg, op.(pc := OpPc.Written), {}, lk))
  {
    var w := Write(op.subject, op.list, None, 0);
    assert [] + [w] == [w] && [op][0 := op.(pc := OpPc.Written)] == [op.(pc := OpPc.Written)];
    assert Commit(EMPTY, w) == Some(Kv(map[op.subject := Versioned(op.list, 1)], [w]));
  }

  lemma StepPut(cfg: Registry, op: Op, lk: SP.State)
    requires op.kind == Register && op.pc == OpPc.Written
    ensures Next(Written(cfg, op, {}, lk), Gw(PutRegistry(0))) == Some(Written(cfg, op.(pc := Finished), {op.subject}, lk))
  {
    assert {} + {op.subject} == {op.subject} && [op][0 := op.(pc := Finished)] == [op.(pc := Finished)];
  }

  lemma Answered(cfg: Registry, subject: string, list: TrustList, caller: Publisher, at: string, bytes: Bytes) returns (steps: seq<Step>)
    requires ValidSubjectID(subject) && list != [] && EntriesValid(cfg, list) && RegistrationReceipt(subject, caller, at) == Some(bytes)
    ensures Unbroken(steps)
    ensures var e := SP.Entry(bytes, SP.Registration(0));
            Run(Init(cfg), steps) == Some(Registering(cfg, Op(Register, subject, list, caller, Replied), {}, None,
                                                      Sealing(subject, [e], map[Digest(bytes) := 0], SP.Idle)))
  {
    var op, e := Op(Register, subject, list, caller, Sent), SP.Entry(bytes, SP.Registration(0));
    steps := AsksAndSeals(cfg, subject, list, caller, at, bytes);
    StepIndex(cfg, op, subject, e);
    Then(Init(cfg), steps, Admin(RegistrarIndex));
    steps := steps + [Admin(RegistrarIndex)];
    StepReply(cfg, op, Sealing(subject, [e], map[Digest(bytes) := 0], SP.Idle));
    Then(Init(cfg), steps, Admin(Reply));
    steps := steps + [Admin(Reply)];
  }

  lemma Registers(cfg: Registry, subject: string, list: TrustList, caller: Publisher, at: string, bytes: Bytes) returns (steps: seq<Step>)
    requires ValidSubjectID(subject) && list != [] && EntriesValid(cfg, list) && RegistrationReceipt(subject, caller, at) == Some(bytes)
    ensures Unbroken(steps)
    ensures Run(Init(cfg), steps) == Some(Idling(Gateway1(cfg, subject, list, caller, []), [], subject,
                                                 [SP.Entry(bytes, SP.Registration(0))], map[Digest(bytes) := 0]))
  {
    var op := Op(Register, subject, list, caller, Replied);
    var lk := Sealing(subject, [SP.Entry(bytes, SP.Registration(0))], map[Digest(bytes) := 0], SP.Idle);
    steps := Answered(cfg, subject, list, caller, at, bytes);
    StepRead(cfg, op, lk);
    Then(Init(cfg), steps, Gw(ReadTrust(0)));
    steps := steps + [Gw(ReadTrust(0))];
    StepWrite(cfg, op.(pc := Read(None)), lk);
    Then(Init(cfg), steps, Gw(WriteTrust(0)));
    steps := steps + [Gw(WriteTrust(0))];
    StepPut(cfg, op.(pc := OpPc.Written), lk);
    Then(Init(cfg), steps, Gw(PutRegistry(0)));
    steps := steps + [Gw(PutRegistry(0))];
  }

  // ---- Submission ----

  /** A publisher's token that the configured issuers accept. */
  ghost predicate Accepted(cfg: Registry, tok: Token) {
    tok.iss != cfg.oidc && Authenticate(cfg.(staticKeys := {}), tok).Some?
  }

  function Who(tok: Token): Publisher {
    Publisher(tok.iss, tok.sub)
  }

  lemma Admits(gw: Gateway, tok: Token, subject: string)
    requires ValidSubjectID(subject) && Accepted(gw.cfg, tok) && Who(tok) in CurrentList(gw.kv, subject)
    ensures Admitted(gw, {}, tok, subject)
  {
    var p := Authenticate(gw.cfg.(staticKeys := {}), tok).value;
    var lookup := (s: string) => Some(Publisher(tok.iss, tok.sub) in CurrentList(gw.kv, s));
    PublisherClassIff(gw.cfg.(staticKeys := {}), tok);
    PublishPassesIff(p, subject, lookup, "complytime-admin", "complytime-auditor");
  }

  function RefOf(subject: string, body: Bytes, tok: Token, receipt: Bytes): IngestRef {
    IngestRef(subject, receipt, Digest(body), Who(tok), 1)
  }

  /** What two submissions of one body need: a registered subject that trusts both publishers. */
  datatype Scene = Scene(cfg: Registry, subject: string, list: TrustList, caller: Publisher, body: Bytes, kind: string, at: string,
                         one: Token, two: Token, registration: Bytes, first: Bytes, second: Bytes)

  ghost predicate Fits(x: Scene) {
    && ValidSubjectID(x.subject) && x.list != [] && EntriesValid(x.cfg, x.list)
    && Accepted(x.cfg, x.one) && Accepted(x.cfg, x.two) && Who(x.one) in x.list && Who(x.two) in x.list
    && RegistrationReceipt(x.subject, x.caller, x.at) == Some(x.registration)
    && Wrap(x.body, Who(x.one), x.subject, x.kind, x.at) == Some(x.first)
    && Wrap(x.body, Who(x.two), x.subject, x.kind, x.at) == Some(x.second)
    && Digest(x.first) != Digest(x.registration)
  }

  function Submissions(x: Scene): seq<IngestRef> {
    [RefOf(x.subject, x.body, x.one, x.first), RefOf(x.subject, x.body, x.two, x.second)]
  }

  function Start(x: Scene, refs: seq<IngestRef>, queue: seq<Msg>): State {
    Idling(Gateway1(x.cfg, x.subject, x.list, x.caller, refs), queue, x.subject, [SP.Entry(x.registration, SP.Registration(0))],
           map[Digest(x.registration) := 0])
  }

  function Submit(x: Scene, tok: Token): Step {
    Gw(Authorise({}, tok, x.subject, x.body, x.kind, x.at))
  }

  lemma StepSubmit(x: Scene, refs: seq<IngestRef>, tok: Token, receipt: Bytes)
    requires Fits(x) && Accepted(x.cfg, tok) && Who(tok) in x.list && Wrap(x.body, Who(tok), x.subject, x.kind, x.at) == Some(receipt)
    ensures Next(Start(x, refs, []), Submit(x, tok)) == Some(Start(x, refs + [RefOf(x.subject, x.body, tok, receipt)], []))
  {
    Admits(Start(x, refs, []).gw, tok, x.subject);
  }

  lemma SubmitsFirst(x: Scene) returns (steps: seq<Step>)
    requires Fits(x)
    ensures Unbroken(steps) && Run(Init(x.cfg), steps) == Some(Start(x, [] + [Submissions(x)[0]], []))
  {
    steps := Registers(x.cfg, x.subject, x.list, x.caller, x.at, x.registration);
    StepSubmit(x, [], x.one, x.first);
    Then(Init(x.cfg), steps, Submit(x, x.one));
    steps := steps + [Submit(x, x.one)];
  }

  lemma Submits(x: Scene) returns (steps: seq<Step>)
    requires Fits(x)
    ensures Unbroken(steps) && Run(Init(x.cfg), steps) == Some(Start(x, Submissions(x), []))
  {
    steps := SubmitsFirst(x);
    var refs := [] + [Submissions(x)[0]];
    StepSubmit(x, refs, x.two, x.second);
    Then(Init(x.cfg), steps, Submit(x, x.two));
    steps := steps + [Submit(x, x.two)];
    assert refs + [Submissions(x)[1]] == Submissions(x);
  }

  function Queue(x: Scene, first: Msg): seq<Msg> {
    [first, Msg(Submissions(x)[1], 0, Pending)]
  }

  lemma Enqueues(x: Scene) returns (steps: seq<Step>)
    requires Fits(x)
    ensures Unbroken(steps) && Run(Init(x.cfg), steps) == Some(Start(x, Submissions(x), Queue(x, Msg(Submissions(x)[0], 0, Pending))))
  {
    steps := Submits(x);
    Then(Init(x.cfg), steps, Bus(Publish(0)));
    steps := steps + [Bus(Publish(0))];
    var m0, m1 := Msg(Submissions(x)[0], 0, Pending), Msg(Submissions(x)[1], 0, Pending);
    assert [] + [m0] == [m0];
    assert Run(Init(x.cfg), steps) == Some(Start(x, Submissions(x), [m0]));
    Then(Init(x.cfg), steps, Bus(Publish(1)));
    steps := steps + [Bus(Publish(1))];
    assert [m0] + [m1] == Queue(x, m0);
  }

  // ---- Sealing ----

  function Entry1(x: Scene): SP.Entry {
    SP.Entry(x.first, SP.FromWorker(0))
  }

  function WorkingLocker(x: Scene, log: seq<SP.Entry>, index: Index, worker: SP.Job): SP.State {
    SP.State(map[x.subject := log], true, map[x.subject := index], SP.Jobs(worker, SP.Idle, SP.Idle))
  }

  /** The worker holds the first message and has got this far with it. */
  function Working(x: Scene, worker: WorkerPc, lk: SP.State): State {
    State(Gateway1(x.cfg, x.subject, x.list, x.caller, Submissions(x)), Queue(x, Msg(Submissions(x)[0], 1, Outstanding)), worker, None, lk, [])
  }

  function Log0(x: Scene): seq<SP.Entry> {
    [SP.Entry(x.registration, SP.Registration(0))]
  }

  function Log1(x: Scene): seq<SP.Entry> {
    [SP.Entry(x.registration, SP.Registration(0)), Entry1(x)]
  }

  function Index0(x: Scene): Index {
    map[Digest(x.registration) := 0]
  }

  lemma Picks(x: Scene) returns (steps: seq<Step>)
    requires Fits(x)
    ensures Unbroken(steps)
    ensures Run(Init(x.cfg), steps) == Some(Working(x, WSealing(0), WorkingLocker(x, Log0(x), Index0(x), SP.Ready(x.subject, Entry1(x)))))
  {
    steps := Enqueues(x);
    Then(Init(x.cfg), steps, Work(Deliver(0)));
    steps := steps + [Work(Deliver(0))];
    var got := Working(x, WGot(0), WorkingLocker(x, Log0(x), Index0(x), SP.Idle));
    assert Queue(x, Msg(Submissions(x)[0], 0, Pending))[0 := Msg(Submissions(x)[0], 1, Outstanding)] == got.queue;
    assert Run(Init(x.cfg), steps) == Some(got);
    StepChecked(x);
    Then(Init(x.cfg), steps, Work(Check));
    steps := steps + [Work(Check)];
  }

  lemma StepChecked(x: Scene)
    requires Digest(x.first) != Digest(x.registration)
    ensures Next(Working(x, WGot(0), WorkingLocker(x, Log0(x), Index0(x), SP.Idle)), Work(Check))
         == Some(Working(x, WSealing(0), WorkingLocker(x, Log0(x), Index0(x), SP.Ready(x.subject, Entry1(x)))))
  {
  }

  lemma Appends(x: Scene) returns (steps: seq<Step>)
    requires Fits(x)
    ensures Unbroken(steps)
    ensures Run(Init(x.cfg), steps) == Some(Working(x, WSealing(0), WorkingLocker(x, Log1(x), Index0(x), SP.Appended(x.subject, Entry1(x), 1))))
  {
    steps := Picks(x);
    Then(Init(x.cfg), steps, Work(Append(true)));
    steps := steps + [Work(Append(true))];
    assert Log0(x) + [Entry1(x)] == Log1(x);
    assert map[x.subject := Log0(x)][x.subject := Log1(x)] == map[x.subject := Log1(x)];
  }

  lemma CrashLoses(s: State, front: seq<Step>, mid: State, at: Place)
    requires Run(s, front) == Some(mid) && Window(mid) == Some(at)
    ensures Run(s, front + [Crash]).Some? && at in Lost(s, front + [Crash])
  {
    Then(s, front, Crash);
    assert (front + [Crash])[..|front|] == front;
  }

  /** A sealed entry whose announcement is lost: the locker crashes right behind the append. */
  lemma LostRun(x: Scene) returns (steps: seq<Step>)
    requires Laws() && Fits(x)
    ensures Unbroken(steps) && Run(Init(x.cfg), steps).Some?
    ensures (x.subject, 1) in Lost(Init(x.cfg), steps)
    ensures var s := Run(Init(x.cfg), steps).value; WorkerSealed(s.lk, (x.subject, 1)) && !Announced(s.events, (x.subject, 1))
  {
    var front := Appends(x);
    CrashLoses(Init(x.cfg), front, Run(Init(x.cfg), front).value, (x.subject, 1));
    steps := front + [Crash];
    AnnouncedUnlessDropped(x.cfg, steps, (x.subject, 1));
  }

  lemma StepSealed(x: Scene, index: Index)
    requires index == Index0(x)[Digest(x.first) := 1]
    ensures Next(Working(x, WSealing(0), WorkingLocker(x, Log1(x), Index0(x), SP.Appended(x.subject, Entry1(x), 1))), Work(Index))
         == Some(Working(x, WSealed(0, 1), WorkingLocker(x, Log1(x), index, SP.Idle)))
  {
    assert map[x.subject := Index0(x)][x.subject := index] == map[x.subject := index];
  }

  lemma StepEmitted(x: Scene, lk: SP.State)
    ensures Next(Working(x, WSealed(0, 1), lk), Work(Emit(true)))
         == Some(Working(x, WDone(0), lk).(events := [EventFor(Submissions(x)[0], 1)]))
  {
    assert [] + [EventFor(Submissions(x)[0], 1)] == [EventFor(Submissions(x)[0], 1)];
  }

  /** The first message is sealed and announced. */
  lemma AnnouncesFirst(x: Scene) returns (steps: seq<Step>, s: State)
    requires Fits(x)
    ensures Unbroken(steps) && Run(Init(x.cfg), steps) == Some(s)
    ensures s.events == [EventFor(Submissions(x)[0], 1)] && s.lk.logs == map[x.subject := Log1(x)]
    ensures |s.queue| == 2 && s.queue[0].ref == Submissions(x)[0] && s.queue[1].ref == Submissions(x)[1]
  {
    steps := Appends(x);
    var index: Index := Index0(x)[Digest(x.first) := 1];
    StepSealed(x, index);
    Then(Init(x.cfg), steps, Work(Index));
    steps := steps + [Work(Index)];
    StepEmitted(x, WorkingLocker(x, Log1(x), index, SP.Idle));
    Then(Init(x.cfg), steps, Work(Emit(true)));
    steps := steps + [Work(Emit(true))];
    s := Run(Init(x.cfg), steps).value;
  }

  // ---- Such scenes exist ----

  /** One configured issuer, two of its identities, both trusted. */
  lemma SomeConfig() returns (cfg: Registry, one: Token, two: Token)
    ensures one.sub != two.sub && Accepted(cfg, one) && Accepted(cfg, two)
    ensures EntriesValid(cfg, [Who(one), Who(two)])
  {
    var url := "x://a";
    cfg := Registry("x://b", map[url := PublisherIssuer(url, (sub: string) => true)], {});
    one, two := Token(url, "p", true, [], []), Token(url, "q", true, [], []);
    assert url[0..3][0] == 'x' && url[0..3] != "://" && url[1..4] == "://";
    assert SchemeEnd(url, 1) == Some(1);
    assert SchemeEnd(url, 0) == Some(1);
    assert ValidIssuerURL(url);
    assert TrimSlashes(url) == url;
  }

  /** A scene for it, with any plain object as body: all there is to it but that the two digests differ. */
  lemma SomeScene(subject: string, caller: Publisher, body: Json, kind: string, at: string) returns (x: Scene)
    requires Laws() && ValidSubjectID(subject) && body.Obj? && Plain(body)
    ensures Digest(x.first) != Digest(x.registration) ==> Fits(x)
    ensures x.subject == subject && Who(x.one) != Who(x.two)
  {
    var cfg, one, two := SomeConfig();
    var bytes, reg := MarshalJson(body), RegistrationJson(subject, caller);
    assert Plain(reg);
    WrapUnwrap(bytes, Who(one), subject, kind, at);
    WrapUnwrap(bytes, Who(two), subject, kind, at);
    WrapUnwrap(MarshalJson(reg), caller, subject, "subject-registration", at);
    x := Scene(cfg, subject, [Who(one), Who(two)], caller, bytes, kind, at, one, two,
               RegistrationReceipt(subject, caller, at).value,
               Wrap(bytes, Who(one), subject, kind, at).value, Wrap(bytes, Who(two), subject, kind, at).value);
  }
}
