/** From the graph back to the ledgers: what stands behind a relation or an attribution that a query shows. */
module EndToEnd {
  import opened Wrappers
  import opened Digests
  import opened Bundle
  import opened Decimal
  import opened StorageRef
  import opened Receipts
  import opened TrustKv
  import opened Authn
  import opened Pipeline
  import opened PipelineSafety
  import Guarantees
  import opened Catalogs
  import opened Loaders
  import opened GraphHistory
  import opened GraphViews
  import opened SampleRuns
  import Announcements
  import Graphs
  import SP = SealProtocol

  /** Decoding of unwrapped content as the artifact type it declares. Uninterpreted. */
  const DecodeArtifact: Bytes -> Artifact

  // ---- Every event is the announcement of a queued message ----

  /** The event announces this message, and the entry it points at is the message's receipt. */
  ghost predicate Announces(queue: seq<Msg>, lk: SP.State, e: Pipeline.SealedEvent, m: nat) {
    && m < |queue| && e == EventFor(queue[m].ref, e.logIndex)
    && e.logIndex < |SP.LogOf(lk, e.subject)| && SP.LogOf(lk, e.subject)[e.logIndex].bytes == queue[m].ref.receipt
  }

  ghost predicate Known(queue: seq<Msg>, lk: SP.State, e: Pipeline.SealedEvent) {
    exists m :: Announces(queue, lk, e, m)
  }

  ghost predicate AllKnown(s: State) {
    forall k :: 0 <= k < |s.events| ==> Known(s.queue, s.lk, s.events[k])
  }

  lemma KnownGrows(a: State, b: State, e: Pipeline.SealedEvent)
    requires Guarantees.Grows(a, b) && Known(a.queue, a.lk, e)
    ensures Known(b.queue, b.lk, e)
  {
    var m: nat :| Announces(a.queue, a.lk, e, m);
    assert b.queue[m].ref == a.queue[m].ref;
    assert SP.LogOf(b.lk, e.subject)[e.logIndex] == SP.LogOf(a.lk, e.subject)[e.logIndex];
    assert Announces(b.queue, b.lk, e, m);
  }

  /** Only the worker announces. */
  lemma EventsChange(s: State, step: Step, s': State)
    requires Next(s, step) == Some(s') && !(step.Work? && step.w.Emit?)
    ensures s'.events == s.events
  {
    if step.Admin? {
      AdminLeavesQueue(s, step.a, s');
    }
  }

  lemma EmitKnown(s: State, ok: bool, s': State)
    requires AllKnown(s) && WorkerOk(s.lk, s.queue, s.worker) && WorkNext(s, Emit(ok)) == Some(s')
    ensures AllKnown(s')
  {
    if ok {
      var e := s'.events[|s.events|];
      assert Announces(s.queue, s.lk, e, s.worker.m);
      assert Known(s'.queue, s'.lk, e);
    }
    forall k | 0 <= k < |s.events| ensures Known(s'.queue, s'.lk, s'.events[k]) {
      assert s'.events[k] == s.events[k];
    }
  }

  lemma StepKnown(s: State, step: Step, s': State)
    requires AllKnown(s) && WorkerOk(s.lk, s.queue, s.worker) && Next(s, step) == Some(s')
    ensures AllKnown(s')
  {
    if step.Work? && step.w.Emit? {
      EmitKnown(s, step.w.ok, s');
    } else {
      EventsChange(s, step, s');
      Guarantees.StepGrows(s, step, s');
      forall k | 0 <= k < |s.events| ensures Known(s'.queue, s'.lk, s.events[k]) {
        KnownGrows(s, s', s.events[k]);
      }
    }
  }

  lemma {:induction false} RunKnown(cfg: Registry, steps: seq<Step>)
    requires Laws() && Run(Init(cfg), steps).Some?
    ensures AllKnown(Run(Init(cfg), steps).value)
  {
    if steps != [] {
      var front := steps[..|steps| - 1];
      RunKnown(cfg, front);
      RunBase(cfg, front);
      StepKnown(Run(Init(cfg), front).value, steps[|steps| - 1], Run(Init(cfg), steps).value);
    }
  }

  // ---- What the loader reads ----

  /** What the locker serves for an event's reference while `n` entries of the ledger are integrated. */
  ghost function Served(s: State, e: Pipeline.SealedEvent, n: nat): Option<Bytes> {
    if |e.storageRef| < |SCHEME| then None
    else
      match Route(LoaderPath(e.storageRef))
      case None => None
      case Some(place) =>
        var log := SP.LogOf(s.lk, place.0);
        if n > |log| then None
        else
          match FetchAt(SP.Payloads(log), n, place.1)
          case Ok(bytes) => Some(bytes)
          case Err(_) => None
  }

  /** The loader got this artifact from what was served for the event. */
  ghost predicate ServedAs(s: State, e: Pipeline.SealedEvent, n: nat, a: Artifact) {
    && Served(s, e, n).Some? && UnwrapContent(Served(s, e, n).value).Ok?
    && a == DecodeArtifact(UnwrapContent(Served(s, e, n).value).value.content)
  }

  /** The sealed data is what the loader makes of this event: its fields, and the artifact served for it. */
  ghost predicate LoadedFrom(s: State, d: SealedData, e: Pipeline.SealedEvent) {
    && d.subject == e.subject && d.contentDigest == e.contentDigest && d.receiptDigest == e.receiptDigest && d.logIndex == e.logIndex
    && exists n :: ServedAs(s, e, n, d.artifact)
  }

  /** This identity has submitted this content for this subject. */
  ghost predicate Submitted(s: State, subject: string, digest: string, q: Publisher) {
    exists m :: 0 <= m < |s.queue| && s.queue[m].ref.subject == subject && s.queue[m].ref.contentDigest == digest
             && s.queue[m].ref.publisher == q
  }

  /** The loader has been fed by this pipeline: sealed jobs from its events, ingested ones from its queue. */
  ghost predicate FedBy(s: State, jobs: seq<Job>) {
    forall job :: job in jobs ==>
      match job
      case Sealed(d, _, _) => exists k :: 0 <= k < |s.events| && LoadedFrom(s, d, s.events[k])
      case Ingested(subject, digest, p) => Submitted(s, subject, digest, p)
      case Registered(_) => true
  }

  /** The event format can count to the position, and the entries that share its bundle fit it. */
  ghost predicate Readable(s: State, subject: string, i: int) {
    0 <= i <= MAX_INT64 && SP.ShortBundle(SP.LogOf(s.lk, subject), i)
  }

  lemma ServedIsSealed(s: State, e: Pipeline.SealedEvent, m: nat, n: nat)
    requires Readable(s, e.subject, e.logIndex) && EventOk(s.lk, e) && Announces(s.queue, s.lk, e, m)
    ensures e.logIndex < n <= |SP.LogOf(s.lk, e.subject)| ==> Served(s, e, n) == Some(s.queue[m].ref.receipt)
    ensures !(e.logIndex < n <= |SP.LogOf(s.lk, e.subject)|) ==> Served(s, e, n) == None
  {
    RefRoundTrip(e.subject, e.logIndex);
    if e.logIndex < n <= |SP.LogOf(s.lk, e.subject)| {
      SP.ReadsSealed(SP.LogOf(s.lk, e.subject), e.logIndex, n);
    }
  }

  // ---- Behind the graph ----

  /** The i-th entry of the subject's ledger is a worker's, and its content decodes to this artifact. */
  ghost predicate Holds(s: State, subject: string, i: nat, a: Artifact) {
    && Guarantees.WorkerEntry(s, subject, i) && UnwrapContent(s.lk.logs[subject][i].bytes).Ok?
    && DecodeArtifact(UnwrapContent(s.lk.logs[subject][i].bytes).value.content) == a
  }

  /** Its publisher was on the subject's list when the request behind it was authorised. */
  ghost predicate Trusted(cfg: Registry, s: State, subject: string, i: nat) {
    && Guarantees.WorkerEntry(s, subject, i) && UnwrapContent(s.lk.logs[subject][i].bytes).Ok?
    && var p := UnwrapContent(s.lk.logs[subject][i].bytes).value.publisher;
    && p.issuer != cfg.oidc && p.issuer in cfg.publishers
    && exists n :: 0 <= n <= |s.gw.kv.writes| && p in ListAfter(s.gw.kv.writes[..n], subject)
  }

  lemma Reached(cfg: Registry, s: State) returns (steps: seq<Step>)
    requires Laws() && Guarantees.Reachable(cfg, s)
    ensures Run(Init(cfg), steps) == Some(s) && Base(s) && AllKnown(s)
  {
    steps :| Run(Init(cfg), steps) == Some(s);
    RunBase(cfg, steps);
    RunKnown(cfg, steps);
  }

  lemma AnnouncedIsWorkers(cfg: Registry, steps: seq<Step>, s: State, k: nat)
    requires Laws() && Run(Init(cfg), steps) == Some(s) && k < |s.events|
    ensures Guarantees.WorkerEntry(s, s.events[k].subject, s.events[k].logIndex)
  {
    var at: Announcements.Place := (s.events[k].subject, s.events[k].logIndex);
    Announcements.AnnouncedUnlessDropped(cfg, steps, at);
    assert Announcements.Announced(s.events, at);
  }

  /** Sealed data that the loader got from this pipeline is the content of a trusted publisher's sealed entry. */
  lemma LoadedIsSealed(cfg: Registry, s: State, d: SealedData, k: nat)
    requires Laws() && Guarantees.Reachable(cfg, s) && k < |s.events| && LoadedFrom(s, d, s.events[k])
    requires Readable(s, d.subject, d.logIndex)
    ensures 0 <= d.logIndex && Holds(s, d.subject, d.logIndex, d.artifact) && Trusted(cfg, s, d.subject, d.logIndex)
  {
    var steps := Reached(cfg, s);
    var e := s.events[k];
    assert EventOk(s.lk, e) && Known(s.queue, s.lk, e);
    var m :| Announces(s.queue, s.lk, e, m);
    var n :| ServedAs(s, e, n, d.artifact);
    ServedIsSealed(s, e, m, n);
    AnnouncedIsWorkers(cfg, steps, s, k);
    Guarantees.Provenance(cfg, s, e.subject, e.logIndex);
  }

  /**
   * Behind every control-to-threat relation of the graph stands a sealed ledger entry that states it,
   * published by someone its subject trusted at the time.
   */
  lemma AddressesIsSealed(cfg: Registry, s: State, jobs: seq<Job>, control: string, threat: string)
    requires Laws() && Guarantees.Reachable(cfg, s) && FedBy(s, jobs)
    requires forall job :: job in jobs && job.Sealed? && Addresses(job.d.artifact, control, threat) ==> Readable(s, job.d.subject, job.d.logIndex)
    requires Graphs.Edge(Graphs.EntityNode("Control", control), "ADDRESSES", Graphs.EntityNode("Threat", threat))
               in Replay(Graphs.EMPTY, jobs).edges
    ensures exists subject, i, a :: Holds(s, subject, i, a) && Addresses(a, control, threat) && Trusted(cfg, s, subject, i)
  {
    AddressesIff(jobs, control, threat);
    var job :| job in jobs && job.Sealed? && Addresses(job.d.artifact, control, threat);
    var k :| 0 <= k < |s.events| && LoadedFrom(s, job.d, s.events[k]);
    LoadedIsSealed(cfg, s, job.d, k);
  }

  /** The same for capability-to-threat relations. */
  lemma IntroducesIsSealed(cfg: Registry, s: State, jobs: seq<Job>, capability: string, threat: string)
    requires Laws() && Guarantees.Reachable(cfg, s) && FedBy(s, jobs)
    requires forall job :: job in jobs && job.Sealed? && Introduces(job.d.artifact, capability, threat) ==> Readable(s, job.d.subject, job.d.logIndex)
    requires Graphs.Edge(Graphs.EntityNode("Capability", capability), "INTRODUCES", Graphs.EntityNode("Threat", threat))
               in Replay(Graphs.EMPTY, jobs).edges
    ensures exists subject, i, a :: Holds(s, subject, i, a) && Introduces(a, capability, threat) && Trusted(cfg, s, subject, i)
  {
    IntroducesIff(jobs, capability, threat);
    var job :| job in jobs && job.Sealed? && Introduces(job.d.artifact, capability, threat);
    var k :| 0 <= k < |s.events| && LoadedFrom(s, job.d, s.events[k]);
    LoadedIsSealed(cfg, s, job.d, k);
  }

  // ---- Attribution ----

  /** What is served for an event names the publisher of a message with the event's subject and content. */
  lemma ServedPublisher(cfg: Registry, s: State, k: nat, n: nat)
    requires Laws() && Guarantees.Reachable(cfg, s) && k < |s.events| && Readable(s, s.events[k].subject, s.events[k].logIndex)
    requires s.events[k].logIndex < n <= |SP.LogOf(s.lk, s.events[k].subject)|
    ensures Served(s, s.events[k], n).Some? && UnwrapContent(Served(s, s.events[k], n).value).Ok?
    ensures Submitted(s, s.events[k].subject, s.events[k].contentDigest, UnwrapContent(Served(s, s.events[k], n).value).value.publisher)
  {
    var steps := Reached(cfg, s);
    assert EventOk(s.lk, s.events[k]) && Known(s.queue, s.lk, s.events[k]);
    var m: nat :| Announces(s.queue, s.lk, s.events[k], m);
    ServedIsSealed(s, s.events[k], m, n);
    assert RefOk(s.gw, s.lk, s.queue[m].ref);
  }

  /** The lookup finds an identity exactly when some history fed by this pipeline has it submit the content. */
  lemma FoundSubmitted(s: State, jobs: seq<Job>, subject: string, digest: string, q: Publisher)
    requires FedBy(s, jobs) && StubPublisher(Replay(Graphs.EMPTY, jobs), subject, digest, q)
    ensures Submitted(s, subject, digest, q)
  {
    LookupIff(jobs, subject, digest, q);
    assert Ingested(subject, digest, q) in jobs;
  }

  lemma SubmittedCanBeFound(s: State, subject: string, digest: string, q: Publisher)
    requires Submitted(s, subject, digest, q)
    ensures FedBy(s, [Ingested(subject, digest, q)])
    ensures Answers(Replay(Graphs.EMPTY, [Ingested(subject, digest, q)]), subject, digest, Found(q))
  {
    var jobs := [Ingested(subject, digest, q)];
    assert jobs[0] in jobs;
    LookupIff(jobs, subject, digest, q);
  }

  /** Whatever the loader has processed and whichever row its lookup returns, it attributes to `p` or to nobody. */
  ghost predicate AlwaysAttributes(s: State, subject: string, digest: string, p: Publisher) {
    forall jobs, l :: FedBy(s, jobs) && Answers(Replay(Graphs.EMPTY, jobs), subject, digest, l) ==>
      Resolve(l) == p || Resolve(l) == PLACEHOLDER
  }

  /** A submitter that the loader shows as such, and other than `p`. */
  predicate ShownInstead(q: Publisher, p: Publisher) {
    q != p && q != PLACEHOLDER && q.issuer != ""
  }

  /**
   * Attribution, exactly: in every reachable state the loader is sure to attribute an announced entry
   * to the publisher its receipt names, or to the placeholder, if and only if nobody else has submitted
   * the same content for the subject.
   */
  lemma AttributionIff(cfg: Registry, s: State, k: nat, n: nat)
    requires Laws() && Guarantees.Reachable(cfg, s) && k < |s.events| && Readable(s, s.events[k].subject, s.events[k].logIndex)
    requires s.events[k].logIndex < n <= |SP.LogOf(s.lk, s.events[k].subject)|
    ensures Served(s, s.events[k], n).Some? && UnwrapContent(Served(s, s.events[k], n).value).Ok?
    ensures var e, p := s.events[k], UnwrapContent(Served(s, s.events[k], n).value).value.publisher;
            AlwaysAttributes(s, e.subject, e.contentDigest, p)
            <==> !exists q :: Submitted(s, e.subject, e.contentDigest, q) && ShownInstead(q, p)
  {
    ServedPublisher(cfg, s, k, n);
    AttributesIff(s, s.events[k].subject, s.events[k].contentDigest, UnwrapContent(Served(s, s.events[k], n).value).value.publisher);
  }

  lemma AttributesIff(s: State, subject: string, digest: string, p: Publisher)
    ensures AlwaysAttributes(s, subject, digest, p) <==> !exists q :: Submitted(s, subject, digest, q) && ShownInstead(q, p)
  {
    if q :| Submitted(s, subject, digest, q) && ShownInstead(q, p) {
      SubmittedCanBeFound(s, subject, digest, q);
      assert Resolve(Found(q)) == q;
    } else {
      forall jobs, l | FedBy(s, jobs) && Answers(Replay(Graphs.EMPTY, jobs), subject, digest, l)
        ensures Resolve(l) == p || Resolve(l) == PLACEHOLDER
      {
        if l.Found? {
          FoundSubmitted(s, jobs, subject, digest, l.p);
        }
      }
    }
  }

  // ---- A run in which the wrong publisher is shown ----

  lemma SceneIsServed(x: Scene, s: State)
    requires Fits(x) && |x.registration| < PREFIX_LIMIT && |x.first| < PREFIX_LIMIT && s.lk.logs == map[x.subject := Log1(x)]
    requires s.events == [EventFor(Submissions(x)[0], 1)] && |s.queue| == 2 && s.queue[0].ref == Submissions(x)[0]
    ensures Served(s, s.events[0], 2) == Some(x.first)
  {
    var e := s.events[0];
    assert SP.LogOf(s.lk, e.subject) == Log1(x) && Log1(x)[1].bytes == x.first;
    assert SP.ShortBundle(Log1(x), 1) && Readable(s, e.subject, e.logIndex);
    assert EventOk(s.lk, e) && Announces(s.queue, s.lk, e, 0);
    ServedIsSealed(s, e, 0, 2);
  }

  /** The graph shows this publisher on the evidence at this index. */
  ghost predicate ShownAs(jobs: seq<Job>, i: int, r: Publisher) {
    Graphs.Edge(Graphs.EvidenceNode(i), "PUBLISHED_BY", Graphs.PublisherNode(r)) in Replay(Graphs.EMPTY, jobs).edges
  }

  /** The graph of a history that processed both submissions, then the entry for the second publisher. */
  lemma ShowsSecond(subject: string, digest: string, p: Publisher, q: Publisher, d: SealedData, at: int)
    ensures var jobs := [Ingested(subject, digest, p), Ingested(subject, digest, q), Sealed(d, q, at)];
            && Answers(Replay(Graphs.EMPTY, jobs[..2]), subject, digest, Found(q))
            && forall r :: ShownAs(jobs, d.logIndex, r) <==> r == q
  {
    var jobs := [Ingested(subject, digest, p), Ingested(subject, digest, q), Sealed(d, q, at)];
    LookupIff(jobs[..2], subject, digest, q);
    assert jobs[..2][1] == Ingested(subject, digest, q);
    assert jobs[2] in jobs && forall job :: job in jobs && job.Sealed? ==> job == jobs[2];
    forall r ensures ShownAs(jobs, d.logIndex, r) <==> r == q {
      PublishedBy(jobs, d.logIndex, r);
    }
  }

  lemma SceneFeeds(s: State, subject: string, digest: string, p: Publisher, q: Publisher, d: SealedData, at: int)
    requires Submitted(s, subject, digest, p) && Submitted(s, subject, digest, q) && |s.events| == 1 && LoadedFrom(s, d, s.events[0])
    ensures FedBy(s, [Ingested(subject, digest, p), Ingested(subject, digest, q), Sealed(d, q, at)])
  {
    var jobs := [Ingested(subject, digest, p), Ingested(subject, digest, q), Sealed(d, q, at)];
    assert forall job :: job in jobs ==> job == jobs[0] || job == jobs[1] || job == jobs[2];
  }

  /**
   * Two trusted publishers submit one content; the first one's receipt is sealed and announced; and
   * the graph shows the second as its publisher, and the first not at all.
   */
  lemma WrongPublisherRun(x: Scene) returns (steps: seq<Step>, s: State, d: SealedData)
    requires Laws() && Fits(x) && |x.registration| < PREFIX_LIMIT && |x.first| < PREFIX_LIMIT
    requires Who(x.one) != Who(x.two) && x.two.iss != ""
    ensures Unbroken(steps) && Run(Init(x.cfg), steps) == Some(s) && |s.events| == 1 && LoadedFrom(s, d, s.events[0])
    ensures Served(s, s.events[0], 2) == Some(x.first) && UnwrapContent(x.first).Ok? && UnwrapContent(x.first).value.publisher == Who(x.one)
    ensures var jobs := [Ingested(x.subject, Digest(x.body), Who(x.one)), Ingested(x.subject, Digest(x.body), Who(x.two)),
                         Sealed(d, Resolve(Found(Who(x.two))), 0)];
            && FedBy(s, jobs) && Answers(Replay(Graphs.EMPTY, jobs[..2]), x.subject, Digest(x.body), Found(Who(x.two)))
            && forall r :: ShownAs(jobs, d.logIndex, r) <==> r == Who(x.two)
  {
    steps, s := AnnouncesFirst(x);
    WrapUnwrap(x.body, Who(x.one), x.subject, x.kind, x.at);
    SceneIsServed(x, s);
    d := SealedData(x.subject, Digest(x.body), Digest(x.first), 1, x.kind, DecodeArtifact(UnwrapContent(x.first).value.content));
    assert ServedAs(s, s.events[0], 2, d.artifact);
    assert s.queue[0].ref.publisher == Who(x.one) && s.queue[1].ref.publisher == Who(x.two);
    SceneFeeds(s, x.subject, Digest(x.body), Who(x.one), Who(x.two), d, 0);
    ShowsSecond(x.subject, Digest(x.body), Who(x.one), Who(x.two), d, 0);
  }
}
