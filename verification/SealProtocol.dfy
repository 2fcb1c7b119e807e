/**
 * Sealing inside the locker process as a step machine. Three goroutines append to the
 * per-subject logs: the ingest worker, which first looks its receipt up in the digest index, and
 * the two admin subscriptions, which do not. An append and the index write behind it are
 * separate steps, so they interleave, and a crash can fall between them.
 */
module SealProtocol {
  import opened Wrappers
  import opened Digests
  import opened DigestIndex
  import opened Bundle
  import opened Ledgers

  /** Who sealed an entry and for which message or admin operation. */
  datatype Origin = FromWorker(msg: nat) | Registration(op: nat) | TrustChange(op: nat)

  datatype Entry = Entry(bytes: Bytes, from: Origin)

  datatype Thread = Worker | Registrar | Sealer

  /** What a goroutine is doing inside `Seal`. */
  datatype Job =
    | Idle
    | Ready(subject: string, entry: Entry)
    | Appended(subject: string, entry: Entry, at: nat)

  datatype Jobs = Jobs(worker: Job, registrar: Job, sealer: Job) {
    function Get(t: Thread): Job {
      match t
      case Worker => worker
      case Registrar => registrar
      case Sealer => sealer
    }

    function Set(t: Thread, j: Job): Jobs {
      match t
      case Worker => this.(worker := j)
      case Registrar => this.(registrar := j)
      case Sealer => this.(sealer := j)
    }
  }

  const ALL_IDLE := Jobs(Idle, Idle, Idle)

  /** The logs are durable; the open ledgers, their indexes and the jobs die with the process. */
  datatype State = State(logs: map<string, seq<Entry>>, up: bool, index: map<string, Index>, jobs: Jobs)

  /** A rebuild of a ledger's index: how many entries were integrated, and what reading them yielded. */
  datatype Rebuild = Rebuild(size: nat, seen: seq<Bytes>)

  datatype Step =
    | Begin(t: Thread, subject: string, entry: Entry)
    | Append(t: Thread)
    | Abort(t: Thread)
    | WriteIndex(t: Thread)
    | Create(subject: string, rebuild: Rebuild)
    | Crash
    | Restart(reopened: set<string>, rebuilds: map<string, Rebuild>)

  function Payloads(log: seq<Entry>): (p: seq<Bytes>)
    ensures |p| == |log| && forall i :: 0 <= i < |log| ==> p[i] == log[i].bytes
  {
    if log == [] then [] else Payloads(log[..|log| - 1]) + [log[|log| - 1].bytes]
  }

  predicate Owns(t: Thread, entry: Entry) {
    match t
    case Worker => entry.from.FromWorker?
    case Registrar => entry.from.Registration?
    case Sealer => entry.from.TrustChange?
  }

  function LogOf(s: State, subject: string): seq<Entry> {
    if subject in s.logs then s.logs[subject] else []
  }

  /** The rebuild read these entries of the log, through its bundles, before it ended or broke off. */
  predicate Reads(log: seq<Entry>, r: Rebuild) {
    r.size <= |log| && ReadsAs(Payloads(log), r.size, r.seen)
  }

  /** It covered the whole log and reported success. */
  predicate Succeeds(log: seq<Entry>, r: Rebuild) {
    r.size == |log| && |r.seen| == |log|
  }

  /** One step, or nothing when the step is not enabled. */
  function Next(s: State, step: Step): Option<State> {
    match step
    case Begin(t, subject, entry) =>
      if && s.up && s.jobs.Get(t) == Idle && Owns(t, entry) && subject in s.index
         && (t == Worker ==> Digest(entry.bytes) !in s.index[subject])
      then Some(s.(jobs := s.jobs.Set(t, Ready(subject, entry)))) else None
    case Append(t) =>
      var job := s.jobs.Get(t);
      if job.Ready? then
        var log := LogOf(s, job.subject);
        Some(s.(logs := s.logs[job.subject := log + [job.entry]],
                jobs := s.jobs.Set(t, Appended(job.subject, job.entry, |log|))))
      else None
    case Abort(t) =>
      if s.jobs.Get(t).Ready? then Some(s.(jobs := s.jobs.Set(t, Idle))) else None
    case WriteIndex(t) =>
      var job := s.jobs.Get(t);
      if job.Appended? && job.subject in s.index then
        var index: Index := s.index[job.subject][Digest(job.entry.bytes) := job.at];
        Some(s.(index := s.index[job.subject := index], jobs := s.jobs.Set(t, Idle)))
      else None
    case Create(subject, rebuild) =>
      if s.up && subject !in s.index && Reads(LogOf(s, subject), rebuild) then
        Some(s.(logs := s.logs[subject := LogOf(s, subject)], index := s.index[subject := IndexOf(rebuild.seen)]))
      else None
    case Crash =>
      Some(s.(up := false, index := map[], jobs := ALL_IDLE))
    case Restart(reopened, rebuilds) =>
      if !s.up && reopened <= s.logs.Keys && reopened <= rebuilds.Keys
         && (forall subject | subject in reopened :: Reads(s.logs[subject], rebuilds[subject]))
      then
        Some(s.(up := true, jobs := ALL_IDLE, index := map subject | subject in reopened :: IndexOf(rebuilds[subject].seen)))
      else None
  }

  predicate Short(log: seq<Entry>) {
    forall i :: 0 <= i < |log| ==> |log[i].bytes| < PREFIX_LIMIT
  }

  /** The entries that share a bundle with position `i` fit it. */
  predicate ShortBundle(log: seq<Entry>, i: nat) {
    forall j :: 0 <= j < |log| && j / WIDTH == i / WIDTH ==> |log[j].bytes| < PREFIX_LIMIT
  }

  /** Then reading that position, with however many entries integrated, returns what was sealed there. */
  lemma ReadsSealed(log: seq<Entry>, i: nat, n: nat)
    requires ShortBundle(log, i) && i < n <= |log|
    ensures FetchAt(Payloads(log), n, i) == Ok(log[i].bytes)
  {
    FetchRefinesLog(Payloads(log), n, i);
  }

  /** A restart opens this subject's ledger again, if it has one. */
  predicate Reopens(s: State, step: Step, subject: string) {
    step.Restart? && subject in s.logs ==> subject in step.reopened
  }

  /** Wherever this subject's ledger is opened, its rebuild succeeds over entries that fit their bundles. */
  predicate Clean(s: State, step: Step, subject: string) {
    match step
    case Create(created, rebuild) =>
      created == subject ==> Succeeds(LogOf(s, subject), rebuild) && Short(LogOf(s, subject))
    case Restart(reopened, rebuilds) =>
      subject in reopened && subject in rebuilds ==> Succeeds(LogOf(s, subject), rebuilds[subject]) && Short(LogOf(s, subject))
    case _ => true
  }

  const INIT := State(map[], true, map[], ALL_IDLE)

  // ---- What every step keeps of one ledger ----

  ghost predicate JobFits(s: State, t: Thread) {
    match s.jobs.Get(t)
    case Idle => true
    case Ready(subject, entry) => subject in s.index && Owns(t, entry)
    case Appended(subject, entry, at) =>
      subject in s.index && Owns(t, entry) && at < |LogOf(s, subject)| && LogOf(s, subject)[at] == entry
  }

  ghost predicate JobsFit(s: State) {
    forall t :: JobFits(s, t)
  }

  /** While the locker is up, a stored ledger is open. */
  ghost predicate Open(s: State, subject: string) {
    s.up && subject in s.logs ==> subject in s.index
  }

  /** Every index entry points at a log entry with that digest. */
  ghost predicate IndexSound(s: State, subject: string) {
    subject in s.index ==>
      forall d :: d in s.index[subject] ==>
        && s.index[subject][d] < |LogOf(s, subject)|
        && Digest(LogOf(s, subject)[s.index[subject][d]].bytes) == d
  }

  ghost predicate Pending(s: State, subject: string, i: nat) {
    exists t :: s.jobs.Get(t).Appended? && s.jobs.Get(t).subject == subject && s.jobs.Get(t).at == i
  }

  /** Every appended entry is indexed, or the goroutine that appended it is about to index it. */
  ghost predicate IndexCovers(s: State, subject: string) {
    subject in s.index ==>
      forall i :: 0 <= i < |LogOf(s, subject)| ==>
        Digest(LogOf(s, subject)[i].bytes) in s.index[subject] || Pending(s, subject, i)
  }

  ghost predicate WorkerSealed(log: seq<Entry>, d: string) {
    exists i :: 0 <= i < |log| && log[i].from.FromWorker? && Digest(log[i].bytes) == d
  }

  ghost predicate OnceIn(log: seq<Entry>) {
    forall i, j :: 0 <= i < j < |log| && log[i].from.FromWorker? && log[j].from.FromWorker? ==>
      Digest(log[i].bytes) != Digest(log[j].bytes)
  }

  /** The ledger holds no two worker entries with one digest, and is not about to. */
  ghost predicate SealedOnce(s: State, subject: string) {
    && OnceIn(LogOf(s, subject))
    && (s.jobs.worker.Ready? && s.jobs.worker.subject == subject ==>
          !WorkerSealed(LogOf(s, subject), Digest(s.jobs.worker.entry.bytes)))
  }

  ghost predicate Inv(s: State, subject: string) {
    JobsFit(s) && IndexSound(s, subject) && IndexCovers(s, subject) && SealedOnce(s, subject)
  }

  /** A thread's own move leaves the other threads' pending index writes in place. */
  lemma PendingKept(s: State, s': State, t: Thread)
    requires forall u :: u != t ==> s'.jobs.Get(u) == s.jobs.Get(u)
    requires !s.jobs.Get(t).Appended?
    ensures forall subject, i :: Pending(s, subject, i) ==> Pending(s', subject, i)
  {
    forall subject, i | Pending(s, subject, i) ensures Pending(s', subject, i) {
      var u :| s.jobs.Get(u).Appended? && s.jobs.Get(u).subject == subject && s.jobs.Get(u).at == i;
      assert s'.jobs.Get(u) == s.jobs.Get(u);
    }
  }

  lemma OthersKept(jobs: Jobs, t: Thread, j: Job)
    ensures jobs.Set(t, j).Get(t) == j
    ensures forall u :: u != t ==> jobs.Set(t, j).Get(u) == jobs.Get(u)
  {
  }

  lemma JobsFitStep(s: State, step: Step, s': State)
    requires JobsFit(s) && Next(s, step) == Some(s')
    ensures JobsFit(s')
  {
    forall u ensures JobFits(s', u) {
      assert JobFits(s, u);
      if step.Begin? || step.Append? || step.Abort? || step.WriteIndex? {
        assert u != step.t ==> s'.jobs.Get(u) == s.jobs.Get(u);
      }
    }
  }

  /** A ledger that restarts reopen is open whenever the locker is up, whatever its rebuilds read. */
  lemma OpenStep(s: State, step: Step, s': State, subject: string)
    requires JobsFit(s) && Open(s, subject) && Next(s, step) == Some(s') && Reopens(s, step, subject)
    ensures Open(s', subject)
  {
    if step.Append? {
      assert JobFits(s, step.t);
    }
  }

  /** A receipt missing from the index was never sealed by the worker: its own write is not pending. */
  lemma UnindexedIsFresh(s: State, subject: string, d: string)
    requires Inv(s, subject) && s.jobs.worker == Idle && subject in s.index && d !in s.index[subject]
    ensures !WorkerSealed(LogOf(s, subject), d)
  {
    var log := LogOf(s, subject);
    forall i | 0 <= i < |log| && log[i].from.FromWorker? ensures Digest(log[i].bytes) != d {
      forall u ensures !(s.jobs.Get(u).Appended? && s.jobs.Get(u).subject == subject && s.jobs.Get(u).at == i) {
        assert JobFits(s, u);
      }
      assert !Pending(s, subject, i);
    }
  }

  lemma BeginKeeps(s: State, t: Thread, at: string, entry: Entry, s': State, subject: string)
    requires Inv(s, subject) && Next(s, Begin(t, at, entry)) == Some(s')
    ensures Inv(s', subject)
  {
    JobsFitStep(s, Begin(t, at, entry), s');
    OthersKept(s.jobs, t, Ready(at, entry));
    PendingKept(s, s', t);
    if t == Worker && at == subject {
      UnindexedIsFresh(s, subject, Digest(entry.bytes));
    }
  }

  lemma AbortKeeps(s: State, t: Thread, s': State, subject: string)
    requires Inv(s, subject) && Next(s, Abort(t)) == Some(s')
    ensures Inv(s', subject)
  {
    JobsFitStep(s, Abort(t), s');
    OthersKept(s.jobs, t, Idle);
    PendingKept(s, s', t);
  }

  lemma AppendedLog(log: seq<Entry>, e: Entry)
    ensures OnceIn(log) && (e.from.FromWorker? ==> !WorkerSealed(log, Digest(e.bytes))) ==> OnceIn(log + [e])
    ensures forall d :: WorkerSealed(log + [e], d) ==> WorkerSealed(log, d) || e.from.FromWorker?
  {
    forall d | WorkerSealed(log + [e], d) && !e.from.FromWorker? ensures WorkerSealed(log, d) {
      var i :| 0 <= i < |log + [e]| && (log + [e])[i].from.FromWorker? && Digest((log + [e])[i].bytes) == d;
      assert log[i] == (log + [e])[i];
    }
  }

  lemma AppendKeepsIndex(s: State, t: Thread, s': State, subject: string)
    requires Inv(s, subject) && Next(s, Append(t)) == Some(s')
    ensures IndexSound(s', subject) && IndexCovers(s', subject)
  {
    var job := s.jobs.Get(t);
    var log := LogOf(s, job.subject);
    OthersKept(s.jobs, t, Appended(job.subject, job.entry, |log|));
    PendingKept(s, s', t);
    assert Pending(s', job.subject, |log|) by {
      assert s'.jobs.Get(t).Appended?;
    }
  }

  lemma AppendKeepsOnce(s: State, t: Thread, s': State, subject: string)
    requires Inv(s, subject) && Next(s, Append(t)) == Some(s')
    ensures SealedOnce(s', subject)
  {
    var job := s.jobs.Get(t);
    assert JobFits(s, t);
    AppendedLog(LogOf(s, job.subject), job.entry);
  }

  lemma WriteIndexKeepsCover(s: State, t: Thread, s': State, subject: string)
    requires Inv(s, subject) && Next(s, WriteIndex(t)) == Some(s')
    ensures IndexCovers(s', subject)
  {
    OthersKept(s.jobs, t, Idle);
    assert JobFits(s, t);
    forall i | subject in s'.index && 0 <= i < |LogOf(s', subject)|
      ensures Digest(LogOf(s', subject)[i].bytes) in s'.index[subject] || Pending(s', subject, i)
    {
      if Digest(LogOf(s, subject)[i].bytes) !in s.index[subject] {
        assert Pending(s, subject, i);
        var u :| s.jobs.Get(u).Appended? && s.jobs.Get(u).subject == subject && s.jobs.Get(u).at == i;
        if u != t {
          assert s'.jobs.Get(u) == s.jobs.Get(u);
        }
      }
    }
  }

  lemma WriteIndexKeeps(s: State, t: Thread, s': State, subject: string)
    requires Inv(s, subject) && Next(s, WriteIndex(t)) == Some(s')
    ensures Inv(s', subject)
  {
    assert JobFits(s, t);
    JobsFitStep(s, WriteIndex(t), s');
    OthersKept(s.jobs, t, Idle);
    WriteIndexKeepsCover(s, t, s', subject);
  }

  lemma ShortPayloads(log: seq<Entry>)
    ensures AllShort(Payloads(log)) <==> Short(log)
  {
    assert forall i :: 0 <= i < |log| ==> Payloads(log)[i] == log[i].bytes;
  }

  /** A successful rebuild over entries that fit their bundles is sound and misses nothing. */
  lemma RebuiltIndex(log: seq<Entry>, r: Rebuild)
    requires Reads(log, r) && Succeeds(log, r) && Short(log)
    ensures forall d :: d in IndexOf(r.seen) ==> IndexOf(r.seen)[d] < |log| && Digest(log[IndexOf(r.seen)[d]].bytes) == d
    ensures forall i :: 0 <= i < |log| ==> Digest(log[i].bytes) in IndexOf(r.seen)
  {
    ShortPayloads(log);
    ReadsAsLog(Payloads(log), |log|, r.seen);
    assert r.seen == Payloads(log);
    IndexOfSound(Payloads(log));
    forall i | 0 <= i < |log| ensures Digest(log[i].bytes) in IndexOf(r.seen) {
      IndexOfLast(Payloads(log), i);
    }
  }

  lemma CreateKeeps(s: State, created: string, rebuild: Rebuild, s': State, subject: string)
    requires Inv(s, subject) && Next(s, Create(created, rebuild)) == Some(s') && Clean(s, Create(created, rebuild), subject)
    ensures Inv(s', subject)
  {
    JobsFitStep(s, Create(created, rebuild), s');
    if created == subject {
      RebuiltIndex(LogOf(s, subject), rebuild);
    } else {
      forall i | Pending(s, subject, i) ensures Pending(s', subject, i) {
      }
    }
  }

  lemma RestartKeeps(s: State, reopened: set<string>, rebuilds: map<string, Rebuild>, s': State, subject: string)
    requires Inv(s, subject) && Next(s, Restart(reopened, rebuilds)) == Some(s') && Clean(s, Restart(reopened, rebuilds), subject)
    ensures Inv(s', subject)
  {
    if subject in reopened {
      RebuiltIndex(s.logs[subject], rebuilds[subject]);
    }
  }

  /** Every step keeps what is known of a ledger, provided it is clean for that ledger. */
  lemma StepKeeps(s: State, step: Step, s': State, subject: string)
    requires Inv(s, subject) && Next(s, step) == Some(s') && Clean(s, step, subject)
    ensures Inv(s', subject)
  {
    match step
    case Begin(t, at, entry) => BeginKeeps(s, t, at, entry, s', subject);
    case Append(t) =>
      JobsFitStep(s, step, s');
      AppendKeepsIndex(s, t, s', subject);
      AppendKeepsOnce(s, t, s', subject);
    case Abort(t) => AbortKeeps(s, t, s', subject);
    case WriteIndex(t) => WriteIndexKeeps(s, t, s', subject);
    case Create(created, rebuild) => CreateKeeps(s, created, rebuild, s', subject);
    case Crash =>
    case Restart(reopened, rebuilds) => RestartKeeps(s, reopened, rebuilds, s', subject);
  }

  // ---- What every step keeps of all ledgers, clean or not ----

  ghost predicate HasDigest(log: seq<Entry>, d: string) {
    exists i :: 0 <= i < |log| && Digest(log[i].bytes) == d
  }

  /** Reading position `i` of the first `m` entries, `n` of them integrated, yields bytes with this digest. */
  ghost predicate ReadBack(log: seq<Entry>, m: nat, n: nat, i: nat, d: string) {
    n <= m <= |log| && var r := ReaderOf(Payloads(log[..m]), n)(i); r.Ok? && Digest(r.value) == d
  }

  ghost predicate Reread(log: seq<Entry>, d: string) {
    exists m, n, i :: ReadBack(log, m, n, i, d)
  }

  /** What an indexed digest stands for: an entry of the log, or something once read in place of one. */
  ghost predicate Explained(log: seq<Entry>, d: string) {
    HasDigest(log, d) || Reread(log, d)
  }

  ghost predicate IndexExplained(s: State) {
    forall subject :: subject in s.index ==> forall d :: d in s.index[subject] ==> Explained(LogOf(s, subject), d)
  }

  ghost predicate Base(s: State) {
    JobsFit(s) && s.index.Keys <= s.logs.Keys && (!s.up ==> s.index == map[]) && IndexExplained(s)
  }

  lemma ExplainedGrows(log: seq<Entry>, log': seq<Entry>, d: string)
    requires Explained(log, d) && log <= log'
    ensures Explained(log', d)
  {
    if HasDigest(log, d) {
      var i :| 0 <= i < |log| && Digest(log[i].bytes) == d;
      assert log'[i] == log[i];
    } else {
      var m: nat, n: nat, i: nat :| ReadBack(log, m, n, i, d);
      assert log'[..m] == log[..m];
      assert ReadBack(log', m, n, i, d);
    }
  }

  /** Where every entry fits its bundle, what is read is what was sealed. */
  lemma RereadIsSealed(log: seq<Entry>, d: string)
    requires Short(log) && Reread(log, d)
    ensures HasDigest(log, d)
  {
    var m: nat, n: nat, i: nat :| ReadBack(log, m, n, i, d);
    var part := Payloads(log[..m]);
    assert i < n && FetchAt(part, n, i) == ReaderOf(part, n)(i);
    forall j | 0 <= j < n ensures |part[j]| < PREFIX_LIMIT {
      assert part[j] == log[j].bytes;
    }
    FetchRefinesLog(part, n, i);
    assert part[i] == log[i].bytes;
  }

  lemma RebuildExplained(log: seq<Entry>, r: Rebuild, d: string)
    requires Reads(log, r) && d in IndexOf(r.seen)
    ensures Reread(log, d)
  {
    IndexOfIff(r.seen, d);
    var i :| 0 <= i < |r.seen| && Digest(r.seen[i]) == d;
    assert log[..|log|] == log;
    assert ReadBack(log, |log|, r.size, i, d);
  }

  lemma ExplainedStep(s: State, step: Step, s': State)
    requires JobsFit(s) && IndexExplained(s) && Next(s, step) == Some(s')
    ensures IndexExplained(s')
  {
    StepGrows(s, step, s');
    forall subject, d | subject in s'.index && d in s'.index[subject] ensures Explained(LogOf(s', subject), d) {
      match step
      case Restart(reopened, rebuilds) => RebuildExplained(s.logs[subject], rebuilds[subject], d);
      case Create(created, rebuild) =>
        if subject == created {
          RebuildExplained(LogOf(s, subject), rebuild, d);
        }
      case WriteIndex(t) =>
        assert JobFits(s, t);
        if d in s.index[subject] {
          ExplainedGrows(LogOf(s, subject), LogOf(s', subject), d);
        } else {
          assert HasDigest(LogOf(s', subject), d);
        }
      case _ => ExplainedGrows(LogOf(s, subject), LogOf(s', subject), d);
    }
  }

  /** Every step at all keeps the jobs in step with the logs and every indexed digest explained. */
  lemma BaseStep(s: State, step: Step, s': State)
    requires Base(s) && Next(s, step) == Some(s')
    ensures Base(s')
  {
    JobsFitStep(s, step, s');
    ExplainedStep(s, step, s');
  }

  // ---- Runs ----

  /** The state a sequence of steps leads to, or nothing when some step is not enabled. */
  function Run(s: State, steps: seq<Step>): Option<State> {
    if steps == [] then Some(s)
    else
      match Run(s, steps[..|steps| - 1])
      case Some(mid) => Next(mid, steps[|steps| - 1])
      case None => None
  }

  /** A run that is clean for this ledger. */
  predicate CleanRun(s: State, steps: seq<Step>, subject: string) {
    steps == [] ||
    match Run(s, steps[..|steps| - 1])
    case Some(mid) => CleanRun(s, steps[..|steps| - 1], subject) && Clean(mid, steps[|steps| - 1], subject)
    case None => true
  }

  lemma {:induction false} RunKeeps(s: State, steps: seq<Step>, subject: string)
    requires Inv(s, subject) && CleanRun(s, steps, subject) && Run(s, steps).Some?
    ensures Inv(Run(s, steps).value, subject)
  {
    if steps != [] {
      var mid := Run(s, steps[..|steps| - 1]).value;
      RunKeeps(s, steps[..|steps| - 1], subject);
      StepKeeps(mid, steps[|steps| - 1], Run(s, steps).value, subject);
    }
  }

  /**
   * However appends, index writes, refused appends, crashes and restarts interleave, and whatever
   * happens to other ledgers, a ledger whose own rebuilds are clean never holds two worker entries
   * with the same receipt digest; its index entries point at entries with their digest; and every
   * entry is indexed or about to be.
   */
  lemma AtMostOnce(steps: seq<Step>, subject: string)
    requires CleanRun(INIT, steps, subject) && Run(INIT, steps).Some?
    ensures var s := Run(INIT, steps).value;
            OnceIn(LogOf(s, subject)) && IndexSound(s, subject) && IndexCovers(s, subject)
  {
    RunKeeps(INIT, steps, subject);
  }

  /** Logs are append-only: no step, clean or not, removes or rewrites an entry. */
  ghost predicate Grows(a: State, b: State) {
    forall subject :: subject in a.logs ==> subject in b.logs && a.logs[subject] <= b.logs[subject]
  }

  lemma StepGrows(s: State, step: Step, s': State)
    requires Next(s, step) == Some(s')
    ensures Grows(s, s')
  {
  }

  /** What sequential sealing leaves in an index is what a rebuild from scratch computes. */
  lemma SequentialIndexIsRebuild(log: seq<Entry>, entry: Entry)
    ensures IndexOf(Payloads(log + [entry])) == IndexOf(Payloads(log))[Digest(entry.bytes) := |log|]
  {
    assert (log + [entry])[..|log|] == log;
    assert Payloads(log + [entry]) == Payloads(log) + [entry.bytes];
    IndexOfAppend(Payloads(log), entry.bytes);
  }

  /**
   * What the worker's duplicate check is worth: from a ledger without duplicates, no receipt the
   * worker may seal next makes one exactly when the index holds every digest the worker sealed.
   */
  lemma NextSealSafeIff(s: State, subject: string)
    requires s.up && s.jobs.worker == Idle && subject in s.index && OnceIn(LogOf(s, subject))
    ensures (forall e :: Next(s, Begin(Worker, subject, e)).Some? ==> OnceIn(LogOf(s, subject) + [e]))
       <==> (forall d :: WorkerSealed(LogOf(s, subject), d) ==> d in s.index[subject])
  {
    var log := LogOf(s, subject);
    if forall d :: WorkerSealed(log, d) ==> d in s.index[subject] {
      forall e | Next(s, Begin(Worker, subject, e)).Some? ensures OnceIn(log + [e]) {
        AppendedLog(log, e);
      }
    } else {
      var d :| WorkerSealed(log, d) && d !in s.index[subject];
      var i :| 0 <= i < |log| && log[i].from.FromWorker? && Digest(log[i].bytes) == d;
      assert Next(s, Begin(Worker, subject, log[i])).Some?;
      assert (log + [log[i]])[i] == log[i] && (log + [log[i]])[|log|] == log[i];
      assert !OnceIn(log + [log[i]]);
    }
  }

  /**
   * A rebuild that stopped early leaves the check just as good as a full one exactly when every
   * digest behind the stop already occurs before it.
   */
  lemma PartialRebuildIff(log: seq<Entry>, k: nat)
    requires k <= |log|
    ensures (forall i :: 0 <= i < |log| ==> Digest(log[i].bytes) in IndexOf(Payloads(log[..k])))
       <==> (forall i :: k <= i < |log| ==> exists j :: 0 <= j < k && Digest(log[j].bytes) == Digest(log[i].bytes))
  {
    var part := Payloads(log[..k]);
    forall i | 0 <= i < |log|
      ensures Digest(log[i].bytes) in IndexOf(part)
         <==> exists j :: 0 <= j < k && Digest(log[j].bytes) == Digest(log[i].bytes)
    {
      IndexOfIff(part, Digest(log[i].bytes));
      if j :| 0 <= j < k && Digest(log[j].bytes) == Digest(log[i].bytes) {
        assert part[j] == log[j].bytes;
      }
      if j :| 0 <= j < |part| && Digest(part[j]) == Digest(log[i].bytes) {
        assert part[j] == log[j].bytes;
      }
    }
  }

  lemma Extend(s: State, steps: seq<Step>, step: Step)
    requires Run(s, steps).Some?
    ensures Run(s, steps + [step]) == Next(Run(s, steps).value, step)
  {
    assert (steps + [step])[..|steps|] == steps;
  }

  /**
   * A restart whose rebuild misses a receipt that the worker sealed, in whatever ledger and state,
   * lets the worker seal it a second time.
   */
  lemma MissedIsSealedTwice(s: State, restart: Step, subject: string, i: nat) returns (steps: seq<Step>)
    requires restart.Restart? && Next(s, restart).Some? && subject in restart.reopened
    requires i < |LogOf(s, subject)| && LogOf(s, subject)[i].from.FromWorker?
    requires Digest(LogOf(s, subject)[i].bytes) !in IndexOf(restart.rebuilds[subject].seen)
    ensures var log := LogOf(s, subject);
            && steps == [restart] + [Begin(Worker, subject, log[i])] + [Append(Worker)] && Run(s, steps).Some?
            && LogOf(Run(s, steps).value, subject) == log + [log[i]] && !OnceIn(log + [log[i]])
  {
    var log := LogOf(s, subject);
    assert [] + [restart] == [restart];
    Extend(s, [], restart);
    Extend(s, [restart], Begin(Worker, subject, log[i]));
    Extend(s, [restart] + [Begin(Worker, subject, log[i])], Append(Worker));
    steps := [restart] + [Begin(Worker, subject, log[i])] + [Append(Worker)];
    assert (log + [log[i]])[i] == log[i] && (log + [log[i]])[|log|] == log[i];
  }

  /** A rebuild that fails at its first read misses every one of them. */
  lemma FailedRebuildSealsTwice(s: State, subject: string, i: nat) returns (steps: seq<Step>)
    requires !s.up && i < |LogOf(s, subject)| && LogOf(s, subject)[i].from.FromWorker?
    ensures |steps| > 0 && steps[0] == Restart({subject}, map[subject := Rebuild(|LogOf(s, subject)|, [])]) && Run(s, steps).Some?
    ensures LogOf(Run(s, steps).value, subject) == LogOf(s, subject) + [LogOf(s, subject)[i]]
    ensures !OnceIn(LogOf(Run(s, steps).value, subject))
  {
    var restart := Restart({subject}, map[subject := Rebuild(|LogOf(s, subject)|, [])]);
    steps := MissedIsSealedTwice(s, restart, subject, i);
  }

  /**
   * A rebuild that reports success misses every receipt of 2^16 bytes or more, unless digests collide:
   * it indexes what it read in the receipt's place.
   */
  lemma OversizedSealsTwice(s: State, restart: Step, subject: string, i: nat) returns (steps: seq<Step>)
    requires restart.Restart? && Next(s, restart).Some? && subject in restart.reopened
    requires i < |LogOf(s, subject)| && LogOf(s, subject)[i].from.FromWorker? && |LogOf(s, subject)[i].bytes| >= PREFIX_LIMIT
    requires var r := restart.rebuilds[subject];
             Succeeds(LogOf(s, subject), r) && NoCollision(Payloads(LogOf(s, subject)), r.seen)
    ensures |steps| > 0 && steps[0] == restart && Run(s, steps).Some?
    ensures LogOf(Run(s, steps).value, subject) == LogOf(s, subject) + [LogOf(s, subject)[i]]
    ensures !OnceIn(LogOf(Run(s, steps).value, subject))
  {
    OversizedIsMissed(Payloads(LogOf(s, subject)), restart.rebuilds[subject].seen, i);
    steps := MissedIsSealedTwice(s, restart, subject, i);
  }

  /**
   * What a restart may take for sealed: the worker turns away no receipt that was never sealed
   * exactly when everything the rebuild read has the digest of an entry.
   */
  lemma NothingHiddenIff(s: State, restart: Step, s': State, subject: string)
    requires restart.Restart? && Next(s, restart) == Some(s') && subject in restart.reopened
    ensures var log, seen := LogOf(s, subject), restart.rebuilds[subject].seen;
            (forall e: Entry :: e.from.FromWorker? && !HasDigest(log, Digest(e.bytes)) ==> Next(s', Begin(Worker, subject, e)).Some?)
            <==> (forall k :: 0 <= k < |seen| ==> HasDigest(log, Digest(seen[k])))
  {
    var log, seen := LogOf(s, subject), restart.rebuilds[subject].seen;
    forall d ensures d in s'.index[subject] <==> exists k :: 0 <= k < |seen| && Digest(seen[k]) == d {
      IndexOfIff(seen, d);
    }
    if k :| 0 <= k < |seen| && !HasDigest(log, Digest(seen[k])) {
      assert Next(s', Begin(Worker, subject, Entry(seen[k], FromWorker(0)))) == None;
    }
  }

  // ---- Runs from the start ----

  ghost predicate NoRestart(steps: seq<Step>) {
    forall i :: 0 <= i < |steps| ==> !steps[i].Restart?
  }

  lemma SealOnceThenCrash(subject: string, e: Entry) returns (steps: seq<Step>)
    requires e.from.FromWorker?
    ensures Run(INIT, steps) == Some(State(map[subject := [e]], false, map[], ALL_IDLE)) && NoRestart(steps)
  {
    steps := [];
    var create := Create(subject, Rebuild(0, []));
    Extend(INIT, steps, create);
    steps := steps + [create];
    assert Run(INIT, steps).value.logs == map[subject := []];
    Extend(INIT, steps, Begin(Worker, subject, e));
    steps := steps + [Begin(Worker, subject, e)];
    Extend(INIT, steps, Append(Worker));
    steps := steps + [Append(Worker)];
    assert [] + [e] == [e];
    assert Run(INIT, steps).value.logs == map[subject := [e]];
    Extend(INIT, steps, Crash);
    steps := steps + [Crash];
  }

  lemma RestartWith(subject: string, e: Entry, r: Rebuild) returns (before: seq<Step>)
    requires e.from.FromWorker? && Reads([e], r)
    ensures NoRestart(before)
    ensures Run(INIT, before + [Restart({subject}, map[subject := r])])
         == Some(State(map[subject := [e]], true, map[subject := IndexOf(r.seen)], ALL_IDLE))
  {
    before := SealOnceThenCrash(subject, e);
    var restart := Restart({subject}, map[subject := r]);
    Extend(INIT, before, restart);
    assert Run(INIT, before + [restart]).value.index == map[subject := IndexOf(r.seen)];
  }

  /** A run, from the start, through a rebuild that misses the ledger's one receipt. */
  lemma MissedRun(subject: string, e: Entry, r: Rebuild) returns (before: seq<Step>, steps: seq<Step>)
    requires e.from.FromWorker? && Reads([e], r) && Digest(e.bytes) !in IndexOf(r.seen)
    ensures NoRestart(before) && steps == before + [Restart({subject}, map[subject := r])] + [Begin(Worker, subject, e)] + [Append(Worker)]
    ensures Run(INIT, steps).Some? && Run(INIT, steps).value.logs == map[subject := [e, e]] && !OnceIn([e, e])
  {
    before := RestartWith(subject, e, r);
    steps := before + [Restart({subject}, map[subject := r])];
    Extend(INIT, steps, Begin(Worker, subject, e));
    steps := steps + [Begin(Worker, subject, e)];
    Extend(INIT, steps, Append(Worker));
    steps := steps + [Append(Worker)];
    assert [e] + [e] == [e, e];
    assert Run(INIT, steps).value.logs == map[subject := [e, e]];
    assert [e, e][0].from.FromWorker? && [e, e][1].from.FromWorker?;
  }

  /** What a successful rebuild makes of a ledger that holds one entry of 2^16 zero bytes. */
  lemma ZerosRebuild(z: Bytes, from: Origin)
    requires |z| == PREFIX_LIMIT && AllZero(z)
    ensures var e, r := Entry(z, from), Rebuild(1, [[]]);
            Reads([e], r) && Succeeds([e], r) && IndexOf(r.seen) == map[Digest([]) := 0]
  {
    var e, r := Entry(z, from), Rebuild(1, [[]]);
    assert Payloads([e]) == [z];
    ZerosReadEmpty(z);
    assert ReaderOf([z], 1)(0) == Ok([]);
    assert r.seen[..0] == [];
  }

  /** That one reports success. */
  lemma OversizedRun(subject: string, z: Bytes, msg: nat) returns (before: seq<Step>, steps: seq<Step>)
    requires |z| == PREFIX_LIMIT && AllZero(z) && Digest(z) != Digest([])
    ensures var e, r := Entry(z, FromWorker(msg)), Rebuild(1, [[]]);
            && NoRestart(before) && Succeeds([e], r)
            && steps == before + [Restart({subject}, map[subject := r])] + [Begin(Worker, subject, e)] + [Append(Worker)]
            && Run(INIT, steps).Some? && Run(INIT, steps).value.logs == map[subject := [e, e]] && !OnceIn([e, e])
  {
    var e, r := Entry(z, FromWorker(msg)), Rebuild(1, [[]]);
    ZerosRebuild(z, FromWorker(msg));
    before, steps := MissedRun(subject, e, r);
  }

  /** And to one that takes for sealed what never was: the digest it indexed is no entry's. */
  lemma OversizedHidesOther(subject: string, z: Bytes, msg: nat, other: nat) returns (steps: seq<Step>)
    requires |z| == PREFIX_LIMIT && AllZero(z) && Digest(z) != Digest([])
    ensures Run(INIT, steps).Some?
    ensures var s, e := Run(INIT, steps).value, Entry([], FromWorker(other));
            && subject in s.index && Digest(e.bytes) in s.index[subject] && !HasDigest(LogOf(s, subject), Digest(e.bytes))
            && Next(s, Begin(Worker, subject, e)) == None
  {
    var e, r := Entry(z, FromWorker(msg)), Rebuild(1, [[]]);
    ZerosRebuild(z, FromWorker(msg));
    var before := RestartWith(subject, e, r);
    steps := before + [Restart({subject}, map[subject := r])];
  }
}
