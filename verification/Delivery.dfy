/** Delivery of queued messages: what is final, what is conserved, and why it comes to an end. */
module Delivery {
  import opened Wrappers
  import opened Pipeline
  import opened PipelineSafety
  import SP = SealProtocol

  // ---- Settled messages ----

  predicate Settled(status: Status) {
    status == Acked || status == Termed || status == AgedOut
  }

  /** What a step may do to one message: nothing before it is delivered again or settled, nothing after. */
  predicate Moves(a: Msg, b: Msg) {
    && a.ref == b.ref && a.deliveries <= b.deliveries <= a.deliveries + 1
    && (a.status == b.status ==> a.deliveries == b.deliveries)
    && (Settled(a.status) ==> a == b)
    && (a.status == Exhausted ==> b.status == Exhausted || b.status == AgedOut)
    && (b.deliveries == a.deliveries + 1 ==> a.status == Pending && b.status == Outstanding)
  }

  ghost predicate QueueMoves(a: seq<Msg>, b: seq<Msg>) {
    |a| <= |b| && forall m :: 0 <= m < |a| ==> Moves(a[m], b[m])
  }

  /**
   * Published messages are never lost: each keeps its place and its content, is delivered again
   * only out of the queue, and once acknowledged, terminated or aged out it never changes.
   */
  lemma StepMoves(s: State, step: Step, s': State)
    requires Next(s, step) == Some(s')
    ensures QueueMoves(s.queue, s'.queue)
    ensures |s'.queue| == |s.queue| + if step.Bus? && step.b.Publish? then 1 else 0
  {
    match step
    case Work(w) => WorkMoves(s, w, s');
    case Admin(a) => AdminLeavesQueue(s, a, s');
    case _ =>
  }

  lemma WorkMoves(s: State, step: WorkStep, s': State)
    requires WorkNext(s, step) == Some(s')
    ensures QueueMoves(s.queue, s'.queue) && |s'.queue| == |s.queue|
  {
  }

  // ---- The measure ----

  /** Work steps one delivery can cost, with its redelivery timer and a margin. */
  const PER_DELIVERY := 10

  function Weight(msg: Msg): nat {
    var left := if msg.deliveries <= MAX_DELIVER then MAX_DELIVER - msg.deliveries else 0;
    match msg.status
    case Pending => PER_DELIVERY * left + 2
    case Outstanding => PER_DELIVERY * left + 3
    case Exhausted => 1
    case _ => 0
  }

  function Total(queue: seq<Msg>): nat {
    if queue == [] then 0 else Total(queue[..|queue| - 1]) + Weight(queue[|queue| - 1])
  }

  /** Moves the worker still has to make with the message it holds. */
  function Rank(lk: SP.State, worker: WorkerPc): nat {
    match worker
    case WIdle => 0
    case WGot(_) => 6
    case WSealing(_) => if lk.jobs.worker.Ready? then 5 else 4
    case WSealed(_, _) => 3
    case WDone(_) => 2
    case WFailed(_, _) => 2
  }

  function Measure(s: State): nat {
    Total(s.queue) + Rank(s.lk, s.worker)
  }

  lemma {:induction false} TotalUpdate(queue: seq<Msg>, m: nat, msg: Msg)
    requires m < |queue|
    ensures Total(queue[m := msg]) == Total(queue) - Weight(queue[m]) + Weight(msg)
  {
    var front := queue[..|queue| - 1];
    if m < |front| {
      TotalUpdate(front, m, msg);
      assert queue[m := msg][..|queue| - 1] == front[m := msg];
    } else {
      assert queue[m := msg][..|queue| - 1] == front;
    }
  }

  /** Steps that move a message or the worker, as opposed to publishing, administration and crashes. */
  predicate IsWork(step: Step) {
    step.Work? || (step.Bus? && !step.b.Publish?)
  }

  predicate IsPublish(step: Step) {
    step.Bus? && step.b.Publish?
  }

  /** The measure a fresh message brings with it. */
  const FRESH := PER_DELIVERY * MAX_DELIVER + 2

  lemma QueueWorkDecreases(s: State, step: BusStep, s': State)
    requires BusNext(s, step) == Some(s') && !step.Publish?
    ensures Measure(s') < Measure(s)
  {
    var m := step.m;
    TotalUpdate(s.queue, m, s'.queue[m]);
  }

  lemma DeliverDecreases(s: State, m: nat, s': State)
    requires WorkNext(s, Deliver(m)) == Some(s')
    ensures Measure(s') < Measure(s)
  {
    TotalUpdate(s.queue, m, s'.queue[m]);
  }

  lemma SettleDecreases(s: State, heard: bool, s': State)
    requires WorkNext(s, Settle(heard)) == Some(s')
    ensures Measure(s') < Measure(s)
  {
    TotalUpdate(s.queue, s.worker.m, s'.queue[s.worker.m]);
  }

  lemma WorkDecreases(s: State, step: WorkStep, s': State)
    requires WorkNext(s, step) == Some(s')
    ensures Measure(s') < Measure(s)
  {
    match step
    case Deliver(m) => DeliverDecreases(s, m, s');
    case Settle(heard) => SettleDecreases(s, heard, s');
    case _ => assert s'.queue == s.queue;
  }

  /** The admin handlers leave the worker's own job where it is. */
  lemma AdminLeavesRank(s: State, step: AdminStep, s': State)
    requires AdminNext(s, step) == Some(s')
    ensures s'.lk.jobs.worker == s.lk.jobs.worker
  {
    if step.TakeRegister? {
      TakeRegisterFrame(s, step.op, step.ok, step.at, step.rebuild, s');
    }
  }

  /** Every step of work lowers the measure; only publishing raises it, by a fixed amount. */
  lemma StepMeasure(s: State, step: Step, s': State)
    requires Next(s, step) == Some(s')
    ensures Measure(s') + (if IsWork(step) then 1 else 0) <= Measure(s) + if IsPublish(step) then FRESH else 0
  {
    match step
    case Work(w) => WorkDecreases(s, w, s');
    case Admin(a) =>
      AdminLeavesQueue(s, a, s');
      AdminLeavesRank(s, a, s');
    case Bus(b) =>
      if !b.Publish? {
        QueueWorkDecreases(s, b, s');
      } else {
        assert s'.queue[..|s.queue|] == s.queue;
      }
    case _ =>
  }

  // ---- Whole runs ----

  function Count(steps: seq<Step>, p: Step -> bool): nat {
    if steps == [] then 0
    else Count(steps[..|steps| - 1], p) + if p(steps[|steps| - 1]) then 1 else 0
  }

  /**
   * Work is bounded: in any run whatsoever, with any number of crashes, lost acknowledgements and
   * redeliveries, the queue and the worker make at most what the initial backlog allows plus a
   * fixed number of steps for every message published. A finite set of messages always settles.
   */
  lemma {:induction false} WorkIsBounded(s: State, steps: seq<Step>)
    requires Run(s, steps).Some?
    ensures Count(steps, IsWork) + Measure(Run(s, steps).value) <= Measure(s) + FRESH * Count(steps, IsPublish)
  {
    if steps != [] {
      var front, last := steps[..|steps| - 1], steps[|steps| - 1];
      WorkIsBounded(s, front);
      StepMeasure(Run(s, front).value, last, Run(s, steps).value);
    }
  }

  ghost predicate Enabled(s: State, step: Step) {
    Next(s, step).Some?
  }

  lemma CheckIsEnabled(s: State)
    requires Coupled(s.queue, s.worker, s.lk) && s.worker.WGot?
    ensures WorkNext(s, Check).Some?
  {
  }

  lemma SealingIsEnabled(s: State)
    requires Coupled(s.queue, s.worker, s.lk) && SP.JobFits(s.lk, SP.Worker) && s.worker.WSealing?
    ensures WorkNext(s, if s.lk.jobs.worker.Ready? then Append(true) else Index).Some?
  {
  }

  lemma FinishIsEnabled(s: State)
    requires Coupled(s.queue, s.worker, s.lk) && (s.worker.WSealed? || s.worker.WDone? || s.worker.WFailed?)
    ensures WorkNext(s, if s.worker.WSealed? then Emit(true) else Settle(true)).Some?
  {
  }

  /** A worker that holds a message always has a move. */
  lemma BusyWorkerCanMove(s: State)
    requires Base(s) && s.worker != WIdle
    ensures exists w :: WorkNext(s, w).Some?
  {
    if s.worker.WGot? {
      CheckIsEnabled(s);
    } else if s.worker.WSealing? {
      assert SP.JobFits(s.lk, SP.Worker);
      SealingIsEnabled(s);
    } else {
      FinishIsEnabled(s);
    }
  }

  /** Sealed and acknowledged, or taken for sealed; terminated; out of deliveries; aged out. */
  ghost predicate Finished(lk: SP.State, msg: Msg) {
    msg.status == Exhausted || msg.status == AgedOut || msg.status == Termed || (msg.status == Acked && Accounted(lk, msg.ref))
  }

  /**
   * The work does not stop early: with the locker up, when neither the worker nor the redelivery
   * timer can move, the worker is idle and every message is finished.
   */
  lemma QuietMeansSettled(s: State)
    requires Base(s) && s.lk.up
    requires forall w :: !Enabled(s, Work(w))
    requires forall m :: !Enabled(s, Bus(Expire(m)))
    ensures s.worker == WIdle
    ensures forall m :: 0 <= m < |s.queue| ==> Finished(s.lk, s.queue[m])
  {
    if s.worker != WIdle {
      BusyWorkerCanMove(s);
      var w :| WorkNext(s, w).Some?;
      assert Enabled(s, Work(w));
    }
    forall m | 0 <= m < |s.queue| ensures Finished(s.lk, s.queue[m]) {
      assert MsgOk(s.lk, s.queue[m]);
      assert !Enabled(s, Work(Deliver(m))) && !Enabled(s, Bus(Expire(m)));
    }
  }
}
