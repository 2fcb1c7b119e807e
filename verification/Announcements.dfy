/**
 * What becomes of the announcement of a sealed receipt. The worker appends, writes the index and
 * publishes the event in three steps; a duplicate is acknowledged without an event. So an entry
 * whose event is not published at once is never announced later.
 */
module Announcements {
  import opened Wrappers
  import opened Receipts
  import opened Authn
  import opened Pipeline
  import opened PipelineSafety
  import Delivery
  import SP = SealProtocol

  /** A position in a subject's ledger. */
  type Place = (string, nat)

  ghost predicate WorkerSealed(lk: SP.State, at: Place) {
    at.0 in lk.logs && at.1 < |lk.logs[at.0]| && lk.logs[at.0][at.1].from.FromWorker?
  }

  ghost predicate Announced(events: seq<SealedEvent>, at: Place) {
    exists k :: 0 <= k < |events| && (events[k].subject, events[k].logIndex) == at
  }

  /** The entry the worker has appended but not yet announced. */
  function Window(s: State): Option<Place> {
    if s.worker.WSealing? && s.lk.jobs.worker.Appended? then Some((s.lk.jobs.worker.subject, s.lk.jobs.worker.at))
    else if s.worker.WSealed? && s.worker.m < |s.queue| then Some((s.queue[s.worker.m].ref.subject, s.worker.at))
    else None
  }

  /** Steps that drop the announcement of the entry in the window: a crash or a failed publish. */
  predicate Drops(step: Step) {
    step.Crash? || step == Work(Emit(false))
  }

  /** The entries whose announcement a run has dropped. */
  ghost function Lost(s: State, steps: seq<Step>): set<Place> {
    if steps == [] || Run(s, steps[..|steps| - 1]).None? then {}
    else
      var mid := Run(s, steps[..|steps| - 1]).value;
      Lost(s, steps[..|steps| - 1]) + if Drops(steps[|steps| - 1]) && Window(mid).Some? then {Window(mid).value} else {}
  }

  ghost predicate Distinct(events: seq<SealedEvent>) {
    forall i, j :: 0 <= i < j < |events| ==> (events[i].subject, events[i].logIndex) != (events[j].subject, events[j].logIndex)
  }

  /** Every worker entry is announced, in the window, or lost; and never two of the three. */
  ghost predicate Accounted(s: State, lost: set<Place>) {
    && Distinct(s.events)
    && (forall at: Place :: WorkerSealed(s.lk, at) <==> Announced(s.events, at) || Window(s) == Some(at) || at in lost)
    && (forall at: Place :: at in lost ==> !Announced(s.events, at) && Window(s) != Some(at))
    && (Window(s).Some? ==> !Announced(s.events, Window(s).value))
  }

  /** Steps that leave the worker's entries, the window and the events as they are. */
  lemma Same(s: State, s': State, lost: set<Place>)
    requires Accounted(s, lost) && s'.events == s.events && Window(s') == Window(s)
    requires forall at: Place :: WorkerSealed(s'.lk, at) <==> WorkerSealed(s.lk, at)
    ensures Accounted(s', lost)
  {
  }

  lemma SameLogs(lk: SP.State, step: SP.Step, lk': SP.State)
    requires SP.Next(lk, step) == Some(lk') && (step.Append? ==> SP.JobFits(lk, step.t) && step.t != SP.Worker)
    ensures forall at: Place :: WorkerSealed(lk', at) <==> WorkerSealed(lk, at)
  {
    forall at: Place ensures WorkerSealed(lk', at) <==> WorkerSealed(lk, at) {
      if step.Append? && at.0 in lk'.logs && at.1 < |lk'.logs[at.0]| {
        assert lk'.logs[at.0] == SP.LogOf(lk, at.0) || lk'.logs[at.0] == SP.LogOf(lk, at.0) + [lk.jobs.Get(step.t).entry];
      }
    }
  }

  /** The worker's append puts one new entry, and that one alone, in the window. */
  lemma AppendAccounted(s: State, s': State, lost: set<Place>)
    requires Accounted(s, lost) && Coupled(s.queue, s.worker, s.lk) && WorkNext(s, Append(true)) == Some(s')
    ensures Accounted(s', lost)
  {
    var log := SP.LogOf(s.lk, s.lk.jobs.worker.subject);
    var here := (s.lk.jobs.worker.subject, |log|);
    assert Window(s') == Some(here) && !WorkerSealed(s.lk, here);
    forall at: Place ensures WorkerSealed(s'.lk, at) <==> WorkerSealed(s.lk, at) || at == here {
      if at.0 == here.0 {
        assert s'.lk.logs[at.0] == log + [s.lk.jobs.worker.entry];
      }
    }
  }

  lemma EmitAccounted(s: State, ok: bool, s': State, lost: set<Place>)
    requires Accounted(s, lost) && WorkNext(s, Emit(ok)) == Some(s')
    ensures Accounted(s', if ok then lost else lost + {Window(s).value})
  {
    var here := Window(s).value;
    forall at: Place ensures Announced(s'.events, at) <==> Announced(s.events, at) || (ok && at == here) {
      if Announced(s.events, at) {
        var k :| 0 <= k < |s.events| && (s.events[k].subject, s.events[k].logIndex) == at;
        assert s'.events[k] == s.events[k];
      }
      if ok && at == here {
        var e := s'.events[|s.events|];
        assert (e.subject, e.logIndex) == at;
      }
    }
    forall i | 0 <= i < |s.events| ensures (s.events[i].subject, s.events[i].logIndex) != here {
      assert !Announced(s.events, here);
    }
  }

  lemma WorkAccounted(s: State, step: WorkStep, s': State, lost: set<Place>)
    requires Accounted(s, lost) && Coupled(s.queue, s.worker, s.lk) && SP.JobFits(s.lk, SP.Worker)
    requires WorkNext(s, step) == Some(s') && !step.Emit?
    ensures Accounted(s', lost)
  {
    match step
    case Append(ok) =>
      if ok {
        AppendAccounted(s, s', lost);
      } else {
        SameLogs(s.lk, SP.Abort(SP.Worker), s'.lk);
        Same(s, s', lost);
      }
    case Index =>
      SameLogs(s.lk, SP.WriteIndex(SP.Worker), s'.lk);
      Same(s, s', lost);
    case _ => Same(s, s', lost);
  }

  lemma CrashAccounted(s: State, s': State, lost: set<Place>)
    requires Accounted(s, lost) && Next(s, Crash) == Some(s')
    ensures Accounted(s', lost + if Window(s).Some? then {Window(s).value} else {})
  {
    assert s'.lk.logs == s.lk.logs && Window(s') == None;
  }

  lemma TakeLogs(s: State, step: AdminStep, s': State)
    requires (step.TakeRegister? || step.TakeSeal? || step.Reply?) && AdminNext(s, step) == Some(s')
    ensures forall subject :: SP.LogOf(s'.lk, subject) == SP.LogOf(s.lk, subject)
  {
    if step.TakeRegister? {
      TakeRegisterFrame(s, step.op, step.ok, step.at, step.rebuild, s');
    }
  }

  lemma AdminLogs(s: State, step: AdminStep, s': State)
    requires SP.JobsFit(s.lk) && AdminNext(s, step) == Some(s')
    ensures forall at: Place :: WorkerSealed(s'.lk, at) <==> WorkerSealed(s.lk, at)
  {
    assert SP.JobFits(s.lk, SP.Registrar) && SP.JobFits(s.lk, SP.Sealer);
    match step
    case RegistrarAppend(ok) => SameLogs(s.lk, if ok then SP.Append(SP.Registrar) else SP.Abort(SP.Registrar), s'.lk);
    case SealerAppend(ok) => SameLogs(s.lk, if ok then SP.Append(SP.Sealer) else SP.Abort(SP.Sealer), s'.lk);
    case RegistrarIndex => SameLogs(s.lk, SP.WriteIndex(SP.Registrar), s'.lk);
    case SealerIndex => SameLogs(s.lk, SP.WriteIndex(SP.Sealer), s'.lk);
    case _ =>
      TakeLogs(s, step, s');
      forall at: Place ensures WorkerSealed(s'.lk, at) <==> WorkerSealed(s.lk, at) {
        assert SP.LogOf(s'.lk, at.0) == SP.LogOf(s.lk, at.0);
      }
  }

  lemma AdminAccounted(s: State, step: AdminStep, s': State, lost: set<Place>)
    requires Accounted(s, lost) && SP.JobsFit(s.lk) && AdminNext(s, step) == Some(s')
    ensures Accounted(s', lost)
  {
    AdminLogs(s, step, s');
    AdminLeavesQueue(s, step, s');
    Delivery.AdminLeavesRank(s, step, s');
    Same(s, s', lost);
  }

  /** The gateway, the queue and a restart touch neither the window nor the entries. */
  lemma QuietAccounted(s: State, step: Step, s': State, lost: set<Place>)
    requires Accounted(s, lost) && Coupled(s.queue, s.worker, s.lk)
    requires (step.Gw? || step.Bus? || step.Restart?) && Next(s, step) == Some(s')
    ensures Accounted(s', lost)
  {
    QuietFrame(s, step, s');
    Same(s, s', lost);
  }

  lemma QuietFrame(s: State, step: Step, s': State)
    requires (step.Gw? || step.Bus? || step.Restart?) && Next(s, step) == Some(s') && Coupled(s.queue, s.worker, s.lk)
    ensures s'.lk.logs == s.lk.logs && s'.events == s.events && Window(s') == Window(s)
  {
    if step.Bus? {
      BusFrame(s, step.b, s');
    }
  }

  lemma BusFrame(s: State, step: BusStep, s': State)
    requires BusNext(s, step) == Some(s') && Coupled(s.queue, s.worker, s.lk)
    ensures s'.lk == s.lk && s'.events == s.events && Window(s') == Window(s)
  {
  }

  lemma StepAccounted(s: State, step: Step, s': State, lost: set<Place>)
    requires Accounted(s, lost) && Coupled(s.queue, s.worker, s.lk) && SP.JobsFit(s.lk) && Next(s, step) == Some(s')
    ensures Accounted(s', lost + if Drops(step) && Window(s).Some? then {Window(s).value} else {})
  {
    assert lost + {} == lost;
    match step
    case Work(w) =>
      if w.Emit? {
        EmitAccounted(s, w.ok, s', lost);
      } else {
        assert SP.JobFits(s.lk, SP.Worker);
        WorkAccounted(s, w, s', lost);
      }
    case Admin(a) => AdminAccounted(s, a, s', lost);
    case Crash => CrashAccounted(s, s', lost);
    case _ => QuietAccounted(s, step, s', lost);
  }

  lemma {:induction false} RunAccounted(cfg: Registry, steps: seq<Step>)
    requires Laws() && Run(Init(cfg), steps).Some?
    ensures Accounted(Run(Init(cfg), steps).value, Lost(Init(cfg), steps))
  {
    if steps != [] {
      var front := steps[..|steps| - 1];
      RunBase(cfg, front);
      RunAccounted(cfg, front);
      StepAccounted(Run(Init(cfg), front).value, steps[|steps| - 1], Run(Init(cfg), steps).value, Lost(Init(cfg), front));
    }
  }

  /**
   * In every run: no two events announce one entry; events announce only worker entries; and a
   * worker entry that is neither announced nor in the window is exactly one whose announcement a
   * crash or a failed publish dropped. No redelivery ever makes up for it.
   */
  lemma AnnouncedUnlessDropped(cfg: Registry, steps: seq<Step>, at: Place)
    requires Laws() && Run(Init(cfg), steps).Some?
    ensures var s := Run(Init(cfg), steps).value;
            && Distinct(s.events)
            && (Announced(s.events, at) ==> WorkerSealed(s.lk, at))
            && (WorkerSealed(s.lk, at) && !Announced(s.events, at) && Window(s) != Some(at) <==> at in Lost(Init(cfg), steps))
  {
    RunAccounted(cfg, steps);
  }
}
