/** The locker's two admin handlers as they are written: create a ledger and seal its registration; seal a trust change. */
module AdminSubscribers {
  import opened Wrappers
  import opened DigestIndex
  import opened Receipts
  import opened StorageRef
  import opened TrustKv
  import opened Ledgers
  import opened Lockers
  import opened Pipeline
  import opened Workers
  import SP = SealProtocol

  /** The locker after a trust request: one more entry, or nothing. */
  function AfterSeal(lk: SP.State, subject: string, receipt: Option<Bytes>, accepted: bool, from: SP.Origin): SP.State {
    if subject in lk.index && receipt.Some? && accepted then WithEntry(lk, subject, SP.Entry(receipt.value, from)) else lk
  }

  lemma SealIsThreeSteps(lk: SP.State, t: SP.Thread, subject: string, e: SP.Entry)
    requires lk.up && t != SP.Worker && lk.jobs.Get(t) == SP.Idle && SP.Owns(t, e) && subject in lk.index
    ensures SP.Run(lk, [SP.Begin(t, subject, e), SP.Append(t), SP.WriteIndex(t)]) == Some(WithEntry(lk, subject, e))
  {
    var a, b, c := SP.Begin(t, subject, e), SP.Append(t), SP.WriteIndex(t);
    assert [a, b, c][..2] == [a, b] && [a, b][..1] == [a] && [a][..0] == [];
    assert SP.Run(lk, [a][..0]) == Some(lk);
    var s1 := SP.Next(lk, a).value;
    assert SP.Run(lk, [a]) == Some(s1);
    var s2 := SP.Next(s1, b).value;
    assert SP.Run(lk, [a, b]) == Some(s2);
    assert s2.jobs.Set(t, SP.Idle) == lk.jobs;
  }

  /** What a registration that is let in leads to: the machine's creation step, then the seal. */
  function AfterRegister(lk: SP.State, subject: string, r: SP.Rebuild, receipt: Option<Bytes>, accepted: bool, op: nat): Option<SP.State> {
    match SP.Next(lk, SP.Create(subject, r))
    case Some(started) => Some(AfterSeal(started, subject, receipt, accepted, SP.Registration(op)))
    case None => None
  }

  ghost predicate Becomes(locker: Locker, subject: string, lk: Option<SP.State>)
    reads locker, Touched(locker, subject)
  {
    lk.Some? && Represents(locker, subject, lk.value)
  }

  predicate ByRegistrar(step: SP.Step) {
    (step.Begin? || step.Append? || step.WriteIndex?) && step.t == SP.Registrar
  }

  /** The whole handler is a run of the sealing machine, through the registrar's own steps. */
  lemma RegisterIsRun(lk: SP.State, subject: string, r: SP.Rebuild, receipt: Option<Bytes>, accepted: bool, op: nat)
    returns (steps: seq<SP.Step>)
    requires lk.up && subject !in lk.index && SP.Reads(SP.LogOf(lk, subject), r) && lk.jobs.registrar == SP.Idle
    ensures AfterRegister(lk, subject, r, receipt, accepted, op).Some?
    ensures SP.Run(lk, steps) == AfterRegister(lk, subject, r, receipt, accepted, op)
    ensures |steps| >= 1 && steps[0] == SP.Create(subject, r) && forall i :: 1 <= i < |steps| ==> ByRegistrar(steps[i])
  {
    var create := SP.Create(subject, r);
    var mid := SP.Next(lk, create).value;
    assert [create][..0] == [] && SP.Run(lk, [create][..0]) == Some(lk);
    steps := [create];
    if receipt.Some? && accepted {
      var e := SP.Entry(receipt.value, SP.Registration(op));
      SealIsThreeSteps(mid, SP.Registrar, subject, e);
      var seal := [SP.Begin(SP.Registrar, subject, e), SP.Append(SP.Registrar), SP.WriteIndex(SP.Registrar)];
      RunAfter(lk, create, mid, seal);
      steps := [create] + seal;
    }
  }

  lemma {:induction false} RunAfter(lk: SP.State, step: SP.Step, mid: SP.State, steps: seq<SP.Step>)
    requires SP.Next(lk, step) == Some(mid)
    ensures SP.Run(lk, [step] + steps) == SP.Run(mid, steps)
  {
    var all := [step] + steps;
    if steps == [] {
      assert all == [step] && all[..0] == [];
      assert SP.Run(lk, all[..0]) == Some(lk);
    } else {
      assert all[..|all| - 1] == [step] + steps[..|steps| - 1];
      RunAfter(lk, step, mid, steps[..|steps| - 1]);
    }
  }

  class AdminSubscriber {
    const locker: Locker

    constructor (lk: Locker)
      ensures locker == lk
    {
      locker := lk;
    }

    /**
     * Seals the receipt of a trust change, with no duplicate check. It answers with the index the
     * entry got, or refuses and leaves every ledger as it was.
     */
    method HandleSealTrust(subject: string, list: TrustList, operator: Publisher, at: string, accepted: bool,
                           ghost lk: SP.State, ghost op: nat)
      returns (r: Result<nat, string>)
      requires locker.Valid() && Represents(locker, subject, lk)
      modifies Touched(locker, subject)
      ensures Represents(locker, subject, AfterSeal(lk, subject, TrustReceipt(subject, list, operator, at), accepted, SP.TrustChange(op)))
      ensures r.Ok? <==> subject in locker.ledgers && TrustReceipt(subject, list, operator, at).Some? && accepted
      ensures r.Ok? ==> r.value == |SP.LogOf(lk, subject)|
    {
      var found := locker.GetLedger(subject);
      if found.None? {
        return Err("ledger not found");
      }
      var receipt := TrustReceipt(subject, list, operator, at);
      if receipt.None? {
        return Err("wrapping receipt");
      }
      var index := found.value.Seal(receipt.value, accepted);
      if index.None? {
        return Err("sealing receipt");
      }
      PayloadsAppend(SP.LogOf(lk, subject), SP.Entry(receipt.value, SP.TrustChange(op)));
      return Ok(index.value);
    }

    /** Wraps and seals the registration into the ledger just opened. */
    method SealRegistration(ledger: Ledger, subject: string, registrant: Publisher, at: string, accepted: bool,
                            ghost lk: SP.State, ghost op: nat)
      returns (r: Result<(), string>)
      requires ledger.Valid() && subject in lk.index && Mirrors(ledger, SP.LogOf(lk, subject), lk.index[subject])
      modifies ledger
      ensures ledger.Valid()
      ensures var lk' := AfterSeal(lk, subject, RegistrationReceipt(subject, registrant, at), accepted, SP.Registration(op));
              Mirrors(ledger, SP.LogOf(lk', subject), lk'.index[subject])
      ensures r.Ok? <==> RegistrationReceipt(subject, registrant, at).Some? && accepted
    {
      var receipt := RegistrationReceipt(subject, registrant, at);
      if receipt.None? {
        return Err("wrapping receipt");
      }
      var index := ledger.Seal(receipt.value, accepted);
      if index.None? {
        return Err("sealing receipt");
      }
      PayloadsAppend(SP.LogOf(lk, subject), SP.Entry(receipt.value, SP.Registration(op)));
      return Ok(());
    }

    /**
     * Registers a subject. A bad id, an open ledger or a storage failure is refused with nothing
     * changed. Once the ledger is open it stays open, with the index of whatever its rebuild read: if
     * its receipt cannot be wrapped or sealed the caller is refused, yet any later registration of the
     * subject will find the ledger.
     */
    method HandleRegister(subject: string, registrant: Publisher, at: string, opens: bool, disk: Disk, accepted: bool,
                          ghost lk: SP.State, ghost op: nat)
      returns (r: Result<(), string>)
      requires locker.Valid() && Represents(locker, subject, lk) && lk.up && disk.entries == SP.Payloads(SP.LogOf(lk, subject))
      modifies locker
      ensures ValidSubjectID(subject) && subject !in old(locker.ledgers) && opens ==>
                Becomes(locker, subject, AfterRegister(lk, subject, SP.Rebuild(disk.size, SeenOn(disk)),
                                                       RegistrationReceipt(subject, registrant, at), accepted, op))
      ensures ValidSubjectID(subject) && subject !in old(locker.ledgers) && opens ==>
                && subject in locker.ledgers && fresh(locker.ledgers[subject])
                && locker.ledgers == old(locker.ledgers)[subject := locker.ledgers[subject]]
      ensures !(ValidSubjectID(subject) && subject !in old(locker.ledgers) && opens) ==> locker.ledgers == old(locker.ledgers)
      ensures r.Ok? <==> && ValidSubjectID(subject) && subject !in old(locker.ledgers) && opens
                         && RegistrationReceipt(subject, registrant, at).Some? && accepted
    {
      var ledger := locker.CreateLedger(subject, opens, disk);
      if ledger.Err? {
        return Err("creating ledger");
      }
      assert locker.ledgers[subject].Valid();
      ghost var started := OpenedBy(lk, subject, disk);
      r := SealRegistration(ledger.value, subject, registrant, at, accepted, started, op);
    }
  }

  /** A rebuild of the stored log is one the machine allows. */
  lemma OpenedBy(lk: SP.State, subject: string, disk: Disk) returns (mid: SP.State)
    requires lk.up && subject !in lk.index && disk.entries == SP.Payloads(SP.LogOf(lk, subject))
    ensures SP.Next(lk, SP.Create(subject, SP.Rebuild(disk.size, SeenOn(disk)))) == Some(mid)
    ensures SP.LogOf(mid, subject) == SP.LogOf(lk, subject) && subject in mid.index && mid.index[subject] == IndexOf(SeenOn(disk))
  {
    SeenReads(disk.entries, disk.size, disk.fault);
    mid := SP.Next(lk, SP.Create(subject, SP.Rebuild(disk.size, SeenOn(disk)))).value;
  }
}
