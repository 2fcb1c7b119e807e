/**
 * The publisher-trust bucket: a revisioned key-value store whose writers read a revision and then
 * compare-and-swap against it. Revisions are positions in the bucket's stream of writes.
 */
module TrustKv {
  import opened Wrappers
  import opened Receipts

  type TrustList = seq<Publisher>

  datatype Versioned = Versioned(list: TrustList, rev: nat)

  /** A successful write: what it wrote, the revision it replaced, and the operation it belongs to. */
  datatype Write = Write(subject: string, list: TrustList, read: Option<nat>, op: nat)

  /** Current values, and every successful write so far; the n-th write has revision n. */
  datatype Kv = Kv(entries: map<string, Versioned>, writes: seq<Write>)

  const EMPTY := Kv(map[], [])

  function Revision(kv: Kv, subject: string): Option<nat> {
    if subject in kv.entries then Some(kv.entries[subject].rev) else None
  }

  /** `Create` when nothing was read, `Update` against the revision that was; nothing on a mismatch. */
  function Commit(kv: Kv, w: Write): Option<Kv> {
    if w.read == Revision(kv, w.subject)
    then Some(Kv(kv.entries[w.subject := Versioned(w.list, |kv.writes| + 1)], kv.writes + [w]))
    else None
  }

  function CurrentList(kv: Kv, subject: string): TrustList {
    if subject in kv.entries then kv.entries[subject].list else []
  }

  /** Revision of the latest write to a subject. */
  function LastRev(writes: seq<Write>, subject: string): (r: Option<nat>)
    ensures r.Some? ==> 1 <= r.value <= |writes|
  {
    if writes == [] then None
    else if writes[|writes| - 1].subject == subject then Some(|writes|)
    else LastRev(writes[..|writes| - 1], subject)
  }

  lemma {:induction false} LastRevIsLast(writes: seq<Write>, subject: string)
    ensures var r := LastRev(writes, subject);
            if r.Some? then writes[r.value - 1].subject == subject
                            && forall i :: r.value <= i < |writes| ==> writes[i].subject != subject
            else forall i :: 0 <= i < |writes| ==> writes[i].subject != subject
  {
    if writes != [] && writes[|writes| - 1].subject != subject {
      LastRevIsLast(writes[..|writes| - 1], subject);
    }
  }

  /** The trust list in force after a given history of writes. */
  function ListAfter(writes: seq<Write>, subject: string): TrustList {
    match LastRev(writes, subject)
    case Some(rev) => writes[rev - 1].list
    case None => []
  }

  /** The store agrees with its history, and every write replaced exactly the revision before it. */
  ghost predicate Consistent(kv: Kv) {
    && (forall subject :: Revision(kv, subject) == LastRev(kv.writes, subject))
    && (forall subject :: CurrentList(kv, subject) == ListAfter(kv.writes, subject))
    && Chain(kv.writes)
  }

  ghost predicate Chain(writes: seq<Write>) {
    forall i :: 0 <= i < |writes| ==> writes[i].read == LastRev(writes[..i], writes[i].subject)
  }

  lemma ListAfterOne(writes: seq<Write>, w: Write, subject: string)
    ensures LastRev(writes + [w], subject) == if w.subject == subject then Some(|writes| + 1) else LastRev(writes, subject)
    ensures ListAfter(writes + [w], subject) == if w.subject == subject then w.list else ListAfter(writes, subject)
  {
    assert (writes + [w])[..|writes|] == writes;
  }

  lemma ChainAfterOne(writes: seq<Write>, w: Write)
    requires Chain(writes) && w.read == LastRev(writes, w.subject)
    ensures Chain(writes + [w])
  {
    var all := writes + [w];
    assert all[..|writes|] == writes;
    forall i | 0 <= i < |all| ensures all[i].read == LastRev(all[..i], all[i].subject) {
      if i < |writes| {
        assert all[..i] == writes[..i];
      }
    }
  }

  /** However commits of different callers interleave, each keeps the store consistent. */
  lemma CommitKeeps(kv: Kv, w: Write, kv': Kv)
    requires Consistent(kv) && Commit(kv, w) == Some(kv')
    ensures Consistent(kv')
  {
    ChainAfterOne(kv.writes, w);
    forall subject
      ensures Revision(kv', subject) == LastRev(kv'.writes, subject)
      ensures CurrentList(kv', subject) == ListAfter(kv'.writes, subject)
    {
      ListAfterOne(kv.writes, w, subject);
      assert Revision(kv, subject) == LastRev(kv.writes, subject);
      assert CurrentList(kv, subject) == ListAfter(kv.writes, subject);
    }
  }

  /** Nothing is lost: two successful writes to one subject never started from the same revision. */
  lemma NoSharedRevision(writes: seq<Write>, i: nat, j: nat)
    requires Chain(writes) && i < j < |writes| && writes[i].subject == writes[j].subject
    ensures writes[i].read != writes[j].read
    ensures writes[j].read.Some? && writes[j].read.value > i
  {
    var before := writes[..j];
    assert before[i].subject == writes[j].subject;
    LastRevIsLast(before, writes[j].subject);
    assert writes[j].read == LastRev(before, writes[j].subject);
    assert writes[i].read == LastRev(writes[..i], writes[i].subject);
  }

  ghost predicate Untouched(writes: seq<Write>, subject: string) {
    forall i :: 0 <= i < |writes| ==> writes[i].subject != subject
  }

  lemma {:induction false} LastRevSkips(writes: seq<Write>, extra: seq<Write>, subject: string)
    requires Untouched(extra, subject)
    ensures LastRev(writes + extra, subject) == LastRev(writes, subject)
  {
    if extra == [] {
      assert writes + extra == writes;
    } else {
      var front := extra[..|extra| - 1];
      LastRevSkips(writes, front, subject);
      assert writes + extra == writes + front + [extra[|extra| - 1]];
      ListAfterOne(writes + front, extra[|extra| - 1], subject);
    }
  }

  /** The revision a caller read is still current exactly when nobody wrote that subject since. */
  lemma RevisionStableIff(writes: seq<Write>, extra: seq<Write>, subject: string)
    ensures LastRev(writes + extra, subject) == LastRev(writes, subject)
       <==> Untouched(extra, subject)
  {
    if i :| 0 <= i < |extra| && extra[i].subject == subject {
      assert (writes + extra)[|writes| + i] == extra[i];
      LastRevIsLast(writes + extra, subject);
    } else {
      LastRevSkips(writes, extra, subject);
    }
  }

  lemma SwapOutcome(kv: Kv, mid: Kv, subject: string)
    requires Consistent(kv) && Consistent(mid) && kv.writes <= mid.writes
    ensures Revision(mid, subject) == Revision(kv, subject) <==> Untouched(mid.writes[|kv.writes|..], subject)
  {
    var extra := mid.writes[|kv.writes|..];
    assert mid.writes == kv.writes + extra;
    RevisionStableIff(kv.writes, extra, subject);
    assert Revision(kv, subject) == LastRev(kv.writes, subject);
    assert Revision(mid, subject) == LastRev(mid.writes, subject);
  }

  /** The trust store as the gateway uses it. */
  class TrustStore {
    var kv: Kv

    constructor ()
      ensures kv == EMPTY && Consistent(kv)
    {
      kv := EMPTY;
    }

    /** The lookup behind every publish: a scan of the current list, false when there is none. */
    method IsPublisherTrusted(subject: string, p: Publisher) returns (trusted: bool)
      requires Consistent(kv)
      ensures trusted <==> p in ListAfter(kv.writes, subject)
    {
      var list := CurrentList(kv, subject);
      assert list == ListAfter(kv.writes, subject);
      for i := 0 to |list|
        invariant forall j :: 0 <= j < i ==> list[j] != p
      {
        if list[i].issuer == p.issuer && list[i].sub == p.sub {
          return true;
        }
      }
      return false;
    }

    /**
     * Read, then swap against `mid`, the bucket as other callers have left it by then. It succeeds
     * exactly when none of them wrote this subject; on success it is the latest write, on failure
     * it wrote nothing.
     */
    method SetPublisherTrust(subject: string, list: TrustList, op: nat, mid: Kv) returns (ok: bool)
      requires Consistent(kv) && Consistent(mid) && kv.writes <= mid.writes
      modifies this
      ensures Consistent(kv)
      ensures ok <==> Untouched(mid.writes[|old(kv).writes|..], subject)
      ensures ok ==> kv.writes == mid.writes + [Write(subject, list, Revision(old(kv), subject), op)]
      ensures ok ==> CurrentList(kv, subject) == list
      ensures !ok ==> kv == mid
    {
      var rev := Revision(kv, subject);
      SwapOutcome(kv, mid, subject);
      kv := mid;
      var w := Write(subject, list, rev, op);
      var next := Commit(kv, w);
      if next.None? {
        return false;
      }
      CommitKeeps(kv, w, next.value);
      kv := next.value;
      return true;
    }
  }
}
