/** SHA-256 as lower-case hex. It is left uninterpreted: every statement holds for any function here. */
module Digests {
  import opened Wrappers

  const SHA256Hex: Bytes -> string

  function Digest(data: Bytes): string {
    SHA256Hex(data)
  }
}

/** The in-memory index from receipt digest to log position, as a function of the log. */
module DigestIndex {
  import opened Wrappers
  import opened Digests

  type Index = map<string, nat>

  /** One pass over the log; a later entry with the same digest replaces an earlier one. */
  function IndexOf(log: seq<Bytes>): Index {
    if log == [] then map[]
    else IndexOf(log[..|log| - 1])[Digest(log[|log| - 1]) := |log| - 1]
  }

  /** Every indexed position holds an entry with that digest. */
  ghost predicate Sound(index: Index, log: seq<Bytes>) {
    forall d :: d in index ==> index[d] < |log| && Digest(log[index[d]]) == d
  }

  lemma {:induction false} IndexOfSound(log: seq<Bytes>)
    ensures Sound(IndexOf(log), log)
  {
    if log != [] {
      IndexOfSound(log[..|log| - 1]);
    }
  }

  /** The index holds the digest of every entry, at its last position. */
  lemma {:induction false} IndexOfLast(log: seq<Bytes>, i: nat)
    requires i < |log|
    ensures Digest(log[i]) in IndexOf(log) && i <= IndexOf(log)[Digest(log[i])]
  {
    if i < |log| - 1 {
      IndexOfLast(log[..|log| - 1], i);
      assert log[..|log| - 1][i] == log[i];
      IndexOfSound(log[..|log| - 1]);
    }
  }

  /** A digest is in the index exactly when some entry has it. */
  lemma IndexOfIff(log: seq<Bytes>, d: string)
    ensures d in IndexOf(log) <==> exists i :: 0 <= i < |log| && Digest(log[i]) == d
  {
    IndexOfSound(log);
    if i :| 0 <= i < |log| && Digest(log[i]) == d {
      IndexOfLast(log, i);
    }
  }

  lemma IndexOfAppend(log: seq<Bytes>, entry: Bytes)
    ensures IndexOf(log + [entry]) == IndexOf(log)[Digest(entry) := |log|]
  {
    assert (log + [entry])[..|log|] == log;
  }
}

/** One transparency log with its digest index. */
module Ledgers {
  import opened Wrappers
  import opened Digests
  import opened DigestIndex
  import opened Bundle

  /** Reads of single positions, whatever is behind them. */
  type Reader = nat -> Result<Bytes, FetchError>

  function ReaderOf(log: seq<Bytes>, size: nat): Reader
    requires size <= |log|
  {
    (i: nat) => FetchAt(log, size, i)
  }

  predicate Yields(read: Reader, seen: seq<Bytes>) {
    forall i :: 0 <= i < |seen| ==> read(i) == Ok(seen[i])
  }

  /** The entries that reading positions `0..|seen|` in turn yields. */
  predicate ReadsAs(log: seq<Bytes>, size: nat, seen: seq<Bytes>)
    requires size <= |log|
  {
    |seen| <= size && Yields(ReaderOf(log, size), seen)
  }

  /** What a rebuild reads from position `k` on: up to the first read that fails, at `fault` or by itself. */
  function SeenFrom(read: Reader, size: nat, fault: nat, k: nat): seq<Bytes>
    requires k <= size
    decreases size - k
  {
    if k == size || k == fault then []
    else
      match read(k)
      case Ok(entry) => [entry] + SeenFrom(read, size, fault, k + 1)
      case Err(_) => []
  }

  /** What a rebuild over `size` integrated entries reads. */
  function SeenBy(log: seq<Bytes>, size: nat, fault: nat): seq<Bytes>
    requires size <= |log|
  {
    SeenFrom(ReaderOf(log, size), size, fault, 0)
  }

  /** A rebuild that has read `seen` and will read what is left. */
  ghost predicate OnTheWay(read: Reader, size: nat, fault: nat, seen: seq<Bytes>) {
    && |seen| <= size && |seen| <= fault && Yields(read, seen)
    && seen + SeenFrom(read, size, fault, |seen|) == SeenFrom(read, size, fault, 0)
  }

  lemma OneRead(read: Reader, size: nat, fault: nat, seen: seq<Bytes>)
    requires OnTheWay(read, size, fault, seen) && |seen| < size
    ensures |seen| == fault || read(|seen|).Err? ==> seen == SeenFrom(read, size, fault, 0)
    ensures |seen| < fault && read(|seen|).Ok? ==> OnTheWay(read, size, fault, seen + [read(|seen|).value])
  {
    var r := read(|seen|);
    if |seen| == fault || r.Err? {
      assert seen + [] == seen;
    } else {
      assert seen + SeenFrom(read, size, fault, |seen|) == seen + [r.value] + SeenFrom(read, size, fault, |seen| + 1);
    }
  }

  /** What a rebuild reads is a reading. */
  lemma {:induction false} SeenYields(read: Reader, size: nat, fault: nat, seen: seq<Bytes>)
    requires OnTheWay(read, size, fault, seen)
    ensures Yields(read, SeenFrom(read, size, fault, 0)) && |SeenFrom(read, size, fault, 0)| <= size
    decreases size - |seen|
  {
    if |seen| == size {
      assert seen + [] == seen;
    } else {
      OneRead(read, size, fault, seen);
      if |seen| < fault && read(|seen|).Ok? {
        SeenYields(read, size, fault, seen + [read(|seen|).value]);
      }
    }
  }

  lemma SeenReads(log: seq<Bytes>, size: nat, fault: nat)
    requires size <= |log|
    ensures ReadsAs(log, size, SeenBy(log, size, fault))
  {
    SeenYields(ReaderOf(log, size), size, fault, []);
  }

  ghost predicate AllShort(log: seq<Bytes>) {
    forall i :: 0 <= i < |log| ==> |log[i]| < PREFIX_LIMIT
  }

  /** When every entry fits its bundle prefix, what a rebuild reads is the log itself. */
  lemma ReadsAsLog(log: seq<Bytes>, size: nat, seen: seq<Bytes>)
    requires size <= |log| && AllShort(log) && ReadsAs(log, size, seen)
    ensures seen == log[..|seen|]
    ensures |seen| < size ==> FetchAt(log, size, |seen|).Ok?
  {
    forall i | 0 <= i < |seen| ensures seen[i] == log[i] {
      FetchRefinesLog(log, size, i);
    }
    if |seen| < size {
      FetchRefinesLog(log, size, |seen|);
    }
  }

  /** A rebuild never reads an entry of 2^16 bytes or more. */
  lemma {:induction false} ParsedAreShort(raw: Bytes, i: nat)
    requires Unmarshal(raw).Some? && i < |Unmarshal(raw).value|
    ensures |Unmarshal(raw).value[i]| < PREFIX_LIMIT
    decreases |raw|
  {
    if raw != [] && i > 0 {
      ParsedAreShort(raw[2 + LengthAt(raw)..], i - 1);
    }
  }

  lemma ReadsAreShort(log: seq<Bytes>, size: nat, seen: seq<Bytes>, i: nat)
    requires size <= |log| && ReadsAs(log, size, seen) && i < |seen|
    ensures |seen[i]| < PREFIX_LIMIT
  {
    var lo, hi := BundleOf(log, size, i);
    assert FetchAt(log, size, i) == Ok(seen[i]);
    ParsedAreShort(Marshal(log[lo..hi]), i % WIDTH);
  }

  /** No two different byte strings among these share a digest. */
  ghost predicate NoCollision(log: seq<Bytes>, seen: seq<Bytes>) {
    forall i, j :: 0 <= i < |log| && 0 <= j < |seen| && Digest(log[i]) == Digest(seen[j]) ==> log[i] == seen[j]
  }

  lemma ShortIsIndexed(log: seq<Bytes>, seen: seq<Bytes>, i: nat)
    requires ReadsAs(log, |log|, seen) && |seen| == |log| && AllShort(log) && i < |log|
    ensures Digest(log[i]) in IndexOf(seen)
  {
    ReadsAsLog(log, |log|, seen);
    assert seen == log;
    IndexOfLast(log, i);
  }

  lemma OversizedIsMissed(log: seq<Bytes>, seen: seq<Bytes>, i: nat)
    requires ReadsAs(log, |log|, seen) && NoCollision(log, seen) && i < |log| && |log[i]| >= PREFIX_LIMIT
    ensures Digest(log[i]) !in IndexOf(seen)
  {
    IndexOfIff(seen, Digest(log[i]));
    forall j | 0 <= j < |seen| ensures seen[j] != log[i] {
      ReadsAreShort(log, |log|, seen, j);
    }
  }

  /**
   * What a rebuild that reports success is worth: unless digests collide, its index holds every
   * entry's digest exactly when no entry reaches 2^16 bytes.
   */
  lemma SuccessfulRebuildIff(log: seq<Bytes>, seen: seq<Bytes>)
    requires ReadsAs(log, |log|, seen) && |seen| == |log| && NoCollision(log, seen)
    ensures (forall i :: 0 <= i < |log| ==> Digest(log[i]) in IndexOf(seen)) <==> AllShort(log)
  {
    if AllShort(log) {
      forall i | 0 <= i < |log| ensures Digest(log[i]) in IndexOf(seen) {
        ShortIsIndexed(log, seen, i);
      }
    } else {
      var i :| 0 <= i < |log| && |log[i]| >= PREFIX_LIMIT;
      OversizedIsMissed(log, seen, i);
    }
  }

  class Ledger {
    /** Every appended entry, in order. */
    var log: seq<Bytes>
    /** How many of them the reader can serve. */
    var integrated: nat
    var digestIndex: Index

    ghost predicate Valid()
      reads this
    {
      integrated <= |log|
    }

    /**
     * Opens a ledger over stored entries of which `size` are integrated. It indexes what the rebuild
     * reads, which is not always what was appended; a failed rebuild is only logged.
     */
    constructor (stored: seq<Bytes>, size: nat, fault: nat)
      requires size <= |stored|
      ensures Valid() && log == stored && integrated == size
      ensures digestIndex == IndexOf(SeenBy(stored, size, fault))
      ensures AllShort(stored) ==> digestIndex == IndexOf(stored[..if fault < size then fault else size])
    {
      log := stored;
      integrated := size;
      digestIndex := map[];
      new;
      var _, seen := RebuildDigestIndex(fault);
      if AllShort(stored) {
        ReadsAsLog(stored, size, seen);
      }
    }

    /** Appends a receipt and indexes it; a refused append changes nothing. */
    method Seal(receipt: Bytes, accepted: bool) returns (r: Option<nat>)
      requires Valid()
      modifies `log, `digestIndex
      ensures Valid()
      ensures accepted ==> r == Some(|old(log)|) && log == old(log) + [receipt]
      ensures accepted ==> digestIndex == old(digestIndex)[Digest(receipt) := |old(log)|]
      ensures !accepted ==> r == None && log == old(log) && digestIndex == old(digestIndex)
      ensures old(digestIndex) == IndexOf(old(log)) ==> digestIndex == IndexOf(log)
    {
      if !accepted {
        return None;
      }
      var idx := |log|;
      log := log + [receipt];
      digestIndex := digestIndex[Digest(receipt) := idx];
      IndexOfAppend(old(log), receipt);
      return Some(idx);
    }

    /** Polls the integrated size until it passes `target` or the polls run out. */
    method WaitForIntegration(target: nat, polls: seq<nat>) returns (ok: bool)
      ensures ok <==> exists i :: 0 <= i < |polls| && polls[i] > target
    {
      var i := 0;
      while i < |polls|
        invariant 0 <= i <= |polls|
        invariant forall j :: 0 <= j < i ==> polls[j] <= target
      {
        if polls[i] > target {
          return true;
        }
        i := i + 1;
      }
      return false;
    }

    /**
     * Reads one entry. The polls are the sizes seen while waiting; the size never shrinks, so
     * none exceeds the current one and the out-of-range branch behind the wait is never taken.
     */
    method Fetch(index: nat, polls: seq<nat>) returns (r: Result<Bytes, FetchError>)
      requires Valid() && forall i :: 0 <= i < |polls| ==> polls[i] <= integrated
      ensures r == if exists i :: 0 <= i < |polls| && polls[i] > index
                   then FetchAt(log, integrated, index) else Err(Timeout)
      ensures r != Err(OutOfRange) && r != Err(ReadFailed)
      ensures AllShort(log[..integrated])
              ==> r == Err(Timeout) || (index < |log| && r == Ok(log[index]))
    {
      var ready := WaitForIntegration(index, polls);
      if !ready {
        return Err(Timeout);
      }
      if index >= integrated {
        return Err(OutOfRange);
      }
      ghost var lo, hi := BundleOf(log, integrated, index);
      var bundleIndex := index / WIDTH;
      var p := PartialTileSize(bundleIndex, integrated);
      var data := ReadEntryBundle(log, integrated, bundleIndex, p);
      if data.None? {
        return Err(ReadFailed);
      }
      var bundle := UnmarshalText(data.value);
      if AllShort(log[..integrated]) {
        assert forall i :: 0 <= i < integrated ==> log[i] == log[..integrated][i];
        FetchRefinesLog(log, integrated, index);
      }
      if bundle.None? {
        return Err(BadBundle);
      }
      var localIndex := index % WIDTH;
      if localIndex >= |bundle.value| {
        return Err(NotInBundle);
      }
      return Ok(bundle.value[localIndex]);
    }

    /** The duplicate check: finds a digest exactly when it is indexed. */
    method VerifyDigest(hexDigest: string) returns (r: Option<nat>)
      ensures r.Some? <==> hexDigest in digestIndex
      ensures r.Some? ==> r.value == digestIndex[hexDigest]
    {
      if hexDigest in digestIndex {
        return Some(digestIndex[hexDigest]);
      }
      return None;
    }

    /** Re-reads the integrated log; stops at the first read that fails, leaving a partial index. */
    method RebuildDigestIndex(fault: nat) returns (ok: bool, seen: seq<Bytes>)
      requires Valid() && digestIndex == map[]
      modifies `digestIndex
      ensures seen == SeenBy(log, integrated, fault) && ReadsAs(log, integrated, seen)
      ensures digestIndex == IndexOf(seen) && |seen| <= fault
      ensures ok <==> |seen| == integrated
      ensures !ok ==> |seen| == fault || FetchAt(log, integrated, |seen|).Err?
    {
      seen := [];
      for k := 0 to integrated
        invariant k == |seen| && OnTheWay(ReaderOf(log, integrated), integrated, fault, seen)
        invariant digestIndex == IndexOf(seen)
      {
        OneRead(ReaderOf(log, integrated), integrated, fault, seen);
        if k == fault {
          return false, seen;
        }
        var polls := [integrated];
        assert polls[0] > k;
        var r := Fetch(k, polls);
        if r.Err? {
          return false, seen;
        }
        IndexOfAppend(seen, r.value);
        digestIndex := digestIndex[Digest(r.value) := k];
        seen := seen + [r.value];
      }
      assert seen + [] == seen;
      return true, seen;
    }
  }
}
