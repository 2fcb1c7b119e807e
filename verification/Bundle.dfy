/**
 * Entry bundles of a tiled log, as the "Log Entries" section of C2SP tlog-tiles lays them out:
 * 256 entries to a bundle, the last bundle partial, each entry behind a big-endian 16-bit length.
 */
module Bundle {
  import opened Wrappers

  const WIDTH := 256

  /** Longest length the 16-bit prefix can hold, plus one. */
  const PREFIX_LIMIT := 65536

  /** The length converted to 16 bits: a longer entry keeps only the low half. */
  function Prefix(length: nat): Bytes {
    [length / 256 % 256, length % 256]
  }

  /** The 16-bit big-endian number in front of `raw`. */
  function LengthAt(raw: Bytes): (n: nat)
    requires |raw| >= 2
    ensures n < PREFIX_LIMIT
  {
    var high: int := raw[0];
    high * 256 + raw[1]
  }

  function Marshal(entries: seq<Bytes>): Bytes {
    if entries == [] then [] else Prefix(|entries[0]|) + entries[0] + Marshal(entries[1..])
  }

  /** The bundle parser read as a recursion; `None` stands for dangling or missing bytes. */
  function Unmarshal(raw: Bytes): Option<seq<Bytes>>
    decreases |raw|
  {
    if raw == [] then
      Some([])
    else if |raw| < 2 then
      None
    else
      var end := 2 + LengthAt(raw);
      if end > |raw| then None
      else
        match Unmarshal(raw[end..])
        case Some(rest) => Some([raw[2..end]] + rest)
        case None => None
  }

  /** The bundle parser as it runs: one pass over the bytes, appending each entry it cuts out. */
  method UnmarshalText(raw: Bytes) returns (r: Option<seq<Bytes>>)
    ensures r == Unmarshal(raw)
  {
    var nodes: seq<Bytes> := [];
    var index := 0;
    assert raw[index..] == raw;
    assert Unmarshal(raw).Some? ==> nodes + Unmarshal(raw).value == Unmarshal(raw).value;
    while index < |raw|
      invariant 0 <= index <= |raw|
      invariant Unmarshal(raw) == match Unmarshal(raw[index..])
                                  case Some(rest) => Some(nodes + rest)
                                  case None => None
    {
      ghost var tail := raw[index..];
      var dataIndex := index + 2;
      if dataIndex > |raw| {
        return None;
      }
      var dataEnd := dataIndex + LengthAt(raw[index..]);
      if dataEnd > |raw| {
        return None;
      }
      assert tail[2..dataEnd - index] == raw[dataIndex..dataEnd];
      assert tail[dataEnd - index..] == raw[dataEnd..];
      ghost var after := Unmarshal(raw[dataEnd..]);
      assert after.Some? ==> nodes + ([raw[dataIndex..dataEnd]] + after.value)
                             == (nodes + [raw[dataIndex..dataEnd]]) + after.value;
      nodes := nodes + [raw[dataIndex..dataEnd]];
      index := dataEnd;
    }
    assert raw[index..] == [] && nodes + [] == nodes;
    return Some(nodes);
  }

  lemma PrefixLength(length: nat)
    ensures LengthAt(Prefix(length)) == length % PREFIX_LIMIT
  {
    assert length / 256 % 256 * 256 + length % 256 == length % PREFIX_LIMIT;
  }

  /** A prefix that tells the truth about the entry behind it makes the parser cut out that entry. */
  lemma CutEntry(prefix: Bytes, entry: Bytes, tail: Bytes)
    requires |prefix| == 2 && LengthAt(prefix) == |entry|
    ensures Unmarshal(prefix + entry + tail) == match Unmarshal(tail)
                                                case Some(rest) => Some([entry] + rest)
                                                case None => None
  {
    var raw := prefix + entry + tail;
    assert raw[0] == prefix[0] && raw[1] == prefix[1];
    assert raw[2..2 + |entry|] == entry && raw[2 + |entry|..] == tail;
  }

  lemma {:induction false} ShortEntriesRoundTrip(entries: seq<Bytes>)
    requires forall i :: 0 <= i < |entries| ==> |entries[i]| < PREFIX_LIMIT
    ensures Unmarshal(Marshal(entries)) == Some(entries)
  {
    if entries != [] {
      var e := entries[0];
      PrefixLength(|e|);
      ShortEntriesRoundTrip(entries[1..]);
      CutEntry(Prefix(|e|), e, Marshal(entries[1..]));
      assert entries == [e] + entries[1..];
    }
  }

  /** Whatever the prefix says is the length of the first entry that is read back. */
  lemma CutLength(prefix: Bytes, tail: Bytes)
    requires |prefix| == 2 && Unmarshal(prefix + tail).Some?
    ensures |Unmarshal(prefix + tail).value| > 0
    ensures |Unmarshal(prefix + tail).value[0]| == LengthAt(prefix)
  {
    var raw := prefix + tail;
    assert raw[0] == prefix[0] && raw[1] == prefix[1];
  }

  /** If a bundle parses at all, the entry behind the first `k` short ones comes back truncated. */
  lemma {:induction false} TruncatedLength(entries: seq<Bytes>, k: nat)
    requires k < |entries| && forall i :: 0 <= i < k ==> |entries[i]| < PREFIX_LIMIT
    requires Unmarshal(Marshal(entries)).Some?
    ensures |Unmarshal(Marshal(entries)).value| > k
    ensures |Unmarshal(Marshal(entries)).value[k]| == |entries[k]| % PREFIX_LIMIT
  {
    var e, tail := entries[0], Marshal(entries[1..]);
    PrefixLength(|e|);
    if k == 0 {
      assert Prefix(|e|) + e + tail == Prefix(|e|) + (e + tail);
      CutLength(Prefix(|e|), e + tail);
    } else {
      CutEntry(Prefix(|e|), e, tail);
      TruncatedLength(entries[1..], k - 1);
    }
  }

  lemma FirstOversized(entries: seq<Bytes>) returns (k: nat)
    requires exists i :: 0 <= i < |entries| && |entries[i]| >= PREFIX_LIMIT
    ensures k < |entries| && |entries[k]| >= PREFIX_LIMIT
    ensures forall i :: 0 <= i < k ==> |entries[i]| < PREFIX_LIMIT
  {
    k := 0;
    while |entries[k]| < PREFIX_LIMIT
      invariant k < |entries| && forall i :: 0 <= i < k ==> |entries[i]| < PREFIX_LIMIT
      decreases |entries| - k
    {
      k := k + 1;
    }
  }

  /** A bundle survives the trip exactly when every entry fits its 16-bit length. */
  lemma RoundTripIff(entries: seq<Bytes>)
    ensures Unmarshal(Marshal(entries)) == Some(entries)
       <==> forall i :: 0 <= i < |entries| ==> |entries[i]| < PREFIX_LIMIT
  {
    if forall i :: 0 <= i < |entries| ==> |entries[i]| < PREFIX_LIMIT {
      ShortEntriesRoundTrip(entries);
    } else if Unmarshal(Marshal(entries)) == Some(entries) {
      var k := FirstOversized(entries);
      TruncatedLength(entries, k);
    }
  }

  /** Width of a bundle in a log of `size` entries; 0 stands for a full bundle. */
  function PartialTileSize(index: nat, size: nat): (p: nat)
    ensures p < WIDTH
  {
    if index < size / WIDTH then 0 else size % WIDTH
  }

  /** The reader's answer for one bundle of a log of which `size` entries are integrated. */
  function ReadEntryBundle(log: seq<Bytes>, size: nat, index: nat, p: nat): Option<Bytes>
    requires size <= |log|
  {
    var end := index * WIDTH + if p == 0 then WIDTH else p;
    if end <= size then Some(Marshal(log[index * WIDTH..end])) else None
  }

  datatype FetchError = Timeout | OutOfRange | ReadFailed | BadBundle | NotInBundle

  /** What reading entry `index` yields once the log holds `size` integrated entries. */
  function FetchAt(log: seq<Bytes>, size: nat, index: nat): Result<Bytes, FetchError>
    requires size <= |log|
  {
    if index >= size then Err(OutOfRange)
    else
      var b := index / WIDTH;
      match ReadEntryBundle(log, size, b, PartialTileSize(b, size))
      case None => Err(ReadFailed)
      case Some(data) =>
        match Unmarshal(data)
        case None => Err(BadBundle)
        case Some(entries) =>
          if index % WIDTH >= |entries| then Err(NotInBundle) else Ok(entries[index % WIDTH])
  }

  /** The slice of the log that the bundle of `index` holds, and where `index` sits in it. */
  lemma BundleOf(log: seq<Bytes>, size: nat, index: nat) returns (lo: nat, hi: nat)
    requires index < size <= |log|
    ensures lo == index / WIDTH * WIDTH && lo <= index < hi <= size && hi <= lo + WIDTH && index - lo == index % WIDTH
    ensures ReadEntryBundle(log, size, index / WIDTH, PartialTileSize(index / WIDTH, size))
         == Some(Marshal(log[lo..hi]))
  {
    var b := index / WIDTH;
    var p := PartialTileSize(b, size);
    lo, hi := b * WIDTH, b * WIDTH + if p == 0 then WIDTH else p;
    if b >= size / WIDTH {
      assert b == size / WIDTH && p == size % WIDTH;
    }
  }

  /**
   * Bundled reads refine flat indexing: if the integrated entries of its bundle fit their length
   * prefixes, reading an integrated index returns exactly the entry appended there, and no error
   * branch is taken.
   */
  lemma FetchRefinesLog(log: seq<Bytes>, size: nat, index: nat)
    requires index < size <= |log|
    requires forall i :: 0 <= i < size && i / WIDTH == index / WIDTH ==> |log[i]| < PREFIX_LIMIT
    ensures FetchAt(log, size, index) == Ok(log[index])
  {
    var lo, hi := BundleOf(log, size, index);
    var part := log[lo..hi];
    forall j | 0 <= j < |part| ensures |part[j]| < PREFIX_LIMIT {
      assert part[j] == log[lo + j] && (lo + j) / WIDTH == index / WIDTH;
    }
    ShortEntriesRoundTrip(part);
    assert part[index % WIDTH] == log[index];
  }

  /** The first oversized entry is never read back as it was appended. */
  lemma OversizedIsLost(log: seq<Bytes>, size: nat, k: nat)
    requires k < size <= |log| && |log[k]| >= PREFIX_LIMIT
    requires forall i :: 0 <= i < k ==> |log[i]| < PREFIX_LIMIT
    ensures FetchAt(log, size, k) != Ok(log[k])
  {
    var lo, hi := BundleOf(log, size, k);
    var part := log[lo..hi];
    if Unmarshal(Marshal(part)).Some? {
      forall i | 0 <= i < k % WIDTH ensures |part[i]| < PREFIX_LIMIT {
        assert part[i] == log[lo + i];
      }
      assert part[k % WIDTH] == log[k];
      TruncatedLength(part, k % WIDTH);
    }
  }

  /** Reads agree with appends on the whole integrated log exactly when no entry reaches 2^16 bytes. */
  lemma FetchRefinesLogIff(log: seq<Bytes>, size: nat)
    requires size <= |log|
    ensures (forall i :: 0 <= i < size ==> FetchAt(log, size, i) == Ok(log[i]))
       <==> (forall i :: 0 <= i < size ==> |log[i]| < PREFIX_LIMIT)
  {
    if forall i :: 0 <= i < size ==> |log[i]| < PREFIX_LIMIT {
      forall i | 0 <= i < size ensures FetchAt(log, size, i) == Ok(log[i]) {
        FetchRefinesLog(log, size, i);
      }
    } else {
      var i :| 0 <= i < size && |log[i]| >= PREFIX_LIMIT;
      assert |log[..size][i]| >= PREFIX_LIMIT;
      var k := FirstOversized(log[..size]);
      forall i | 0 <= i < k ensures |log[i]| < PREFIX_LIMIT {
        assert log[i] == log[..size][i];
      }
      OversizedIsLost(log, size, k);
    }
  }

  ghost predicate AllZero(raw: Bytes) {
    forall i :: 0 <= i < |raw| ==> raw[i] == 0
  }

  lemma {:induction false} ZerosParse(raw: Bytes)
    requires AllZero(raw) && |raw| % 2 == 0
    ensures Unmarshal(raw).Some?
    ensures raw != [] ==> |Unmarshal(raw).value| > 0 && Unmarshal(raw).value[0] == []
    decreases |raw|
  {
    if raw != [] {
      assert LengthAt(raw) == 0;
      ZerosParse(raw[2..]);
    }
  }

  /** An oversized entry need not even fail to read: 2^16 zero bytes are read back as an empty entry. */
  lemma ZerosReadEmpty(z: Bytes)
    requires |z| == PREFIX_LIMIT && AllZero(z)
    ensures FetchAt([z], 1, 0) == Ok([])
  {
    var lo, hi := BundleOf([z], 1, 0);
    assert [z][lo..hi] == [z] && [z][1..] == [];
    var raw := Marshal([z]);
    assert raw == Prefix(|z|) + z + Marshal([]);
    assert AllZero(raw) && |raw| == PREFIX_LIMIT + 2;
    ZerosParse(raw);
  }
}
