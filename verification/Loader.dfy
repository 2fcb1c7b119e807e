/** The graph loader: from events to ordered writes, with retries after partial failure. */
module Loaders {
  import opened Wrappers
  import opened Receipts
  import opened Graphs
  import opened Catalogs

  /** A sealed event together with the artifact fetched and unwrapped for it. */
  datatype SealedData = SealedData(subject: string, contentDigest: string, receiptDigest: string, logIndex: int,
                                   artifactType: string, artifact: Artifact)

  /** Stands in when no publisher is found. */
  const PLACEHOLDER := Publisher("locker-service", "locker")

  /** The answer to the publisher lookup; `Failed` is a database error. */
  datatype Lookup = Found(p: Publisher) | NotFound | Failed

  function Resolve(l: Lookup): Publisher {
    if l.Found? && l.p.issuer != "" then l.p else PLACEHOLDER
  }

  ghost predicate StubPublisher(g: Graph, subject: string, digest: string, p: Publisher) {
    Edge(StubNode(digest, subject), "PUBLISHED_BY", PublisherNode(p)) in g.edges
  }

  /** Which answers the graph allows: any one publisher of the stub, or none if there is none. */
  ghost predicate Answers(g: Graph, subject: string, digest: string, l: Lookup) {
    match l
    case Found(p) => StubPublisher(g, subject, digest, p)
    case NotFound => forall p :: !StubPublisher(g, subject, digest, p)
    case Failed => true
  }

  // ---- Write sequences ----

  function EntityWrites(entities: seq<EntityRecord>): seq<Write> {
    if entities == [] then [] else EntityWrites(entities[..|entities| - 1]) + [PutEntity(entities[|entities| - 1])]
  }

  function StubEntity(kind: string, id: string, logIndex: int): EntityRecord {
    EntityRecord(kind, id, map["stub" := Flag(true)], logIndex)
  }

  /** Both ends as stubs, then the edge, so that its `MATCH` cannot fail. */
  function OneEdge(e: EdgeRecord, logIndex: int): seq<Write> {
    [PutEntity(StubEntity(e.fromKind, e.fromId, logIndex)), PutEntity(StubEntity(e.toKind, e.toId, logIndex)), PutEdge(e)]
  }

  function EdgeWrites(edges: seq<EdgeRecord>, logIndex: int): seq<Write> {
    if edges == [] then [] else EdgeWrites(edges[..|edges| - 1], logIndex) + OneEdge(edges[|edges| - 1], logIndex)
  }

  function EvidenceFor(d: SealedData, p: Publisher, at: int): EvidenceRecord {
    EvidenceRecord(d.logIndex, d.contentDigest, d.receiptDigest, d.artifactType, "sealed", at, d.subject, p)
  }

  function HeadWrites(d: SealedData, p: Publisher, at: int): seq<Write> {
    [PutSubject(d.subject), PutPublisher(p), PutEvidence(EvidenceFor(d, p, at))]
  }

  function ArtifactWrites(a: Artifact, logIndex: int): seq<Write> {
    match Spec(a, logIndex)
    case Some(parsed) => EntityWrites(parsed.entities) + EdgeWrites(parsed.edges, logIndex)
    case None => []
  }

  /** Everything one sealed event writes, in order. */
  function SealedWrites(d: SealedData, p: Publisher, at: int): seq<Write> {
    HeadWrites(d, p, at) + ArtifactWrites(d.artifact, d.logIndex)
  }

  function IngestedWrites(subject: string, digest: string, p: Publisher): seq<Write> {
    [PutSubject(subject), PutPublisher(p), PutStub(digest, subject, p)]
  }

  // ---- The store and the loader ----

  /**
   * A run of `ws` from `g0` that had `b0` good statements left: all of it, or as far as they go. If
   * `torn`, the statement that fails has taken effect all the same.
   */
  ghost predicate Ran(torn: bool, g0: Graph, b0: nat, ws: seq<Write>, g: Graph, b: nat, ok: bool) {
    if ok then |ws| <= b0 && g == ExecAll(g0, ws) && b == b0 - |ws|
    else b0 < |ws| && g == ExecAll(g0, ws[..if torn then b0 + 1 else b0]) && b == 0
  }

  lemma RanBoth(torn: bool, g0: Graph, b0: nat, ws: seq<Write>, g1: Graph, b1: nat, more: seq<Write>, g: Graph, b: nat, ok: bool)
    requires Ran(torn, g0, b0, ws, g1, b1, true) && Ran(torn, g1, b1, more, g, b, ok)
    ensures Ran(torn, g0, b0, ws + more, g, b, ok)
  {
    if ok {
      ExecAppend(g0, ws, more);
    } else {
      var k := if torn then b1 + 1 else b1;
      ExecAppend(g0, ws, more[..k]);
      assert (ws + more)[..|ws| + k] == ws + more[..k];
    }
  }

  lemma RanShort(torn: bool, g0: Graph, b0: nat, ws: seq<Write>, more: seq<Write>, g: Graph, b: nat)
    requires Ran(torn, g0, b0, ws, g, b, false)
    ensures Ran(torn, g0, b0, ws + more, g, b, false)
  {
    var k := if torn then b0 + 1 else b0;
    assert (ws + more)[..k] == ws[..k];
  }

  /**
   * The graph database; `budget` counts the statements it will still run before one fails, and `torn`
   * says whether that one takes effect before its error is reported.
   */
  class Store {
    var graph: Graph
    var budget: nat
    const torn: bool

    constructor (g: Graph, b: nat, t: bool)
      ensures graph == g && budget == b && torn == t
    {
      graph, budget, torn := g, b, t;
    }

    method Run(w: Write) returns (ok: bool)
      modifies this
      ensures Ran(torn, old(graph), old(budget), [w], graph, budget, ok)
    {
      assert [w][..0] == [] && [w][..1] == [w];
      if budget == 0 {
        if torn {
          graph := Exec(graph, w);
        }
        return false;
      }
      graph, budget := Exec(graph, w), budget - 1;
      return true;
    }
  }

  /** An event by its type; `UndecodedEvent` is one of a known type whose data does not decode. */
  datatype Event = IngestedEvent(subject: string, digest: string, p: Publisher)
                 | SealedEvent(d: SealedData, at: int)
                 | RegisteredEvent(subject: string)
                 | UndecodedEvent
                 | UnknownEvent

  datatype Verdict = Ack | Nak | Term

  /** Errors as the loader tells them apart: by identity, not by what they wrap. */
  datatype LoadError = TypeMismatch | SyntaxError | Canceled | OtherError | Wrapped(context: string, cause: LoadError)

  predicate IsPermanentError(err: LoadError) {
    err == TypeMismatch || err == SyntaxError || err == Canceled
  }

  /** What processing an event writes, given the publisher that was found for it. */
  function EventWrites(e: Event, p: Publisher): seq<Write> {
    match e
    case IngestedEvent(subject, digest, publisher) => IngestedWrites(subject, digest, publisher)
    case SealedEvent(d, at) => SealedWrites(d, p, at)
    case RegisteredEvent(subject) => [PutSubject(subject)]
    case UndecodedEvent => []
    case UnknownEvent => []
  }

  class Loader {
    const store: Store

    constructor (s: Store)
      ensures store == s
    {
      store := s;
    }

    method UpsertEntities(entities: seq<EntityRecord>) returns (ok: bool)
      modifies store
      ensures Ran(store.torn, old(store.graph), old(store.budget), EntityWrites(entities), store.graph, store.budget, ok)
    {
      ghost var g0, b0 := store.graph, store.budget;
      for i := 0 to |entities|
        invariant Ran(store.torn, g0, b0, EntityWrites(entities[..i]), store.graph, store.budget, true)
      {
        ghost var g1, b1 := store.graph, store.budget;
        var done := store.Run(PutEntity(entities[i]));
        RanBoth(store.torn, g0, b0, EntityWrites(entities[..i]), g1, b1, [PutEntity(entities[i])], store.graph, store.budget, done);
        assert entities[..i + 1][..i] == entities[..i];
        if !done {
          EntityWritesSplit(entities, i + 1);
          RanShort(store.torn, g0, b0, EntityWrites(entities[..i + 1]), EntityWrites(entities[i + 1..]), store.graph, store.budget);
          return false;
        }
      }
      assert entities[..|entities|] == entities;
      return true;
    }

    method UpsertOneEdge(e: EdgeRecord, logIndex: int) returns (ok: bool)
      modifies store
      ensures Ran(store.torn, old(store.graph), old(store.budget), OneEdge(e, logIndex), store.graph, store.budget, ok)
    {
      ghost var g0, b0 := store.graph, store.budget;
      var w0, w1, w2 := PutEntity(StubEntity(e.fromKind, e.fromId, logIndex)), PutEntity(StubEntity(e.toKind, e.toId, logIndex)), PutEdge(e);
      assert [w0] + [w1, w2] == OneEdge(e, logIndex) == [w0, w1] + [w2] && [w0] + [w1] == [w0, w1];
      ok := store.Run(w0);
      if !ok {
        RanShort(store.torn, g0, b0, [w0], [w1, w2], store.graph, store.budget);
        return;
      }
      ghost var g1, b1 := store.graph, store.budget;
      ok := store.Run(w1);
      RanBoth(store.torn, g0, b0, [w0], g1, b1, [w1], store.graph, store.budget, ok);
      if !ok {
        RanShort(store.torn, g0, b0, [w0, w1], [w2], store.graph, store.budget);
        return;
      }
      ghost var g2, b2 := store.graph, store.budget;
      ok := store.Run(w2);
      RanBoth(store.torn, g0, b0, [w0, w1], g2, b2, [w2], store.graph, store.budget, ok);
    }

    method UpsertEdges(edges: seq<EdgeRecord>, logIndex: int) returns (ok: bool)
      modifies store
      ensures Ran(store.torn, old(store.graph), old(store.budget), EdgeWrites(edges, logIndex), store.graph, store.budget, ok)
    {
      ghost var g0, b0 := store.graph, store.budget;
      for i := 0 to |edges|
        invariant Ran(store.torn, g0, b0, EdgeWrites(edges[..i], logIndex), store.graph, store.budget, true)
      {
        ghost var g1, b1 := store.graph, store.budget;
        var done := UpsertOneEdge(edges[i], logIndex);
        RanBoth(store.torn, g0, b0, EdgeWrites(edges[..i], logIndex), g1, b1, OneEdge(edges[i], logIndex), store.graph, store.budget, done);
        assert edges[..i + 1][..i] == edges[..i];
        if !done {
          EdgeWritesSplit(edges, i + 1, logIndex);
          RanShort(store.torn, g0, b0, EdgeWrites(edges[..i + 1], logIndex), EdgeWrites(edges[i + 1..], logIndex), store.graph, store.budget);
          return false;
        }
      }
      assert edges[..|edges|] == edges;
      return true;
    }

    /** Parses the artifact and writes its entities, then its edges; writes nothing if it does not parse. */
    method ProcessArtifact(a: Artifact, logIndex: int) returns (ok: bool)
      modifies store
      ensures Ran(store.torn, old(store.graph), old(store.budget), ArtifactWrites(a, logIndex), store.graph, store.budget, ok || a == Malformed)
      ensures a == Malformed ==> !ok
    {
      ghost var g0, b0 := store.graph, store.budget;
      var parsed := ParseArtifact(a, logIndex);
      if parsed.None? {
        return false;
      }
      ok := UpsertEntities(parsed.value.entities);
      if !ok {
        RanShort(store.torn, g0, b0, EntityWrites(parsed.value.entities), EdgeWrites(parsed.value.edges, logIndex), store.graph, store.budget);
        return;
      }
      ghost var g1, b1 := store.graph, store.budget;
      ok := UpsertEdges(parsed.value.edges, logIndex);
      RanBoth(store.torn, g0, b0, EntityWrites(parsed.value.entities), g1, b1, EdgeWrites(parsed.value.edges, logIndex), store.graph, store.budget, ok);
    }

    method UpsertHead(d: SealedData, p: Publisher, at: int) returns (ok: bool)
      modifies store
      ensures Ran(store.torn, old(store.graph), old(store.budget), [PutPublisher(p), PutEvidence(EvidenceFor(d, p, at))], store.graph, store.budget, ok)
    {
      ghost var g0, b0 := store.graph, store.budget;
      var w0, w1 := PutPublisher(p), PutEvidence(EvidenceFor(d, p, at));
      assert [w0] + [w1] == [w0, w1];
      ok := store.Run(w0);
      if !ok {
        RanShort(store.torn, g0, b0, [w0], [w1], store.graph, store.budget);
        return;
      }
      ghost var g1, b1 := store.graph, store.budget;
      ok := store.Run(w1);
      RanBoth(store.torn, g0, b0, [w0], g1, b1, [w1], store.graph, store.budget, ok);
    }

    /**
     * A sealed event: nothing without its artifact; otherwise its write sequence, for the publisher
     * that the lookup between the first two writes resolves to, as far as the store goes along.
     */
    method HandleSealed(d: SealedData, fetched: bool, lookup: Lookup, at: int) returns (ok: bool)
      requires Answers(store.graph, d.subject, d.contentDigest, lookup)
      modifies store
      ensures !fetched ==> !ok && store.graph == old(store.graph)
      ensures fetched ==> Ran(store.torn, old(store.graph), old(store.budget), SealedWrites(d, Resolve(lookup), at),
                              store.graph, store.budget, ok || (d.artifact == Malformed && old(store.budget) >= 3))
      ensures d.artifact == Malformed ==> !ok
    {
      if !fetched {
        return false;
      }
      ghost var g0, b0 := store.graph, store.budget;
      var p := Resolve(lookup);
      ghost var rest := [PutPublisher(p), PutEvidence(EvidenceFor(d, p, at))];
      ghost var tail := ArtifactWrites(d.artifact, d.logIndex);
      assert [PutSubject(d.subject)] + rest == HeadWrites(d, p, at);
      assert [PutSubject(d.subject)] + (rest + tail) == SealedWrites(d, p, at);
      ok := store.Run(PutSubject(d.subject));
      if !ok {
        RanShort(store.torn, g0, b0, [PutSubject(d.subject)], rest + tail, store.graph, store.budget);
        return;
      }
      ExecOne(g0, PutSubject(d.subject));
      assert forall q :: StubPublisher(store.graph, d.subject, d.contentDigest, q) ==> StubPublisher(g0, d.subject, d.contentDigest, q);
      assert Answers(store.graph, d.subject, d.contentDigest, lookup);
      ghost var g1, b1 := store.graph, store.budget;
      ok := UpsertHead(d, p, at);
      RanBoth(store.torn, g0, b0, [PutSubject(d.subject)], g1, b1, rest, store.graph, store.budget, ok);
      if !ok {
        RanShort(store.torn, g0, b0, HeadWrites(d, p, at), tail, store.graph, store.budget);
        return;
      }
      ghost var g2, b2 := store.graph, store.budget;
      ok := ProcessArtifact(d.artifact, d.logIndex);
      RanBoth(store.torn, g0, b0, HeadWrites(d, p, at), g2, b2, tail, store.graph, store.budget, ok || d.artifact == Malformed);
    }

    method HandleIngested(subject: string, digest: string, p: Publisher) returns (ok: bool)
      modifies store
      ensures Ran(store.torn, old(store.graph), old(store.budget), IngestedWrites(subject, digest, p), store.graph, store.budget, ok)
    {
      ghost var g0, b0 := store.graph, store.budget;
      var w0, w1, w2 := PutSubject(subject), PutPublisher(p), PutStub(digest, subject, p);
      assert [w0] + [w1, w2] == IngestedWrites(subject, digest, p) == [w0, w1] + [w2] && [w0] + [w1] == [w0, w1];
      ok := store.Run(w0);
      if !ok {
        RanShort(store.torn, g0, b0, [w0], [w1, w2], store.graph, store.budget);
        return;
      }
      ghost var g1, b1 := store.graph, store.budget;
      ok := store.Run(w1);
      RanBoth(store.torn, g0, b0, [w0], g1, b1, [w1], store.graph, store.budget, ok);
      if !ok {
        RanShort(store.torn, g0, b0, [w0, w1], [w2], store.graph, store.budget);
        return;
      }
      ghost var g2, b2 := store.graph, store.budget;
      ok := store.Run(w2);
      RanBoth(store.torn, g0, b0, [w0, w1], g2, b2, [w2], store.graph, store.budget, ok);
    }

    /**
     * One message. Only a message that is no event at all is terminated: every later failure reaches
     * the verdict wrapped, so event data that does not decode and artifacts that cannot be parsed are
     * given back. An acknowledged event has run its whole write sequence; any other some prefix of it.
     */
    method HandleMessage(event: Option<Event>, fetched: bool, lookup: Lookup, cause: LoadError) returns (v: Verdict)
      requires event.Some? && event.value.SealedEvent? ==>
                 Answers(store.graph, event.value.d.subject, event.value.d.contentDigest, lookup)
      modifies store
      ensures v == Term <==> event.None?
      ensures v == Ack ==> store.graph == ExecAll(old(store.graph), EventWrites(event.value, Resolve(lookup)))
      ensures v == Nak ==> exists k :: 0 <= k <= |EventWrites(event.value, Resolve(lookup))|
                                    && store.graph == ExecAll(old(store.graph), EventWrites(event.value, Resolve(lookup))[..k])
      ensures event.Some? && event.value.SealedEvent? && event.value.d.artifact == Malformed ==> v == Nak
      ensures event == Some(UndecodedEvent) ==> v == Nak && store.graph == old(store.graph)
    {
      if event.None? {
        return Term;
      }
      var ok := true;
      ghost var ws := EventWrites(event.value, Resolve(lookup));
      assert ws[..|ws|] == ws && ExecAll(store.graph, ws[..0]) == store.graph;
      match event.value {
        case IngestedEvent(subject, digest, p) => ok := HandleIngested(subject, digest, p);
        case SealedEvent(d, at) => ok := HandleSealed(d, fetched, lookup, at);
        case RegisteredEvent(subject) => ok := store.Run(PutSubject(subject));
        case UndecodedEvent => ok := false;
        case UnknownEvent => return Ack;
      }
      if !ok {
        var err := Wrapped("processing event", cause);
        return if IsPermanentError(err) then Term else Nak;
      }
      return Ack;
    }
  }

  lemma ExecOne(g: Graph, w: Write)
    ensures ExecAll(g, [w]) == Exec(g, w)
  {
    assert [w][..0] == [];
    assert ExecAll(g, [w][..0]) == g;
  }

  lemma {:induction false} EntityWritesSplit(entities: seq<EntityRecord>, k: nat)
    requires k <= |entities|
    ensures EntityWrites(entities) == EntityWrites(entities[..k]) + EntityWrites(entities[k..])
  {
    if k == |entities| {
      assert entities[..k] == entities;
    } else {
      var n := |entities| - 1;
      EntityWritesSplit(entities[..n], k);
      assert entities[..n][..k] == entities[..k] && entities[..n][k..] == entities[k..][..n - k];
    }
  }

  lemma {:induction false} EdgeWritesSplit(edges: seq<EdgeRecord>, k: nat, logIndex: int)
    requires k <= |edges|
    ensures EdgeWrites(edges, logIndex) == EdgeWrites(edges[..k], logIndex) + EdgeWrites(edges[k..], logIndex)
  {
    if k == |edges| {
      assert edges[..k] == edges;
    } else {
      var n := |edges| - 1;
      EdgeWritesSplit(edges[..n], k, logIndex);
      assert edges[..n][..k] == edges[..k] && edges[..n][k..] == edges[k..][..n - k];
    }
  }
}
