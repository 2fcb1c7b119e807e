/** What the graph holds after any history of processed events. */
module GraphHistory {
  import opened Receipts
  import opened Graphs
  import opened Catalogs
  import opened Loaders

  /** A processed event, with the publisher that was resolved for it. */
  datatype Job = Registered(subject: string) | Ingested(subject: string, digest: string, p: Publisher)
               | Sealed(d: SealedData, p: Publisher, at: int)

  function Writes(job: Job): seq<Write> {
    match job
    case Registered(subject) => [PutSubject(subject)]
    case Ingested(subject, digest, p) => IngestedWrites(subject, digest, p)
    case Sealed(d, p, at) => SealedWrites(d, p, at)
  }

  function Replay(g: Graph, jobs: seq<Job>): Graph {
    if jobs == [] then g else ExecAll(Replay(g, jobs[..|jobs| - 1]), Writes(jobs[|jobs| - 1]))
  }

  // ---- What a sum of writes holds ----

  ghost predicate SomePutsNode(ws: seq<Write>, n: Node) {
    exists w :: w in ws && n in Adds(w).nodes
  }

  ghost predicate SomePutsEdge(ws: seq<Write>, e: Edge) {
    exists w :: w in ws && e in Adds(w).edges
  }

  lemma SomePutsLast(ws: seq<Write>)
    requires ws != []
    ensures forall n :: SomePutsNode(ws, n) <==> SomePutsNode(ws[..|ws| - 1], n) || n in Adds(ws[|ws| - 1]).nodes
    ensures forall e :: SomePutsEdge(ws, e) <==> SomePutsEdge(ws[..|ws| - 1], e) || e in Adds(ws[|ws| - 1]).edges
  {
    assert forall w :: w in ws <==> w in ws[..|ws| - 1] || w == ws[|ws| - 1];
  }

  lemma {:induction false} SumNode(ws: seq<Write>, n: Node)
    ensures n in Sum(ws).nodes <==> SomePutsNode(ws, n)
  {
    if ws != [] {
      SumNode(ws[..|ws| - 1], n);
      SomePutsLast(ws);
    }
  }

  lemma {:induction false} SumEdge(ws: seq<Write>, e: Edge)
    ensures e in Sum(ws).edges <==> SomePutsEdge(ws, e)
  {
    if ws != [] {
      SumEdge(ws[..|ws| - 1], e);
      SomePutsLast(ws);
    }
  }

  lemma SumOfThree(a: Write, b: Write, c: Write)
    ensures Sum([a, b, c][..0]) == EMPTY && Sum([a, b, c][..1]) == Adds(a) && Sum([a, b, c][..2]) == Merge(Adds(a), Adds(b))
    ensures Sum([a, b, c]) == Merge(Merge(Adds(a), Adds(b)), Adds(c))
  {
    var ws := [a, b, c];
    assert ws[..1][..0] == [] && ws[..2][..1] == ws[..1];
    MergeEmpty(Adds(a));
  }

  /** Three statements are grounded if the first two need only what is there and put what the third needs. */
  lemma ThreeGrounded(have: set<Node>, a: Write, b: Write, c: Write)
    requires Needs(a) <= have && Needs(b) <= have && Needs(c) <= Adds(a).nodes + Adds(b).nodes
    ensures Grounded(have, [a, b, c])
  {
    var ws := [a, b, c];
    SumOfThree(a, b, c);
    forall i | 0 <= i < 3 ensures Needs(ws[i]) <= have + Sum(ws[..i]).nodes {
      assert i == 2 ==> Sum(ws[..i]).nodes == Adds(a).nodes + Adds(b).nodes;
    }
  }

  /** Nodes and edges of two sequences are those of the one and those of the other. */
  lemma SumStructure(a: seq<Write>, b: seq<Write>)
    ensures Sum(a + b).nodes == Sum(a).nodes + Sum(b).nodes && Sum(a + b).edges == Sum(a).edges + Sum(b).edges
  {
    SumAppend(a, b);
  }

  // ---- No MATCH fails ----

  ghost predicate AllAt(entities: seq<EntityRecord>, logIndex: int) {
    forall e :: e in entities ==> e.logIndex == logIndex
  }

  lemma {:induction false} ControlsAt(catalogId: string, controls: seq<Control>, logIndex: int)
    ensures AllAt(ControlsSpec(catalogId, controls, logIndex).entities, logIndex)
  {
    if controls != [] {
      ControlsAt(catalogId, controls[..|controls| - 1], logIndex);
    }
  }

  lemma {:induction false} ThreatsAt(threats: seq<Threat>, logIndex: int)
    ensures AllAt(ThreatsSpec(threats, logIndex).entities, logIndex)
  {
    if threats != [] {
      ThreatsAt(threats[..|threats| - 1], logIndex);
    }
  }

  lemma {:induction false} CapabilitiesAt(capabilities: seq<Capability>, logIndex: int)
    ensures AllAt(CapabilitiesSpec(capabilities, logIndex).entities, logIndex)
  {
    if capabilities != [] {
      CapabilitiesAt(capabilities[..|capabilities| - 1], logIndex);
    }
  }

  lemma SpecAt(a: Artifact, logIndex: int)
    requires Spec(a, logIndex).Some?
    ensures AllAt(Spec(a, logIndex).value.entities, logIndex)
  {
    match a
    case ControlCatalog(catalogId, controls) => ControlsAt(catalogId, controls, logIndex);
    case ThreatCatalog(_, threats) => ThreatsAt(threats, logIndex);
    case CapabilityCatalog(_, capabilities) => CapabilitiesAt(capabilities, logIndex);
    case OtherArtifact =>
  }

  lemma HeadGrounded(d: SealedData, p: Publisher, at: int)
    ensures Grounded({}, HeadWrites(d, p, at)) && EvidenceNode(d.logIndex) in Sum(HeadWrites(d, p, at)).nodes
  {
    var a, b, c := PutSubject(d.subject), PutPublisher(p), PutEvidence(EvidenceFor(d, p, at));
    ThreeGrounded({}, a, b, c);
    SumOfThree(a, b, c);
  }

  lemma EntityAppend(logIndex: int, a: seq<Write>, b: seq<Write>)
    requires Grounded({EvidenceNode(logIndex)}, a) && Grounded({EvidenceNode(logIndex)}, b)
    ensures Grounded({EvidenceNode(logIndex)}, a + b)
  {
    GroundedMore({EvidenceNode(logIndex)}, {EvidenceNode(logIndex)} + Sum(a).nodes, b);
    GroundedAppend({EvidenceNode(logIndex)}, a, b);
  }

  lemma {:induction false} EntitiesGrounded(entities: seq<EntityRecord>, logIndex: int)
    requires AllAt(entities, logIndex)
    ensures Grounded({EvidenceNode(logIndex)}, EntityWrites(entities))
  {
    if entities != [] {
      var front, last := entities[..|entities| - 1], entities[|entities| - 1];
      EntitiesGrounded(front, logIndex);
      EntityAppend(logIndex, EntityWrites(front), [PutEntity(last)]);
    }
  }

  lemma OneEdgeGrounded(e: EdgeRecord, logIndex: int)
    ensures Grounded({EvidenceNode(logIndex)}, OneEdge(e, logIndex))
  {
    var three := OneEdge(e, logIndex);
    ThreeGrounded({EvidenceNode(logIndex)}, three[0], three[1], three[2]);
  }

  lemma {:induction false} EdgesGrounded(edges: seq<EdgeRecord>, logIndex: int)
    ensures Grounded({EvidenceNode(logIndex)}, EdgeWrites(edges, logIndex))
  {
    if edges != [] {
      var front, last := edges[..|edges| - 1], edges[|edges| - 1];
      EdgesGrounded(front, logIndex);
      OneEdgeGrounded(last, logIndex);
      EntityAppend(logIndex, EdgeWrites(front, logIndex), OneEdge(last, logIndex));
    }
  }

  lemma ArtifactGrounded(a: Artifact, logIndex: int)
    ensures Grounded({EvidenceNode(logIndex)}, ArtifactWrites(a, logIndex))
  {
    if a != Malformed {
      var parsed := Spec(a, logIndex).value;
      SpecAt(a, logIndex);
      EntitiesGrounded(parsed.entities, logIndex);
      EdgesGrounded(parsed.edges, logIndex);
      EntityAppend(logIndex, EntityWrites(parsed.entities), EdgeWrites(parsed.edges, logIndex));
    }
  }

  lemma SealedGrounded(d: SealedData, p: Publisher, at: int)
    ensures Grounded({}, SealedWrites(d, p, at))
  {
    HeadGrounded(d, p, at);
    ArtifactGrounded(d.artifact, d.logIndex);
    GroundedMore({EvidenceNode(d.logIndex)}, {} + Sum(HeadWrites(d, p, at)).nodes, ArtifactWrites(d.artifact, d.logIndex));
    GroundedAppend({}, HeadWrites(d, p, at), ArtifactWrites(d.artifact, d.logIndex));
  }

  lemma IngestedGrounded(subject: string, digest: string, p: Publisher)
    ensures Grounded({}, IngestedWrites(subject, digest, p))
  {
    ThreeGrounded({}, PutSubject(subject), PutPublisher(p), PutStub(digest, subject, p));
  }

  /** Whatever the graph before, no statement of a job is cut off: no parsed edge is lost. */
  lemma JobGrounded(job: Job)
    ensures Grounded({}, Writes(job))
  {
    match job
    case Registered(_) =>
    case Ingested(subject, digest, p) => IngestedGrounded(subject, digest, p);
    case Sealed(d, p, at) => SealedGrounded(d, p, at);
  }

  // ---- Structure ----

  ghost predicate PutsNode(jobs: seq<Job>, n: Node) {
    exists job :: job in jobs && n in Sum(Writes(job)).nodes
  }

  ghost predicate PutsEdge(jobs: seq<Job>, e: Edge) {
    exists job :: job in jobs && e in Sum(Writes(job)).edges
  }

  /** The second graph is the first with each job's own contribution. */
  ghost predicate Extended(g: Graph, jobs: seq<Job>, h: Graph) {
    && (forall n :: n in h.nodes <==> n in g.nodes || PutsNode(jobs, n))
    && (forall e :: e in h.edges <==> e in g.edges || PutsEdge(jobs, e))
  }

  lemma PutsLast(jobs: seq<Job>)
    requires jobs != []
    ensures forall n :: PutsNode(jobs, n) <==> PutsNode(jobs[..|jobs| - 1], n) || n in Sum(Writes(jobs[|jobs| - 1])).nodes
    ensures forall e :: PutsEdge(jobs, e) <==> PutsEdge(jobs[..|jobs| - 1], e) || e in Sum(Writes(jobs[|jobs| - 1])).edges
  {
    assert forall job :: job in jobs <==> job in jobs[..|jobs| - 1] || job == jobs[|jobs| - 1];
  }

  lemma ExtendedLast(g: Graph, jobs: seq<Job>, h: Graph)
    requires jobs != [] && Extended(g, jobs[..|jobs| - 1], h)
    ensures Extended(g, jobs, ExecAll(h, Writes(jobs[|jobs| - 1])))
  {
    JobGrounded(jobs[|jobs| - 1]);
    GroundedAdds(h, {}, Writes(jobs[|jobs| - 1]));
    PutsLast(jobs);
  }

  /** Nodes and edges after a history: those before it, and each job's own contribution. */
  lemma {:induction false} ReplayStructure(g: Graph, jobs: seq<Job>)
    ensures Extended(g, jobs, Replay(g, jobs))
  {
    if jobs != [] {
      ReplayStructure(g, jobs[..|jobs| - 1]);
      ExtendedLast(g, jobs, Replay(g, jobs[..|jobs| - 1]));
    }
  }

  /**
   * Structural confluence: two histories with the same events, in any order and with any number of
   * replays, lead to the same nodes and the same edges.
   */
  lemma Confluence(g: Graph, a: seq<Job>, b: seq<Job>)
    requires forall job :: job in a <==> job in b
    ensures Replay(g, a).nodes == Replay(g, b).nodes && Replay(g, a).edges == Replay(g, b).edges
  {
    ReplayStructure(g, a);
    ReplayStructure(g, b);
    forall n ensures n in Replay(g, a).nodes <==> n in Replay(g, b).nodes {
    }
    forall e ensures e in Replay(g, a).edges <==> e in Replay(g, b).edges {
    }
  }

  function InOrder(g: Graph, a: Job, b: Job): Graph {
    ExecAll(ExecAll(g, Writes(a)), Writes(b))
  }

  lemma InOrderAdds(g: Graph, a: Job, b: Job)
    ensures InOrder(g, a, b) == Twice(g, Sum(Writes(a)), Sum(Writes(b)))
  {
    JobGrounded(a);
    JobGrounded(b);
    GroundedAdds(g, {}, Writes(a));
    GroundedAdds(Merge(g, Sum(Writes(a))), {}, Writes(b));
  }

  /** Two adjacent events may be swapped, on every graph, exactly when they set no property differently. */
  lemma SwapIff(a: Job, b: Job)
    ensures (forall g :: InOrder(g, a, b) == InOrder(g, b, a)) <==> !Clash(Sum(Writes(a)), Sum(Writes(b)))
  {
    var x, y := Sum(Writes(a)), Sum(Writes(b));
    CommuteIff(x, y);
    forall g ensures InOrder(g, a, b) == Twice(g, x, y) && InOrder(g, b, a) == Twice(g, y, x) {
      InOrderAdds(g, a, b);
      InOrderAdds(g, b, a);
    }
    if Clash(x, y) {
      var g :| Twice(g, x, y) != Twice(g, y, x);
      assert InOrder(g, a, b) != InOrder(g, b, a);
    }
  }

  // ---- Retries ----

  /** An attempt that got through `k` writes; the clock is read again when the event carries no time. */
  datatype Attempt = Attempt(k: nat, at: int)

  ghost predicate Partial(d: SealedData, p: Publisher, tries: seq<Attempt>) {
    forall t :: t in tries ==> t.k <= |SealedWrites(d, p, t.at)|
  }

  function Tried(g: Graph, d: SealedData, p: Publisher, tries: seq<Attempt>): Graph
    requires Partial(d, p, tries)
  {
    if tries == [] then g
    else
      var last := tries[|tries| - 1];
      ExecAll(Tried(g, d, p, tries[..|tries| - 1]), SealedWrites(d, p, last.at)[..last.k])
  }

  lemma HeadStructure(d: SealedData, p: Publisher, at: int)
    ensures var head, e := Sum(HeadWrites(d, p, at)), EvidenceNode(d.logIndex);
            && head.nodes == {SubjectNode(d.subject), PublisherNode(p), e}
            && head.edges == {Edge(e, "TARGETS", SubjectNode(d.subject)), Edge(e, "PUBLISHED_BY", PublisherNode(p))}
  {
    HeadSum(d, p, at);
  }

  lemma TailAfterHead(d: SealedData, p: Publisher, at: int)
    ensures Sum(SealedWrites(d, p, at)) == Merge(Sum(HeadWrites(d, p, at)), Sum(ArtifactWrites(d.artifact, d.logIndex)))
  {
    SumAppend(HeadWrites(d, p, at), ArtifactWrites(d.artifact, d.logIndex));
  }

  lemma HeadSum(d: SealedData, p: Publisher, at: int)
    ensures var e := EvidenceNode(d.logIndex);
            Sum(HeadWrites(d, p, at)) ==
            Graph({SubjectNode(d.subject), PublisherNode(p), e}, Tag(e, EvidenceProps(EvidenceFor(d, p, at))),
                  {Edge(e, "TARGETS", SubjectNode(d.subject)), Edge(e, "PUBLISHED_BY", PublisherNode(p))})
  {
    var a, b, c := PutSubject(d.subject), PutPublisher(p), PutEvidence(EvidenceFor(d, p, at));
    SumOfThree(a, b, c);
    assert Adds(a).props + Adds(b).props + Adds(c).props == Adds(c).props;
    assert Adds(a).nodes + Adds(b).nodes + Adds(c).nodes == {SubjectNode(d.subject), PublisherNode(p), EvidenceNode(d.logIndex)};
  }

  /** Writing the same event at another time reaches the same places. */
  lemma SamePlaces(d: SealedData, p: Publisher, at: int, at': int)
    ensures Covers(Sum(SealedWrites(d, p, at')), Sum(SealedWrites(d, p, at)))
  {
    TailAfterHead(d, p, at);
    TailAfterHead(d, p, at');
    HeadSum(d, p, at);
    HeadSum(d, p, at');
    var e := EvidenceNode(d.logIndex);
    assert Tag(e, EvidenceProps(EvidenceFor(d, p, at))).Keys == Tag(e, EvidenceProps(EvidenceFor(d, p, at'))).Keys;
  }

  lemma OneRetry(g: Graph, d: SealedData, p: Publisher, t: Attempt, at: int)
    requires t.k <= |SealedWrites(d, p, t.at)|
    ensures ExecAll(ExecAll(g, SealedWrites(d, p, t.at)[..t.k]), SealedWrites(d, p, at)) == ExecAll(g, SealedWrites(d, p, at))
  {
    var ws, part := SealedWrites(d, p, at), SealedWrites(d, p, t.at)[..t.k];
    SealedGrounded(d, p, at);
    SealedGrounded(d, p, t.at);
    GroundedPrefix({}, SealedWrites(d, p, t.at), t.k);
    GroundedAdds(g, {}, ws);
    GroundedAdds(g, {}, part);
    GroundedAdds(Merge(g, Sum(part)), {}, ws);
    MergeAssoc(g, Sum(part), Sum(ws));
    SumCovers(SealedWrites(d, p, t.at), t.k);
    SamePlaces(d, p, t.at, at);
    Absorbed(Sum(part), Sum(ws));
  }

  /**
   * Crash tolerance: from any graph, any number of attempts at a sealed event that each broke off
   * after some prefix of its writes, followed by one complete attempt, leave exactly the graph of
   * that complete attempt alone, as long as all resolved the same publisher.
   */
  lemma {:induction false} CrashTolerance(g: Graph, d: SealedData, p: Publisher, tries: seq<Attempt>, at: int)
    requires Partial(d, p, tries)
    ensures ExecAll(Tried(g, d, p, tries), SealedWrites(d, p, at)) == ExecAll(g, SealedWrites(d, p, at))
  {
    if tries != [] {
      var front, last := tries[..|tries| - 1], tries[|tries| - 1];
      OneRetry(Tried(g, d, p, front), d, p, last, at);
      CrashTolerance(g, d, p, front, at);
    }
  }
}
