/** The threat-model view and the publisher lookup, read back against the history of events. */
module GraphViews {
  import opened Receipts
  import opened Graphs
  import opened Catalogs
  import opened Loaders
  import opened GraphHistory

  // ---- The edges one sealed event contributes ----

  ghost predicate IsEntity(entities: seq<EntityRecord>, n: Node) {
    exists x :: x in entities && n == EntityNode(x.kind, x.id)
  }

  ghost predicate IsEnd(edges: seq<EdgeRecord>, n: Node) {
    exists r :: r in edges && (n == EdgeOf(r).from || n == EdgeOf(r).to)
  }

  ghost predicate IsStated(edges: seq<EdgeRecord>, e: Edge) {
    exists r :: r in edges && e == EdgeOf(r)
  }

  /** The artifact names this node: as an entity of its own or as an end of a reference. */
  ghost predicate Declares(a: Artifact, logIndex: int, n: Node) {
    Spec(a, logIndex).Some? && (IsEntity(Spec(a, logIndex).value.entities, n) || IsEnd(Spec(a, logIndex).value.edges, n))
  }

  ghost predicate States(a: Artifact, logIndex: int, e: Edge) {
    Spec(a, logIndex).Some? && IsStated(Spec(a, logIndex).value.edges, e)
  }

  lemma {:induction false} EntityWriteIff(entities: seq<EntityRecord>, w: Write)
    ensures w in EntityWrites(entities) <==> w.PutEntity? && w.entity in entities
  {
    if entities != [] {
      EntityWriteIff(entities[..|entities| - 1], w);
      assert entities == entities[..|entities| - 1] + [entities[|entities| - 1]];
    }
  }

  lemma {:induction false} EdgeWriteIff(edges: seq<EdgeRecord>, logIndex: int, w: Write)
    ensures w in EdgeWrites(edges, logIndex) <==> exists r :: r in edges && w in OneEdge(r, logIndex)
  {
    if edges != [] {
      EdgeWriteIff(edges[..|edges| - 1], logIndex, w);
      assert edges == edges[..|edges| - 1] + [edges[|edges| - 1]];
    }
  }

  lemma EntitySumEdge(entities: seq<EntityRecord>, logIndex: int, e: Edge)
    requires AllAt(entities, logIndex)
    ensures e in Sum(EntityWrites(entities)).edges <==>
              e.from == EvidenceNode(logIndex) && e.rel == "DEFINES" && IsEntity(entities, e.to)
  {
    var ws := EntityWrites(entities);
    SumEdge(ws, e);
    if SomePutsEdge(ws, e) {
      var w :| w in ws && e in Adds(w).edges;
      EntityWriteIff(entities, w);
    }
    if e.from == EvidenceNode(logIndex) && e.rel == "DEFINES" && IsEntity(entities, e.to) {
      var x :| x in entities && e.to == EntityNode(x.kind, x.id);
      EntityWriteIff(entities, PutEntity(x));
      assert e in Adds(PutEntity(x)).edges;
    }
  }

  lemma ThreeEdges(a: Write, b: Write, c: Write, e: Edge)
    ensures e in Sum([a, b, c]).edges <==> e in Adds(a).edges || e in Adds(b).edges || e in Adds(c).edges
  {
    SumOfThree(a, b, c);
  }

  /** What one reference contributes: a definition of each end, and itself. */
  ghost predicate FromReference(r: EdgeRecord, logIndex: int, e: Edge) {
    (e.from == EvidenceNode(logIndex) && e.rel == "DEFINES" && (e.to == EdgeOf(r).from || e.to == EdgeOf(r).to)) || e == EdgeOf(r)
  }

  lemma OneEdgePuts(r: EdgeRecord, logIndex: int, w: Write, e: Edge)
    requires w in OneEdge(r, logIndex) && e in Adds(w).edges
    ensures FromReference(r, logIndex, e)
  {
  }

  lemma OneEdgeWitness(r: EdgeRecord, logIndex: int, e: Edge) returns (w: Write)
    requires FromReference(r, logIndex, e)
    ensures w in OneEdge(r, logIndex) && e in Adds(w).edges
  {
    var three := OneEdge(r, logIndex);
    w := if e == EdgeOf(r) then three[2] else if e.to == EdgeOf(r).from then three[0] else three[1];
  }

  ghost predicate FromSome(edges: seq<EdgeRecord>, logIndex: int, e: Edge) {
    exists r :: r in edges && FromReference(r, logIndex, e)
  }

  lemma FromSomeIff(edges: seq<EdgeRecord>, logIndex: int, e: Edge)
    ensures FromSome(edges, logIndex, e) <==>
              (e.from == EvidenceNode(logIndex) && e.rel == "DEFINES" && IsEnd(edges, e.to)) || IsStated(edges, e)
  {
    if FromSome(edges, logIndex, e) {
      var r :| r in edges && FromReference(r, logIndex, e);
    }
    if e.from == EvidenceNode(logIndex) && e.rel == "DEFINES" && IsEnd(edges, e.to) {
      var r :| r in edges && (e.to == EdgeOf(r).from || e.to == EdgeOf(r).to);
      assert FromReference(r, logIndex, e);
    }
    if IsStated(edges, e) {
      var r :| r in edges && e == EdgeOf(r);
      assert FromReference(r, logIndex, e);
    }
  }

  lemma EdgeSumEdge(edges: seq<EdgeRecord>, logIndex: int, e: Edge)
    ensures e in Sum(EdgeWrites(edges, logIndex)).edges <==> FromSome(edges, logIndex, e)
  {
    var ws := EdgeWrites(edges, logIndex);
    SumEdge(ws, e);
    if SomePutsEdge(ws, e) {
      var w :| w in ws && e in Adds(w).edges;
      EdgeWriteIff(edges, logIndex, w);
      var r :| r in edges && w in OneEdge(r, logIndex);
      OneEdgePuts(r, logIndex, w, e);
    }
    if FromSome(edges, logIndex, e) {
      var r :| r in edges && FromReference(r, logIndex, e);
      var w := OneEdgeWitness(r, logIndex, e);
      EdgeWriteIff(edges, logIndex, w);
    }
  }

  /** The edges an artifact contributes: a definition of every node it names, and its own references. */
  lemma ArtifactEdge(a: Artifact, logIndex: int, e: Edge)
    ensures e in Sum(ArtifactWrites(a, logIndex)).edges <==>
              (e.from == EvidenceNode(logIndex) && e.rel == "DEFINES" && Declares(a, logIndex, e.to)) || States(a, logIndex, e)
  {
    if a != Malformed {
      var parsed := Spec(a, logIndex).value;
      SpecAt(a, logIndex);
      EntitySumEdge(parsed.entities, logIndex, e);
      EdgeSumEdge(parsed.edges, logIndex, e);
      FromSomeIff(parsed.edges, logIndex, e);
      var x, y := EntityWrites(parsed.entities), EdgeWrites(parsed.edges, logIndex);
      SumStructure(x, y);
    }
  }

  /** All edges of one sealed event. */
  lemma SealedEdge(d: SealedData, p: Publisher, at: int, e: Edge)
    ensures e in Sum(SealedWrites(d, p, at)).edges <==>
              || e == Edge(EvidenceNode(d.logIndex), "TARGETS", SubjectNode(d.subject))
              || e == Edge(EvidenceNode(d.logIndex), "PUBLISHED_BY", PublisherNode(p))
              || (e.from == EvidenceNode(d.logIndex) && e.rel == "DEFINES" && Declares(d.artifact, d.logIndex, e.to))
              || States(d.artifact, d.logIndex, e)
  {
    SumStructure(HeadWrites(d, p, at), ArtifactWrites(d.artifact, d.logIndex));
    HeadStructure(d, p, at);
    ArtifactEdge(d.artifact, d.logIndex, e);
  }

  lemma IngestedEdge(subject: string, digest: string, p: Publisher, e: Edge)
    ensures e in Sum(IngestedWrites(subject, digest, p)).edges <==>
              e == Edge(StubNode(digest, subject), "TARGETS", SubjectNode(subject))
              || e == Edge(StubNode(digest, subject), "PUBLISHED_BY", PublisherNode(p))
  {
    ThreeEdges(PutSubject(subject), PutPublisher(p), PutStub(digest, subject, p), e);
  }

  lemma RegisteredEdge(subject: string)
    ensures Sum([PutSubject(subject)]).edges == {}
  {
    assert [PutSubject(subject)][..0] == [];
  }

  // ---- The lookup ----

  /** What a job says about an edge, case by case. */
  lemma JobEdge(job: Job, e: Edge)
    ensures e in Sum(Writes(job)).edges <==>
      match job
      case Registered(_) => false
      case Ingested(subject, digest, p) =>
        e == Edge(StubNode(digest, subject), "TARGETS", SubjectNode(subject))
        || e == Edge(StubNode(digest, subject), "PUBLISHED_BY", PublisherNode(p))
      case Sealed(d, p, _) =>
        || e == Edge(EvidenceNode(d.logIndex), "TARGETS", SubjectNode(d.subject))
        || e == Edge(EvidenceNode(d.logIndex), "PUBLISHED_BY", PublisherNode(p))
        || (e.from == EvidenceNode(d.logIndex) && e.rel == "DEFINES" && Declares(d.artifact, d.logIndex, e.to))
        || States(d.artifact, d.logIndex, e)
  {
    match job
    case Registered(subject) => RegisteredEdge(subject);
    case Ingested(subject, digest, p) => IngestedEdge(subject, digest, p, e);
    case Sealed(d, p, at) => SealedEdge(d, p, at, e);
  }

  /**
   * The stub of a digest names exactly the publishers whose ingested events have been processed,
   * so the lookup of a sealed event finds one of them, and falls back exactly when there is none.
   */
  lemma LookupIff(jobs: seq<Job>, subject: string, digest: string, p: Publisher)
    ensures StubPublisher(Replay(EMPTY, jobs), subject, digest, p) <==> Ingested(subject, digest, p) in jobs
  {
    var e := Edge(StubNode(digest, subject), "PUBLISHED_BY", PublisherNode(p));
    ReplayStructure(EMPTY, jobs);
    forall job | job in jobs ensures e in Sum(Writes(job)).edges <==> job == Ingested(subject, digest, p) {
      JobEdge(job, e);
    }
  }

  // ---- View equals history ----

  ghost predicate Addresses(a: Artifact, control: string, threat: string) {
    a.ControlCatalog? && exists c :: c in a.controls && c.id == control && Mentions(c.threats, threat)
  }

  ghost predicate Introduces(a: Artifact, capability: string, threat: string) {
    a.ThreatCatalog? && exists t :: t in a.threats && t.id == threat && Mentions(t.capabilities, capability)
  }

  lemma ThreatSpecEdge(threats: seq<Threat>, logIndex: int, e: EdgeRecord)
    ensures e in ThreatsSpec(threats, logIndex).edges && e.rel == "INTRODUCES" <==>
              && e == EdgeRecord("Capability", e.fromId, "INTRODUCES", "Threat", e.toId)
              && exists t :: t in threats && t.id == e.toId && Mentions(t.capabilities, e.fromId)
    ensures e in ThreatsSpec(threats, logIndex).edges ==> e.rel == "INTRODUCES" || e.rel == "LEVERAGES"
  {
    ThreatCatalogEdge(threats, logIndex, e);
    forall t | t in threats ensures e in ThreatEdges(t) <==>
      || (e == EdgeRecord("Capability", e.fromId, "INTRODUCES", "Threat", t.id) && Mentions(t.capabilities, e.fromId))
      || (e == EdgeRecord("Threat", t.id, "LEVERAGES", "Vector", e.toId) && Mentions(t.vectors, e.toId))
    {
      ThreatEdge(t, e);
    }
  }

  lemma AddressesStated(a: Artifact, logIndex: int, control: string, threat: string)
    ensures States(a, logIndex, Edge(EntityNode("Control", control), "ADDRESSES", EntityNode("Threat", threat)))
       <==> Addresses(a, control, threat)
  {
    var r := EdgeRecord("Control", control, "ADDRESSES", "Threat", threat);
    assert Spec(a, logIndex).Some? ==>
             (States(a, logIndex, EdgeOf(r)) <==> r in Spec(a, logIndex).value.edges);
    match a
    case ControlCatalog(catalogId, controls) => ControlCatalogEdge(catalogId, controls, logIndex, r);
    case ThreatCatalog(_, threats) => ThreatSpecEdge(threats, logIndex, r);
    case CapabilityCatalog(_, capabilities) => CapabilityCatalogEdges(capabilities, logIndex);
    case _ =>
  }

  lemma IntroducesStated(a: Artifact, logIndex: int, capability: string, threat: string)
    ensures States(a, logIndex, Edge(EntityNode("Capability", capability), "INTRODUCES", EntityNode("Threat", threat)))
       <==> Introduces(a, capability, threat)
  {
    var r := EdgeRecord("Capability", capability, "INTRODUCES", "Threat", threat);
    assert Spec(a, logIndex).Some? ==>
             (States(a, logIndex, EdgeOf(r)) <==> r in Spec(a, logIndex).value.edges);
    match a
    case ControlCatalog(catalogId, controls) => ControlCatalogEdge(catalogId, controls, logIndex, r);
    case ThreatCatalog(_, threats) => ThreatSpecEdge(threats, logIndex, r);
    case CapabilityCatalog(_, capabilities) => CapabilityCatalogEdges(capabilities, logIndex);
    case _ =>
  }

  /** The graph says that a control addresses a threat exactly when some processed control catalog does. */
  lemma AddressesIff(jobs: seq<Job>, control: string, threat: string)
    ensures Edge(EntityNode("Control", control), "ADDRESSES", EntityNode("Threat", threat)) in Replay(EMPTY, jobs).edges
       <==> exists job :: job in jobs && job.Sealed? && Addresses(job.d.artifact, control, threat)
  {
    var e := Edge(EntityNode("Control", control), "ADDRESSES", EntityNode("Threat", threat));
    ReplayStructure(EMPTY, jobs);
    forall job | job in jobs ensures e in Sum(Writes(job)).edges <==> job.Sealed? && Addresses(job.d.artifact, control, threat) {
      JobEdge(job, e);
      if job.Sealed? {
        AddressesStated(job.d.artifact, job.d.logIndex, control, threat);
      }
    }
  }

  /** The graph says that a capability introduces a threat exactly when some processed threat catalog does. */
  lemma IntroducesIff(jobs: seq<Job>, capability: string, threat: string)
    ensures Edge(EntityNode("Capability", capability), "INTRODUCES", EntityNode("Threat", threat)) in Replay(EMPTY, jobs).edges
       <==> exists job :: job in jobs && job.Sealed? && Introduces(job.d.artifact, capability, threat)
  {
    var e := Edge(EntityNode("Capability", capability), "INTRODUCES", EntityNode("Threat", threat));
    ReplayStructure(EMPTY, jobs);
    forall job | job in jobs ensures e in Sum(Writes(job)).edges <==> job.Sealed? && Introduces(job.d.artifact, capability, threat) {
      JobEdge(job, e);
      if job.Sealed? {
        IntroducesStated(job.d.artifact, job.d.logIndex, capability, threat);
      }
    }
  }

  // ---- Whose threats are listed ----

  /** The view lists a node for a subject when evidence for the subject, with a publisher, defines it. */
  ghost predicate Listed(g: Graph, subject: string, n: Node) {
    exists i, p ::
      && Edge(EvidenceNode(i), "TARGETS", SubjectNode(subject)) in g.edges
      && Edge(EvidenceNode(i), "PUBLISHED_BY", PublisherNode(p)) in g.edges
      && Edge(EvidenceNode(i), "DEFINES", n) in g.edges
  }

  ghost predicate SealedFor(jobs: seq<Job>, subject: string, i: int) {
    exists job :: job in jobs && job.Sealed? && job.d.subject == subject && job.d.logIndex == i
  }

  ghost predicate DeclaredAt(jobs: seq<Job>, i: int, n: Node) {
    exists job :: job in jobs && job.Sealed? && job.d.logIndex == i && Declares(job.d.artifact, i, n)
  }

  ghost predicate DeclaredFor(jobs: seq<Job>, subject: string, n: Node) {
    exists job :: job in jobs && job.Sealed? && job.d.subject == subject && Declares(job.d.artifact, job.d.logIndex, n)
  }

  lemma TargetsIff(jobs: seq<Job>, i: int, subject: string)
    ensures Edge(EvidenceNode(i), "TARGETS", SubjectNode(subject)) in Replay(EMPTY, jobs).edges <==> SealedFor(jobs, subject, i)
  {
    var e := Edge(EvidenceNode(i), "TARGETS", SubjectNode(subject));
    ReplayStructure(EMPTY, jobs);
    forall job | job in jobs ensures e in Sum(Writes(job)).edges <==> job.Sealed? && job.d.subject == subject && job.d.logIndex == i {
      JobEdge(job, e);
    }
  }

  lemma DefinesIff(jobs: seq<Job>, i: int, n: Node)
    ensures Edge(EvidenceNode(i), "DEFINES", n) in Replay(EMPTY, jobs).edges <==> DeclaredAt(jobs, i, n)
  {
    var e := Edge(EvidenceNode(i), "DEFINES", n);
    ReplayStructure(EMPTY, jobs);
    forall job | job in jobs ensures e in Sum(Writes(job)).edges <==> job.Sealed? && job.d.logIndex == i && Declares(job.d.artifact, i, n) {
      JobEdge(job, e);
    }
  }

  lemma PublishedBy(jobs: seq<Job>, i: int, p: Publisher)
    ensures Edge(EvidenceNode(i), "PUBLISHED_BY", PublisherNode(p)) in Replay(EMPTY, jobs).edges
       <==> exists job :: job in jobs && job.Sealed? && job.d.logIndex == i && job.p == p
  {
    var e := Edge(EvidenceNode(i), "PUBLISHED_BY", PublisherNode(p));
    ReplayStructure(EMPTY, jobs);
    forall job | job in jobs ensures e in Sum(Writes(job)).edges <==> job.Sealed? && job.d.logIndex == i && job.p == p {
      JobEdge(job, e);
    }
  }

  /**
   * A node is listed for a subject exactly when the subject has a sealed event at some log index
   * and some event at that index, of whatever subject, declares the node.
   */
  lemma ListedIff(jobs: seq<Job>, subject: string, n: Node)
    ensures Listed(Replay(EMPTY, jobs), subject, n) <==> exists i :: SealedFor(jobs, subject, i) && DeclaredAt(jobs, i, n)
  {
    var g := Replay(EMPTY, jobs);
    if Listed(g, subject, n) {
      var i, p :| Edge(EvidenceNode(i), "TARGETS", SubjectNode(subject)) in g.edges
                  && Edge(EvidenceNode(i), "PUBLISHED_BY", PublisherNode(p)) in g.edges
                  && Edge(EvidenceNode(i), "DEFINES", n) in g.edges;
      TargetsIff(jobs, i, subject);
      DefinesIff(jobs, i, n);
    }
    if i :| SealedFor(jobs, subject, i) && DeclaredAt(jobs, i, n) {
      TargetsIff(jobs, i, subject);
      DefinesIff(jobs, i, n);
      var job :| job in jobs && job.Sealed? && job.d.subject == subject && job.d.logIndex == i;
      PublishedBy(jobs, i, job.p);
    }
  }

  /** Two events at one index, of different subjects, one naming a node the other's subject never named. */
  ghost predicate Collision(jobs: seq<Job>) {
    exists a, b, n :: a in jobs && b in jobs && a.Sealed? && b.Sealed? && a.d.logIndex == b.d.logIndex
                   && Declares(b.d.artifact, b.d.logIndex, n) && !DeclaredFor(jobs, a.d.subject, n)
  }

  /**
   * The view keeps subjects apart, listing for each exactly what its own artifacts name, if and only
   * if no two events of different subjects collide at one log index.
   */
  lemma SeparateIff(jobs: seq<Job>)
    ensures (forall subject, n :: Listed(Replay(EMPTY, jobs), subject, n) <==> DeclaredFor(jobs, subject, n)) <==> !Collision(jobs)
  {
    var g := Replay(EMPTY, jobs);
    forall subject, n | DeclaredFor(jobs, subject, n) ensures Listed(g, subject, n) {
      var job :| job in jobs && job.Sealed? && job.d.subject == subject && Declares(job.d.artifact, job.d.logIndex, n);
      assert SealedFor(jobs, subject, job.d.logIndex) && DeclaredAt(jobs, job.d.logIndex, n);
      ListedIff(jobs, subject, n);
    }
    if Collision(jobs) {
      var a, b, n :| a in jobs && b in jobs && a.Sealed? && b.Sealed? && a.d.logIndex == b.d.logIndex
                     && Declares(b.d.artifact, b.d.logIndex, n) && !DeclaredFor(jobs, a.d.subject, n);
      assert SealedFor(jobs, a.d.subject, a.d.logIndex) && DeclaredAt(jobs, a.d.logIndex, n);
      ListedIff(jobs, a.d.subject, n);
      assert Listed(g, a.d.subject, n);
    } else {
      forall subject, n | Listed(g, subject, n) ensures DeclaredFor(jobs, subject, n) {
        ListedIff(jobs, subject, n);
        var i :| SealedFor(jobs, subject, i) && DeclaredAt(jobs, i, n);
        var a :| a in jobs && a.Sealed? && a.d.subject == subject && a.d.logIndex == i;
        var b :| b in jobs && b.Sealed? && b.d.logIndex == i && Declares(b.d.artifact, i, n);
      }
    }
  }

  lemma CapabilityDeclared(capability: Capability, i: int)
    ensures Declares(CapabilityCatalog("", [capability]), i, EntityNode("Capability", capability.id))
  {
    assert [capability][..0] == [];
    assert CapabilitiesSpec([capability][..0], i) == Parsed([], []);
    var entities := CapabilitiesSpec([capability], i).entities;
    assert entities == [] + [CapabilityEntity(capability, i)];
    assert entities[0] in entities;
  }

  /**
   * It does happen: ledgers number their entries independently, so the first artifacts of two
   * subjects share an index, and what the second names is listed for the first.
   */
  lemma SharedIndexLeaks(a: SealedData, b: SealedData, p: Publisher, at: int, capability: Capability)
    requires a.subject != b.subject && a.logIndex == b.logIndex
    requires a.artifact == OtherArtifact && b.artifact == CapabilityCatalog("", [capability])
    ensures var jobs, n := [Sealed(a, p, at), Sealed(b, p, at)], EntityNode("Capability", capability.id);
            Listed(Replay(EMPTY, jobs), a.subject, n) && !DeclaredFor(jobs, a.subject, n)
  {
    var one, two, n := Sealed(a, p, at), Sealed(b, p, at), EntityNode("Capability", capability.id);
    CapabilityDeclared(capability, b.logIndex);
    TwoEvents(one, two, n);
  }

  lemma TwoEvents(one: Job, two: Job, n: Node)
    requires one.Sealed? && two.Sealed? && one.d.subject != two.d.subject && one.d.logIndex == two.d.logIndex
    requires Declares(two.d.artifact, two.d.logIndex, n) && !Declares(one.d.artifact, one.d.logIndex, n)
    ensures Listed(Replay(EMPTY, [one, two]), one.d.subject, n) && !DeclaredFor([one, two], one.d.subject, n)
  {
    var jobs := [one, two];
    assert one in jobs && two in jobs && forall job :: job in jobs ==> job == one || job == two;
    assert SealedFor(jobs, one.d.subject, one.d.logIndex) && DeclaredAt(jobs, one.d.logIndex, n);
    ListedIff(jobs, one.d.subject, n);
  }

  // ---- Retries that resolve another publisher ----

  lemma {:induction false} ArtifactNodes(ws: seq<Write>, n: Node)
    requires forall w :: w in ws ==> w.PutEntity? || w.PutEdge?
    ensures n in Sum(ws).nodes ==> n.EntityNode?
  {
    SumNode(ws, n);
    if SomePutsNode(ws, n) {
      var w :| w in ws && n in Adds(w).nodes;
    }
  }

  lemma ArtifactWriteKinds(a: Artifact, logIndex: int)
    ensures forall w :: w in ArtifactWrites(a, logIndex) ==> w.PutEntity? || w.PutEdge?
  {
    if a != Malformed {
      var parsed := Spec(a, logIndex).value;
      forall w | w in ArtifactWrites(a, logIndex) ensures w.PutEntity? || w.PutEdge? {
        EntityWriteIff(parsed.entities, w);
        EdgeWriteIff(parsed.edges, logIndex, w);
      }
    }
  }

  /** Nothing but the publisher's own node and edge tells the heads of two write sequences apart. */
  lemma HeadPart(d: SealedData, p: Publisher, at: int, q: Publisher, at': int)
    ensures var x, y, e := Sum(HeadWrites(d, p, at)), Sum(HeadWrites(d, q, at')),
                           Edge(EvidenceNode(d.logIndex), "PUBLISHED_BY", PublisherNode(p));
            x.nodes <= y.nodes + {PublisherNode(p)} && x.edges <= y.edges + {e} && x.props.Keys <= y.props.Keys
  {
    HeadSum(d, p, at);
    HeadSum(d, q, at');
    var v := EvidenceNode(d.logIndex);
    assert Tag(v, EvidenceProps(EvidenceFor(d, p, at))).Keys == Tag(v, EvidenceProps(EvidenceFor(d, q, at'))).Keys;
  }

  lemma NotOthersNode(d: SealedData, p: Publisher, q: Publisher, at: int)
    requires p != q
    ensures PublisherNode(p) !in Sum(SealedWrites(d, q, at)).nodes
  {
    var head, tail := HeadWrites(d, q, at), ArtifactWrites(d.artifact, d.logIndex);
    SumStructure(head, tail);
    HeadStructure(d, q, at);
    ArtifactWriteKinds(d.artifact, d.logIndex);
    ArtifactNodes(tail, PublisherNode(p));
    assert PublisherNode(p) !in Sum(head).nodes && PublisherNode(p) !in Sum(tail).nodes;
    assert SealedWrites(d, q, at) == head + tail;
  }

  lemma NotOthersEdge(d: SealedData, p: Publisher, q: Publisher, at: int)
    requires p != q
    ensures Edge(EvidenceNode(d.logIndex), "PUBLISHED_BY", PublisherNode(p)) !in Sum(SealedWrites(d, q, at)).edges
  {
    SealedEdge(d, q, at, Edge(EvidenceNode(d.logIndex), "PUBLISHED_BY", PublisherNode(p)));
  }

  lemma PublisherPart(d: SealedData, p: Publisher, at: int, q: Publisher, at': int)
    ensures var x, y, e := Sum(SealedWrites(d, p, at)), Sum(SealedWrites(d, q, at')),
                           Edge(EvidenceNode(d.logIndex), "PUBLISHED_BY", PublisherNode(p));
            x.nodes <= y.nodes + {PublisherNode(p)} && x.edges <= y.edges + {e} && x.props.Keys <= y.props.Keys
  {
    TailAfterHead(d, p, at);
    TailAfterHead(d, q, at');
    HeadPart(d, p, at, q, at');
  }

  lemma EarlyPart(d: SealedData, p: Publisher, at: int, k: nat)
    requires k < 3
    ensures var part := Sum(HeadWrites(d, p, at)[..k]); part.edges == {} && (PublisherNode(p) in part.nodes <==> k == 2)
  {
    var a, b, c := PutSubject(d.subject), PutPublisher(p), PutEvidence(EvidenceFor(d, p, at));
    SumOfThree(a, b, c);
    assert k == 2 ==> Sum([a, b, c][..k]) == Merge(Adds(a), Adds(b));
    assert k == 1 ==> Sum([a, b, c][..k]) == Adds(a);
  }

  /** Which of the two a broken-off attempt has left behind. */
  lemma LeftBehind(d: SealedData, p: Publisher, at: int, k: nat)
    requires k <= |SealedWrites(d, p, at)|
    ensures var part, e := Sum(SealedWrites(d, p, at)[..k]), Edge(EvidenceNode(d.logIndex), "PUBLISHED_BY", PublisherNode(p));
            (PublisherNode(p) in part.nodes <==> k >= 2) && (e in part.edges <==> k >= 3)
  {
    if k < 3 {
      assert SealedWrites(d, p, at)[..k] == HeadWrites(d, p, at)[..k];
      EarlyPart(d, p, at, k);
    } else {
      var part := SealedWrites(d, p, at)[..k];
      assert part[..3] == HeadWrites(d, p, at);
      HeadSum(d, p, at);
      SumCovers(part, 3);
    }
  }

  lemma SameUnlessLeft(g: Graph, part: Graph, y: Graph)
    requires part.props.Keys <= y.props.Keys
    ensures Merge(g, Merge(part, y)) == Merge(g, y) <==> part.nodes <= g.nodes + y.nodes && part.edges <= g.edges + y.edges
  {
    assert part.props + y.props == y.props;
    var l, r := Merge(g, Merge(part, y)), Merge(g, y);
    if part.nodes <= g.nodes + y.nodes && part.edges <= g.edges + y.edges {
      assert l.nodes == r.nodes && l.edges == r.edges;
    } else if n :| n in part.nodes && n !in g.nodes + y.nodes {
      assert n in l.nodes && n !in r.nodes;
    } else {
      var e :| e in part.edges && e !in g.edges + y.edges;
      assert e in l.edges && e !in r.edges;
    }
  }

  /**
   * A retry whose lookup resolves another publisher than the attempt before it leaves the graph of
   * the retry alone exactly when the attempt stopped before writing its publisher, or the graph
   * already had what it wrote of it. Otherwise the evidence keeps a second publisher for good.
   */
  lemma OtherPublisherIff(g: Graph, d: SealedData, p: Publisher, k: nat, at: int, q: Publisher, at': int)
    requires p != q && k <= |SealedWrites(d, p, at)|
    ensures ExecAll(ExecAll(g, SealedWrites(d, p, at)[..k]), SealedWrites(d, q, at')) == ExecAll(g, SealedWrites(d, q, at'))
       <==> (k >= 2 ==> PublisherNode(p) in g.nodes)
            && (k >= 3 ==> Edge(EvidenceNode(d.logIndex), "PUBLISHED_BY", PublisherNode(p)) in g.edges)
  {
    var ws, part := SealedWrites(d, q, at'), SealedWrites(d, p, at)[..k];
    SealedGrounded(d, q, at');
    SealedGrounded(d, p, at);
    GroundedPrefix({}, SealedWrites(d, p, at), k);
    GroundedAdds(g, {}, ws);
    GroundedAdds(g, {}, part);
    GroundedAdds(Merge(g, Sum(part)), {}, ws);
    MergeAssoc(g, Sum(part), Sum(ws));
    SumCovers(SealedWrites(d, p, at), k);
    PublisherPart(d, p, at, q, at');
    NotOthersNode(d, p, q, at');
    NotOthersEdge(d, p, q, at');
    LeftBehind(d, p, at, k);
    SameUnlessLeft(g, Sum(part), Sum(ws));
  }
}
