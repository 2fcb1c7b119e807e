/**
 * The evidence graph and the statements the loader runs on it. `MERGE` is set insertion, `SET` is
 * map override, and a `MATCH` that finds nothing cuts the rest of its statement off.
 */
module Graphs {
  import opened Receipts

  datatype Value = Text(s: string) | Texts(items: seq<string>) | Flag(b: bool) | Time(t: int)

  /** Nodes by label and key. Evidence is keyed by the log index alone, whatever the ledger. */
  datatype Node =
    | SubjectNode(id: string)
    | PublisherNode(p: Publisher)
    | StubNode(digest: string, subject: string)
    | EvidenceNode(logIndex: int)
    | EntityNode(kind: string, id: string)

  datatype Edge = Edge(from: Node, rel: string, to: Node)

  type Props = map<(Node, string), Value>

  datatype Graph = Graph(nodes: set<Node>, props: Props, edges: set<Edge>)

  const EMPTY := Graph({}, map[], {})

  datatype EvidenceRecord = EvidenceRecord(logIndex: int, digest: string, receiptDigest: string, artifactType: string,
                                           status: string, sealed: int, subject: string, publisher: Publisher)

  datatype EntityRecord = EntityRecord(kind: string, id: string, properties: map<string, Value>, logIndex: int)

  datatype EdgeRecord = EdgeRecord(fromKind: string, fromId: string, rel: string, toKind: string, toId: string)

  /** One statement per case. */
  datatype Write =
    | PutSubject(id: string)
    | PutPublisher(p: Publisher)
    | PutStub(digest: string, subject: string, p: Publisher)
    | PutEvidence(ev: EvidenceRecord)
    | PutEntity(entity: EntityRecord)
    | PutEdge(edge: EdgeRecord)

  function Tag(node: Node, properties: map<string, Value>): Props {
    map name | name in properties :: (node, name) := properties[name]
  }

  function EvidenceProps(ev: EvidenceRecord): map<string, Value> {
    map["digest" := Text(ev.digest), "receiptDigest" := Text(ev.receiptDigest), "artifactType" := Text(ev.artifactType),
        "status" := Text(ev.status), "sealed" := Time(ev.sealed)]
  }

  function EdgeOf(r: EdgeRecord): Edge {
    Edge(EntityNode(r.fromKind, r.fromId), r.rel, EntityNode(r.toKind, r.toId))
  }

  /** What one statement does to a graph. */
  function Exec(g: Graph, w: Write): Graph {
    match w
    case PutSubject(id) => g.(nodes := g.nodes + {SubjectNode(id)})
    case PutPublisher(p) => g.(nodes := g.nodes + {PublisherNode(p)})
    case PutStub(digest, subject, p) =>
      if SubjectNode(subject) in g.nodes && PublisherNode(p) in g.nodes then
        var stub := StubNode(digest, subject);
        g.(nodes := g.nodes + {stub},
           edges := g.edges + {Edge(stub, "TARGETS", SubjectNode(subject)), Edge(stub, "PUBLISHED_BY", PublisherNode(p))})
      else g
    case PutEvidence(ev) =>
      if SubjectNode(ev.subject) in g.nodes && PublisherNode(ev.publisher) in g.nodes then
        var e := EvidenceNode(ev.logIndex);
        Graph(g.nodes + {e}, g.props + Tag(e, EvidenceProps(ev)),
              g.edges + {Edge(e, "TARGETS", SubjectNode(ev.subject)), Edge(e, "PUBLISHED_BY", PublisherNode(ev.publisher))})
      else g
    case PutEntity(entity) =>
      var n, e := EntityNode(entity.kind, entity.id), EvidenceNode(entity.logIndex);
      Graph(g.nodes + {n}, g.props + Tag(n, entity.properties),
            if e in g.nodes then g.edges + {Edge(e, "DEFINES", n)} else g.edges)
    case PutEdge(edge) =>
      if EdgeOf(edge).from in g.nodes && EdgeOf(edge).to in g.nodes then g.(edges := g.edges + {EdgeOf(edge)}) else g
  }

  function ExecAll(g: Graph, ws: seq<Write>): Graph {
    if ws == [] then g else Exec(ExecAll(g, ws[..|ws| - 1]), ws[|ws| - 1])
  }

  // ---- Contributions ----

  /** Nodes that must be there for the statement to run to its end. */
  function Needs(w: Write): set<Node> {
    match w
    case PutStub(_, subject, p) => {SubjectNode(subject), PublisherNode(p)}
    case PutEvidence(ev) => {SubjectNode(ev.subject), PublisherNode(ev.publisher)}
    case PutEntity(entity) => {EvidenceNode(entity.logIndex)}
    case PutEdge(edge) => {EdgeOf(edge).from, EdgeOf(edge).to}
    case _ => {}
  }

  /** What the statement then adds, whatever the graph. */
  function Adds(w: Write): Graph {
    match w
    case PutSubject(id) => Graph({SubjectNode(id)}, map[], {})
    case PutPublisher(p) => Graph({PublisherNode(p)}, map[], {})
    case PutStub(digest, subject, p) =>
      var stub := StubNode(digest, subject);
      Graph({stub}, map[], {Edge(stub, "TARGETS", SubjectNode(subject)), Edge(stub, "PUBLISHED_BY", PublisherNode(p))})
    case PutEvidence(ev) =>
      var e := EvidenceNode(ev.logIndex);
      Graph({e}, Tag(e, EvidenceProps(ev)),
            {Edge(e, "TARGETS", SubjectNode(ev.subject)), Edge(e, "PUBLISHED_BY", PublisherNode(ev.publisher))})
    case PutEntity(entity) =>
      var n := EntityNode(entity.kind, entity.id);
      Graph({n}, Tag(n, entity.properties), {Edge(EvidenceNode(entity.logIndex), "DEFINES", n)})
    case PutEdge(edge) => Graph({}, map[], {EdgeOf(edge)})
  }

  /** `b` written over `a`. */
  function Merge(a: Graph, b: Graph): Graph {
    Graph(a.nodes + b.nodes, a.props + b.props, a.edges + b.edges)
  }

  function Sum(ws: seq<Write>): Graph {
    if ws == [] then EMPTY else Merge(Sum(ws[..|ws| - 1]), Adds(ws[|ws| - 1]))
  }

  lemma MergeAssoc(a: Graph, b: Graph, c: Graph)
    ensures Merge(Merge(a, b), c) == Merge(a, Merge(b, c))
  {
    assert a.props + b.props + c.props == a.props + (b.props + c.props);
  }

  lemma MergeEmpty(g: Graph)
    ensures Merge(g, EMPTY) == g && Merge(EMPTY, g) == g
  {
    assert map[] + g.props == g.props;
  }

  lemma ExecAdds(g: Graph, w: Write)
    requires Needs(w) <= g.nodes
    ensures Exec(g, w) == Merge(g, Adds(w))
  {
    match w
    case PutEntity(entity) => assert EvidenceNode(entity.logIndex) in Needs(w);
    case PutEdge(edge) => assert EdgeOf(edge).from in Needs(w) && EdgeOf(edge).to in Needs(w);
    case PutStub(_, subject, p) => assert SubjectNode(subject) in Needs(w) && PublisherNode(p) in Needs(w);
    case PutEvidence(ev) => assert SubjectNode(ev.subject) in Needs(w) && PublisherNode(ev.publisher) in Needs(w);
    case _ =>
  }

  /**
   * Given some nodes, no `MATCH` of the sequence can fail: every statement finds what it needs
   * among them and what the statements before it have put there.
   */
  ghost predicate Grounded(have: set<Node>, ws: seq<Write>) {
    forall i :: 0 <= i < |ws| ==> Needs(ws[i]) <= have + Sum(ws[..i]).nodes
  }

  lemma GroundedPrefix(have: set<Node>, ws: seq<Write>, k: nat)
    requires Grounded(have, ws) && k <= |ws|
    ensures Grounded(have, ws[..k])
  {
    forall i | 0 <= i < k ensures Needs(ws[..k][i]) <= have + Sum(ws[..k][..i]).nodes {
      assert ws[..k][..i] == ws[..i];
    }
  }

  lemma GroundedLast(have: set<Node>, ws: seq<Write>)
    requires Grounded(have, ws) && ws != []
    ensures Grounded(have, ws[..|ws| - 1]) && Needs(ws[|ws| - 1]) <= have + Sum(ws[..|ws| - 1]).nodes
  {
    GroundedPrefix(have, ws, |ws| - 1);
  }

  lemma GroundedNext(g: Graph, have: set<Node>, sum: Graph, w: Write)
    requires have <= g.nodes && Needs(w) <= have + sum.nodes
    ensures Exec(Merge(g, sum), w) == Merge(g, Merge(sum, Adds(w)))
  {
    ExecAdds(Merge(g, sum), w);
    MergeAssoc(g, sum, Adds(w));
  }

  /** From any graph with those nodes, a grounded sequence adds exactly the sum of its contributions. */
  lemma {:induction false} GroundedAdds(g: Graph, have: set<Node>, ws: seq<Write>)
    requires Grounded(have, ws) && have <= g.nodes
    ensures ExecAll(g, ws) == Merge(g, Sum(ws))
  {
    if ws == [] {
      MergeEmpty(g);
    } else {
      var front, last := ws[..|ws| - 1], ws[|ws| - 1];
      GroundedLast(have, ws);
      GroundedAdds(g, have, front);
      GroundedNext(g, have, Sum(front), last);
    }
  }

  lemma SumNext(ws: seq<Write>, w: Write)
    ensures Sum(ws + [w]) == Merge(Sum(ws), Adds(w))
  {
    assert (ws + [w])[..|ws|] == ws;
  }

  lemma SumAppendNext(a: seq<Write>, b: seq<Write>, w: Write)
    requires Sum(a + b) == Merge(Sum(a), Sum(b))
    ensures Sum(a + (b + [w])) == Merge(Sum(a), Sum(b + [w]))
  {
    SumNext(b, w);
    SumNext(a + b, w);
    assert a + (b + [w]) == a + b + [w];
    MergeAssoc(Sum(a), Sum(b), Adds(w));
  }

  lemma {:induction false} SumAppend(a: seq<Write>, b: seq<Write>)
    ensures Sum(a + b) == Merge(Sum(a), Sum(b))
  {
    if b == [] {
      assert a + b == a;
      MergeEmpty(Sum(a));
    } else {
      SumAppend(a, b[..|b| - 1]);
      SumAppendNext(a, b[..|b| - 1], b[|b| - 1]);
      assert b == b[..|b| - 1] + [b[|b| - 1]];
    }
  }

  lemma {:induction false} ExecAppend(g: Graph, a: seq<Write>, b: seq<Write>)
    ensures ExecAll(g, a + b) == ExecAll(ExecAll(g, a), b)
  {
    if b == [] {
      assert a + b == a;
    } else {
      ExecAppend(g, a, b[..|b| - 1]);
      assert (a + b)[..|a + b| - 1] == a + b[..|b| - 1];
    }
  }

  lemma NodesBefore(a: seq<Write>, b: seq<Write>, i: nat)
    requires i <= |a| + |b|
    ensures Sum((a + b)[..i]).nodes == if i <= |a| then Sum(a[..i]).nodes else Sum(a).nodes + Sum(b[..i - |a|]).nodes
  {
    if i <= |a| {
      assert (a + b)[..i] == a[..i];
    } else {
      assert (a + b)[..i] == a + b[..i - |a|];
      SumAppend(a, b[..i - |a|]);
    }
  }

  lemma GroundedAppend(have: set<Node>, a: seq<Write>, b: seq<Write>)
    requires Grounded(have, a) && Grounded(have + Sum(a).nodes, b)
    ensures Grounded(have, a + b)
  {
    var ws := a + b;
    forall i | 0 <= i < |ws| ensures Needs(ws[i]) <= have + Sum(ws[..i]).nodes {
      NodesBefore(a, b, i);
      if i < |a| {
        assert ws[i] == a[i];
      } else {
        assert ws[i] == b[i - |a|];
        assert i == |a| ==> a[..i] == a && b[..0] == [];
      }
    }
  }

  lemma GroundedMore(have: set<Node>, more: set<Node>, ws: seq<Write>)
    requires Grounded(have, ws) && have <= more
    ensures Grounded(more, ws)
  {
    forall i | 0 <= i < |ws| ensures Needs(ws[i]) <= more + Sum(ws[..i]).nodes {
      assert Needs(ws[i]) <= have + Sum(ws[..i]).nodes;
    }
  }

  // ---- Replays and order ----

  /** Everything `a` holds has a place in `b`, so that `b` written over it leaves nothing of it. */
  ghost predicate Covers(b: Graph, a: Graph) {
    a.nodes <= b.nodes && a.edges <= b.edges && a.props.Keys <= b.props.Keys
  }

  lemma Absorbed(a: Graph, b: Graph)
    requires Covers(b, a)
    ensures Merge(a, b) == b
  {
    assert a.props + b.props == b.props;
  }

  lemma SumCovers(ws: seq<Write>, k: nat)
    requires k <= |ws|
    ensures Covers(Sum(ws), Sum(ws[..k]))
  {
    SumSplit(ws, k);
    MergeCovers(Sum(ws[..k]), Sum(ws[k..]));
  }

  lemma SumSplit(ws: seq<Write>, k: nat)
    requires k <= |ws|
    ensures Sum(ws) == Merge(Sum(ws[..k]), Sum(ws[k..]))
  {
    assert ws[..k] + ws[k..] == ws;
    SumAppend(ws[..k], ws[k..]);
  }

  lemma MergeCovers(a: Graph, b: Graph)
    ensures Covers(Merge(a, b), a)
  {
  }

  function Twice(g: Graph, a: Graph, b: Graph): Graph {
    Merge(Merge(g, a), b)
  }

  /** Both set some property, to different values. */
  ghost predicate Clash(a: Graph, b: Graph) {
    exists k :: k in a.props && k in b.props && a.props[k] != b.props[k]
  }

  /** Two contributions commute, over every graph, exactly when they set no property differently. */
  lemma CommuteIff(a: Graph, b: Graph)
    ensures (forall g :: Twice(g, a, b) == Twice(g, b, a)) <==> !Clash(a, b)
  {
    if !Clash(a, b) {
      forall g ensures Twice(g, a, b) == Twice(g, b, a) {
        assert g.props + a.props + b.props == g.props + b.props + a.props;
      }
    } else {
      var k :| k in a.props && k in b.props && a.props[k] != b.props[k];
      assert Twice(EMPTY, a, b).props[k] == b.props[k] && Twice(EMPTY, b, a).props[k] == a.props[k];
    }
  }
}
