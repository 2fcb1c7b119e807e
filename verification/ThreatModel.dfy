/** Assembly of the threat-model answer from the rows the graph queries return. */
module ThreatModels {
  import opened Graphs
  import opened GraphHistory
  import opened GraphViews

  /** A row of an edge query: the listed node and the node on the other side. */
  type Pair = (string, string)

  /** The other sides of one node, in row order. */
  function Partners(pairs: seq<Pair>, id: string): seq<string> {
    if pairs == [] then []
    else Partners(pairs[..|pairs| - 1], id) + if pairs[|pairs| - 1].0 == id then [pairs[|pairs| - 1].1] else []
  }

  ghost predicate NoDuplicates<T>(s: seq<T>) {
    forall i, j :: 0 <= i < j < |s| ==> s[i] != s[j]
  }

  lemma {:induction false} PartnersIff(pairs: seq<Pair>, id: string, other: string)
    ensures other in Partners(pairs, id) <==> (id, other) in pairs
  {
    if pairs != [] {
      PartnersIff(pairs[..|pairs| - 1], id, other);
      assert pairs == pairs[..|pairs| - 1] + [pairs[|pairs| - 1]];
    }
  }

  lemma {:induction false} PartnersDistinct(pairs: seq<Pair>, id: string)
    requires NoDuplicates(pairs)
    ensures NoDuplicates(Partners(pairs, id))
  {
    if pairs != [] {
      var front, last := pairs[..|pairs| - 1], pairs[|pairs| - 1];
      PartnersDistinct(front, id);
      if last.0 == id {
        PartnersIff(front, id, last.1);
        forall i | 0 <= i < |front| ensures front[i] != last {
          assert front[i] == pairs[i];
        }
      }
    }
  }

  /** One map of records keyed by id, later rows replacing earlier ones; then one append per edge row. */
  method Assemble(ids: seq<string>, pairs: seq<Pair>) returns (view: map<string, seq<string>>)
    requires forall p :: p in pairs ==> p.0 in ids
    ensures forall id :: id in view <==> id in ids
    ensures forall id :: id in view ==> view[id] == Partners(pairs, id)
  {
    view := map[];
    for i := 0 to |ids|
      invariant forall id :: id in view <==> id in ids[..i]
      invariant forall id :: id in view ==> view[id] == []
    {
      view := view[ids[i] := []];
    }
    assert ids[..|ids|] == ids;
    for j := 0 to |pairs|
      invariant forall id :: id in view <==> id in ids
      invariant forall id :: id in view ==> view[id] == Partners(pairs[..j], id)
    {
      assert pairs[..j + 1][..j] == pairs[..j];
      var id := pairs[j].0;
      assert pairs[j] in pairs;
      view := view[id := view[id] + [pairs[j].1]];
    }
    assert pairs[..|pairs|] == pairs;
  }

  /** Rows that name each node of a kind listed for the subject, possibly more than once. */
  ghost predicate ListsKind(g: Graph, subject: string, kind: string, ids: seq<string>) {
    forall id :: id in ids <==> Listed(g, subject, EntityNode(kind, id))
  }

  /** Rows of the `ADDRESSES` query for the listed threats: each matching edge once. */
  ghost predicate AddressRows(g: Graph, threats: seq<string>, pairs: seq<Pair>) {
    NoDuplicates(pairs) && forall t, c :: (t, c) in pairs <==>
      t in threats && Edge(EntityNode("Control", c), "ADDRESSES", EntityNode("Threat", t)) in g.edges
  }

  ghost predicate IntroduceRows(g: Graph, capabilities: seq<string>, pairs: seq<Pair>) {
    NoDuplicates(pairs) && forall c, t :: (c, t) in pairs <==>
      c in capabilities && Edge(EntityNode("Capability", c), "INTRODUCES", EntityNode("Threat", t)) in g.edges
  }

  ghost predicate SomeAddresses(jobs: seq<Job>, control: string, threat: string) {
    exists job :: job in jobs && job.Sealed? && Addresses(job.d.artifact, control, threat)
  }

  ghost predicate SomeIntroduces(jobs: seq<Job>, capability: string, threat: string) {
    exists job :: job in jobs && job.Sealed? && Introduces(job.d.artifact, capability, threat)
  }

  /**
   * The threats of the answer: the listed ones, each with exactly the controls that some processed
   * control catalog relates to it, none of them twice, whatever the order of events and rows.
   */
  method Threats(ghost jobs: seq<Job>, ghost subject: string, rows: seq<string>, addresses: seq<Pair>)
    returns (addressedBy: map<string, seq<string>>)
    requires ListsKind(Replay(EMPTY, jobs), subject, "Threat", rows)
    requires AddressRows(Replay(EMPTY, jobs), rows, addresses)
    ensures forall t :: t in addressedBy <==> Listed(Replay(EMPTY, jobs), subject, EntityNode("Threat", t))
    ensures forall t :: t in addressedBy ==> NoDuplicates(addressedBy[t])
    ensures forall t, c :: t in addressedBy ==> (c in addressedBy[t] <==> SomeAddresses(jobs, c, t))
  {
    assert forall p :: p in addresses ==> (p.0, p.1) == p;
    addressedBy := Assemble(rows, addresses);
    forall t | t in addressedBy ensures NoDuplicates(addressedBy[t]) {
      PartnersDistinct(addresses, t);
    }
    forall t, c | t in addressedBy ensures c in addressedBy[t] <==> SomeAddresses(jobs, c, t) {
      PartnersIff(addresses, t, c);
      AddressesIff(jobs, c, t);
    }
  }

  /** The capabilities of the answer, with the threats that some processed threat catalog has them introduce. */
  method Capabilities(ghost jobs: seq<Job>, ghost subject: string, rows: seq<string>, introductions: seq<Pair>)
    returns (introduces: map<string, seq<string>>)
    requires ListsKind(Replay(EMPTY, jobs), subject, "Capability", rows)
    requires IntroduceRows(Replay(EMPTY, jobs), rows, introductions)
    ensures forall c :: c in introduces <==> Listed(Replay(EMPTY, jobs), subject, EntityNode("Capability", c))
    ensures forall c :: c in introduces ==> NoDuplicates(introduces[c])
    ensures forall c, t :: c in introduces ==> (t in introduces[c] <==> SomeIntroduces(jobs, c, t))
  {
    assert forall p :: p in introductions ==> (p.0, p.1) == p;
    introduces := Assemble(rows, introductions);
    forall c | c in introduces ensures NoDuplicates(introduces[c]) {
      PartnersDistinct(introductions, c);
    }
    forall c, t | c in introduces ensures t in introduces[c] <==> SomeIntroduces(jobs, c, t) {
      PartnersIff(introductions, c, t);
      IntroducesIff(jobs, c, t);
    }
  }
}
