/** Decoded catalogs and what the parser takes from them. */
module Catalogs {
  import opened Wrappers
  import opened Graphs

  /** A mapping to another catalog, reduced to the reference ids of its entries. */
  datatype Mapping = Mapping(entries: seq<string>)

  datatype Control = Control(id: string, title: string, objective: string, group: string,
                             requirements: seq<string>, threats: seq<Mapping>)

  datatype Threat = Threat(id: string, title: string, description: string, group: string,
                           capabilities: seq<Mapping>, vectors: seq<Mapping>)

  datatype Capability = Capability(id: string, title: string, description: string, group: string)

  /** An artifact by its declared type; `Malformed` stands for one that does not decode as that type. */
  datatype Artifact =
    | ControlCatalog(catalogId: string, controls: seq<Control>)
    | ThreatCatalog(catalogId: string, threats: seq<Threat>)
    | CapabilityCatalog(catalogId: string, capabilities: seq<Capability>)
    | OtherArtifact
    | Malformed

  datatype Parsed = Parsed(entities: seq<EntityRecord>, edges: seq<EdgeRecord>)

  // ---- Specification ----

  /** The non-empty reference ids, in order. */
  function NonEmpty(entries: seq<string>): seq<string> {
    if entries == [] then []
    else NonEmpty(entries[..|entries| - 1]) + if entries[|entries| - 1] == "" then [] else [entries[|entries| - 1]]
  }

  function Refs(mappings: seq<Mapping>): seq<string> {
    if mappings == [] then [] else Refs(mappings[..|mappings| - 1]) + NonEmpty(mappings[|mappings| - 1].entries)
  }

  /** Edges from one entity to each reference. */
  function Out(kind: string, id: string, rel: string, toKind: string, refs: seq<string>): seq<EdgeRecord> {
    if refs == [] then []
    else Out(kind, id, rel, toKind, refs[..|refs| - 1]) + [EdgeRecord(kind, id, rel, toKind, refs[|refs| - 1])]
  }

  /** Edges from each reference into one entity. */
  function In(fromKind: string, refs: seq<string>, rel: string, kind: string, id: string): seq<EdgeRecord> {
    if refs == [] then []
    else In(fromKind, refs[..|refs| - 1], rel, kind, id) + [EdgeRecord(fromKind, refs[|refs| - 1], rel, kind, id)]
  }

  function ControlProps(c: Control, catalogId: string): map<string, Value> {
    var base := map["title" := Text(c.title), "objective" := Text(c.objective), "group" := Text(c.group),
                    "catalogID" := Text(catalogId)];
    if c.requirements == [] then base else base["assessmentRequirements" := Texts(c.requirements)]
  }

  function PlainProps(title: string, description: string, group: string): map<string, Value> {
    map["title" := Text(title), "description" := Text(description), "group" := Text(group)]
  }

  function ControlEntity(c: Control, catalogId: string, logIndex: int): EntityRecord {
    EntityRecord("Control", c.id, ControlProps(c, catalogId), logIndex)
  }

  function ThreatEntity(t: Threat, logIndex: int): EntityRecord {
    EntityRecord("Threat", t.id, PlainProps(t.title, t.description, t.group), logIndex)
  }

  function CapabilityEntity(c: Capability, logIndex: int): EntityRecord {
    EntityRecord("Capability", c.id, PlainProps(c.title, c.description, c.group), logIndex)
  }

  function ControlEdges(c: Control): seq<EdgeRecord> {
    Out("Control", c.id, "ADDRESSES", "Threat", Refs(c.threats))
  }

  function ThreatEdges(t: Threat): seq<EdgeRecord> {
    In("Capability", Refs(t.capabilities), "INTRODUCES", "Threat", t.id)
    + Out("Threat", t.id, "LEVERAGES", "Vector", Refs(t.vectors))
  }

  function ControlsSpec(catalogId: string, controls: seq<Control>, logIndex: int): Parsed {
    if controls == [] then Parsed([], [])
    else
      var front, last := ControlsSpec(catalogId, controls[..|controls| - 1], logIndex), controls[|controls| - 1];
      Parsed(front.entities + [ControlEntity(last, catalogId, logIndex)], front.edges + ControlEdges(last))
  }

  function ThreatsSpec(threats: seq<Threat>, logIndex: int): Parsed {
    if threats == [] then Parsed([], [])
    else
      var front, last := ThreatsSpec(threats[..|threats| - 1], logIndex), threats[|threats| - 1];
      Parsed(front.entities + [ThreatEntity(last, logIndex)], front.edges + ThreatEdges(last))
  }

  function CapabilitiesSpec(capabilities: seq<Capability>, logIndex: int): Parsed {
    if capabilities == [] then Parsed([], [])
    else
      var front, last := CapabilitiesSpec(capabilities[..|capabilities| - 1], logIndex), capabilities[|capabilities| - 1];
      Parsed(front.entities + [CapabilityEntity(last, logIndex)], [])
  }

  /** What an artifact contributes; nothing when it does not decode. */
  function Spec(a: Artifact, logIndex: int): Option<Parsed> {
    match a
    case ControlCatalog(catalogId, controls) => Some(ControlsSpec(catalogId, controls, logIndex))
    case ThreatCatalog(_, threats) => Some(ThreatsSpec(threats, logIndex))
    case CapabilityCatalog(_, capabilities) => Some(CapabilitiesSpec(capabilities, logIndex))
    case OtherArtifact => Some(Parsed([], []))
    case Malformed => None
  }

  // ---- The parser ----

  lemma RefsNext(mappings: seq<Mapping>, i: nat)
    requires i < |mappings|
    ensures Refs(mappings[..i + 1]) == Refs(mappings[..i]) + NonEmpty(mappings[i].entries)
  {
    assert mappings[..i + 1][..i] == mappings[..i];
  }

  lemma NonEmptyNext(entries: seq<string>, j: nat)
    requires j < |entries|
    ensures NonEmpty(entries[..j + 1]) == NonEmpty(entries[..j]) + if entries[j] == "" then [] else [entries[j]]
  {
    assert entries[..j + 1][..j] == entries[..j];
  }

  lemma OutNext(kind: string, id: string, rel: string, toKind: string, refs: seq<string>, ref: string)
    ensures Out(kind, id, rel, toKind, refs + [ref]) == Out(kind, id, rel, toKind, refs) + [EdgeRecord(kind, id, rel, toKind, ref)]
  {
    assert (refs + [ref])[..|refs|] == refs;
  }

  lemma InNext(fromKind: string, refs: seq<string>, ref: string, rel: string, kind: string, id: string)
    ensures In(fromKind, refs + [ref], rel, kind, id) == In(fromKind, refs, rel, kind, id) + [EdgeRecord(fromKind, ref, rel, kind, id)]
  {
    assert (refs + [ref])[..|refs|] == refs;
  }

  /** One pass over nested mappings, skipping empty references. */
  method CollectOut(kind: string, id: string, rel: string, toKind: string, mappings: seq<Mapping>)
    returns (edges: seq<EdgeRecord>)
    ensures edges == Out(kind, id, rel, toKind, Refs(mappings))
  {
    edges := [];
    ghost var refs: seq<string> := [];
    for i := 0 to |mappings|
      invariant refs == Refs(mappings[..i]) && edges == Out(kind, id, rel, toKind, refs)
    {
      var entries := mappings[i].entries;
      ghost var before := refs;
      for j := 0 to |entries|
        invariant refs == before + NonEmpty(entries[..j]) && edges == Out(kind, id, rel, toKind, refs)
      {
        NonEmptyNext(entries, j);
        if entries[j] != "" {
          OutNext(kind, id, rel, toKind, refs, entries[j]);
          edges := edges + [EdgeRecord(kind, id, rel, toKind, entries[j])];
          refs := refs + [entries[j]];
        }
      }
      assert entries[..|entries|] == entries;
      RefsNext(mappings, i);
    }
    assert mappings[..|mappings|] == mappings;
  }

  method CollectIn(fromKind: string, rel: string, kind: string, id: string, mappings: seq<Mapping>)
    returns (edges: seq<EdgeRecord>)
    ensures edges == In(fromKind, Refs(mappings), rel, kind, id)
  {
    edges := [];
    ghost var refs: seq<string> := [];
    for i := 0 to |mappings|
      invariant refs == Refs(mappings[..i]) && edges == In(fromKind, refs, rel, kind, id)
    {
      var entries := mappings[i].entries;
      ghost var before := refs;
      for j := 0 to |entries|
        invariant refs == before + NonEmpty(entries[..j]) && edges == In(fromKind, refs, rel, kind, id)
      {
        NonEmptyNext(entries, j);
        if entries[j] != "" {
          InNext(fromKind, refs, entries[j], rel, kind, id);
          edges := edges + [EdgeRecord(fromKind, entries[j], rel, kind, id)];
          refs := refs + [entries[j]];
        }
      }
      assert entries[..|entries|] == entries;
      RefsNext(mappings, i);
    }
    assert mappings[..|mappings|] == mappings;
  }

  method ParseControlCatalog(catalogId: string, controls: seq<Control>, logIndex: int) returns (r: Parsed)
    ensures r == ControlsSpec(catalogId, controls, logIndex)
  {
    r := Parsed([], []);
    for i := 0 to |controls|
      invariant r == ControlsSpec(catalogId, controls[..i], logIndex)
    {
      assert controls[..i + 1][..i] == controls[..i];
      var c := controls[i];
      var props := map["title" := Text(c.title), "objective" := Text(c.objective), "group" := Text(c.group),
                       "catalogID" := Text(catalogId)];
      if |c.requirements| > 0 {
        props := props["assessmentRequirements" := Texts(c.requirements)];
      }
      var edges := CollectOut("Control", c.id, "ADDRESSES", "Threat", c.threats);
      r := Parsed(r.entities + [EntityRecord("Control", c.id, props, logIndex)], r.edges + edges);
    }
    assert controls[..|controls|] == controls;
  }

  method ParseThreatCatalog(threats: seq<Threat>, logIndex: int) returns (r: Parsed)
    ensures r == ThreatsSpec(threats, logIndex)
  {
    r := Parsed([], []);
    for i := 0 to |threats|
      invariant r == ThreatsSpec(threats[..i], logIndex)
    {
      assert threats[..i + 1][..i] == threats[..i];
      var t := threats[i];
      var introduced := CollectIn("Capability", "INTRODUCES", "Threat", t.id, t.capabilities);
      var leveraged := CollectOut("Threat", t.id, "LEVERAGES", "Vector", t.vectors);
      r := Parsed(r.entities + [EntityRecord("Threat", t.id, PlainProps(t.title, t.description, t.group), logIndex)],
                  r.edges + (introduced + leveraged));
    }
    assert threats[..|threats|] == threats;
  }

  method ParseCapabilityCatalog(capabilities: seq<Capability>, logIndex: int) returns (r: Parsed)
    ensures r == CapabilitiesSpec(capabilities, logIndex)
  {
    r := Parsed([], []);
    for i := 0 to |capabilities|
      invariant r == CapabilitiesSpec(capabilities[..i], logIndex)
    {
      assert capabilities[..i + 1][..i] == capabilities[..i];
      var c := capabilities[i];
      r := Parsed(r.entities + [EntityRecord("Capability", c.id, PlainProps(c.title, c.description, c.group), logIndex)], []);
    }
    assert capabilities[..|capabilities|] == capabilities;
  }

  method ParseArtifact(a: Artifact, logIndex: int) returns (r: Option<Parsed>)
    ensures r == Spec(a, logIndex)
  {
    match a
    case ControlCatalog(catalogId, controls) =>
      var parsed := ParseControlCatalog(catalogId, controls, logIndex);
      return Some(parsed);
    case ThreatCatalog(_, threats) =>
      var parsed := ParseThreatCatalog(threats, logIndex);
      return Some(parsed);
    case CapabilityCatalog(_, capabilities) =>
      var parsed := ParseCapabilityCatalog(capabilities, logIndex);
      return Some(parsed);
    case OtherArtifact => return Some(Parsed([], []));
    case Malformed => return None;
  }

  // ---- What the parser finds ----

  lemma {:induction false} NonEmptyIff(entries: seq<string>, ref: string)
    ensures ref in NonEmpty(entries) <==> ref in entries && ref != ""
  {
    if entries != [] {
      NonEmptyIff(entries[..|entries| - 1], ref);
      assert entries == entries[..|entries| - 1] + [entries[|entries| - 1]];
    }
  }

  ghost predicate Mentions(mappings: seq<Mapping>, ref: string) {
    ref != "" && exists m :: m in mappings && ref in m.entries
  }

  lemma {:induction false} RefsIff(mappings: seq<Mapping>, ref: string)
    ensures ref in Refs(mappings) <==> Mentions(mappings, ref)
  {
    if mappings != [] {
      var front, last := mappings[..|mappings| - 1], mappings[|mappings| - 1];
      RefsIff(front, ref);
      NonEmptyIff(last.entries, ref);
      assert mappings == front + [last];
    }
  }

  lemma {:induction false} OutIff(kind: string, id: string, rel: string, toKind: string, refs: seq<string>, e: EdgeRecord)
    ensures e in Out(kind, id, rel, toKind, refs) <==> e == EdgeRecord(kind, id, rel, toKind, e.toId) && e.toId in refs
  {
    if refs != [] {
      OutIff(kind, id, rel, toKind, refs[..|refs| - 1], e);
      assert refs == refs[..|refs| - 1] + [refs[|refs| - 1]];
    }
  }

  lemma {:induction false} InIff(fromKind: string, refs: seq<string>, rel: string, kind: string, id: string, e: EdgeRecord)
    ensures e in In(fromKind, refs, rel, kind, id) <==> e == EdgeRecord(fromKind, e.fromId, rel, kind, id) && e.fromId in refs
  {
    if refs != [] {
      InIff(fromKind, refs[..|refs| - 1], rel, kind, id, e);
      assert refs == refs[..|refs| - 1] + [refs[|refs| - 1]];
    }
  }

  /** Control catalogs state exactly the references their controls make to threats. */
  lemma {:induction false} ControlCatalogEdge(catalogId: string, controls: seq<Control>, logIndex: int, e: EdgeRecord)
    ensures e in ControlsSpec(catalogId, controls, logIndex).edges <==>
              && e.fromKind == "Control" && e.rel == "ADDRESSES" && e.toKind == "Threat"
              && exists c :: c in controls && c.id == e.fromId && Mentions(c.threats, e.toId)
  {
    if controls != [] {
      var front, last := controls[..|controls| - 1], controls[|controls| - 1];
      ControlCatalogEdge(catalogId, front, logIndex, e);
      assert controls == front + [last];
      RefsIff(last.threats, e.toId);
      OutIff("Control", last.id, "ADDRESSES", "Threat", Refs(last.threats), e);
    }
  }

  lemma ThreatEdge(t: Threat, e: EdgeRecord)
    ensures e in ThreatEdges(t) <==>
              || (e == EdgeRecord("Capability", e.fromId, "INTRODUCES", "Threat", t.id) && Mentions(t.capabilities, e.fromId))
              || (e == EdgeRecord("Threat", t.id, "LEVERAGES", "Vector", e.toId) && Mentions(t.vectors, e.toId))
  {
    RefsIff(t.capabilities, e.fromId);
    RefsIff(t.vectors, e.toId);
    InIff("Capability", Refs(t.capabilities), "INTRODUCES", "Threat", t.id, e);
    OutIff("Threat", t.id, "LEVERAGES", "Vector", Refs(t.vectors), e);
  }

  /** Threat catalogs state exactly their threats' references to capabilities and vectors. */
  lemma {:induction false} ThreatCatalogEdge(threats: seq<Threat>, logIndex: int, e: EdgeRecord)
    ensures e in ThreatsSpec(threats, logIndex).edges <==> exists t :: t in threats && e in ThreatEdges(t)
  {
    if threats != [] {
      ThreatCatalogEdge(threats[..|threats| - 1], logIndex, e);
      assert threats == threats[..|threats| - 1] + [threats[|threats| - 1]];
    }
  }

  lemma {:induction false} CapabilityCatalogEdges(capabilities: seq<Capability>, logIndex: int)
    ensures CapabilitiesSpec(capabilities, logIndex).edges == []
  {
  }
}
