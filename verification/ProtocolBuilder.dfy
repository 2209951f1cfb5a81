/**
  The builder of internal/extractor/artifacts/protocol.go, as an object whose methods follow the functions of
  ProtocolBuild.
 */
module ProtocolBuilder {
  import opened Decimal
  import opened Lists
  import opened Protocol
  import opened ProtocolBuild
  import opened ProtocolFlows
  import opened ProtocolValidator
  import opened Sorting
  import opened Text

  /** appendUniqueStrings. */
  method AppendUniqueStrings(list: seq<string>, vals: seq<string>) returns (r: seq<string>)
    ensures r == AppendUnique(list, vals)
  {
    hide Trim;
    r := list;
    var i := 0;
    while i < |vals|
      invariant 0 <= i <= |vals| && r == AppendUnique(list, vals[..i])
    {
      assert vals[..i + 1][..i] == vals[..i];
      var v := Trim(vals[i]);
      i := i + 1;
      if v == "" || v in r { continue; }
      r := r + [v];
    }
    assert vals[..i] == vals;
  }

  /** nextObservationOrdinal and nextEvidenceOrdinal. */
  method NextOrdinal(ids: seq<string>, prefix: string) returns (n: nat)
    ensures n == 1 + Count(ids, prefix)
  {
    n := 1;
    var i := 0;
    while i < |ids|
      invariant 0 <= i <= |ids| && n == 1 + Count(ids[..i], prefix)
    {
      assert ids[..i + 1][..i] == ids[..i];
      if prefix <= ids[i] { n := n + 1; }
      i := i + 1;
    }
    assert ids[..i] == ids;
  }

  lemma {:induction false} FindNowhere(objects: seq<Object>, id: string)
    ensures forall order: seq<Bucket> | order == [] :: Find(objects, id, order) < 0
  {}

  lemma {:induction false} FindPush(objects: seq<Object>, id: string, order: seq<Bucket>, k: nat)
    requires k < |order| && Find(objects, id, order[..k]) < 0
    ensures Find(objects, id, order[..k + 1]) == FindIn(objects, id, order[k])
  {
    assert order[..k + 1][..k] == order[..k];
    hide FindIn, FoundAt, Matches;
  }

  /** A match in a prefix of the lists is the match in all of them. */
  lemma {:induction false} FindStays(objects: seq<Object>, id: string, order: seq<Bucket>, k: nat)
    requires k <= |order| && Find(objects, id, order[..k]) >= 0
    ensures Find(objects, id, order) == Find(objects, id, order[..k])
  {
    hide FindIn, FoundAt, Matches;
    if k < |order| {
      var n := |order| - 1;
      assert order[..n][..k] == order[..k];
      FindStays(objects, id, order[..n], k);
    } else {
      assert order[..k] == order;
    }
  }

  class Builder {
    var objects: seq<Object>
    var observations: seq<Observation>
    var evidence: seq<Evidence>
    var flows: seq<Flow>
    var oldToNew: map<string, string>
    var evSeen: map<string, string>
    var known: set<string>
    var resources: map<string, string>
    var flowedFrom: set<string>

    ghost function View(): State
      reads this
    {
      State(objects, observations, evidence, flows, oldToNew, evSeen, known, resources, flowedFrom)
    }

    constructor ()
      ensures View() == START
    {
      objects, observations, evidence, flows := [], [], [], [];
      oldToNew, evSeen, known, resources, flowedFrom := map[], map[], {}, map[], {};
    }

    /** The first loop of addObservationsAndEvidence. */
    method AddObservations(oid: string, e: Entity) returns (refs: seq<string>)
      modifies this`observations
      ensures var ids := NewIds("obs.", oid, 1 + Count(Map(ObservationId, old(observations)), Stem("obs.", oid)),
          |Located(e.locations)|);
              refs == ids && observations == old(observations) + ObservationsFor(ids, oid, Confidence(e.confidence))
    {
      hide Count, NumberedId, Confidence, Blank;
      var from := NextOrdinal(Map(ObservationId, observations), Stem("obs.", oid));
      var next := from;
      refs := [];
      ghost var before := observations;
      var i := 0;
      while i < |e.locations|
        invariant 0 <= i <= |e.locations|
        invariant next == from + |Located(e.locations[..i])|
            && refs == NewIds("obs.", oid, from, |Located(e.locations[..i])|)
        invariant observations == before + ObservationsFor(refs, oid, Confidence(e.confidence))
      {
        assert e.locations[..i + 1][..i] == e.locations[..i];
        var loc := e.locations[i];
        i := i + 1;
        if Blank(loc.file) { continue; }
        var id := NumberedId("obs.", oid, next);
        next := next + 1;
        refs := refs + [id];
        observations := observations + [Observation(id, oid, Confidence(e.confidence))];
      }
      assert e.locations[..i] == e.locations;
    }

    /** Use the evidence already kept under this key, or keep a new piece. */
    method CiteOnce(oid: string, c: Cite, confidence: string, next: nat, refs: seq<string>)
        returns (next1: nat, refs1: seq<string>)
      modifies this`evidence, this`evSeen
      ensures Book(evidence, evSeen, next1, refs1)
          == CiteOne(Book(old(evidence), old(evSeen), next, refs), oid, c, confidence)
    {
      next1 := next;
      var id;
      if c.key in evSeen {
        id := evSeen[c.key];
      } else {
        id := NumberedId("ev.", oid, next);
        next1 := next + 1;
        evSeen := evSeen[c.key := id];
        evidence := evidence + [Evidence(id, c.source, confidence)];
      }
      refs1 := refs + [id];
    }

    /** The loop over the evidence of the entity. */
    method CiteOwn(oid: string, e: Entity, from: nat) returns (next: nat, refs: seq<string>)
      modifies this`evidence, this`evSeen
      ensures Book(evidence, evSeen, next, refs)
        == CiteAll(Book(old(evidence), old(evSeen), from, []), oid, Map(CiteEvidence, e.evidence),
            Confidence(e.confidence))
    {
      hide CiteOne, CiteEvidence, Confidence;
      next, refs := from, [];
      ghost var cites := Map(CiteEvidence, e.evidence);
      ghost var book := Book(evidence, evSeen, from, []);
      var i := 0;
      while i < |e.evidence|
        invariant 0 <= i <= |e.evidence|
        invariant Book(evidence, evSeen, next, refs) == CiteAll(book, oid, cites[..i], Confidence(e.confidence))
      {
        assert cites[..i + 1][..i] == cites[..i];
        next, refs := CiteOnce(oid, CiteEvidence(e.evidence[i]), Confidence(e.confidence), next, refs);
        i := i + 1;
      }
      assert cites[..i] == cites;
    }

    /** The loop over its locations, for an entity without evidence. */
    method CitePlaces(oid: string, e: Entity, fallback: string, from: nat) returns (next: nat, refs: seq<string>)
      requires e.evidence == []
      modifies this`evidence, this`evSeen
      ensures Book(evidence, evSeen, next, refs)
        == CiteAll(Book(old(evidence), old(evSeen), from, []), oid, Cites(e, fallback), Confidence(e.confidence))
    {
      hide CiteOne, CiteLocation, Confidence, Blank, DetectorName;
      next, refs := from, [];
      var detector := DetectorName(e, fallback);
      ghost var book := Book(evidence, evSeen, from, []);
      var i := 0;
      while i < |e.locations|
        invariant 0 <= i <= |e.locations|
        invariant Book(evidence, evSeen, next, refs)
            == CiteAll(book, oid, PlaceCites(e.locations[..i], detector), Confidence(e.confidence))
      {
        PlaceCitesPush(e.locations, i, detector);
        i := i + 1;
        if Blank(e.locations[i - 1].file) { continue; }
        ghost var cs := PlaceCites(e.locations[..i], detector);
        assert cs[..|cs| - 1] == PlaceCites(e.locations[..i - 1], detector);
        next, refs := CiteOnce(oid, CiteLocation(e.locations[i - 1], detector), Confidence(e.confidence), next, refs);
      }
      assert e.locations[..i] == e.locations;
      assert PlaceCites(e.locations, detector) == Cites(e, fallback);
    }

    /** addObservationsAndEvidence. */
    method AddObservationsAndEvidence(oid: string, e: Entity, fallback: string)
        returns (obsRefs: seq<string>, evRefs: seq<string>)
      modifies this`observations, this`evidence, this`evSeen
      ensures Recorded(View(), obsRefs, evRefs) == Record(old(View()), oid, e, fallback)
    {
      hide Count, CiteAll, NumberedId, Confidence, Located;
      var next := NextOrdinal(Map(EvidenceId, evidence), Stem("ev.", oid));
      obsRefs := AddObservations(oid, e);
      next, evRefs := CiteOwn(oid, e, next);
      NothingCited(OpenBook(old(View()), oid), oid, Confidence(e.confidence));
      CitedLength(OpenBook(old(View()), oid), oid, Map(CiteEvidence, e.evidence), Confidence(e.confidence));
      if |evRefs| == 0 {
        next, evRefs := CitePlaces(oid, e, fallback, next);
      }
    }

    /** The loops of appendObjectiveRefs and evidenceRefsForObject, one per list. */
    method Search(id: string, order: seq<Bucket>) returns (i: int)
      ensures i == Find(objects, id, order)
    {
      hide Find;
      FindNowhere(objects, id);
      var k := 0;
      while k < |order|
        invariant 0 <= k <= |order| && Find(objects, id, order[..k]) < 0
      {
        FindPush(objects, id, order, k);
        i := 0;
        while i < |objects|
          invariant 0 <= i <= |objects| && forall j | 0 <= j < i :: !Matches(objects[j], id, order[k])
        {
          if objects[i].id == id && objects[i].bucket == order[k] {
            FindStays(objects, id, order, k + 1);
            return;
          }
          i := i + 1;
        }
        k := k + 1;
      }
      assert order[..k] == order;
      return -1;
    }

    /** appendObjectiveRefs: the first object of that id in the order of the lists. */
    method AppendObjectiveRefs(oid: string, obsRefs: seq<string>, evRefs: seq<string>)
      modifies this`objects
      ensures var i := Pick(old(objects), oid);
              objects == if i < 0 then old(objects) else old(objects)[i := AddRefs(old(objects)[i], obsRefs, evRefs)]
    {
      var i := Search(oid, LISTS);
      if i >= 0 {
        var merged := AppendUniqueStrings(objects[i].observations, obsRefs);
        var cited := AppendUniqueStrings(objects[i].evidenceRefs, evRefs);
        objects := objects[i := objects[i].(observations := merged, evidenceRefs := cited)];
      }
    }

    /** ensureDBResource. */
    method EnsureDBResource(e: Entity) returns (id: string)
      modifies this
      ensures View() == EnsureResource(old(View()), e)
      ensures e.resource.key in resources && id == resources[e.resource.key]
    {
      hide Record, Confidence;
      if e.resource.key in resources { return resources[e.resource.key]; }
      id := ResourceId(e.resource);
      var found := false;
      var i := 0;
      while i < |objects|
        invariant 0 <= i <= |objects| && View() == old(View()) && found == HasResource(objects[..i], id)
      {
        assert objects[..i + 1] == objects[..i] + [objects[i]];
        HasResourcePush(objects[..i], objects[i], id);
        if objects[i].bucket.DBResources? && objects[i].id == id { found := true; }
        i := i + 1;
      }
      assert objects[..i] == objects;
      resources := resources[e.resource.key := id];
      if found { return; }
      var obsRefs, evRefs := AddObservationsAndEvidence(id, e, "derived_db_resource");
      objects := objects + [ResourceObject(e, obsRefs, evRefs)];
    }

    /** addExposure and addDependency, which differ in the list the object goes to. */
    method Add(item: Item)
      modifies this
      ensures View() == AddItem(old(View()), item)
    {
      hide Record, EnsureResource, EntityObject, Pick, AddRefs;
      var e := item.entity;
      var oid := e.oid.Text();
      if oid in known {
        oldToNew := oldToNew[e.id := oid];
        var obsRefs, evRefs := AddObservationsAndEvidence(oid, e, "deterministic");
        RecordKeepsObjects(old(View()).(oldToNew := oldToNew), oid, e, "deterministic");
        AppendObjectiveRefs(oid, obsRefs, evRefs);
        return;
      }
      known := known + {oid};
      var obsRefs, evRefs := AddObservationsAndEvidence(oid, e, "deterministic");
      RecordKeepsObjects(old(View()).(known := known), oid, e, "deterministic");
      oldToNew := oldToNew[e.id := oid];
      if NeedsResource(item) {
        var ref := EnsureDBResource(e);
      }
      objects := objects + [EntityObject(item, obsRefs, evRefs)];
    }

    method AddConnection(slug: Slug, c: Conn)
      modifies this`flows, this`flowedFrom
      ensures View() == AddFlow(old(View()), slug, c)
    {
      var from, to := Target(oldToNew, c.from), Target(oldToNew, c.to);
      if from == "" || to == "" { return; }
      flowedFrom := flowedFrom + {from};
      var marks := Marks("confirmed", Confidence(c.confidence), "deterministic");
      var flow := Flow(FlowId(slug, from + "." + to), from, from, to, ReachText(c.reach), [], [], marks, []);
      if c.hasPath {
        var nodes, edges := PathParts(from, to, c.path);
        flow := flow.(nodes := nodes, edges := edges, from := "", to := "");
      }
      flows := flows + [flow];
    }

    method AddEntrypointTrace(slug: Slug, e: Entity)
      modifies this`flows
      ensures View() == AddTrace(old(View()), slug, e)
    {
      var from := Target(oldToNew, e.id);
      if from == "" || from in flowedFrom { return; }
      var i := Search(from, ENTRY_LISTS);
      flows := flows + [TraceOf(slug, from, e, if i < 0 then [] else objects[i].evidenceRefs)];
    }

    /** The loops of buildProtocol over exposures and dependencies. */
    method AddAll(items: seq<Item>)
      modifies this
      ensures View() == AddItems(old(View()), items)
    {
      hide AddItem;
      var i := 0;
      while i < |items|
        invariant 0 <= i <= |items| && View() == AddItems(old(View()), items[..i])
      {
        assert items[..i + 1][..i] == items[..i];
        Add(items[i]);
        i := i + 1;
      }
      assert items[..i] == items;
    }

    /** Its loop over connections. */
    method AddConnections(slug: Slug, cs: seq<Conn>)
      modifies this
      ensures View() == AddFlows(old(View()), slug, cs)
    {
      hide AddFlow;
      var i := 0;
      while i < |cs|
        invariant 0 <= i <= |cs| && View() == AddFlows(old(View()), slug, cs[..i])
      {
        assert cs[..i + 1][..i] == cs[..i];
        AddConnection(slug, cs[i]);
        i := i + 1;
      }
      assert cs[..i] == cs;
    }

    /** Its second loop over exposures. */
    method AddTracesOf(slug: Slug, es: seq<Entity>)
      modifies this
      ensures View() == AddTraces(old(View()), slug, es)
    {
      hide AddTrace;
      var i := 0;
      while i < |es|
        invariant 0 <= i <= |es| && View() == AddTraces(old(View()), slug, es[..i])
      {
        assert es[..i + 1][..i] == es[..i];
        AddEntrypointTrace(slug, es[i]);
        i := i + 1;
      }
      assert es[..i] == es;
    }
  }

  function PlaceCites(locations: seq<Loc>, detector: string): seq<Cite> {
    var located := Located(locations);
    seq(|located|, i requires 0 <= i < |located| => CiteLocation(located[i], detector))
  }

  lemma {:induction false} PlaceCitesPush(locations: seq<Loc>, i: nat, detector: string)
    requires i < |locations|
    ensures PlaceCites(locations[..i + 1], detector)
      == if Blank(locations[i].file) then PlaceCites(locations[..i], detector)
         else PlaceCites(locations[..i], detector) + [CiteLocation(locations[i], detector)]
  {
    hide Blank, CiteLocation;
    assert locations[..i + 1][..i] == locations[..i];
  }

  lemma {:induction false} CitedLength(b: Book, oid: string, cs: seq<Cite>, confidence: string)
    ensures |CiteAll(b, oid, cs, confidence).refs| == |b.refs| + |cs|
  {
    if cs != [] { CitedLength(b, oid, cs[..|cs| - 1], confidence); }
  }

  lemma {:induction false} NothingCited(b: Book, oid: string, confidence: string)
    ensures CiteAll(b, oid, [], confidence) == b
  {}

  lemma {:induction false} HasResourcePush(objects: seq<Object>, o: Object, id: string)
    ensures HasResource(objects + [o], id) <==> HasResource(objects, id) || (o.bucket.DBResources? && o.id == id)
  {
    if HasResource(objects, id) {
      var x :| x in objects && x.bucket.DBResources? && x.id == id;
      assert x in objects + [o];
    }
    assert o in objects + [o];
  }

  lemma {:induction false} RecordKeepsObjects(s: State, oid: string, e: Entity, fallback: string)
    ensures var r := Record(s, oid, e, fallback).state;
            r == s.(observations := r.observations, evidence := r.evidence, evSeen := r.evSeen)
  {
    hide CiteAll, Count, Cites, Located;
  }

  /** The loop of addFlow over the steps of a path. */
  method PathParts(from: string, to: string, path: seq<Reach>) returns (nodes: seq<Node>, edges: seq<Edge>)
    ensures nodes == PathNodes(from, to, |path|) && edges == PathEdges(path)
  {
    hide NodeName;
    nodes, edges := [Node(NodeName(1), from, "entrypoint")], [];
    var next, last := 2, NodeName(1);
    var i := 0;
    while i < |path|
      invariant 0 <= i <= |path| && next == i + 2 && last == NodeName(i + 1)
      invariant |nodes| == i + 1 && nodes[0] == Node(NodeName(1), from, "entrypoint")
      invariant forall j | 1 <= j <= i :: nodes[j] == Node(NodeName(j + 1), "", "call")
      invariant |edges| == i && forall j | 0 <= j < i ::
          edges[j] == Edge(NodeName(j + 1), NodeName(j + 2), ReachText(path[j]))
    {
      var id := NodeName(next);
      next := next + 1;
      nodes := nodes + [Node(id, "", "call")];
      edges := edges + [Edge(last, id, ReachText(path[i]))];
      last := id;
      i := i + 1;
    }
    var target := NodeName(next);
    nodes := nodes + [Node(target, to, "action")];
    edges := edges + [Edge(last, target, "must")];
  }

  /** The calls that buildProtocol makes on its builder. */
  method BuildProtocol(slug: Slug, input: Input) returns (doc: Document)
    ensures doc == Build(slug, input)
  {
    hide AddItems, AddFlows, AddTraces, Sort;
    var b := new Builder();
    b.AddAll(Items(input));
    b.AddConnections(slug, input.connections);
    b.AddTracesOf(slug, input.exposures);
    doc := Document(SCHEMA, input.serviceId, input.serviceName,
                    Sort(b.objects, IdOf), Sort(b.observations, ObservationId), Sort(b.evidence, EvidenceId),
                        Sort(b.flows, FlowKey));
  }

  /** buildProtocol: what it returns as its error is decided by the input alone. */
  method BuildChecked(shape: Shape, slug: Slug, input: Input) returns (doc: Document, ok: bool)
    ensures doc == Build(slug, input)
    ensures ok <==> Fit(shape, slug, input)
  {
    doc := BuildProtocol(slug, input);
    ok := ValidateCanonical(shape, doc);
    BuildPassesIff(shape, slug, input);
  }
}
