/** The loops of protocol/validate.go, proved to accept exactly the documents that meet the two predicates. */
module ProtocolValidator {
  import opened Lists
  import opened Protocol
  import opened Text

  /** The first `n` ids are distinct, and `seen` holds them. */
  ghost predicate Collected(ids: seq<string>, n: nat, seen: set<string>)
    requires n <= |ids|
  {
    Distinct(ids[..n]) && forall id :: id in seen <==> id in ids[..n]
  }

  lemma {:induction false} CollectNext(ids: seq<string>, n: nat, seen: set<string>)
    requires n < |ids| && Collected(ids, n, seen)
    ensures if ids[n] in seen then !Distinct(ids) else Collected(ids, n + 1, seen + {ids[n]})
  {
    if ids[n] in seen {
      var j :| 0 <= j < n && ids[..n][j] == ids[n];
    }
  }

  lemma {:induction false} CollectedAll(ids: seq<string>, seen: set<string>)
    requires Collected(ids, |ids|, seen)
    ensures Distinct(ids) && forall id :: id in seen <==> id in ids
  {
    assert ids[..|ids|] == ids;
  }

  /** The closure `add` of Validate. */
  method AddObject(shape: Shape, o: Object, seen: set<string>) returns (ok: bool)
    ensures ok <==> ObjectOk(shape, o) && o.id !in seen
  {
    if Blank(o.id) { return false; }
    if shape(o.id) { return false; }
    if o.id in seen { return false; }
    if Blank(o.kind) || Blank(o.name) { return false; }
    return ValidStatus(o.marks.status) && ValidConfidence(o.marks.confidence) && ValidOrigin(o.marks.origin);
  }

  method ValidateObjects(shape: Shape, objects: seq<Object>) returns (ok: bool, seen: set<string>)
    ensures ok <==> (forall o | o in objects :: ObjectOk(shape, o)) && Distinct(Map(IdOf, objects))
    ensures ok ==> forall id :: id in seen <==> id in Map(IdOf, objects)
  {
    hide Collected, Distinct, ObjectOk;
    ghost var ids := Map(IdOf, objects);
    seen := {};
    var i := 0;
    assert Collected(ids, 0, {}) by { NothingCollected(ids); }
    while i < |objects|
      invariant 0 <= i <= |objects| && (forall j | 0 <= j < i :: ObjectOk(shape, objects[j]))
      invariant Collected(ids, i, seen)
    {
      CollectNext(ids, i, seen);
      assert ids[i] == objects[i].id;
      ok := AddObject(shape, objects[i], seen);
      if !ok { return; }
      seen := seen + {objects[i].id};
      i := i + 1;
    }
    CollectedAll(ids, seen);
    return true, seen;
  }

  lemma {:induction false} NothingCollected(ids: seq<string>)
    ensures Collected(ids, 0, {})
  {}

  ghost predicate Same(seen: set<string>, ids: seq<string>) {
    forall id :: id in seen <==> id in ids
  }

  method ValidateObservations(list: seq<Observation>, objects: set<string>, ghost objectIds: seq<string>)
      returns (ok: bool, seen: set<string>)
    requires Same(objects, objectIds)
    ensures ok <==> (forall o | o in list :: ObservationOk(objectIds, o)) && Distinct(Map(ObservationId, list))
    ensures ok ==> Same(seen, Map(ObservationId, list))
  {
    hide Collected, Distinct, Blank;
    ghost var ids := Map(ObservationId, list);
    seen := {};
    var i := 0;
    assert Collected(ids, 0, {}) by { NothingCollected(ids); }
    while i < |list|
      invariant 0 <= i <= |list| && (forall j | 0 <= j < i :: ObservationOk(objectIds, list[j]))
      invariant Collected(ids, i, seen)
    {
      var o := list[i];
      CollectNext(ids, i, seen);
      assert ids[i] == o.id && o in list;
      if Blank(o.id) { return false, seen; }
      if o.id in seen { return false, seen; }
      if o.objectRef != "" && o.objectRef !in objects { return false, seen; }
      if !ValidConfidence(o.confidence) { return false, seen; }
      seen := seen + {o.id};
      i := i + 1;
    }
    CollectedAll(ids, seen);
    return true, seen;
  }

  method ValidateEvidence(list: seq<Evidence>) returns (ok: bool, seen: set<string>)
    ensures ok <==> (forall e | e in list :: EvidenceOk(e)) && Distinct(Map(EvidenceId, list))
    ensures ok ==> Same(seen, Map(EvidenceId, list))
  {
    hide Collected, Distinct, Blank;
    ghost var ids := Map(EvidenceId, list);
    seen := {};
    var i := 0;
    assert Collected(ids, 0, {}) by { NothingCollected(ids); }
    while i < |list|
      invariant 0 <= i <= |list| && (forall j | 0 <= j < i :: EvidenceOk(list[j]))
      invariant Collected(ids, i, seen)
    {
      var e := list[i];
      CollectNext(ids, i, seen);
      assert ids[i] == e.id && e in list;
      if Blank(e.id) { return false, seen; }
      if e.id in seen { return false, seen; }
      if !ValidConfidence(e.confidence) { return false, seen; }
      seen := seen + {e.id};
      i := i + 1;
    }
    CollectedAll(ids, seen);
    return true, seen;
  }

  /** The loops over references. */
  method KnownRefs(refs: seq<string>, known: set<string>) returns (ok: bool)
    ensures ok <==> forall ref | ref in refs :: ref in known
  {
    var i := 0;
    while i < |refs|
      invariant 0 <= i <= |refs| && forall j | 0 <= j < i :: refs[j] in known
    {
      if refs[i] !in known { return false; }
      i := i + 1;
    }
    return true;
  }

  /** The closure checkRefs of Validate, for each object. */
  method CheckRefs(objects: seq<Object>, observations: set<string>, evidence: set<string>, ghost obsIds: seq<string>,
      ghost evIds: seq<string>)
    returns (ok: bool)
    requires Same(observations, obsIds) && Same(evidence, evIds)
    ensures ok <==> forall o | o in objects :: RefsOk(obsIds, evIds, o)
  {
    var i := 0;
    while i < |objects|
      invariant 0 <= i <= |objects| && forall j | 0 <= j < i :: RefsOk(obsIds, evIds, objects[j])
    {
      assert objects[i] in objects;
      ok := KnownRefs(objects[i].observations, observations);
      if !ok { return; }
      ok := KnownRefs(objects[i].evidenceRefs, evidence);
      if !ok { return; }
      i := i + 1;
    }
    return true;
  }

  method ValidateNodes(nodes: seq<Node>, objects: set<string>, ghost objectIds: seq<string>)
      returns (ok: bool, seen: set<string>)
    requires Same(objects, objectIds)
    ensures ok <==> NodesOk(objectIds, nodes)
    ensures ok ==> Same(seen, Map(NodeId, nodes))
  {
    hide Collected, Distinct, Blank;
    ghost var ids := Map(NodeId, nodes);
    seen := {};
    var i := 0;
    assert Collected(ids, 0, {}) by { NothingCollected(ids); }
    while i < |nodes|
      invariant 0 <= i <= |nodes| && (forall j | 0 <= j < i :: !Blank(nodes[j].id) && Resolves(nodes[j].ref, objectIds))
      invariant Collected(ids, i, seen)
    {
      var n := nodes[i];
      CollectNext(ids, i, seen);
      assert ids[i] == n.id && n in nodes;
      if Blank(n.id) { return false, seen; }
      if n.id in seen { return false, seen; }
      if n.ref != "" && n.ref !in objects { return false, seen; }
      seen := seen + {n.id};
      i := i + 1;
    }
    CollectedAll(ids, seen);
    return true, seen;
  }

  method ValidateEdges(edges: seq<Edge>, nodes: set<string>, ghost nodeIds: seq<string>) returns (ok: bool)
    requires Same(nodes, nodeIds)
    ensures ok <==> forall e | e in edges :: EdgeOk(nodeIds, e)
  {
    var i := 0;
    while i < |edges|
      invariant 0 <= i <= |edges| && forall j | 0 <= j < i :: EdgeOk(nodeIds, edges[j])
    {
      var e := edges[i];
      assert e in edges;
      if e.from !in nodes { return false; }
      if e.to !in nodes { return false; }
      if !ValidReachability(e.reachability) { return false; }
      i := i + 1;
    }
    return true;
  }

  method ValidateFlow(shape: Shape, f: Flow, objects: set<string>, evidence: set<string>, ghost objectIds: seq<string>,
      ghost evIds: seq<string>)
    returns (ok: bool)
    requires Same(objects, objectIds) && Same(evidence, evIds)
    ensures ok <==> FlowOk(shape, objectIds, evIds, f)
  {
    hide NodesOk, Blank;
    if Blank(f.id) || shape(f.id) { return false; }
    if f.from != "" && f.from !in objects { return false; }
    if f.to != "" && f.to !in objects { return false; }
    if f.entrypoint != "" && f.entrypoint !in objects { return false; }
    if !ValidMarks(f.marks) || !ValidReachability(f.reachability) { return false; }
    ok := KnownRefs(f.evidenceRefs, evidence);
    if !ok { return; }
    var nodes;
    ok, nodes := ValidateNodes(f.nodes, objects, objectIds);
    if !ok { return; }
    ok := ValidateEdges(f.edges, nodes, Map(NodeId, f.nodes));
  }

  method ValidateFlows(shape: Shape, flows: seq<Flow>, objects: set<string>, evidence: set<string>,
      ghost objectIds: seq<string>, ghost evIds: seq<string>)
    returns (ok: bool)
    requires Same(objects, objectIds) && Same(evidence, evIds)
    ensures ok <==> forall f | f in flows :: FlowOk(shape, objectIds, evIds, f)
  {
    hide FlowOk;
    var i := 0;
    while i < |flows|
      invariant 0 <= i <= |flows| && forall j | 0 <= j < i :: FlowOk(shape, objectIds, evIds, flows[j])
    {
      assert flows[i] in flows;
      ok := ValidateFlow(shape, flows[i], objects, evidence, objectIds, evIds);
      if !ok { return; }
      i := i + 1;
    }
    return true;
  }

  method Validate(shape: Shape, doc: Document) returns (ok: bool)
    ensures ok <==> Sound(shape, doc)
  {
    hide Distinct, FlowOk, ObjectOk, ObservationOk, EvidenceOk, RefsOk, Trim;
    if Trim(doc.schema) != SCHEMA { return false; }
    if Blank(doc.serviceId) || Blank(doc.serviceName) { return false; }
    var objects, observations, evidence;
    ok, objects := ValidateObjects(shape, doc.objects);
    if !ok { return; }
    ok, observations := ValidateObservations(doc.observations, objects, ObjectIds(doc));
    if !ok { return; }
    ok, evidence := ValidateEvidence(doc.evidence);
    if !ok { return; }
    ok := CheckRefs(doc.objects, observations, evidence, ObservationIds(doc), EvidenceIds(doc));
    if !ok { return; }
    ok := ValidateFlows(shape, doc.flows, objects, evidence, ObjectIds(doc), EvidenceIds(doc));
  }

  ghost predicate Covers(covered: set<string>, flows: seq<Flow>) {
    forall id :: id in covered <==> Started(flows, id)
  }

  /** The ids one flow covers, as validateCanonicalEntrypointFlows collects them. */
  method CoverFlow(f: Flow) returns (covered: set<string>)
    ensures forall id :: id in covered <==> Starts(f, id)
  {
    covered := {};
    if f.entrypoint != "" { covered := covered + {f.entrypoint}; }
    if f.from != "" { covered := covered + {f.from}; }
    ghost var heads := covered;
    var i := 0;
    while i < |f.nodes|
      invariant 0 <= i <= |f.nodes|
      invariant forall id ::
          id in covered <==>
            id in heads || exists j :: 0 <= j < i && f.nodes[j].role == "entrypoint" && f.nodes[j].ref == id != ""
    {
      var node := f.nodes[i];
      if node.role == "entrypoint" && node.ref != "" { covered := covered + {node.ref}; }
      i := i + 1;
    }
    forall id ensures id in covered <==> Starts(f, id) {
      if id in covered && id !in heads {
        var j :| 0 <= j < |f.nodes| && f.nodes[j].role == "entrypoint" && f.nodes[j].ref == id != "";
        assert f.nodes[j] in f.nodes;
      }
      if n :| n in f.nodes && n.role == "entrypoint" && n.ref == id {
        var j :| 0 <= j < |f.nodes| && f.nodes[j] == n;
      }
    }
  }

  method CoveredIds(flows: seq<Flow>) returns (covered: set<string>)
    ensures Covers(covered, flows)
  {
    hide Starts;
    covered := {};
    var i := 0;
    while i < |flows|
      invariant 0 <= i <= |flows| && forall id :: id in covered <==> exists j :: 0 <= j < i && Starts(flows[j], id)
    {
      var more := CoverFlow(flows[i]);
      covered := covered + more;
      i := i + 1;
    }
    forall id ensures id in covered <==> Started(flows, id) {
      if id in covered {
        var j :| 0 <= j < |flows| && Starts(flows[j], id);
        assert flows[j] in flows;
      }
      if Started(flows, id) {
        var f :| f in flows && Starts(f, id);
        var j :| 0 <= j < |flows| && flows[j] == f;
      }
    }
  }

  method ValidateEntrypointFlows(doc: Document) returns (ok: bool)
    ensures ok <==> forall o | o in doc.objects && Entrypoint(o) && !Blank(o.id) :: Started(doc.flows, o.id)
  {
    hide Started, Blank;
    var covered := CoveredIds(doc.flows);
    var i := 0;
    while i < |doc.objects|
      invariant 0 <= i <= |doc.objects|
      invariant forall j | 0 <= j < i && Entrypoint(doc.objects[j]) && !Blank(doc.objects[j].id) ::
          Started(doc.flows, doc.objects[j].id)
    {
      var o := doc.objects[i];
      assert o in doc.objects;
      if Entrypoint(o) && !Blank(o.id) && o.id !in covered { return false; }
      i := i + 1;
    }
    return true;
  }

  method CompleteParts(doc: Document) returns (ok: bool)
    ensures ok <==>
      && (forall e | e in doc.evidence :: Authored(e.source))
      && (forall f | f in doc.flows :: f.marks.origin != "llm")
      && (forall o | o in doc.objects :: ObjectComplete(o))
  {
    hide Authored;
    var i := 0;
    while i < |doc.evidence|
      invariant 0 <= i <= |doc.evidence| && forall j | 0 <= j < i :: Authored(doc.evidence[j].source)
    {
      assert doc.evidence[i] in doc.evidence;
      if !Authored(doc.evidence[i].source) { return false; }
      i := i + 1;
    }
    i := 0;
    while i < |doc.flows|
      invariant 0 <= i <= |doc.flows| && forall j | 0 <= j < i :: doc.flows[j].marks.origin != "llm"
    {
      assert doc.flows[i] in doc.flows;
      if doc.flows[i].marks.origin == "llm" { return false; }
      i := i + 1;
    }
    i := 0;
    while i < |doc.objects|
      invariant 0 <= i <= |doc.objects| && forall j | 0 <= j < i :: ObjectComplete(doc.objects[j])
    {
      assert doc.objects[i] in doc.objects;
      if !ObjectComplete(doc.objects[i]) { return false; }
      i := i + 1;
    }
    return true;
  }

  method ValidateCanonical(shape: Shape, doc: Document) returns (ok: bool)
    ensures ok <==> Canonical(shape, doc)
  {
    hide Sound, Authored, ObjectComplete, Started, Blank;
    ok := Validate(shape, doc);
    if !ok { return; }
    ok := CompleteParts(doc);
    if !ok { return; }
    ok := ValidateEntrypointFlows(doc);
  }
}
