/**
  Protocol documents and the two validators of protocol/validate.go.

  The pattern that recognises ids built from line numbers is a parameter, `lineShaped`.
 */
module Protocol {
  import opened Lists
  import opened Text

  const SCHEMA := "diffmind.service.v1"

  /** The lists a document keeps its objects in. */
  datatype Bucket =
    | HTTPEndpoints | HTTPCalls | DBResources | DBQueries | QueueConsumers | QueuePublishers | RPCEndpoints | RPCCalls
    | CLICommands | Activations | CacheOperations | ConfigReads | FeatureFlags

  datatype Marks = Marks(status: string, confidence: string, origin: string)

  datatype Object = Object(bucket: Bucket, id: string, kind: string, name: string, marks: Marks,
      observations: seq<string>, evidenceRefs: seq<string>)

  datatype Observation = Observation(id: string, objectRef: string, confidence: string)

  datatype Evidence = Evidence(id: string, source: string, confidence: string)

  datatype Node = Node(id: string, ref: string, role: string)

  datatype Edge = Edge(from: string, to: string, reachability: string)

  datatype Flow = Flow(
    id: string, entrypoint: string, from: string, to: string, reachability: string,
    nodes: seq<Node>, edges: seq<Edge>, marks: Marks, evidenceRefs: seq<string>)

  datatype Document = Document(
    schema: string, serviceId: string, serviceName: string,
    objects: seq<Object>, observations: seq<Observation>, evidence: seq<Evidence>, flows: seq<Flow>)

  type Shape = string -> bool

  predicate ValidStatus(v: string) {
    v in ["", "confirmed", "proposed", "rejected", "stale", "deprecated", "unresolved", "conflicting"]
  }

  predicate ValidConfidence(v: string) {
    v in ["", "high", "medium", "low", "unknown"]
  }

  predicate ValidOrigin(v: string) {
    v in ["", "manual", "deterministic", "llm", "imported", "runtime", "external"]
  }

  predicate ValidReachability(v: string) {
    v in ["", "must", "conditional", "may", "unknown"]
  }

  predicate ValidMarks(m: Marks) {
    ValidStatus(m.status) && ValidConfidence(m.confidence) && ValidOrigin(m.origin)
  }

  function IdOf(o: Object): string { o.id }

  function ObservationId(o: Observation): string { o.id }

  function EvidenceId(e: Evidence): string { e.id }

  function NodeId(n: Node): string { n.id }

  function ObjectIds(doc: Document): seq<string> { Map(IdOf, doc.objects) }

  function ObservationIds(doc: Document): seq<string> { Map(ObservationId, doc.observations) }

  function EvidenceIds(doc: Document): seq<string> { Map(EvidenceId, doc.evidence) }

  /** An optional reference. */
  predicate Resolves(ref: string, ids: seq<string>) {
    ref == "" || ref in ids
  }

  predicate ObjectOk(shape: Shape, o: Object) {
    !Blank(o.id) && !shape(o.id) && !Blank(o.kind) && !Blank(o.name) && ValidMarks(o.marks)
  }

  predicate ObservationOk(objects: seq<string>, o: Observation) {
    !Blank(o.id) && Resolves(o.objectRef, objects) && ValidConfidence(o.confidence)
  }

  predicate EvidenceOk(e: Evidence) {
    !Blank(e.id) && ValidConfidence(e.confidence)
  }

  ghost predicate RefsOk(observations: seq<string>, evidence: seq<string>, o: Object) {
    (forall ref | ref in o.observations :: ref in observations)
        && (forall ref | ref in o.evidenceRefs :: ref in evidence)
  }

  ghost predicate NodesOk(objects: seq<string>, nodes: seq<Node>) {
    (forall n | n in nodes :: !Blank(n.id) && Resolves(n.ref, objects)) && Distinct(Map(NodeId, nodes))
  }

  predicate EdgeOk(nodes: seq<string>, e: Edge) {
    e.from in nodes && e.to in nodes && ValidReachability(e.reachability)
  }

  predicate FlowHeadOk(shape: Shape, objects: seq<string>, f: Flow) {
    && !Blank(f.id) && !shape(f.id)
    && Resolves(f.from, objects) && Resolves(f.to, objects) && Resolves(f.entrypoint, objects)
    && ValidMarks(f.marks) && ValidReachability(f.reachability)
  }

  ghost predicate FlowOk(shape: Shape, objects: seq<string>, evidence: seq<string>, f: Flow) {
    && FlowHeadOk(shape, objects, f)
    && (forall ref | ref in f.evidenceRefs :: ref in evidence)
    && NodesOk(objects, f.nodes)
    && (forall e | e in f.edges :: EdgeOk(Map(NodeId, f.nodes), e))
  }

  /** What Validate demands. */
  ghost predicate Sound(shape: Shape, doc: Document) {
    && Trim(doc.schema) == SCHEMA && !Blank(doc.serviceId) && !Blank(doc.serviceName)
    && (forall o | o in doc.objects :: ObjectOk(shape, o)) && Distinct(ObjectIds(doc))
    && (forall o | o in doc.observations :: ObservationOk(ObjectIds(doc), o)) && Distinct(ObservationIds(doc))
    && (forall e | e in doc.evidence :: EvidenceOk(e)) && Distinct(EvidenceIds(doc))
    && (forall o | o in doc.objects :: RefsOk(ObservationIds(doc), EvidenceIds(doc), o))
    && (forall f | f in doc.flows :: FlowOk(shape, ObjectIds(doc), EvidenceIds(doc), f))
  }

  /** The objects that must start a flow. */
  predicate Entrypoint(o: Object) {
    match o.bucket
    case HTTPEndpoints => true
    case QueueConsumers => true
    case RPCEndpoints => true
    case CLICommands => o.kind == "cli_command"
    case Activations => true
    case _ => false
  }

  ghost predicate Starts(f: Flow, id: string) {
    id != "" && (f.entrypoint == id || f.from == id || exists n ::
        n in f.nodes && n.role == "entrypoint" && n.ref == id)
  }

  ghost predicate Started(flows: seq<Flow>, id: string) {
    exists f :: f in flows && Starts(f, id)
  }

  predicate ObjectComplete(o: Object) {
    && o.marks.status != "" && o.marks.confidence != "" && o.marks.origin != "" && o.marks.origin != "llm"
    && o.observations != [] && o.evidenceRefs != []
  }

  predicate Authored(source: string) {
    Lower(Trim(source)) != "llm"
  }

  /** What ValidateCanonical demands. */
  ghost predicate Canonical(shape: Shape, doc: Document) {
    && Sound(shape, doc)
    && (forall e | e in doc.evidence :: Authored(e.source))
    && (forall f | f in doc.flows :: f.marks.origin != "llm")
    && (forall o | o in doc.objects :: ObjectComplete(o))
    && (forall o | o in doc.objects && Entrypoint(o) && !Blank(o.id) :: Started(doc.flows, o.id))
  }
}
