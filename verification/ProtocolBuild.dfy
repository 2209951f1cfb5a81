/**
  How internal/extractor/artifacts/protocol.go turns entities and connections into a protocol document,
  as functions from one builder state to the next.

  The semantic id of an entity is a parameter: two parts without dots, as `slug` makes them.  So is the
  key, the slug and the name of the database resource behind a database operation.
 */
module ProtocolBuild {
  import opened Decimal
  import opened Lists
  import opened Protocol
  import opened Sorting
  import opened Text

  type Part = s: string | s != "" && forall c | c in s :: c != '.' && !Space(c) witness "x"

  type Slug = string -> Part

  datatype ObjectId = ObjectId(scope: Part, name: Part) {
    function Text(): (s: string)
      ensures s != ""
    {
      scope + "." + name
    }
  }

  /** `span` is the line range as the source prints it. */
  datatype Loc = Loc(file: string, span: string)

  datatype Ev = Ev(loc: Loc, source: string, snippet: string)

  /** What ensureDBResource computes from a database operation. */
  datatype Resource = Resource(key: string, name: Part, title: string)

  /** `detector` is empty when neither a plugin nor a framework tag names one. */
  datatype Entity = Entity(
    id: string, oid: ObjectId, typ: string, name: string, origin: BaseOrigin, detector: string, confidence: real,
    locations: seq<Loc>, evidence: seq<Ev>, resource: Resource)

  datatype BaseOrigin = Imported | Deterministic | Manual

  datatype Item = Item(entity: Entity, dependency: bool)

  datatype Reach = Must | Conditional

  /** `path` holds the steps of the first path of a connection, if it has one. */
  datatype Conn = Conn(from: string, to: string, reach: Reach, confidence: real, hasPath: bool, path: seq<Reach>)

  datatype Input = Input(serviceId: Part, serviceName: string, exposures: seq<Entity>, dependencies: seq<Entity>,
      connections: seq<Conn>)

  datatype State = State(
    objects: seq<Object>, observations: seq<Observation>, evidence: seq<Evidence>, flows: seq<Flow>,
    oldToNew: map<string, string>, evSeen: map<string, string>, known: set<string>, resources: map<string, string>,
        flowedFrom: set<string>)

  const START := State([], [], [], [], map[], map[], {}, map[], {})

  function OriginText(o: BaseOrigin): string {
    match o case Imported => "imported" case Deterministic => "deterministic" case Manual => "manual"
  }

  function ReachText(r: Reach): string {
    match r case Must => "must" case Conditional => "conditional"
  }

  function Confidence(v: real): string {
    if v >= 0.85 then "high" else if v >= 0.65 then "medium" else if v > 0.0 then "low" else "unknown"
  }

  function BucketOf(item: Item): Bucket {
    var t := item.entity.typ;
    if item.dependency then
      if t == "outbound_http" then HTTPCalls
      else if t == "queue_publish" then QueuePublishers
      else if t == "db_operation" then DBQueries
      else if t == "cache_operation" then CacheOperations
      else if t == "outbound_rpc" then RPCCalls
      else if t == "command_exec" then CLICommands
      else ConfigReads
    else
      if t == "http_route" || t == "webhook" then HTTPEndpoints
      else if t == "queue_consumer" || t == "stream_consume" then QueueConsumers
      else if t == "cli_command" then CLICommands
      else if t == "rpc_endpoint" then RPCEndpoints
      else Activations
  }

  function KindForType(t: string): string {
    if t == "http_route" || t == "webhook" then "http_endpoint"
    else if t == "outbound_http" then "http_call"
    else if t == "db_operation" then "db_query"
    else if t == "queue_consumer" || t == "stream_consume" then "queue_consumer"
    else if t == "queue_publish" then "queue_publisher"
    else if t == "cli_command" then "cli_command"
    else if t == "scheduled_job" then "kubernetes_cronjob"
    else if t == "cache_operation" then "cache_operation"
    else if t == "outbound_rpc" then "rpc_call"
    else if t == "workflow_orchestration" then "workflow_orchestration"
    else if t == "rpc_endpoint" then "rpc_endpoint"
    else t
  }

  /** An exposure of no known type becomes an activation, whatever its type says. */
  function KindOf(item: Item): string {
    if !item.dependency && BucketOf(item).Activations? && item.entity.typ != "scheduled_job" then "activation"
    else KindForType(item.entity.typ)
  }

  /** nextObservationOrdinal and nextEvidenceOrdinal count ids by prefix. */
  function Count(ids: seq<string>, prefix: string): nat {
    if ids == [] then 0
    else Count(ids[..|ids| - 1], prefix) + if prefix <= ids[|ids| - 1] then 1 else 0
  }

  function Stem(tag: string, oid: string): string { tag + oid + "." }

  function NumberedId(tag: string, oid: string, n: nat): string { Stem(tag, oid) + Show(n) }

  function Located(locations: seq<Loc>): seq<Loc> {
    if locations == [] then []
    else Located(locations[..|locations| - 1]) + if Blank(locations[|locations| - 1].file) then []
        else [locations[|locations| - 1]]
  }

  function NewIds(tag: string, oid: string, from: nat, count: nat): (ids: seq<string>)
    ensures |ids| == count
  {
    seq(count, i requires 0 <= i < count => NumberedId(tag, oid, from + i))
  }

  function ObservationsFor(ids: seq<string>, oid: string, confidence: string): (r: seq<Observation>)
    ensures |r| == |ids|
  {
    seq(|ids|, i requires 0 <= i < |ids| => Observation(ids[i], oid, confidence))
  }

  function DetectorName(e: Entity, fallback: string): string {
    "diffmind." + if e.detector != "" then e.detector else fallback
  }

  function SourceOf(source: string): string {
    var s := Lower(Trim(source));
    if Contains(s, "config") then "config"
    else if Contains(s, "infra") || Contains(s, "helm") || Contains(s, "kubernetes") then "infra"
    else if Contains(s, "human") then "human"
    else "code"
  }

  /** One piece of evidence to refer to: the key it is shared under, and its source. */
  datatype Cite = Cite(key: string, source: string)

  function CiteEvidence(ev: Ev): Cite {
    Cite(ev.loc.file + ":" + ev.loc.span + ":" + ev.source + ":" + ev.snippet, SourceOf(ev.source))
  }

  function CiteLocation(loc: Loc, detector: string): Cite {
    var source := if Contains(Lower(detector), "config") then "config" else "code";
    Cite(loc.file + ":" + loc.span + ":" + source + ":" + detector, source)
  }

  /** The evidence of an entity or, when it has none, its located places. */
  function Cites(e: Entity, fallback: string): seq<Cite> {
    if e.evidence != [] then Map(CiteEvidence, e.evidence)
    else
      var located, detector := Located(e.locations), DetectorName(e, fallback);
      seq(|located|, i requires 0 <= i < |located| => CiteLocation(located[i], detector))
  }

  datatype Book = Book(evidence: seq<Evidence>, seen: map<string, string>, next: nat, refs: seq<string>)

  function CiteOne(b: Book, oid: string, c: Cite, confidence: string): Book {
    if c.key in b.seen then b.(refs := b.refs + [b.seen[c.key]])
    else
      var id := NumberedId("ev.", oid, b.next);
      Book(b.evidence + [Evidence(id, c.source, confidence)], b.seen[c.key := id], b.next + 1, b.refs + [id])
  }

  function CiteAll(b: Book, oid: string, cs: seq<Cite>, confidence: string): Book {
    if cs == [] then b else CiteOne(CiteAll(b, oid, cs[..|cs| - 1], confidence), oid, cs[|cs| - 1], confidence)
  }

  datatype Recorded = Recorded(state: State, observations: seq<string>, evidence: seq<string>)

  function OpenBook(s: State, oid: string): Book {
    Book(s.evidence, s.evSeen, 1 + Count(Map(EvidenceId, s.evidence), Stem("ev.", oid)), [])
  }

  /** addObservationsAndEvidence. */
  function Record(s: State, oid: string, e: Entity, fallback: string): Recorded {
    var confidence := Confidence(e.confidence);
    var ids := NewIds("obs.", oid, 1 + Count(Map(ObservationId, s.observations), Stem("obs.", oid)),
        |Located(e.locations)|);
    var book := CiteAll(OpenBook(s, oid), oid, Cites(e, fallback), confidence);
    Recorded(
      s.(observations := s.observations + ObservationsFor(ids, oid, confidence), evidence := book.evidence,
          evSeen := book.seen),
      ids, book.refs)
  }

  function AppendUnique(list: seq<string>, vals: seq<string>): seq<string> {
    if vals == [] then list
    else
      var r, v := AppendUnique(list, vals[..|vals| - 1]), Trim(vals[|vals| - 1]);
      if v == "" || v in r then r else r + [v]
  }

  function AddRefs(o: Object, observations: seq<string>, evidence: seq<string>): Object {
    o.(observations := AppendUnique(o.observations, observations),
        evidenceRefs := AppendUnique(o.evidenceRefs, evidence))
  }

  predicate Matches(o: Object, id: string, b: Bucket) {
    o.id == id && o.bucket == b
  }

  /** The first object of that id in one of the lists. */
  function FindIn(objects: seq<Object>, id: string, b: Bucket): (i: int)
    ensures -1 <= i < |objects|
    ensures i >= 0 ==> Matches(objects[i], id, b)
    ensures forall j | 0 <= j < (if i < 0 then |objects| else i) :: !Matches(objects[j], id, b)
  {
    if objects == [] then -1
    else
      var n := |objects| - 1;
      var i := FindIn(objects[..n], id, b);
      if i >= 0 then i else if Matches(objects[n], id, b) then n else -1
  }

  /** The first object of that id, list by list in the given order. */
  function Find(objects: seq<Object>, id: string, order: seq<Bucket>): (i: int)
    ensures -1 <= i < |objects|
    ensures i >= 0 ==> exists k :: 0 <= k < |order| && FoundAt(objects, id, order, i, k)
    ensures i < 0 ==> forall o, b | o in objects && b in order :: !Matches(o, id, b)
  {
    if order == [] then -1
    else
      var n := |order| - 1;
      var i := Find(objects, id, order[..n]);
      if i >= 0 then
        assert forall k | 0 <= k < n && FoundAt(objects, id, order[..n], i, k) :: FoundAt(objects, id, order, i, k);
        i
      else
        assert order == order[..n] + [order[n]];
        var j := FindIn(objects, id, order[n]);
        assert j >= 0 ==> FoundAt(objects, id, order, j, n);
        j
  }

  /** The object at `i` is the first match in the list `order[k]`, and no list before that one has a match. */
  predicate FoundAt(objects: seq<Object>, id: string, order: seq<Bucket>, i: nat, k: nat)
    requires i < |objects| && k < |order|
  {
    && Matches(objects[i], id, order[k])
    && (forall j | 0 <= j < i :: !Matches(objects[j], id, order[k]))
    && (forall o, l | o in objects && 0 <= l < k :: !Matches(o, id, order[l]))
  }

  /** The order in which appendObjectiveRefs searches the lists: all of them. */
  const LISTS := [HTTPEndpoints, HTTPCalls, DBResources, DBQueries, QueueConsumers, QueuePublishers, RPCEndpoints,
                  RPCCalls, CLICommands, Activations, CacheOperations, ConfigReads, FeatureFlags]

  lemma {:induction false} EveryList(b: Bucket)
    ensures b in LISTS
  {
    var at := match b
      case HTTPEndpoints => 0 case HTTPCalls => 1 case DBResources => 2 case DBQueries => 3 case QueueConsumers => 4
      case QueuePublishers => 5 case RPCEndpoints => 6 case RPCCalls => 7 case CLICommands => 8 case Activations => 9
      case CacheOperations => 10 case ConfigReads => 11 case FeatureFlags => 12;
    assert LISTS[at] == b;
  }

  /** The object appendObjectiveRefs extends. */
  function Pick(objects: seq<Object>, id: string): (i: int)
    ensures -1 <= i < |objects|
    ensures i >= 0 ==> objects[i].id == id
    ensures i < 0 ==> forall o | o in objects :: o.id != id
  {
    assert forall o | o in objects && o.id == id :: Matches(o, id, o.bucket) && o.bucket in LISTS by {
      forall o | o in objects && o.id == id ensures o.bucket in LISTS { EveryList(o.bucket); }
    }
    Find(objects, id, LISTS)
  }

  function MergeDuplicate(s: State, oid: string, e: Entity): State {
    var r := Record(s, oid, e, "deterministic");
    var i := Pick(s.objects, oid);
    if i < 0 then r.state else r.state.(objects := s.objects[i := AddRefs(s.objects[i], r.observations, r.evidence)])
  }

  function ResourceId(r: Resource): string { "db." + r.name }

  predicate HasResource(objects: seq<Object>, id: string) {
    exists o :: o in objects && o.bucket.DBResources? && o.id == id
  }

  function ResourceObject(e: Entity, observations: seq<string>, evidence: seq<string>): Object {
    Object(DBResources, ResourceId(e.resource), "db_resource", e.resource.title,
           Marks("confirmed", Confidence(e.confidence), "deterministic"), observations, evidence)
  }

  function EnsureResource(s: State, e: Entity): State {
    var id := ResourceId(e.resource);
    if e.resource.key in s.resources then s
    else if HasResource(s.objects, id) then s.(resources := s.resources[e.resource.key := id])
    else
      var r := Record(s.(resources := s.resources[e.resource.key := id]), id, e, "derived_db_resource");
      r.state.(objects := s.objects + [ResourceObject(e, r.observations, r.evidence)])
  }

  function EntityObject(item: Item, observations: seq<string>, evidence: seq<string>): Object {
    var e := item.entity;
    Object(BucketOf(item), e.oid.Text(), KindOf(item), e.name,
           Marks("confirmed", Confidence(e.confidence), OriginText(e.origin)), observations, evidence)
  }

  predicate NeedsResource(item: Item) {
    item.dependency && item.entity.typ == "db_operation"
  }

  /** addExposure and addDependency. */
  function AddItem(s: State, item: Item): State {
    var e := item.entity;
    var oid := e.oid.Text();
    if oid in s.known then MergeDuplicate(s.(oldToNew := s.oldToNew[e.id := oid]), oid, e)
    else
      var r := Record(s.(known := s.known + {oid}), oid, e, "deterministic");
      var named := r.state.(oldToNew := s.oldToNew[e.id := oid]);
      var ready := if NeedsResource(item) then EnsureResource(named, e) else named;
      ready.(objects := ready.objects + [EntityObject(item, r.observations, r.evidence)])
  }

  function AddItems(s: State, items: seq<Item>): State {
    if items == [] then s else AddItem(AddItems(s, items[..|items| - 1]), items[|items| - 1])
  }

  /** A lookup in oldToNew: empty when missing. */
  function Target(names: map<string, string>, id: string): string {
    if id in names then names[id] else ""
  }

  function NodeName(n: nat): string { "n" + Show(n) }

  function PathNodes(from: string, to: string, steps: nat): seq<Node> {
    [Node(NodeName(1), from, "entrypoint")]
      + seq(steps, i requires 0 <= i < steps => Node(NodeName(i + 2), "", "call"))
      + [Node(NodeName(steps + 2), to, "action")]
  }

  function PathEdges(path: seq<Reach>): seq<Edge> {
    seq(|path|, i requires 0 <= i < |path| => Edge(NodeName(i + 1), NodeName(i + 2), ReachText(path[i])))
      + [Edge(NodeName(|path| + 1), NodeName(|path| + 2), "must")]
  }

  function FlowId(slug: Slug, text: string): string { "flow." + slug(text) }

  function FlowOf(slug: Slug, from: string, to: string, c: Conn): Flow {
    var marks := Marks("confirmed", Confidence(c.confidence), "deterministic");
    var id := FlowId(slug, from + "." + to);
    if !c.hasPath then Flow(id, from, from, to, ReachText(c.reach), [], [], marks, [])
    else Flow(id, from, "", "", ReachText(c.reach), PathNodes(from, to, |c.path|), PathEdges(c.path), marks, [])
  }

  function AddFlow(s: State, slug: Slug, c: Conn): State {
    var from, to := Target(s.oldToNew, c.from), Target(s.oldToNew, c.to);
    if from == "" || to == "" then s
    else s.(flowedFrom := s.flowedFrom + {from}, flows := s.flows + [FlowOf(slug, from, to, c)])
  }

  function AddFlows(s: State, slug: Slug, cs: seq<Conn>): State {
    if cs == [] then s else AddFlow(AddFlows(s, slug, cs[..|cs| - 1]), slug, cs[|cs| - 1])
  }

  /** The lists of entry points, in the order in which evidenceRefsForObject searches them. */
  const ENTRY_LISTS := [HTTPEndpoints, QueueConsumers, CLICommands, Activations, RPCEndpoints]

  function EntryRefs(objects: seq<Object>, id: string): seq<string> {
    var i := Find(objects, id, ENTRY_LISTS);
    if i < 0 then [] else objects[i].evidenceRefs
  }

  function TraceOf(slug: Slug, from: string, e: Entity, refs: seq<string>): Flow {
    Flow(FlowId(slug, from + ".entrypoint"), from, "", "", "", [Node(NodeName(1), from, "entrypoint")], [],
         Marks("confirmed", Confidence(e.confidence), "deterministic"), refs)
  }

  function AddTrace(s: State, slug: Slug, e: Entity): State {
    var from := Target(s.oldToNew, e.id);
    if from == "" || from in s.flowedFrom then s
    else s.(flows := s.flows + [TraceOf(slug, from, e, EntryRefs(s.objects, from))])
  }

  function AddTraces(s: State, slug: Slug, es: seq<Entity>): State {
    if es == [] then s else AddTrace(AddTraces(s, slug, es[..|es| - 1]), slug, es[|es| - 1])
  }

  function AsExposure(e: Entity): Item { Item(e, false) }

  function AsDependency(e: Entity): Item { Item(e, true) }

  function Items(input: Input): seq<Item> {
    Map(AsExposure, input.exposures) + Map(AsDependency, input.dependencies)
  }

  function Built(slug: Slug, input: Input): State {
    AddTraces(AddFlows(AddItems(START, Items(input)), slug, input.connections), slug, input.exposures)
  }

  function FlowKey(f: Flow): string { f.id }

  /** buildProtocol up to its call of ValidateCanonical: the lists end up sorted by id. */
  function Build(slug: Slug, input: Input): Document {
    var s := Built(slug, input);
    Document(SCHEMA, input.serviceId, input.serviceName,
             Sort(s.objects, IdOf), Sort(s.observations, ObservationId), Sort(s.evidence, EvidenceId),
                 Sort(s.flows, FlowKey))
  }
}
