/**
  Comparison of two architecture graphs, internal/workspace/archgraph/compare.go.

  A graph is read as a sequence of postings, one for each call of `add`, each legacy resource and each
  occurrence the source collects.  The JSON encoder is a parameter.
 */
module Compare {
  import opened Lists
  import opened Sorting
  import opened Wrappers

  /** A number is kept as it is printed. */
  datatype Json =
    | Null
    | Flag(b: bool)
    | Number(text: string)
    | Str(s: string)
    | Arr(items: seq<Json>)
    | Obj(fields: map<string, Json>)

  type Encoder = Json -> string

  ghost predicate Injective(enc: Encoder) {
    forall x, y | enc(x) == enc(y) :: x == y
  }

  type Value = map<string, Json>

  datatype Kind = ServiceFact | ObjectKind | FlowKind | ResourceKind | ExternalKind | RelationshipKind {
    function Name(): string {
      match this
      case ServiceFact => "service" case ObjectKind => "object" case FlowKind => "flow"
      case ResourceKind => "resource" case ExternalKind => "external" case RelationshipKind => "relationship"
    }
  }

  datatype FactId = FactId(kind: Kind, key: string) {
    function Text(): string { kind.Name() + ":" + key }
  }

  function IdText(id: FactId): string { id.Text() }

  type Facts = map<FactId, Value>

  // Graphs

  datatype Entity = Entity(kind: string, name: string, summary: string, details: Json)

  datatype Table = Table(name: string, kind: string, operations: seq<Entity>)

  /** `content` stands for what a connection's flow is made of, which is compared as it is. */
  datatype Connection = Connection(fromName: string, toName: string, fromId: string, toId: string, fromType: string,
      toType: string, content: Json)

  datatype Service = Service(
    name: string, known: bool, team: string, componentKind: string, componentType: string,
    httpRoutes: seq<Entity>, rpcEndpoints: seq<Entity>, queueConsumers: seq<Entity>, scheduledJobs: seq<Entity>,
    webhooks: seq<Entity>, cliCommands: seq<Entity>, dependencies: seq<Entity>, connections: seq<Connection>)

  datatype Resource = Resource(
    graphId: string, name: string, kind: string, platform: string, ownerService: string, ownerTeam: string,
        details: Json, tables: seq<Table>)

  datatype Queue = Queue(id: string, name: string, kind: string, fifo: bool)

  datatype Database = Database(id: string, name: string, kind: string, host: string, tables: seq<Table>)

  datatype Scheduler = Scheduler(id: string, name: string, service: string, schedule: string, profile: string)

  datatype External = External(name: string, kind: string)

  datatype Edge = Edge(from: string, to: string, typ: string, name: string, confidence: Json, details: seq<Entity>)

  datatype Graph = Graph(
    services: seq<Service>, resources: seq<Resource>, queues: seq<Queue>, databases: seq<Database>,
    schedulers: seq<Scheduler>, externals: seq<External>, edges: seq<Edge>)

  // Postings

  /**
    `Unique` is a call of add, `Legacy` one of legacy, `Occur` one more occurrence of an object, a flow or a
    relationship.
   */
  datatype Posting = Unique(id: FactId, value: Value) | Legacy(id: FactId, value: Value) | Occur(id: FactId,
      occurrence: Json)

  function MakeStr(s: string): Json { Str(s) }

  function KeyOf(enc: Encoder, parts: seq<string>): string { enc(Arr(Map(MakeStr, parts))) }

  /** sortedValues. */
  function SortedValues(enc: Encoder, values: seq<Json>): Json { Arr(Sort(values, enc)) }

  function ObjectFact(item: Entity): Json {
    Obj(map["kind" := Str(item.kind), "name" := Str(item.name), "summary" := Str(item.summary),
        "details" := item.details])
  }

  function TableFact(enc: Encoder): Table -> Json {
    (t: Table) => Obj(map["name" := Str(t.name), "kind" := Str(t.kind),
        "operations" := SortedValues(enc, Map(ObjectFact, t.operations))])
  }

  function TableFacts(enc: Encoder, tables: seq<Table>): Json { SortedValues(enc, Map(TableFact(enc), tables)) }

  function EntityPosting(enc: Encoder, service: string, category: string): Entity -> Posting {
    (e: Entity) => Occur(FactId(ObjectKind, KeyOf(enc, [service, category, e.kind, e.name])), ObjectFact(e))
  }

  /** The names of the ends are preferred to their ids. */
  function FlowPosting(enc: Encoder, service: string): Connection -> Posting {
    (c: Connection) =>
      var from := if c.fromName == "" then c.fromId else c.fromName;
      var to := if c.toName == "" then c.toId else c.toName;
      Occur(FactId(FlowKind, KeyOf(enc, [service, from, to, c.fromType, c.toType])), c.content)
  }

  function ServiceValue(s: Service): Value {
    map["name" := Str(s.name), "known" := Flag(s.known), "team" := Str(s.team),
        "component_kind" := Str(s.componentKind), "component_type" := Str(s.componentType)]
  }

  function ServicePostings(enc: Encoder): Service -> seq<Posting> {
    (s: Service) =>
      [Unique(FactId(ServiceFact, KeyOf(enc, [s.name])), ServiceValue(s))]
      + Map(EntityPosting(enc, s.name, "http_route"), s.httpRoutes)
      + Map(EntityPosting(enc, s.name, "rpc_endpoint"), s.rpcEndpoints)
      + Map(EntityPosting(enc, s.name, "queue_consumer"), s.queueConsumers)
      + Map(EntityPosting(enc, s.name, "scheduled_job"), s.scheduledJobs)
      + Map(EntityPosting(enc, s.name, "webhook"), s.webhooks)
      + Map(EntityPosting(enc, s.name, "cli_command"), s.cliCommands)
      + Map(EntityPosting(enc, s.name, "dependency"), s.dependencies)
      + Map(FlowPosting(enc, s.name), s.connections)
  }

  function ResourcePosting(enc: Encoder): Resource -> Posting {
    (r: Resource) =>
      Unique(FactId(ResourceKind, KeyOf(enc, [r.graphId])),
             map["name" := Str(r.name), "kind" := Str(r.kind), "platform" := Str(r.platform),
                 "owner_service" := Str(r.ownerService),
                 "owner_team" := Str(r.ownerTeam), "details" := r.details, "tables" := TableFacts(enc, r.tables)])
  }

  function QueuePosting(enc: Encoder): Queue -> Posting {
    (q: Queue) =>
      Legacy(FactId(ResourceKind, KeyOf(enc, ["queue:" + q.id])),
          map["name" := Str(q.name), "kind" := Str(q.kind), "fifo" := Flag(q.fifo)])
  }

  function DatabasePosting(enc: Encoder): Database -> Posting {
    (d: Database) =>
      Legacy(FactId(ResourceKind, KeyOf(enc, ["db:" + d.id])),
             map["name" := Str(d.name), "kind" := Str(d.kind), "host" := Str(d.host),
                 "tables" := TableFacts(enc, d.tables)])
  }

  function SchedulerPosting(enc: Encoder): Scheduler -> Posting {
    (s: Scheduler) =>
      Legacy(FactId(ResourceKind, KeyOf(enc, ["sched:" + s.id])),
             map["name" := Str(s.name), "service" := Str(s.service), "schedule" := Str(s.schedule),
                 "profile" := Str(s.profile)])
  }

  function ExternalPosting(enc: Encoder): External -> Posting {
    (e: External) => Unique(FactId(ExternalKind, KeyOf(enc, [e.name])),
        map["name" := Str(e.name), "kind" := Str(e.kind)])
  }

  function EdgePosting(enc: Encoder): Edge -> Posting {
    (e: Edge) =>
      Occur(FactId(RelationshipKind, KeyOf(enc, [e.from, e.to, e.typ])),
            Obj(map["label" := Str(e.name), "confidence" := e.confidence,
                "details" := SortedValues(enc, Map(ObjectFact, e.details))]))
  }

  /** Everything comparisonFacts posts, in its order. */
  function Postings(enc: Encoder, g: Graph): seq<Posting> {
    Flat(ServicePostings(enc), g.services)
    + Map(ResourcePosting(enc), g.resources)
    + Map(QueuePosting(enc), g.queues) + Map(DatabasePosting(enc), g.databases)
        + Map(SchedulerPosting(enc), g.schedulers)
    + Map(ExternalPosting(enc), g.externals)
    + Map(EdgePosting(enc), g.edges)
  }

  // Facts

  function UniqueOf(id: FactId): Posting -> seq<Value> { (p: Posting) => if p.Unique? && p.id == id then [p.value]
      else [] }

  function LegacyOf(id: FactId): Posting -> seq<Value> { (p: Posting) => if p.Legacy? && p.id == id then [p.value]
      else [] }

  function OccurOf(id: FactId): Posting -> seq<Json> { (p: Posting) => if p.Occur? && p.id == id then [p.occurrence]
      else [] }

  function Uniques(ps: seq<Posting>, id: FactId): seq<Value> { Flat(UniqueOf(id), ps) }

  function Legacies(ps: seq<Posting>, id: FactId): seq<Value> { Flat(LegacyOf(id), ps) }

  function Occurs(ps: seq<Posting>, id: FactId): seq<Json> { Flat(OccurOf(id), ps) }

  function Occurrences(enc: Encoder, values: seq<Json>): Value {
    map["occurrences" := SortedValues(enc, values)]
  }

  /** A posted resource hides a legacy one of the same id. */
  function FactAt(enc: Encoder, ps: seq<Posting>, id: FactId): Value {
    if Uniques(ps, id) != [] then Uniques(ps, id)[0]
    else if Legacies(ps, id) != [] then Legacies(ps, id)[0]
    else Occurrences(enc, Occurs(ps, id))
  }

  /** No identity is added twice. */
  ghost predicate Clean(ps: seq<Posting>) {
    forall p | p in ps :: |Uniques(ps, p.id)| <= 1 && |Legacies(ps, p.id)| <= 1
  }

  function FactMap(enc: Encoder, ps: seq<Posting>): Facts {
    map p | p in ps :: p.id := FactAt(enc, ps, p.id)
  }

  ghost function FactsOf(enc: Encoder, ps: seq<Posting>): Option<Facts> {
    if Clean(ps) then Some(FactMap(enc, ps)) else None
  }

  /** comparisonFacts. */
  ghost function GraphFacts(enc: Encoder, g: Graph): Option<Facts> {
    FactsOf(enc, Postings(enc, g))
  }

  // Changes

  datatype Change =
    | Added(id: FactId, after: Value)
    | Removed(id: FactId, before: Value)
    | Modified(id: FactId, fields: seq<string>, before: Value, after: Value)

  /** A missing field reads as null. */
  function Field(v: Value, f: string): Json {
    if f in v then v[f] else Null
  }

  predicate Differs(enc: Encoder, a: Value, b: Value, f: string) {
    enc(Field(a, f)) != enc(Field(b, f))
  }

  function Itself(s: string): string { s }

  ghost function Listing<T(!new)>(s: set<T>, key: T -> string): seq<T> {
    if s == {} then []
    else
      var x :| x in s;
      Insert(Listing(s - {x}, key), x, key)
  }

  /** changedFields. */
  ghost function ChangedFields(enc: Encoder, a: Value, b: Value): seq<string> {
    Listing((set f | f in a.Keys + b.Keys && Differs(enc, a, b, f)), Itself)
  }

  ghost function ChangeAt(enc: Encoder, a: Facts, b: Facts, id: FactId): seq<Change> {
    if id !in a then (if id in b then [Added(id, b[id])] else [])
    else if id !in b then [Removed(id, a[id])]
    else
      var fields := ChangedFields(enc, a[id], b[id]);
      if fields == [] then [] else [Modified(id, fields, a[id], b[id])]
  }

  ghost function Changes(enc: Encoder, a: Facts, b: Facts, ids: seq<FactId>): seq<Change> {
    if ids == [] then [] else Changes(enc, a, b, ids[..|ids| - 1]) + ChangeAt(enc, a, b, ids[|ids| - 1])
  }

  ghost function CompareFacts(enc: Encoder, a: Facts, b: Facts): seq<Change> {
    Changes(enc, a, b, Listing(a.Keys + b.Keys, IdText))
  }

  /** Compare: None is the error of a repeated identity. */
  ghost function CompareGraphs(enc: Encoder, before: Graph, after: Graph): Option<seq<Change>> {
    match (GraphFacts(enc, before), GraphFacts(enc, after))
    case (Some(a), Some(b)) => Some(CompareFacts(enc, a, b))
    case _ => None
  }
}
