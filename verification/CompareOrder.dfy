/** The facts of a graph depend on what its lists hold, not on how they are ordered. */
module CompareOrder {
  import opened Compare
  import opened CompareLaws
  import opened Lists
  import opened Sorting
  import opened Wrappers

  // What a graph holds, with every unordered list as a multiset

  datatype TableView = TableView(name: string, kind: string, operations: multiset<Entity>)

  datatype ServiceView = ServiceView(
    name: string, known: bool, team: string, componentKind: string, componentType: string,
    entities: seq<multiset<Entity>>, connections: multiset<Connection>)

  /** The same resource without its tables, and its tables apart. */
  datatype ResourceView = ResourceView(head: Resource, tables: multiset<TableView>)

  datatype DatabaseView = DatabaseView(head: Database, tables: multiset<TableView>)

  datatype EdgeView = EdgeView(head: Edge, details: multiset<Entity>)

  function ViewTable(t: Table): TableView { TableView(t.name, t.kind, multiset(t.operations)) }

  function ViewTables(tables: seq<Table>): multiset<TableView> { multiset(Map(ViewTable, tables)) }

  function ViewService(s: Service): ServiceView {
    ServiceView(s.name, s.known, s.team, s.componentKind, s.componentType,
                [multiset(s.httpRoutes), multiset(s.rpcEndpoints), multiset(s.queueConsumers),
                    multiset(s.scheduledJobs),
                 multiset(s.webhooks), multiset(s.cliCommands), multiset(s.dependencies)],
                multiset(s.connections))
  }

  function ViewResource(r: Resource): ResourceView { ResourceView(r.(tables := []), ViewTables(r.tables)) }

  function ViewDatabase(d: Database): DatabaseView { DatabaseView(d.(tables := []), ViewTables(d.tables)) }

  function ViewEdge(e: Edge): EdgeView { EdgeView(e.(details := []), multiset(e.details)) }

  /** The graphs hold the same, in whatever order. */
  ghost predicate SameContent(g: Graph, h: Graph) {
    && multiset(Map(ViewService, g.services)) == multiset(Map(ViewService, h.services))
    && multiset(Map(ViewResource, g.resources)) == multiset(Map(ViewResource, h.resources))
    && multiset(g.queues) == multiset(h.queues)
    && multiset(Map(ViewDatabase, g.databases)) == multiset(Map(ViewDatabase, h.databases))
    && multiset(g.schedulers) == multiset(h.schedulers)
    && multiset(g.externals) == multiset(h.externals)
    && multiset(Map(ViewEdge, g.edges)) == multiset(Map(ViewEdge, h.edges))
  }

  lemma {:induction false} SortedCanonical(enc: Encoder, a: seq<Json>, b: seq<Json>)
    requires Injective(enc) && multiset(a) == multiset(b)
    ensures SortedValues(enc, a) == SortedValues(enc, b)
  {
    SortCanonical(a, b, enc);
  }

  lemma {:induction false} TableFactFollows(enc: Encoder, x: Table, y: Table)
    requires Injective(enc) && ViewTable(x) == ViewTable(y)
    ensures TableFact(enc)(x) == TableFact(enc)(y)
  {
    hide SortedValues, ObjectFact;
    MapMultiset(ObjectFact, x.operations, y.operations);
    SortedCanonical(enc, Map(ObjectFact, x.operations), Map(ObjectFact, y.operations));
  }

  lemma {:induction false} TableFactsFollow(enc: Encoder, a: seq<Table>, b: seq<Table>)
    requires Injective(enc) && ViewTables(a) == ViewTables(b)
    ensures TableFacts(enc, a) == TableFacts(enc, b)
  {
    hide SortedValues, Map;
    forall x, y | ViewTable(x) == ViewTable(y)
      ensures TableFact(enc)(x) == TableFact(enc)(y)
    {
      TableFactFollows(enc, x, y);
    }
    MapContent(ViewTable, TableFact(enc), a, b);
    SortedCanonical(enc, Map(TableFact(enc), a), Map(TableFact(enc), b));
  }

  lemma {:induction false} ResourcesFollow(enc: Encoder, a: seq<Resource>, b: seq<Resource>)
    requires Injective(enc) && multiset(Map(ViewResource, a)) == multiset(Map(ViewResource, b))
    ensures multiset(Map(ResourcePosting(enc), a)) == multiset(Map(ResourcePosting(enc), b))
  {
    hide TableFacts, Map, KeyOf, ViewTables;
    forall x, y | ViewResource(x) == ViewResource(y) ensures ResourcePosting(enc)(x) == ResourcePosting(enc)(y) {
      assert x.(tables := []) == y.(tables := []);
      TableFactsFollow(enc, x.tables, y.tables);
    }
    MapContent(ViewResource, ResourcePosting(enc), a, b);
  }

  lemma {:induction false} DatabasesFollow(enc: Encoder, a: seq<Database>, b: seq<Database>)
    requires Injective(enc) && multiset(Map(ViewDatabase, a)) == multiset(Map(ViewDatabase, b))
    ensures multiset(Map(DatabasePosting(enc), a)) == multiset(Map(DatabasePosting(enc), b))
  {
    hide TableFacts, Map, KeyOf, ViewTables;
    forall x, y | ViewDatabase(x) == ViewDatabase(y) ensures DatabasePosting(enc)(x) == DatabasePosting(enc)(y) {
      assert x.(tables := []) == y.(tables := []);
      TableFactsFollow(enc, x.tables, y.tables);
    }
    MapContent(ViewDatabase, DatabasePosting(enc), a, b);
  }

  lemma {:induction false} EdgesFollow(enc: Encoder, a: seq<Edge>, b: seq<Edge>)
    requires Injective(enc) && multiset(Map(ViewEdge, a)) == multiset(Map(ViewEdge, b))
    ensures multiset(Map(EdgePosting(enc), a)) == multiset(Map(EdgePosting(enc), b))
  {
    hide SortedValues, Map, KeyOf, ObjectFact;
    forall x, y | ViewEdge(x) == ViewEdge(y) ensures EdgePosting(enc)(x) == EdgePosting(enc)(y) {
      assert x.(details := []) == y.(details := []);
      MapMultiset(ObjectFact, x.details, y.details);
      SortedCanonical(enc, Map(ObjectFact, x.details), Map(ObjectFact, y.details));
    }
    MapContent(ViewEdge, EdgePosting(enc), a, b);
  }

  lemma {:induction false} ServiceFollows(enc: Encoder, x: Service, y: Service)
    requires ViewService(x) == ViewService(y)
    ensures multiset(ServicePostings(enc)(x)) == multiset(ServicePostings(enc)(y))
  {
    hide Map, KeyOf, ServiceValue, EntityPosting, FlowPosting;
    var a, b := ViewService(x).entities, ViewService(y).entities;
    assert forall i | 0 <= i < 7 :: a[i] == b[i];
    var n := x.name;
    assert x.name == y.name;
    MapMultiset(EntityPosting(enc, n, "http_route"), x.httpRoutes, y.httpRoutes);
    MapMultiset(EntityPosting(enc, n, "rpc_endpoint"), x.rpcEndpoints, y.rpcEndpoints);
    MapMultiset(EntityPosting(enc, n, "queue_consumer"), x.queueConsumers, y.queueConsumers);
    MapMultiset(EntityPosting(enc, n, "scheduled_job"), x.scheduledJobs, y.scheduledJobs);
    MapMultiset(EntityPosting(enc, n, "webhook"), x.webhooks, y.webhooks);
    MapMultiset(EntityPosting(enc, n, "cli_command"), x.cliCommands, y.cliCommands);
    MapMultiset(EntityPosting(enc, n, "dependency"), x.dependencies, y.dependencies);
    MapMultiset(FlowPosting(enc, n), x.connections, y.connections);
    SameServiceValue(x, y);
  }

  lemma {:induction false} SameServiceValue(x: Service, y: Service)
    requires ViewService(x) == ViewService(y)
    ensures ServiceValue(x) == ServiceValue(y)
  {}

  lemma {:induction false} ServicesFollow(enc: Encoder, a: seq<Service>, b: seq<Service>)
    requires multiset(Map(ViewService, a)) == multiset(Map(ViewService, b))
    ensures multiset(Flat(ServicePostings(enc), a)) == multiset(Flat(ServicePostings(enc), b))
  {
    hide Map, Flat, ServicePostings, ViewService;
    forall x, y | ViewService(x) == ViewService(y)
      ensures multiset(ServicePostings(enc)(x)) == multiset(ServicePostings(enc)(y))
    {
      ServiceFollows(enc, x, y);
    }
    FlatContent(ViewService, ServicePostings(enc), a, b);
  }

  /** Graphs of the same content make the same postings. */
  lemma {:induction false} PostingsFollow(enc: Encoder, g: Graph, h: Graph)
    requires Injective(enc) && SameContent(g, h)
    ensures multiset(Postings(enc, g)) == multiset(Postings(enc, h))
  {
    hide Map, Flat, ServicePostings, ResourcePosting, QueuePosting, DatabasePosting, SchedulerPosting, ExternalPosting,
        EdgePosting, Injective;
    ServicesFollow(enc, g.services, h.services);
    ResourcesFollow(enc, g.resources, h.resources);
    MapMultiset(QueuePosting(enc), g.queues, h.queues);
    DatabasesFollow(enc, g.databases, h.databases);
    MapMultiset(SchedulerPosting(enc), g.schedulers, h.schedulers);
    MapMultiset(ExternalPosting(enc), g.externals, h.externals);
    EdgesFollow(enc, g.edges, h.edges);
  }

  lemma {:induction false} SmallMultiset<T>(a: seq<T>, b: seq<T>)
    requires multiset(a) == multiset(b) && |a| <= 1
    ensures a == b
  {
    assert |a| == |multiset(a)| == |multiset(b)| == |b|;
    if a != [] {
      assert a[0] in multiset(b);
    }
  }

  lemma {:induction false} CleanFollows(p: seq<Posting>, q: seq<Posting>)
    requires multiset(p) == multiset(q) && Clean(p)
    ensures Clean(q)
  {
    hide Flat, UniqueOf, LegacyOf;
    forall x | x in q ensures |Uniques(q, x.id)| <= 1 && |Legacies(q, x.id)| <= 1 {
      SameMembers(p, q, x);
      FlatMultiset(UniqueOf(x.id), p, q);
      FlatMultiset(LegacyOf(x.id), p, q);
      SameLength(Uniques(p, x.id), Uniques(q, x.id));
      SameLength(Legacies(p, x.id), Legacies(q, x.id));
    }
  }

  /** Postings in another order make the same facts, or fail alike. */
  lemma {:induction false} FactsFollow(enc: Encoder, p: seq<Posting>, q: seq<Posting>)
    requires Injective(enc) && multiset(p) == multiset(q)
    ensures FactsOf(enc, p) == FactsOf(enc, q)
  {
    hide Clean, FactMap, Injective;
    if Clean(p) {
      CleanFollows(p, q);
      CleanFactsFollow(enc, p, q);
    } else if Clean(q) {
      CleanFollows(q, p);
    }
  }

  lemma {:induction false} CleanFactsFollow(enc: Encoder, p: seq<Posting>, q: seq<Posting>)
    requires Injective(enc) && multiset(p) == multiset(q) && Clean(p)
    ensures FactMap(enc, p) == FactMap(enc, q)
  {
    hide FactAt, Injective, Uniques, Legacies;
    forall x ensures x in p <==> x in q { SameMembers(p, q, x); }
    forall x | x in p ensures FactAt(enc, p, x.id) == FactAt(enc, q, x.id) { FactAtFollows(enc, p, q, x.id); }
    var f, g := FactMap(enc, p), FactMap(enc, q);
    forall id ensures id in f <==> id in g {
      if x :| x in p && x.id == id { assert x in q; }
      if x :| x in q && x.id == id { assert x in p; }
    }
    assert f == g;
  }

  lemma {:induction false} SameLength<T>(a: seq<T>, b: seq<T>)
    requires multiset(a) == multiset(b)
    ensures |a| == |b|
  {
    assert |a| == |multiset(a)| == |multiset(b)| == |b|;
  }

  lemma {:induction false} FactAtFollows(enc: Encoder, p: seq<Posting>, q: seq<Posting>, id: FactId)
    requires Injective(enc) && multiset(p) == multiset(q) && |Uniques(p, id)| <= 1 && |Legacies(p, id)| <= 1
    ensures FactAt(enc, p, id) == FactAt(enc, q, id)
  {
    hide Flat, UniqueOf, LegacyOf, OccurOf, SortedValues, Injective;
    FlatMultiset(UniqueOf(id), p, q);
    FlatMultiset(LegacyOf(id), p, q);
    FlatMultiset(OccurOf(id), p, q);
    SmallMultiset(Uniques(p, id), Uniques(q, id));
    SmallMultiset(Legacies(p, id), Legacies(q, id));
    SortedCanonical(enc, Occurs(p, id), Occurs(q, id));
  }

  /**
    Reordering services, entities, connections, resources, tables, operations, externals, edges or edge details
    changes nothing.
   */
  lemma {:induction false} CompareIgnoresOrder(enc: Encoder, before: Graph, after: Graph, before2: Graph, after2: Graph)
    requires Injective(enc) && SameContent(before, before2) && SameContent(after, after2)
    ensures CompareGraphs(enc, before, after) == CompareGraphs(enc, before2, after2)
  {
    hide Postings, FactsOf, CompareFacts, SameContent, Injective;
    PostingsFollow(enc, before, before2);
    PostingsFollow(enc, after, after2);
    FactsFollow(enc, Postings(enc, before), Postings(enc, before2));
    FactsFollow(enc, Postings(enc, after), Postings(enc, after2));
  }
}
