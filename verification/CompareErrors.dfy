/** When a graph cannot be compared. */
module CompareErrors {
  import opened Compare
  import opened CompareLaws
  import opened CompareOrder
  import opened Lists
  import opened Sorting
  import opened Wrappers

  /** Two occurrence lists compare equal exactly if they hold the same occurrences, each the same number of times. */
  lemma {:induction false} OccurrencesAgreeIff(enc: Encoder, a: seq<Json>, b: seq<Json>)
    requires Injective(enc)
    ensures Agree(Occurrences(enc, a), Occurrences(enc, b)) <==> multiset(a) == multiset(b)
  {
    SortMultiset(a, enc);
    SortMultiset(b, enc);
    if multiset(a) == multiset(b) {
      SortCanonical(a, b, enc);
    }
    if Agree(Occurrences(enc, a), Occurrences(enc, b)) {
      assert Field(Occurrences(enc, a), "occurrences") == Field(Occurrences(enc, b), "occurrences");
      assert Arr(Sort(a, enc)) == Arr(Sort(b, enc));
    }
  }

  function ServiceId(enc: Encoder): Service -> FactId { (s: Service) => FactId(ServiceFact, KeyOf(enc, [s.name])) }

  function ResourceIdOf(enc: Encoder): Resource -> FactId { (r: Resource) => FactId(ResourceKind,
      KeyOf(enc, [r.graphId])) }

  function ExternalId(enc: Encoder): External -> FactId { (e: External) => FactId(ExternalKind, KeyOf(enc, [e.name])) }

  function QueueId(enc: Encoder): Queue -> FactId { (q: Queue) => FactId(ResourceKind, KeyOf(enc, ["queue:" + q.id])) }

  function DatabaseId(enc: Encoder): Database -> FactId { (d: Database) => FactId(ResourceKind,
      KeyOf(enc, ["db:" + d.id])) }

  function SchedulerId(enc: Encoder): Scheduler -> FactId { (s: Scheduler) => FactId(ResourceKind,
      KeyOf(enc, ["sched:" + s.id])) }

  function ServiceName(s: Service): string { s.name }

  function GraphIdOf(r: Resource): string { r.graphId }

  function ExternalName(e: External): string { e.name }

  function QueueName(q: Queue): string { q.id }

  function DatabaseName(d: Database): string { d.id }

  function SchedulerName(s: Scheduler): string { s.id }

  /** No two services, resources, queues, databases, schedulers or externals share their identity. */
  ghost predicate Identified(g: Graph) {
    && Distinct(Map(ServiceName, g.services)) && Distinct(Map(GraphIdOf, g.resources))
        && Distinct(Map(ExternalName, g.externals))
    && Distinct(Map(QueueName, g.queues)) && Distinct(Map(DatabaseName, g.databases))
        && Distinct(Map(SchedulerName, g.schedulers))
  }

  // Counting postings

  lemma {:induction false} CountUniques<T>(f: T -> Posting, name: T -> FactId, xs: seq<T>, id: FactId)
    requires forall x | x in xs :: f(x).Unique? && f(x).id == name(x)
    ensures |Uniques(Map(f, xs), id)| == multiset(Map(name, xs))[id] && Legacies(Map(f, xs), id) == []
  {
    if xs != [] {
      var n := |xs| - 1;
      assert xs == xs[..n] + [xs[n]];
      CountUniques(f, name, xs[..n], id);
      assert Map(f, xs) == Map(f, xs[..n]) + [f(xs[n])];
      assert Map(name, xs) == Map(name, xs[..n]) + [name(xs[n])];
      FlatSum(UniqueOf(id), Map(f, xs[..n]), [f(xs[n])]);
      FlatSum(LegacyOf(id), Map(f, xs[..n]), [f(xs[n])]);
      FlatOne(UniqueOf(id), f(xs[n]));
      FlatOne(LegacyOf(id), f(xs[n]));
    }
  }

  lemma {:induction false} CountLegacies<T>(f: T -> Posting, name: T -> FactId, xs: seq<T>, id: FactId)
    requires forall x | x in xs :: f(x).Legacy? && f(x).id == name(x)
    ensures |Legacies(Map(f, xs), id)| == multiset(Map(name, xs))[id] && Uniques(Map(f, xs), id) == []
  {
    if xs != [] {
      var n := |xs| - 1;
      assert xs == xs[..n] + [xs[n]];
      CountLegacies(f, name, xs[..n], id);
      assert Map(f, xs) == Map(f, xs[..n]) + [f(xs[n])];
      assert Map(name, xs) == Map(name, xs[..n]) + [name(xs[n])];
      FlatSum(UniqueOf(id), Map(f, xs[..n]), [f(xs[n])]);
      FlatSum(LegacyOf(id), Map(f, xs[..n]), [f(xs[n])]);
      FlatOne(UniqueOf(id), f(xs[n]));
      FlatOne(LegacyOf(id), f(xs[n]));
    }
  }

  lemma {:induction false} NoCount<T>(f: T -> Posting, xs: seq<T>, id: FactId)
    requires forall x | x in xs :: f(x).Occur?
    ensures Uniques(Map(f, xs), id) == [] && Legacies(Map(f, xs), id) == []
  {
    if xs != [] {
      var n := |xs| - 1;
      assert xs == xs[..n] + [xs[n]];
      NoCount(f, xs[..n], id);
      assert Map(f, xs) == Map(f, xs[..n]) + [f(xs[n])];
      FlatSum(UniqueOf(id), Map(f, xs[..n]), [f(xs[n])]);
      FlatSum(LegacyOf(id), Map(f, xs[..n]), [f(xs[n])]);
      FlatOne(UniqueOf(id), f(xs[n]));
      FlatOne(LegacyOf(id), f(xs[n]));
    }
  }

  lemma {:induction false} CountSum(a: seq<Posting>, b: seq<Posting>, id: FactId)
    ensures Uniques(a + b, id) == Uniques(a, id) + Uniques(b, id)
        && Legacies(a + b, id) == Legacies(a, id) + Legacies(b, id)
  {
    FlatSum(UniqueOf(id), a, b);
    FlatSum(LegacyOf(id), a, b);
  }

  /** The postings of one service: one unique, then occurrences only. */
  lemma {:induction false} CountService(enc: Encoder, s: Service, id: FactId)
    ensures |Uniques(ServicePostings(enc)(s), id)| == (if ServiceId(enc)(s) == id then 1 else 0)
        && Legacies(ServicePostings(enc)(s), id) == []
  {
    hide Uniques, Legacies, KeyOf, Map, ServiceValue;
    var p := [Unique(FactId(ServiceFact, KeyOf(enc, [s.name])), ServiceValue(s))];
    var a := Map(EntityPosting(enc, s.name, "http_route"), s.httpRoutes);
    var b := Map(EntityPosting(enc, s.name, "rpc_endpoint"), s.rpcEndpoints);
    var c := Map(EntityPosting(enc, s.name, "queue_consumer"), s.queueConsumers);
    var d := Map(EntityPosting(enc, s.name, "scheduled_job"), s.scheduledJobs);
    var e := Map(EntityPosting(enc, s.name, "webhook"), s.webhooks);
    var f := Map(EntityPosting(enc, s.name, "cli_command"), s.cliCommands);
    var g := Map(EntityPosting(enc, s.name, "dependency"), s.dependencies);
    var h := Map(FlowPosting(enc, s.name), s.connections);
    CountHead(p[0], id);
    NoCount(EntityPosting(enc, s.name, "http_route"), s.httpRoutes, id);
    NoCount(EntityPosting(enc, s.name, "rpc_endpoint"), s.rpcEndpoints, id);
    NoCount(EntityPosting(enc, s.name, "queue_consumer"), s.queueConsumers, id);
    NoCount(EntityPosting(enc, s.name, "scheduled_job"), s.scheduledJobs, id);
    NoCount(EntityPosting(enc, s.name, "webhook"), s.webhooks, id);
    NoCount(EntityPosting(enc, s.name, "cli_command"), s.cliCommands, id);
    NoCount(EntityPosting(enc, s.name, "dependency"), s.dependencies, id);
    NoCount(FlowPosting(enc, s.name), s.connections, id);
    CountSum(p, a, id);
    CountSum(p + a, b, id);
    CountSum(p + a + b, c, id);
    CountSum(p + a + b + c, d, id);
    CountSum(p + a + b + c + d, e, id);
    CountSum(p + a + b + c + d + e, f, id);
    CountSum(p + a + b + c + d + e + f, g, id);
    CountSum(p + a + b + c + d + e + f + g, h, id);
  }

  lemma {:induction false} CountHead(p: Posting, id: FactId)
    requires p.Unique?
    ensures |Uniques([p], id)| == (if p.id == id then 1 else 0) && Legacies([p], id) == []
  {
    FlatOne(UniqueOf(id), p);
    FlatOne(LegacyOf(id), p);
  }

  lemma {:induction false} CountServices(enc: Encoder, ss: seq<Service>, id: FactId)
    ensures |Uniques(Flat(ServicePostings(enc), ss), id)| == multiset(Map(ServiceId(enc), ss))[id]
    ensures Legacies(Flat(ServicePostings(enc), ss), id) == []
  {
    hide ServicePostings, KeyOf;
    if ss == [] {
      assert Uniques([], id) == [] && Legacies([], id) == [];
    } else {
      var n := |ss| - 1;
      assert ss == ss[..n] + [ss[n]];
      CountServices(enc, ss[..n], id);
      CountService(enc, ss[n], id);
      CountSum(Flat(ServicePostings(enc), ss[..n]), ServicePostings(enc)(ss[n]), id);
      assert Map(ServiceId(enc), ss) == Map(ServiceId(enc), ss[..n]) + [ServiceId(enc)(ss[n])];
    }
  }

  lemma {:induction false} CountPostings(enc: Encoder, g: Graph, id: FactId)
    ensures |Uniques(Postings(enc, g), id)|
      == multiset(Map(ServiceId(enc), g.services))[id] + multiset(Map(ResourceIdOf(enc), g.resources))[id]
          + multiset(Map(ExternalId(enc), g.externals))[id]
    ensures |Legacies(Postings(enc, g), id)|
      == multiset(Map(QueueId(enc), g.queues))[id] + multiset(Map(DatabaseId(enc), g.databases))[id]
          + multiset(Map(SchedulerId(enc), g.schedulers))[id]
  {
    hide Uniques, Legacies, KeyOf, Map, Flat, TableFacts, SortedValues;
    var a, b := Flat(ServicePostings(enc), g.services), Map(ResourcePosting(enc), g.resources);
    var c, d, e := Map(QueuePosting(enc), g.queues), Map(DatabasePosting(enc), g.databases),
        Map(SchedulerPosting(enc), g.schedulers);
    var f, h := Map(ExternalPosting(enc), g.externals), Map(EdgePosting(enc), g.edges);
    CountServices(enc, g.services, id);
    CountUniques(ResourcePosting(enc), ResourceIdOf(enc), g.resources, id);
    CountLegacies(QueuePosting(enc), QueueId(enc), g.queues, id);
    CountLegacies(DatabasePosting(enc), DatabaseId(enc), g.databases, id);
    CountLegacies(SchedulerPosting(enc), SchedulerId(enc), g.schedulers, id);
    CountUniques(ExternalPosting(enc), ExternalId(enc), g.externals, id);
    NoCount(EdgePosting(enc), g.edges, id);
    CountSum(a, b, id);
    CountSum(a + b, c, id);
    CountSum(a + b + c, d, id);
    CountSum(a + b + c + d, e, id);
    CountSum(a + b + c + d + e, f, id);
    CountSum(a + b + c + d + e + f, h, id);
  }

  /** No id is counted twice exactly if the names differ. */
  ghost predicate Once<T>(name: T -> FactId, xs: seq<T>) {
    forall id :: multiset(Map(name, xs))[id] <= 1
  }

  lemma {:induction false} OnceIff<T>(name: T -> FactId, text: T -> string, xs: seq<T>)
    requires forall x, y | x in xs && y in xs :: name(x) == name(y) <==> text(x) == text(y)
    ensures Once(name, xs) <==> Distinct(Map(text, xs))
  {
    var ids, texts := Map(name, xs), Map(text, xs);
    assert forall i | 0 <= i < |xs| :: xs[i] in xs;
    if Distinct(texts) {
      forall i, j | 0 <= i < j < |ids| ensures ids[i] != ids[j] { assert texts[i] != texts[j]; }
      forall id ensures multiset(ids)[id] <= 1 { DistinctCount(ids, id); }
    } else {
      var i, j :| 0 <= i < j < |texts| && texts[i] == texts[j];
      assert ids[i] == ids[j];
      CountedTwice(ids, i, j);
    }
  }

  lemma {:induction false} KeyInjective(enc: Encoder, a: string, b: string)
    requires Injective(enc)
    ensures KeyOf(enc, [a]) == KeyOf(enc, [b]) <==> a == b
  {
    if KeyOf(enc, [a]) == KeyOf(enc, [b]) {
      assert Map(MakeStr, [a])[0] == Str(a) && Map(MakeStr, [b])[0] == Str(b);
    }
  }

  lemma {:induction false} PrefixInjective(p: string, a: string, b: string)
    ensures p + a == p + b <==> a == b
  {
    assert (p + a)[|p|..] == a && (p + b)[|p|..] == b;
  }

  lemma {:induction false} OnceAll(enc: Encoder, g: Graph)
    requires Injective(enc)
    ensures Identified(g) <==>
      && Once(ServiceId(enc), g.services) && Once(ResourceIdOf(enc), g.resources) && Once(ExternalId(enc), g.externals)
      && Once(QueueId(enc), g.queues) && Once(DatabaseId(enc), g.databases) && Once(SchedulerId(enc), g.schedulers)
  {
    hide Distinct, Once, KeyOf, Injective;
    forall a: string, b: string ensures KeyOf(enc, [a]) == KeyOf(enc, [b]) <==> a == b { KeyInjective(enc, a, b); }
    forall p: string, a: string, b: string ensures p + a == p + b <==> a == b { PrefixInjective(p, a, b); }
    OnceIff(ServiceId(enc), ServiceName, g.services);
    OnceIff(ResourceIdOf(enc), GraphIdOf, g.resources);
    OnceIff(ExternalId(enc), ExternalName, g.externals);
    OnceIff(QueueId(enc), QueueName, g.queues);
    OnceIff(DatabaseId(enc), DatabaseName, g.databases);
    OnceIff(SchedulerId(enc), SchedulerName, g.schedulers);
  }

  lemma {:induction false} KindOnly<T>(name: T -> FactId, xs: seq<T>, kind: Kind, id: FactId)
    requires (forall x :: name(x).kind == kind) && id.kind != kind
    ensures multiset(Map(name, xs))[id] == 0
  {
    var ids := Map(name, xs);
    assert forall i | 0 <= i < |ids| :: ids[i].kind == kind;
    assert id !in ids;
  }

  lemma {:induction false} CountedThere<T>(name: T -> FactId, xs: seq<T>, id: FactId) returns (i: nat)
    requires multiset(Map(name, xs))[id] > 0
    ensures i < |xs| && name(xs[i]) == id
  {
    var ids := Map(name, xs);
    assert id in ids;
    i :| 0 <= i < |ids| && ids[i] == id;
  }

  /** The prefixes of the legacy ids keep the three lists apart. */
  lemma {:induction false} LegacyApart(enc: Encoder, g: Graph, id: FactId)
    requires Injective(enc)
    ensures var q, d, s := multiset(Map(QueueId(enc), g.queues))[id], multiset(Map(DatabaseId(enc), g.databases))[id],
        multiset(Map(SchedulerId(enc), g.schedulers))[id];
            (q == 0 || d == 0) && (q == 0 || s == 0) && (d == 0 || s == 0)
  {
    hide KeyOf, Injective, Map;
    var q, d, s := multiset(Map(QueueId(enc), g.queues))[id], multiset(Map(DatabaseId(enc), g.databases))[id],
        multiset(Map(SchedulerId(enc), g.schedulers))[id];
    if q > 0 && d > 0 {
      var i := CountedThere(QueueId(enc), g.queues, id);
      var j := CountedThere(DatabaseId(enc), g.databases, id);
      PrefixesApart(enc, g.queues[i].id, g.databases[j].id, "");
    }
    if q > 0 && s > 0 {
      var i := CountedThere(QueueId(enc), g.queues, id);
      var j := CountedThere(SchedulerId(enc), g.schedulers, id);
      PrefixesApart(enc, g.queues[i].id, "", g.schedulers[j].id);
    }
    if d > 0 && s > 0 {
      var i := CountedThere(DatabaseId(enc), g.databases, id);
      var j := CountedThere(SchedulerId(enc), g.schedulers, id);
      PrefixesApart(enc, "", g.databases[i].id, g.schedulers[j].id);
    }
  }

  lemma {:induction false} PrefixesApart(enc: Encoder, q: string, d: string, s: string)
    requires Injective(enc)
    ensures KeyOf(enc, ["queue:" + q]) != KeyOf(enc, ["db:" + d])
    ensures KeyOf(enc, ["queue:" + q]) != KeyOf(enc, ["sched:" + s])
    ensures KeyOf(enc, ["db:" + d]) != KeyOf(enc, ["sched:" + s])
  {
    KeyInjective(enc, "queue:" + q, "db:" + d);
    KeyInjective(enc, "queue:" + q, "sched:" + s);
    KeyInjective(enc, "db:" + d, "sched:" + s);
    assert ("queue:" + q)[0] == 'q' && ("db:" + d)[0] == 'd' && ("sched:" + s)[0] == 's';
  }

  lemma {:induction false} CountsSmall(enc: Encoder, g: Graph, id: FactId)
    requires Injective(enc) && Identified(g)
    ensures |Uniques(Postings(enc, g), id)| <= 1 && |Legacies(Postings(enc, g), id)| <= 1
  {
    hide Uniques, Legacies, Postings, KeyOf, Map, Identified, Injective;
    CountPostings(enc, g, id);
    OnceAll(enc, g);
    LegacyApart(enc, g, id);
    if id.kind != ServiceFact { KindOnly(ServiceId(enc), g.services, ServiceFact, id); }
    if id.kind != ResourceKind { KindOnly(ResourceIdOf(enc), g.resources, ResourceKind, id); }
    if id.kind != ExternalKind { KindOnly(ExternalId(enc), g.externals, ExternalKind, id); }
  }

  /** A graph fails to yield facts exactly if two of its elements share an identity. */
  lemma {:induction false} FailsIffRepeated(enc: Encoder, g: Graph)
    requires Injective(enc)
    ensures GraphFacts(enc, g).None? <==> !Identified(g)
  {
    hide Uniques, Legacies, Postings, Identified, FactMap, Injective, Map;
    var ps := Postings(enc, g);
    OnceAll(enc, g);
    if Identified(g) {
      forall p | p in ps ensures |Uniques(ps, p.id)| <= 1 && |Legacies(ps, p.id)| <= 1 { CountsSmall(enc, g, p.id); }
    } else if Clean(ps) {
      forall id ensures |Uniques(ps, id)| <= 1 && |Legacies(ps, id)| <= 1 {
        if Uniques(ps, id) != [] || Legacies(ps, id) != [] { PostedWith(ps, id); }
      }
      forall id ensures CountedOnce(enc, g, id) { CountPostings(enc, g, id); }
      AllOnce(enc, g);
    }
  }

  ghost predicate CountedOnce(enc: Encoder, g: Graph, id: FactId) {
    && multiset(Map(ServiceId(enc), g.services))[id] <= 1 && multiset(Map(ResourceIdOf(enc), g.resources))[id] <= 1
    && multiset(Map(ExternalId(enc), g.externals))[id] <= 1 && multiset(Map(QueueId(enc), g.queues))[id] <= 1
    && multiset(Map(DatabaseId(enc), g.databases))[id] <= 1 && multiset(Map(SchedulerId(enc), g.schedulers))[id] <= 1
  }

  lemma {:induction false} AllOnce(enc: Encoder, g: Graph)
    requires forall id :: CountedOnce(enc, g, id)
    ensures Once(ServiceId(enc), g.services) && Once(ResourceIdOf(enc), g.resources)
        && Once(ExternalId(enc), g.externals)
    ensures Once(QueueId(enc), g.queues) && Once(DatabaseId(enc), g.databases) && Once(SchedulerId(enc), g.schedulers)
  {
    forall id ensures multiset(Map(ServiceId(enc), g.services))[id] <= 1 { assert CountedOnce(enc, g, id); }
    forall id ensures multiset(Map(ResourceIdOf(enc), g.resources))[id] <= 1 { assert CountedOnce(enc, g, id); }
    forall id ensures multiset(Map(ExternalId(enc), g.externals))[id] <= 1 { assert CountedOnce(enc, g, id); }
    forall id ensures multiset(Map(QueueId(enc), g.queues))[id] <= 1 { assert CountedOnce(enc, g, id); }
    forall id ensures multiset(Map(DatabaseId(enc), g.databases))[id] <= 1 { assert CountedOnce(enc, g, id); }
    forall id ensures multiset(Map(SchedulerId(enc), g.schedulers))[id] <= 1 { assert CountedOnce(enc, g, id); }
  }

  /** Comparing a graph with a reordering of itself reports nothing. */
  lemma {:induction false} ReorderedIsUnchanged(enc: Encoder, g: Graph, h: Graph)
    requires Injective(enc) && Identified(g) && SameContent(g, h)
    ensures CompareGraphs(enc, g, h) == Some([])
  {
    hide Postings, FactsOf, CompareFacts, SameContent, Injective, Identified;
    FailsIffRepeated(enc, g);
    PostingsFollow(enc, g, h);
    FactsFollow(enc, Postings(enc, g), Postings(enc, h));
    EmptyIffAgree(enc, GraphFacts(enc, g).value, GraphFacts(enc, g).value);
  }

  // What silence means

  lemma {:induction false} SilentFacts(enc: Encoder, g: Graph, h: Graph)
    requires Injective(enc) && CompareGraphs(enc, g, h) == Some([])
    ensures Identified(g) && Identified(h)
    ensures FactsAgree(FactMap(enc, Postings(enc, g)), FactMap(enc, Postings(enc, h)))
  {
    hide Postings, FactMap, CompareFacts, Injective, Identified, FactsAgree, Clean;
    FailsIffRepeated(enc, g);
    FailsIffRepeated(enc, h);
    EmptyIffAgree(enc, GraphFacts(enc, g).value, GraphFacts(enc, h).value);
  }

  /** Objects, flows and relationships are posted as occurrences only. */
  lemma {:induction false} OccurrenceFact(enc: Encoder, g: Graph, id: FactId)
    requires id.kind.ObjectKind? || id.kind.FlowKind? || id.kind.RelationshipKind?
    ensures FactAt(enc, Postings(enc, g), id) == Occurrences(enc, Occurs(Postings(enc, g), id))
    ensures id in FactMap(enc, Postings(enc, g)) <==> Occurs(Postings(enc, g), id) != []
  {
    hide Uniques, Legacies, Occurs, Postings, KeyOf, Map, Occurrences;
    CountPostings(enc, g, id);
    KindOnly(ServiceId(enc), g.services, ServiceFact, id);
    KindOnly(ResourceIdOf(enc), g.resources, ResourceKind, id);
    KindOnly(ExternalId(enc), g.externals, ExternalKind, id);
    KindOnly(QueueId(enc), g.queues, ResourceKind, id);
    KindOnly(DatabaseId(enc), g.databases, ResourceKind, id);
    KindOnly(SchedulerId(enc), g.schedulers, ResourceKind, id);
    var ps := Postings(enc, g);
    if Occurs(ps, id) != [] { PostedWith(ps, id); }
    if p :| p in ps && p.id == id { PostedHolds(ps, p); }
  }

  /**
    If nothing is reported, every object, flow and relationship occurs in both graphs with the same content, equally
    often.
   */
  lemma {:induction false} SilentMeansSameOccurrences(enc: Encoder, g: Graph, h: Graph, id: FactId)
    requires Injective(enc) && CompareGraphs(enc, g, h) == Some([])
    requires id.kind.ObjectKind? || id.kind.FlowKind? || id.kind.RelationshipKind?
    ensures multiset(Occurs(Postings(enc, g), id)) == multiset(Occurs(Postings(enc, h), id))
  {
    hide Postings, CompareGraphs, Injective, Occurs, FactAt, Agree, Identified;
    SilentFacts(enc, g, h);
    OccurrenceFact(enc, g, id);
    OccurrenceFact(enc, h, id);
    if id in FactMap(enc, Postings(enc, g)) {
      assert FactMap(enc, Postings(enc, g))[id] == FactAt(enc, Postings(enc, g), id);
      assert FactMap(enc, Postings(enc, h))[id] == FactAt(enc, Postings(enc, h), id);
      OccurrencesAgreeIff(enc, Occurs(Postings(enc, g), id), Occurs(Postings(enc, h), id));
    }
  }

  lemma {:induction false} FlatIn<T, U>(f: T -> seq<U>, xs: seq<T>, x: T, y: U)
    requires x in xs && y in f(x)
    ensures y in Flat(f, xs)
  {
    var n := |xs| - 1;
    assert xs == xs[..n] + [xs[n]];
    if x != xs[n] { FlatIn(f, xs[..n], x, y); }
  }

  /** What is added under an identity is the fact stored for it. */
  lemma {:induction false} UniqueFactIs(enc: Encoder, g: Graph, p: Posting)
    requires Injective(enc) && Identified(g) && p in Postings(enc, g) && p.Unique?
    ensures p.id in FactMap(enc, Postings(enc, g)) && FactMap(enc, Postings(enc, g))[p.id] == p.value
  {
    hide KeyOf, Map, Injective, Identified, Flat, Postings, Occurs;
    var ps := Postings(enc, g);
    CountsSmall(enc, g, p.id);
    assert UniqueOf(p.id)(p) == [p.value];
    FlatIn(UniqueOf(p.id), ps, p, p.value);
    assert Uniques(ps, p.id) == [p.value];
    assert FactAt(enc, ps, p.id) == p.value;
  }

  lemma {:induction false} MapIn<T, U>(f: T -> U, xs: seq<T>, x: T)
    requires x in xs
    ensures f(x) in Map(f, xs)
  {
    var i :| 0 <= i < |xs| && xs[i] == x;
    assert Map(f, xs)[i] == f(x);
  }

  /** The fact stored for a service. */
  lemma {:induction false} ServiceFactIs(enc: Encoder, g: Graph, s: Service)
    requires Injective(enc) && Identified(g) && s in g.services
    ensures var id := ServiceId(enc)(s);
            id in FactMap(enc, Postings(enc, g)) && FactMap(enc, Postings(enc, g))[id] == ServiceValue(s)
  {
    hide KeyOf, Map, ServiceValue, Injective, Identified, TableFacts, SortedValues, Flat, FactMap;
    var p := Unique(ServiceId(enc)(s), ServiceValue(s));
    assert ServicePostings(enc)(s)[0] == p;
    FlatIn(ServicePostings(enc), g.services, s, p);
    UniqueFactIs(enc, g, p);
  }

  lemma {:induction false} ExternalFactIs(enc: Encoder, g: Graph, e: External)
    requires Injective(enc) && Identified(g) && e in g.externals
    ensures var p := ExternalPosting(enc)(e);
        p.id in FactMap(enc, Postings(enc, g)) && FactMap(enc, Postings(enc, g))[p.id] == p.value
  {
    hide KeyOf, Map, Injective, Identified, TableFacts, SortedValues, Flat, FactMap;
    MapIn(ExternalPosting(enc), g.externals, e);
    UniqueFactIs(enc, g, ExternalPosting(enc)(e));
  }

  lemma {:induction false} ResourceFactIs(enc: Encoder, g: Graph, r: Resource)
    requires Injective(enc) && Identified(g) && r in g.resources
    ensures var p := ResourcePosting(enc)(r);
        p.id in FactMap(enc, Postings(enc, g)) && FactMap(enc, Postings(enc, g))[p.id] == p.value
  {
    hide KeyOf, Map, Injective, Identified, TableFacts, SortedValues, Flat, FactMap;
    MapIn(ResourcePosting(enc), g.resources, r);
    UniqueFactIs(enc, g, ResourcePosting(enc)(r));
  }

  /** A fact that agrees with a service's stems from a service. */
  lemma {:induction false} ServiceBehind(enc: Encoder, g: Graph, s: Service) returns (t: Service)
    requires var id := ServiceId(enc)(s);
        id in FactMap(enc, Postings(enc, g)) && Agree(ServiceValue(s), FactMap(enc, Postings(enc, g))[id])
    ensures t in g.services && ServiceId(enc)(t) == ServiceId(enc)(s)
  {
    hide Uniques, Legacies, Occurs, Postings, KeyOf, Map, Agree;
    var ps, id := Postings(enc, g), ServiceId(enc)(s);
    CountPostings(enc, g, id);
    KindOnly(ResourceIdOf(enc), g.resources, ResourceKind, id);
    KindOnly(ExternalId(enc), g.externals, ExternalKind, id);
    KindOnly(QueueId(enc), g.queues, ResourceKind, id);
    KindOnly(DatabaseId(enc), g.databases, ResourceKind, id);
    KindOnly(SchedulerId(enc), g.schedulers, ResourceKind, id);
    if Uniques(ps, id) == [] {
      assert FactMap(enc, ps)[id] == Occurrences(enc, Occurs(ps, id));
      NoServiceOccurs(enc, s, Occurs(ps, id));
    }
    var i := CountedThere(ServiceId(enc), g.services, id);
    t := g.services[i];
  }

  lemma {:induction false} NoServiceOccurs(enc: Encoder, s: Service, values: seq<Json>)
    ensures !Agree(ServiceValue(s), Occurrences(enc, values))
  {
    assert Field(ServiceValue(s), "name") != Field(Occurrences(enc, values), "name");
  }

  /** If nothing is reported, every service has a counterpart that agrees in every compared field. */
  lemma {:induction false} SilentMeansSameService(enc: Encoder, g: Graph, h: Graph, s: Service)
    requires Injective(enc) && CompareGraphs(enc, g, h) == Some([]) && s in g.services
    ensures exists t :: t in h.services && t.name == s.name && t.known == s.known && t.team == s.team
              && t.componentKind == s.componentKind && t.componentType == s.componentType
  {
    hide Postings, CompareGraphs, Injective, Agree, Identified, KeyOf, FactMap, ServiceValue;
    SilentFacts(enc, g, h);
    ServiceFactIs(enc, g, s);
    var t := ServiceBehind(enc, h, s);
    ServiceFactIs(enc, h, t);
    ServiceValuesAgree(s, t);
  }

  lemma {:induction false} ServiceValuesAgree(s: Service, t: Service)
    requires Agree(ServiceValue(s), ServiceValue(t))
    ensures t.name == s.name && t.known == s.known && t.team == s.team && t.componentKind == s.componentKind
        && t.componentType == s.componentType
  {
    assert Field(ServiceValue(s), "name") == Field(ServiceValue(t), "name");
    assert Field(ServiceValue(s), "known") == Field(ServiceValue(t), "known");
    assert Field(ServiceValue(s), "team") == Field(ServiceValue(t), "team");
    assert Field(ServiceValue(s), "component_kind") == Field(ServiceValue(t), "component_kind");
    assert Field(ServiceValue(s), "component_type") == Field(ServiceValue(t), "component_type");
  }

  /** A fact that agrees with an external's stems from an external. */
  lemma {:induction false} ExternalBehind(enc: Encoder, g: Graph, e: External) returns (f: External)
    requires var p := ExternalPosting(enc)(e);
        p.id in FactMap(enc, Postings(enc, g)) && Agree(p.value, FactMap(enc, Postings(enc, g))[p.id])
    ensures f in g.externals && ExternalId(enc)(f) == ExternalId(enc)(e)
  {
    hide Uniques, Legacies, Occurs, Postings, KeyOf, Map;
    var ps, id := Postings(enc, g), ExternalId(enc)(e);
    CountPostings(enc, g, id);
    KindOnly(ServiceId(enc), g.services, ServiceFact, id);
    KindOnly(ResourceIdOf(enc), g.resources, ResourceKind, id);
    KindOnly(QueueId(enc), g.queues, ResourceKind, id);
    KindOnly(DatabaseId(enc), g.databases, ResourceKind, id);
    KindOnly(SchedulerId(enc), g.schedulers, ResourceKind, id);
    assert Field(ExternalPosting(enc)(e).value, "name") == Field(FactMap(enc, ps)[id], "name");
    var i := CountedThere(ExternalId(enc), g.externals, id);
    f := g.externals[i];
  }

  /** If nothing is reported, every external system is in both graphs. */
  lemma {:induction false} SilentMeansSameExternal(enc: Encoder, g: Graph, h: Graph, e: External)
    requires Injective(enc) && CompareGraphs(enc, g, h) == Some([]) && e in g.externals
    ensures e in h.externals
  {
    hide Postings, CompareGraphs, Injective, Identified, KeyOf, FactMap;
    SilentFacts(enc, g, h);
    ExternalFactIs(enc, g, e);
    var f := ExternalBehind(enc, h, e);
    ExternalFactIs(enc, h, f);
    var v, u := ExternalPosting(enc)(e).value, ExternalPosting(enc)(f).value;
    assert Field(v, "name") == Field(u, "name") && Field(v, "kind") == Field(u, "kind");
  }

  /** Legacy resources have no platform. */
  lemma {:induction false} LegacyPlain(enc: Encoder, g: Graph, p: Posting)
    requires p in Postings(enc, g) && p.Legacy?
    ensures "platform" !in p.value
  {
    hide KeyOf, TableFacts, SortedValues;
    if p in Flat(ServicePostings(enc), g.services) { NoLegacyService(enc, g.services, p); }
  }

  lemma {:induction false} NoLegacyService(enc: Encoder, services: seq<Service>, p: Posting)
    requires p in Flat(ServicePostings(enc), services)
    ensures !p.Legacy?
  {
    hide KeyOf, SortedValues;
    var n := |services| - 1;
    if p in Flat(ServicePostings(enc), services[..n]) { NoLegacyService(enc, services[..n], p); }
  }

  lemma {:induction false} LegacyPosted(ps: seq<Posting>, id: FactId, v: Value)
    requires v in Legacies(ps, id)
    ensures exists p :: p in ps && p.Legacy? && p.value == v
  {
    var n := |ps| - 1;
    if v in Legacies(ps[..n], id) {
      LegacyPosted(ps[..n], id, v);
      var p :| p in ps[..n] && p.Legacy? && p.value == v;
      assert p in ps;
    } else {
      assert ps[n] in ps;
    }
  }

  /** A fact that agrees with a graph resource's stems from a graph resource, not from a legacy one. */
  lemma {:induction false} ResourceBehind(enc: Encoder, g: Graph, r: Resource) returns (q: Resource)
    requires var p := ResourcePosting(enc)(r);
        p.id in FactMap(enc, Postings(enc, g)) && Agree(p.value, FactMap(enc, Postings(enc, g))[p.id])
    ensures q in g.resources && ResourceIdOf(enc)(q) == ResourceIdOf(enc)(r)
  {
    hide Uniques, Legacies, Occurs, Postings, KeyOf, Map, TableFacts, SortedValues;
    var ps, id := Postings(enc, g), ResourceIdOf(enc)(r);
    CountPostings(enc, g, id);
    KindOnly(ServiceId(enc), g.services, ServiceFact, id);
    KindOnly(ExternalId(enc), g.externals, ExternalKind, id);
    var fact := FactMap(enc, ps)[id];
    assert Field(ResourcePosting(enc)(r).value, "platform") == Field(fact, "platform");
    assert "platform" in fact;
    if Uniques(ps, id) == [] && Legacies(ps, id) != [] {
      LegacyPosted(ps, id, Legacies(ps, id)[0]);
      var p :| p in ps && p.Legacy? && p.value == Legacies(ps, id)[0];
      LegacyPlain(enc, g, p);
    }
    var i := CountedThere(ResourceIdOf(enc), g.resources, id);
    q := g.resources[i];
  }

  /** If nothing is reported, every graph resource has a counterpart that agrees in every compared field. */
  lemma {:induction false} SilentMeansSameResource(enc: Encoder, g: Graph, h: Graph, r: Resource)
    requires Injective(enc) && CompareGraphs(enc, g, h) == Some([]) && r in g.resources
    ensures exists q :: q in h.resources && q.name == r.name && q.kind == r.kind && q.platform == r.platform
              && q.ownerService == r.ownerService && q.ownerTeam == r.ownerTeam && q.details == r.details
              && TableFacts(enc, q.tables) == TableFacts(enc, r.tables)
  {
    hide Postings, CompareGraphs, Injective, Identified, KeyOf, FactMap, TableFacts, Agree;
    SilentFacts(enc, g, h);
    ResourceFactIs(enc, g, r);
    var q := ResourceBehind(enc, h, r);
    ResourceFactIs(enc, h, q);
    ResourceValuesAgree(enc, r, q);
  }

  lemma {:induction false} ResourceValuesAgree(enc: Encoder, r: Resource, q: Resource)
    requires Agree(ResourcePosting(enc)(r).value, ResourcePosting(enc)(q).value)
    ensures q.name == r.name && q.kind == r.kind && q.platform == r.platform && q.ownerService == r.ownerService
    ensures q.ownerTeam == r.ownerTeam && q.details == r.details
        && TableFacts(enc, q.tables) == TableFacts(enc, r.tables)
  {
    hide TableFacts, KeyOf;
    var v, u := ResourcePosting(enc)(r).value, ResourcePosting(enc)(q).value;
    assert Field(v, "name") == Field(u, "name") && Field(v, "kind") == Field(u, "kind")
        && Field(v, "platform") == Field(u, "platform");
    assert Field(v, "owner_service") == Field(u, "owner_service") && Field(v, "owner_team") == Field(u, "owner_team");
    assert Field(v, "details") == Field(u, "details") && Field(v, "tables") == Field(u, "tables");
  }
}
