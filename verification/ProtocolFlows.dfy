/** The flows of a built document, and the theorem about the whole document. */
module ProtocolFlows {
  import opened Decimal
  import opened Lists
  import opened Protocol
  import opened ProtocolBuild
  import opened ProtocolFill
  import opened ProtocolLaws
  import opened ProtocolOutline
  import opened ProtocolTheorem
  import opened Sorting
  import opened Text

  type Name = map<string, string>

  /** The connection joins two entities that have objects. */
  predicate Joined(names: Name, c: Conn) {
    Target(names, c.from) != "" && Target(names, c.to) != ""
  }

  /** Some connection makes the object `t` the start of a flow. */
  ghost predicate Flowed(names: Name, cs: seq<Conn>, t: string) {
    exists i :: 0 <= i < |cs| && Joined(names, cs[i]) && Target(names, cs[i].from) == t
  }

  function ConnFlow(slug: Slug, names: Name, c: Conn): Flow {
    FlowOf(slug, Target(names, c.from), Target(names, c.to), c)
  }

  ghost predicate IsConnFlow(slug: Slug, names: Name, cs: seq<Conn>, f: Flow) {
    exists i :: 0 <= i < |cs| && Joined(names, cs[i]) && f == ConnFlow(slug, names, cs[i])
  }

  lemma {:induction false} AddFlowsIs(s: State, slug: Slug, cs: seq<Conn>)
    ensures var t := AddFlows(s, slug, cs);
            && t == s.(flows := t.flows, flowedFrom := t.flowedFrom)
            && (forall f :: f in t.flows <==> f in s.flows || IsConnFlow(slug, s.oldToNew, cs, f))
            && (forall x :: x in t.flowedFrom <==> x in s.flowedFrom || Flowed(s.oldToNew, cs, x))
  {
    hide FlowOf, Target;
    if cs != [] {
      var n := |cs| - 1;
      var names := s.oldToNew;
      AddFlowsIs(s, slug, cs[..n]);
      assert cs == cs[..n] + [cs[n]];
      forall f ensures IsConnFlow(slug, names, cs, f) <==>
          IsConnFlow(slug, names, cs[..n], f) || (Joined(names, cs[n]) && f == ConnFlow(slug, names, cs[n]))
      {
        ConnFlowPush(slug, names, cs[..n], cs[n], f);
      }
      forall x ensures Flowed(names, cs, x) <==>
          Flowed(names, cs[..n], x) || (Joined(names, cs[n]) && Target(names, cs[n].from) == x)
      {
        FlowedPush(names, cs[..n], cs[n], x);
      }
    }
  }

  lemma {:induction false} ConnFlowPush(slug: Slug, names: Name, cs: seq<Conn>, c: Conn, f: Flow)
    ensures IsConnFlow(slug, names, cs + [c], f) <==>
        IsConnFlow(slug, names, cs, f) || (Joined(names, c) && f == ConnFlow(slug, names, c))
  {
    hide ConnFlow, Joined;
    var r := cs + [c];
    assert r[|cs|] == c;
    assert forall i | 0 <= i < |cs| :: r[i] == cs[i];
  }

  lemma {:induction false} FlowedPush(names: Name, cs: seq<Conn>, c: Conn, x: string)
    ensures Flowed(names, cs + [c], x) <==> Flowed(names, cs, x) || (Joined(names, c) && Target(names, c.from) == x)
  {
    hide Joined, Target;
    var r := cs + [c];
    assert r[|cs|] == c;
    assert forall i | 0 <= i < |cs| :: r[i] == cs[i];
  }

  function Trace(s: State, slug: Slug, e: Entity): Flow {
    var from := Target(s.oldToNew, e.id);
    TraceOf(slug, from, e, EntryRefs(s.objects, from))
  }

  /** The exposure gets a flow of its own. */
  predicate Traced(s: State, e: Entity) {
    Target(s.oldToNew, e.id) != "" && Target(s.oldToNew, e.id) !in s.flowedFrom
  }

  ghost predicate IsTrace(s: State, slug: Slug, es: seq<Entity>, f: Flow) {
    exists i :: 0 <= i < |es| && Traced(s, es[i]) && f == Trace(s, slug, es[i])
  }

  lemma {:induction false} AddTracesIs(s: State, slug: Slug, es: seq<Entity>)
    ensures var t := AddTraces(s, slug, es);
            t == s.(flows := t.flows) && forall f :: f in t.flows <==> f in s.flows || IsTrace(s, slug, es, f)
  {
    hide TraceOf, Target, EntryRefs;
    if es != [] {
      var n := |es| - 1;
      AddTracesIs(s, slug, es[..n]);
      assert es == es[..n] + [es[n]];
      forall f ensures IsTrace(s, slug, es, f) <==>
          IsTrace(s, slug, es[..n], f) || (Traced(s, es[n]) && f == Trace(s, slug, es[n]))
      {
        TracePush(s, slug, es[..n], es[n], f);
      }
    }
  }

  lemma {:induction false} TracePush(s: State, slug: Slug, es: seq<Entity>, e: Entity, f: Flow)
    ensures IsTrace(s, slug, es + [e], f) <==> IsTrace(s, slug, es, f) || (Traced(s, e) && f == Trace(s, slug, e))
  {
    hide Trace, Traced;
    var r := es + [e];
    assert r[|es|] == e;
    assert forall i | 0 <= i < |es| :: r[i] == es[i];
  }

  // Node names

  lemma {:induction false} NodeSolid(n: nat)
    ensures !Blank(NodeName(n))
  {
    var d := Show(n);
    assert d[|d| - 1] in d;
    TrimSolid(NodeName(n));
  }

  lemma {:induction false} NodeInjective(m: nat, n: nat)
    requires NodeName(m) == NodeName(n)
    ensures m == n
  {
    assert NodeName(m)[1..] == Show(m) && NodeName(n)[1..] == Show(n);
    ShowInjective(m, n);
  }

  lemma {:induction false} PathNodeAt(from: string, to: string, steps: nat, i: nat)
    requires i < steps + 2
    ensures |PathNodes(from, to, steps)| == steps + 2 && PathNodes(from, to, steps)[i].id == NodeName(i + 1)
    ensures PathNodes(from, to, steps)[i].ref in ["", from, to]
    ensures PathNodes(from, to, steps)[i].role == "entrypoint" <==> i == 0
    ensures PathNodes(from, to, steps)[0].ref == from
  {
    hide NodeName;
  }

  lemma {:induction false} PathNodesOk(objects: seq<string>, from: string, to: string, steps: nat)
    requires from in objects && to in objects
    ensures NodesOk(objects, PathNodes(from, to, steps))
  {
    hide NodeName, PathNodes, Blank;
    var nodes := PathNodes(from, to, steps);
    var ids := Map(NodeId, nodes);
    PathNodeAt(from, to, steps, 0);
    forall i, j | 0 <= i < j < |ids| ensures ids[i] != ids[j] {
      PathNodeAt(from, to, steps, i);
      PathNodeAt(from, to, steps, j);
      if NodeName(i + 1) == NodeName(j + 1) { NodeInjective(i + 1, j + 1); }
    }
    forall n | n in nodes ensures !Blank(n.id) && Resolves(n.ref, objects) {
      var i :| 0 <= i < |nodes| && nodes[i] == n;
      PathNodeAt(from, to, steps, i);
      NodeSolid(i + 1);
    }
  }

  lemma {:induction false} PathEdgesOk(from: string, to: string, path: seq<Reach>)
    ensures forall e | e in PathEdges(path) :: EdgeOk(Map(NodeId, PathNodes(from, to, |path|)), e)
  {
    hide NodeName, PathNodes;
    var ids := Map(NodeId, PathNodes(from, to, |path|));
    var edges := PathEdges(path);
    PathNodeAt(from, to, |path|, 0);
    forall e | e in edges ensures EdgeOk(ids, e) {
      var i :| 0 <= i < |edges| && edges[i] == e;
      PathNodeAt(from, to, |path|, i);
      PathNodeAt(from, to, |path|, i + 1);
      assert ids[i] == NodeName(i + 1) && ids[i + 1] == NodeName(i + 2);
      assert e.from == NodeName(i + 1) && e.to == NodeName(i + 2);
    }
  }

  lemma {:induction false} FlowIdSolid(slug: Slug, text: string)
    ensures !Blank(FlowId(slug, text))
  {
    var p := slug(text);
    assert p[|p| - 1] in p;
    TrimSolid(FlowId(slug, text));
  }

  /** A connection's flow passes unless its id looks like a line number. */
  lemma {:induction false} ConnFlowOk(shape: Shape, slug: Slug, objects: seq<string>, evidence: seq<string>,
      from: string, to: string, c: Conn)
    requires from in objects && to in objects
    ensures FlowOk(shape, objects, evidence, FlowOf(slug, from, to, c)) <==> !shape(FlowId(slug, from + "." + to))
  {
    hide Blank, FlowId, PathNodes, PathEdges, Confidence, EdgeOk;
    FlowIdSolid(slug, from + "." + to);
    ConfidenceValid(c.confidence);
    PathNodesOk(objects, from, to, |c.path|);
    PathEdgesOk(from, to, c.path);
    NoNodesOk(objects);
  }

  lemma {:induction false} NoNodesOk(objects: seq<string>)
    ensures NodesOk(objects, [])
  {}

  lemma {:induction false} TraceFlowOk(shape: Shape, slug: Slug, objects: seq<string>, evidence: seq<string>,
      from: string, e: Entity, refs: seq<string>)
    requires from in objects && Within(refs, evidence)
    ensures FlowOk(shape, objects, evidence, TraceOf(slug, from, e, refs))
        <==> !shape(FlowId(slug, from + ".entrypoint"))
  {
    hide Blank, FlowId, Confidence, NodeName;
    FlowIdSolid(slug, from + ".entrypoint");
    ConfidenceValid(e.confidence);
    NodeSolid(1);
  }

  lemma {:induction false} ConnFlowStarts(slug: Slug, from: string, to: string, c: Conn, id: string)
    requires from != ""
    ensures Starts(FlowOf(slug, from, to, c), id) <==> id == from
  {
    hide FlowId, PathNodes, PathEdges, Confidence;
    PathNodeAt(from, to, |c.path|, 0);
    var nodes := PathNodes(from, to, |c.path|);
    forall n | n in nodes && n.role == "entrypoint" ensures n.ref == from {
      var i :| 0 <= i < |nodes| && nodes[i] == n;
      PathNodeAt(from, to, |c.path|, i);
    }
  }

  lemma {:induction false} TraceStarts(slug: Slug, from: string, e: Entity, refs: seq<string>, id: string)
    requires from != ""
    ensures Starts(TraceOf(slug, from, e, refs), id) <==> id == from
  {}

  lemma {:induction false} EntryRefsWithin(objects: seq<Object>, id: string, evidence: seq<string>)
    requires forall o | o in objects :: Within(o.evidenceRefs, evidence)
    ensures Within(EntryRefs(objects, id), evidence)
  {
    hide Within, Find;
    NothingWithin(evidence);
  }

  lemma {:induction false} NothingWithin(ids: seq<string>)
    ensures Within([], ids)
  {}

  // Names

  lemma {:induction false} NamesHold(items: seq<Item>)
    ensures forall i | 0 <= i < |items| :: items[i].entity.id in Names(items)
    ensures forall id | id in Names(items) :: Names(items)[id] in Texts(items) && Names(items)[id] != ""
  {
    if items != [] {
      var n := |items| - 1;
      NamesHold(items[..n]);
      assert items == items[..n] + [items[n]];
      forall t
        ensures t in Texts(items) <==> t in Texts(items[..n]) || t == TextOf(items[n])
      {
        TextsPush(items[..n], items[n], t);
      }
      forall i | 0 <= i < |items| ensures items[i].entity.id in Names(items) {
        if i < n { assert items[..n][i] == items[i]; }
      }
    }
  }

  /** An id is found exactly if some entity carries it, and it is sent to the object of an entity. */
  lemma {:induction false} TargetHolds(items: seq<Item>, id: string)
    ensures var t := Target(Names(items), id); t != "" ==> t in Texts(items)
  {
    NamesHold(items);
  }

  function NamesOf(input: Input): Name { Names(Items(input)) }

  lemma {:induction false} ExposureTarget(input: Input, e: Entity)
    requires e in input.exposures
    ensures Target(NamesOf(input), e.id) != "" && e.oid.Text() in Texts(Items(input))
  {
    var items := Items(input);
    NamesHold(items);
    var i :| 0 <= i < |input.exposures| && input.exposures[i] == e;
    assert items[i].entity == e;
    assert Texts(items)[i] == e.oid.Text();
  }

  // What the input must satisfy

  ghost predicate FlowsFit(shape: Shape, slug: Slug, input: Input) {
    var names := NamesOf(input);
    && (forall i | 0 <= i < |input.connections| && Joined(names, input.connections[i]) ::
          !shape(FlowId(slug, Target(names, input.connections[i].from) + "." + Target(names, input.connections[i].to))))
    && (forall i | 0 <= i < |input.exposures|
        && !Flowed(names, input.connections, Target(names, input.exposures[i].id)) ::
          !shape(FlowId(slug, Target(names, input.exposures[i].id) + ".entrypoint")))
  }

  /** Some exposure's id leads to the object `t`, or a connection starts there. */
  ghost predicate Reached(input: Input, t: string) {
    || Flowed(NamesOf(input), input.connections, t)
    || exists i :: 0 <= i < |input.exposures| && Target(NamesOf(input), input.exposures[i].id) == t
  }

  ghost predicate Covered(input: Input) {
    forall i | 0 <= i < |input.exposures| :: Reached(input, input.exposures[i].oid.Text())
  }

  /** When the built document passes the canonical validator. */
  ghost predicate Fit(shape: Shape, slug: Slug, input: Input) {
    !Blank(input.serviceName) && ItemsFit(shape, Items(input)) && FlowsFit(shape, slug, input) && Covered(input)
  }

  // The built state

  lemma {:induction false} BuiltParts(slug: Slug, input: Input)
    ensures var s, t := AddItems(START, Items(input)), Built(slug, input);
            var names := NamesOf(input);
            && t.objects == s.objects && t.observations == s.observations && t.evidence == s.evidence
            && (forall f :: f in t.flows <==>
                  IsConnFlow(slug, names, input.connections, f)
                      || IsTrace(AddFlows(s, slug, input.connections), slug, input.exposures, f))
            && (var u := AddFlows(s, slug, input.connections);
                && u.objects == s.objects && u.oldToNew == names
                && forall x :: x in u.flowedFrom <==> Flowed(names, input.connections, x))
  {
    hide RefsInv, ObsRefsOk, IsConnFlow, IsTrace, Flowed, AddItems;
    var s := AddItems(START, Items(input));
    AddItemsKeep(Items(input));
    AddFlowsIs(s, slug, input.connections);
    AddTracesIs(AddFlows(s, slug, input.connections), slug, input.exposures);
  }

  lemma {:induction false} TargetIsObject(input: Input, id: string)
    requires Target(NamesOf(input), id) != ""
    ensures Target(NamesOf(input), id) in Map(IdOf, AddItems(START, Items(input)).objects)
  {
    hide AddItems, ItemsInv, Outline, Names;
    var items := Items(input);
    AddItemsKeep(items);
    TargetHolds(items, id);
    TextHasHead(items, Target(NamesOf(input), id));
    HeadIdThere(Outline(items), Target(NamesOf(input), id));
    IdsFromInv(items, AddItems(START, items));
  }

  /** The flows pass exactly if no flow id looks like a line number. */
  lemma {:induction false} FlowsPassIff(shape: Shape, slug: Slug, input: Input)
    ensures var s := Built(slug, input);
            (forall f | f in s.flows :: FlowOk(shape, Map(IdOf, s.objects), Map(EvidenceId, s.evidence), f))
                <==> FlowsFit(shape, slug, input)
  {
    hide FlowOk, FlowOf, TraceOf, AddItems, AddFlows, AddTraces, Built, Target, Flowed, FlowId, EntryRefs, Items,
        NamesOf, Joined;
    var s := Built(slug, input);
    BuiltParts(slug, input);
    var names, cs, es := NamesOf(input), input.connections, input.exposures;
    var u := AddFlows(AddItems(START, Items(input)), slug, cs);
    var objects, evidence := Map(IdOf, s.objects), Map(EvidenceId, s.evidence);
    forall i | 0 <= i < |cs| && Joined(names, cs[i])
      ensures ConnFlow(slug, names, cs[i]) in s.flows
      ensures FlowOk(shape, objects, evidence, ConnFlow(slug, names, cs[i]))
          <==> !shape(FlowId(slug, Target(names, cs[i].from) + "." + Target(names, cs[i].to)))
    {
      assert IsConnFlow(slug, names, cs, ConnFlow(slug, names, cs[i]));
      JoinedTargets(input, cs[i]);
      ConnFlowOk(shape, slug, objects, evidence, Target(names, cs[i].from), Target(names, cs[i].to), cs[i]);
    }
    forall i | 0 <= i < |es| && Traced(u, es[i])
      ensures Trace(u, slug, es[i]) in s.flows
      ensures FlowOk(shape, objects, evidence, Trace(u, slug, es[i]))
          <==> !shape(FlowId(slug, Target(names, es[i].id) + ".entrypoint"))
    {
      assert IsTrace(u, slug, es, Trace(u, slug, es[i]));
      TargetIsObject(input, es[i].id);
      BuiltEntryRefs(slug, input, Target(names, es[i].id));
      TraceFlowOk(shape, slug, objects, evidence, Target(names, es[i].id), es[i],
          EntryRefs(u.objects, Target(names, es[i].id)));
    }
    forall i | 0 <= i < |es| ensures Traced(u, es[i]) <==> !Flowed(names, cs, Target(names, es[i].id)) {
      assert es[i] in es;
      ExposureTarget(input, es[i]);
    }
  }

  lemma {:induction false} JoinedTargets(input: Input, c: Conn)
    requires Joined(NamesOf(input), c)
    ensures var ids := Map(IdOf, AddItems(START, Items(input)).objects);
            Target(NamesOf(input), c.from) in ids && Target(NamesOf(input), c.to) in ids
  {
    hide Target, AddItems, NamesOf;
    TargetIsObject(input, c.from);
    TargetIsObject(input, c.to);
  }

  lemma {:induction false} BuiltEntryRefs(slug: Slug, input: Input, id: string)
    ensures var s := AddItems(START, Items(input)); Within(EntryRefs(s.objects, id), Map(EvidenceId, s.evidence))
  {
    hide AddItems, NumOk, SeenOk, EvidenceFine, ObsRefsOk, Outlined, Within;
    var s := AddItems(START, Items(input));
    AddItemsKeep(Items(input));
    EntryRefsWithin(s.objects, id, Map(EvidenceId, s.evidence));
  }

  /** An object starts a flow exactly if a connection starts there or an exposure leads to it. */
  lemma {:induction false} StartedIff(slug: Slug, input: Input, id: string)
    requires id != ""
    ensures Started(Built(slug, input).flows, id) <==> Reached(input, id)
  {
    hide FlowOf, TraceOf, AddItems, AddFlows, AddTraces, Built, Target, FlowId, EntryRefs, Items, NamesOf, Starts;
    var s := Built(slug, input);
    BuiltParts(slug, input);
    var names, cs, es := NamesOf(input), input.connections, input.exposures;
    var u := AddFlows(AddItems(START, Items(input)), slug, cs);
    forall i | 0 <= i < |cs| && Joined(names, cs[i])
      ensures ConnFlow(slug, names, cs[i]) in s.flows
          && (Starts(ConnFlow(slug, names, cs[i]), id) <==> id == Target(names, cs[i].from))
    {
      assert IsConnFlow(slug, names, cs, ConnFlow(slug, names, cs[i]));
      ConnFlowStarts(slug, Target(names, cs[i].from), Target(names, cs[i].to), cs[i], id);
    }
    forall i | 0 <= i < |es| && Traced(u, es[i])
      ensures Trace(u, slug, es[i]) in s.flows && (Starts(Trace(u, slug, es[i]), id) <==> id == Target(names, es[i].id))
    {
      assert IsTrace(u, slug, es, Trace(u, slug, es[i]));
      TraceStarts(slug, Target(names, es[i].id), es[i], EntryRefs(u.objects, Target(names, es[i].id)), id);
    }
    if Started(s.flows, id) {
      var f :| f in s.flows && Starts(f, id);
    }
    if Reached(input, id) && !Flowed(names, cs, id) {
      var i :| 0 <= i < |es| && Target(names, es[i].id) == id;
      assert Traced(u, es[i]);
    }
  }

  lemma {:induction false} EntrypointIff(item: Item)
    ensures Entrypoint(EntityObject(item, [], [])) <==> !item.dependency
  {}

  lemma {:induction false} ItemAt(input: Input, i: nat)
    requires i < |Items(input)|
    ensures var item := Items(input)[i];
            if i < |input.exposures| then item == Item(input.exposures[i], false)
            else item == Item(input.dependencies[i - |input.exposures|], true)
  {}

  lemma {:induction false} ExposureItem(input: Input, i: nat)
    requires i < |input.exposures|
    ensures i < |Items(input)| && Items(input)[i] == Item(input.exposures[i], false)
  {}

  /** The objects that must start a flow are those of the exposures. */
  lemma {:induction false} EntryObject(input: Input, o: Object)
    requires o in AddItems(START, Items(input)).objects && Entrypoint(o)
    ensures exists i :: 0 <= i < |input.exposures| && input.exposures[i].oid.Text() == o.id
  {
    hide AddItems, ItemsInv, Items, BucketOf, KindOf, FromMaker;
    var items, s := Items(input), AddItems(START, Items(input));
    AddItemsKeep(items);
    var k :| 0 <= k < |s.objects| && s.objects[k] == o;
    HeadThere(items, s, k);
    assert Entrypoint(Head(o));
    if FromMaker(items, Head(o)) { MakerNoEntry(items, Head(o)); }
    var i :| 0 <= i < |items| && IsFirst(items, i) && Head(o) == EntityObject(items[i], [], []);
    EntrypointIff(items[i]);
    ItemAt(input, i);
    assert input.exposures[i].oid.Text() == o.id;
  }

  lemma {:induction false} MakerNoEntry(items: seq<Item>, o: Object)
    requires FromMaker(items, o)
    ensures !Entrypoint(o)
  {}

  lemma {:induction false} ExposureEntry(input: Input, i: nat) returns (k: nat)
    requires i < |input.exposures|
    ensures var objects := AddItems(START, Items(input)).objects;
            k < |objects| && Entrypoint(objects[k]) && objects[k].id == input.exposures[i].oid.Text()
  {
    hide AddItems, ItemsInv, BucketOf, KindOf, FromMaker;
    var items, s := Items(input), AddItems(START, Items(input));
    AddItemsKeep(items);
    ItemAt(input, i);
    var j := FirstOf(items, i);
    ItemAt(input, j);
    var h := EntityObject(items[j], [], []);
    assert FromItem(items, h);
    EntrypointIff(items[j]);
    hide FromItem;
    k := ObjectOfHead(items, s, h);
    assert Entrypoint(Head(s.objects[k]));
  }

  lemma {:induction false} CoveredIff(slug: Slug, input: Input)
    ensures var s := Built(slug, input);
            (forall o | o in s.objects && Entrypoint(o) && !Blank(o.id) :: Started(s.flows, o.id)) <==> Covered(input)
  {
    hide AddItems, AddFlows, AddTraces, Built, Entrypoint, Started, Reached, Blank, Items;
    var s := Built(slug, input);
    BuiltParts(slug, input);
    if Covered(input) {
      forall o | o in s.objects && Entrypoint(o) ensures Started(s.flows, o.id) {
        EntryObject(input, o);
        StartedIff(slug, input, o.id);
      }
    } else if forall o | o in s.objects && Entrypoint(o) && !Blank(o.id) :: Started(s.flows, o.id) {
      forall i | 0 <= i < |input.exposures| ensures Reached(input, input.exposures[i].oid.Text()) {
        var k := ExposureEntry(input, i);
        assert s.objects[k] in s.objects;
        TextSolid(input.exposures[i].oid);
        StartedIff(slug, input, input.exposures[i].oid.Text());
      }
    }
  }

  /** The document before sortProtocol. */
  function Unsorted(slug: Slug, input: Input): Document {
    var s := Built(slug, input);
    Document(SCHEMA, input.serviceId, input.serviceName, s.objects, s.observations, s.evidence, s.flows)
  }

  lemma {:induction false} NumOkNotBlank(ids: seq<string>, tag: string)
    requires NumOk(ids, tag) && tag != "" && !Space(tag[0])
    ensures forall id | id in ids :: !Blank(id)
  {
    hide NumberedId, Stem, Count, Blank, Distinct;
    forall id | id in ids ensures !Blank(id) {
      var i :| 0 <= i < |ids| && ids[i] == id;
      assert Numbered(ids, tag, ids[i]);
      var o: ObjectId, k: nat :| 1 <= k <= Count(ids, Stem(tag, o.Text())) && id == NumberedId(tag, o.Text(), k);
      NumberedSolid(tag, o.Text(), k);
    }
  }

  /** Ids and references of the built document are always in order. */
  lemma {:induction false} RefsPass(slug: Slug, input: Input)
    ensures var d := Unsorted(slug, input);
            && (forall o | o in d.observations :: ObservationOk(ObjectIds(d), o)) && Distinct(ObservationIds(d))
            && (forall e | e in d.evidence :: EvidenceOk(e) && Authored(e.source)) && Distinct(EvidenceIds(d))
            && (forall o | o in d.objects :: RefsOk(ObservationIds(d), EvidenceIds(d), o))
  {
    hide AddItems, AddFlows, AddTraces, Built, Blank, Numbered, Distinct, Authored;
    BuiltParts(slug, input);
    var s := AddItems(START, Items(input));
    AddItemsKeep(Items(input));
    var a, b := Map(ObservationId, s.observations), Map(EvidenceId, s.evidence);
    NumOkNotBlank(a, "obs.");
    NumOkNotBlank(b, "ev.");
    forall o | o in s.observations ensures !Blank(o.id) {
      var i :| 0 <= i < |s.observations| && s.observations[i] == o;
      assert a[i] in a;
    }
    forall e | e in s.evidence ensures !Blank(e.id) {
      var i :| 0 <= i < |s.evidence| && s.evidence[i] == e;
      assert b[i] in b;
    }
  }

  lemma {:induction false} FlowOrigins(slug: Slug, input: Input)
    ensures forall f | f in Built(slug, input).flows :: f.marks.origin != "llm"
  {
    hide AddItems, AddFlows, AddTraces, Built, Target, FlowId, EntryRefs, Items;
    BuiltParts(slug, input);
  }

  lemma {:induction false} UnsortedIff(shape: Shape, slug: Slug, input: Input)
    ensures Canonical(shape, Unsorted(slug, input)) <==> Fit(shape, slug, input)
  {
    hide Built, AddItems, Blank, ObservationOk, EvidenceOk, Authored, RefsOk, FlowOk, Entrypoint, Started, ItemsFit,
        FlowsFit, Covered, Distinct, ObjectOk, ObjectComplete, Trim, Items;
    var d := Unsorted(slug, input);
    RefsPass(slug, input);
    FlowOrigins(slug, input);
    ObjectsPassIff(shape, Items(input));
    BuiltParts(slug, input);
    FlowsPassIff(shape, slug, input);
    CoveredIff(slug, input);
    PartSolid(input.serviceId);
    TrimSolid(SCHEMA);
  }

  ghost predicate Reordered(a: Document, b: Document) {
    && a.schema == b.schema && a.serviceId == b.serviceId && a.serviceName == b.serviceName
    && multiset(a.objects) == multiset(b.objects) && multiset(a.observations) == multiset(b.observations)
    && multiset(a.evidence) == multiset(b.evidence) && multiset(a.flows) == multiset(b.flows)
  }

  lemma {:induction false} SameIds<T>(f: T -> string, a: seq<T>, b: seq<T>)
    requires multiset(a) == multiset(b)
    ensures (forall x :: x in Map(f, a) <==> x in Map(f, b)) && (Distinct(Map(f, a)) ==> Distinct(Map(f, b)))
  {
    hide Distinct;
    MapMultiset(f, a, b);
    MultisetMembers(Map(f, a), Map(f, b));
    if Distinct(Map(f, a)) { DistinctMultiset(Map(f, a), Map(f, b)); }
  }

  lemma {:induction false} FlowOkMoves(shape: Shape, a: seq<string>, b: seq<string>, c: seq<string>, d: seq<string>,
      f: Flow)
    requires (forall x :: x in a <==> x in b) && (forall x :: x in c <==> x in d) && FlowOk(shape, a, c, f)
    ensures FlowOk(shape, b, d, f)
  {
    hide Blank, Distinct, EdgeOk;
  }

  lemma {:induction false} SoundMoves(shape: Shape, a: Document, b: Document)
    requires Reordered(a, b) && Sound(shape, a)
    ensures Sound(shape, b)
  {
    hide Distinct, FlowOk, ObjectOk, Trim, Blank;
    MultisetMembers(a.objects, b.objects);
    MultisetMembers(a.observations, b.observations);
    MultisetMembers(a.evidence, b.evidence);
    MultisetMembers(a.flows, b.flows);
    SameIds(IdOf, a.objects, b.objects);
    SameIds(ObservationId, a.observations, b.observations);
    SameIds(EvidenceId, a.evidence, b.evidence);
    forall f | f in b.flows ensures FlowOk(shape, ObjectIds(b), EvidenceIds(b), f) {
      FlowOkMoves(shape, ObjectIds(a), ObjectIds(b), EvidenceIds(a), EvidenceIds(b), f);
    }
  }

  /** The validator does not read the order of the lists. */
  lemma {:induction false} CanonicalMoves(shape: Shape, a: Document, b: Document)
    requires Reordered(a, b) && Canonical(shape, a)
    ensures Canonical(shape, b)
  {
    hide Sound, Authored, ObjectComplete, Starts, Blank, Entrypoint;
    SoundMoves(shape, a, b);
    MultisetMembers(a.objects, b.objects);
    MultisetMembers(a.evidence, b.evidence);
    MultisetMembers(a.flows, b.flows);
    forall o | o in b.objects && Entrypoint(o) && !Blank(o.id) ensures Started(b.flows, o.id) {
      assert Started(a.flows, o.id);
      var f :| f in a.flows && Starts(f, o.id);
      assert f in b.flows;
    }
  }

  lemma {:induction false} SortReorders(slug: Slug, input: Input)
    ensures Reordered(Unsorted(slug, input), Build(slug, input))
  {
    hide Built, Sort;
    var s := Built(slug, input);
    SortMultiset(s.objects, IdOf);
    SortMultiset(s.observations, ObservationId);
    SortMultiset(s.evidence, EvidenceId);
    SortMultiset(s.flows, FlowKey);
  }

  /** The built document passes the canonical validator exactly when the input is fit for it. */
  lemma {:induction false} BuildPassesIff(shape: Shape, slug: Slug, input: Input)
    ensures Canonical(shape, Build(slug, input)) <==> Fit(shape, slug, input)
  {
    hide Canonical, Fit, Unsorted, Build;
    UnsortedIff(shape, slug, input);
    SortReorders(slug, input);
    if Canonical(shape, Unsorted(slug, input)) { CanonicalMoves(shape, Unsorted(slug, input), Build(slug, input)); }
    if Canonical(shape, Build(slug, input)) {
      BackReordered(Unsorted(slug, input), Build(slug, input));
      CanonicalMoves(shape, Build(slug, input), Unsorted(slug, input));
    }
  }

  lemma {:induction false} BackReordered(a: Document, b: Document)
    requires Reordered(a, b)
    ensures Reordered(b, a)
  {}

  function LegacyId(item: Item): string { item.entity.id }

  predicate PlainItem(shape: Shape, item: Item) {
    var e := item.entity;
    && !Blank(e.name) && !Blank(e.typ) && IsLocated(e) && !Blank(e.resource.title)
    && e.oid.scope != "db" && !shape(e.oid.Text()) && !shape(ResourceId(e.resource))
  }

  lemma {:induction false} NamesUnique(items: seq<Item>, i: nat)
    requires i < |items| && Distinct(Map(LegacyId, items))
    ensures Target(Names(items), items[i].entity.id) == TextOf(items[i])
  {
    var n := |items| - 1;
    var ids := Map(LegacyId, items);
    TextSolid(items[n].entity.oid);
    if i < n {
      assert Map(LegacyId, items[..n]) == ids[..n];
      NamesUnique(items[..n], i);
      assert ids[i] != ids[n];
    }
  }

  lemma {:induction false} MakerIsItem(items: seq<Item>, m: Entity)
    requires m in ResourcesOf(items).makers
    ensures exists i :: 0 <= i < |items| && items[i].entity == m
  {
    var n := |items| - 1;
    if m in ResourcesOf(items[..n]).makers {
      MakerIsItem(items[..n], m);
      var i :| 0 <= i < n && items[..n][i].entity == m;
      assert items[i].entity == m;
    } else {
      assert items[n].entity == m;
    }
  }

  lemma {:induction false} PlainItemsFit(shape: Shape, items: seq<Item>)
    requires forall i | 0 <= i < |items| :: PlainItem(shape, items[i])
    ensures ItemsFit(shape, items)
  {
    hide Blank, ResourcesOf, IsFirst, IsLocated, MakerFit;
    forall i | 0 <= i < |items| ensures !shape(TextOf(items[i])) && Observed(items, TextOf(items[i]))
        && NamedFirst(items[i])
    {
      assert PlainItem(shape, items[i]);
    }
    forall m | m in ResourcesOf(items).makers ensures MakerFit(shape, items, m) { PlainMakerFit(shape, items, m); }
  }

  lemma {:induction false} ScopeApart(o: ObjectId, r: Resource)
    requires o.scope != "db"
    ensures o.Text() != ResourceId(r)
  {
    if o.Text() == ResourceId(r) { TextInjective(o, ObjectId("db", r.name)); }
  }

  lemma {:induction false} PlainMakerFit(shape: Shape, items: seq<Item>, m: Entity)
    requires forall i | 0 <= i < |items| :: PlainItem(shape, items[i])
    requires m in ResourcesOf(items).makers
    ensures MakerFit(shape, items, m)
  {
    hide Blank, ResourcesOf, IsLocated, ResourceId;
    MakerIsItem(items, m);
    var i :| 0 <= i < |items| && items[i].entity == m;
    assert PlainItem(shape, items[i]);
    var texts := Texts(items);
    forall j | 0 <= j < |texts| ensures texts[j] != ResourceId(m.resource) {
      assert PlainItem(shape, items[j]);
      ScopeApart(items[j].entity.oid, m.resource);
    }
  }

  /** Distinct ids, names, types and a file for every entity are enough. */
  lemma {:induction false} PlainInputPasses(shape: Shape, slug: Slug, input: Input)
    requires !Blank(input.serviceName) && Distinct(Map(LegacyId, Items(input)))
    requires forall i | 0 <= i < |Items(input)| :: PlainItem(shape, Items(input)[i])
    requires forall text :: !shape(FlowId(slug, text))
    ensures Canonical(shape, Build(slug, input))
  {
    hide Canonical, Build, ItemsFit, PlainItem, Items, FlowId, Blank, Distinct, Names, Flowed, Joined;
    PlainItemsFit(shape, Items(input));
    forall i | 0 <= i < |input.exposures| ensures Reached(input, input.exposures[i].oid.Text()) {
      ExposureItem(input, i);
      NamesUnique(Items(input), i);
    }
    BuildPassesIff(shape, slug, input);
  }

  /** A dependency that carries the id of an exposure takes the exposure's flow away. */
  lemma {:induction false} SharedIdFails(shape: Shape, slug: Slug, input: Input, x: Entity, y: Entity)
    requires input.exposures == [x] && input.dependencies == [y] && input.connections == []
    requires x.id == y.id && x.oid != y.oid
    ensures !Canonical(shape, Build(slug, input))
  {
    hide Canonical, Build, ItemsFit, FlowsFit, Blank;
    BuildPassesIff(shape, slug, input);
    var items := Items(input);
    assert items == [AsExposure(x)] + [AsDependency(y)];
    assert items[..1] == [AsExposure(x)];
    assert Target(NamesOf(input), x.id) == y.oid.Text();
    if x.oid.Text() == y.oid.Text() { TextInjective(x.oid, y.oid); }
    assert !Reached(input, x.oid.Text());
    assert input.exposures[0] == x;
  }
}
