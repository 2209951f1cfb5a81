/** What the objects of a built document look like, told from the entities alone. */
module ProtocolOutline {
  import opened Lists
  import opened Protocol
  import opened ProtocolBuild
  import opened ProtocolLaws
  import opened Text

  function TextOf(item: Item): string { item.entity.oid.Text() }

  function Texts(items: seq<Item>): seq<string> { Map(TextOf, items) }

  function Names(items: seq<Item>): map<string, string> {
    if items == [] then map[]
    else Names(items[..|items| - 1])[items[|items| - 1].entity.id := TextOf(items[|items| - 1])]
  }

  /** The database resources: the keys seen so far, and the operations an object was made from. */
  datatype Resources = Resources(keys: map<string, string>, makers: seq<Entity>)

  predicate HasMaker(makers: seq<Entity>, id: string) {
    exists m :: m in makers && ResourceId(m.resource) == id
  }

  /** The operation makes a new resource object. */
  predicate Makes(r: Resources, item: Item) {
    NeedsResource(item) && item.entity.resource.key !in r.keys && !HasMaker(r.makers, ResourceId(item.entity.resource))
  }

  function ResourceStep(r: Resources, item: Item): Resources {
    if !NeedsResource(item) || item.entity.resource.key in r.keys then r
    else
      var keys := r.keys[item.entity.resource.key := ResourceId(item.entity.resource)];
      Resources(keys, if Makes(r, item) then r.makers + [item.entity] else r.makers)
  }

  function ResourcesOf(items: seq<Item>): Resources {
    if items == [] then Resources(map[], [])
    else
      var before, item := items[..|items| - 1], items[|items| - 1];
      if TextOf(item) in Texts(before) then ResourcesOf(before) else ResourceStep(ResourcesOf(before), item)
  }

  /** An object without its references. */
  function Head(o: Object): Object { o.(observations := [], evidenceRefs := []) }

  function NewHeads(r: Resources, item: Item): seq<Object> {
    (if Makes(r, item) then [ResourceObject(item.entity, [], [])] else []) + [EntityObject(item, [], [])]
  }

  /** The objects, without their references, in the order they are made. */
  function Outline(items: seq<Item>): seq<Object> {
    if items == [] then []
    else
      var before, item := items[..|items| - 1], items[|items| - 1];
      if TextOf(item) in Texts(before) then Outline(before)
      else Outline(before) + NewHeads(ResourcesOf(before), item)
  }

  ghost predicate ObsRefsOk(s: State) {
    forall o | o in s.observations :: o.objectRef in Map(IdOf, s.objects)
  }

  ghost predicate Outlined(items: seq<Item>, s: State) {
    && Map(Head, s.objects) == Outline(items)
    && s.resources == ResourcesOf(items).keys
    && (forall t :: t in s.known <==> t in Texts(items))
    && s.oldToNew == Names(items)
    && s.flows == [] && s.flowedFrom == {}
  }

  lemma {:induction false} EntityNotResource(item: Item)
    ensures !BucketOf(item).DBResources?
  {}

  ghost predicate ResourceAmong(objects: seq<Object>, id: string) {
    exists o :: o in objects && o.bucket.DBResources? && o.id == id
  }

  lemma {:induction false} AmongSum(a: seq<Object>, b: seq<Object>, id: string)
    ensures ResourceAmong(a + b, id) <==> ResourceAmong(a, id) || ResourceAmong(b, id)
  {
    if o :| o in a && o.bucket.DBResources? && o.id == id { assert o in a + b; }
    if o :| o in b && o.bucket.DBResources? && o.id == id { assert o in a + b; }
  }

  lemma {:induction false} OutlineResources(items: seq<Item>, id: string)
    ensures ResourceAmong(Outline(items), id) <==> HasMaker(ResourcesOf(items).makers, id)
  {
    hide ResourceAmong, HasMaker, NewHeads, Texts, NeedsResource, ResourceId;
    if items == [] {
      assert !ResourceAmong([], id) && !HasMaker([], id) by { NoneAmong(id); }
    } else {
      var before, item := items[..|items| - 1], items[|items| - 1];
      OutlineResources(before, id);
      if TextOf(item) !in Texts(before) {
        var r := ResourcesOf(before);
        AmongSum(Outline(before), NewHeads(r, item), id);
        NewResources(r, item, id);
        MakersPush(r.makers, item.entity, id);
      }
    }
  }

  lemma {:induction false} NoneAmong(id: string)
    ensures !ResourceAmong([], id) && !HasMaker([], id)
  {}

  lemma {:induction false} NewResources(r: Resources, item: Item, id: string)
    ensures ResourceAmong(NewHeads(r, item), id) <==> Makes(r, item) && ResourceId(item.entity.resource) == id
  {
    EntityNotResource(item);
    hide BucketOf, KindOf, HasMaker, Confidence, ResourceId;
    if Makes(r, item) { assert ResourceObject(item.entity, [], []) in NewHeads(r, item); }
  }

  lemma {:induction false} MakersPush(makers: seq<Entity>, e: Entity, id: string)
    ensures HasMaker(makers + [e], id) <==> HasMaker(makers, id) || ResourceId(e.resource) == id
  {
    if HasMaker(makers, id) {
      var m :| m in makers && ResourceId(m.resource) == id;
      assert m in makers + [e];
    }
    assert e in makers + [e];
  }

  lemma {:induction false} HeadsResources(objects: seq<Object>, id: string)
    ensures HasResource(objects, id) <==> ResourceAmong(Map(Head, objects), id)
  {
    var heads := Map(Head, objects);
    if HasResource(objects, id) {
      var i :| 0 <= i < |objects| && objects[i].bucket.DBResources? && objects[i].id == id;
      assert heads[i] in heads;
    }
    if o :| o in heads && o.bucket.DBResources? && o.id == id {
      var i :| 0 <= i < |heads| && heads[i] == o;
      assert objects[i] in objects;
    }
  }

  lemma {:induction false} IdsOfHeads(objects: seq<Object>)
    ensures Map(IdOf, objects) == Map(IdOf, Map(Head, objects))
  {}

  // The builder follows the outline

  ghost predicate Solid(refs: seq<string>) {
    forall ref | ref in refs :: Trim(ref) == ref && ref != ""
  }

  lemma {:induction false} NumberedRefsSolid(refs: seq<string>, ids: seq<string>, tag: string)
    requires NumOk(ids, tag) && Within(refs, ids) && tag != "" && !Space(tag[0])
    ensures Solid(refs)
  {
    hide NumberedId, Stem, Count, Trim, Distinct;
    forall ref | ref in refs ensures Trim(ref) == ref && ref != "" {
      var i :| 0 <= i < |ids| && ids[i] == ref;
      assert Numbered(ids, tag, ids[i]);
      var o: ObjectId, k: nat :| 1 <= k <= Count(ids, Stem(tag, o.Text())) && ref == NumberedId(tag, o.Text(), k);
      NumberedSolid(tag, o.Text(), k);
    }
  }

  lemma {:induction false} AppendUniqueKeeps(list: seq<string>, vals: seq<string>, ids: seq<string>)
    requires Solid(vals) && Within(list, ids) && Within(vals, ids)
    ensures Within(AppendUnique(list, vals), ids)
    ensures AppendUnique(list, vals) != [] <==> list != [] || vals != []
  {
    hide Trim;
    if vals != [] {
      var n := |vals| - 1;
      assert vals[n] in vals;
      AppendUniqueKeeps(list, vals[..n], ids);
    }
  }

  ghost predicate ObsRefsBut(s: State, oid: string) {
    forall o | o in s.observations :: o.objectRef in Map(IdOf, s.objects) || o.objectRef == oid
  }

  lemma {:induction false} RecordObsRefs(s: State, r: Recorded, oid: string, e: Entity, fallback: string, but: string)
    requires ObsRefsBut(s, but) && RecordedFine(s, r, oid, e, fallback)
    requires oid == but || oid in Map(IdOf, r.state.objects) || forall o | o in s.observations ::
        o.objectRef in Map(IdOf, s.objects)
    ensures oid == but || oid in Map(IdOf, r.state.objects) ==> ObsRefsBut(r.state, but)
    ensures (forall o | o in s.observations :: o.objectRef in Map(IdOf, s.objects)) ==> ObsRefsBut(r.state, oid)
  {
    hide Within;
    var list := r.state.observations;
    forall o | o in list
      ensures (oid == but || oid in Map(IdOf, r.state.objects)
          ==> o.objectRef in Map(IdOf, r.state.objects) || o.objectRef == but)
      ensures o.objectRef == oid || o in s.observations
    {
      var i :| 0 <= i < |list| && list[i] == o;
      if i < |s.observations| { assert s.observations[i] == list[..|s.observations|][i]; }
    }
  }

  /** A repeated entity adds references to the object it repeats, and changes nothing else about the objects. */
  lemma {:induction false} MergeKeeps(s: State, o: ObjectId, e: Entity)
    requires RefsInv(s) && ObsRefsOk(s) && o.Text() in Map(IdOf, s.objects)
    ensures var t := MergeDuplicate(s, o.Text(), e);
            && RefsInv(t) && ObsRefsOk(t) && Map(Head, t.objects) == Map(Head, s.objects)
            && t == s.(objects := t.objects, observations := t.observations, evidence := t.evidence, evSeen := t.evSeen)
  {
    hide NumOk, Record, Count, AppendUnique, Within, SeenOk, EvidenceFine, Pick, Find;
    RecordKeeps(s, o, e, "deterministic");
    var r := Record(s, o.Text(), e, "deterministic");
    var t := MergeDuplicate(s, o.Text(), e);
    RecordObsRefs(s, r, o.Text(), e, "deterministic", o.Text());
    var i := Pick(s.objects, o.Text());
    assert i >= 0 by {
      var j :| 0 <= j < |s.objects| && Map(IdOf, s.objects)[j] == o.Text();
      assert s.objects[j] in s.objects;
    }
    var obsIds, evIds := Map(ObservationId, r.state.observations), Map(EvidenceId, r.state.evidence);
    NumberedRefsSolid(r.observations, obsIds, "obs.");
    NumberedRefsSolid(r.evidence, evIds, "ev.");
    assert s.objects[i] in r.state.objects;
    AppendUniqueKeeps(s.objects[i].observations, r.observations, obsIds);
    AppendUniqueKeeps(s.objects[i].evidenceRefs, r.evidence, evIds);
    UpdatedHeads(s.objects, i, AddRefs(s.objects[i], r.observations, r.evidence));
    IdsOfHeads(s.objects);
    IdsOfHeads(t.objects);
  }

  lemma {:induction false} UpdatedHeads(objects: seq<Object>, i: nat, o: Object)
    requires i < |objects| && Head(o) == Head(objects[i])
    ensures Map(Head, objects[i := o]) == Map(Head, objects)
  {}

  ghost predicate Extends(s: State, t: State) {
    s.evidence <= t.evidence && |s.observations| <= |t.observations|
        && t.observations[..|s.observations|] == s.observations
  }

  lemma {:induction false} ExtendsWithin(s: State, t: State, obs: seq<string>, ev: seq<string>)
    requires Extends(s, t) && Within(obs, Map(ObservationId, s.observations)) && Within(ev, Map(EvidenceId, s.evidence))
    ensures Within(obs, Map(ObservationId, t.observations)) && Within(ev, Map(EvidenceId, t.evidence))
  {
    var a, b := Map(ObservationId, s.observations), Map(ObservationId, t.observations);
    var c, d := Map(EvidenceId, s.evidence), Map(EvidenceId, t.evidence);
    assert a <= b by { assert b[..|a|] == a; }
    assert c <= d by { assert d[..|c|] == c; }
    hide Within;
    WithinGrows(obs, a, b);
    WithinGrows(ev, c, d);
  }

  /** ensureDBResource, seen from the objects. */
  lemma {:induction false} EnsureKeeps(s: State, e: Entity, but: string)
    requires RefsInv(s) && ObsRefsBut(s, but)
    ensures var t := EnsureResource(s, e);
            var makes := e.resource.key !in s.resources && !HasResource(s.objects, ResourceId(e.resource));
            && RefsInv(t) && ObsRefsBut(t, but)
            && Map(Head, t.objects) == Map(Head, s.objects) + (if makes then [ResourceObject(e, [], [])] else [])
            && t.resources == (if e.resource.key in s.resources then s.resources
                else s.resources[e.resource.key := ResourceId(e.resource)])
            && t == s.(objects := t.objects, observations := t.observations, evidence := t.evidence, evSeen := t.evSeen,
                resources := t.resources)
            && Extends(s, t)
  {
    hide NumOk, Record, Within, SeenOk, EvidenceFine, HasResource;
    if e.resource.key !in s.resources && !HasResource(s.objects, ResourceId(e.resource)) {
      var o := ObjectId("db", e.resource.name);
      assert o.Text() == ResourceId(e.resource);
      var s1 := s.(resources := s.resources[e.resource.key := ResourceId(e.resource)]);
      RecordKeeps(s1, o, e, "derived_db_resource");
      var r := Record(s1, o.Text(), e, "derived_db_resource");
      PushObject(s1, r, o.Text(), e, "derived_db_resource", but, ResourceObject(e, r.observations, r.evidence));
    }
  }

  /** Record an entity, then append the object the record is about. */
  lemma {:induction false} PushObject(s: State, r: Recorded, oid: string, e: Entity, fallback: string, but: string,
      o: Object)
    requires RefsInv(r.state) && RecordedFine(s, r, oid, e, fallback) && ObsRefsBut(s, but)
    requires o.id == oid && o.observations == r.observations && o.evidenceRefs == r.evidence
    ensures var t := r.state.(objects := r.state.objects + [o]);
            && RefsInv(t) && ObsRefsBut(t, but) && Map(Head, t.objects) == Map(Head, s.objects) + [Head(o)]
  {
    hide RefsInv, ObsRefsBut, RecordedFine;
    PushRefs(s, r, oid, e, fallback, but, o);
    RecordedWithin(s, r, oid, e, fallback);
    PushRefsInv(r.state, o);
    assert Map(Head, s.objects + [o]) == Map(Head, s.objects) + [Head(o)];
  }

  lemma {:induction false} RecordedWithin(s: State, r: Recorded, oid: string, e: Entity, fallback: string)
    requires RecordedFine(s, r, oid, e, fallback)
    ensures r.state.objects == s.objects
    ensures Within(r.observations, Map(ObservationId, r.state.observations))
        && Within(r.evidence, Map(EvidenceId, r.state.evidence))
  {}

  lemma {:induction false} PushRefsInv(t: State, o: Object)
    requires RefsInv(t) && Within(o.observations, Map(ObservationId, t.observations))
        && Within(o.evidenceRefs, Map(EvidenceId, t.evidence))
    ensures RefsInv(t.(objects := t.objects + [o]))
  {
    hide NumOk, Within, SeenOk, EvidenceFine;
  }

  lemma {:induction false} PushRefs(s: State, r: Recorded, oid: string, e: Entity, fallback: string, but: string,
      o: Object)
    requires RecordedFine(s, r, oid, e, fallback) && ObsRefsBut(s, but) && o.id == oid
    ensures ObsRefsBut(r.state.(objects := r.state.objects + [o]), but)
  {
    hide Within;
    var ids := Map(IdOf, r.state.objects + [o]);
    assert ids == Map(IdOf, s.objects) + [oid];
    var list := r.state.observations;
    forall ob | ob in list ensures ob.objectRef in ids || ob.objectRef == but {
      var i :| 0 <= i < |list| && list[i] == ob;
      if i < |s.observations| {
        assert s.observations[i] == list[..|s.observations|][i];
        assert s.observations[i] in s.observations;
      }
    }
  }

  ghost predicate ItemsInv(items: seq<Item>, s: State) {
    RefsInv(s) && ObsRefsOk(s) && Outlined(items, s)
  }

  lemma {:induction false} TextsPush(items: seq<Item>, item: Item, t: string)
    ensures t in Texts(items + [item]) <==> t in Texts(items) || t == TextOf(item)
  {
    assert Texts(items + [item]) == Texts(items) + [TextOf(item)];
  }

  lemma {:induction false} TextHasHead(items: seq<Item>, t: string)
    requires t in Texts(items)
    ensures exists o :: o in Outline(items) && o.id == t && !o.bucket.DBResources?
  {
    hide Makes, BucketOf, KindOf;
    var before, item := items[..|items| - 1], items[|items| - 1];
    assert items == before + [item];
    TextsPush(before, item, t);
    EntityNotResource(item);
    if t in Texts(before) {
      TextHasHead(before, t);
      var o :| o in Outline(before) && o.id == t && !o.bucket.DBResources?;
      assert o in Outline(items);
    } else {
      assert EntityObject(item, [], []) in NewHeads(ResourcesOf(before), item);
      assert EntityObject(item, [], []) in Outline(items);
    }
  }

  lemma {:induction false} RepeatKeeps(items: seq<Item>, s: State, item: Item)
    requires ItemsInv(items, s) && TextOf(item) in Texts(items)
    ensures ItemsInv(items + [item], AddItem(s, item))
  {
    hide RefsInv, ObsRefsOk, MergeDuplicate, NewHeads, ResourceStep, Head;
    var oid := TextOf(item);
    var s1 := s.(oldToNew := s.oldToNew[item.entity.id := oid]);
    TextHasHead(items, oid);
    IdsOfHeads(s.objects);
    assert oid in Map(IdOf, s.objects) by { HeadIdThere(Outline(items), oid); }
    SameRefs(s, s1);
    MergeKeeps(s1, item.entity.oid, item.entity);
    assert (items + [item])[..|items|] == items;
    forall t ensures t in Texts(items + [item]) <==> t in Texts(items) { TextsPush(items, item, t); }
  }

  lemma {:induction false} HeadIdThere(objects: seq<Object>, id: string)
    requires exists o :: o in objects && o.id == id
    ensures id in Map(IdOf, objects)
  {
    var o :| o in objects && o.id == id;
    var i :| 0 <= i < |objects| && objects[i] == o;
    assert Map(IdOf, objects)[i] == id;
  }

  /** The invariants on references do not read the other fields. */
  lemma {:induction false} SameRefs(s: State, t: State)
    requires s.objects == t.objects && s.observations == t.observations && s.evidence == t.evidence
        && s.evSeen == t.evSeen
    ensures (RefsInv(s) <==> RefsInv(t)) && (ObsRefsOk(s) <==> ObsRefsOk(t))
    ensures forall oid :: ObsRefsBut(s, oid) <==> ObsRefsBut(t, oid)
  {}

  /** The state just before addExposure or addDependency appends the new object. */
  function Ready(s: State, item: Item): State {
    var e := item.entity;
    var r := Record(s.(known := s.known + {TextOf(item)}), TextOf(item), e, "deterministic");
    var named := r.state.(oldToNew := s.oldToNew[e.id := TextOf(item)]);
    if NeedsResource(item) then EnsureResource(named, e) else named
  }

  lemma {:induction false} ReadyKeeps(items: seq<Item>, s: State, item: Item)
    requires ItemsInv(items, s) && TextOf(item) !in Texts(items)
    ensures var t := Ready(s, item);
            var r := Record(s.(known := s.known + {TextOf(item)}), TextOf(item), item.entity, "deterministic");
            var res := ResourcesOf(items);
            && RefsInv(t) && ObsRefsBut(t, TextOf(item))
            && Within(r.observations, Map(ObservationId, t.observations))
                && Within(r.evidence, Map(EvidenceId, t.evidence))
            && Map(Head, t.objects) == Outline(items)
                + (if Makes(res, item) then [ResourceObject(item.entity, [], [])] else [])
            && t.resources == ResourceStep(res, item).keys
            && t.known == s.known + {TextOf(item)} && t.oldToNew == s.oldToNew[item.entity.id := TextOf(item)]
            && t.flows == [] && t.flowedFrom == {}
  {
    hide RefsInv, Within, Record, EnsureResource, ResourceId, ResourceObject, Outline, ResourcesOf, Head;
    var e := item.entity;
    var s1 := s.(known := s.known + {TextOf(item)});
    SameRefs(s, s1);
    RecordKeeps(s1, e.oid, e, "deterministic");
    var r := Record(s1, TextOf(item), e, "deterministic");
    RecordObsRefs(s1, r, TextOf(item), e, "deterministic", TextOf(item));
    var named := r.state.(oldToNew := s.oldToNew[e.id := TextOf(item)]);
    SameRefs(r.state, named);
    hide HasResource, HasMaker, ObsRefsBut;
    if NeedsResource(item) {
      EnsureKeeps(named, e, TextOf(item));
      ExtendsWithin(named, EnsureResource(named, e), r.observations, r.evidence);
      HeadsResources(s.objects, ResourceId(e.resource));
      OutlineResources(items, ResourceId(e.resource));
    }
  }

  lemma {:induction false} PushEntity(t: State, o: Object)
    requires RefsInv(t) && ObsRefsBut(t, o.id)
    requires Within(o.observations, Map(ObservationId, t.observations))
        && Within(o.evidenceRefs, Map(EvidenceId, t.evidence))
    ensures var u := t.(objects := t.objects + [o]);
            RefsInv(u) && ObsRefsOk(u) && Map(Head, u.objects) == Map(Head, t.objects) + [Head(o)]
  {
    hide RefsInv, Within;
    PushRefsInv(t, o);
    assert Map(IdOf, t.objects + [o]) == Map(IdOf, t.objects) + [o.id];
  }

  lemma {:induction false} OutlinePush(items: seq<Item>, item: Item, u: State, known: set<string>)
    requires TextOf(item) !in Texts(items) && forall t :: t in known <==> t in Texts(items)
    requires Map(Head, u.objects) == Outline(items) + NewHeads(ResourcesOf(items), item)
    requires u.resources == ResourceStep(ResourcesOf(items), item).keys
    requires u.known == known + {TextOf(item)} && u.oldToNew == Names(items)[item.entity.id := TextOf(item)]
    requires u.flows == [] && u.flowedFrom == {}
    ensures Outlined(items + [item], u)
  {
    hide NewHeads, ResourceStep, Head, Map;
    assert (items + [item])[..|items|] == items;
    forall x
      ensures x in Texts(items + [item]) <==> x in Texts(items) || x == TextOf(item)
    {
      TextsPush(items, item, x);
    }
  }

  lemma {:induction false} NewKeeps(items: seq<Item>, s: State, item: Item)
    requires ItemsInv(items, s) && TextOf(item) !in Texts(items)
    ensures ItemsInv(items + [item], AddItem(s, item))
  {
    hide Record, EnsureResource, ResourceObject, Makes, RefsInv, ObsRefsOk, ObsRefsBut, Within, NeedsResource, BucketOf,
        KindOf,
         ResourceStep, Outline, ResourcesOf, Names;
    ReadyKeeps(items, s, item);
    var t := Ready(s, item);
    var r := Record(s.(known := s.known + {TextOf(item)}), TextOf(item), item.entity, "deterministic");
    var o := EntityObject(item, r.observations, r.evidence);
    PushEntity(t, o);
    var u := t.(objects := t.objects + [o]);
    assert AddItem(s, item) == u;
    assert Head(o) == EntityObject(item, [], []);
    hide Head;
    OutlineSum(items, item);
    OutlinePush(items, item, u, s.known);
  }

  lemma {:induction false} OutlineSum(items: seq<Item>, item: Item)
    ensures var r := ResourcesOf(items);
            Outline(items) + (if Makes(r, item) then [ResourceObject(item.entity, [], [])] else [])
                + [EntityObject(item, [], [])]
            == Outline(items) + NewHeads(r, item)
  {
    hide Makes, ResourceObject, EntityObject, Outline, ResourcesOf;
  }

  lemma {:induction false} AddItemsKeep(items: seq<Item>)
    ensures ItemsInv(items, AddItems(START, items))
  {
    hide ItemsInv, AddItem;
    if items == [] {
      assert ItemsInv([], START) by { StartInv(); }
    } else {
      var n := |items| - 1;
      AddItemsKeep(items[..n]);
      assert items == items[..n] + [items[n]];
      if TextOf(items[n]) in Texts(items[..n]) {
        RepeatKeeps(items[..n], AddItems(START, items[..n]), items[n]);
      } else {
        NewKeeps(items[..n], AddItems(START, items[..n]), items[n]);
      }
    }
  }

  lemma {:induction false} StartInv()
    ensures ItemsInv([], START)
  {}
}
