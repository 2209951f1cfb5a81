/** Which objects of a built document end up with observations and evidence. */
module ProtocolFill {
  import opened Lists
  import opened Protocol
  import opened ProtocolBuild
  import opened ProtocolLaws
  import opened ProtocolOutline
  import opened Text

  predicate IsLocated(e: Entity) {
    Located(e.locations) != []
  }

  /** Some entity of that object id names a file. */
  ghost predicate Observed(items: seq<Item>, t: string) {
    exists i :: 0 <= i < |items| && TextOf(items[i]) == t && IsLocated(items[i].entity)
  }

  ghost predicate MakerLocated(makers: seq<Entity>, id: string) {
    exists m :: m in makers && ResourceId(m.resource) == id && IsLocated(m)
  }

  ghost predicate FilledOne(items: seq<Item>, o: Object) {
    && (o.observations != [] ==> o.evidenceRefs != [])
    && (o.observations != [] <==>
          if o.bucket.DBResources? then MakerLocated(ResourcesOf(items).makers, o.id) else Observed(items, o.id))
  }

  ghost predicate Filled(items: seq<Item>, objects: seq<Object>) {
    forall k | 0 <= k < |objects| :: FilledOne(items, objects[k])
  }

  lemma {:induction false} CitesFollow(e: Entity, fallback: string)
    requires IsLocated(e)
    ensures Cites(e, fallback) != []
  {}

  lemma {:induction false} RecordFills(s: State, o: ObjectId, e: Entity, fallback: string)
    requires RefsInv(s)
    ensures var r := Record(s, o.Text(), e, fallback);
            && r.state.objects == s.objects
            && (r.observations != [] <==> IsLocated(e)) && (r.observations != [] ==> r.evidence != [])
  {
    hide RefsInv, Record, Cites, Located, Within;
    RecordKeeps(s, o, e, fallback);
    if IsLocated(e) { CitesFollow(e, fallback); }
  }

  lemma {:induction false} ObservedPush(items: seq<Item>, item: Item, t: string)
    ensures Observed(items + [item], t) <==> Observed(items, t) || (t == TextOf(item) && IsLocated(item.entity))
  {
    var r := items + [item];
    if Observed(items, t) {
      var i :| 0 <= i < |items| && TextOf(items[i]) == t && IsLocated(items[i].entity);
      assert r[i] == items[i];
    }
    if Observed(r, t) {
      var i :| 0 <= i < |r| && TextOf(r[i]) == t && IsLocated(r[i].entity);
      assert i < |items| ==> items[i] == r[i];
    }
    assert r[|items|] == item;
  }

  lemma {:induction false} HeadHasText(items: seq<Item>, o: Object)
    requires o in Outline(items) && !o.bucket.DBResources?
    ensures o.id in Texts(items)
  {
    hide Makes, BucketOf, KindOf;
    var before, item := items[..|items| - 1], items[|items| - 1];
    assert items == before + [item];
    TextsPush(before, item, o.id);
    if o in Outline(before) { HeadHasText(before, o); }
  }

  lemma {:induction false} ObjectHasText(items: seq<Item>, objects: seq<Object>, k: nat)
    requires Map(Head, objects) == Outline(items) && k < |objects| && !objects[k].bucket.DBResources?
    ensures objects[k].id in Texts(items)
  {
    assert Outline(items)[k] == Head(objects[k]);
    HeadHasText(items, Head(objects[k]));
  }

  lemma {:induction false} SameIdIndex(objects: seq<Object>, i: nat, j: nat)
    requires Distinct(Map(IdOf, objects)) && i < |objects| && j < |objects| && objects[i].id == objects[j].id
    ensures i == j
  {
    var ids := Map(IdOf, objects);
    assert ids[i] == ids[j];
  }

  /** Merging a repeated entity fills its object, and no other. */
  lemma {:induction false} MergeFills(s: State, o: ObjectId, e: Entity) returns (i: nat)
    requires RefsInv(s) && o.Text() in Map(IdOf, s.objects)
    ensures var t := MergeDuplicate(s, o.Text(), e);
            && i < |s.objects| == |t.objects| && s.objects[i].id == o.Text()
            && Head(t.objects[i]) == Head(s.objects[i])
            && (forall k | 0 <= k < |s.objects| && k != i :: t.objects[k] == s.objects[k])
            && (t.objects[i].observations != [] <==> s.objects[i].observations != [] || IsLocated(e))
            && (s.objects[i].evidenceRefs != [] ==> t.objects[i].evidenceRefs != [])
            && (IsLocated(e) ==> t.objects[i].evidenceRefs != [])
  {
    hide RefsInv, Record, Cites, Located, Within, Head, AppendUnique;
    RecordKeeps(s, o, e, "deterministic");
    RecordFills(s, o, e, "deterministic");
    var r := Record(s, o.Text(), e, "deterministic");
    assert Pick(s.objects, o.Text()) >= 0 by {
      var j :| 0 <= j < |s.objects| && Map(IdOf, s.objects)[j] == o.Text();
      assert s.objects[j] in s.objects;
    }
    i := Pick(s.objects, o.Text());
    RefsSolid(r.state, r.observations, r.evidence);
    AppendKeeps(s.objects[i].observations, r.observations);
    AppendKeeps(s.objects[i].evidenceRefs, r.evidence);
    AddRefsHead(s.objects[i], r.observations, r.evidence);
  }

  lemma {:induction false} AddRefsHead(o: Object, a: seq<string>, b: seq<string>)
    ensures Head(AddRefs(o, a, b)) == Head(o)
  {}

  lemma {:induction false} RefsSolid(s: State, a: seq<string>, b: seq<string>)
    requires RefsInv(s) && Within(a, Map(ObservationId, s.observations)) && Within(b, Map(EvidenceId, s.evidence))
    ensures Solid(a) && Solid(b)
  {
    hide NumOk;
    NumberedRefsSolid(a, Map(ObservationId, s.observations), "obs.");
    NumberedRefsSolid(b, Map(EvidenceId, s.evidence), "ev.");
  }

  lemma {:induction false} AppendKeeps(list: seq<string>, vals: seq<string>)
    requires Solid(vals)
    ensures AppendUnique(list, vals) != [] <==> list != [] || vals != []
  {
    assert Within(list, list + vals) && Within(vals, list + vals);
    AppendUniqueKeeps(list, vals, list + vals);
  }

  lemma {:induction false} RepeatFills(items: seq<Item>, s: State, item: Item)
    requires ItemsInv(items, s) && TextOf(item) in Texts(items) && Distinct(Map(IdOf, s.objects))
        && Filled(items, s.objects)
    ensures Filled(items + [item], AddItem(s, item).objects)
  {
    hide RefsInv, ObsRefsOk, MergeDuplicate, Distinct, Outline, Observed, MakerLocated, IsLocated;
    var oid, e := TextOf(item), item.entity;
    var s1 := s.(oldToNew := s.oldToNew[e.id := oid]);
    TextHasHead(items, oid);
    IdsOfHeads(s.objects);
    HeadIdThere(Outline(items), oid);
    SameRefs(s, s1);
    var i := MergeFills(s1, e.oid, e);
    var t := AddItem(s, item);
    assert (items + [item])[..|items|] == items;
    assert !s.objects[i].bucket.DBResources? by {
      var h :| h in Outline(items) && h.id == oid && !h.bucket.DBResources?;
      var j :| 0 <= j < |s.objects| && Outline(items)[j] == h;
      assert Head(s.objects[j]) == h;
      SameIdIndex(s.objects, i, j);
    }
    forall k | 0 <= k < |t.objects| ensures FilledOne(items + [item], t.objects[k]) {
      ObservedPush(items, item, s.objects[k].id);
      assert FilledOne(items, s.objects[k]);
      if k != i && s.objects[k].id == oid { SameIdIndex(s.objects, i, k); }
    }
  }

  lemma {:induction false} MakerPush(makers: seq<Entity>, e: Entity, id: string)
    ensures MakerLocated(makers + [e], id) <==>
        MakerLocated(makers, id) || (ResourceId(e.resource) == id && IsLocated(e))
  {
    if MakerLocated(makers, id) {
      var m :| m in makers && ResourceId(m.resource) == id && IsLocated(m);
      assert m in makers + [e];
    }
    assert e in makers + [e];
  }

  lemma {:induction false} MakerThere(makers: seq<Entity>, id: string)
    requires MakerLocated(makers, id)
    ensures HasMaker(makers, id)
  {}

  /** How the makers of resources change with a new item. */
  lemma {:induction false} ResourceStepMakers(items: seq<Item>, item: Item, id: string)
    requires TextOf(item) !in Texts(items)
    ensures var r := ResourcesOf(items);
            MakerLocated(ResourcesOf(items + [item]).makers, id)
            <==>
                MakerLocated(r.makers, id)
                  || (Makes(r, item) && ResourceId(item.entity.resource) == id && IsLocated(item.entity))
  {
    hide MakerLocated, HasMaker, IsLocated, ResourceId, NeedsResource;
    assert (items + [item])[..|items|] == items;
    MakerPush(ResourcesOf(items).makers, item.entity, id);
  }

  /** The objects after ensureDBResource: as before, or with one more. */
  ghost predicate OneMore(before: seq<Object>, after: seq<Object>, e: Entity) {
    && |after| == |before| + 1 && after[..|before|] == before
    && after[|before|].bucket.DBResources? && after[|before|].id == ResourceId(e.resource)
    && (after[|before|].observations != [] <==> IsLocated(e))
    && (after[|before|].observations != [] ==> after[|before|].evidenceRefs != [])
  }

  lemma {:induction false} EnsureObjects(s: State, e: Entity)
    requires RefsInv(s)
    ensures var t := EnsureResource(s, e);
            if e.resource.key !in s.resources && !HasResource(s.objects, ResourceId(e.resource))
                then OneMore(s.objects, t.objects, e)
            else t.objects == s.objects
  {
    hide RefsInv, Record, HasResource, IsLocated;
    var id := ResourceId(e.resource);
    if e.resource.key !in s.resources && !HasResource(s.objects, id) {
      var o := ObjectId("db", e.resource.name);
      assert o.Text() == id;
      var s2 := s.(resources := s.resources[e.resource.key := id]);
      SameRefs(s, s2);
      RecordFills(s2, o, e, "derived_db_resource");
    }
  }

  lemma {:induction false} ReadyObjects(s: State, item: Item)
    requires RefsInv(s)
    ensures var t := Ready(s, item);
            var e := item.entity;
            if NeedsResource(item) && e.resource.key !in s.resources && !HasResource(s.objects, ResourceId(e.resource))
            then OneMore(s.objects, t.objects, e) else t.objects == s.objects
  {
    hide RefsInv, Record, HasResource, OneMore, NeedsResource, EnsureResource, ResourceId;
    var e := item.entity;
    var s1 := s.(known := s.known + {TextOf(item)});
    SameRefs(s, s1);
    RecordKeeps(s1, e.oid, e, "deterministic");
    var r := Record(s1, TextOf(item), e, "deterministic");
    var named := r.state.(oldToNew := s.oldToNew[e.id := TextOf(item)]);
    SameRefs(r.state, named);
    EnsureObjects(named, e);
  }

  lemma {:induction false} OldStaysFilled(items: seq<Item>, s: State, item: Item, k: nat)
    requires ItemsInv(items, s) && TextOf(item) !in Texts(items) && Filled(items, s.objects) && k < |s.objects|
    ensures FilledOne(items + [item], s.objects[k])
  {
    hide RefsInv, ObsRefsOk, Observed, MakerLocated, IsLocated, HasMaker, HasResource, Makes, Outline, ResourcesOf;
    var o := s.objects[k];
    assert FilledOne(items, o);
    if o.bucket.DBResources? {
      ResourceStepMakers(items, item, o.id);
      assert HasMaker(ResourcesOf(items).makers, o.id) by {
        assert Outline(items)[k] == Head(o);
        AmongThere(Outline(items), k);
        OutlineResources(items, o.id);
      }
      MakesIsNew(ResourcesOf(items), item, o.id);
    } else {
      ObservedPush(items, item, o.id);
      ObjectHasText(items, s.objects, k);
    }
  }

  lemma {:induction false} AmongThere(objects: seq<Object>, k: nat)
    requires k < |objects| && objects[k].bucket.DBResources?
    ensures ResourceAmong(objects, objects[k].id)
  {}

  lemma {:induction false} MakesIsNew(r: Resources, item: Item, id: string)
    requires HasMaker(r.makers, id)
    ensures !(Makes(r, item) && ResourceId(item.entity.resource) == id)
  {}

  lemma {:induction false} NewFills(items: seq<Item>, s: State, item: Item)
    requires ItemsInv(items, s) && TextOf(item) !in Texts(items) && Filled(items, s.objects)
    ensures Filled(items + [item], AddItem(s, item).objects)
  {
    hide RefsInv, ObsRefsOk, Observed, MakerLocated, IsLocated, HasMaker, HasResource, Record, EnsureResource,
        FilledOne, Outline, ResourcesOf, Head, ResourceId, BucketOf, KindOf;
    var e := item.entity;
    var t := Ready(s, item);
    var s1 := s.(known := s.known + {TextOf(item)});
    SameRefs(s, s1);
    RecordFills(s1, e.oid, e, "deterministic");
    var r := Record(s1, TextOf(item), e, "deterministic");
    var o := EntityObject(item, r.observations, r.evidence);
    assert AddItem(s, item).objects == t.objects + [o];
    ReadyObjects(s, item);
    forall k | 0 <= k < |s.objects|
      ensures FilledOne(items + [item], s.objects[k])
    {
      OldStaysFilled(items, s, item, k);
    }
    NewEntityFilled(items, item, o);
    if |t.objects| > |s.objects| {
      HeadsResources(s.objects, ResourceId(e.resource));
      OutlineResources(items, ResourceId(e.resource));
      NewResourceFilled(items, item, t.objects[|s.objects|]);
    }
    assert forall k | 0 <= k < |s.objects| :: t.objects[k] == t.objects[..|s.objects|][k];
  }

  lemma {:induction false} NewEntityFilled(items: seq<Item>, item: Item, o: Object)
    requires TextOf(item) !in Texts(items) && o.id == TextOf(item) && o.bucket == BucketOf(item)
    requires (o.observations != [] <==> IsLocated(item.entity)) && (o.observations != [] ==> o.evidenceRefs != [])
    ensures FilledOne(items + [item], o)
  {
    EntityNotResource(item);
    ObservedPush(items, item, o.id);
    if Observed(items, o.id) { ObservedHasText(items, o.id); }
  }

  lemma {:induction false} ObservedHasText(items: seq<Item>, t: string)
    requires Observed(items, t)
    ensures t in Texts(items)
  {
    var i :| 0 <= i < |items| && TextOf(items[i]) == t && IsLocated(items[i].entity);
    assert Texts(items)[i] == t;
  }

  lemma {:induction false} NewResourceFilled(items: seq<Item>, item: Item, o: Object)
    requires TextOf(item) !in Texts(items) && Makes(ResourcesOf(items), item)
    requires o.bucket.DBResources? && o.id == ResourceId(item.entity.resource)
    requires (o.observations != [] <==> IsLocated(item.entity)) && (o.observations != [] ==> o.evidenceRefs != [])
    ensures FilledOne(items + [item], o)
  {
    hide MakerLocated, HasMaker, IsLocated, ResourcesOf, ResourceId;
    ResourceStepMakers(items, item, o.id);
    if MakerLocated(ResourcesOf(items).makers, o.id) {
      MakerThere(ResourcesOf(items).makers, o.id);
    }
  }

  lemma {:induction false} OutlineGrows(items: seq<Item>, n: nat)
    requires n <= |items|
    ensures Outline(items[..n]) <= Outline(items)
  {
    hide NewHeads, Texts, ResourcesOf;
    if n < |items| {
      OutlineGrows(items[..|items| - 1], n);
      assert items[..|items| - 1][..n] == items[..n];
    } else {
      assert items[..n] == items;
    }
  }

  lemma {:induction false} DistinctInit(a: seq<Object>, b: seq<Object>)
    requires a <= b && Distinct(Map(IdOf, b))
    ensures Distinct(Map(IdOf, a))
  {
    var s, t := Map(IdOf, a), Map(IdOf, b);
    forall i, j | 0 <= i < j < |s| ensures s[i] != s[j] { assert s[i] == t[i] && s[j] == t[j]; }
  }

  /** As long as no object id is used twice, an object is observed exactly if an entity behind it names a file. */
  lemma {:induction false} AddItemsFill(items: seq<Item>)
    requires Distinct(Map(IdOf, Outline(items)))
    ensures Filled(items, AddItems(START, items).objects)
  {
    hide ItemsInv, AddItem, Distinct, Outline;
    if items != [] {
      var n := |items| - 1;
      var s := AddItems(START, items[..n]);
      OutlineGrows(items, n);
      DistinctInit(Outline(items[..n]), Outline(items));
      AddItemsFill(items[..n]);
      AddItemsKeep(items[..n]);
      assert items == items[..n] + [items[n]];
      if TextOf(items[n]) in Texts(items[..n]) {
        IdsFromInv(items[..n], s);
        RepeatFills(items[..n], s, items[n]);
      } else {
        NewFills(items[..n], s, items[n]);
      }
    }
  }

  lemma {:induction false} IdsFromInv(items: seq<Item>, s: State)
    requires ItemsInv(items, s)
    ensures Map(IdOf, s.objects) == Map(IdOf, Outline(items))
  {
    IdsOfHeads(s.objects);
  }
}
