/** The document the builder makes passes the canonical validator exactly when its input is fit for it. */
module ProtocolTheorem {
  import opened Decimal
  import opened Lists
  import opened Protocol
  import opened ProtocolBuild
  import opened ProtocolFill
  import opened ProtocolLaws
  import opened ProtocolOutline
  import opened Sorting
  import opened Text

  /** No earlier item has the same object id. */
  ghost predicate IsFirst(items: seq<Item>, i: nat)
    requires i < |items|
  {
    TextOf(items[i]) !in Texts(items[..i])
  }

  /** What the entities must satisfy: the first one of an object gives it its name and its type. */
  ghost predicate ItemsFit(shape: Shape, items: seq<Item>) {
    && (forall i | 0 <= i < |items| :: !shape(TextOf(items[i])) && Observed(items, TextOf(items[i])))
    && (forall i | 0 <= i < |items| && IsFirst(items, i) :: NamedFirst(items[i]))
    && (forall m | m in ResourcesOf(items).makers :: MakerFit(shape, items, m))
  }

  predicate NamedFirst(item: Item) {
    !Blank(item.entity.name) && (item.dependency ==> !Blank(item.entity.typ))
  }

  predicate MakerFit(shape: Shape, items: seq<Item>, m: Entity) {
    IsLocated(m) && !Blank(m.resource.title) && !shape(ResourceId(m.resource))
        && ResourceId(m.resource) !in Texts(items)
  }

  // The outline, told item by item

  ghost predicate FromItem(items: seq<Item>, o: Object) {
    exists i :: 0 <= i < |items| && IsFirst(items, i) && o == EntityObject(items[i], [], [])
  }

  ghost predicate FromMaker(items: seq<Item>, o: Object) {
    exists m :: m in ResourcesOf(items).makers && o == ResourceObject(m, [], [])
  }

  lemma {:induction false} FromItemPush(items: seq<Item>, item: Item, o: Object)
    ensures FromItem(items + [item], o) <==>
        FromItem(items, o) || (TextOf(item) !in Texts(items) && o == EntityObject(item, [], []))
  {
    var r := items + [item];
    assert r[..|items|] == items;
    forall i | 0 <= i < |items| ensures r[..i] == items[..i] {}
    if FromItem(items, o) {
      var i :| 0 <= i < |items| && IsFirst(items, i) && o == EntityObject(items[i], [], []);
      assert IsFirst(r, i) && r[i] == items[i];
    }
    if FromItem(r, o) {
      var i :| 0 <= i < |r| && IsFirst(r, i) && o == EntityObject(r[i], [], []);
      assert i < |items| ==> IsFirst(items, i) && r[i] == items[i];
    }
    if TextOf(item) !in Texts(items) { assert IsFirst(r, |items|); }
  }

  lemma {:induction false} FromMakerPush(items: seq<Item>, item: Item, o: Object)
    requires TextOf(item) !in Texts(items)
    ensures FromMaker(items + [item], o) <==>
      FromMaker(items, o) || (Makes(ResourcesOf(items), item) && o == ResourceObject(item.entity, [], []))
  {
    hide HasMaker, ResourceObject, ResourceId;
    assert (items + [item])[..|items|] == items;
    var a, b := ResourcesOf(items).makers, ResourcesOf(items + [item]).makers;
    assert b == if Makes(ResourcesOf(items), item) then a + [item.entity] else a;
    if FromMaker(items, o) {
      var m :| m in a && o == ResourceObject(m, [], []);
      assert m in b;
    }
    if Makes(ResourcesOf(items), item) { assert item.entity in b; }
  }

  lemma {:induction false} FromMakerSame(items: seq<Item>, item: Item, o: Object)
    requires TextOf(item) in Texts(items)
    ensures FromMaker(items + [item], o) <==> FromMaker(items, o)
  {
    assert (items + [item])[..|items|] == items;
  }

  /** An object is in the outline exactly if it is made from a first item or from a maker. */
  lemma {:induction false} OutlineSource(items: seq<Item>, o: Object)
    ensures o in Outline(items) <==> FromItem(items, o) || FromMaker(items, o)
  {
    hide FromItem, FromMaker, Makes, Texts, EntityObject, ResourceObject;
    if items == [] {
      NothingFrom(o);
    } else {
      var before, item := items[..|items| - 1], items[|items| - 1];
      assert items == before + [item];
      OutlineSource(before, o);
      FromItemPush(before, item, o);
      if TextOf(item) in Texts(before) { FromMakerSame(before, item, o); } else { FromMakerPush(before, item, o); }
    }
  }

  lemma {:induction false} NothingFrom(o: Object)
    ensures !FromItem([], o) && !FromMaker([], o)
  {}

  ghost predicate NoClash(items: seq<Item>) {
    forall m | m in ResourcesOf(items).makers :: ResourceId(m.resource) !in Texts(items)
  }

  lemma {:induction false} NoClashInit(items: seq<Item>, item: Item)
    requires NoClash(items + [item])
    ensures NoClash(items)
  {
    hide ResourceId, HasMaker;
    assert (items + [item])[..|items|] == items;
    forall m | m in ResourcesOf(items).makers ensures ResourceId(m.resource) !in Texts(items) {
      assert m in ResourcesOf(items + [item]).makers;
      TextsPush(items, item, ResourceId(m.resource));
    }
  }

  lemma {:induction false} OutlineId(items: seq<Item>, id: string)
    ensures id in Map(IdOf, Outline(items)) ==> id in Texts(items) || HasMaker(ResourcesOf(items).makers, id)
  {
    if id in Map(IdOf, Outline(items)) {
      var i :| 0 <= i < |Outline(items)| && Map(IdOf, Outline(items))[i] == id;
      var o := Outline(items)[i];
      if o.bucket.DBResources? {
        AmongThere(Outline(items), i);
        OutlineResources(items, id);
      } else {
        HeadHasText(items, o);
      }
    }
  }

  /** Without a clash between an entity and a resource, no object id is used twice. */
  lemma {:induction false} OutlineDistinct(items: seq<Item>)
    requires NoClash(items)
    ensures Distinct(Map(IdOf, Outline(items)))
  {
    hide Distinct, NoClash, ResourcesOf, HasMaker, EntityObject, ResourceObject;
    if items == [] {
      EmptyDistinct();
      assert Map(IdOf, Outline(items)) == [];
    } else {
      var before, item := items[..|items| - 1], items[|items| - 1];
      assert items == before + [item];
      NoClashInit(before, item);
      OutlineDistinct(before);
      if TextOf(item) !in Texts(before) { NewHeadsDistinct(before, item); }
    }
  }

  lemma {:induction false} EmptyDistinct()
    ensures Distinct<string>([])
  {}

  lemma {:induction false} NewHeadsDistinct(before: seq<Item>, item: Item)
    requires NoClash(before + [item]) && NoClash(before) && TextOf(item) !in Texts(before)
        && Distinct(Map(IdOf, Outline(before)))
    ensures Distinct(Map(IdOf, Outline(before) + NewHeads(ResourcesOf(before), item)))
  {
    hide Distinct, HasMaker, Map, Outline, NewHeads, NoClash, Texts, Makes, ResourceId, ResourcesOf;
    var ids := Map(IdOf, Outline(before));
    var r := ResourcesOf(before);
    var id, t := ResourceId(item.entity.resource), TextOf(item);
    OutlineId(before, id);
    OutlineId(before, t);
    TextClash(before, item);
    NewIdsOf(r, item);
    MapSum(IdOf, Outline(before), NewHeads(r, item));
    if Makes(r, item) {
      assert ids + ([id] + [t]) == ids + [id] + [t];
      MakesNew(r, item);
      DistinctPush(ids, id);
      DistinctPush(ids + [id], t);
    } else {
      assert ids + ([] + [t]) == ids + [t];
      DistinctPush(ids, t);
    }
  }

  lemma {:induction false} MakesNew(r: Resources, item: Item)
    requires Makes(r, item)
    ensures !HasMaker(r.makers, ResourceId(item.entity.resource))
  {}

  lemma {:induction false} NewIdsOf(r: Resources, item: Item)
    ensures Map(IdOf, NewHeads(r, item)) == (if Makes(r, item) then [ResourceId(item.entity.resource)] else [])
        + [TextOf(item)]
  {
    hide Makes, ResourceId;
  }

  lemma {:induction false} TextClash(before: seq<Item>, item: Item)
    requires NoClash(before + [item]) && TextOf(item) !in Texts(before)
    ensures !HasMaker(ResourcesOf(before).makers, TextOf(item))
    ensures Makes(ResourcesOf(before), item) ==>
      ResourceId(item.entity.resource) != TextOf(item) && ResourceId(item.entity.resource) !in Texts(before)
  {
    var items := before + [item];
    assert items[..|before|] == before;
    var a, b := ResourcesOf(before).makers, ResourcesOf(items).makers;
    TextsPush(before, item, TextOf(item));
    TextsPush(before, item, ResourceId(item.entity.resource));
    hide ResourceId, Texts;
    assert forall m | m in a :: m in b;
    if Makes(ResourcesOf(before), item) { assert item.entity in b; }
  }

  // Objects

  lemma {:induction false} PartSolid(p: Part)
    ensures Trim(p) == p && !Blank(p)
  {
    assert p[0] in p && p[|p| - 1] in p;
    TrimSolid(p);
  }

  lemma {:induction false} TextSolid(o: ObjectId)
    ensures !Blank(o.Text())
  {
    var s := o.Text();
    assert s[0] == o.scope[0] && o.scope[0] in o.scope;
    assert s[|s| - 1] == o.name[|o.name| - 1] && o.name[|o.name| - 1] in o.name;
    TrimSolid(s);
  }

  lemma {:induction false} KindWords()
    ensures !Blank("activation")
    ensures !Blank("http_endpoint")
    ensures !Blank("http_call")
    ensures !Blank("db_query")
    ensures !Blank("queue_consumer")
    ensures !Blank("queue_publisher")
  {
    hide Trim;
    TrimSolid("activation");
    TrimSolid("http_endpoint");
    TrimSolid("http_call");
    TrimSolid("db_query");
    TrimSolid("queue_consumer");
    TrimSolid("queue_publisher");
  }

  lemma {:induction false} MoreKindWords()
    ensures !Blank("cli_command")
    ensures !Blank("kubernetes_cronjob")
    ensures !Blank("cache_operation")
    ensures !Blank("rpc_call")
    ensures !Blank("workflow_orchestration")
    ensures !Blank("rpc_endpoint")
    ensures !Blank("db_resource")
  {
    hide Trim;
    TrimSolid("cli_command");
    TrimSolid("kubernetes_cronjob");
    TrimSolid("cache_operation");
    TrimSolid("rpc_call");
    TrimSolid("workflow_orchestration");
    TrimSolid("rpc_endpoint");
    TrimSolid("db_resource");
  }

  lemma {:induction false} TypeWords()
    ensures !Blank("http_route")
    ensures !Blank("webhook")
    ensures !Blank("outbound_http")
    ensures !Blank("db_operation")
    ensures !Blank("stream_consume")
    ensures !Blank("queue_publish")
    ensures !Blank("scheduled_job")
    ensures !Blank("outbound_rpc")
  {
    hide Trim;
    TrimSolid("http_route");
    TrimSolid("webhook");
    TrimSolid("outbound_http");
    TrimSolid("db_operation");
    TrimSolid("stream_consume");
    TrimSolid("queue_publish");
    TrimSolid("scheduled_job");
    TrimSolid("outbound_rpc");
  }

  lemma {:induction false} KindBlank(item: Item)
    ensures Blank(KindOf(item)) <==> item.dependency && Blank(item.entity.typ)
  {
    hide Blank;
    KindWords();
    MoreKindWords();
    TypeWords();
  }

  lemma {:induction false} EntityObjectOk(shape: Shape, item: Item)
    ensures ObjectOk(shape, EntityObject(item, [], [])) <==> !shape(TextOf(item)) && NamedFirst(item)
  {
    hide Blank, KindOf, BucketOf;
    TextSolid(item.entity.oid);
    KindBlank(item);
    ConfidenceValid(item.entity.confidence);
  }

  lemma {:induction false} ResourceObjectOk(shape: Shape, m: Entity)
    ensures ObjectOk(shape, ResourceObject(m, [], [])) <==> !shape(ResourceId(m.resource)) && !Blank(m.resource.title)
  {
    hide Blank, Confidence;
    var o := ObjectId("db", m.resource.name);
    assert o.Text() == ResourceId(m.resource);
    TextSolid(o);
    MoreKindWords();
    ConfidenceValid(m.confidence);
  }

  /** Everything the canonical validator asks of one object, apart from its references. */
  predicate ObjectPasses(shape: Shape, o: Object) {
    ObjectOk(shape, o) && ObjectComplete(o)
  }

  lemma {:induction false} MarksComplete(items: seq<Item>, o: Object)
    requires FromItem(items, o) || FromMaker(items, o)
    ensures o.marks.status != "" && o.marks.confidence != "" && o.marks.origin != "" && o.marks.origin != "llm"
  {
    hide BucketOf, KindOf, ResourcesOf, IsFirst;
    if FromItem(items, o) {
      var i :| 0 <= i < |items| && IsFirst(items, i) && o == EntityObject(items[i], [], []);
      ConfidenceValid(items[i].entity.confidence);
    } else {
      var m :| m in ResourcesOf(items).makers && o == ResourceObject(m, [], []);
      ConfidenceValid(m.confidence);
    }
  }

  /** An object passes if its head does and an entity behind it is located. */
  lemma {:induction false} ObjectPassesIff(shape: Shape, items: seq<Item>, o: Object)
    requires FromItem(items, Head(o)) || FromMaker(items, Head(o))
    requires FilledOne(items, o)
    ensures ObjectPasses(shape, o) <==>
      ObjectOk(shape, Head(o)) && if o.bucket.DBResources? then MakerLocated(ResourcesOf(items).makers, o.id)
          else Observed(items, o.id)
  {
    hide Blank, FromItem, FromMaker, MakerLocated, Observed, ValidMarks, ResourcesOf;
    MarksComplete(items, Head(o));
  }

  lemma {:induction false} FitEntityPasses(shape: Shape, items: seq<Item>, o: Object)
    requires ItemsFit(shape, items) && FromItem(items, Head(o)) && FilledOne(items, o)
    ensures ObjectPasses(shape, o)
  {
    hide Blank, NamedFirst, Observed, MakerLocated, ResourcesOf, ObjectOk, IsFirst, KindOf, MakerFit;
    ObjectPassesIff(shape, items, o);
    var i :| 0 <= i < |items| && IsFirst(items, i) && Head(o) == EntityObject(items[i], [], []);
    EntityObjectOk(shape, items[i]);
    EntityNotResource(items[i]);
    assert Observed(items, TextOf(items[i]));
  }

  lemma {:induction false} FitMakerPasses(shape: Shape, items: seq<Item>, o: Object)
    requires ItemsFit(shape, items) && FromMaker(items, Head(o)) && FilledOne(items, o)
    ensures ObjectPasses(shape, o)
  {
    hide Blank, NamedFirst, Observed, ResourcesOf, ObjectOk, IsFirst, KindOf, IsLocated, ResourceId;
    ObjectPassesIff(shape, items, o);
    var m :| m in ResourcesOf(items).makers && Head(o) == ResourceObject(m, [], []);
    ResourceObjectOk(shape, m);
    assert MakerFit(shape, items, m);
  }

  lemma {:induction false} FitNoClash(shape: Shape, items: seq<Item>)
    requires ItemsFit(shape, items)
    ensures NoClash(items)
  {
    hide Observed, ResourcesOf, IsFirst, NamedFirst;
    forall m | m in ResourcesOf(items).makers
      ensures ResourceId(m.resource) !in Texts(items)
    {
      assert MakerFit(shape, items, m);
    }
  }

  lemma {:induction false} FitObjectsPass(shape: Shape, items: seq<Item>)
    requires ItemsFit(shape, items)
    ensures var objects := AddItems(START, items).objects;
            Distinct(Map(IdOf, objects)) && forall o | o in objects :: ObjectPasses(shape, o)
  {
    hide Distinct, ItemsFit, Filled, ObjectPasses, AddItems, FromItem, FromMaker, ItemsInv;
    var s := AddItems(START, items);
    FitNoClash(shape, items);
    OutlineDistinct(items);
    AddItemsFill(items);
    AddItemsKeep(items);
    IdsFromInv(items, s);
    forall o | o in s.objects ensures ObjectPasses(shape, o) {
      var k :| 0 <= k < |s.objects| && s.objects[k] == o;
      HeadThere(items, s, k);
      FilledThere(items, s.objects, k);
      if FromItem(items, Head(o)) { FitEntityPasses(shape, items, o); } else { FitMakerPasses(shape, items, o); }
    }
  }

  lemma {:induction false} HeadThere(items: seq<Item>, s: State, k: nat)
    requires ItemsInv(items, s) && k < |s.objects|
    ensures FromItem(items, Head(s.objects[k])) || FromMaker(items, Head(s.objects[k]))
  {
    hide RefsInv, ObsRefsOk, FromItem, FromMaker;
    assert Outline(items)[k] == Head(s.objects[k]);
    OutlineSource(items, Head(s.objects[k]));
  }

  lemma {:induction false} FilledThere(items: seq<Item>, objects: seq<Object>, k: nat)
    requires Filled(items, objects) && k < |objects|
    ensures FilledOne(items, objects[k])
  {}

  lemma {:induction false} ObjectOfHead(items: seq<Item>, s: State, h: Object) returns (k: nat)
    requires ItemsInv(items, s) && (FromItem(items, h) || FromMaker(items, h))
    ensures k < |s.objects| && Head(s.objects[k]) == h
  {
    hide RefsInv, ObsRefsOk, FromItem, FromMaker;
    OutlineSource(items, h);
    k :| 0 <= k < |Outline(items)| && Outline(items)[k] == h;
  }

  lemma {:induction false} PassFirst(shape: Shape, items: seq<Item>, i: nat)
    requires i < |items| && IsFirst(items, i)
    requires var objects := AddItems(START, items).objects; forall o | o in objects :: ObjectPasses(shape, o)
    requires Filled(items, AddItems(START, items).objects)
    ensures !shape(TextOf(items[i])) && NamedFirst(items[i]) && Observed(items, TextOf(items[i]))
  {
    hide AddItems, ItemsInv, Observed, NamedFirst, FromMaker, MakerLocated, ObjectPasses, ObjectOk, Filled, FilledOne,
        IsFirst, KindOf;
    var s := AddItems(START, items);
    AddItemsKeep(items);
    var h := EntityObject(items[i], [], []);
    assert FromItem(items, h);
    hide FromItem;
    var k := ObjectOfHead(items, s, h);
    FilledThere(items, s.objects, k);
    EntityNotResource(items[i]);
    EntityObjectOk(shape, items[i]);
    ObjectPassesIff(shape, items, s.objects[k]);
    assert s.objects[k] in s.objects;
  }

  lemma {:induction false} PassMaker(shape: Shape, items: seq<Item>, m: Entity)
    requires m in ResourcesOf(items).makers
    requires var objects := AddItems(START, items).objects;
        Distinct(Map(IdOf, objects)) && forall o | o in objects :: ObjectPasses(shape, o)
    requires Filled(items, AddItems(START, items).objects)
    ensures MakerFit(shape, items, m)
  {
    hide AddItems, ItemsInv, FromItem, ObjectPasses, ObjectOk, Filled, FilledOne, Distinct, ResourcesOf, IsLocated,
        ResourceId;
    var s := AddItems(START, items);
    AddItemsKeep(items);
    var h := ResourceObject(m, [], []);
    assert FromMaker(items, h);
    hide FromMaker;
    var k := ObjectOfHead(items, s, h);
    FilledThere(items, s.objects, k);
    ResourceObjectOk(shape, m);
    ObjectPassesIff(shape, items, s.objects[k]);
    assert s.objects[k] in s.objects;
    var m2 :| m2 in ResourcesOf(items).makers && ResourceId(m2.resource) == ResourceId(m.resource) && IsLocated(m2);
    MakersDiffer(items, m, m2);
    if ResourceId(m.resource) in Texts(items) {
      var j := EntityIndex(items, s, ResourceId(m.resource));
      SameIdIndex(s.objects, j, k);
    }
  }

  lemma {:induction false} EntityIndex(items: seq<Item>, s: State, t: string) returns (j: nat)
    requires ItemsInv(items, s) && t in Texts(items)
    ensures j < |s.objects| && s.objects[j].id == t && !s.objects[j].bucket.DBResources?
  {
    hide RefsInv, ObsRefsOk, Outline;
    TextHasHead(items, t);
    var h :| h in Outline(items) && h.id == t && !h.bucket.DBResources?;
    j :| 0 <= j < |Outline(items)| && Outline(items)[j] == h;
    assert Head(s.objects[j]) == h;
  }

  /** One maker per resource id. */
  lemma {:induction false} MakersDiffer(items: seq<Item>, m: Entity, m2: Entity)
    requires m in ResourcesOf(items).makers && m2 in ResourcesOf(items).makers
        && ResourceId(m.resource) == ResourceId(m2.resource)
    ensures m == m2
  {
    hide ResourceId, NeedsResource;
    var before, item := items[..|items| - 1], items[|items| - 1];
    var r := ResourcesOf(before);
    if m in r.makers && m2 in r.makers {
      MakersDiffer(before, m, m2);
    } else {
      assert HasMaker(r.makers, ResourceId(item.entity.resource)) || m == m2 == item.entity;
    }
  }

  /** The objects of the built document are in order exactly if the entities are fit. */
  lemma {:induction false} ObjectsPassIff(shape: Shape, items: seq<Item>)
    ensures var objects := AddItems(START, items).objects;
            Distinct(Map(IdOf, objects)) && (forall o | o in objects :: ObjectPasses(shape, o)) <==>
            ItemsFit(shape, items)
  {
    hide Distinct, Filled, ObjectPasses, AddItems, Observed, NamedFirst, MakerFit, ResourcesOf, ItemsInv, IsFirst,
        Outline;
    var s := AddItems(START, items);
    if ItemsFit(shape, items) {
      FitObjectsPass(shape, items);
    } else if Distinct(Map(IdOf, s.objects)) && forall o | o in s.objects :: ObjectPasses(shape, o) {
      AddItemsKeep(items);
      IdsFromInv(items, s);
      AddItemsFill(items);
      forall m | m in ResourcesOf(items).makers ensures MakerFit(shape, items, m) { PassMaker(shape, items, m); }
      forall i | 0 <= i < |items|
        ensures !shape(TextOf(items[i])) && Observed(items, TextOf(items[i]))
            && (IsFirst(items, i) ==> NamedFirst(items[i]))
      {
        var j := FirstOf(items, i);
        PassFirst(shape, items, j);
        if IsFirst(items, i) { PassFirst(shape, items, i); }
      }
    }
  }

  lemma {:induction false} FirstOf(items: seq<Item>, i: nat) returns (j: nat)
    requires i < |items|
    ensures j <= i && IsFirst(items, j) && TextOf(items[j]) == TextOf(items[i])
    decreases i
  {
    if IsFirst(items, i) {
      j := i;
    } else {
      var k :| 0 <= k < i && Texts(items[..i])[k] == TextOf(items[i]);
      j := FirstOf(items, k);
    }
  }
}
