/**
  The store of internal/extractor/catalog/store.go as a class: the file it owns is replaced as a whole or
  not at all, and each method is one critical section.
 */
module CatalogStore {
  import opened Catalog
  import opened CatalogLaws
  import opened CatalogMerge
  import opened Lists
  import opened Sorting
  import opened Text

  datatype Kind = NoKind | ExposureKind | DependencyKind | ConnectionKind

  /** A lookup in the map of ids that Validate builds. */
  function KindOf(ids: map<string, Kind>, id: string): Kind {
    if id in ids then ids[id] else NoKind
  }

  /** The ids are new to the map and differ from each other. */
  ghost predicate Unused(list: seq<string>, ids: map<string, Kind>) {
    Distinct(list) && forall id | id in list :: id !in ids
  }

  predicate RegisteredAt(ids: map<string, Kind>, list: seq<string>, kind: Kind, r: map<string, Kind>, id: string) {
    (id in r <==> id in list || id in ids) && KindOf(r, id) == if id in list then kind else KindOf(ids, id)
  }

  ghost predicate Registers(ids: map<string, Kind>, list: seq<string>, kind: Kind, r: map<string, Kind>) {
    forall id :: RegisteredAt(ids, list, kind, r, id)
  }

  lemma {:induction false} UnusedPush(list: seq<string>, ids: map<string, Kind>, kind: Kind, r: map<string, Kind>,
      id: string)
    requires Unused(list, ids) && Registers(ids, list, kind, r)
    ensures id !in r ==> Unused(list + [id], ids)
    ensures Registers(ids, list + [id], kind, r[id := kind])
  {
    var longer, r1 := list + [id], r[id := kind];
    forall x ensures RegisteredAt(ids, longer, kind, r1, x) { assert RegisteredAt(ids, list, kind, r, x); }
    assert RegisteredAt(ids, list, kind, r, id);
  }

  lemma {:induction false} UsedStays(list: seq<string>, n: nat, ids: map<string, Kind>, kind: Kind, r: map<string,
      Kind>)
    requires n < |list| && Registers(ids, list[..n], kind, r) && list[n] in r
    ensures !Unused(list, ids)
  {
    assert RegisteredAt(ids, list[..n], kind, r, list[n]);
    if list[n] !in ids {
      var i :| 0 <= i < n && list[..n][i] == list[n];
    }
  }

  method ValidateEntity(kind: Kind, e: Entity, ids: map<string, Kind>) returns (ok: bool, r: map<string, Kind>)
    ensures ok <==> EntityOk(e) && e.id !in ids
    ensures r == if ok then ids[e.id := kind] else ids
  {
    if Blank(e.id) { return false, ids; }
    if Blank(e.typ) { return false, ids; }
    if Blank(e.name) { return false, ids; }
    if e.id in ids { return false, ids; }
    return true, ids[e.id := kind];
  }

  /** The first `n` entries of the list are in order, and `r` is `ids` with them registered. */
  ghost predicate Registered(kind: Kind, names: seq<string>, n: nat, ids: map<string, Kind>, r: map<string, Kind>)
    requires n <= |names|
  {
    Unused(names[..n], ids) && Registers(ids, names[..n], kind, r)
  }

  lemma {:induction false} RegisterNext(kind: Kind, names: seq<string>, n: nat, ids: map<string, Kind>, r: map<string,
      Kind>)
    requires n < |names| && Registered(kind, names, n, ids, r)
    ensures names[n] in r ==> !Unused(names, ids)
    ensures names[n] !in r ==> Registered(kind, names, n + 1, ids, r[names[n] := kind])
  {
    hide Unused, Registers;
    if names[n] in r {
      UsedStays(names, n, ids, kind, r);
    } else {
      UnusedPush(names[..n], ids, kind, r, names[n]);
      assert names[..n + 1] == names[..n] + [names[n]];
    }
  }

  lemma {:induction false} RegisteredAll(kind: Kind, names: seq<string>, ids: map<string, Kind>, r: map<string, Kind>)
    requires Registered(kind, names, |names|, ids, r)
    ensures Unused(names, ids) && Registers(ids, names, kind, r)
  {
    assert names[..|names|] == names;
  }

  lemma {:induction false} RegisteredNone(kind: Kind, names: seq<string>, ids: map<string, Kind>)
    ensures Registered(kind, names, 0, ids, ids)
  {}

  /** The loops of Validate over exposures and over dependencies. */
  method ValidateEntities(kind: Kind, list: seq<Entity>, ids: map<string, Kind>)
      returns (ok: bool, r: map<string, Kind>)
    ensures ok <==> (forall e | e in list :: EntityOk(e)) && Unused(Map(EntityId, list), ids)
    ensures ok ==> Registers(ids, Map(EntityId, list), kind, r)
  {
    hide Unused, Registers, Registered, EntityOk;
    ghost var names := Map(EntityId, list);
    RegisteredNone(kind, names, ids);
    r := ids;
    var n := 0;
    while n < |list|
      invariant 0 <= n <= |list|
      invariant forall i | 0 <= i < n :: EntityOk(list[i])
      invariant Registered(kind, names, n, ids, r)
    {
      RegisterNext(kind, names, n, ids, r);
      assert names[n] == list[n].id;
      ok, r := ValidateEntity(kind, list[n], r);
      if !ok { return; }
      n := n + 1;
    }
    RegisteredAll(kind, names, ids, r);
    return true, r;
  }

  ghost predicate EndsOk(ids: map<string, Kind>, c: Connection) {
    !Blank(c.id) && KindOf(ids, c.from) == ExposureKind && KindOf(ids, c.to) == DependencyKind
  }

  /** Connections registered so far cannot pass for ends, nor hide one. */
  lemma {:induction false} RegisteredEnds(ids: map<string, Kind>, names: seq<string>, n: nat, r: map<string, Kind>,
      c: Connection)
    requires n <= |names| && Registered(ConnectionKind, names, n, ids, r)
    ensures KindOf(r, c.from) == ExposureKind <==> KindOf(ids, c.from) == ExposureKind
    ensures KindOf(r, c.to) == DependencyKind <==> KindOf(ids, c.to) == DependencyKind
  {
    assert RegisteredAt(ids, names[..n], ConnectionKind, r, c.from)
        && RegisteredAt(ids, names[..n], ConnectionKind, r, c.to);
  }

  /** The loop of Validate over connections. */
  method ValidateConnections(list: seq<Connection>, ids: map<string, Kind>) returns (ok: bool)
    ensures ok <==> (forall c | c in list :: EndsOk(ids, c)) && Unused(Map(ConnectionId, list), ids)
  {
    hide Unused, Registers, Registered, Blank;
    ghost var names := Map(ConnectionId, list);
    RegisteredNone(ConnectionKind, names, ids);
    var r := ids;
    var n := 0;
    while n < |list|
      invariant 0 <= n <= |list|
      invariant forall i | 0 <= i < n :: EndsOk(ids, list[i])
      invariant Registered(ConnectionKind, names, n, ids, r)
    {
      var c := list[n];
      RegisterNext(ConnectionKind, names, n, ids, r);
      assert names[n] == c.id && c in list;
      if Blank(c.id) { return false; }
      if c.id in r { return false; }
      r := r[c.id := ConnectionKind];
      n := n + 1;
      RegisteredEnds(ids, names, n, r, c);
      if KindOf(r, c.from) != ExposureKind { return false; }
      if KindOf(r, c.to) != DependencyKind { return false; }
    }
    RegisteredAll(ConnectionKind, names, ids, r);
    return true;
  }

  lemma {:induction false} KindsMean(doc: Document, a: map<string, Kind>, b: map<string, Kind>, id: string)
    requires Registers(map[], Map(EntityId, doc.exposures), ExposureKind, a)
    requires Registers(a, Map(EntityId, doc.dependencies), DependencyKind, b)
    requires Unused(Map(EntityId, doc.dependencies), a)
    ensures KindOf(b, id) == ExposureKind <==> exists e :: e in doc.exposures && e.id == id
    ensures KindOf(b, id) == DependencyKind <==> exists e :: e in doc.dependencies && e.id == id
    ensures id in b <==> id in Map(EntityId, doc.exposures) || id in Map(EntityId, doc.dependencies)
  {
    var x, y := Map(EntityId, doc.exposures), Map(EntityId, doc.dependencies);
    assert RegisteredAt(map[], x, ExposureKind, a, id) && RegisteredAt(a, y, DependencyKind, b, id);
    if id in x { var i :| 0 <= i < |x| && x[i] == id; assert doc.exposures[i].id == id; }
    if id in y { var i :| 0 <= i < |y| && y[i] == id; assert doc.dependencies[i].id == id; }
    if e :| e in doc.exposures && e.id == id { var i :| 0 <= i < |x| && doc.exposures[i] == e; assert x[i] == id; }
    if e :| e in doc.dependencies && e.id == id {
      var i :| 0 <= i < |y| && doc.dependencies[i] == e;
      assert y[i] == id;
    }
  }

  /** Validate. */
  method Validate(doc: Document) returns (ok: bool)
    ensures ok == Valid(doc)
  {
    ghost var x, y, z := Map(EntityId, doc.exposures), Map(EntityId, doc.dependencies),
        Map(ConnectionId, doc.connections);
    DistinctJoin(x, y, z);
    var a: map<string, Kind>, b: map<string, Kind>;
    ok, a := ValidateEntities(ExposureKind, doc.exposures, map[]);
    if !ok { return; }
    assert forall id :: id in x <==> id in a by {
      forall id ensures id in x <==> id in a { assert RegisteredAt(map[], x, ExposureKind, a, id); }
    }
    ok, b := ValidateEntities(DependencyKind, doc.dependencies, a);
    if !ok { return; }
    forall id ensures KindMeaning(doc, b, id) { KindsMean(doc, a, b, id); }
    ok := ValidateConnections(doc.connections, b);
    assert Unused(z, b) <==> Distinct(z) && Apart(z, x) && Apart(z, y) by { UnusedApart(doc, b, z); }
    ConnectionsMean(doc, b);
  }

  ghost predicate KindMeaning(doc: Document, b: map<string, Kind>, id: string) {
    && (KindOf(b, id) == ExposureKind <==> exists e :: e in doc.exposures && e.id == id)
    && (KindOf(b, id) == DependencyKind <==> exists e :: e in doc.dependencies && e.id == id)
    && (id in b <==> id in Map(EntityId, doc.exposures) || id in Map(EntityId, doc.dependencies))
  }

  lemma {:induction false} UnusedApart(doc: Document, b: map<string, Kind>, z: seq<string>)
    requires forall id :: KindMeaning(doc, b, id)
    ensures Unused(z, b) <==>
        Distinct(z) && Apart(z, Map(EntityId, doc.exposures)) && Apart(z, Map(EntityId, doc.dependencies))
  {
    hide Distinct;
    if Unused(z, b) {
      forall id | id in z
        ensures id !in Map(EntityId, doc.exposures) && id !in Map(EntityId, doc.dependencies)
      {
        assert KindMeaning(doc, b, id);
      }
    } else if Distinct(z) {
      var id :| id in z && id in b;
      assert KindMeaning(doc, b, id);
    }
  }

  lemma {:induction false} ConnectionsMean(doc: Document, b: map<string, Kind>)
    requires forall id :: KindMeaning(doc, b, id)
    ensures forall c: Connection :: EndsOk(b, c) == ConnectionOk(doc, c)
  {
    forall c: Connection ensures EndsOk(b, c) == ConnectionOk(doc, c) {
      assert KindMeaning(doc, b, c.from) && KindMeaning(doc, b, c.to);
    }
  }

  /** One of the loops of normalizeDocument, with the sort behind it. */
  method NormalizeList<T>(o: Ops<T>, list: seq<T>) returns (r: seq<T>)
    ensures r == Tidy(o, list)
  {
    r := list;
    var i := 0;
    while i < |r|
      invariant 0 <= i <= |r| == |list|
      invariant r[..i] == Map(o.normal, list)[..i] && r[i..] == list[i..]
    {
      r := r[i := o.normal(r[i])];
      i := i + 1;
    }
    assert r == Map(o.normal, list);
    r := Sort(r, o.id);
  }

  method NormalizeDocument(idn: Identity, doc: Document) returns (r: Document)
    ensures r == Normalized(idn, doc)
  {
    r := doc;
    if r.name == "" {
      r := r.(name := DEFAULT_NAME);
    }
    var exposures := NormalizeList(Entities(idn, "exposure"), r.exposures);
    var dependencies := NormalizeList(Entities(idn, "dependency"), r.dependencies);
    var connections := NormalizeList(Connections(idn), r.connections);
    r := r.(exposures := exposures, dependencies := dependencies, connections := connections);
  }

  method RecordMetadata(current: Document, before: map<string, Value>, id: string, value: Value, now: nat)
      returns (meta: Meta)
    ensures meta == ManualMeta(current, before, id, value, now)
  {
    meta := Found(current.records, id);
    if id in current.records && id in before && before[id] == value {
      return;
    }
    if meta.createdAt == 0 {
      meta := meta.(createdAt := now);
    }
    meta := meta.(owner := Manual, runId := "", updatedAt := now);
  }

  /** manualMetadata: the loop runs over a map, in any order. */
  method ManualMetadata(current: Document, incoming: Document, now: nat) returns (out: Records)
    ensures out == ManualRecords(current, incoming, now)
  {
    hide RecordValues, Values, ManualMeta;
    var before, after := RecordValues(Values(current)), RecordValues(Values(incoming));
    out := map[];
    var todo := after.Keys;
    while todo != {}
      invariant todo <= after.Keys && out.Keys == after.Keys - todo
      invariant forall id | id in out :: out[id] == ManualMeta(current, before, id, after[id], now)
      decreases |todo|
    {
      var id :| id in todo;
      todo := todo - {id};
      var meta := RecordMetadata(current, before, id, after[id], now);
      out := out[id := meta];
    }
  }

  lemma {:induction false} MappedPush(cs: seq<Connection>, n: nat, ids: map<string, string>)
    requires n < |cs|
    ensures Mapped(cs[..n + 1], ids)
      == if cs[n].from in ids && cs[n].to in ids then Mapped(cs[..n], ids)
          + [cs[n].(from := ids[cs[n].from], to := ids[cs[n].to])]
         else Mapped(cs[..n], ids)
  {
    assert cs[..n + 1][..n] == cs[..n];
  }

  /** mergeConnections: connections with an end that was not imported are passed over. */
  method MergeConnections(o: Ops<Connection>, start: Merged<Connection>, incoming: seq<Connection>, idMap: map<string,
      string>, stamp: Stamp)
    returns (m: Merged<Connection>)
    requires Lawful(o)
    ensures m == All(o, start, Mapped(incoming, idMap), stamp)
  {
    hide All, One, Last, Indexes, Lawful, Mapped;
    m := start;
    var byKey := IndexKeys(o, m.list);
    var n := 0;
    MappedNone(o, start, incoming, idMap, stamp);
    while n < |incoming|
      invariant 0 <= n <= |incoming| && Indexes(o, m.list, byKey)
      invariant m == All(o, start, Mapped(incoming[..n], idMap), stamp)
    {
      var candidate := incoming[n];
      MappedPush(incoming, n, idMap);
      n := n + 1;
      if candidate.from !in idMap || candidate.to !in idMap {
        continue;
      }
      candidate := candidate.(from := idMap[candidate.from], to := idMap[candidate.to]);
      AllPush(o, start, Mapped(incoming[..n - 1], idMap), candidate, stamp);
      byKey, m := Place(o, byKey, m, candidate, stamp);
    }
    assert incoming[..n] == incoming;
  }

  lemma {:induction false} MappedNone(o: Ops<Connection>, m: Merged<Connection>, cs: seq<Connection>, ids: map<string,
      string>, stamp: Stamp)
    ensures All(o, m, Mapped(cs[..0], ids), stamp) == m
  {}

  lemma {:induction false} AllPush<T>(o: Ops<T>, m: Merged<T>, xs: seq<T>, x: T, stamp: Stamp)
    ensures All(o, m, xs + [x], stamp) == One(o, All(o, m, xs, stamp), x, stamp)
  {
    assert (xs + [x])[..|xs|] == xs;
  }

  /** The part of importWith between load and validation. */
  method MergeInput(idn: Identity, current: Document, input: Input, stamp: Stamp)
      returns (doc: Document, summary: Tally)
    ensures doc == Imported(idn, current, input, stamp) && summary
        == DraftOf(idn, current, input, stamp).connections.tally
  {
    hide Normalized, All, Mapped, Lawful;
    EntitiesLawful(idn, "exposure");
    EntitiesLawful(idn, "dependency");
    ConnectionsLawful(idn);
    doc := current;
    var e := Merge(Entities(idn, "exposure"), doc.exposures, input.exposures, doc.records, map[], stamp, ZERO_TALLY);
    var d := Merge(Entities(idn, "dependency"), doc.dependencies, input.dependencies, e.records, e.ids, stamp, e.tally);
    var c := MergeConnections(Connections(idn), Start(doc.connections, d), input.connections, d.ids, stamp);
    summary := c.tally;
    doc := doc.(exposures := e.list, dependencies := d.list, connections := c.list, records := c.records);
    doc := doc.(revision := doc.revision + 1, updatedAt := stamp.now,
        imports := doc.imports + [ImportRecord(stamp.runId, stamp.now, summary)]);
    doc := NormalizeDocument(idn, doc);
  }

  /** The catalog and its file. */
  class Store {
    const idn: Identity
    var file: Document

    constructor (idn: Identity)
      ensures this.idn == idn && file == EMPTY && Inv(idn, file)
    {
      this.idn := idn;
      file := EMPTY;
      new;
      EmptyInv(idn);
    }

    /** Load, and loadLocked: a document that was stored by this class is read back as it is. */
    method Load() returns (doc: Document, ok: bool)
      requires Inv(idn, file)
      ensures ok && doc == file
    {
      LoadReturnsStored(idn, file);
      doc := NormalizeDocument(idn, file);
      ok := Validate(doc);
    }

    method SaveManual(edit: Document, now: nat, ioOk: bool) returns (reply: Reply)
      requires Inv(idn, file)
      modifies this`file
      ensures reply == Answer(idn, old(file), Step(Save(edit), now, ioOk))
      ensures file == After(idn, old(file), Step(Save(edit), now, ioOk)) && Inv(idn, file)
    {
      hide Inv, Valid, ManualRecords, Normalized;
      StepKeepsInv(idn, file, Step(Save(edit), now, ioOk));
      var current, loaded := Load();
      if edit.revision != current.revision {
        return Refused(RevisionConflict);
      }
      var next := edit.(revision := current.revision + 1, updatedAt := now, name := Trim(edit.name));
      if next.name == "" {
        next := next.(name := current.name);
      }
      next := next.(imports := current.imports);
      next := NormalizeDocument(idn, next);
      var records := ManualMetadata(current, next, now);
      next := next.(records := records);
      var ok := Validate(next);
      if !ok {
        return Refused(Invalid);
      }
      if !ioOk {
        return Refused(WriteFailed);
      }
      file := next;
      return Committed(next, ZERO_TALLY);
    }

    method Import(input: Input, now: nat, ioOk: bool) returns (reply: Reply)
      requires Inv(idn, file)
      modifies this`file
      ensures reply == Answer(idn, old(file), Step(Call.Import(input), now, ioOk))
      ensures file == After(idn, old(file), Step(Call.Import(input), now, ioOk)) && Inv(idn, file)
    {
      hide Inv, ImportWith;
      StepKeepsInv(idn, file, Step(Call.Import(input), now, ioOk));
      reply := Merge(input, Automation, now, ioOk);
    }

    method ImportManual(input: Input, now: nat, ioOk: bool) returns (reply: Reply)
      requires Inv(idn, file)
      modifies this`file
      ensures reply == Answer(idn, old(file), Step(ImportFile(input), now, ioOk))
      ensures file == After(idn, old(file), Step(ImportFile(input), now, ioOk)) && Inv(idn, file)
    {
      hide Inv, ImportWith;
      StepKeepsInv(idn, file, Step(ImportFile(input), now, ioOk));
      var labelled := input;
      if Blank(input.runId) {
        labelled := labelled.(runId := "file");
      }
      reply := Merge(labelled, Manual, now, ioOk);
    }

    /** importWith. */
    method Merge(input: Input, source: Owner, now: nat, ioOk: bool) returns (reply: Reply)
      requires Inv(idn, file)
      modifies this`file
      ensures reply == ImportWith(idn, old(file), input, source, now, ioOk)
      ensures file == match reply case Committed(d, _) => d case Refused(_) => old(file)
    {
      hide Inv, Valid, Imported, DraftOf;
      var doc, loaded := Load();
      if Blank(input.runId) {
        return Refused(RunIdRequired);
      }
      var next, summary := MergeInput(idn, doc, input, Stamp(source, input.runId, now));
      var ok := Validate(next);
      if !ok {
        return Refused(Invalid);
      }
      if !ioOk {
        return Refused(WriteFailed);
      }
      file := next;
      return Committed(next, summary);
    }
  }
}
