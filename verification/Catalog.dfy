/**
  The architecture catalog of internal/extractor/catalog/store.go, as a function from one stored
  document to the next.

  The hashes and the semantic key of an entity are parameters.  The key sees the name and the service
  trimmed and never sees the id, as EntityCatalogKey does; nothing is assumed about collisions.
 */
module Catalog {
  import opened CatalogMerge
  import opened Lists
  import opened Sorting
  import opened Text

  /** What util.StableID returns: a hexadecimal hash. */
  type Hex = s: string | s != "" && !Space(s[0]) && !Space(s[|s| - 1]) witness "0"

  datatype Loose = Loose(kind: string, typ: string, name: string, service: string, rest: string)

  datatype Identity = Identity(semantic: Loose -> string, stable: seq<string> -> Hex)

  /** `rest` stands for the fields the catalog only copies. */
  datatype Entity = Entity(id: string, typ: string, name: string, service: string, summary: string, confidence: real,
      rest: string)

  datatype Condition = Condition(kind: string, expression: string, explanation: string, rest: string)

  datatype Connection = Connection(
    id: string, from: string, to: string, source: string, condition: Condition, signature: string, confidence: real,
        rest: string)

  datatype ImportRecord = ImportRecord(runId: string, importedAt: nat, tally: Tally)

  datatype Document = Document(
    revision: nat, name: string, description: string, updatedAt: nat,
    exposures: seq<Entity>, dependencies: seq<Entity>, connections: seq<Connection>,
    records: Records, imports: seq<ImportRecord>)

  datatype Input = Input(runId: string, exposures: seq<Entity>, dependencies: seq<Entity>, connections: seq<Connection>)

  datatype Error = RevisionConflict | RunIdRequired | Invalid | WriteFailed

  datatype Reply = Committed(doc: Document, tally: Tally) | Refused(error: Error)

  const DEFAULT_NAME := "DiffMind Architecture"
  const UNCONDITIONAL := Condition("unconditional", "true", "Always", "")
  const ZERO_TALLY := Tally(0, 0, 0)
  const EMPTY := Document(0, DEFAULT_NAME, "", 0, [], [], [], map[], [])

  function NormalEntity(idn: Identity, kind: string, e: Entity): Entity {
    var typ, name, service := Trim(e.typ), Trim(e.name), Trim(e.service);
    Entity(
      if e.id == "" && typ != "" && name != "" then idn.stable(["architecture", kind, service, typ, name]) else e.id,
      typ, name, service, Trim(e.summary), if e.confidence == 0.0 then 1.0 else e.confidence, e.rest)
  }

  function NormalConnection(idn: Identity, c: Connection): Connection {
    Connection(
      if c.id == "" && c.from != "" && c.to != ""
          then idn.stable(["architecture-connection", c.from, c.to, c.signature]) else c.id,
      c.from, c.to,
      if c.source == "" then "manual" else c.source,
      if c.condition.kind == "" then UNCONDITIONAL else c.condition,
      if c.signature == "" then "manual:" + c.from + "->" + c.to else c.signature,
      if c.confidence == 0.0 then 1.0 else c.confidence, c.rest)
  }

  function EntityKey(idn: Identity, kind: string, e: Entity): string {
    idn.semantic(Loose(kind, e.typ, Trim(e.name), Trim(e.service), e.rest))
  }

  /** To the key, the type is as good as trimmed. */
  predicate TypeTrimmed(idn: Identity, kind: string, e: Entity) {
    EntityKey(idn, kind, e.(typ := Trim(e.typ))) == EntityKey(idn, kind, e)
  }

  function ConnectionKey(c: Connection): string {
    c.from + "|" + c.to + "|" + Lower(Trim(c.signature))
  }

  function EntityId(e: Entity): string { e.id }

  function EntityWithId(e: Entity, id: string): Entity { e.(id := id) }

  function ConnectionId(c: Connection): string { c.id }

  function ConnectionWithId(c: Connection, id: string): Connection { c.(id := id) }

  function Entities(idn: Identity, kind: string): Ops<Entity> {
    Ops(EntityId, EntityWithId,
        (e: Entity) => EntityKey(idn, kind, e),
        (key: string) => idn.stable(["architecture", kind, key]),
        (e: Entity) => NormalEntity(idn, kind, e),
        (e: Entity) => TypeTrimmed(idn, kind, e))
  }

  function Connections(idn: Identity): Ops<Connection> {
    Ops(ConnectionId, ConnectionWithId, ConnectionKey,
        (key: string) => idn.stable(["architecture-connection", key]),
        (c: Connection) => NormalConnection(idn, c),
        (c: Connection) => c.signature != "")
  }

  lemma {:induction false} NormalEntityTwice(idn: Identity, kind: string, e: Entity)
    ensures NormalEntity(idn, kind, NormalEntity(idn, kind, e)) == NormalEntity(idn, kind, e)
    ensures e.id != "" ==> NormalEntity(idn, kind, e).id == e.id
  {
    hide Trim;
    TrimIdempotent(e.typ);
    TrimIdempotent(e.name);
    TrimIdempotent(e.service);
    TrimIdempotent(e.summary);
  }

  /** Trimming the type is all normalisation does to the key of an entity. */
  lemma {:induction false} NormalEntityKey(idn: Identity, kind: string, e: Entity)
    ensures EntityKey(idn, kind, NormalEntity(idn, kind, e)) == EntityKey(idn, kind, e.(typ := Trim(e.typ)))
    ensures Trim(e.typ) == e.typ ==> EntityKey(idn, kind, NormalEntity(idn, kind, e)) == EntityKey(idn, kind, e)
  {
    hide Trim;
    TrimIdempotent(e.name);
    TrimIdempotent(e.service);
  }

  lemma {:induction false} EntitiesLawful(idn: Identity, kind: string)
    ensures Lawful(Entities(idn, kind))
  {
    var o := Entities(idn, kind);
    forall e: Entity ensures o.normal(o.normal(e)) == o.normal(e) && (o.id(e) != "" ==> o.id(o.normal(e)) == o.id(e)) {
      NormalEntityTwice(idn, kind, e);
    }
    forall e: Entity, s | s != "" ensures o.steady(e) <==> o.key(o.normal(o.withId(e, s))) == o.key(e) {
      NormalEntityKey(idn, kind, EntityWithId(e, s));
    }
    hide NormalEntity, Trim;
  }

  lemma {:induction false} ConnectionsLawful(idn: Identity)
    ensures Lawful(Connections(idn))
  {
    var o := Connections(idn);
    forall c: Connection ensures o.normal(o.normal(c)) == o.normal(c)
        && (o.id(c) != "" ==> o.id(o.normal(c)) == o.id(c))
    {
      NormalConnectionTwice(idn, c);
    }
    forall c: Connection, s | s != "" ensures o.steady(c) <==> o.key(o.normal(o.withId(c, s))) == o.key(c) {
      NormalConnectionKey(idn, ConnectionWithId(c, s));
    }
    hide NormalConnection, ConnectionKey;
  }

  lemma {:induction false} NormalConnectionTwice(idn: Identity, c: Connection)
    ensures NormalConnection(idn, NormalConnection(idn, c)) == NormalConnection(idn, c)
    ensures c.id != "" ==> NormalConnection(idn, c).id == c.id
  {}

  /** Normalisation changes the key of a connection exactly if its path signature is empty. */
  lemma {:induction false} NormalConnectionKey(idn: Identity, c: Connection)
    ensures ConnectionKey(NormalConnection(idn, c)) == ConnectionKey(c) <==> c.signature != ""
  {
    if c.signature == "" {
      TrimEmpty();
      TrimKeepsMark("manual:" + c.from + "->" + c.to);
      assert |ConnectionKey(NormalConnection(idn, c))| > |ConnectionKey(c)|;
    }
  }

  function Normalized(idn: Identity, doc: Document): Document {
    doc.(name := if doc.name == "" then DEFAULT_NAME else doc.name,
         exposures := Tidy(Entities(idn, "exposure"), doc.exposures),
         dependencies := Tidy(Entities(idn, "dependency"), doc.dependencies),
         connections := Tidy(Connections(idn), doc.connections))
  }

  /** One stored record, with the list it sits in. */
  datatype Value =
    | ExposureValue(exposure: Entity)
    | DependencyValue(dependency: Entity)
    | ConnectionValue(connection: Connection)

  function ValueId(v: Value): string {
    match v
    case ExposureValue(e) => e.id
    case DependencyValue(e) => e.id
    case ConnectionValue(c) => c.id
  }

  function AsExposure(e: Entity): Value { ExposureValue(e) }

  function AsDependency(e: Entity): Value { DependencyValue(e) }

  function AsConnection(c: Connection): Value { ConnectionValue(c) }

  function Values(doc: Document): seq<Value> {
    Map(AsExposure, doc.exposures) + Map(AsDependency, doc.dependencies) + Map(AsConnection, doc.connections)
  }

  function Ids(doc: Document): seq<string> {
    Map(EntityId, doc.exposures) + Map(EntityId, doc.dependencies) + Map(ConnectionId, doc.connections)
  }

  predicate EntityOk(e: Entity) {
    !Blank(e.id) && !Blank(e.typ) && !Blank(e.name)
  }

  ghost predicate ConnectionOk(doc: Document, c: Connection) {
    && !Blank(c.id)
    && (exists e :: e in doc.exposures && e.id == c.from)
    && (exists e :: e in doc.dependencies && e.id == c.to)
  }

  /** What Validate demands. */
  ghost predicate Valid(doc: Document) {
    && (forall e | e in doc.exposures :: EntityOk(e))
    && (forall e | e in doc.dependencies :: EntityOk(e))
    && (forall c | c in doc.connections :: ConnectionOk(doc, c))
    && Distinct(Ids(doc))
  }

  /** recordValues: the last record of an id wins. */
  function RecordValues(values: seq<Value>): map<string, Value> {
    if values == [] then map[]
    else RecordValues(values[..|values| - 1])[ValueId(values[|values| - 1]) := values[|values| - 1]]
  }

  function ManualMeta(current: Document, values: map<string, Value>, id: string, value: Value, now: nat): Meta {
    var was := Found(current.records, id);
    if id in current.records && id in values && values[id] == value then was
    else Meta(Manual, "", if was.createdAt == 0 then now else was.createdAt, now)
  }

  /** Changed and new records become manual, unchanged ones keep their owner. */
  function ManualRecords(current: Document, incoming: Document, now: nat): Records {
    var before, after := RecordValues(Values(current)), RecordValues(Values(incoming));
    map id | id in after :: ManualMeta(current, before, id, after[id], now)
  }

  function Edited(idn: Identity, doc: Document, edit: Document, now: nat): Document {
    var name := Trim(edit.name);
    var d := Normalized(idn, edit.(
      revision := doc.revision + 1, updatedAt := now, name := if name == "" then doc.name
          else name, imports := doc.imports));
    d.(records := ManualRecords(doc, d, now))
  }

  ghost function SaveManual(idn: Identity, doc: Document, edit: Document, now: nat, ioOk: bool): Reply {
    if edit.revision != doc.revision then Refused(RevisionConflict)
    else
      var d := Edited(idn, doc, edit, now);
      if !Valid(d) then Refused(Invalid) else if !ioOk then Refused(WriteFailed) else Committed(d, ZERO_TALLY)
  }

  /** The incoming connections whose ends were both imported, between the stored ends. */
  function Mapped(incoming: seq<Connection>, ids: map<string, string>): seq<Connection> {
    if incoming == [] then []
    else
      var c := incoming[|incoming| - 1];
      Mapped(incoming[..|incoming| - 1], ids)
        + (if c.from in ids && c.to in ids then [c.(from := ids[c.from], to := ids[c.to])] else [])
  }

  datatype Draft = Draft(exposures: Merged<Entity>, dependencies: Merged<Entity>, connections: Merged<Connection>)

  function Start<T, U>(list: seq<T>, m: Merged<U>): Merged<T> {
    Merged(list, m.records, m.ids, m.tally)
  }

  function DraftOf(idn: Identity, doc: Document, input: Input, stamp: Stamp): Draft {
    var e := All(Entities(idn, "exposure"), Merged(doc.exposures, doc.records, map[], ZERO_TALLY), input.exposures,
        stamp);
    var d := All(Entities(idn, "dependency"), Start(doc.dependencies, e), input.dependencies, stamp);
    Draft(e, d, All(Connections(idn), Start(doc.connections, d), Mapped(input.connections, d.ids), stamp))
  }

  function Imported(idn: Identity, doc: Document, input: Input, stamp: Stamp): Document {
    var draft := DraftOf(idn, doc, input, stamp);
    Normalized(idn, doc.(
      revision := doc.revision + 1, updatedAt := stamp.now,
      exposures := draft.exposures.list, dependencies := draft.dependencies.list, connections := draft.connections.list,
      records := draft.connections.records,
      imports := doc.imports + [ImportRecord(stamp.runId, stamp.now, draft.connections.tally)]))
  }

  ghost function ImportWith(idn: Identity, doc: Document, input: Input, source: Owner, now: nat, ioOk: bool): Reply {
    var stamp := Stamp(source, input.runId, now);
    if Blank(input.runId) then Refused(RunIdRequired)
    else if !Valid(Imported(idn, doc, input, stamp)) then Refused(Invalid)
    else if !ioOk then Refused(WriteFailed)
    else Committed(Imported(idn, doc, input, stamp), DraftOf(idn, doc, input, stamp).connections.tally)
  }

  function Labelled(input: Input): Input {
    if Blank(input.runId) then input.(runId := "file") else input
  }

  datatype Call =
    | Save(edit: Document)
    | Import(input: Input)
    | ImportFile(input: Input)

  /** A call, with the clock it reads and whether its write succeeds. */
  datatype Step = Step(call: Call, now: nat, ioOk: bool)

  ghost function Answer(idn: Identity, doc: Document, step: Step): Reply {
    match step.call
    case Save(edit) => SaveManual(idn, doc, edit, step.now, step.ioOk)
    case Import(input) => ImportWith(idn, doc, input, Automation, step.now, step.ioOk)
    case ImportFile(input) => ImportWith(idn, doc, Labelled(input), Manual, step.now, step.ioOk)
  }

  /** A call that fails leaves the file alone. */
  ghost function After(idn: Identity, doc: Document, step: Step): Document {
    match Answer(idn, doc, step)
    case Committed(d, _) => d
    case Refused(_) => doc
  }

  ghost function Run(idn: Identity, doc: Document, steps: seq<Step>): Document {
    if steps == [] then doc else After(idn, Run(idn, doc, steps[..|steps| - 1]), steps[|steps| - 1])
  }
}
