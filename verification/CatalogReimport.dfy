/**
  Importing the same run again, right after an import that committed: when it changes nothing.

  Everything the second import needs is found again under its key, exactly if normalising what the
  first import wrote left the keys alone.  That is a condition on the document and the input.
 */
module CatalogReimport {
  import opened Catalog
  import opened CatalogAgain
  import opened CatalogLaws
  import opened CatalogMerge
  import opened Lists
  import opened Sorting
  import opened Text

  function ExposuresFrom(doc: Document): Merged<Entity> {
    Merged(doc.exposures, doc.records, map[], ZERO_TALLY)
  }

  function DependenciesFrom(doc: Document, draft: Draft): Merged<Entity> {
    Start(doc.dependencies, draft.exposures)
  }

  function ConnectionsFrom(doc: Document, draft: Draft): Merged<Connection> {
    Start(doc.connections, draft.dependencies)
  }

  /** The last incoming record of each key keeps its key when normalised, unless a protected record is kept there. */
  ghost predicate LastingInput(idn: Identity, doc: Document, input: Input, source: Owner) {
    && Lasting(Entities(idn, "exposure"), doc.exposures, doc.records, input.exposures, source)
    && Lasting(Entities(idn, "dependency"), doc.dependencies, doc.records, input.dependencies, source)
    && Lasting(Connections(idn), doc.connections, doc.records, Mapped(input.connections, Bound(idn, doc, input)),
        source)
  }

  /** No incoming key has a protected record hiding behind one that may be overwritten. */
  ghost predicate UnshadowedInput(idn: Identity, doc: Document, input: Input, source: Owner) {
    && Unshadowed(Entities(idn, "exposure"), doc.exposures, doc.records, input.exposures, source)
    && Unshadowed(Entities(idn, "dependency"), doc.dependencies, doc.records, input.dependencies, source)
    && Unshadowed(Connections(idn), doc.connections, doc.records, Mapped(input.connections, Bound(idn, doc, input)),
        source)
  }

  /** The first import commits; the second one comes from the same kind of source. */
  ghost predicate Twice(idn: Identity, doc: Document, input: Input, stamp: Stamp, stamp2: Stamp) {
    Inv(idn, doc) && Valid(Imported(idn, doc, input, stamp)) && stamp2.source == stamp.source
  }

  // ----- the three lists, one after the other

  /** Merging the other lists leaves the owners of a list alone. */
  lemma {:induction false} StartOwners(idn: Identity, doc: Document, input: Input, stamp: Stamp)
    requires Inv(idn, doc) && Valid(Imported(idn, doc, input, stamp))
    ensures var draft := DraftOf(idn, doc, input, stamp);
            && SameOwners(Entities(idn, "dependency"), doc.dependencies, doc.records, draft.exposures.records)
            && SameOwners(Connections(idn), doc.connections, doc.records, draft.dependencies.records)
  {
    var oe, od, oc := Entities(idn, "exposure"), Entities(idn, "dependency"), Connections(idn);
    var draft := DraftOf(idn, doc, input, stamp);
    hide Inv, Valid, Imported, All, Mapped, Lawful, Distinct, SameOwners, Grows;
    DraftParts(idn, doc, input, stamp);
    DraftKeepsIds(idn, doc, input, stamp);
    EntitiesLawful(idn, "exposure");
    EntitiesLawful(idn, "dependency");
    forall id | id in Map(od.id, doc.dependencies) ensures id in Map(od.id, draft.dependencies.list) {
      GrowsMember(od, doc.dependencies, draft.dependencies.list, id);
    }
    forall id | id in Map(oc.id, doc.connections) ensures id in Map(oc.id, draft.connections.list) {
      GrowsMember(oc, doc.connections, draft.connections.list, id);
    }
    OwnersKept(oe, ExposuresFrom(doc), input.exposures, stamp, od, doc.dependencies);
    OwnersKept(oe, ExposuresFrom(doc), input.exposures, stamp, oc, doc.connections);
    OwnersKept(od, DependenciesFrom(doc, draft), input.dependencies, stamp, oc, doc.connections);
    SameOwnersTrans(oc, doc.connections, doc.records, draft.exposures.records, draft.dependencies.records);
  }

  lemma {:induction false} MetExposures(idn: Identity, doc: Document, input: Input, stamp: Stamp, stamp2: Stamp)
    requires Twice(idn, doc, input, stamp, stamp2)
    ensures Met(Entities(idn, "exposure"), ExposuresFrom(doc), input.exposures, stamp,
                ExposuresFrom(Imported(idn, doc, input, stamp)), stamp2)
  {
    var d := Imported(idn, doc, input, stamp);
    var draft := DraftOf(idn, doc, input, stamp);
    assert d.records == draft.connections.records && d.exposures
        == Tidy(Entities(idn, "exposure"), draft.exposures.list);
    hide Valid, Imported, All, Mapped, Lawful, RecordsMatch, Normals, SortedBy, Distinct, Tidy, SameOwners;
    DraftParts(idn, doc, input, stamp);
    EntitiesLawful(idn, "exposure");
    ValidNamed(idn, doc);
    ExposureOwnersKept(idn, doc, input, stamp);
  }

  ghost predicate AgainExposures(idn: Identity, doc: Document, input: Input, stamp: Stamp, stamp2: Stamp) {
    Again(Entities(idn, "exposure"), ExposuresFrom(doc), input.exposures, stamp,
        ExposuresFrom(Imported(idn, doc, input, stamp)), stamp2)
  }

  lemma {:induction false} MetDependencies(idn: Identity, doc: Document, input: Input, stamp: Stamp, stamp2: Stamp)
    requires Twice(idn, doc, input, stamp, stamp2) && AgainExposures(idn, doc, input, stamp, stamp2)
    ensures var d := Imported(idn, doc, input, stamp);
            var draft, draft2 := DraftOf(idn, doc, input, stamp), DraftOf(idn, d, input, stamp2);
            && draft2.exposures.ids == draft.exposures.ids && draft2.exposures.tally.added == 0
            && Tidy(Entities(idn, "exposure"), draft2.exposures.list) == d.exposures
            && (forall id :: id in Map(EntityId, draft2.exposures.list) <==> id in Map(EntityId, draft.exposures.list))
            && Met(Entities(idn, "dependency"), DependenciesFrom(doc, draft), input.dependencies, stamp,
                   DependenciesFrom(d, draft2), stamp2)
  {
    var d := Imported(idn, doc, input, stamp);
    var draft, draft2 := DraftOf(idn, doc, input, stamp), DraftOf(idn, d, input, stamp2);
    var oe, od, oc := Entities(idn, "exposure"), Entities(idn, "dependency"), Connections(idn);
    assert d.records == draft.connections.records && d.dependencies == Tidy(od, draft.dependencies.list);
    hide Valid, Imported, All, Mapped, Again, Lawful, RecordsMatch, Normals, SortedBy, Distinct, Tidy, SameOwners;
    RemergeTidy(oe, ExposuresFrom(doc), input.exposures, stamp, ExposuresFrom(d), stamp2);
    DraftParts(idn, doc, input, stamp);
    EntitiesLawful(idn, "exposure");
    EntitiesLawful(idn, "dependency");
    ConnectionsLawful(idn);
    ValidNamed(idn, doc);
    var ds := draft.dependencies.list;
    OwnersKept(oc, ConnectionsFrom(doc, draft), Mapped(input.connections, draft.dependencies.ids), stamp, od, ds);
    OwnersKept(oe, ExposuresFrom(d), input.exposures, stamp2, od, ds);
    SameOwnersTrans(od, ds, draft.dependencies.records, d.records, draft2.exposures.records);
  }

  ghost predicate AgainEntities(idn: Identity, doc: Document, input: Input, stamp: Stamp, stamp2: Stamp) {
    var d := Imported(idn, doc, input, stamp);
    && AgainExposures(idn, doc, input, stamp, stamp2)
    && Again(Entities(idn, "dependency"), DependenciesFrom(doc, DraftOf(idn, doc, input, stamp)), input.dependencies,
        stamp,
             DependenciesFrom(d, DraftOf(idn, d, input, stamp2)), stamp2)
  }

  lemma {:induction false} EntitiesAgain(idn: Identity, doc: Document, input: Input, stamp: Stamp, stamp2: Stamp)
    requires Twice(idn, doc, input, stamp, stamp2) && AgainEntities(idn, doc, input, stamp, stamp2)
    ensures var d := Imported(idn, doc, input, stamp);
            var draft, draft2 := DraftOf(idn, doc, input, stamp), DraftOf(idn, d, input, stamp2);
            && draft2.dependencies.ids == draft.dependencies.ids && draft2.dependencies.tally.added == 0
            && Tidy(Entities(idn, "exposure"), draft2.exposures.list) == d.exposures
            && Tidy(Entities(idn, "dependency"), draft2.dependencies.list) == d.dependencies
            && (forall id :: id in Map(EntityId, draft2.exposures.list) <==> id in Map(EntityId, draft.exposures.list))
            && (forall id ::
                id in Map(EntityId, draft2.dependencies.list) <==> id in Map(EntityId, draft.dependencies.list))
  {
    hide Twice, Imported, All, Mapped, Again, AgainExposures, Tidy, Met;
    var d := Imported(idn, doc, input, stamp);
    var draft, draft2 := DraftOf(idn, doc, input, stamp), DraftOf(idn, d, input, stamp2);
    MetDependencies(idn, doc, input, stamp, stamp2);
    RemergeTidy(Entities(idn, "dependency"), DependenciesFrom(doc, draft), input.dependencies, stamp,
        DependenciesFrom(d, draft2), stamp2);
  }

  lemma {:induction false} MetConnections(idn: Identity, doc: Document, input: Input, stamp: Stamp, stamp2: Stamp)
    requires Twice(idn, doc, input, stamp, stamp2) && AgainEntities(idn, doc, input, stamp, stamp2)
    ensures var d := Imported(idn, doc, input, stamp);
            var draft, draft2 := DraftOf(idn, doc, input, stamp), DraftOf(idn, d, input, stamp2);
            Met(Connections(idn), ConnectionsFrom(doc, draft), Mapped(input.connections, draft.dependencies.ids), stamp,
                ConnectionsFrom(d, draft2), stamp2)
  {
    var d := Imported(idn, doc, input, stamp);
    var draft, draft2 := DraftOf(idn, doc, input, stamp), DraftOf(idn, d, input, stamp2);
    var oe, od, oc := Entities(idn, "exposure"), Entities(idn, "dependency"), Connections(idn);
    assert d.records == draft.connections.records && d.connections == Tidy(oc, draft.connections.list);
    hide Valid, Imported, All, Mapped, AgainEntities, Lawful, RecordsMatch, Normals, SortedBy, Distinct, Tidy,
        SameOwners;
    EntitiesAgain(idn, doc, input, stamp, stamp2);
    DraftParts(idn, doc, input, stamp);
    EntitiesLawful(idn, "exposure");
    EntitiesLawful(idn, "dependency");
    ConnectionsLawful(idn);
    ValidNamed(idn, doc);
    var cs := draft.connections.list;
    OwnersKept(oe, ExposuresFrom(d), input.exposures, stamp2, oc, cs);
    OwnersKept(od, DependenciesFrom(d, draft2), input.dependencies, stamp2, oc, cs);
    SameOwnersTrans(oc, cs, d.records, draft2.exposures.records, draft2.dependencies.records);
  }

  // ----- a lasting input changes nothing

  ghost predicate SameGraph(a: Document, b: Document) {
    a.exposures == b.exposures && a.dependencies == b.dependencies && a.connections == b.connections
  }

  /** Both imports lead every incoming record to the same stored one. */
  ghost predicate SameSelection(idn: Identity, input: Input, draft: Draft, draft2: Draft) {
    && SelectsSame(Entities(idn, "exposure"), input.exposures, draft.exposures.list, draft2.exposures.list)
    && SelectsSame(Entities(idn, "dependency"), input.dependencies, draft.dependencies.list, draft2.dependencies.list)
    && SelectsSame(Connections(idn), Mapped(input.connections, draft.dependencies.ids), draft.connections.list,
        draft2.connections.list)
  }

  lemma {:induction false} LastingEntities(idn: Identity, doc: Document, input: Input, stamp: Stamp, stamp2: Stamp)
    requires Twice(idn, doc, input, stamp, stamp2)
    requires Lasting(Entities(idn, "exposure"), doc.exposures, doc.records, input.exposures, stamp.source)
    requires Lasting(Entities(idn, "dependency"), doc.dependencies, doc.records, input.dependencies, stamp.source)
    ensures AgainEntities(idn, doc, input, stamp, stamp2)
  {
    hide Inv, Valid, Imported, DraftOf, Again, Met, Lasting, SameOwners, Entities;
    var d := Imported(idn, doc, input, stamp);
    var draft, draft2 := DraftOf(idn, doc, input, stamp), DraftOf(idn, d, input, stamp2);
    MetExposures(idn, doc, input, stamp, stamp2);
    LastingAgain(Entities(idn, "exposure"), ExposuresFrom(doc), input.exposures, stamp, ExposuresFrom(d), stamp2);
    MetDependencies(idn, doc, input, stamp, stamp2);
    StartOwners(idn, doc, input, stamp);
    var od := Entities(idn, "dependency");
    LastingOwners(od, doc.dependencies, doc.records, draft.exposures.records, input.dependencies, stamp.source);
    LastingAgain(od, DependenciesFrom(doc, draft), input.dependencies, stamp, DependenciesFrom(d, draft2), stamp2);
  }

  lemma {:induction false} LastingChangesNothing(idn: Identity, doc: Document, input: Input, stamp: Stamp,
      stamp2: Stamp)
    requires Twice(idn, doc, input, stamp, stamp2) && LastingInput(idn, doc, input, stamp.source)
    ensures var d := Imported(idn, doc, input, stamp);
            var draft, draft2 := DraftOf(idn, doc, input, stamp), DraftOf(idn, d, input, stamp2);
            && SameGraph(Imported(idn, d, input, stamp2), d) && draft2.connections.tally.added == 0
            && SameSelection(idn, input, draft, draft2)
  {
    hide Valid, All, Mapped, Again, Met, Inv, Tidy, Entities, Connections, SortedBy, Lasting, SameOwners, SelectsSame,
        Bound;
    var d := Imported(idn, doc, input, stamp);
    var draft, draft2 := DraftOf(idn, doc, input, stamp), DraftOf(idn, d, input, stamp2);
    LastingEntities(idn, doc, input, stamp, stamp2);
    EntitiesAgain(idn, doc, input, stamp, stamp2);
    MetConnections(idn, doc, input, stamp, stamp2);
    StartOwners(idn, doc, input, stamp);
    DraftBound(idn, doc, input, stamp);
    var oc, xs := Connections(idn), Mapped(input.connections, draft.dependencies.ids);
    LastingOwners(oc, doc.connections, doc.records, draft.dependencies.records, xs, stamp.source);
    LastingAgain(oc, ConnectionsFrom(doc, draft), xs, stamp, ConnectionsFrom(d, draft2), stamp2);
    RemergeTidy(oc, ConnectionsFrom(doc, draft), xs, stamp, ConnectionsFrom(d, draft2), stamp2);
    AgainSelects(oc, ConnectionsFrom(doc, draft), xs, stamp, ConnectionsFrom(d, draft2), stamp2);
    AgainSelects(Entities(idn, "exposure"), ExposuresFrom(doc), input.exposures, stamp, ExposuresFrom(d), stamp2);
    AgainSelects(Entities(idn, "dependency"), DependenciesFrom(doc, draft), input.dependencies, stamp,
        DependenciesFrom(d, draft2), stamp2);
  }

  // ----- and an input that changes nothing is lasting

  /** What the second import left alone: every selection, or the graph where nothing is shadowed. */
  ghost predicate Unmoved(idn: Identity, doc: Document, input: Input, stamp: Stamp, stamp2: Stamp) {
    var d := Imported(idn, doc, input, stamp);
    || SameSelection(idn, input, DraftOf(idn, doc, input, stamp), DraftOf(idn, d, input, stamp2))
    || (UnshadowedInput(idn, doc, input, stamp.source) && SameGraph(Imported(idn, d, input, stamp2), d))
  }

  lemma {:induction false} UnmovedExposures(idn: Identity, doc: Document, input: Input, stamp: Stamp, stamp2: Stamp)
    requires Twice(idn, doc, input, stamp, stamp2) && Unmoved(idn, doc, input, stamp, stamp2)
    requires Valid(Imported(idn, Imported(idn, doc, input, stamp), input, stamp2))
    ensures Lasting(Entities(idn, "exposure"), doc.exposures, doc.records, input.exposures, stamp.source)
  {
    hide Valid, All, Mapped, Met, Inv, Tidy, Entities, Connections, Distinct, Lasting, Unshadowed, SelectsSame, Bound;
    var d := Imported(idn, doc, input, stamp);
    MetExposures(idn, doc, input, stamp, stamp2);
    ImportKeepsInv(idn, doc, input, stamp);
    ExposuresDistinct(idn, d, input, stamp2);
    AgainLasting(Entities(idn, "exposure"), ExposuresFrom(doc), input.exposures, stamp, ExposuresFrom(d), stamp2);
  }

  lemma {:induction false} UnmovedDependencies(idn: Identity, doc: Document, input: Input, stamp: Stamp, stamp2: Stamp)
    requires Twice(idn, doc, input, stamp, stamp2) && Unmoved(idn, doc, input, stamp, stamp2)
    requires Valid(Imported(idn, Imported(idn, doc, input, stamp), input, stamp2))
        && AgainExposures(idn, doc, input, stamp, stamp2)
    ensures Lasting(Entities(idn, "dependency"), doc.dependencies, doc.records, input.dependencies, stamp.source)
  {
    hide Valid, All, Mapped, Met, Inv, Tidy, Connections, Distinct, Lasting, Unshadowed, SelectsSame, Bound,
        AgainExposures, SameOwners, Lawful;
    var d := Imported(idn, doc, input, stamp);
    var draft, draft2 := DraftOf(idn, doc, input, stamp), DraftOf(idn, d, input, stamp2);
    MetDependencies(idn, doc, input, stamp, stamp2);
    ImportKeepsInv(idn, doc, input, stamp);
    DraftParts(idn, d, input, stamp2);
    StartOwners(idn, doc, input, stamp);
    var od := Entities(idn, "dependency");
    LastingOwners(od, doc.dependencies, doc.records, draft.exposures.records, input.dependencies, stamp.source);
    AgainLasting(od, DependenciesFrom(doc, draft), input.dependencies, stamp, DependenciesFrom(d, draft2), stamp2);
  }

  lemma {:induction false} UnmovedConnections(idn: Identity, doc: Document, input: Input, stamp: Stamp, stamp2: Stamp)
    requires Twice(idn, doc, input, stamp, stamp2) && Unmoved(idn, doc, input, stamp, stamp2)
    requires Valid(Imported(idn, Imported(idn, doc, input, stamp), input, stamp2))
        && AgainEntities(idn, doc, input, stamp, stamp2)
    ensures Lasting(Connections(idn), doc.connections, doc.records, Mapped(input.connections, Bound(idn, doc, input)),
        stamp.source)
  {
    hide Valid, All, Mapped, Met, Inv, Tidy, Entities, Distinct, Lasting, Unshadowed, SelectsSame, Bound, AgainEntities,
        SameOwners, Lawful;
    var d := Imported(idn, doc, input, stamp);
    var draft, draft2 := DraftOf(idn, doc, input, stamp), DraftOf(idn, d, input, stamp2);
    EntitiesAgain(idn, doc, input, stamp, stamp2);
    MetConnections(idn, doc, input, stamp, stamp2);
    ImportKeepsInv(idn, doc, input, stamp);
    DraftParts(idn, d, input, stamp2);
    StartOwners(idn, doc, input, stamp);
    DraftBound(idn, doc, input, stamp);
    var oc, xs := Connections(idn), Mapped(input.connections, draft.dependencies.ids);
    LastingOwners(oc, doc.connections, doc.records, draft.dependencies.records, xs, stamp.source);
    AgainLasting(oc, ConnectionsFrom(doc, draft), xs, stamp, ConnectionsFrom(d, draft2), stamp2);
  }

  lemma {:induction false} UnmovedLasting(idn: Identity, doc: Document, input: Input, stamp: Stamp, stamp2: Stamp)
    requires Twice(idn, doc, input, stamp, stamp2) && Unmoved(idn, doc, input, stamp, stamp2)
    requires Valid(Imported(idn, Imported(idn, doc, input, stamp), input, stamp2))
    ensures LastingInput(idn, doc, input, stamp.source)
  {
    hide Inv, Valid, Imported, Unmoved, Met, Again, Lasting, Entities, Connections;
    UnmovedExposures(idn, doc, input, stamp, stamp2);
    MetExposures(idn, doc, input, stamp, stamp2);
    LastingAgain(Entities(idn, "exposure"), ExposuresFrom(doc), input.exposures, stamp,
                 ExposuresFrom(Imported(idn, doc, input, stamp)), stamp2);
    UnmovedDependencies(idn, doc, input, stamp, stamp2);
    LastingEntities(idn, doc, input, stamp, stamp2);
    UnmovedConnections(idn, doc, input, stamp, stamp2);
  }

  lemma {:induction false} ValidGraph(a: Document, b: Document)
    requires SameGraph(b, a) && Valid(a)
    ensures Valid(b)
  {
    hide Distinct;
    assert Ids(a) == Ids(b);
    forall c | c in b.connections ensures ConnectionOk(b, c) { assert ConnectionOk(a, c); }
  }

  /** The run id of an input is read from the stamp only. */
  lemma {:induction false} RunIdUnread(idn: Identity, doc: Document, input: Input, again: Input, stamp: Stamp)
    requires again == input.(runId := again.runId)
    ensures DraftOf(idn, doc, again, stamp) == DraftOf(idn, doc, input, stamp)
    ensures Imported(idn, doc, again, stamp) == Imported(idn, doc, input, stamp)
  {
    hide All, Mapped, Tidy;
  }

  /**
    Importing the same input again, right after an import that committed.  It commits, leaves the graph
    as it is and leads every incoming record to the same stored one, exactly if the input is lasting; then
    it adds nothing.  For a document in which nothing is shadowed, keeping the graph alone is as much.
   */
  lemma {:induction false} ReimportIff(idn: Identity, doc: Document, input: Input, again: Input, source: Owner,
      now: nat, now2: nat)
    requires Inv(idn, doc) && ImportWith(idn, doc, input, source, now, true).Committed?
    requires again == input.(runId := again.runId) && !Blank(again.runId)
    ensures var d := ImportWith(idn, doc, input, source, now, true).doc;
            var reply := ImportWith(idn, d, again, source, now2, true);
            var draft := DraftOf(idn, doc, input, Stamp(source, input.runId, now));
            var draft2 := DraftOf(idn, d, again, Stamp(source, again.runId, now2));
            && (LastingInput(idn, doc, input, source) <==>
                  reply.Committed? && SameGraph(reply.doc, d) && SameSelection(idn, input, draft, draft2))
            && (LastingInput(idn, doc, input, source) ==> reply.Committed? && reply.tally.added == 0)
            && (UnshadowedInput(idn, doc, input, source) ==>
                  (LastingInput(idn, doc, input, source) <==> reply.Committed? && SameGraph(reply.doc, d)))
  {
    var stamp, stamp2 := Stamp(source, input.runId, now), Stamp(source, again.runId, now2);
    hide Inv, Valid, Imported, DraftOf, SameGraph, LastingInput, UnshadowedInput, SameSelection, Blank;
    ImportDoc(idn, doc, input, source, now, true);
    var d := Imported(idn, doc, input, stamp);
    assert Twice(idn, doc, input, stamp, stamp2);
    RunIdUnread(idn, d, input, again, stamp2);
    if LastingInput(idn, doc, input, source) {
      LastingChangesNothing(idn, doc, input, stamp, stamp2);
      ValidGraph(d, Imported(idn, d, again, stamp2));
    } else if ImportWith(idn, d, again, source, now2, true).Committed? {
      ImportDoc(idn, d, again, source, now2, true);
      if Unmoved(idn, doc, input, stamp, stamp2) { UnmovedLasting(idn, doc, input, stamp, stamp2); }
    }
  }

  lemma {:induction false} SteadyLasts<T>(o: Ops<T>, list: seq<T>, records: Records, xs: seq<T>, source: Owner)
    requires forall x | x in xs :: o.steady(x)
    ensures Lasting(o, list, records, xs, source)
  {
    hide Guarded;
    forall x | x in xs ensures LastSteady(o, xs, o.key(x)) { LastIn(o, xs, x); }
  }

  lemma {:induction false} MappedSteady(idn: Identity, cs: seq<Connection>, ids: map<string, string>)
    requires forall c | c in cs :: c.signature != ""
    ensures forall c | c in Mapped(cs, ids) :: Connections(idn).steady(c)
  {
    if cs != [] {
      var n := |cs| - 1;
      assert cs[n] in cs;
      MappedSteady(idn, cs[..n], ids);
    }
  }

  /** An input with trimmed types and no empty path signature is lasting. */
  lemma {:induction false} TrimmedLasts(idn: Identity, doc: Document, input: Input, source: Owner)
    requires forall e | e in input.exposures || e in input.dependencies :: Trim(e.typ) == e.typ
    requires forall c | c in input.connections :: c.signature != ""
    ensures LastingInput(idn, doc, input, source)
  {
    hide Lasting, Mapped, Trim, Bound;
    SteadyLasts(Entities(idn, "exposure"), doc.exposures, doc.records, input.exposures, source);
    SteadyLasts(Entities(idn, "dependency"), doc.dependencies, doc.records, input.dependencies, source);
    MappedSteady(idn, input.connections, Bound(idn, doc, input));
    SteadyLasts(Connections(idn), doc.connections, doc.records, Mapped(input.connections, Bound(idn, doc, input)),
        source);
  }

  /**
    Importing the same input again, right after an import that committed, adds nothing and leaves the
    graph as it is, provided the types are trimmed and the path signatures are not empty.
   */
  lemma {:induction false} ReimportChangesNothing(idn: Identity, doc: Document, input: Input, again: Input,
      source: Owner, now: nat, now2: nat)
    requires Inv(idn, doc) && ImportWith(idn, doc, input, source, now, true).Committed?
    requires forall e | e in input.exposures || e in input.dependencies :: Trim(e.typ) == e.typ
    requires forall c | c in input.connections :: c.signature != ""
    requires again == input.(runId := again.runId) && !Blank(again.runId)
    ensures var d := ImportWith(idn, doc, input, source, now, true).doc;
            var reply := ImportWith(idn, d, again, source, now2, true);
            reply.Committed? && reply.tally.added == 0 && SameGraph(reply.doc, d)
  {
    hide Inv, ImportWith, LastingInput, Trim, Blank, SameGraph, SameSelection, UnshadowedInput, DraftOf;
    TrimmedLasts(idn, doc, input, source);
    ReimportIff(idn, doc, input, again, source, now, now2);
  }

  // ----- any import that leaves the graph as it is

  /** Every incoming record meets a protected one, or one it is equal to once normalised. */
  ghost predicate RestingInput(idn: Identity, doc: Document, input: Input, source: Owner) {
    && AllRest(Entities(idn, "exposure"), doc.exposures, doc.records, input.exposures, source)
    && AllRest(Entities(idn, "dependency"), doc.dependencies, doc.records, input.dependencies, source)
    && AllRest(Connections(idn), doc.connections, doc.records, Mapped(input.connections, Bound(idn, doc, input)),
        source)
  }

  lemma {:induction false} DocParts(idn: Identity, doc: Document)
    requires Valid(doc)
    ensures var a, b, c := Map(EntityId, doc.exposures), Map(EntityId, doc.dependencies),
        Map(ConnectionId, doc.connections);
            Distinct(a) && Distinct(b) && Distinct(c) && Apart(a, b) && Apart(a, c) && Apart(b, c)
  {
    hide Distinct;
    DistinctParts(Map(EntityId, doc.exposures), Map(EntityId, doc.dependencies), Map(ConnectionId, doc.connections));
  }

  lemma {:induction false} RestingKeepsGraph(idn: Identity, doc: Document, input: Input, stamp: Stamp)
    requires Inv(idn, doc) && RestingInput(idn, doc, input, stamp.source)
    ensures SameGraph(Imported(idn, doc, input, stamp), doc)
  {
    var oe, od, oc := Entities(idn, "exposure"), Entities(idn, "dependency"), Connections(idn);
    var draft := DraftOf(idn, doc, input, stamp);
    hide Valid, All, Mapped, Bound, Lawful, Distinct, SameOwners, AllRest, Tidy, Normals, SortedBy, RecordsMatch, Map;
    DocParts(idn, doc);
    EntitiesLawful(idn, "exposure");
    EntitiesLawful(idn, "dependency");
    ConnectionsLawful(idn);
    DraftBound(idn, doc, input, stamp);
    RestingKeeps(oe, ExposuresFrom(doc), input.exposures, stamp);
    OwnersKept(oe, ExposuresFrom(doc), input.exposures, stamp, od, doc.dependencies);
    OwnersKept(oe, ExposuresFrom(doc), input.exposures, stamp, oc, doc.connections);
    RestsOwners(od, doc.dependencies, doc.records, draft.exposures.records, input.dependencies, stamp.source);
    RestingKeeps(od, DependenciesFrom(doc, draft), input.dependencies, stamp);
    OwnersKept(od, DependenciesFrom(doc, draft), input.dependencies, stamp, oc, doc.connections);
    SameOwnersTrans(oc, doc.connections, doc.records, draft.exposures.records, draft.dependencies.records);
    var xs := Mapped(input.connections, draft.dependencies.ids);
    RestsOwners(oc, doc.connections, doc.records, draft.dependencies.records, xs, stamp.source);
    RestingKeeps(oc, ConnectionsFrom(doc, draft), xs, stamp);
  }

  lemma {:induction false} KeptGraphRests(idn: Identity, doc: Document, input: Input, stamp: Stamp)
    requires Inv(idn, doc) && Valid(Imported(idn, doc, input, stamp))
        && SameGraph(Imported(idn, doc, input, stamp), doc)
    ensures RestingInput(idn, doc, input, stamp.source)
  {
    var oe, od, oc := Entities(idn, "exposure"), Entities(idn, "dependency"), Connections(idn);
    var draft := DraftOf(idn, doc, input, stamp);
    hide Valid, All, Mapped, Bound, Lawful, Distinct, SameOwners, AllRest, Tidy, Normals, SortedBy, RecordsMatch, Map;
    DocParts(idn, doc);
    EntitiesLawful(idn, "exposure");
    EntitiesLawful(idn, "dependency");
    ConnectionsLawful(idn);
    ValidNamed(idn, doc);
    DraftBound(idn, doc, input, stamp);
    StartOwners(idn, doc, input, stamp);
    KeptRests(oe, ExposuresFrom(doc), input.exposures, stamp);
    KeptRests(od, DependenciesFrom(doc, draft), input.dependencies, stamp);
    var xs := Mapped(input.connections, draft.dependencies.ids);
    KeptRests(oc, ConnectionsFrom(doc, draft), xs, stamp);
    RestsOwners(od, doc.dependencies, doc.records, draft.exposures.records, input.dependencies, stamp.source);
    RestsOwners(oc, doc.connections, doc.records, draft.dependencies.records, xs, stamp.source);
  }

  /**
    Any import, the first or a later one: it commits and leaves the graph as it is exactly if every incoming
    record meets a stored one that is protected or that it is equal to.  Together with `ReimportIff` this
    covers documents in which records share a key.
   */
  lemma {:induction false} ImportKeepsGraphIff(idn: Identity, doc: Document, input: Input, source: Owner, now: nat)
    requires Inv(idn, doc) && !Blank(input.runId)
    ensures var reply := ImportWith(idn, doc, input, source, now, true);
            reply.Committed? && SameGraph(reply.doc, doc) <==> RestingInput(idn, doc, input, source)
  {
    hide Inv, Valid, Imported, DraftOf, RestingInput, Blank;
    var stamp := Stamp(source, input.runId, now);
    InvValid(idn, doc);
    if RestingInput(idn, doc, input, source) {
      RestingKeepsGraph(idn, doc, input, stamp);
      ValidGraph(doc, Imported(idn, doc, input, stamp));
    } else if ImportWith(idn, doc, input, source, now, true).Committed? {
      ImportDoc(idn, doc, input, source, now, true);
      if SameGraph(Imported(idn, doc, input, stamp), doc) { KeptGraphRests(idn, doc, input, stamp); }
    }
  }

  // ----- keys that get lost

  /** The hash `p` is made for a new key that no record of the list has once it is normalised. */
  ghost predicate Loses<T>(o: Ops<T>, list: seq<T>, xs: seq<T>, p: string) {
    exists x :: x in xs && Last(o, list, o.key(x)) < 0 && o.freshId(o.key(x)) == p && Nowhere(o, xs, o.key(x))
  }

  ghost predicate Nowhere<T>(o: Ops<T>, xs: seq<T>, k: string) {
    forall y, id | y in xs && id != "" :: o.key(o.normal(o.withId(y, id))) != k
  }

  lemma {:induction false} KeyGone<T(!new)>(o: Ops<T>, m: Merged<T>, xs: seq<T>, stamp: Stamp, k: string)
    requires Lawful(o) && Named(o, m.list) && Normals(o, m.list) && Distinct(Map(o.id, All(o, m, xs, stamp).list))
    requires Last(o, m.list, k) < 0 && Nowhere(o, xs, k)
    ensures Last(o, Tidy(o, All(o, m, xs, stamp).list), k) < 0
  {
    hide All, Distinct, Tidy, SortedBy;
    var r := All(o, m, xs, stamp);
    var b := Tidy(o, r.list);
    TidyStored(o, r.list);
    AllSettles(o, m, xs, stamp);
    AllNamed(o, m, xs, stamp);
    hide Lawful;
    forall j | 0 <= j < |b| ensures o.key(b[j]) != k {
      var i := StoredBack(o, r.list, b, j);
      assert SettledAt(o, m.list, r, xs, stamp.source, i);
      if i < |m.list| && r.list[i] == m.list[i] { assert o.normal(m.list[i]) == m.list[i]; }
    }
  }

  lemma {:induction false} LosesMints<T(!new)>(o: Ops<T>, m: Merged<T>, xs: seq<T>, stamp: Stamp, p: string)
    requires Lawful(o) && Named(o, m.list) && Normals(o, m.list) && Distinct(Map(o.id, All(o, m, xs, stamp).list))
    requires Loses(o, m.list, xs, p)
    ensures Mints(o, m.list, xs, p) && Mints(o, Tidy(o, All(o, m, xs, stamp).list), xs, p)
  {
    hide All, Distinct, Tidy, Lawful, Named, Normals, Nowhere;
    var x :| x in xs && Last(o, m.list, o.key(x)) < 0 && o.freshId(o.key(x)) == p && Nowhere(o, xs, o.key(x));
    KeyGone(o, m, xs, stamp, o.key(x));
  }

  /** A new key gets lost; for a connection, whose key names its ends, provided the ends are found again. */
  ghost predicate LosesNew(idn: Identity, doc: Document, input: Input, source: Owner, p: string) {
    var oe, od := Entities(idn, "exposure"), Entities(idn, "dependency");
    || Loses(oe, doc.exposures, input.exposures, p)
    || Loses(od, doc.dependencies, input.dependencies, p)
    || (&& Loses(Connections(idn), doc.connections, Mapped(input.connections, Bound(idn, doc, input)), p)
        && Lasting(oe, doc.exposures, doc.records, input.exposures, source)
        && Lasting(od, doc.dependencies, doc.records, input.dependencies, source))
  }

  lemma {:induction false} LostIsMintedTwice(idn: Identity, doc: Document, input: Input, stamp: Stamp, stamp2: Stamp,
      p: string)
    requires Twice(idn, doc, input, stamp, stamp2) && LosesNew(idn, doc, input, stamp.source, p)
    ensures ImportMints(idn, doc, input, p) && ImportMints(idn, Imported(idn, doc, input, stamp), input, p)
  {
    hide Valid, All, Mapped, Bound, Tidy, Distinct, Lawful, Loses, Mints, Named, Normals, Lasting, RecordsMatch,
        SortedBy;
    var d := Imported(idn, doc, input, stamp);
    var draft := DraftOf(idn, doc, input, stamp);
    var oe, od, oc := Entities(idn, "exposure"), Entities(idn, "dependency"), Connections(idn);
    EntitiesLawful(idn, "exposure");
    EntitiesLawful(idn, "dependency");
    ConnectionsLawful(idn);
    ValidNamed(idn, doc);
    DraftParts(idn, doc, input, stamp);
    if Loses(oe, doc.exposures, input.exposures, p) {
      LosesMints(oe, ExposuresFrom(doc), input.exposures, stamp, p);
    } else if Loses(od, doc.dependencies, input.dependencies, p) {
      LosesMints(od, DependenciesFrom(doc, draft), input.dependencies, stamp, p);
    } else {
      DraftBound(idn, doc, input, stamp);
      DraftBound(idn, d, input, stamp2);
      SameBound(idn, doc, input, stamp, stamp2);
      LosesMints(oc, ConnectionsFrom(doc, draft), Mapped(input.connections, draft.dependencies.ids), stamp, p);
    }
  }

  lemma {:induction false} SameBound(idn: Identity, doc: Document, input: Input, stamp: Stamp, stamp2: Stamp)
    requires Twice(idn, doc, input, stamp, stamp2)
    requires Lasting(Entities(idn, "exposure"), doc.exposures, doc.records, input.exposures, stamp.source)
    requires Lasting(Entities(idn, "dependency"), doc.dependencies, doc.records, input.dependencies, stamp.source)
    ensures DraftOf(idn, Imported(idn, doc, input, stamp), input, stamp2).dependencies.ids
        == DraftOf(idn, doc, input, stamp).dependencies.ids
  {
    hide Twice, Imported, DraftOf, Lasting, AgainEntities;
    LastingEntities(idn, doc, input, stamp, stamp2);
    EntitiesAgain(idn, doc, input, stamp, stamp2);
  }

  /**
    A new record whose key normalisation rewrote is made a second time under the same hash, so the
    second import is refused.
   */
  lemma {:induction false} RewrittenKeyRefusesReimport(idn: Identity, doc: Document, input: Input, source: Owner,
      now: nat, now2: nat, p: string)
    requires Inv(idn, doc) && ImportWith(idn, doc, input, source, now, true).Committed?
        && LosesNew(idn, doc, input, source, p)
    ensures ImportWith(idn, ImportWith(idn, doc, input, source, now, true).doc, input, source, now2, true).Refused?
  {
    hide Inv, Valid, Imported, Blank, Ids, DraftOf, ImportMints, LosesNew, DraftIds;
    var stamp, stamp2 := Stamp(source, input.runId, now), Stamp(source, input.runId, now2);
    ImportDoc(idn, doc, input, source, now, true);
    var d := Imported(idn, doc, input, stamp);
    assert Valid(doc) by { InvValid(idn, doc); }
    assert Twice(idn, doc, input, stamp, stamp2);
    LostIsMintedTwice(idn, doc, input, stamp, stamp2, p);
    MintedInDraft(idn, doc, input, stamp, p);
    ImportedIds(idn, doc, input, stamp);
    MultisetMembers(Ids(d), DraftIds(DraftOf(idn, doc, input, stamp)));
    CollisionIsRefused(idn, d, input, source, now2, true, p);
  }

  // ----- samples

  /** A smallest input with an empty path signature, under some hash and some key. */
  function SampleHash(parts: seq<string>): Hex {
    if |parts| < 3 then "c" else if parts[1] == "exposure" then "e" else "d"
  }

  const SAMPLE := Identity((l: Loose) => l.kind, (parts: seq<string>) => SampleHash(parts))
  const SAMPLE_EXPOSURE := Entity("x", "http_route", "orders", "", "", 1.0, "")
  const SAMPLE_DEPENDENCY := Entity("y", "db_operation", "read", "", "", 1.0, "")
  const UNSIGNED := Connection("k", "x", "y", "ast", UNCONDITIONAL, "", 1.0, "")
  const SAMPLE_INPUT := Input("run", [SAMPLE_EXPOSURE], [SAMPLE_DEPENDENCY], [UNSIGNED])

  lemma {:induction false} AddToEmpty<T>(o: Ops<T>, m: Merged<T>, x: T, stamp: Stamp)
    requires m.list == []
    ensures var id := o.freshId(o.key(x));
            All(o, m, [x], stamp)
            == Merged([o.withId(x, id)], SetMetadata(m.records, id, stamp), m.ids[o.id(x) := id],
                m.tally.(added := m.tally.added + 1))
  {
    assert [x][..0] == [];
    assert All(o, m, [x][..0], stamp) == m;
  }

  lemma {:induction false} TidyOne<T>(o: Ops<T>, x: T)
    ensures Tidy(o, [x]) == [o.normal(x)]
  {
    var s := Map(o.normal, [x]);
    assert s == [o.normal(x)] && s[..0] == [];
    assert Sort(s[..0], o.id) == [];
  }

  lemma {:induction false} SampleHashes(key: string)
    ensures Entities(SAMPLE, "exposure").freshId(key) == "e"
    ensures Entities(SAMPLE, "dependency").freshId(key) == "d"
    ensures Connections(SAMPLE).freshId(key) == "c"
  {
    assert ["architecture", "exposure", key][1] == "exposure";
    assert ["architecture", "dependency", key][1] == "dependency";
  }

  lemma {:induction false} SampleExposures(stamp: Stamp)
    ensures var e := DraftOf(SAMPLE, EMPTY, SAMPLE_INPUT, stamp).exposures;
            e.list == [SAMPLE_EXPOSURE.(id := "e")] && e.ids == map["x" := "e"]
  {
    hide All, SetMetadata, EntityKey, SampleHash, Mapped;
    var o := Entities(SAMPLE, "exposure");
    AddToEmpty(o, Merged([], map[], map[], ZERO_TALLY), SAMPLE_EXPOSURE, stamp);
    SampleHashes(o.key(SAMPLE_EXPOSURE));
  }

  lemma {:induction false} SampleDependencies(stamp: Stamp)
    ensures var d := DraftOf(SAMPLE, EMPTY, SAMPLE_INPUT, stamp).dependencies;
            d.list == [SAMPLE_DEPENDENCY.(id := "d")] && d.ids == map["x" := "e", "y" := "d"]
  {
    hide All, SetMetadata, EntityKey, SampleHash, Mapped;
    var o := Entities(SAMPLE, "dependency");
    SampleExposures(stamp);
    AddToEmpty(o, Start([], DraftOf(SAMPLE, EMPTY, SAMPLE_INPUT, stamp).exposures), SAMPLE_DEPENDENCY, stamp);
    SampleHashes(o.key(SAMPLE_DEPENDENCY));
  }

  lemma {:induction false} MappedOne(c: Connection, ids: map<string, string>)
    requires c.from in ids && c.to in ids
    ensures Mapped([c], ids) == [c.(from := ids[c.from], to := ids[c.to])]
  {
    assert [c][..0] == [];
    assert Mapped([c][..0], ids) == [];
  }

  lemma {:induction false} SampleConnections(stamp: Stamp)
    ensures DraftOf(SAMPLE, EMPTY, SAMPLE_INPUT, stamp).connections.list
        == [UNSIGNED.(id := "c", from := "e", to := "d")]
  {
    hide All, SetMetadata, ConnectionKey, SampleHash, Mapped;
    var o := Connections(SAMPLE);
    var d := DraftOf(SAMPLE, EMPTY, SAMPLE_INPUT, stamp).dependencies;
    SampleDependencies(stamp);
    MappedOne(UNSIGNED, d.ids);
    var c := UNSIGNED.(from := "e", to := "d");
    AddToEmpty(o, Start([], d), c, stamp);
    SampleHashes(o.key(c));
  }

  lemma {:induction false} SampleImported(stamp: Stamp)
    ensures var d := Imported(SAMPLE, EMPTY, SAMPLE_INPUT, stamp);
            && d.exposures == [SAMPLE_EXPOSURE.(id := "e")] && d.dependencies == [SAMPLE_DEPENDENCY.(id := "d")]
            && d.connections == [UNSIGNED.(id := "c", from := "e", to := "d", signature := "manual:e->d")]
            && Valid(d)
  {
    hide DraftOf, Tidy, Trim;
    SampleExposures(stamp);
    SampleDependencies(stamp);
    SampleConnections(stamp);
    TidyOne(Entities(SAMPLE, "exposure"), SAMPLE_EXPOSURE.(id := "e"));
    TidyOne(Entities(SAMPLE, "dependency"), SAMPLE_DEPENDENCY.(id := "d"));
    TidyOne(Connections(SAMPLE), UNSIGNED.(id := "c", from := "e", to := "d"));
    SampleTrims();
    assert "manual:" + "e" + "->" + "d" == "manual:e->d";
    var d := Imported(SAMPLE, EMPTY, SAMPLE_INPUT, stamp);
    assert Ids(d) == ["e", "d", "c"];
    assert SAMPLE_EXPOSURE.(id := "e") in d.exposures && SAMPLE_DEPENDENCY.(id := "d") in d.dependencies;
  }

  lemma {:induction false} SampleTrims()
    ensures Trim("") == ""
    ensures Trim("http_route") == "http_route" && Trim("orders") == "orders"
    ensures Trim("db_operation") == "db_operation" && Trim("read") == "read"
    ensures Trim("e") == "e" && Trim("d") == "d" && Trim("c") == "c" && Trim("run") == "run"
  {
    hide Trim;
    TrimEmpty();
    TrimSolid("e");
    TrimSolid("d");
    TrimSolid("c");
    TrimSolid("run");
    TrimSolid("http_route");
    TrimSolid("orders");
    TrimSolid("db_operation");
    TrimSolid("read");
  }

  /** An empty path signature imports once and is refused when the same run is imported again. */
  lemma {:induction false} EmptySignatureRefusesReimport()
    ensures var first := ImportWith(SAMPLE, EMPTY, SAMPLE_INPUT, Automation, 1, true);
            first.Committed? && ImportWith(SAMPLE, first.doc, SAMPLE_INPUT, Automation, 2, true).Refused?
  {
    hide Imported, DraftOf, Valid, Trim, Inv, Mapped, Bound, Lasting, ConnectionKey;
    var stamp := Stamp(Automation, "run", 1);
    var o, c := Connections(SAMPLE), UNSIGNED.(from := "e", to := "d");
    SampleTrims();
    SampleImported(stamp);
    SampleDependencies(stamp);
    DraftBound(SAMPLE, EMPTY, SAMPLE_INPUT, stamp);
    MappedOne(UNSIGNED, map["x" := "e", "y" := "d"]);
    EmptyInv(SAMPLE);
    NormalConnectionKey(SAMPLE, c);
    assert Nowhere(o, [c], o.key(c)) by {
      forall id | id != ""
        ensures o.key(o.normal(o.withId(c, id))) != o.key(c)
      {
        NormalConnectionKey(SAMPLE, c.(id := id));
        SignedKey(SAMPLE, c, id);
      }
    }
    assert c in [c] && Last(o, [], o.key(c)) < 0;
    assert Loses(o, [], [c], o.freshId(o.key(c)));
    SteadyLasts(Entities(SAMPLE, "exposure"), [], map[], SAMPLE_INPUT.exposures, Automation);
    SteadyLasts(Entities(SAMPLE, "dependency"), [], map[], SAMPLE_INPUT.dependencies, Automation);
    RewrittenKeyRefusesReimport(SAMPLE, EMPTY, SAMPLE_INPUT, Automation, 1, 2, o.freshId(o.key(c)));
  }

  lemma {:induction false} SignedKey(idn: Identity, c: Connection, id: string)
    ensures ConnectionKey(c.(id := id)) == ConnectionKey(c)
  {}

  const BY_TYPE := Identity((l: Loose) => l.typ, (parts: seq<string>) => SampleHash(parts))
  const UNTRIMMED := SAMPLE_EXPOSURE.(typ := " " + "http_route")
  const UNTRIMMED_INPUT := Input("run", [UNTRIMMED], [], [])

  lemma {:induction false} UntrimmedImported(stamp: Stamp)
    ensures var d := Imported(BY_TYPE, EMPTY, UNTRIMMED_INPUT, stamp);
            d.exposures == [SAMPLE_EXPOSURE.(id := "e")] && Valid(d)
  {
    hide All, SetMetadata, SampleHash, Tidy, Trim;
    var o := Entities(BY_TYPE, "exposure");
    AddToEmpty(o, ExposuresFrom(EMPTY), UNTRIMMED, stamp);
    UntrimmedHash(o.key(UNTRIMMED));
    TidyOne(o, UNTRIMMED.(id := "e"));
    SampleTrims();
    UntrimmedType();
    NothingToDo(BY_TYPE, stamp, DraftOf(BY_TYPE, EMPTY, UNTRIMMED_INPUT, stamp).exposures);
    var d := Imported(BY_TYPE, EMPTY, UNTRIMMED_INPUT, stamp);
    assert Ids(d) == ["e"];
  }

  lemma {:induction false} UntrimmedHash(key: string)
    ensures Entities(BY_TYPE, "exposure").freshId(key) == "e"
  {
    assert ["architecture", "exposure", key][1] == "exposure";
  }

  lemma {:induction false} UntrimmedType()
    ensures Trim(" " + "http_route") == "http_route"
  {
    TrimFront("http_route");
  }

  lemma {:induction false} TrimFront(s: string)
    requires s != [] && !Space(s[0]) && !Space(s[|s| - 1])
    ensures Trim(" " + s) == s
  {
    assert (" " + s)[1..] == s;
    assert TrimLeft(" " + s) == TrimLeft(s);
  }

  lemma {:induction false} NothingToDo(idn: Identity, stamp: Stamp, m: Merged<Entity>)
    ensures All(Entities(idn, "dependency"), Start([], m), [], stamp) == Start([], m)
    ensures All(Connections(idn), Start([], Start<Entity, Entity>([], m)), Mapped([], m.ids), stamp).list == []
    ensures Tidy(Entities(idn, "dependency"), []) == [] && Tidy(Connections(idn), []) == []
  {}

  /** A type with a blank before it imports once and is refused when the same run is imported again. */
  lemma {:induction false} UntrimmedTypeRefusesReimport()
    ensures var first := ImportWith(BY_TYPE, EMPTY, UNTRIMMED_INPUT, Automation, 1, true);
            first.Committed? && ImportWith(BY_TYPE, first.doc, UNTRIMMED_INPUT, Automation, 2, true).Refused?
  {
    hide Imported, DraftOf, Valid, Trim, Inv, Mapped, Bound;
    var o := Entities(BY_TYPE, "exposure");
    SampleTrims();
    UntrimmedType();
    UntrimmedImported(Stamp(Automation, "run", 1));
    EmptyInv(BY_TYPE);
    assert o.key(UNTRIMMED) == " " + "http_route";
    assert |" " + "http_route"| > |"http_route"|;
    assert Nowhere(o, [UNTRIMMED], o.key(UNTRIMMED)) by {
      forall id | id != "" ensures o.key(o.normal(o.withId(UNTRIMMED, id))) == "http_route" {}
    }
    assert UNTRIMMED in [UNTRIMMED] && Last(o, [], o.key(UNTRIMMED)) < 0;
    assert Loses(o, [], [UNTRIMMED], o.freshId(o.key(UNTRIMMED)));
    RewrittenKeyRefusesReimport(BY_TYPE, EMPTY, UNTRIMMED_INPUT, Automation, 1, 2, o.freshId(o.key(UNTRIMMED)));
  }

  const BLANK_SIGNED := Connection("1", "e", "d", "ast", UNCONDITIONAL, " ", 1.0, "")
  const FROM_RUN := Meta(Automation, "run", 1, 1)

  /** Two stored connections of one key; the first one is manual, the second one is what the key selects. */
  const SHADOWED := Document(
    0, DEFAULT_NAME, "", 0, [SAMPLE_EXPOSURE.(id := "e")], [SAMPLE_DEPENDENCY.(id := "d")],
    [BLANK_SIGNED, BLANK_SIGNED.(id := "2")],
    map["e" := FROM_RUN, "d" := FROM_RUN, "1" := Meta(Manual, "", 1, 1), "2" := FROM_RUN], [])
  const REBOUND := UNSIGNED.(from := "e", to := "d")
  const REWRITTEN := REBOUND.(id := "2", signature := "manual:e->d")

  lemma {:induction false} MergeKnown<T>(o: Ops<T>, m: Merged<T>, x: T, stamp: Stamp)
    requires Last(o, m.list, o.key(x)) >= 0
    ensures var i := Last(o, m.list, o.key(x));
            var id := o.id(m.list[i]);
            var r := All(o, m, [x], stamp);
            if Skips(Found(m.records, id).owner, stamp.source)
            then r.list == m.list && r.records == m.records && r.ids == m.ids[o.id(x) := id]
            else
              && r.list == m.list[i := o.withId(x, id)] && r.records == SetMetadata(m.records, id, stamp)
              && r.ids == m.ids[o.id(x) := id]
  {
    assert [x][..0] == [];
    assert All(o, m, [x][..0], stamp) == m;
  }

  lemma {:induction false} LastOne<T>(o: Ops<T>, x: T, k: string)
    ensures Last(o, [x], k) == if o.key(x) == k then 0 else -1
  {}

  lemma {:induction false} LastTwo<T>(o: Ops<T>, x: T, y: T, k: string)
    ensures Last(o, [x, y], k) == if o.key(y) == k then 1 else if o.key(x) == k then 0 else -1
  {}

  const EDGE_KEY := "e" + "|" + "d" + "|" + ""

  lemma {:induction false} SampleKeys()
    ensures ConnectionKey(BLANK_SIGNED) == EDGE_KEY && ConnectionKey(BLANK_SIGNED.(id := "2")) == EDGE_KEY
    ensures ConnectionKey(REBOUND) == EDGE_KEY && ConnectionKey(REWRITTEN) != EDGE_KEY
  {
    hide ConnectionKey, Trim;
    BlankKey(BLANK_SIGNED);
    BlankKey(BLANK_SIGNED.(id := "2"));
    BlankKey(REBOUND);
    NormalConnectionKey(SAMPLE, REBOUND.(id := "2"));
    SignedKey(SAMPLE, REBOUND, "2");
    assert NormalConnection(SAMPLE, REBOUND.(id := "2")) == REWRITTEN by {
      assert "manual:" + "e" + "->" + "d" == "manual:e->d";
    }
  }

  lemma {:induction false} BlankTrims(s: string)
    requires s == "" || s == " "
    ensures Lower(Trim(s)) == ""
  {
    assert s != "" ==> s[1..] == "";
    assert TrimLeft(s) == "";
  }

  lemma {:induction false} BlankKey(c: Connection)
    requires c.from == "e" && c.to == "d" && (c.signature == "" || c.signature == " ")
    ensures ConnectionKey(c) == EDGE_KEY
  {
    hide Trim, Lower;
    BlankTrims(c.signature);
  }

  /** An entity that is the only one of its kind is merged into itself. */
  lemma {:induction false} MergeSelf(kind: string, m: Merged<Entity>, e: Entity, id: string, stamp: Stamp)
    requires m.list == [e.(id := id)] && !Found(m.records, id).owner.Manual?
    ensures var r := All(Entities(SAMPLE, kind), m, [e], stamp);
            && r.list == m.list && r.ids == m.ids[e.id := id]
            && (forall other | other != id :: Found(r.records, other) == Found(m.records, other))
  {
    hide All, Last;
    var o := Entities(SAMPLE, kind);
    LastOne(o, e.(id := id), o.key(e));
    MergeKnown(o, m, e, stamp);
  }

  /** The two entities are merged into themselves. */
  lemma {:induction false} ShadowedEntities(doc: Document, stamp: Stamp)
    requires doc.exposures == SHADOWED.exposures && doc.dependencies == SHADOWED.dependencies
    requires !Found(doc.records, "e").owner.Manual? && !Found(doc.records, "d").owner.Manual?
    ensures var draft := DraftOf(SAMPLE, doc, SAMPLE_INPUT, stamp);
            && draft.exposures.list == doc.exposures && draft.dependencies.list == doc.dependencies
            && draft.dependencies.ids == map["x" := "e", "y" := "d"]
            && (forall id | id != "e" && id != "d" :: Found(draft.dependencies.records, id) == Found(doc.records, id))
  {
    hide All, Entities, Mapped, Found;
    MergeSelf("exposure", ExposuresFrom(doc), SAMPLE_EXPOSURE, "e", stamp);
    var m := DraftOf(SAMPLE, doc, SAMPLE_INPUT, stamp).exposures;
    MergeSelf("dependency", Start(doc.dependencies, m), SAMPLE_DEPENDENCY, "d", stamp);
  }

  /** The import writes the second connection, or passes over the first one, whichever the key selects. */
  lemma {:induction false} ShadowedConnections(doc: Document, stamp: Stamp)
    requires stamp.source.Automation?
    requires doc.exposures == SHADOWED.exposures && doc.dependencies == SHADOWED.dependencies
    requires !Found(doc.records, "e").owner.Manual? && !Found(doc.records, "d").owner.Manual?
    requires Found(doc.records, "1").owner.Manual? && !Found(doc.records, "2").owner.Manual?
    requires doc.connections == SHADOWED.connections || doc.connections == [BLANK_SIGNED, REWRITTEN]
    ensures var r := DraftOf(SAMPLE, doc, SAMPLE_INPUT, stamp).connections;
            && r.list == (if doc.connections == SHADOWED.connections then [BLANK_SIGNED, REBOUND.(id := "2")]
                else doc.connections)
            && Found(r.records, "1").owner.Manual? && !Found(r.records, "2").owner.Manual?
  {
    hide All, ConnectionKey, Mapped, Last, Entities;
    var o := Connections(SAMPLE);
    var draft := DraftOf(SAMPLE, doc, SAMPLE_INPUT, stamp);
    ShadowedEntities(doc, stamp);
    SampleKeys();
    MappedOne(UNSIGNED, draft.dependencies.ids);
    LastTwo(o, doc.connections[0], doc.connections[1], EDGE_KEY);
    assert doc.connections == [doc.connections[0], doc.connections[1]];
    MergeKnown(o, ConnectionsFrom(doc, draft), REBOUND, stamp);
  }

  lemma {:induction false} ShadowedOwners(doc: Document, stamp: Stamp)
    requires stamp.source.Automation?
    requires doc.exposures == SHADOWED.exposures && doc.dependencies == SHADOWED.dependencies
        && doc.connections == SHADOWED.connections
    requires doc.records == SHADOWED.records
    ensures var r := DraftOf(SAMPLE, doc, SAMPLE_INPUT, stamp).connections.records;
            !Found(r, "e").owner.Manual? && !Found(r, "d").owner.Manual?
  {
    hide All, Mapped, Entities, Connections, Found;
    var draft := DraftOf(SAMPLE, doc, SAMPLE_INPUT, stamp);
    assert !Found(doc.records, "e").owner.Manual? && !Found(doc.records, "d").owner.Manual? by { OwnersOfShadowed(); }
    forall id | id == "e" || id == "d" ensures !Found(draft.connections.records, id).owner.Manual? {
      OwnersChange(Entities(SAMPLE, "exposure"), ExposuresFrom(doc), SAMPLE_INPUT.exposures, stamp, id);
      OwnersChange(Entities(SAMPLE, "dependency"), DependenciesFrom(doc, draft), SAMPLE_INPUT.dependencies, stamp, id);
      OwnersChange(Connections(SAMPLE), ConnectionsFrom(doc, draft),
          Mapped(SAMPLE_INPUT.connections, draft.dependencies.ids), stamp, id);
    }
  }

  lemma {:induction false} OwnersOfShadowed()
    ensures !Found(SHADOWED.records, "e").owner.Manual? && !Found(SHADOWED.records, "d").owner.Manual?
    ensures Found(SHADOWED.records, "1").owner.Manual? && !Found(SHADOWED.records, "2").owner.Manual?
  {}

  lemma {:induction false} TidyPair(c: Connection)
    requires c.id == "2"
    ensures Tidy(Connections(SAMPLE), [BLANK_SIGNED, c]) == [BLANK_SIGNED, NormalConnection(SAMPLE, c)]
  {
    var s := Map(Connections(SAMPLE).normal, [BLANK_SIGNED, c]);
    assert s == [BLANK_SIGNED, NormalConnection(SAMPLE, c)];
    SortIdentity(s, Connections(SAMPLE).id);
  }

  lemma {:induction false} ShadowedImported(doc: Document, stamp: Stamp)
    requires stamp.source.Automation?
    requires doc.exposures == SHADOWED.exposures && doc.dependencies == SHADOWED.dependencies
    requires !Found(doc.records, "e").owner.Manual? && !Found(doc.records, "d").owner.Manual?
    requires Found(doc.records, "1").owner.Manual? && !Found(doc.records, "2").owner.Manual?
    requires doc.connections == SHADOWED.connections || doc.connections == [BLANK_SIGNED, REWRITTEN]
    ensures var d := Imported(SAMPLE, doc, SAMPLE_INPUT, stamp);
            && d.exposures == SHADOWED.exposures && d.dependencies == SHADOWED.dependencies
            && d.connections == [BLANK_SIGNED, REWRITTEN] && Valid(d)
  {
    hide DraftOf, Tidy, Trim, Found;
    ShadowedEntities(doc, stamp);
    ShadowedConnections(doc, stamp);
    SampleTrims();
    TidyOne(Entities(SAMPLE, "exposure"), SAMPLE_EXPOSURE.(id := "e"));
    TidyOne(Entities(SAMPLE, "dependency"), SAMPLE_DEPENDENCY.(id := "d"));
    TidyPair(REBOUND.(id := "2"));
    TidyPair(REWRITTEN);
    assert "manual:" + "e" + "->" + "d" == "manual:e->d";
    ShadowedValid(Imported(SAMPLE, doc, SAMPLE_INPUT, stamp));
  }

  lemma {:induction false} ShadowedValid(d: Document)
    requires d.exposures == SHADOWED.exposures && d.dependencies == SHADOWED.dependencies
    requires d.connections == SHADOWED.connections || d.connections == [BLANK_SIGNED, REWRITTEN]
    ensures Valid(d) && Ids(d) == ["e", "d", "1", "2"]
  {
    hide Trim;
    SampleTrims();
    TrimSolid("1");
    TrimSolid("2");
    assert Ids(d) == ["e", "d", "1", "2"];
    assert SAMPLE_EXPOSURE.(id := "e") in d.exposures && SAMPLE_DEPENDENCY.(id := "d") in d.dependencies;
  }

  lemma {:induction false} ShadowedInv()
    ensures Inv(SAMPLE, SHADOWED)
  {
    hide Valid, Trim;
    ShadowedValid(SHADOWED);
    SampleTrims();
    hide Ids;
  }

  /**
    Why `UnshadowedInput` is asked for.  Here normalisation takes the key from the record the input was
    merged into, and the second import meets the manual one of that key instead, which it passes over: the
    graph stays as it is, though the input is not lasting.
   */
  lemma {:induction false} ShadowedStays()
    ensures Inv(SAMPLE, SHADOWED) && !LastingInput(SAMPLE, SHADOWED, SAMPLE_INPUT, Automation)
    ensures var first := ImportWith(SAMPLE, SHADOWED, SAMPLE_INPUT, Automation, 1, true);
            && first.Committed?
            && var second := ImportWith(SAMPLE, first.doc, SAMPLE_INPUT, Automation, 2, true);
            second.Committed? && SameGraph(second.doc, first.doc)
  {
    hide DraftOf, Valid, Trim, Tidy, Found, Normalized, LastingInput, Inv;
    var stamp, stamp2 := Stamp(Automation, "run", 1), Stamp(Automation, "run", 2);
    ShadowedInv();
    OwnersOfShadowed();
    SampleTrims();
    ShadowedImported(SHADOWED, stamp);
    ShadowedConnections(SHADOWED, stamp);
    ShadowedOwners(SHADOWED, stamp);
    var d := Imported(SAMPLE, SHADOWED, SAMPLE_INPUT, stamp);
    assert d.records == DraftOf(SAMPLE, SHADOWED, SAMPLE_INPUT, stamp).connections.records by {
      ImportedKeeps(SAMPLE, SHADOWED, SAMPLE_INPUT, stamp);
    }
    ShadowedImported(d, stamp2);
    ShadowedNotLasting();
  }

  lemma {:induction false} ImportedKeeps(idn: Identity, doc: Document, input: Input, stamp: Stamp)
    ensures Imported(idn, doc, input, stamp).records == DraftOf(idn, doc, input, stamp).connections.records
  {
    hide DraftOf, Tidy;
  }

  lemma {:induction false} ShadowedNotLasting()
    ensures !LastingInput(SAMPLE, SHADOWED, SAMPLE_INPUT, Automation)
  {
    hide ConnectionKey, Last, Bound, Mapped, DraftOf;
    var o := Connections(SAMPLE);
    var stamp := Stamp(Automation, "run", 1);
    OwnersOfShadowed();
    SampleKeys();
    ShadowedEntities(SHADOWED, stamp);
    DraftBound(SAMPLE, SHADOWED, SAMPLE_INPUT, stamp);
    MappedOne(UNSIGNED, map["x" := "e", "y" := "d"]);
    LastTwo(o, SHADOWED.connections[0], SHADOWED.connections[1], EDGE_KEY);
    LastOne(o, REBOUND, EDGE_KEY);
    assert REBOUND in [REBOUND];
    assert !LastSteady(o, [REBOUND], EDGE_KEY);
    assert !Guarded(o, SHADOWED.connections, SHADOWED.records, Automation, EDGE_KEY);
  }
}
