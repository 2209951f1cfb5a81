/** What holds of the architecture catalog over every sequence of calls. */
module CatalogLaws {
  import opened Catalog
  import opened CatalogAgain
  import opened CatalogMerge
  import opened Lists
  import opened Sorting
  import opened Text

  /** One list as it is stored: normalised and sorted by id. */
  ghost predicate Neat<T>(o: Ops<T>, xs: seq<T>) {
    Normals(o, xs) && SortedBy(xs, o.id)
  }

  ghost predicate RecordsMatch(doc: Document) {
    forall id :: id in doc.records <==> id in Ids(doc)
  }

  /** The invariant of the stored document. */
  ghost predicate Inv(idn: Identity, doc: Document) {
    && Valid(doc) && RecordsMatch(doc) && doc.name != ""
    && Neat(Entities(idn, "exposure"), doc.exposures)
    && Neat(Entities(idn, "dependency"), doc.dependencies)
    && Neat(Connections(idn), doc.connections)
  }

  lemma {:induction false} InvValid(idn: Identity, doc: Document)
    requires Inv(idn, doc)
    ensures Valid(doc)
  {}

  /** Reading the file back gives the document that was written: load's normalisation and validation change nothing. */
  lemma {:induction false} LoadReturnsStored(idn: Identity, doc: Document)
    requires Inv(idn, doc)
    ensures Normalized(idn, doc) == doc && Valid(doc)
  {
    hide Valid, RecordsMatch, SortedBy, Normals, Entities, Connections, Tidy;
    TidyIdentity(Entities(idn, "exposure"), doc.exposures);
    TidyIdentity(Entities(idn, "dependency"), doc.dependencies);
    TidyIdentity(Connections(idn), doc.connections);
  }

  lemma {:induction false} NormalizedNeat(idn: Identity, doc: Document)
    ensures var d := Normalized(idn, doc);
            && d.name != ""
            && Neat(Entities(idn, "exposure"), d.exposures)
            && Neat(Entities(idn, "dependency"), d.dependencies)
            && Neat(Connections(idn), d.connections)
  {
    EntitiesLawful(idn, "exposure");
    EntitiesLawful(idn, "dependency");
    ConnectionsLawful(idn);
    hide Lawful, SortedBy, Normals, Entities, Connections, Tidy;
    TidyIdempotent(Entities(idn, "exposure"), doc.exposures);
    TidyIdempotent(Entities(idn, "dependency"), doc.dependencies);
    TidyIdempotent(Connections(idn), doc.connections);
  }

  lemma {:induction false} ValidNamed(idn: Identity, doc: Document)
    requires Valid(doc)
    ensures Named(Entities(idn, "exposure"), doc.exposures)
    ensures Named(Entities(idn, "dependency"), doc.dependencies)
    ensures Named(Connections(idn), doc.connections)
  {
    hide Distinct;
    forall i | 0 <= i < |doc.exposures| ensures doc.exposures[i].id != "" { assert EntityOk(doc.exposures[i]); }
    forall i | 0 <= i < |doc.dependencies|
      ensures doc.dependencies[i].id != ""
    {
      assert EntityOk(doc.dependencies[i]);
    }
    forall i | 0 <= i < |doc.connections|
      ensures doc.connections[i].id != ""
    {
      assert ConnectionOk(doc, doc.connections[i]);
    }
  }

  function DraftIds(draft: Draft): seq<string> {
    Map(EntityId, draft.exposures.list) + Map(EntityId, draft.dependencies.list)
        + Map(ConnectionId, draft.connections.list)
  }

  lemma {:induction false} DraftNamed(idn: Identity, doc: Document, input: Input, stamp: Stamp)
    requires Valid(doc)
    ensures var draft := DraftOf(idn, doc, input, stamp);
            && Named(Entities(idn, "exposure"), draft.exposures.list)
            && Named(Entities(idn, "dependency"), draft.dependencies.list)
            && Named(Connections(idn), draft.connections.list)
  {
    hide Valid, All, Mapped, Named;
    EntitiesLawful(idn, "exposure");
    EntitiesLawful(idn, "dependency");
    ConnectionsLawful(idn);
    ValidNamed(idn, doc);
    hide Lawful, Entities, Connections;
    var draft := DraftOf(idn, doc, input, stamp);
    AllNamed(Entities(idn, "exposure"), Merged(doc.exposures, doc.records, map[], ZERO_TALLY), input.exposures, stamp);
    AllNamed(Entities(idn, "dependency"), Start(doc.dependencies, draft.exposures), input.dependencies, stamp);
    AllNamed(Connections(idn), Start(doc.connections, draft.dependencies),
        Mapped(input.connections, draft.dependencies.ids), stamp);
  }

  /** The final normalisation leaves every merged id alone. */
  lemma {:induction false} ImportedIds(idn: Identity, doc: Document, input: Input, stamp: Stamp)
    requires Valid(doc)
    ensures multiset(Ids(Imported(idn, doc, input, stamp))) == multiset(DraftIds(DraftOf(idn, doc, input, stamp)))
  {
    hide Valid, All, Mapped, Named, DraftOf, Tidy;
    EntitiesLawful(idn, "exposure");
    EntitiesLawful(idn, "dependency");
    ConnectionsLawful(idn);
    hide Lawful;
    DraftNamed(idn, doc, input, stamp);
    var draft := DraftOf(idn, doc, input, stamp);
    TidyIds(Entities(idn, "exposure"), draft.exposures.list);
    TidyIds(Entities(idn, "dependency"), draft.dependencies.list);
    TidyIds(Connections(idn), draft.connections.list);
  }

  /** After an import that validates, no id occurs twice among the merged lists. */
  lemma {:induction false} DraftDistinct(idn: Identity, doc: Document, input: Input, stamp: Stamp)
    requires Valid(doc) && Distinct(Ids(Imported(idn, doc, input, stamp)))
    ensures Distinct(DraftIds(DraftOf(idn, doc, input, stamp)))
  {
    hide Valid, Imported, DraftOf, Ids, DraftIds, Distinct;
    ImportedIds(idn, doc, input, stamp);
    DistinctMultiset(Ids(Imported(idn, doc, input, stamp)), DraftIds(DraftOf(idn, doc, input, stamp)));
  }

  /** Every stored id is still there in the merged lists. */
  lemma {:induction false} DraftKeepsIds(idn: Identity, doc: Document, input: Input, stamp: Stamp)
    ensures var draft := DraftOf(idn, doc, input, stamp);
            && Grows(Entities(idn, "exposure"), doc.exposures, draft.exposures.list)
            && Grows(Entities(idn, "dependency"), doc.dependencies, draft.dependencies.list)
            && Grows(Connections(idn), doc.connections, draft.connections.list)
  {
    hide All, Mapped, Grows;
    EntitiesLawful(idn, "exposure");
    EntitiesLawful(idn, "dependency");
    ConnectionsLawful(idn);
    hide Lawful, Entities, Connections;
    var draft := DraftOf(idn, doc, input, stamp);
    AllGrows(Entities(idn, "exposure"), Merged(doc.exposures, doc.records, map[], ZERO_TALLY), input.exposures, stamp);
    AllGrows(Entities(idn, "dependency"), Start(doc.dependencies, draft.exposures), input.dependencies, stamp);
    AllGrows(Connections(idn), Start(doc.connections, draft.dependencies),
        Mapped(input.connections, draft.dependencies.ids), stamp);
  }

  lemma {:induction false} GrowsMember<T>(o: Ops<T>, before: seq<T>, after: seq<T>, id: string)
    requires Grows(o, before, after) && id in Map(o.id, before)
    ensures id in Map(o.id, after)
  {
    var ids := Map(o.id, before);
    var i :| 0 <= i < |ids| && ids[i] == id;
    assert Map(o.id, after)[i] == id;
  }

  lemma {:induction false} IdsSplit(doc: Document, id: string)
    ensures id in Ids(doc) <==>
        id in Map(EntityId, doc.exposures) || id in Map(EntityId, doc.dependencies)
          || id in Map(ConnectionId, doc.connections)
  {}

  lemma {:induction false} DraftIdsSplit(draft: Draft, id: string)
    ensures id in DraftIds(draft) <==>
      id in Map(EntityId, draft.exposures.list) || id in Map(EntityId, draft.dependencies.list)
          || id in Map(ConnectionId, draft.connections.list)
  {}

  ghost predicate Recorded<T>(o: Ops<T>, list: seq<T>, records: Records) {
    forall i | 0 <= i < |list| :: o.id(list[i]) in records
  }

  lemma {:induction false} InvRecorded(idn: Identity, doc: Document)
    requires RecordsMatch(doc)
    ensures Recorded(Entities(idn, "exposure"), doc.exposures, doc.records)
    ensures Recorded(Entities(idn, "dependency"), doc.dependencies, doc.records)
    ensures Recorded(Connections(idn), doc.connections, doc.records)
  {
    forall i | 0 <= i < |doc.exposures| ensures doc.exposures[i].id in doc.records {
      assert Map(EntityId, doc.exposures)[i] == doc.exposures[i].id;
      IdsSplit(doc, doc.exposures[i].id);
    }
    forall i | 0 <= i < |doc.dependencies| ensures doc.dependencies[i].id in doc.records {
      assert Map(EntityId, doc.dependencies)[i] == doc.dependencies[i].id;
      IdsSplit(doc, doc.dependencies[i].id);
    }
    forall i | 0 <= i < |doc.connections| ensures doc.connections[i].id in doc.records {
      assert Map(ConnectionId, doc.connections)[i] == doc.connections[i].id;
      IdsSplit(doc, doc.connections[i].id);
    }
  }

  /** The merged metadata names the merged records, no more and no fewer. */
  lemma {:induction false} DraftRecords(idn: Identity, doc: Document, input: Input, stamp: Stamp, id: string)
    requires RecordsMatch(doc)
    ensures var draft := DraftOf(idn, doc, input, stamp); id in draft.connections.records <==> id in DraftIds(draft)
  {
    hide All, Mapped, Grows, Ids, DraftIds;
    EntitiesLawful(idn, "exposure");
    EntitiesLawful(idn, "dependency");
    ConnectionsLawful(idn);
    InvRecorded(idn, doc);
    DraftKeepsIds(idn, doc, input, stamp);
    var draft := DraftOf(idn, doc, input, stamp);
    var m := Merged(doc.exposures, doc.records, map[], ZERO_TALLY);
    hide Lawful;
    RecordsExactly(Entities(idn, "exposure"), m, input.exposures, stamp);
    RecordsExactly(Entities(idn, "dependency"), Start(doc.dependencies, draft.exposures), input.dependencies, stamp);
    RecordsExactly(Connections(idn), Start(doc.connections, draft.dependencies),
        Mapped(input.connections, draft.dependencies.ids), stamp);
    DraftIdsSplit(draft, id);
    IdsSplit(doc, id);
    if id in Ids(doc) { StoredIdsStay(idn, doc, draft, id); }
  }

  lemma {:induction false} StoredIdsStay(idn: Identity, doc: Document, draft: Draft, id: string)
    requires Grows(Entities(idn, "exposure"), doc.exposures, draft.exposures.list)
    requires Grows(Entities(idn, "dependency"), doc.dependencies, draft.dependencies.list)
    requires Grows(Connections(idn), doc.connections, draft.connections.list)
    requires id in Ids(doc)
    ensures id in DraftIds(draft)
  {
    hide Ids, DraftIds, Grows;
    IdsSplit(doc, id);
    DraftIdsSplit(draft, id);
    if id in Map(EntityId, doc.exposures) {
      GrowsMember(Entities(idn, "exposure"), doc.exposures, draft.exposures.list, id);
    }
    if id in Map(EntityId, doc.dependencies) {
      GrowsMember(Entities(idn, "dependency"), doc.dependencies, draft.dependencies.list, id);
    }
    if id in Map(ConnectionId, doc.connections) {
      GrowsMember(Connections(idn), doc.connections, draft.connections.list, id);
    }
  }

  lemma {:induction false} ImportedRecords(idn: Identity, doc: Document, input: Input, stamp: Stamp)
    requires Inv(idn, doc)
    ensures RecordsMatch(Imported(idn, doc, input, stamp))
  {
    var d := Imported(idn, doc, input, stamp);
    ImportedIds(idn, doc, input, stamp);
    MultisetMembers(Ids(d), DraftIds(DraftOf(idn, doc, input, stamp)));
    assert d.records == DraftOf(idn, doc, input, stamp).connections.records;
    hide Imported, DraftOf, Valid, Ids, DraftIds;
    forall id ensures id in d.records <==> id in Ids(d) { DraftRecords(idn, doc, input, stamp, id); }
  }

  lemma {:induction false} ImportKeepsInv(idn: Identity, doc: Document, input: Input, stamp: Stamp)
    requires Inv(idn, doc) && Valid(Imported(idn, doc, input, stamp))
    ensures Inv(idn, Imported(idn, doc, input, stamp))
  {
    var draft := DraftOf(idn, doc, input, stamp);
    NormalizedNeat(idn, doc.(
      revision := doc.revision + 1, updatedAt := stamp.now,
      exposures := draft.exposures.list, dependencies := draft.dependencies.list, connections := draft.connections.list,
      records := draft.connections.records,
      imports := doc.imports + [ImportRecord(stamp.runId, stamp.now, draft.connections.tally)]));
    ImportedRecords(idn, doc, input, stamp);
    hide Valid, RecordsMatch, Neat, DraftOf, Normalized;
  }

  lemma {:induction false} RecordValuesKeys(values: seq<Value>)
    ensures forall id :: id in RecordValues(values) <==> exists i :: 0 <= i < |values| && ValueId(values[i]) == id
  {
    if values != [] {
      var n := |values| - 1;
      RecordValuesKeys(values[..n]);
      forall id ensures id in RecordValues(values) <==> exists i :: 0 <= i < |values| && ValueId(values[i]) == id {
        if id in RecordValues(values[..n]) {
          var i :| 0 <= i < n && ValueId(values[..n][i]) == id;
          assert ValueId(values[i]) == id;
        }
        if i :| 0 <= i < |values| && ValueId(values[i]) == id {
          if i < n { assert ValueId(values[..n][i]) == id; }
        }
      }
    }
  }

  lemma {:induction false} ValuesIds(doc: Document)
    ensures |Values(doc)| == |Ids(doc)| && forall i | 0 <= i < |Ids(doc)| :: ValueId(Values(doc)[i]) == Ids(doc)[i]
  {}

  lemma {:induction false} RecordValuesIds(doc: Document)
    ensures forall id :: id in RecordValues(Values(doc)) <==> id in Ids(doc)
  {
    hide Ids, Values, RecordValues;
    RecordValuesKeys(Values(doc));
    ValuesIds(doc);
    forall id ensures id in RecordValues(Values(doc)) <==> id in Ids(doc) {
      if id in Ids(doc) {
        var i :| 0 <= i < |Ids(doc)| && Ids(doc)[i] == id;
        assert ValueId(Values(doc)[i]) == id;
      }
    }
  }

  lemma {:induction false} EditedRecords(idn: Identity, doc: Document, edit: Document, now: nat)
    ensures RecordsMatch(Edited(idn, doc, edit, now))
  {
    hide Normalized, Ids, Values, RecordValues, ManualMeta;
    var d := Edited(idn, doc, edit, now);
    var name := Trim(edit.name);
    var n := Normalized(idn, edit.(
      revision := doc.revision + 1, updatedAt := now, name := if name == "" then doc.name
          else name, imports := doc.imports));
    ValuesOfLists(d, n);
    RecordValuesIds(d);
  }

  lemma {:induction false} ValuesOfLists(d: Document, n: Document)
    requires d.exposures == n.exposures && d.dependencies == n.dependencies && d.connections == n.connections
    ensures Values(d) == Values(n)
  {}

  lemma {:induction false} SaveKeepsInv(idn: Identity, doc: Document, edit: Document, now: nat)
    requires Valid(Edited(idn, doc, edit, now))
    ensures Inv(idn, Edited(idn, doc, edit, now))
  {
    var name := Trim(edit.name);
    NormalizedNeat(idn, edit.(
      revision := doc.revision + 1, updatedAt := now, name := if name == "" then doc.name
          else name, imports := doc.imports));
    EditedRecords(idn, doc, edit, now);
    hide Valid, RecordsMatch, Neat, Normalized, ManualRecords;
  }

  lemma {:induction false} EmptyInv(idn: Identity)
    ensures Inv(idn, EMPTY)
  {
    assert Ids(EMPTY) == [];
  }

  lemma {:induction false} ImportDoc(idn: Identity, doc: Document, input: Input, source: Owner, now: nat, ioOk: bool)
    requires ImportWith(idn, doc, input, source, now, ioOk).Committed?
    ensures var stamp := Stamp(source, input.runId, now);
            && Valid(Imported(idn, doc, input, stamp))
            && ImportWith(idn, doc, input, source, now, ioOk)
                == Committed(Imported(idn, doc, input, stamp), DraftOf(idn, doc, input, stamp).connections.tally)
  {
    hide Valid, Imported, DraftOf, Blank;
  }

  lemma {:induction false} ImportWithKeepsInv(idn: Identity, doc: Document, input: Input, source: Owner, now: nat,
      ioOk: bool)
    requires Inv(idn, doc)
    ensures var reply := ImportWith(idn, doc, input, source, now, ioOk); reply.Committed? ==> Inv(idn, reply.doc)
  {
    hide ImportWith, Inv, Valid, Imported, DraftOf;
    if ImportWith(idn, doc, input, source, now, ioOk).Committed? {
      ImportDoc(idn, doc, input, source, now, ioOk);
      ImportKeepsInv(idn, doc, input, Stamp(source, input.runId, now));
    }
  }

  lemma {:induction false} SaveManualKeepsInv(idn: Identity, doc: Document, edit: Document, now: nat, ioOk: bool)
    requires Inv(idn, doc)
    ensures var reply := SaveManual(idn, doc, edit, now, ioOk); reply.Committed? ==> Inv(idn, reply.doc)
  {
    hide Inv, Valid, Edited;
    if Valid(Edited(idn, doc, edit, now)) { SaveKeepsInv(idn, doc, edit, now); }
  }

  lemma {:induction false} StepKeepsInv(idn: Identity, doc: Document, step: Step)
    requires Inv(idn, doc)
    ensures Inv(idn, After(idn, doc, step))
  {
    hide Inv, ImportWith, SaveManual, Labelled;
    match step.call
    case Save(edit) => SaveManualKeepsInv(idn, doc, edit, step.now, step.ioOk);
    case Import(input) => ImportWithKeepsInv(idn, doc, input, Automation, step.now, step.ioOk);
    case ImportFile(input) => ImportWithKeepsInv(idn, doc, Labelled(input), Manual, step.now, step.ioOk);
  }

  /** From the empty catalog, every sequence of calls leaves a document that satisfies the invariant. */
  lemma {:induction false} RunsKeepInv(idn: Identity, steps: seq<Step>)
    ensures Inv(idn, Run(idn, EMPTY, steps))
  {
    hide Inv, After;
    if steps == [] {
      EmptyInv(idn);
    } else {
      RunsKeepInv(idn, steps[..|steps| - 1]);
      StepKeepsInv(idn, Run(idn, EMPTY, steps[..|steps| - 1]), steps[|steps| - 1]);
    }
  }

  ghost predicate Follows(doc: Document, d: Document) {
    d.revision == doc.revision + 1 && doc.imports <= d.imports
  }

  /** A commit raises the revision by one and keeps the history of imports; anything else changes nothing. */
  lemma {:induction false} StepGrows(idn: Identity, doc: Document, step: Step)
    ensures var d := After(idn, doc, step);
            if Answer(idn, doc, step).Committed? then Follows(doc, d) else d == doc
  {
    hide Follows, ImportWith, SaveManual;
    if Answer(idn, doc, step).Committed? {
      match step.call
      case Save(edit) => SaveGrows(idn, doc, edit, step.now, step.ioOk);
      case Import(input) => ImportGrows(idn, doc, input, Automation, step.now, step.ioOk);
      case ImportFile(input) => ImportGrows(idn, doc, Labelled(input), Manual, step.now, step.ioOk);
    }
  }

  lemma {:induction false} SaveGrows(idn: Identity, doc: Document, edit: Document, now: nat, ioOk: bool)
    requires SaveManual(idn, doc, edit, now, ioOk).Committed?
    ensures Follows(doc, SaveManual(idn, doc, edit, now, ioOk).doc)
  {
    hide Edited, Valid;
    EditedGrows(idn, doc, edit, now);
  }

  lemma {:induction false} ImportGrows(idn: Identity, doc: Document, input: Input, source: Owner, now: nat, ioOk: bool)
    requires ImportWith(idn, doc, input, source, now, ioOk).Committed?
    ensures Follows(doc, ImportWith(idn, doc, input, source, now, ioOk).doc)
  {
    hide ImportWith, Imported, Valid, DraftOf;
    ImportDoc(idn, doc, input, source, now, ioOk);
    ImportedGrows(idn, doc, input, Stamp(source, input.runId, now));
  }

  lemma {:induction false} EditedGrows(idn: Identity, doc: Document, edit: Document, now: nat)
    ensures var d := Edited(idn, doc, edit, now); d.revision == doc.revision + 1 && d.imports == doc.imports
  {
    hide Tidy, ManualRecords;
  }

  lemma {:induction false} ImportedGrows(idn: Identity, doc: Document, input: Input, stamp: Stamp)
    ensures var d := Imported(idn, doc, input, stamp); d.revision == doc.revision + 1 && doc.imports < d.imports
  {
    hide Tidy, DraftOf;
  }

  lemma {:induction false} RevisionsGrow(idn: Identity, doc: Document, steps: seq<Step>, i: nat)
    requires i <= |steps|
    ensures var d, e := Run(idn, doc, steps[..i]), Run(idn, doc, steps);
            d.revision <= e.revision && d.imports <= e.imports && (d.revision == e.revision ==> d == e)
  {
    hide After, Answer;
    if i == |steps| {
      assert steps[..i] == steps;
    } else {
      var n := |steps| - 1;
      RevisionsGrow(idn, doc, steps[..n], i);
      assert steps[..n][..i] == steps[..i];
      StepGrows(idn, Run(idn, doc, steps[..n]), steps[n]);
    }
  }

  /** A save that commits replaced exactly the document its editor had loaded, whatever happened in between. */
  lemma {:induction false} SaveReplacesWhatWasLoaded(idn: Identity, doc: Document, steps: seq<Step>, i: nat,
      edit: Document, now: nat, ioOk: bool)
    requires i <= |steps| && edit.revision == Run(idn, doc, steps[..i]).revision
    requires SaveManual(idn, Run(idn, doc, steps), edit, now, ioOk).Committed?
    ensures Run(idn, doc, steps) == Run(idn, doc, steps[..i])
  {
    hide After, Valid, Edited;
    RevisionsGrow(idn, doc, steps, i);
  }

  /** Step `i` of a run was a commit. */
  ghost predicate Commits(idn: Identity, doc: Document, steps: seq<Step>, i: nat)
    requires i < |steps|
  {
    Answer(idn, Run(idn, doc, steps[..i]), steps[i]).Committed?
  }

  /** Of two saves made from the same revision at most one commits. */
  lemma {:induction false} OneSaveWins(idn: Identity, doc: Document, steps: seq<Step>, i: nat, j: nat)
    requires i < j < |steps| && steps[i].call.Save? && steps[j].call.Save?
    requires steps[i].call.edit.revision == steps[j].call.edit.revision
    ensures !(Commits(idn, doc, steps, i) && Commits(idn, doc, steps, j))
  {
    hide After, Valid, Edited;
    if Commits(idn, doc, steps, i) {
      var before := Run(idn, doc, steps[..i]);
      assert steps[..i + 1][..i] == steps[..i] && steps[..j][..i + 1] == steps[..i + 1];
      assert Run(idn, doc, steps[..i + 1]) == After(idn, before, steps[i]);
      StepGrows(idn, before, steps[i]);
      RevisionsGrow(idn, doc, steps[..j], i + 1);
    }
  }

  /** The new records of a merged list do not carry the id `p`. */
  ghost predicate AddsNot<T>(o: Ops<T>, before: seq<T>, after: seq<T>, p: string) {
    forall i | |before| <= i < |after| :: o.id(after[i]) != p
  }

  lemma {:induction false} AddsNotOwn<T>(o: Ops<T>, before: seq<T>, after: seq<T>, p: string)
    requires Grows(o, before, after) && Distinct(Map(o.id, after)) && p in Map(o.id, before)
    ensures AddsNot(o, before, after, p)
  {
    var ids, olds := Map(o.id, after), Map(o.id, before);
    var i :| 0 <= i < |olds| && olds[i] == p;
    assert ids[i] == p;
    forall j | |before| <= j < |after| ensures o.id(after[j]) != p { assert ids[i] != ids[j]; }
  }

  lemma {:induction false} AddsNotOther<T>(o: Ops<T>, before: seq<T>, after: seq<T>, p: string)
    requires p !in Map(o.id, after)
    ensures AddsNot(o, before, after, p)
  {
    forall j | |before| <= j < |after| ensures o.id(after[j]) != p { assert Map(o.id, after)[j] == o.id(after[j]); }
  }

  /** An import that validates gave no stored id to a new record. */
  lemma {:induction false} ImportReusesNoId(idn: Identity, doc: Document, input: Input, stamp: Stamp, p: string)
    requires Valid(doc) && Valid(Imported(idn, doc, input, stamp)) && p in Ids(doc)
    ensures var draft := DraftOf(idn, doc, input, stamp);
            && AddsNot(Entities(idn, "exposure"), doc.exposures, draft.exposures.list, p)
            && AddsNot(Entities(idn, "dependency"), doc.dependencies, draft.dependencies.list, p)
            && AddsNot(Connections(idn), doc.connections, draft.connections.list, p)
  {
    var draft := DraftOf(idn, doc, input, stamp);
    var a, b, c := Map(EntityId, draft.exposures.list), Map(EntityId, draft.dependencies.list),
        Map(ConnectionId, draft.connections.list);
    DraftDistinct(idn, doc, input, stamp);
    DraftKeepsIds(idn, doc, input, stamp);
    hide Valid, Imported, DraftOf, Grows, Distinct, AddsNot, Map, Ids;
    DistinctParts(a, b, c);
    IdsSplit(doc, p);
    var oe, od, oc := Entities(idn, "exposure"), Entities(idn, "dependency"), Connections(idn);
    if p in Map(EntityId, doc.exposures) {
      GrowsMember(oe, doc.exposures, draft.exposures.list, p);
      AddsNotOwn(oe, doc.exposures, draft.exposures.list, p);
    } else if p in Map(EntityId, doc.dependencies) {
      GrowsMember(od, doc.dependencies, draft.dependencies.list, p);
      AddsNotOwn(od, doc.dependencies, draft.dependencies.list, p);
    } else {
      GrowsMember(oc, doc.connections, draft.connections.list, p);
      AddsNotOwn(oc, doc.connections, draft.connections.list, p);
    }
    if p !in a { AddsNotOther(oe, doc.exposures, draft.exposures.list, p); }
    if p !in b { AddsNotOther(od, doc.dependencies, draft.dependencies.list, p); }
    if p !in c { AddsNotOther(oc, doc.connections, draft.connections.list, p); }
  }

  /** `after` holds the records of `before` with the id `p` at the same places. */
  ghost predicate Holds<T>(o: Ops<T>, before: seq<T>, after: seq<T>, p: string) {
    |before| <= |after| && forall i | 0 <= i < |before| && o.id(before[i]) == p :: after[i] == before[i]
  }

  lemma {:induction false} ListProtects<T(!new)>(o: Ops<T>, m: Merged<T>, xs: seq<T>, stamp: Stamp, p: string)
    requires Lawful(o) && stamp.source.Automation? && Found(m.records, p).owner.Manual?
    requires AddsNot(o, m.list, All(o, m, xs, stamp).list, p)
    ensures var r := All(o, m, xs, stamp); Found(r.records, p) == Found(m.records, p) && Holds(o, m.list, r.list, p)
  {
    hide Lawful, All, Found;
    AllProtects(o, m, xs, stamp, p);
  }

  lemma {:induction false} DraftProtects(idn: Identity, doc: Document, input: Input, stamp: Stamp, p: string)
    requires Inv(idn, doc) && Valid(Imported(idn, doc, input, stamp)) && p in Ids(doc)
    requires stamp.source.Automation? && Found(doc.records, p).owner.Manual?
    ensures var draft := DraftOf(idn, doc, input, stamp);
            && Found(draft.connections.records, p) == Found(doc.records, p)
            && Holds(Entities(idn, "exposure"), doc.exposures, draft.exposures.list, p)
            && Holds(Entities(idn, "dependency"), doc.dependencies, draft.dependencies.list, p)
            && Holds(Connections(idn), doc.connections, draft.connections.list, p)
  {
    hide Inv, Valid, Imported, All, Mapped, Entities, Connections, Found, AddsNot, Holds, Lawful;
    assert Valid(doc) by { InvValid(idn, doc); }
    ImportReusesNoId(idn, doc, input, stamp, p);
    EntitiesLawful(idn, "exposure");
    EntitiesLawful(idn, "dependency");
    ConnectionsLawful(idn);
    var draft := DraftOf(idn, doc, input, stamp);
    ListProtects(Entities(idn, "exposure"), Merged(doc.exposures, doc.records, map[], ZERO_TALLY), input.exposures,
        stamp, p);
    ListProtects(Entities(idn, "dependency"), Start(doc.dependencies, draft.exposures), input.dependencies, stamp, p);
    ListProtects(Connections(idn), Start(doc.connections, draft.dependencies),
        Mapped(input.connections, draft.dependencies.ids), stamp, p);
  }

  lemma {:induction false} TidyKeeps<T>(o: Ops<T>, before: seq<T>, after: seq<T>, i: nat)
    requires i < |before| && Normals(o, before) && Holds(o, before, after, o.id(before[i]))
    ensures before[i] in Tidy(o, after)
  {
    TidyStored(o, after);
    hide Tidy, SortedBy;
    var j := StoredThere(o, after, Tidy(o, after), i);
  }

  lemma {:induction false} HasValue(d: Document, v: Value)
    ensures v in Values(d) <==>
      match v
      case ExposureValue(e) => e in d.exposures
      case DependencyValue(e) => e in d.dependencies
      case ConnectionValue(c) => c in d.connections
  {
    var a, b, c := Map(AsExposure, d.exposures), Map(AsDependency, d.dependencies), Map(AsConnection, d.connections);
    match v
    case ExposureValue(e) =>
      if e in d.exposures { var i :| 0 <= i < |d.exposures| && d.exposures[i] == e; assert a[i] == v; }
    case DependencyValue(e) =>
      if e in d.dependencies { var i :| 0 <= i < |d.dependencies| && d.dependencies[i] == e; assert b[i] == v; }
    case ConnectionValue(e) =>
      if e in d.connections { var i :| 0 <= i < |d.connections| && d.connections[i] == e; assert c[i] == v; }
  }

  lemma {:induction false} ValueIdThere(doc: Document, v: Value)
    requires v in Values(doc)
    ensures ValueId(v) in Ids(doc)
  {
    hide Ids, Values;
    ValuesIds(doc);
    var n :| 0 <= n < |Values(doc)| && Values(doc)[n] == v;
    assert Ids(doc)[n] == ValueId(v);
  }

  lemma {:induction false} HeldValue(idn: Identity, doc: Document, draft: Draft, d: Document, v: Value)
    requires Normals(Entities(idn, "exposure"), doc.exposures)
        && Holds(Entities(idn, "exposure"), doc.exposures, draft.exposures.list, ValueId(v))
    requires Normals(Entities(idn, "dependency"), doc.dependencies)
        && Holds(Entities(idn, "dependency"), doc.dependencies, draft.dependencies.list, ValueId(v))
    requires Normals(Connections(idn), doc.connections)
        && Holds(Connections(idn), doc.connections, draft.connections.list, ValueId(v))
    requires d.exposures == Tidy(Entities(idn, "exposure"), draft.exposures.list)
    requires d.dependencies == Tidy(Entities(idn, "dependency"), draft.dependencies.list)
    requires d.connections == Tidy(Connections(idn), draft.connections.list)
    requires v in Values(doc)
    ensures v in Values(d)
  {
    hide Tidy, Values, Holds, Normals;
    HasValue(doc, v);
    HasValue(d, v);
    match v
    case ExposureValue(e) =>
      var i :| 0 <= i < |doc.exposures| && doc.exposures[i] == e;
      TidyKeeps(Entities(idn, "exposure"), doc.exposures, draft.exposures.list, i);
    case DependencyValue(e) =>
      var i :| 0 <= i < |doc.dependencies| && doc.dependencies[i] == e;
      TidyKeeps(Entities(idn, "dependency"), doc.dependencies, draft.dependencies.list, i);
    case ConnectionValue(c) =>
      var i :| 0 <= i < |doc.connections| && doc.connections[i] == c;
      TidyKeeps(Connections(idn), doc.connections, draft.connections.list, i);
  }

  /** A successful automation import changes neither the value nor the metadata of a manually owned record. */
  lemma {:induction false} ManualSurvivesImport(idn: Identity, doc: Document, input: Input, now: nat, ioOk: bool,
      v: Value)
    requires Inv(idn, doc) && v in Values(doc) && Found(doc.records, ValueId(v)).owner.Manual?
    requires ImportWith(idn, doc, input, Automation, now, ioOk).Committed?
    ensures var d := ImportWith(idn, doc, input, Automation, now, ioOk).doc;
            v in Values(d) && Found(d.records, ValueId(v)) == Found(doc.records, ValueId(v))
  {
    hide ImportWith, Valid, DraftOf, Found, Tidy, Values, Holds, Ids, Entities, Connections, RecordsMatch, Normals,
        SortedBy;
    var stamp := Stamp(Automation, input.runId, now);
    ImportDoc(idn, doc, input, Automation, now, ioOk);
    ValueIdThere(doc, v);
    DraftProtects(idn, doc, input, stamp, ValueId(v));
    HeldValue(idn, doc, DraftOf(idn, doc, input, stamp), Imported(idn, doc, input, stamp), v);
  }

  /** So it outlives any number of automation imports, successful or not. */
  lemma {:induction false} ManualSurvivesImports(idn: Identity, doc: Document, steps: seq<Step>, v: Value)
    requires Inv(idn, doc) && v in Values(doc) && Found(doc.records, ValueId(v)).owner.Manual?
    requires forall i | 0 <= i < |steps| :: steps[i].call.Import?
    ensures var d := Run(idn, doc, steps);
            Inv(idn, d) && v in Values(d) && Found(d.records, ValueId(v)) == Found(doc.records, ValueId(v))
  {
    hide Inv, Values, Found, ImportWith;
    if steps != [] {
      var n := |steps| - 1;
      var d, step := Run(idn, doc, steps[..n]), steps[n];
      ManualSurvivesImports(idn, doc, steps[..n], v);
      StepKeepsInv(idn, d, step);
      if ImportWith(idn, d, step.call.input, Automation, step.now, step.ioOk).Committed? {
        ManualSurvivesImport(idn, d, step.call.input, step.now, step.ioOk, v);
      }
    }
  }

  lemma {:induction false} RecordValuesAt(values: seq<Value>, i: nat)
    requires i < |values| && Distinct(Map(ValueId, values))
    ensures var id := ValueId(values[i]); id in RecordValues(values) && RecordValues(values)[id] == values[i]
  {
    var n := |values| - 1;
    var ids := Map(ValueId, values);
    if i < n {
      assert Map(ValueId, values[..n]) == ids[..n];
      RecordValuesAt(values[..n], i);
      assert ids[i] != ids[n];
    }
  }

  lemma {:induction false} ValueRecorded(doc: Document, v: Value)
    requires Distinct(Ids(doc)) && v in Values(doc)
    ensures ValueId(v) in RecordValues(Values(doc)) && RecordValues(Values(doc))[ValueId(v)] == v
  {
    hide Ids, Values;
    ValuesIds(doc);
    assert Map(ValueId, Values(doc)) == Ids(doc);
    var i :| 0 <= i < |Values(doc)| && Values(doc)[i] == v;
    RecordValuesAt(Values(doc), i);
  }

  /** The record with this value was not stored before: it is new, or was changed, or moved to another list. */
  predicate Touched(doc: Document, v: Value) {
    v !in Values(doc)
  }

  lemma {:induction false} UntouchedRecorded(doc: Document, v: Value)
    requires Distinct(Ids(doc))
    ensures Touched(doc, v) <==>
        !(ValueId(v) in RecordValues(Values(doc)) && RecordValues(Values(doc))[ValueId(v)] == v)
  {
    hide Ids, Values, RecordValues;
    if !Touched(doc, v) { ValueRecorded(doc, v); }
    RecordValuesFrom(Values(doc), ValueId(v));
  }

  lemma {:induction false} RecordValuesFrom(values: seq<Value>, id: string)
    ensures id in RecordValues(values) ==> RecordValues(values)[id] in values
  {
    if values != [] { RecordValuesFrom(values[..|values| - 1], id); }
  }

  /** A save that commits makes every touched record manual and keeps the metadata of every other one. */
  lemma {:induction false} SaveOwnsTouched(idn: Identity, doc: Document, edit: Document, now: nat, v: Value)
    requires Inv(idn, doc) && SaveManual(idn, doc, edit, now, true).Committed?
    requires v in Values(SaveManual(idn, doc, edit, now, true).doc)
    ensures var d := SaveManual(idn, doc, edit, now, true).doc;
            var was, meta := Found(doc.records, ValueId(v)), Found(d.records, ValueId(v));
            if Touched(doc, v) then
              meta == Meta(Manual, "", if was.createdAt == 0 then now else was.createdAt, now)
            else meta == was
  {
    hide Normalized, Values, RecordValues, Ids, Touched, Inv, Valid, Edited, Found;
    SavedIs(idn, doc, edit, now);
    InvValid(idn, doc);
    EditedMeta(idn, doc, edit, now, v);
    ValidDistinct(doc);
    UntouchedRecorded(doc, v);
    if !Touched(doc, v) {
      TouchedNot(doc, v);
      ValueIdThere(doc, v);
      IdRecorded(idn, doc, ValueId(v));
    }
  }

  lemma {:induction false} ValidDistinct(doc: Document)
    requires Valid(doc)
    ensures Distinct(Ids(doc))
  {
    hide Ids, Distinct;
  }

  lemma {:induction false} SavedIs(idn: Identity, doc: Document, edit: Document, now: nat)
    requires SaveManual(idn, doc, edit, now, true).Committed?
    ensures SaveManual(idn, doc, edit, now, true).doc == Edited(idn, doc, edit, now)
        && Valid(Edited(idn, doc, edit, now))
  {
    hide Edited, Valid;
  }

  /** The metadata a save gives to a value is that of its comparison with what was stored. */
  lemma {:induction false} EditedMeta(idn: Identity, doc: Document, edit: Document, now: nat, v: Value)
    requires var d := Edited(idn, doc, edit, now); Valid(d) && v in Values(d)
    ensures Found(Edited(idn, doc, edit, now).records, ValueId(v))
            == ManualMeta(doc, RecordValues(Values(doc)), ValueId(v), v, now)
  {
    hide Normalized, Values, RecordValues, Ids, Valid, ManualMeta;
    var d := Edited(idn, doc, edit, now);
    var name := Trim(edit.name);
    var n := Normalized(idn, edit.(
      revision := doc.revision + 1, updatedAt := now, name := if name == "" then doc.name
          else name, imports := doc.imports));
    ValuesOfLists(d, n);
    ValidDistinct(d);
    ValueRecorded(d, v);
  }

  lemma {:induction false} IdRecorded(idn: Identity, doc: Document, id: string)
    requires Inv(idn, doc) && id in Ids(doc)
    ensures id in doc.records
  {
    hide Ids, Valid, Neat;
  }

  lemma {:induction false} TouchedNot(doc: Document, v: Value)
    requires !Touched(doc, v)
    ensures v in Values(doc)
  {}

  /** What an architect changed and saved outlives every later automation import. */
  lemma {:induction false} EditSurvivesImports(idn: Identity, doc: Document, edit: Document, now: nat, steps: seq<Step>,
      v: Value)
    requires Inv(idn, doc) && SaveManual(idn, doc, edit, now, true).Committed?
    requires v in Values(SaveManual(idn, doc, edit, now, true).doc) && Touched(doc, v)
    requires forall i | 0 <= i < |steps| :: steps[i].call.Import?
    ensures var d := Run(idn, SaveManual(idn, doc, edit, now, true).doc, steps);
            v in Values(d) && Found(d.records, ValueId(v)).owner.Manual?
  {
    hide Inv, Values, Found, SaveManual, Touched;
    SaveOwnsTouched(idn, doc, edit, now, v);
    SaveManualKeepsInv(idn, doc, edit, now, true);
    ManualSurvivesImports(idn, SaveManual(idn, doc, edit, now, true).doc, steps, v);
  }

  /** Where an import sends the ids of the incoming entities, read off the stored document. */
  function Bound(idn: Identity, doc: Document, input: Input): map<string, string> {
    Bind(Entities(idn, "dependency"), Bind(Entities(idn, "exposure"), map[], input.exposures, doc.exposures),
         input.dependencies, doc.dependencies)
  }

  lemma {:induction false} DraftBound(idn: Identity, doc: Document, input: Input, stamp: Stamp)
    ensures DraftOf(idn, doc, input, stamp).dependencies.ids == Bound(idn, doc, input)
  {
    hide All, Bind, Lawful, Entities, Mapped;
    EntitiesLawful(idn, "exposure");
    EntitiesLawful(idn, "dependency");
    var e := DraftOf(idn, doc, input, stamp).exposures;
    AllBind(Entities(idn, "exposure"), Merged(doc.exposures, doc.records, map[], ZERO_TALLY), input.exposures, stamp);
    AllBind(Entities(idn, "dependency"), Start(doc.dependencies, e), input.dependencies, stamp);
  }

  /** A record of the list has a new key, from which the hash `p` is made. */
  ghost predicate Mints<T>(o: Ops<T>, list: seq<T>, xs: seq<T>, p: string) {
    exists x :: x in xs && Last(o, list, o.key(x)) < 0 && o.freshId(o.key(x)) == p
  }

  /** The import makes the hash `p` for a new exposure, dependency or connection. */
  ghost predicate ImportMints(idn: Identity, doc: Document, input: Input, p: string) {
    || Mints(Entities(idn, "exposure"), doc.exposures, input.exposures, p)
    || Mints(Entities(idn, "dependency"), doc.dependencies, input.dependencies, p)
    || Mints(Connections(idn), doc.connections, Mapped(input.connections, Bound(idn, doc, input)), p)
  }

  lemma {:induction false} MintedThere<T(!new)>(o: Ops<T>, m: Merged<T>, xs: seq<T>, stamp: Stamp, p: string)
    requires Lawful(o) && Mints(o, m.list, xs, p)
    ensures var r := All(o, m, xs, stamp).list;
            && |m.list| <= |r| && (exists i :: |m.list| <= i < |r| && o.id(r[i]) == p) && p in Map(o.id, r)
  {
    hide All, Lawful;
    var x :| x in xs && Last(o, m.list, o.key(x)) < 0 && o.freshId(o.key(x)) == p;
    var i := AddedUnder(o, m, xs, stamp, x);
    assert Map(o.id, All(o, m, xs, stamp).list)[i] == p;
  }

  lemma {:induction false} MintedInDraft(idn: Identity, doc: Document, input: Input, stamp: Stamp, p: string)
    requires ImportMints(idn, doc, input, p)
    ensures p in DraftIds(DraftOf(idn, doc, input, stamp))
    ensures Valid(doc) && Valid(Imported(idn, doc, input, stamp)) ==> p !in Ids(doc)
  {
    hide All, Mapped, Bound, Mints, Lawful, Valid, Imported, Ids, DraftIds;
    EntitiesLawful(idn, "exposure");
    EntitiesLawful(idn, "dependency");
    ConnectionsLawful(idn);
    DraftBound(idn, doc, input, stamp);
    var draft := DraftOf(idn, doc, input, stamp);
    DraftIdsSplit(draft, p);
    if Mints(Entities(idn, "exposure"), doc.exposures, input.exposures, p) {
      MintedThere(Entities(idn, "exposure"), Merged(doc.exposures, doc.records, map[], ZERO_TALLY), input.exposures,
          stamp, p);
    } else if Mints(Entities(idn, "dependency"), doc.dependencies, input.dependencies, p) {
      MintedThere(Entities(idn, "dependency"), Start(doc.dependencies, draft.exposures), input.dependencies, stamp, p);
    } else {
      MintedThere(Connections(idn), Start(doc.connections, draft.dependencies),
          Mapped(input.connections, draft.dependencies.ids), stamp, p);
    }
    if Valid(doc) && Valid(Imported(idn, doc, input, stamp)) && p in Ids(doc) {
      ImportReusesNoId(idn, doc, input, stamp, p);
    }
  }

  /** A new record whose hash is already some record's id makes the whole import fail. */
  lemma {:induction false} CollisionIsRefused(idn: Identity, doc: Document, input: Input, source: Owner, now: nat,
      ioOk: bool, p: string)
    requires Valid(doc) && ImportMints(idn, doc, input, p) && p in Ids(doc)
    ensures ImportWith(idn, doc, input, source, now, ioOk).Refused?
  {
    hide ImportMints, Valid, Ids, Imported, ImportWith;
    if ImportWith(idn, doc, input, source, now, ioOk).Committed? {
      ImportDoc(idn, doc, input, source, now, ioOk);
      MintedInDraft(idn, doc, input, Stamp(source, input.runId, now), p);
    }
  }

  /** Added, updated and skipped records are the entities, and the connections with both ends imported. */
  lemma {:induction false} ImportCountsAll(idn: Identity, doc: Document, input: Input, source: Owner, now: nat,
      ioOk: bool)
    requires ImportWith(idn, doc, input, source, now, ioOk).Committed?
    ensures var stamp := Stamp(source, input.runId, now);
            Sum(ImportWith(idn, doc, input, source, now, ioOk).tally)
            == |input.exposures| + |input.dependencies|
                + |Mapped(input.connections, DraftOf(idn, doc, input, stamp).dependencies.ids)|
  {
    hide ImportWith, All, Mapped, Imported, Valid, Entities, Connections;
    var stamp := Stamp(source, input.runId, now);
    ImportDoc(idn, doc, input, source, now, ioOk);
    var draft := DraftOf(idn, doc, input, stamp);
    TallyAll(Entities(idn, "exposure"), Merged(doc.exposures, doc.records, map[], ZERO_TALLY), input.exposures, stamp);
    TallyAll(Entities(idn, "dependency"), Start(doc.dependencies, draft.exposures), input.dependencies, stamp);
    TallyAll(Connections(idn), Start(doc.connections, draft.dependencies),
        Mapped(input.connections, draft.dependencies.ids), stamp);
  }

  lemma {:induction false} DraftParts(idn: Identity, doc: Document, input: Input, stamp: Stamp)
    requires Inv(idn, doc) && Valid(Imported(idn, doc, input, stamp))
    ensures var draft := DraftOf(idn, doc, input, stamp);
            var a, b, c := Map(EntityId, draft.exposures.list), Map(EntityId, draft.dependencies.list),
                Map(ConnectionId, draft.connections.list);
            Distinct(a) && Distinct(b) && Distinct(c) && Apart(a, b) && Apart(a, c) && Apart(b, c)
  {
    var draft := DraftOf(idn, doc, input, stamp);
    DraftDistinct(idn, doc, input, stamp);
    hide Inv, Valid, DraftOf, Distinct;
    DistinctParts(Map(EntityId, draft.exposures.list), Map(EntityId, draft.dependencies.list),
        Map(ConnectionId, draft.connections.list));
  }

  lemma {:induction false} SameOwnersTrans<T>(o: Ops<T>, list: seq<T>, a: Records, b: Records, c: Records)
    requires SameOwners(o, list, a, b) && SameOwners(o, list, b, c)
    ensures SameOwners(o, list, a, c)
  {}

  lemma {:induction false} MappedThere(incoming: seq<Connection>, ids: map<string, string>, x: Connection)
    requires x in incoming && x.from in ids && x.to in ids
    ensures x.(from := ids[x.from], to := ids[x.to]) in Mapped(incoming, ids)
    decreases |incoming|
  {
    var n := |incoming| - 1;
    assert incoming == incoming[..n] + [incoming[n]];
    if x in incoming[..n] { MappedThere(incoming[..n], ids, x); }
  }

  /** A connection between imported ends, under the stored ids of those ends. */
  function Rebound(idn: Identity, doc: Document, input: Input, stamp: Stamp, x: Connection): Connection
    requires var ids := DraftOf(idn, doc, input, stamp).dependencies.ids; x.from in ids && x.to in ids
  {
    var ids := DraftOf(idn, doc, input, stamp).dependencies.ids;
    x.(from := ids[x.from], to := ids[x.to])
  }

  /** An import that commits stores the exposures it was given, each under the id its key selects. */
  lemma {:induction false} ExposureLands(idn: Identity, doc: Document, input: Input, source: Owner, now: nat,
      ioOk: bool, x: Entity)
    requires Inv(idn, doc) && ImportWith(idn, doc, input, source, now, ioOk).Committed? && x in input.exposures
    ensures var o := Entities(idn, "exposure");
            var d := ImportWith(idn, doc, input, source, now, ioOk).doc;
            var id := IdOf(o, DraftOf(idn, doc, input, Stamp(source, input.runId, now)).exposures.list, o.key(x));
            Landed(o, doc.exposures, input.exposures, x, id, Found(d.records, id).owner, source, d.exposures)
  {
    hide ImportWith, Valid, All, Mapped, Tidy, Distinct, RecordsMatch, Last, Found, Landed, SortedBy, Entities,
        Connections, Ids;
    var stamp := Stamp(source, input.runId, now);
    var d := Imported(idn, doc, input, stamp);
    var draft := DraftOf(idn, doc, input, stamp);
    var o := Entities(idn, "exposure");
    var m := Merged(doc.exposures, doc.records, map[], ZERO_TALLY);
    ImportDoc(idn, doc, input, source, now, ioOk);
    EntitiesLawful(idn, "exposure");
    ExposuresDistinct(idn, doc, input, stamp);
    hide Lawful;
    Lands(o, m, input.exposures, stamp, x);
    AllIds(o, m, input.exposures, stamp);
    ExposureOwnersKept(idn, doc, input, stamp);
    SelectedOwner(o, draft.exposures.list, draft.exposures.records, d.records, o.key(x), input.exposures, x);
  }

  lemma {:induction false} SelectedOwner<T>(o: Ops<T>, list: seq<T>, a: Records, b: Records, k: string, xs: seq<T>,
      x: T)
    requires SameOwners(o, list, a, b) && Has(o, list, xs) && x in xs && k == o.key(x)
    ensures Found(a, IdOf(o, list, k)).owner == Found(b, IdOf(o, list, k)).owner
  {
    var i := Last(o, list, k);
    hide Last, Found;
  }

  lemma {:induction false} ExposuresDistinct(idn: Identity, doc: Document, input: Input, stamp: Stamp)
    requires Inv(idn, doc) && Valid(Imported(idn, doc, input, stamp))
    ensures Distinct(Map(Entities(idn, "exposure").id, DraftOf(idn, doc, input, stamp).exposures.list))
  {
    hide Inv, Valid, Imported, DraftOf, Distinct;
    DraftParts(idn, doc, input, stamp);
  }

  lemma {:induction false} ExposureOwnersKept(idn: Identity, doc: Document, input: Input, stamp: Stamp)
    requires Inv(idn, doc) && Valid(Imported(idn, doc, input, stamp))
    ensures var draft := DraftOf(idn, doc, input, stamp);
            SameOwners(Entities(idn, "exposure"), draft.exposures.list, draft.exposures.records,
                draft.connections.records)
  {
    var draft := DraftOf(idn, doc, input, stamp);
    var oe, od, oc := Entities(idn, "exposure"), Entities(idn, "dependency"), Connections(idn);
    hide Inv, Valid, Imported, All, Mapped, Lawful, Distinct, SameOwners;
    DraftParts(idn, doc, input, stamp);
    EntitiesLawful(idn, "dependency");
    ConnectionsLawful(idn);
    var es := draft.exposures.list;
    OwnersKept(od, Start(doc.dependencies, draft.exposures), input.dependencies, stamp, oe, es);
    OwnersKept(oc, Start(doc.connections, draft.dependencies), Mapped(input.connections, draft.dependencies.ids), stamp,
        oe, es);
    SameOwnersTrans(oe, es, draft.exposures.records, draft.dependencies.records, draft.connections.records);
  }

  /** The same for the connections between imported ends; they join the stored ends. */
  lemma {:induction false} ConnectionLands(idn: Identity, doc: Document, input: Input, source: Owner, now: nat,
      ioOk: bool, x: Connection)
    requires Inv(idn, doc) && ImportWith(idn, doc, input, source, now, ioOk).Committed? && x in input.connections
    requires var ids := DraftOf(idn, doc, input, Stamp(source, input.runId, now)).dependencies.ids;
        x.from in ids && x.to in ids
    ensures var stamp := Stamp(source, input.runId, now);
            var draft := DraftOf(idn, doc, input, stamp);
            var d := ImportWith(idn, doc, input, source, now, ioOk).doc;
            var xs, y := Mapped(input.connections, draft.dependencies.ids), Rebound(idn, doc, input, stamp, x);
            var o := Connections(idn);
            var id := IdOf(o, draft.connections.list, o.key(y));
            Landed(o, doc.connections, xs, y, id, Found(d.records, id).owner, source, d.connections)
  {
    hide ImportWith, Valid, All, Mapped, Tidy, Distinct, RecordsMatch, Last, Found, Landed, SortedBy, Ids;
    var stamp := Stamp(source, input.runId, now);
    var draft := DraftOf(idn, doc, input, stamp);
    ImportDoc(idn, doc, input, source, now, ioOk);
    DraftParts(idn, doc, input, stamp);
    ConnectionsLawful(idn);
    MappedThere(input.connections, draft.dependencies.ids, x);
    var xs, y := Mapped(input.connections, draft.dependencies.ids), Rebound(idn, doc, input, stamp, x);
    Lands(Connections(idn), Start(doc.connections, draft.dependencies), xs, stamp, y);
  }
}
