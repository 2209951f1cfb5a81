/**
  Merging the same records a second time, into what the first merge stored, for any kind of record.

  The second merge finds the stored records again exactly if normalisation left their keys alone.
 */
module CatalogAgain {
  import opened CatalogMerge
  import opened Lists
  import opened Sorting

  /** The key selects a record that an import from `source` must not touch. */
  predicate Guarded<T>(o: Ops<T>, list: seq<T>, records: Records, source: Owner, k: string) {
    var i := Last(o, list, k);
    i >= 0 && Skips(Found(records, o.id(list[i])).owner, source)
  }

  /** The last incoming record of this key keeps the key when it is normalised. */
  predicate LastSteady<T>(o: Ops<T>, xs: seq<T>, k: string) {
    var c := Last(o, xs, k);
    c >= 0 && o.steady(xs[c])
  }

  /** That holds of every incoming key, unless a protected record is kept there. */
  ghost predicate Lasting<T>(o: Ops<T>, list: seq<T>, records: Records, xs: seq<T>, source: Owner) {
    forall x | x in xs :: Guarded(o, list, records, source, o.key(x)) || LastSteady(o, xs, o.key(x))
  }

  /** No protected record shares its key with a later one that is not protected and is to be overwritten. */
  ghost predicate Unshadowed<T>(o: Ops<T>, list: seq<T>, records: Records, xs: seq<T>, source: Owner) {
    forall x, i | x in xs && 0 <= i < |list| && o.key(list[i]) == o.key(x)
        && Skips(Found(records, o.id(list[i])).owner, source) ::
      Guarded(o, list, records, source, o.key(x))
  }

  /** The place `i` of a merged list holds an incoming record. */
  predicate Writes<T>(o: Ops<T>, m: Merged<T>, xs: seq<T>, source: Owner, i: nat)
    requires i < |m.list|
  {
    var it := m.list[i];
    Last(o, m.list, o.key(it)) == i && Last(o, xs, o.key(it)) >= 0 && !Skips(Found(m.records, o.id(it)).owner, source)
  }

  lemma {:induction false} LastIn<T>(o: Ops<T>, xs: seq<T>, x: T)
    requires x in xs
    ensures Last(o, xs, o.key(x)) >= 0
  {
    var i :| 0 <= i < |xs| && xs[i] == x;
  }

  // ----- what a merge does to the place a key selects

  lemma {:induction false} OneSelects<T(!new)>(o: Ops<T>, m: Merged<T>, x: T, stamp: Stamp, k: string)
    requires Lawful(o) && Last(o, m.list, k) >= 0
    ensures Last(o, One(o, m, x, stamp).list, k) == Last(o, m.list, k)
  {
    OneGrows(o, m, x, stamp);
    if Last(o, m.list, o.key(x)) < 0 {
      LastPush(o, m.list, o.withId(x, o.freshId(o.key(x))), k);
    } else {
      LastSame(o, m.list, One(o, m, x, stamp).list, k);
    }
  }

  /** A known key goes on selecting the same place. */
  lemma {:induction false} AllSelects<T(!new)>(o: Ops<T>, m: Merged<T>, xs: seq<T>, stamp: Stamp, k: string)
    requires Lawful(o) && Last(o, m.list, k) >= 0
    ensures Last(o, All(o, m, xs, stamp).list, k) == Last(o, m.list, k)
  {
    hide One, Lawful, Last;
    if xs != [] {
      AllSelects(o, m, xs[..|xs| - 1], stamp, k);
      OneSelects(o, All(o, m, xs[..|xs| - 1], stamp), xs[|xs| - 1], stamp, k);
    }
  }

  /** The id a key is bound to: that of the record it selects, or the one made from it. */
  function IdFor<T>(o: Ops<T>, list: seq<T>, k: string): string {
    if Last(o, list, k) < 0 then o.freshId(k) else o.id(list[Last(o, list, k)])
  }

  /** Where the merge sends the ids of the incoming records, read off the stored list. */
  function Bind<T>(o: Ops<T>, ids: map<string, string>, xs: seq<T>, list: seq<T>): map<string, string> {
    if xs == [] then ids else Bind(o, ids, xs[..|xs| - 1],
        list)[o.id(xs[|xs| - 1]) := IdFor(o, list, o.key(xs[|xs| - 1]))]
  }

  lemma {:induction false} SelectedId<T(!new)>(o: Ops<T>, m: Merged<T>, xs: seq<T>, stamp: Stamp, x: T)
    requires Lawful(o) && x in xs
    ensures IdOf(o, All(o, m, xs, stamp).list, o.key(x)) == IdFor(o, m.list, o.key(x))
  {
    hide All, Lawful;
    AllIds(o, m, xs, stamp);
    AllGrows(o, m, xs, stamp);
    if Last(o, m.list, o.key(x)) >= 0 { AllSelects(o, m, xs, stamp, o.key(x)); }
  }

  lemma {:induction false} IdsByBind<T>(o: Ops<T>, ids: map<string, string>, xs: seq<T>, list: seq<T>, after: seq<T>)
    requires forall x | x in xs :: IdOf(o, after, o.key(x)) == IdFor(o, list, o.key(x))
    ensures IdsBy(o, ids, xs, after) == Bind(o, ids, xs, list)
  {
    hide IdOf, IdFor;
    if xs != [] { IdsByBind(o, ids, xs[..|xs| - 1], list, after); }
  }

  lemma {:induction false} AllBind<T(!new)>(o: Ops<T>, m: Merged<T>, xs: seq<T>, stamp: Stamp)
    requires Lawful(o)
    ensures All(o, m, xs, stamp).ids == Bind(o, m.ids, xs, m.list)
  {
    hide All, Lawful, IdOf, IdFor;
    AllIds(o, m, xs, stamp);
    forall x | x in xs ensures IdOf(o, All(o, m, xs, stamp).list, o.key(x)) == IdFor(o, m.list, o.key(x)) {
      SelectedId(o, m, xs, stamp, x);
    }
    IdsByBind(o, m.ids, xs, m.list, All(o, m, xs, stamp).list);
  }

  /** Metadata is left alone or written for the source of the import. */
  lemma {:induction false} OwnersChange<T(!new)>(o: Ops<T>, m: Merged<T>, xs: seq<T>, stamp: Stamp, id: string)
    ensures var r := All(o, m, xs, stamp);
            Found(r.records, id) == Found(m.records, id) || Found(r.records, id).owner == stamp.source
  {
    hide Last;
    if xs != [] { OwnersChange(o, m, xs[..|xs| - 1], stamp, id); }
  }

  lemma {:induction false} IdElsewhere<T>(o: Ops<T>, list: seq<T>, i: nat, j: nat)
    requires Distinct(Map(o.id, list)) && i < |list| && j < |list| && i != j
    ensures o.id(list[i]) != o.id(list[j])
  {
    var ids := Map(o.id, list);
    assert ids[i] != ids[j];
  }

  /** A protected record stays where it is. */
  lemma {:induction false} GuardedStays<T(!new)>(o: Ops<T>, m: Merged<T>, xs: seq<T>, stamp: Stamp, k: string)
    requires Lawful(o) && Distinct(Map(o.id, All(o, m, xs, stamp).list))
        && Guarded(o, m.list, m.records, stamp.source, k)
    ensures var r, i := All(o, m, xs, stamp), Last(o, m.list, k);
            && Last(o, r.list, k) == i && r.list[i] == m.list[i]
            && Found(r.records, o.id(m.list[i])) == Found(m.records, o.id(m.list[i]))
  {
    hide All, Lawful, Distinct, Found;
    var r, i := All(o, m, xs, stamp), Last(o, m.list, k);
    AllSelects(o, m, xs, stamp, k);
    AllGrows(o, m, xs, stamp);
    forall j | |m.list| <= j < |r.list| ensures o.id(r.list[j]) != o.id(m.list[i]) { IdElsewhere(o, r.list, i, j); }
    AllProtects(o, m, xs, stamp, o.id(m.list[i]));
  }

  /** What is protected behind the merge was so before it. */
  lemma {:induction false} GuardedBack<T(!new)>(o: Ops<T>, m: Merged<T>, xs: seq<T>, stamp: Stamp, i: nat)
    requires Lawful(o) && i < |All(o, m, xs, stamp).list|
    requires var r := All(o, m, xs, stamp);
             SettledAt(o, m.list, r, xs, stamp.source, i)
                 && Skips(Found(r.records, o.id(r.list[i])).owner, stamp.source)
    ensures var r := All(o, m, xs, stamp);
            && i < |m.list| && r.list[i] == m.list[i]
            && Skips(Found(m.records, o.id(m.list[i])).owner, stamp.source)
  {
    hide All, Lawful, Found, Last;
    OwnersChange(o, m, xs, stamp, o.id(All(o, m, xs, stamp).list[i]));
  }

  lemma {:induction false} GuardedSelects<T(!new)>(o: Ops<T>, m: Merged<T>, xs: seq<T>, stamp: Stamp, i: nat)
    requires Lawful(o) && i < |All(o, m, xs, stamp).list|
    requires var r := All(o, m, xs, stamp);
             && SettledAt(o, m.list, r, xs, stamp.source, i)
                 && Skips(Found(r.records, o.id(r.list[i])).owner, stamp.source)
             && Last(o, r.list, o.key(r.list[i])) == i
    ensures Guarded(o, m.list, m.records, stamp.source, o.key(All(o, m, xs, stamp).list[i]))
  {
    hide All, Lawful, Found;
    var k := o.key(All(o, m, xs, stamp).list[i]);
    GuardedBack(o, m, xs, stamp, i);
    assert o.key(m.list[i]) == k;
    AllSelects(o, m, xs, stamp, k);
  }

  lemma {:induction false} WrittenSteady<T(!new)>(o: Ops<T>, m: Merged<T>, xs: seq<T>, stamp: Stamp, i: nat)
    requires Lawful(o) && Distinct(Map(o.id, All(o, m, xs, stamp).list)) && i < |All(o, m, xs, stamp).list|
    requires Lasting(o, m.list, m.records, xs, stamp.source) && Writes(o, All(o, m, xs, stamp), xs, stamp.source, i)
    ensures LastSteady(o, xs, o.key(All(o, m, xs, stamp).list[i]))
  {
    hide All, Lawful, Distinct, Found;
    var r := All(o, m, xs, stamp);
    var k := o.key(r.list[i]);
    var x := xs[Last(o, xs, k)];
    assert x in xs && o.key(x) == k;
    if Guarded(o, m.list, m.records, stamp.source, k) { GuardedStays(o, m, xs, stamp, k); }
  }

  lemma {:induction false} AllFirm<T(!new)>(o: Ops<T>, m: Merged<T>, xs: seq<T>, stamp: Stamp)
    requires Lawful(o) && Named(o, m.list) && Normals(o, m.list) && Lasting(o, m.list, m.records, xs, stamp.source)
    requires Distinct(Map(o.id, All(o, m, xs, stamp).list))
    ensures Firm(o, All(o, m, xs, stamp).list)
  {
    AllNamed(o, m, xs, stamp);
    AllSettles(o, m, xs, stamp);
    var r := All(o, m, xs, stamp);
    hide All, Distinct, Lasting, Guarded;
    forall i | 0 <= i < |r.list| ensures o.id(o.normal(r.list[i])) == o.id(r.list[i])
        && o.key(o.normal(r.list[i])) == o.key(r.list[i])
    {
      assert SettledAt(o, m.list, r, xs, stamp.source, i);
      if Writes(o, r, xs, stamp.source, i) { WrittenSteady(o, m, xs, stamp, i); }
    }
  }

  /** The hypotheses of merging the same input a second time, into what the first merge stored. */
  ghost predicate Again<T(!new)>(o: Ops<T>, m: Merged<T>, xs: seq<T>, stamp: Stamp, m2: Merged<T>, stamp2: Stamp) {
    var r := All(o, m, xs, stamp);
    && Lawful(o) && stamp.source == stamp2.source
    && Lasting(o, m.list, m.records, xs, stamp.source) && Topped(o, m.list) && Named(o, m.list) && Normals(o, m.list)
    && Distinct(Map(o.id, r.list)) && Stored(o, r.list, m2.list) && SameOwners(o, r.list, r.records, m2.records)
  }

  lemma {:induction false} AgainFinds<T(!new)>(o: Ops<T>, m: Merged<T>, xs: seq<T>, stamp: Stamp, m2: Merged<T>,
      stamp2: Stamp)
    requires Again(o, m, xs, stamp, m2, stamp2)
    ensures var r, r2 := All(o, m, xs, stamp), All(o, m2, xs, stamp2);
            && Has(o, r.list, xs) && Has(o, m2.list, xs) && Firm(o, r.list)
            && |r2.list| == |m2.list| && r2.tally.added == m2.tally.added
            && Distinct(Map(o.id, r2.list))
            && forall k :: IdOf(o, r.list, k) == IdOf(o, m2.list, k) == IdOf(o, r2.list, k)
  {
    var r, r2 := All(o, m, xs, stamp), All(o, m2, xs, stamp2);
    AllIds(o, m, xs, stamp);
    AllFirm(o, m, xs, stamp);
    AllTopped(o, m, xs, stamp);
    hide One, SettledAt, Last, IdOf;
    forall k ensures IdOf(o, r.list, k) == IdOf(o, m2.list, k)
        && (Last(o, r.list, k) >= 0 <==> Last(o, m2.list, k) >= 0)
    {
      StoredIdOf(o, r.list, m2.list, k);
    }
    AllUpdates(o, m2, xs, stamp2);
    AllGrows(o, m2, xs, stamp2);
    StoredDistinct(o, r.list, m2.list);
    assert Map(o.id, r2.list) == Map(o.id, m2.list);
    forall k ensures IdOf(o, m2.list, k) == IdOf(o, r2.list, k) { SameIdOf(o, m2.list, r2.list, k); }
  }

  lemma {:induction false} SameIdOf<T>(o: Ops<T>, a: seq<T>, b: seq<T>, k: string)
    requires |a| == |b| && Grows(o, a, b)
    ensures IdOf(o, a, k) == IdOf(o, b, k) && Last(o, a, k) == Last(o, b, k)
  {
    LastSame(o, a, b, k);
  }

  /** The record the second merge writes was already written by the first. */
  lemma {:induction false} AgainSource<T(!new)>(o: Ops<T>, m: Merged<T>, xs: seq<T>, stamp: Stamp, m2: Merged<T>,
      stamp2: Stamp, i: nat) returns (j: nat)
    requires Again(o, m, xs, stamp, m2, stamp2) && i < |All(o, m2, xs, stamp2).list|
    requires var r2 := All(o, m2, xs, stamp2); var it := r2.list[i];
             && SettledAt(o, m2.list, r2, xs, stamp2.source, i)
             && Last(o, r2.list, o.key(it)) == i && Last(o, xs, o.key(it)) >= 0
                 && !Skips(Found(r2.records, o.id(it)).owner, stamp2.source)
    ensures var r := All(o, m, xs, stamp).list; j < |r| && r[j] == All(o, m2, xs, stamp2).list[i]
  {
    hide One, All, Topped, Named, Lasting, Stored, Firm, Again, Distinct, Lawful;
    var r, r2 := All(o, m, xs, stamp), All(o, m2, xs, stamp2);
    var it := r2.list[i];
    var a, k := o.id(it), o.key(it);
    AgainLawful(o, m, xs, stamp, m2, stamp2);
    AgainFinds(o, m, xs, stamp, m2, stamp2);
    AllSettles(o, m, xs, stamp);
    assert o.key(xs[Last(o, xs, k)]) == k;
    assert Last(o, r.list, k) >= 0;
    j := Last(o, r.list, k);
    assert IdOf(o, r.list, k) == IdOf(o, r2.list, k) == a;
    assert SettledAt(o, m.list, r, xs, stamp.source, j);
    if Skips(Found(r.records, a).owner, stamp.source) {
      AllProtects(o, m2, xs, stamp2, a);
      assert false;
    }
  }

  lemma {:induction false} AgainStored<T(!new)>(o: Ops<T>, m: Merged<T>, xs: seq<T>, stamp: Stamp, m2: Merged<T>,
      stamp2: Stamp)
    requires Again(o, m, xs, stamp, m2, stamp2)
    ensures Stored(o, All(o, m, xs, stamp).list, m2.list) && Distinct(Map(o.id, m2.list)) && Normals(o, m2.list)
  {
    var r := All(o, m, xs, stamp);
    AllFirm(o, m, xs, stamp);
    StoredDistinct(o, r.list, m2.list);
    forall i | 0 <= i < |m2.list| ensures o.normal(m2.list[i]) == m2.list[i] {
      var j := StoredBack(o, r.list, m2.list, i);
    }
  }

  lemma {:induction false} SameId<T>(o: Ops<T>, list: seq<T>, i: nat, j: nat)
    requires Distinct(Map(o.id, list)) && i < |list| && j < |list| && o.id(list[i]) == o.id(list[j])
    ensures i == j
  {
    var ids := Map(o.id, list);
    assert ids[i] == ids[j];
  }

  lemma {:induction false} AgainAt<T(!new)>(o: Ops<T>, m: Merged<T>, xs: seq<T>, stamp: Stamp, m2: Merged<T>,
      stamp2: Stamp, i: nat)
    requires Again(o, m, xs, stamp, m2, stamp2) && i < |m2.list|
    ensures i < |All(o, m2, xs, stamp2).list| && o.normal(All(o, m2, xs, stamp2).list[i]) == m2.list[i]
  {
    hide One, All, Last, Topped, Named, Lasting, Stored, Distinct, Firm, IdOf, Again;
    assert Lawful(o) by { AgainLawful(o, m, xs, stamp, m2, stamp2); }
    var r, r2 := All(o, m, xs, stamp), All(o, m2, xs, stamp2);
    AgainFinds(o, m, xs, stamp, m2, stamp2);
    AgainStored(o, m, xs, stamp, m2, stamp2);
    AllSettles(o, m2, xs, stamp2);
    AllGrows(o, m2, xs, stamp2);
    hide Lawful;
    var it := r2.list[i];
    assert SettledAt(o, m2.list, r2, xs, stamp2.source, i);
    if Last(o, r2.list, o.key(it)) == i && Last(o, xs, o.key(it)) >= 0
        && !Skips(Found(r2.records, o.id(it)).owner, stamp2.source) {
      var j := AgainSource(o, m, xs, stamp, m2, stamp2, i);
      var j1 := StoredThere(o, r.list, m2.list, j);
      FirmId(o, r.list, j);
      SameId(o, m2.list, i, j1);
    }
  }

  lemma {:induction false} FirmId<T>(o: Ops<T>, list: seq<T>, j: nat)
    requires Firm(o, list) && j < |list|
    ensures o.id(o.normal(list[j])) == o.id(list[j])
  {}

  lemma {:induction false} AgainLawful<T(!new)>(o: Ops<T>, m: Merged<T>, xs: seq<T>, stamp: Stamp, m2: Merged<T>,
      stamp2: Stamp)
    requires Again(o, m, xs, stamp, m2, stamp2)
    ensures Lawful(o) && stamp.source == stamp2.source && Distinct(Map(o.id, All(o, m, xs, stamp).list))
    ensures SameOwners(o, All(o, m, xs, stamp).list, All(o, m, xs, stamp).records, m2.records)
  {}

  /** Merging the same input again adds nothing, and after normalisation changes nothing. */
  lemma {:induction false} Remerge<T(!new)>(o: Ops<T>, m: Merged<T>, xs: seq<T>, stamp: Stamp, m2: Merged<T>,
      stamp2: Stamp)
    requires Again(o, m, xs, stamp, m2, stamp2)
    ensures var r, r2 := All(o, m, xs, stamp), All(o, m2, xs, stamp2);
            && Map(o.normal, r2.list) == m2.list
            && r2.tally.added == m2.tally.added
            && (m.ids == m2.ids ==> r.ids == r2.ids)
  {
    var r, r2 := All(o, m, xs, stamp), All(o, m2, xs, stamp2);
    AgainFinds(o, m, xs, stamp, m2, stamp2);
    AllIds(o, m, xs, stamp);
    AllIds(o, m2, xs, stamp2);
    IdsBySame(o, m.ids, xs, r.list, r2.list);
    hide One, Last, IdOf, SettledAt;
    forall i | 0 <= i < |m2.list|
      ensures Map(o.normal, r2.list)[i] == m2.list[i]
    {
      AgainAt(o, m, xs, stamp, m2, stamp2, i);
    }
  }

  lemma {:induction false} AgainIds<T(!new)>(o: Ops<T>, m: Merged<T>, xs: seq<T>, stamp: Stamp, m2: Merged<T>,
      stamp2: Stamp)
    requires Again(o, m, xs, stamp, m2, stamp2)
    ensures forall id :: id in Map(o.id, All(o, m2, xs, stamp2).list) <==> id in Map(o.id, All(o, m, xs, stamp).list)
  {
    hide Lawful, All, SortedBy, SameOwners, Topped, Lasting;
    var r, r2 := All(o, m, xs, stamp), All(o, m2, xs, stamp2);
    AgainFinds(o, m, xs, stamp, m2, stamp2);
    AllGrows(o, m2, xs, stamp2);
    assert Map(o.id, r2.list) == Map(o.id, m2.list);
    MapMultiset(o.id, m2.list, Map(o.normal, r.list));
    assert Map(o.id, Map(o.normal, r.list)) == Map(o.id, r.list);
    MultisetMembers(Map(o.id, m2.list), Map(o.id, r.list));
  }

  lemma {:induction false} RemergeTidy<T(!new)>(o: Ops<T>, m: Merged<T>, xs: seq<T>, stamp: Stamp, m2: Merged<T>,
      stamp2: Stamp)
    requires Again(o, m, xs, stamp, m2, stamp2)
    ensures var r, r2 := All(o, m, xs, stamp), All(o, m2, xs, stamp2);
            && Tidy(o, r2.list) == m2.list
            && r2.tally.added == m2.tally.added
            && (m.ids == m2.ids ==> r.ids == r2.ids)
            && (forall id :: id in Map(o.id, r2.list) <==> id in Map(o.id, r.list))
  {
    hide All, Map;
    Remerge(o, m, xs, stamp, m2, stamp2);
    assert SortedBy(m2.list, o.id);
    hide Again;
    SortIdentity(m2.list, o.id);
    AgainIds(o, m, xs, stamp, m2, stamp2);
  }

  // ----- the other way round: a second merge that changes nothing

  /** A key that is neither kept nor guarded: the place it selects is rewritten and loses the key. */
  lemma {:induction false} RewrittenPlace<T(!new)>(o: Ops<T>, m: Merged<T>, xs: seq<T>, stamp: Stamp, x: T)
      returns (i: nat)
    requires Lawful(o) && Named(o, m.list) && Distinct(Map(o.id, All(o, m, xs, stamp).list)) && x in xs
    requires !Guarded(o, m.list, m.records, stamp.source, o.key(x)) && !LastSteady(o, xs, o.key(x))
    ensures var r, k := All(o, m, xs, stamp), o.key(x);
            && i < |r.list| && i == Last(o, r.list, k) && o.id(r.list[i]) != "" && Last(o, xs, k) >= 0
            && r.list[i] == o.withId(xs[Last(o, xs, k)], o.id(r.list[i])) && o.key(o.normal(r.list[i])) != k
  {
    hide All, Distinct, Found;
    var r, k := All(o, m, xs, stamp), o.key(x);
    AllIds(o, m, xs, stamp);
    AllSettles(o, m, xs, stamp);
    AllNamed(o, m, xs, stamp);
    LastIn(o, xs, x);
    i := Last(o, r.list, k);
    assert SettledAt(o, m.list, r, xs, stamp.source, i);
    if Skips(Found(r.records, o.id(r.list[i])).owner, stamp.source) { GuardedSelects(o, m, xs, stamp, i); }
    var c := Last(o, xs, k);
    assert !o.steady(xs[c]);
    assert o.key(o.normal(o.withId(xs[c], o.id(r.list[i])))) != o.key(xs[c]);
  }

  /** The stored form of a place that lost its key. */
  lemma {:induction false} LostKey<T(!new)>(o: Ops<T>, a: seq<T>, b: seq<T>, i: nat) returns (j: nat)
    requires Lawful(o) && Stored(o, a, b) && i < |a| && o.id(a[i]) != ""
    ensures j < |b| && o.id(b[j]) == o.id(a[i]) && b[j] == o.normal(a[i])
  {
    j := StoredThere(o, a, b, i);
  }

  /** The second merge leads each incoming key to the record the first one led it to. */
  ghost predicate SelectsSame<T>(o: Ops<T>, xs: seq<T>, a: seq<T>, b: seq<T>) {
    forall x | x in xs :: IdOf(o, a, o.key(x)) == IdOf(o, b, o.key(x))
  }

  lemma {:induction false} LastingBySelection<T(!new)>(o: Ops<T>, m: Merged<T>, xs: seq<T>, stamp: Stamp, m2: Merged<T>,
      stamp2: Stamp)
    requires Lawful(o) && Named(o, m.list) && Distinct(Map(o.id, All(o, m, xs, stamp).list))
    requires Stored(o, All(o, m, xs, stamp).list, m2.list) && Distinct(Map(o.id, All(o, m2, xs, stamp2).list))
    requires SelectsSame(o, xs, All(o, m, xs, stamp).list, All(o, m2, xs, stamp2).list)
    ensures Lasting(o, m.list, m.records, xs, stamp.source)
  {
    hide All, Distinct, Stored, Guarded, LastSteady, Last;
    var r, r2 := All(o, m, xs, stamp), All(o, m2, xs, stamp2);
    forall x | x in xs ensures Guarded(o, m.list, m.records, stamp.source, o.key(x)) || LastSteady(o, xs, o.key(x)) {
      var k := o.key(x);
      if !Guarded(o, m.list, m.records, stamp.source, k) && !LastSteady(o, xs, k) {
        var i := RewrittenPlace(o, m, xs, stamp, x);
        var j := LostKey(o, r.list, m2.list, i);
        AllGrows(o, m2, xs, stamp2);
        var i2 := Last(o, r2.list, k);
        IdElsewhere(o, r2.list, i2, j);
      }
    }
  }

  /** So does a second merge that leaves the list as it is, provided no protected record hides behind the key. */
  lemma {:induction false} LastingByGraph<T(!new)>(o: Ops<T>, m: Merged<T>, xs: seq<T>, stamp: Stamp, m2: Merged<T>,
      stamp2: Stamp)
    requires Lawful(o) && Named(o, m.list) && Normals(o, m.list) && Distinct(Map(o.id, All(o, m, xs, stamp).list))
    requires Stored(o, All(o, m, xs, stamp).list, m2.list) && Distinct(Map(o.id, All(o, m2, xs, stamp2).list))
    requires SameOwners(o, All(o, m, xs, stamp).list, All(o, m, xs, stamp).records, m2.records)
        && stamp2.source == stamp.source
    requires Unshadowed(o, m.list, m.records, xs, stamp.source) && Tidy(o, All(o, m2, xs, stamp2).list) == m2.list
    ensures Lasting(o, m.list, m.records, xs, stamp.source)
  {
    hide All, Distinct, Guarded, LastSteady, Unshadowed, Tidy, Stored, Lawful, Named, Normals, SameOwners;
    forall x | x in xs ensures Guarded(o, m.list, m.records, stamp.source, o.key(x)) || LastSteady(o, xs, o.key(x)) {
      if !Guarded(o, m.list, m.records, stamp.source, o.key(x)) && !LastSteady(o, xs, o.key(x)) {
        UnsteadyShows(o, m, xs, stamp, m2, stamp2, x);
      }
    }
  }

  /** Where the second merge looks for a key that was lost: at a place it rewrites, which changes the list. */
  lemma {:induction false} UnsteadyShows<T(!new)>(o: Ops<T>, m: Merged<T>, xs: seq<T>, stamp: Stamp, m2: Merged<T>,
      stamp2: Stamp, x: T)
    requires Lawful(o) && Named(o, m.list) && Normals(o, m.list) && Distinct(Map(o.id, All(o, m, xs, stamp).list))
    requires Stored(o, All(o, m, xs, stamp).list, m2.list) && Distinct(Map(o.id, All(o, m2, xs, stamp2).list))
    requires SameOwners(o, All(o, m, xs, stamp).list, All(o, m, xs, stamp).records, m2.records)
        && stamp2.source == stamp.source
    requires Unshadowed(o, m.list, m.records, xs, stamp.source) && x in xs
    requires !Guarded(o, m.list, m.records, stamp.source, o.key(x)) && !LastSteady(o, xs, o.key(x))
    ensures Tidy(o, All(o, m2, xs, stamp2).list) != m2.list
  {
    hide All, Distinct, Guarded, Unshadowed, Tidy, Stored, Named, Normals, SameOwners, Found, Last, Lawful;
    var r2, k := All(o, m2, xs, stamp2), o.key(x);
    if Tidy(o, r2.list) == m2.list {
      AllIds(o, m2, xs, stamp2);
      AllGrows(o, m2, xs, stamp2);
      AllSettles(o, m2, xs, stamp2);
      var i2 := Last(o, r2.list, k);
      assert SettledAt(o, m2.list, r2, xs, stamp2.source, i2);
      StoredNamed(o, m, xs, stamp, m2);
      if Skips(Found(r2.records, o.id(r2.list[i2])).owner, stamp2.source) {
        GuardedBack(o, m2, xs, stamp2, i2);
        ShadowFound(o, m, xs, stamp, m2, x, i2);
      } else {
        LastIn(o, xs, x);
        RewriteShows(o, r2.list, m2.list, xs, k);
      }
    }
  }

  lemma {:induction false} RewriteShows<T(!new)>(o: Ops<T>, a: seq<T>, b: seq<T>, xs: seq<T>, k: string)
    requires Lawful(o) && Named(o, b) && Grows(o, b, a) && Distinct(Map(o.id, a)) && !LastSteady(o, xs, k)
    requires Last(o, a, k) >= 0 && Last(o, xs, k) >= 0 && a[Last(o, a, k)]
        == o.withId(xs[Last(o, xs, k)], o.id(a[Last(o, a, k)]))
    ensures Tidy(o, a) != b
  {
    hide Distinct, Tidy, Last;
    if Tidy(o, a) == b {
      TidyStored(o, a);
      var i, c := Last(o, a, k), Last(o, xs, k);
      assert o.id(a[i]) == o.id(b[i]) != "";
      assert o.key(o.normal(o.withId(xs[c], o.id(a[i])))) != o.key(xs[c]);
      hide Lawful, Stored;
      var j := LostKey(o, a, b, i);
      assert o.id(a[j]) == o.id(b[j]);
      if j != i { IdElsewhere(o, a, j, i); }
    }
  }

  lemma {:induction false} StoredNamed<T(!new)>(o: Ops<T>, m: Merged<T>, xs: seq<T>, stamp: Stamp, m2: Merged<T>)
    requires Lawful(o) && Named(o, m.list) && Stored(o, All(o, m, xs, stamp).list, m2.list)
    ensures Named(o, m2.list)
  {
    hide All, Stored;
    AllNamed(o, m, xs, stamp);
    forall j | 0 <= j < |m2.list| ensures o.id(m2.list[j]) != "" {
      var i := StoredBack(o, All(o, m, xs, stamp).list, m2.list, j);
    }
  }

  /** A protected record of a key that is stored behind the first merge was there before it. */
  lemma {:induction false} ShadowFound<T(!new)>(o: Ops<T>, m: Merged<T>, xs: seq<T>, stamp: Stamp, m2: Merged<T>, x: T,
      j: nat)
    requires Lawful(o) && Named(o, m.list) && Normals(o, m.list) && Distinct(Map(o.id, All(o, m, xs, stamp).list))
    requires Stored(o, All(o, m, xs, stamp).list, m2.list)
    requires SameOwners(o, All(o, m, xs, stamp).list, All(o, m, xs, stamp).records, m2.records)
    requires Unshadowed(o, m.list, m.records, xs, stamp.source) && x in xs
    requires j < |m2.list| && o.key(m2.list[j]) == o.key(x)
        && Skips(Found(m2.records, o.id(m2.list[j])).owner, stamp.source)
    ensures Guarded(o, m.list, m.records, stamp.source, o.key(x))
  {
    hide All, Distinct, Guarded, Stored, Found, Last;
    var r := All(o, m, xs, stamp);
    AllNamed(o, m, xs, stamp);
    AllSettles(o, m, xs, stamp);
    var i := StoredBack(o, r.list, m2.list, j);
    assert o.id(m2.list[j]) == o.id(r.list[i]);
    assert Skips(Found(r.records, o.id(r.list[i])).owner, stamp.source);
    assert SettledAt(o, m.list, r, xs, stamp.source, i);
    GuardedBack(o, m, xs, stamp, i);
    assert r.list[i] == m.list[i];
    assert o.normal(m.list[i]) == m.list[i];
  }

  lemma {:induction false} LastingOwners<T>(o: Ops<T>, list: seq<T>, a: Records, b: Records, xs: seq<T>, source: Owner)
    requires SameOwners(o, list, a, b)
    ensures Lasting(o, list, a, xs, source) <==> Lasting(o, list, b, xs, source)
    ensures Unshadowed(o, list, a, xs, source) <==> Unshadowed(o, list, b, xs, source)
  {
    hide Found, Last, LastSteady;
    assert forall k :: Guarded(o, list, a, source, k) <==> Guarded(o, list, b, source, k);
  }

  /** The second merge starts from what the first one stored, with the owners it left. */
  ghost predicate Met<T(!new)>(o: Ops<T>, m: Merged<T>, xs: seq<T>, stamp: Stamp, m2: Merged<T>, stamp2: Stamp) {
    var r := All(o, m, xs, stamp);
    && Lawful(o) && stamp.source == stamp2.source
    && Normals(o, m.list) && SortedBy(m.list, o.id) && Named(o, m.list) && Distinct(Map(o.id, r.list))
    && m2.list == Tidy(o, r.list) && SameOwners(o, r.list, r.records, m2.records)
  }

  lemma {:induction false} LastingAgain<T(!new)>(o: Ops<T>, m: Merged<T>, xs: seq<T>, stamp: Stamp, m2: Merged<T>,
      stamp2: Stamp)
    requires Met(o, m, xs, stamp, m2, stamp2) && Lasting(o, m.list, m.records, xs, stamp.source)
    ensures Again(o, m, xs, stamp, m2, stamp2)
  {
    hide Lawful, Lasting, SortedBy, Normals, Named, Distinct, Tidy, SameOwners, Stored, Topped;
    SortedTopped(o, m.list);
    TidyStored(o, All(o, m, xs, stamp).list);
  }

  lemma {:induction false} AgainLasting<T(!new)>(o: Ops<T>, m: Merged<T>, xs: seq<T>, stamp: Stamp, m2: Merged<T>,
      stamp2: Stamp)
    requires Met(o, m, xs, stamp, m2, stamp2) && Distinct(Map(o.id, All(o, m2, xs, stamp2).list))
    requires || SelectsSame(o, xs, All(o, m, xs, stamp).list, All(o, m2, xs, stamp2).list)
             || (Unshadowed(o, m.list, m.records, xs, stamp.source) && Tidy(o, All(o, m2, xs, stamp2).list) == m2.list)
    ensures Lasting(o, m.list, m.records, xs, stamp.source)
  {
    hide Lawful, Lasting, SortedBy, Normals, Named, Distinct, Tidy, SameOwners, Stored, Topped, SelectsSame, Unshadowed,
        All;
    TidyStored(o, All(o, m, xs, stamp).list);
    if SelectsSame(o, xs, All(o, m, xs, stamp).list, All(o, m2, xs, stamp2).list) {
      LastingBySelection(o, m, xs, stamp, m2, stamp2);
    } else {
      LastingByGraph(o, m, xs, stamp, m2, stamp2);
    }
  }

  lemma {:induction false} AgainSelects<T(!new)>(o: Ops<T>, m: Merged<T>, xs: seq<T>, stamp: Stamp, m2: Merged<T>,
      stamp2: Stamp)
    requires Again(o, m, xs, stamp, m2, stamp2)
    ensures SelectsSame(o, xs, All(o, m, xs, stamp).list, All(o, m2, xs, stamp2).list)
  {
    hide All, Again;
    AgainFinds(o, m, xs, stamp, m2, stamp2);
  }

  // ----- a merge that leaves the list as it is

  /** The key selects a record that is protected, or that is the last incoming one of that key, normalised. */
  ghost predicate Rests<T>(o: Ops<T>, list: seq<T>, records: Records, xs: seq<T>, source: Owner, k: string) {
    var i, c := Last(o, list, k), Last(o, xs, k);
    && i >= 0 && c >= 0
    && (Skips(Found(records, o.id(list[i])).owner, source) || o.normal(o.withId(xs[c], o.id(list[i]))) == list[i])
  }

  ghost predicate AllRest<T>(o: Ops<T>, list: seq<T>, records: Records, xs: seq<T>, source: Owner) {
    forall x | x in xs :: Rests(o, list, records, xs, source, o.key(x))
  }

  lemma {:induction false} SameLengthIds<T>(o: Ops<T>, a: seq<T>, b: seq<T>)
    requires Grows(o, a, b) && |a| == |b|
    ensures Map(o.id, a) == Map(o.id, b)
  {}

  lemma {:induction false} AllRestAt<T(!new)>(o: Ops<T>, m: Merged<T>, xs: seq<T>, stamp: Stamp, i: nat)
    requires Lawful(o) && Normals(o, m.list) && AllRest(o, m.list, m.records, xs, stamp.source)
    requires |All(o, m, xs, stamp).list| == |m.list| && Distinct(Map(o.id, All(o, m, xs, stamp).list))
    requires Grows(o, m.list, All(o, m, xs, stamp).list) && i < |m.list|
    requires SettledAt(o, m.list, All(o, m, xs, stamp), xs, stamp.source, i)
    ensures o.normal(All(o, m, xs, stamp).list[i]) == m.list[i]
  {
    hide All, Lawful, Distinct, Found;
    var r := All(o, m, xs, stamp);
    var k := o.key(r.list[i]);
    if Writes(o, r, xs, stamp.source, i) {
      LastSame(o, m.list, r.list, k);
      assert xs[Last(o, xs, k)] in xs;
      assert Rests(o, m.list, m.records, xs, stamp.source, k);
      if Guarded(o, m.list, m.records, stamp.source, k) { GuardedStays(o, m, xs, stamp, k); }
    }
  }

  lemma {:induction false} RestingKeeps<T(!new)>(o: Ops<T>, m: Merged<T>, xs: seq<T>, stamp: Stamp)
    requires Lawful(o) && Normals(o, m.list) && SortedBy(m.list, o.id) && Distinct(Map(o.id, m.list))
    requires AllRest(o, m.list, m.records, xs, stamp.source)
    ensures var r := All(o, m, xs, stamp); Tidy(o, r.list) == m.list && Map(o.id, r.list) == Map(o.id, m.list)
  {
    hide All, Lawful, Distinct, SortedBy, Found, Normals;
    var r := All(o, m, xs, stamp);
    RestingHas(o, m.list, m.records, xs, stamp.source);
    AllUpdates(o, m, xs, stamp);
    AllGrows(o, m, xs, stamp);
    SameLengthIds(o, m.list, r.list);
    AllSettles(o, m, xs, stamp);
    forall i | 0 <= i < |m.list| ensures Map(o.normal, r.list)[i] == m.list[i] { AllRestAt(o, m, xs, stamp, i); }
    assert Map(o.normal, r.list) == m.list;
    SortIdentity(m.list, o.id);
  }

  lemma {:induction false} RestingHas<T>(o: Ops<T>, list: seq<T>, records: Records, xs: seq<T>, source: Owner)
    requires AllRest(o, list, records, xs, source)
    ensures Has(o, list, xs)
  {
    forall x | x in xs ensures Last(o, list, o.key(x)) >= 0 { assert Rests(o, list, records, xs, source, o.key(x)); }
  }

  lemma {:induction false} KeptRests<T(!new)>(o: Ops<T>, m: Merged<T>, xs: seq<T>, stamp: Stamp)
    requires Lawful(o) && Named(o, m.list) && Distinct(Map(o.id, m.list))
        && Tidy(o, All(o, m, xs, stamp).list) == m.list
    ensures AllRest(o, m.list, m.records, xs, stamp.source)
  {
    hide All, Lawful, Distinct, Found, Tidy, Stored, Last, Named;
    var r := All(o, m, xs, stamp);
    AllIds(o, m, xs, stamp);
    AllGrows(o, m, xs, stamp);
    SameLengthIds(o, m.list, r.list);
    AllSettles(o, m, xs, stamp);
    TidyStored(o, r.list);
    forall x | x in xs ensures Rests(o, m.list, m.records, xs, stamp.source, o.key(x)) {
      var k := o.key(x);
      LastSame(o, m.list, r.list, k);
      LastIn(o, xs, x);
      var i := Last(o, r.list, k);
      assert SettledAt(o, m.list, r, xs, stamp.source, i);
      if Skips(Found(r.records, o.id(r.list[i])).owner, stamp.source) {
        GuardedBack(o, m, xs, stamp, i);
      } else {
        assert o.id(m.list[i]) != "" by { assert Named(o, m.list); NamedAt(o, m.list, i); }
        var j := LostKey(o, r.list, m.list, i);
        if j != i { IdElsewhere(o, m.list, i, j); }
      }
    }
  }

  lemma {:induction false} NamedAt<T>(o: Ops<T>, list: seq<T>, i: nat)
    requires Named(o, list) && i < |list|
    ensures o.id(list[i]) != ""
  {}

  lemma {:induction false} RestsOwners<T>(o: Ops<T>, list: seq<T>, a: Records, b: Records, xs: seq<T>, source: Owner)
    requires SameOwners(o, list, a, b)
    ensures AllRest(o, list, a, xs, source) <==> AllRest(o, list, b, xs, source)
  {
    hide Found, Last;
    assert forall k :: Rests(o, list, a, xs, source, k) <==> Rests(o, list, b, xs, source, k);
  }
}
