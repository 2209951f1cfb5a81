/**
  The ownership-aware merge of internal/extractor/catalog/store.go, for any kind of record.

  The source writes the same loop out three times, for exposures, dependencies and connections.
  Here it is written once over `Ops`, which says how a kind of record is identified and normalised.
 */
module CatalogMerge {
  import opened Lists
  import opened Sorting

  datatype Owner = NoOwner | Manual | Automation

  /** Time zero is the zero time of the source. */
  datatype Meta = Meta(owner: Owner, runId: string, createdAt: nat, updatedAt: nat)

  const ZERO_META := Meta(NoOwner, "", 0, 0)

  type Records = map<string, Meta>

  /** What every write of one import shares. */
  datatype Stamp = Stamp(source: Owner, runId: string, now: nat)

  datatype Tally = Tally(added: nat, updated: nat, skipped: nat)

  datatype Ops<!T> = Ops(
    id: T -> string,
    withId: (T, string) -> T,
    key: T -> string,
    freshId: string -> string,
    normal: T -> T,
    steady: T -> bool)

  /** `steady` tells the records that keep their key under normalisation. */
  ghost predicate Lawful<T(!new)>(o: Ops<T>) {
    && (forall t, s :: o.id(o.withId(t, s)) == s && o.key(o.withId(t, s)) == o.key(t))
    && (forall k :: o.freshId(k) != "")
    && (forall t | o.id(t) != "" :: o.id(o.normal(t)) == o.id(t))
    && (forall t :: o.normal(o.normal(t)) == o.normal(t))
    && (forall t, s | s != "" :: o.steady(t) <==> o.key(o.normal(o.withId(t, s))) == o.key(t))
  }

  /** A lookup in a Go map: the zero value when missing. */
  function Found(records: Records, id: string): Meta {
    if id in records then records[id] else ZERO_META
  }

  predicate Skips(existing: Owner, source: Owner) {
    existing.Manual? && source.Automation?
  }

  function SetMetadata(records: Records, id: string, stamp: Stamp): Records {
    var was := Found(records, id);
    records[id := Meta(
      stamp.source,
      if stamp.source.Manual? then "" else stamp.runId,
      if was.createdAt == 0 then stamp.now else was.createdAt,
      stamp.now)]
  }

  /** The index the source's byKey map holds for a key: the last one wins. */
  function Last<T>(o: Ops<T>, list: seq<T>, k: string): (i: int)
    ensures -1 <= i < |list|
    ensures i >= 0 ==> o.key(list[i]) == k
    ensures forall j | i < j < |list| :: o.key(list[j]) != k
  {
    if list == [] then -1
    else if o.key(list[|list| - 1]) == k then |list| - 1
    else Last(o, list[..|list| - 1], k)
  }

  /** `ids` sends the ids of the incoming records to the ids they are stored under. */
  datatype Merged<T> = Merged(list: seq<T>, records: Records, ids: map<string, string>, tally: Tally)

  function One<T>(o: Ops<T>, m: Merged<T>, x: T, stamp: Stamp): Merged<T> {
    var i := Last(o, m.list, o.key(x));
    if i < 0 then
      var id := o.freshId(o.key(x));
      Merged(m.list + [o.withId(x, id)], SetMetadata(m.records, id, stamp), m.ids[o.id(x) := id],
             m.tally.(added := m.tally.added + 1))
    else
      var id := o.id(m.list[i]);
      if Skips(Found(m.records, id).owner, stamp.source) then
        m.(ids := m.ids[o.id(x) := id], tally := m.tally.(skipped := m.tally.skipped + 1))
      else
        Merged(m.list[i := o.withId(x, id)], SetMetadata(m.records, id, stamp), m.ids[o.id(x) := id],
               m.tally.(updated := m.tally.updated + 1))
  }

  function All<T>(o: Ops<T>, m: Merged<T>, xs: seq<T>, stamp: Stamp): Merged<T> {
    if xs == [] then m else One(o, All(o, m, xs[..|xs| - 1], stamp), xs[|xs| - 1], stamp)
  }

  function Sum(t: Tally): nat {
    t.added + t.updated + t.skipped
  }

  /** Every incoming record is counted exactly once. */
  lemma {:induction false} TallyAll<T(!new)>(o: Ops<T>, m: Merged<T>, xs: seq<T>, stamp: Stamp)
    ensures Sum(All(o, m, xs, stamp).tally) == Sum(m.tally) + |xs|
  {
    hide Last;
    if xs != [] { TallyAll(o, m, xs[..|xs| - 1], stamp); }
  }

  /**
    Merging renames no stored record, moves none and changes no key; a new record's id is the one made from its key.
   */
  ghost predicate Grows<T>(o: Ops<T>, before: seq<T>, after: seq<T>) {
    && |before| <= |after|
    && (forall i | 0 <= i < |before| :: o.id(after[i]) == o.id(before[i]) && o.key(after[i]) == o.key(before[i]))
    && (forall i | |before| <= i < |after| :: o.id(after[i]) == o.freshId(o.key(after[i])))
  }

  lemma {:induction false} OneGrows<T(!new)>(o: Ops<T>, m: Merged<T>, x: T, stamp: Stamp)
    requires Lawful(o)
    ensures Grows(o, m.list, One(o, m, x, stamp).list)
  {}

  lemma {:induction false} AllGrows<T(!new)>(o: Ops<T>, m: Merged<T>, xs: seq<T>, stamp: Stamp)
    requires Lawful(o)
    ensures Grows(o, m.list, All(o, m, xs, stamp).list)
  {
    hide One;
    if xs != [] {
      AllGrows(o, m, xs[..|xs| - 1], stamp);
      OneGrows(o, All(o, m, xs[..|xs| - 1], stamp), xs[|xs| - 1], stamp);
    }
  }

  /** Metadata is written for records of the merged list only, and for every new one. */
  lemma {:induction false} RecordsFollow<T(!new)>(o: Ops<T>, m: Merged<T>, xs: seq<T>, stamp: Stamp)
    requires Lawful(o)
    ensures var r := All(o, m, xs, stamp);
            && m.records.Keys <= r.records.Keys
            && (forall id | id !in Map(o.id, r.list) ::
                Found(r.records, id) == Found(m.records, id) && (id in r.records <==> id in m.records))
            && (forall i | |m.list| <= i < |r.list| :: o.id(r.list[i]) in r.records)
  {
    if xs != [] {
      var n := |xs| - 1;
      var p := All(o, m, xs[..n], stamp);
      RecordsFollow(o, m, xs[..n], stamp);
      AllGrows(o, m, xs[..n], stamp);
      OneFollows(o, p, xs[n], stamp);
      OneGrows(o, p, xs[n], stamp);
      var r := One(o, p, xs[n], stamp);
      hide One, All, Lawful;
      forall id | id !in Map(o.id, r.list) ensures id !in Map(o.id, p.list) {
        forall i | 0 <= i < |p.list| ensures o.id(p.list[i]) != id { assert Map(o.id, r.list)[i] == o.id(p.list[i]); }
      }
    }
  }

  lemma {:induction false} OneFollows<T(!new)>(o: Ops<T>, m: Merged<T>, x: T, stamp: Stamp)
    requires Lawful(o)
    ensures var r := One(o, m, x, stamp);
            && m.records.Keys <= r.records.Keys
            && (forall id | id !in Map(o.id, r.list) ::
                Found(r.records, id) == Found(m.records, id) && (id in r.records <==> id in m.records))
            && (forall i | |m.list| <= i < |r.list| :: o.id(r.list[i]) in r.records)
  {
    var r := One(o, m, x, stamp);
    var i := Last(o, m.list, o.key(x));
    var j := if i < 0 then |m.list| else i;
    assert Map(o.id, r.list)[j] == o.id(r.list[j]);
  }

  /** If every record of the list has metadata, the merge adds exactly what its own list needs. */
  lemma {:induction false} RecordsExactly<T(!new)>(o: Ops<T>, m: Merged<T>, xs: seq<T>, stamp: Stamp)
    requires Lawful(o) && forall i | 0 <= i < |m.list| :: o.id(m.list[i]) in m.records
    ensures var r := All(o, m, xs, stamp); forall id :: id in r.records <==> id in m.records || id in Map(o.id, r.list)
  {
    RecordsFollow(o, m, xs, stamp);
    AllGrows(o, m, xs, stamp);
    var r := All(o, m, xs, stamp);
    hide All, Lawful;
    var ids := Map(o.id, r.list);
    forall id | id in ids ensures id in r.records {
      var i :| 0 <= i < |ids| && ids[i] == id;
      if i < |m.list| { assert o.id(m.list[i]) in m.records; }
    }
  }

  /** A manual record survives an automation import, unless a new record is given its id. */
  lemma {:induction false} AllProtects<T(!new)>(o: Ops<T>, m: Merged<T>, xs: seq<T>, stamp: Stamp, p: string)
    requires Lawful(o) && stamp.source.Automation? && Found(m.records, p).owner.Manual?
    requires var r := All(o, m, xs, stamp).list; forall i | |m.list| <= i < |r| :: o.id(r[i]) != p
    ensures var r := All(o, m, xs, stamp);
            && Found(r.records, p) == Found(m.records, p)
            && |m.list| <= |r.list|
            && forall i | 0 <= i < |m.list| && o.id(m.list[i]) == p :: r.list[i] == m.list[i]
  {
    hide One, Lawful, Found;
    if xs != [] {
      var n := |xs| - 1;
      var q := All(o, m, xs[..n], stamp);
      var r := One(o, q, xs[n], stamp);
      AllGrows(o, m, xs[..n], stamp);
      OneGrows(o, q, xs[n], stamp);
      assert All(o, m, xs, stamp) == r;
      forall i | |m.list| <= i < |q.list| ensures o.id(q.list[i]) != p { assert o.id(r.list[i]) != p; }
      AllProtects(o, m, xs[..n], stamp, p);
      OneProtects(o, q, xs[n], stamp, p);
    }
  }

  lemma {:induction false} OneProtects<T(!new)>(o: Ops<T>, m: Merged<T>, x: T, stamp: Stamp, p: string)
    requires Lawful(o) && stamp.source.Automation? && Found(m.records, p).owner.Manual?
    requires var r := One(o, m, x, stamp).list; forall i | |m.list| <= i < |r| :: o.id(r[i]) != p
    ensures var r := One(o, m, x, stamp);
            && Found(r.records, p) == Found(m.records, p)
            && |m.list| <= |r.list|
            && forall i | 0 <= i < |m.list| && o.id(m.list[i]) == p :: r.list[i] == m.list[i]
  {
    var i := Last(o, m.list, o.key(x));
    var r := One(o, m, x, stamp);
    assert i < 0 ==> o.id(r.list[|m.list|]) != p;
  }

  lemma {:induction false} LastSame<T>(o: Ops<T>, a: seq<T>, b: seq<T>, k: string)
    requires |a| == |b| && forall i | 0 <= i < |a| :: o.key(a[i]) == o.key(b[i])
    ensures Last(o, a, k) == Last(o, b, k)
  {
    var i, j := Last(o, a, k), Last(o, b, k);
    assert i >= 0 ==> o.key(b[i]) == k;
    assert j >= 0 ==> o.key(a[j]) == k;
  }

  lemma {:induction false} LastPush<T>(o: Ops<T>, a: seq<T>, x: T, k: string)
    ensures Last(o, a + [x], k) == if o.key(x) == k then |a| else Last(o, a, k)
  {
    assert (a + [x])[..|a|] == a;
  }

  /**
    What a merge left at one place: the last incoming record of that key, under the stored id, if the
    place is the one its key selects and is not protected; otherwise what was there before.
   */
  ghost predicate SettledAt<T>(o: Ops<T>, before: seq<T>, m: Merged<T>, xs: seq<T>, source: Owner, i: nat)
    requires i < |m.list|
  {
    var it := m.list[i];
    var c := Last(o, xs, o.key(it));
    var owner := Found(m.records, o.id(it)).owner;
    if Last(o, m.list, o.key(it)) == i && c >= 0 && !Skips(owner, source)
    then owner == source && it == o.withId(xs[c], o.id(it))
    else i < |before| && it == before[i]
  }

  ghost predicate Settled<T>(o: Ops<T>, before: seq<T>, m: Merged<T>, xs: seq<T>, source: Owner) {
    forall i | 0 <= i < |m.list| :: SettledAt(o, before, m, xs, source, i)
  }

  /** Facts about one place of a list that a step does not write. */
  ghost predicate Elsewhere<T>(o: Ops<T>, m: Merged<T>, r: Merged<T>, x: T, i: nat)
    requires i < |m.list|
  {
    && |m.list| <= |r.list| && r.list[i] == m.list[i]
    && Found(r.records, o.id(m.list[i])) == Found(m.records, o.id(m.list[i]))
    && (Last(o, r.list, o.key(m.list[i])) == i <==>
        Last(o, m.list, o.key(m.list[i])) == i && o.key(x) != o.key(m.list[i]))
  }

  lemma {:induction false} AddElsewhere<T(!new)>(o: Ops<T>, m: Merged<T>, x: T, stamp: Stamp, i: nat)
    requires Lawful(o) && i < |m.list| && Last(o, m.list, o.key(x)) < 0
    requires Distinct(Map(o.id, One(o, m, x, stamp).list))
    ensures Elsewhere(o, m, One(o, m, x, stamp), x, i)
  {
    var ids := Map(o.id, One(o, m, x, stamp).list);
    LastPush(o, m.list, o.withId(x, o.freshId(o.key(x))), o.key(m.list[i]));
    assert ids[i] != ids[|m.list|];
  }

  lemma {:induction false} UpdateElsewhere<T(!new)>(o: Ops<T>, m: Merged<T>, x: T, stamp: Stamp, i: nat)
    requires Lawful(o) && i < |m.list| && i != Last(o, m.list, o.key(x)) >= 0
    requires Distinct(Map(o.id, One(o, m, x, stamp).list))
    ensures Elsewhere(o, m, One(o, m, x, stamp), x, i)
  {
    var r := One(o, m, x, stamp);
    var j := Last(o, m.list, o.key(x));
    var ids := Map(o.id, r.list);
    OneGrows(o, m, x, stamp);
    LastSame(o, m.list, r.list, o.key(m.list[i]));
    assert ids[i] == o.id(m.list[i]) && ids[j] == o.id(m.list[j]);
    assert ids[i] != ids[j];
  }

  lemma {:induction false} OneElsewhere<T(!new)>(o: Ops<T>, m: Merged<T>, x: T, stamp: Stamp, i: nat)
    requires Lawful(o) && i < |m.list| && i != Last(o, m.list, o.key(x))
    requires Distinct(Map(o.id, One(o, m, x, stamp).list))
    ensures Elsewhere(o, m, One(o, m, x, stamp), x, i)
  {
    if Last(o, m.list, o.key(x)) < 0 { AddElsewhere(o, m, x, stamp, i); } else { UpdateElsewhere(o, m, x, stamp, i); }
  }

  lemma {:induction false} OneSettlesElsewhere<T(!new)>(o: Ops<T>, before: seq<T>, m: Merged<T>, ys: seq<T>, x: T,
      stamp: Stamp, i: nat)
    requires Lawful(o) && i < |m.list| && i != Last(o, m.list, o.key(x))
    requires Distinct(Map(o.id, One(o, m, x, stamp).list))
    requires SettledAt(o, before, m, ys, stamp.source, i)
    ensures i < |One(o, m, x, stamp).list| && SettledAt(o, before, One(o, m, x, stamp), ys + [x], stamp.source, i)
  {
    OneElsewhere(o, m, x, stamp, i);
    LastPush(o, ys, x, o.key(m.list[i]));
    var r := One(o, m, x, stamp);
    hide One, Lawful, Distinct;
    if o.key(x) == o.key(m.list[i]) {
      assert Last(o, m.list, o.key(m.list[i])) != i;
    }
  }

  lemma {:induction false} OneSettlesHere<T(!new)>(o: Ops<T>, before: seq<T>, m: Merged<T>, ys: seq<T>, x: T,
      stamp: Stamp, i: nat)
    requires Lawful(o) && |before| <= |m.list|
    requires var j := Last(o, m.list, o.key(x));
        if j < 0 then i == |m.list| else i == j && SettledAt(o, before, m, ys, stamp.source, i)
    ensures i < |One(o, m, x, stamp).list| && SettledAt(o, before, One(o, m, x, stamp), ys + [x], stamp.source, i)
  {
    var r := One(o, m, x, stamp);
    var j := Last(o, m.list, o.key(x));
    LastPush(o, ys, x, o.key(x));
    if j < 0 {
      LastPush(o, m.list, o.withId(x, o.freshId(o.key(x))), o.key(x));
    } else {
      LastSame(o, m.list, r.list, o.key(x));
    }
  }

  lemma {:induction false} AllSettles<T(!new)>(o: Ops<T>, m: Merged<T>, xs: seq<T>, stamp: Stamp)
    requires Lawful(o) && Distinct(Map(o.id, All(o, m, xs, stamp).list))
    ensures Settled(o, m.list, All(o, m, xs, stamp), xs, stamp.source)
  {
    hide One, Lawful, SettledAt, Distinct;
    if xs == [] {
      forall i | 0 <= i < |m.list|
        ensures SettledAt(o, m.list, m, xs, stamp.source, i)
      {
        NothingSettles(o, m, stamp, i);
      }
    } else {
      var n := |xs| - 1;
      var q := All(o, m, xs[..n], stamp);
      var r := One(o, q, xs[n], stamp);
      assert All(o, m, xs, stamp) == r;
      OneGrows(o, q, xs[n], stamp);
      AllGrows(o, m, xs[..n], stamp);
      DistinctPrefix(o, q.list, r.list);
      AllSettles(o, m, xs[..n], stamp);
      assert xs == xs[..n] + [xs[n]];
      var j := Last(o, q.list, o.key(xs[n]));
      OneLength(o, q, xs[n], stamp);
      forall i | 0 <= i < |r.list| ensures SettledAt(o, m.list, r, xs, stamp.source, i) {
        if i < |q.list| && i != j {
          OneSettlesElsewhere(o, m.list, q, xs[..n], xs[n], stamp, i);
        } else {
          OneSettlesHere(o, m.list, q, xs[..n], xs[n], stamp, i);
        }
      }
    }
  }

  lemma {:induction false} OneLength<T>(o: Ops<T>, m: Merged<T>, x: T, stamp: Stamp)
    ensures |One(o, m, x, stamp).list| == if Last(o, m.list, o.key(x)) < 0 then |m.list| + 1 else |m.list|
  {}

  lemma {:induction false} NothingSettles<T>(o: Ops<T>, m: Merged<T>, stamp: Stamp, i: nat)
    requires i < |m.list|
    ensures SettledAt(o, m.list, m, [], stamp.source, i)
  {}

  lemma {:induction false} DistinctPrefix<T>(o: Ops<T>, a: seq<T>, b: seq<T>)
    requires Grows(o, a, b) && Distinct(Map(o.id, b))
    ensures Distinct(Map(o.id, a))
  {
    var s, t := Map(o.id, a), Map(o.id, b);
    forall i, j | 0 <= i < j < |s| ensures s[i] != s[j] { assert s[i] == t[i] && s[j] == t[j]; }
  }

  /** The id of the record a key selects. */
  function IdOf<T>(o: Ops<T>, list: seq<T>, k: string): string {
    if Last(o, list, k) < 0 then "" else o.id(list[Last(o, list, k)])
  }

  function IdsBy<T>(o: Ops<T>, ids: map<string, string>, xs: seq<T>, list: seq<T>): map<string, string> {
    if xs == [] then ids else IdsBy(o, ids, xs[..|xs| - 1],
        list)[o.id(xs[|xs| - 1]) := IdOf(o, list, o.key(xs[|xs| - 1]))]
  }

  ghost predicate Has<T>(o: Ops<T>, list: seq<T>, xs: seq<T>) {
    forall x | x in xs :: Last(o, list, o.key(x)) >= 0
  }

  lemma {:induction false} IdsBySame<T>(o: Ops<T>, ids: map<string, string>, xs: seq<T>, a: seq<T>, b: seq<T>)
    requires forall x | x in xs :: IdOf(o, a, o.key(x)) == IdOf(o, b, o.key(x))
    ensures IdsBy(o, ids, xs, a) == IdsBy(o, ids, xs, b)
  {
    if xs != [] { IdsBySame(o, ids, xs[..|xs| - 1], a, b); }
  }

  lemma {:induction false} OneFinds<T(!new)>(o: Ops<T>, m: Merged<T>, x: T, stamp: Stamp, k: string)
    requires Lawful(o)
    ensures var r := One(o, m, x, stamp).list;
            && (Last(o, r, k) >= 0 <==> Last(o, m.list, k) >= 0 || k == o.key(x))
            && (Last(o, m.list, k) >= 0 ==> IdOf(o, r, k) == IdOf(o, m.list, k))
  {
    OneGrows(o, m, x, stamp);
    var r := One(o, m, x, stamp).list;
    if Last(o, m.list, o.key(x)) < 0 {
      LastPush(o, m.list, o.withId(x, o.freshId(o.key(x))), k);
    } else {
      LastSame(o, m.list, r, k);
    }
  }

  lemma {:induction false} OneIds<T(!new)>(o: Ops<T>, m: Merged<T>, x: T, stamp: Stamp)
    requires Lawful(o)
    ensures One(o, m, x, stamp).ids == m.ids[o.id(x) := IdOf(o, One(o, m, x, stamp).list, o.key(x))]
  {
    hide Last;
    if Last(o, m.list, o.key(x)) < 0 {
      LastPush(o, m.list, o.withId(x, o.freshId(o.key(x))), o.key(x));
    } else {
      OneFinds(o, m, x, stamp, o.key(x));
      hide Lawful, SetMetadata;
    }
  }

  /** Each incoming id is sent to the id its key selects in the merged list. */
  lemma {:induction false} AllIds<T(!new)>(o: Ops<T>, m: Merged<T>, xs: seq<T>, stamp: Stamp)
    requires Lawful(o)
    ensures var r := All(o, m, xs, stamp); Has(o, r.list, xs) && r.ids == IdsBy(o, m.ids, xs, r.list)
  {
    hide One, Lawful, Last, IdOf;
    if xs != [] {
      var n := |xs| - 1;
      var q := All(o, m, xs[..n], stamp);
      var r := One(o, q, xs[n], stamp);
      assert All(o, m, xs, stamp) == r;
      AllIds(o, m, xs[..n], stamp);
      forall x | x in xs ensures Last(o, r.list, o.key(x)) >= 0
          && (x in xs[..n] ==> IdOf(o, q.list, o.key(x)) == IdOf(o, r.list, o.key(x)))
      {
        OneFinds(o, q, xs[n], stamp, o.key(x));
        assert xs == xs[..n] + [xs[n]];
      }
      IdsBySame(o, m.ids, xs[..n], q.list, r.list);
      OneIds(o, q, xs[n], stamp);
    }
  }

  /** When every key is known, nothing is added. */
  lemma {:induction false} AllUpdates<T(!new)>(o: Ops<T>, m: Merged<T>, xs: seq<T>, stamp: Stamp)
    requires Lawful(o) && Has(o, m.list, xs)
    ensures var r := All(o, m, xs, stamp); |r.list| == |m.list| && r.tally.added == m.tally.added
  {
    if xs != [] {
      var n := |xs| - 1;
      var q := All(o, m, xs[..n], stamp);
      AllUpdates(o, m, xs[..n], stamp);
      AllGrows(o, m, xs[..n], stamp);
      LastSame(o, m.list, q.list, o.key(xs[n]));
      UpdateOne(o, q, xs[n], stamp);
      assert All(o, m, xs, stamp) == One(o, q, xs[n], stamp);
    }
  }

  lemma {:induction false} UpdateOne<T>(o: Ops<T>, m: Merged<T>, x: T, stamp: Stamp)
    requires Last(o, m.list, o.key(x)) >= 0
    ensures var r := One(o, m, x, stamp); |r.list| == |m.list| && r.tally.added == m.tally.added
  {}

  /** Among records of one key, a later one has no smaller id. */
  ghost predicate Topped<T>(o: Ops<T>, list: seq<T>) {
    forall i, j | 0 <= i < j < |list| && o.key(list[i]) == o.key(list[j]) :: Leq(o.id(list[i]), o.id(list[j]))
  }

  lemma {:induction false} AllTopped<T(!new)>(o: Ops<T>, m: Merged<T>, xs: seq<T>, stamp: Stamp)
    requires Lawful(o) && Topped(o, m.list)
    ensures Topped(o, All(o, m, xs, stamp).list)
    decreases |xs|
  {
    hide Lawful, Leq, One;
    if xs != [] {
      var n := |xs| - 1;
      AllTopped(o, m, xs[..n], stamp);
      OneTopped(o, All(o, m, xs[..n], stamp), xs[n], stamp);
    }
  }

  lemma {:induction false} OneTopped<T(!new)>(o: Ops<T>, m: Merged<T>, x: T, stamp: Stamp)
    requires Lawful(o) && Topped(o, m.list)
    ensures Topped(o, One(o, m, x, stamp).list)
  {
    hide Leq;
    OneGrows(o, m, x, stamp);
    var r := One(o, m, x, stamp).list;
    if Last(o, m.list, o.key(x)) < 0 {
      assert o.key(r[|m.list|]) == o.key(x);
    } else {
      hide Lawful, One;
      OneLength(o, m, x, stamp);
    }
  }

  /** `b` is `a` normalised and sorted by id. */
  ghost predicate Stored<T>(o: Ops<T>, a: seq<T>, b: seq<T>) {
    multiset(b) == multiset(Map(o.normal, a)) && SortedBy(b, o.id)
  }

  /** What normalizeDocument makes of one list. */
  function Tidy<T>(o: Ops<T>, xs: seq<T>): (r: seq<T>)
    ensures |r| == |xs|
  {
    Sort(Map(o.normal, xs), o.id)
  }

  lemma {:induction false} TidyStored<T>(o: Ops<T>, xs: seq<T>)
    ensures Stored(o, xs, Tidy(o, xs))
  {
    SortMultiset(Map(o.normal, xs), o.id);
    SortSorted(Map(o.normal, xs), o.id);
  }

  /** A list that is normal and sorted is left alone. */
  lemma {:induction false} TidyIdentity<T>(o: Ops<T>, xs: seq<T>)
    requires Normals(o, xs) && SortedBy(xs, o.id)
    ensures Tidy(o, xs) == xs
  {
    assert Map(o.normal, xs) == xs;
    SortIdentity(xs, o.id);
  }

  lemma {:induction false} TidyIdempotent<T(!new)>(o: Ops<T>, xs: seq<T>)
    requires Lawful(o)
    ensures Normals(o, Tidy(o, xs)) && SortedBy(Tidy(o, xs), o.id)
  {
    hide Leq, SortedBy;
    TidyStored(o, xs);
    var r := Tidy(o, xs);
    forall j | 0 <= j < |r| ensures o.normal(r[j]) == r[j] { var i := StoredBack(o, xs, r, j); }
  }

  /** Normalisation keeps the id and the key of everything in the list. */
  ghost predicate Firm<T>(o: Ops<T>, list: seq<T>) {
    forall i | 0 <= i < |list| :: o.id(o.normal(list[i])) == o.id(list[i]) && o.key(o.normal(list[i])) == o.key(list[i])
  }

  /** A key selects the same record after the list is normalised and sorted. */
  lemma {:induction false} StoredIdOf<T(!new)>(o: Ops<T>, a: seq<T>, b: seq<T>, k: string)
    requires Stored(o, a, b) && Topped(o, a) && Firm(o, a)
    ensures Last(o, a, k) >= 0 <==> Last(o, b, k) >= 0
    ensures IdOf(o, a, k) == IdOf(o, b, k)
  {
    hide Last, Leq;
    var i, j := Last(o, a, k), Last(o, b, k);
    if i >= 0 {
      var j1 := StoredThere(o, a, b, i);
      assert j1 <= j;
    }
    if j >= 0 {
      var i1 := StoredBack(o, a, b, j);
      assert i1 <= i;
      var j1 := StoredThere(o, a, b, i);
      LeqReflexive(o.id(b[j]));
      assert Leq(o.id(b[j1]), o.id(b[j]));
      assert Leq(o.id(a[i1]), o.id(a[i]));
      LeqAntisymmetric(o.id(a[i]), o.id(b[j]));
    }
  }

  lemma {:induction false} StoredThere<T>(o: Ops<T>, a: seq<T>, b: seq<T>, i: nat) returns (j: nat)
    requires Stored(o, a, b) && i < |a|
    ensures j < |b| && b[j] == o.normal(a[i])
  {
    hide SortedBy;
    var c := Map(o.normal, a);
    assert c[i] in multiset(c);
    assert c[i] in b;
    j :| 0 <= j < |b| && b[j] == c[i];
  }

  lemma {:induction false} StoredBack<T>(o: Ops<T>, a: seq<T>, b: seq<T>, j: nat) returns (i: nat)
    requires Stored(o, a, b) && j < |b|
    ensures i < |a| && b[j] == o.normal(a[i])
  {
    hide SortedBy;
    var c := Map(o.normal, a);
    assert b[j] in multiset(b);
    assert b[j] in c;
    i :| 0 <= i < |c| && c[i] == b[j];
  }

  lemma {:induction false} StoredDistinct<T>(o: Ops<T>, a: seq<T>, b: seq<T>)
    requires Stored(o, a, b) && Distinct(Map(o.id, a)) && forall i | 0 <= i < |a| :: o.id(o.normal(a[i])) == o.id(a[i])
    ensures Distinct(Map(o.id, b))
  {
    hide SortedBy;
    MapMultiset(o.id, b, Map(o.normal, a));
    assert Map(o.id, Map(o.normal, a)) == Map(o.id, a);
    DistinctMultiset(Map(o.id, a), Map(o.id, b));
  }

  ghost predicate Named<T>(o: Ops<T>, list: seq<T>) {
    forall i | 0 <= i < |list| :: o.id(list[i]) != ""
  }

  ghost predicate Normals<T>(o: Ops<T>, list: seq<T>) {
    forall i | 0 <= i < |list| :: o.normal(list[i]) == list[i]
  }

  lemma {:induction false} AllNamed<T(!new)>(o: Ops<T>, m: Merged<T>, xs: seq<T>, stamp: Stamp)
    requires Lawful(o) && Named(o, m.list)
    ensures Named(o, All(o, m, xs, stamp).list)
  {
    AllGrows(o, m, xs, stamp);
    var r := All(o, m, xs, stamp).list;
    hide All;
    forall i | 0 <= i < |r| ensures o.id(r[i]) != "" {}
  }

  ghost predicate SameOwners<T>(o: Ops<T>, list: seq<T>, a: Records, b: Records) {
    forall i | 0 <= i < |list| :: Found(a, o.id(list[i])).owner == Found(b, o.id(list[i])).owner
  }

  /** byKey as the source keeps it beside the list. */
  ghost predicate Indexes<T>(o: Ops<T>, list: seq<T>, byKey: map<string, nat>) {
    forall k :: IndexedAt(o, list, byKey, k)
  }

  predicate IndexedAt<T>(o: Ops<T>, list: seq<T>, byKey: map<string, nat>, k: string) {
    if k in byKey then byKey[k] == Last(o, list, k) else Last(o, list, k) < 0
  }

  lemma {:induction false} IndexPush<T>(o: Ops<T>, list: seq<T>, byKey: map<string, nat>, x: T)
    requires Indexes(o, list, byKey)
    ensures Indexes(o, list + [x], byKey[o.key(x) := |list|])
  {
    hide Last;
    var longer, byKey1 := list + [x], byKey[o.key(x) := |list|];
    forall k ensures IndexedAt(o, longer, byKey1, k) {
      LastPush(o, list, x, k);
      assert IndexedAt(o, list, byKey, k);
    }
  }

  lemma {:induction false} IndexKept<T>(o: Ops<T>, list: seq<T>, byKey: map<string, nat>, i: nat, x: T)
    requires Indexes(o, list, byKey) && i < |list| && o.key(x) == o.key(list[i])
    ensures Indexes(o, list[i := x], byKey)
  {
    hide Last;
    var updated := list[i := x];
    forall k ensures IndexedAt(o, updated, byKey, k) {
      LastSame(o, list, updated, k);
      assert IndexedAt(o, list, byKey, k);
    }
  }

  method IndexKeys<T>(o: Ops<T>, current: seq<T>) returns (byKey: map<string, nat>)
    ensures Indexes(o, current, byKey)
  {
    byKey := map[];
    var i := 0;
    while i < |current|
      invariant 0 <= i <= |current| && Indexes(o, current[..i], byKey)
    {
      hide Last, Indexes;
      IndexPush(o, current[..i], byKey, current[i]);
      assert current[..i + 1] == current[..i] + [current[i]];
      byKey := byKey[o.key(current[i]) := i];
      i := i + 1;
    }
    assert current[..i] == current;
  }

  /** The body the three merge loops share. */
  method Place<T(!new)>(o: Ops<T>, byKey: map<string, nat>, m: Merged<T>, x: T, stamp: Stamp)
    returns (byKey1: map<string, nat>, r: Merged<T>)
    requires Lawful(o) && Indexes(o, m.list, byKey)
    ensures Indexes(o, r.list, byKey1) && r == One(o, m, x, stamp)
  {
    hide Last, SetMetadata;
    var key := o.key(x);
    assert IndexedAt(o, m.list, byKey, key);
    byKey1, r := byKey, m;
    if key in byKey {
      var id := o.id(m.list[byKey[key]]);
      r := r.(ids := r.ids[o.id(x) := id]);
      if Skips(Found(m.records, id).owner, stamp.source) {
        return byKey1, r.(tally := r.tally.(skipped := r.tally.skipped + 1));
      }
      IndexKept(o, m.list, byKey, byKey[key], o.withId(x, id));
      r := r.(list := r.list[byKey[key] := o.withId(x, id)], records := SetMetadata(r.records, id, stamp));
      r := r.(tally := r.tally.(updated := r.tally.updated + 1));
    } else {
      var id := o.freshId(key);
      IndexPush(o, m.list, byKey, o.withId(x, id));
      r := r.(ids := r.ids[o.id(x) := id], list := r.list + [o.withId(x, id)],
          records := SetMetadata(r.records, id, stamp));
      byKey1 := byKey[key := |r.list| - 1];
      r := r.(tally := r.tally.(added := r.tally.added + 1));
    }
  }

  /** mergeExposures and mergeDependencies. */
  method Merge<T(!new)>(o: Ops<T>, current: seq<T>, incoming: seq<T>, metadata: Records, idMap: map<string, string>,
      stamp: Stamp, summary: Tally)
    returns (m: Merged<T>)
    requires Lawful(o)
    ensures m == All(o, Merged(current, metadata, idMap, summary), incoming, stamp)
  {
    m := Merged(current, metadata, idMap, summary);
    ghost var start := m;
    var byKey := IndexKeys(o, current);
    var n := 0;
    while n < |incoming|
      invariant 0 <= n <= |incoming| && Indexes(o, m.list, byKey) && m == All(o, start, incoming[..n], stamp)
    {
      hide One, Last, Indexes, Lawful;
      assert incoming[..n + 1][..n] == incoming[..n];
      byKey, m := Place(o, byKey, m, incoming[n], stamp);
      n := n + 1;
    }
    assert incoming[..n] == incoming;
  }

  lemma {:induction false} TidyIds<T(!new)>(o: Ops<T>, xs: seq<T>)
    requires Lawful(o) && Named(o, xs)
    ensures multiset(Map(o.id, Tidy(o, xs))) == multiset(Map(o.id, xs))
  {
    TidyStored(o, xs);
    hide Tidy, SortedBy;
    MapMultiset(o.id, Tidy(o, xs), Map(o.normal, xs));
    assert Map(o.id, Map(o.normal, xs)) == Map(o.id, xs);
  }

  /**
    Where the incoming record `x` ends up: under `id` sits the last incoming record of its key, owned by
    the source of the import, unless a protected record was left there.
   */
  ghost predicate Landed<T>(o: Ops<T>, before: seq<T>, xs: seq<T>, x: T, id: string, owner: Owner, source: Owner,
      after: seq<T>)
  {
    var last := Last(o, xs, o.key(x));
    if last < 0 then false
    else if Skips(owner, source) then exists y :: y in before && o.id(y) == id && y in after
    else owner == source && o.normal(o.withId(xs[last], id)) in after
  }

  lemma {:induction false} Lands<T(!new)>(o: Ops<T>, m: Merged<T>, xs: seq<T>, stamp: Stamp, x: T)
    requires Lawful(o) && Normals(o, m.list) && x in xs && Distinct(Map(o.id, All(o, m, xs, stamp).list))
    ensures var r := All(o, m, xs, stamp);
            var id := IdOf(o, r.list, o.key(x));
            Landed(o, m.list, xs, x, id, Found(r.records, id).owner, stamp.source, Tidy(o, r.list))
  {
    hide One, Distinct, Tidy, All, SortedBy;
    var r := All(o, m, xs, stamp);
    AllIds(o, m, xs, stamp);
    AllSettles(o, m, xs, stamp);
    AllGrows(o, m, xs, stamp);
    var i := Last(o, r.list, o.key(x));
    assert SettledAt(o, m.list, r, xs, stamp.source, i);
    TidyStored(o, r.list);
    var j := StoredThere(o, r.list, Tidy(o, r.list), i);
    var n :| 0 <= n < |xs| && xs[n] == x;
    assert Last(o, xs, o.key(x)) >= 0;
    if Skips(Found(r.records, o.id(r.list[i])).owner, stamp.source) {
      assert m.list[i] in m.list;
    }
  }

  /** Metadata of records outside the merged list is not touched. */
  lemma {:induction false} OwnersKept<T(!new), U>(o: Ops<T>, m: Merged<T>, xs: seq<T>, stamp: Stamp, p: Ops<U>,
      others: seq<U>)
    requires Lawful(o)
    requires forall id | id in Map(p.id, others) :: id !in Map(o.id, All(o, m, xs, stamp).list)
    ensures SameOwners(p, others, m.records, All(o, m, xs, stamp).records)
  {
    RecordsFollow(o, m, xs, stamp);
    hide All, Lawful;
    forall i | 0 <= i < |others| ensures Found(m.records, p.id(others[i])).owner
        == Found(All(o, m, xs, stamp).records, p.id(others[i])).owner
    {
      assert Map(p.id, others)[i] == p.id(others[i]);
    }
  }

  lemma {:induction false} SortedTopped<T>(o: Ops<T>, list: seq<T>)
    requires SortedBy(list, o.id)
    ensures Topped(o, list)
  {
    hide Leq;
  }

  /** A record whose key is not stored yet is stored under the id made from its key. */
  lemma {:induction false} AddedUnder<T(!new)>(o: Ops<T>, m: Merged<T>, xs: seq<T>, stamp: Stamp, x: T) returns (i: nat)
    requires Lawful(o) && x in xs && Last(o, m.list, o.key(x)) < 0
    ensures var r := All(o, m, xs, stamp).list; |m.list| <= i < |r| && o.id(r[i]) == o.freshId(o.key(x))
  {
    hide All, Lawful;
    AllIds(o, m, xs, stamp);
    AllGrows(o, m, xs, stamp);
    var r := All(o, m, xs, stamp).list;
    i := Last(o, r, o.key(x));
  }
}
