/** A comparison is a patch, can be turned round, and does not see the order of lists. */
module CompareLaws {
  import opened Compare
  import opened Lists
  import opened Sorting
  import opened Wrappers

  // Listings

  ghost predicate KeyTells<T(!new)>(key: T -> string) {
    forall x, y | key(x) == key(y) :: x == y
  }

  lemma {:induction false} ListingHolds<T(!new)>(s: set<T>, key: T -> string)
    ensures multiset(Listing(s, key)) == multiset(s) && SortedBy(Listing(s, key), key)
    decreases |s|
  {
    hide Insert, SortedBy, Leq;
    if s == {} {
      assert SortedBy(Listing(s, key), key) by { EmptySorted(key); }
    } else {
      var x :| x in s && Listing(s, key) == Insert(Listing(s - {x}, key), x, key);
      ListingHolds(s - {x}, key);
      InsertMultiset(Listing(s - {x}, key), x, key);
      InsertSorted(Listing(s - {x}, key), x, key);
      assert s == (s - {x}) + {x};
    }
  }

  lemma {:induction false} EmptySorted<T>(key: T -> string)
    ensures SortedBy([], key)
  {}

  lemma {:induction false} ListingMember<T(!new)>(s: set<T>, key: T -> string, x: T)
    ensures x in Listing(s, key) <==> x in s
  {
    ListingHolds(s, key);
    hide Listing;
    assert x in Listing(s, key) <==> x in multiset(Listing(s, key));
    assert x in s <==> x in multiset(s);
  }

  lemma {:induction false} ListingDistinct<T(!new)>(s: set<T>, key: T -> string)
    ensures Distinct(Listing(s, key))
  {
    ListingHolds(s, key);
    hide Listing, SortedBy;
    var xs := Listing(s, key);
    forall i, j | 0 <= i < j < |xs| ensures xs[i] != xs[j] {
      if xs[i] == xs[j] { CountedTwice(xs, i, j); }
    }
  }

  lemma {:induction false} CountedTwice<T>(xs: seq<T>, i: nat, j: nat)
    requires i < j < |xs| && xs[i] == xs[j]
    ensures multiset(xs)[xs[i]] >= 2
  {
    assert xs == xs[..j] + [xs[j]] + xs[j + 1..];
    assert xs[i] in xs[..j];
  }

  lemma {:induction false} IdTextTells()
    ensures KeyTells(IdText)
  {
    forall x: FactId, y: FactId | IdText(x) == IdText(y) ensures x == y { IdTextInjective(x, y); }
  }

  /** The name of a kind ends at the first colon. */
  function BeforeColon(s: string): string {
    if s == "" || s[0] == ':' then "" else [s[0]] + BeforeColon(s[1..])
  }

  lemma {:induction false} BeforeColonOf(a: string, x: string)
    requires forall i | 0 <= i < |a| :: a[i] != ':'
    ensures BeforeColon(a + ":" + x) == a
  {
    var s := a + ":" + x;
    if a != "" {
      assert s[0] == a[0] && s[1..] == a[1..] + ":" + x;
      BeforeColonOf(a[1..], x);
      assert a == [a[0]] + a[1..];
    }
  }

  lemma {:induction false} IdTextInjective(x: FactId, y: FactId)
    requires x.Text() == y.Text()
    ensures x == y
  {
    var a, b := x.kind.Name(), y.kind.Name();
    BeforeColonOf(a, x.key);
    BeforeColonOf(b, y.key);
    assert a == b;
    KindNames(x.kind, y.kind);
    assert x.key == x.Text()[|a| + 1..] && y.key == y.Text()[|b| + 1..];
  }

  lemma {:induction false} KindNames(k: Kind, l: Kind)
    requires k.Name() == l.Name()
    ensures k == l
  {
    var a, b := k.Name(), l.Name();
    assert |a| == |b| && a[0] == b[0];
  }

  // Changed fields

  /** The values agree field by field, a missing field reading as null. */
  ghost predicate Agree(a: Value, b: Value) {
    forall f :: Field(a, f) == Field(b, f)
  }

  ghost predicate FactsAgree(a: Facts, b: Facts) {
    a.Keys == b.Keys && forall id | id in a :: Agree(a[id], b[id])
  }

  /** The listed fields are exactly those that differ. */
  lemma {:induction false} ChangedFieldsExact(enc: Encoder, a: Value, b: Value, f: string)
    requires Injective(enc)
    ensures f in ChangedFields(enc, a, b) <==> Field(a, f) != Field(b, f)
  {
    ListingMember((set g | g in a.Keys + b.Keys && Differs(enc, a, b, g)), Itself, f);
  }

  lemma {:induction false} NoChangeIffAgree(enc: Encoder, a: Value, b: Value)
    requires Injective(enc)
    ensures ChangedFields(enc, a, b) == [] <==> Agree(a, b)
  {
    hide ChangedFields, Field;
    var fields := ChangedFields(enc, a, b);
    forall f ensures f in fields <==> Field(a, f) != Field(b, f) { ChangedFieldsExact(enc, a, b, f); }
    assert fields != [] ==> fields[0] in fields;
  }

  lemma {:induction false} ChangedFieldsFlip(enc: Encoder, a: Value, b: Value)
    ensures ChangedFields(enc, b, a) == ChangedFields(enc, a, b)
  {
    assert (set f | f in a.Keys + b.Keys && Differs(enc, a, b, f))
        == (set f | f in b.Keys + a.Keys && Differs(enc, b, a, f));
  }

  // The comparison, change by change

  lemma {:induction false} ChangesMember(enc: Encoder, a: Facts, b: Facts, ids: seq<FactId>, c: Change)
    ensures c in Changes(enc, a, b, ids) <==> c.id in ids && ChangeAt(enc, a, b, c.id) == [c]
  {
    hide ChangedFields;
    if ids != [] {
      var n := |ids| - 1;
      ChangesMember(enc, a, b, ids[..n], c);
      assert ids == ids[..n] + [ids[n]];
      assert c.id in ids <==> c.id in ids[..n] || c.id == ids[n];
    }
  }

  function IdOfChange(c: Change): FactId { c.id }

  lemma {:induction false} DistinctMore<T>(a: seq<T>, b: seq<T>)
    requires Distinct(a) && |b| <= 1 && forall x | x in b :: x !in a
    ensures Distinct(a + b)
  {
    if b == [] {
      assert a + b == a;
    } else {
      assert a + b == a + [b[0]];
      DistinctPush(a, b[0]);
    }
  }

  lemma {:induction false} ChangeIds(enc: Encoder, a: Facts, b: Facts, id: FactId)
    ensures |Map(IdOfChange, ChangeAt(enc, a, b, id))| <= 1
    ensures forall x | x in Map(IdOfChange, ChangeAt(enc, a, b, id)) :: x == id
  {
    hide ChangedFields;
  }

  /** No id is reported twice. */
  lemma {:induction false} ChangesDistinct(enc: Encoder, a: Facts, b: Facts, ids: seq<FactId>)
    requires Distinct(ids)
    ensures Distinct(Map(IdOfChange, Changes(enc, a, b, ids)))
    ensures forall x | x in Map(IdOfChange, Changes(enc, a, b, ids)) :: x in ids
  {
    hide ChangedFields, Map, ChangeAt;
    if ids == [] {
      assert Map(IdOfChange, []) == [];
    } else {
      var n := |ids| - 1;
      var before, here := Changes(enc, a, b, ids[..n]), ChangeAt(enc, a, b, ids[n]);
      ChangesDistinct(enc, a, b, ids[..n]);
      assert ids == ids[..n] + [ids[n]];
      assert ids[n] !in ids[..n];
      ChangeIds(enc, a, b, ids[n]);
      MapSum(IdOfChange, before, here);
      DistinctMore(Map(IdOfChange, before), Map(IdOfChange, here));
    }
  }

  /** Every change of the comparison is the change at its id, every id with a change has it, and no id has two. */
  lemma {:induction false} CompareMember(enc: Encoder, a: Facts, b: Facts, c: Change)
    ensures c in CompareFacts(enc, a, b) <==> ChangeAt(enc, a, b, c.id) == [c]
    ensures Distinct(Map(IdOfChange, CompareFacts(enc, a, b)))
  {
    hide ChangedFields, Listing, Changes;
    ListingDistinct(a.Keys + b.Keys, IdText);
    ChangesDistinct(enc, a, b, Listing(a.Keys + b.Keys, IdText));
    ChangesMember(enc, a, b, Listing(a.Keys + b.Keys, IdText), c);
    ListingMember(a.Keys + b.Keys, IdText, c.id);
  }

  /** Nothing is reported exactly if the facts agree. */
  lemma {:induction false} EmptyIffAgree(enc: Encoder, a: Facts, b: Facts)
    requires Injective(enc)
    ensures CompareFacts(enc, a, b) == [] <==> FactsAgree(a, b)
  {
    hide CompareFacts, ChangedFields, Agree;
    if FactsAgree(a, b) && CompareFacts(enc, a, b) != [] {
      var c := CompareFacts(enc, a, b)[0];
      CompareMember(enc, a, b, c);
      NoChangeIffAgree(enc, a[c.id], b[c.id]);
    }
    if CompareFacts(enc, a, b) == [] {
      forall id | id in a.Keys + b.Keys ensures id in a && id in b && Agree(a[id], b[id]) {
        assert ChangeAt(enc, a, b, id) == [] by { NoChangeThere(enc, a, b, id); }
        if id in a && id in b { NoChangeIffAgree(enc, a[id], b[id]); }
      }
    }
  }

  lemma {:induction false} NoChangeThere(enc: Encoder, a: Facts, b: Facts, id: FactId)
    requires CompareFacts(enc, a, b) == []
    ensures ChangeAt(enc, a, b, id) == []
  {
    hide CompareFacts, ChangedFields;
    if ChangeAt(enc, a, b, id) != [] { CompareMember(enc, a, b, ChangeAt(enc, a, b, id)[0]); }
  }

  // A patch

  function PatchFields(v: Value, fields: seq<string>, after: Value): Value {
    if fields == [] then v
    else
      var f := fields[|fields| - 1];
      PatchFields(v, fields[..|fields| - 1], after)[f := Field(after, f)]
  }

  function Apply(changes: seq<Change>, facts: Facts): Facts {
    if changes == [] then facts
    else
      var r := Apply(changes[..|changes| - 1], facts);
      match changes[|changes| - 1]
      case Added(id, after) => r[id := after]
      case Removed(id, _) => r - {id}
      case Modified(id, fields, _, after) => if id in r then r[id := PatchFields(r[id], fields, after)] else r
  }

  lemma {:induction false} PatchFieldsAt(v: Value, fields: seq<string>, after: Value, f: string)
    ensures Field(PatchFields(v, fields, after), f) == if f in fields then Field(after, f) else Field(v, f)
  {
    if fields != [] {
      var n := |fields| - 1;
      PatchFieldsAt(v, fields[..n], after, f);
      assert fields == fields[..n] + [fields[n]];
      assert f in fields <==> f in fields[..n] || f == fields[n];
    }
  }

  /** Patching the listed fields alone makes the value agree with the new one. */
  lemma {:induction false} PatchAgrees(enc: Encoder, a: Value, b: Value)
    requires Injective(enc)
    ensures Agree(PatchFields(a, ChangedFields(enc, a, b), b), b)
  {
    hide ChangedFields, PatchFields, Field;
    var fields := ChangedFields(enc, a, b);
    forall f ensures Field(PatchFields(a, fields, b), f) == Field(b, f) {
      PatchFieldsAt(a, fields, b, f);
      ChangedFieldsExact(enc, a, b, f);
    }
  }

  /** What applying the changes at `ids` leaves at one id. */
  ghost predicate PatchedAt(a: Facts, b: Facts, r: Facts, id: FactId, done: bool) {
    if done then (id in r <==> id in b) && (id in b ==> Agree(r[id], b[id]))
    else (id in r <==> id in a) && (id in a ==> r[id] == a[id])
  }

  lemma {:induction false} ApplyPush(changes: seq<Change>, c: Change, facts: Facts)
    ensures Apply(changes + [c], facts) == Apply([c], Apply(changes, facts))
  {
    assert (changes + [c])[..|changes|] == changes;
    assert [c][..0] == [];
    assert Apply([c][..0], Apply(changes, facts)) == Apply(changes, facts);
  }

  /** One change brings its own id up to date and leaves the others. */
  lemma {:induction false} OneChange(enc: Encoder, a: Facts, b: Facts, r: Facts, c: Change, id: FactId)
    requires Injective(enc) && ChangeAt(enc, a, b, c.id) == [c] && PatchedAt(a, b, r, c.id, false)
    ensures var t := Apply([c], r);
            if id == c.id then PatchedAt(a, b, t, id, true) else (id in t <==> id in r) && (id in r ==> t[id] == r[id])
  {
    hide ChangedFields, PatchFields, Agree;
    assert [c][..0] == [];
    assert Apply([c][..0], r) == r;
    match c
    case Added(i, after) => AgreeItself(after);
    case Removed(i, _) =>
    case Modified(i, fields, before, after) => PatchAgrees(enc, a[i], b[i]);
  }

  lemma {:induction false} AgreeItself(v: Value)
    ensures Agree(v, v)
  {}

  lemma {:induction false} NoChangePatched(enc: Encoder, a: Facts, b: Facts, r: Facts, id: FactId)
    requires Injective(enc) && ChangeAt(enc, a, b, id) == [] && PatchedAt(a, b, r, id, false)
    ensures PatchedAt(a, b, r, id, true)
  {
    hide ChangedFields, Agree;
    if id in a && id in b { NoChangeIffAgree(enc, a[id], b[id]); }
  }

  lemma {:induction false} ApplyAt(enc: Encoder, a: Facts, b: Facts, ids: seq<FactId>, id: FactId)
    requires Injective(enc) && Distinct(ids)
    ensures PatchedAt(a, b, Apply(Changes(enc, a, b, ids), a), id, id in ids)
  {
    hide ChangeAt, Apply, PatchedAt, Injective;
    if ids == [] {
      NothingApplied(a, b, id);
    } else {
      var n := |ids| - 1;
      var r := Apply(Changes(enc, a, b, ids[..n]), a);
      assert ids == ids[..n] + [ids[n]];
      ApplyAt(enc, a, b, ids[..n], id);
      ApplyAt(enc, a, b, ids[..n], ids[n]);
      ChangeAtOne(enc, a, b, ids[n]);
      if ChangeAt(enc, a, b, ids[n]) == [] {
        assert Changes(enc, a, b, ids) == Changes(enc, a, b, ids[..n]);
        NoChangePatched(enc, a, b, r, ids[n]);
      } else {
        var c := ChangeAt(enc, a, b, ids[n])[0];
        ApplyPush(Changes(enc, a, b, ids[..n]), c, a);
        OneChange(enc, a, b, r, c, id);
        PatchedMoves(a, b, r, Apply([c], r), id, id in ids[..n]);
      }
    }
  }

  lemma {:induction false} NothingApplied(a: Facts, b: Facts, id: FactId)
    ensures PatchedAt(a, b, Apply([], a), id, false)
  {}

  lemma {:induction false} ChangeAtOne(enc: Encoder, a: Facts, b: Facts, id: FactId)
    ensures var cs := ChangeAt(enc, a, b, id); cs == [] || (|cs| == 1 && cs == [cs[0]] && cs[0].id == id)
  {
    hide ChangedFields;
  }

  lemma {:induction false} PatchedMoves(a: Facts, b: Facts, r: Facts, t: Facts, id: FactId, done: bool)
    requires PatchedAt(a, b, r, id, done)
    ensures (id in t <==> id in r) && (id in r ==> t[id] == r[id]) ==> PatchedAt(a, b, t, id, done)
  {}

  /** Applying the comparison of `a` with `b` to the facts of `a`, field by field, gives the facts of `b`. */
  lemma {:induction false} CompareIsPatch(enc: Encoder, a: Facts, b: Facts)
    requires Injective(enc)
    ensures FactsAgree(Apply(CompareFacts(enc, a, b), a), b)
  {
    hide Listing, Changes, Apply, Agree, Injective;
    var ids := Listing(a.Keys + b.Keys, IdText);
    ListingDistinct(a.Keys + b.Keys, IdText);
    var r := Apply(CompareFacts(enc, a, b), a);
    forall id ensures (id in r <==> id in b) && (id in b ==> Agree(r[id], b[id])) {
      ApplyAt(enc, a, b, ids, id);
      ListingMember(a.Keys + b.Keys, IdText, id);
    }
  }

  // Turning round

  function Flip(c: Change): Change {
    match c
    case Added(id, after) => Removed(id, after)
    case Removed(id, before) => Added(id, before)
    case Modified(id, fields, before, after) => Modified(id, fields, after, before)
  }

  lemma {:induction false} ChangeAtFlips(enc: Encoder, a: Facts, b: Facts, id: FactId)
    ensures ChangeAt(enc, b, a, id) == Map(Flip, ChangeAt(enc, a, b, id))
  {
    hide ChangedFields;
    if id in a && id in b { ChangedFieldsFlip(enc, a[id], b[id]); }
  }

  lemma {:induction false} ChangesFlip(enc: Encoder, a: Facts, b: Facts, ids: seq<FactId>)
    ensures Changes(enc, b, a, ids) == Map(Flip, Changes(enc, a, b, ids))
  {
    hide ChangeAt, Flip;
    if ids != [] {
      var n := |ids| - 1;
      ChangesFlip(enc, a, b, ids[..n]);
      ChangeAtFlips(enc, a, b, ids[n]);
      MapSum(Flip, Changes(enc, a, b, ids[..n]), ChangeAt(enc, a, b, ids[n]));
    }
  }

  /** The comparison the other way round is this one with both sides exchanged. */
  lemma {:induction false} CompareFlips(enc: Encoder, a: Facts, b: Facts)
    ensures CompareFacts(enc, b, a) == Map(Flip, CompareFacts(enc, a, b))
  {
    hide Changes, Listing, Flip;
    assert a.Keys + b.Keys == b.Keys + a.Keys;
    ChangesFlip(enc, a, b, Listing(a.Keys + b.Keys, IdText));
  }

  // Order of the report

  function ChangeText(c: Change): string { c.id.Text() }

  lemma {:induction false} ChangesSorted(enc: Encoder, a: Facts, b: Facts, ids: seq<FactId>)
    requires SortedBy(ids, IdText)
    ensures SortedBy(Changes(enc, a, b, ids), ChangeText)
    ensures forall c | c in Changes(enc, a, b, ids) :: c.id in ids
  {
    hide Leq, ChangeAt;
    if ids != [] {
      var n := |ids| - 1;
      SortedPrefix(ids, IdText, n);
      ChangesSorted(enc, a, b, ids[..n]);
      ChangeAtOne(enc, a, b, ids[n]);
      var cs := Changes(enc, a, b, ids[..n]);
      var all := Changes(enc, a, b, ids);
      forall i, j | 0 <= i < j < |all| ensures Leq(ChangeText(all[i]), ChangeText(all[j])) {
        assert all[i] == cs[i];
        assert cs[i] in cs;
        if j == |cs| { LastIsTop(ids, cs[i].id, IdText); }
      }
    }
  }

  /** The report is sorted by kind and key. */
  lemma {:induction false} CompareSorted(enc: Encoder, a: Facts, b: Facts)
    ensures SortedBy(CompareFacts(enc, a, b), ChangeText)
  {
    hide Listing, Changes, SortedBy;
    ListingHolds(a.Keys + b.Keys, IdText);
    ChangesSorted(enc, a, b, Listing(a.Keys + b.Keys, IdText));
  }

  // Postings and their ids

  lemma {:induction false} PostedWith(ps: seq<Posting>, id: FactId)
    requires Uniques(ps, id) != [] || Legacies(ps, id) != [] || Occurs(ps, id) != []
    ensures exists p :: p in ps && p.id == id
  {
    var n := |ps| - 1;
    assert ps == ps[..n] + [ps[n]];
    if ps[n].id == id { assert ps[n] in ps; } else { PostedWith(ps[..n], id); }
  }

  lemma {:induction false} PostedHolds(ps: seq<Posting>, p: Posting)
    requires p in ps
    ensures Uniques(ps, p.id) != [] || Legacies(ps, p.id) != [] || Occurs(ps, p.id) != []
  {
    var n := |ps| - 1;
    assert ps == ps[..n] + [ps[n]];
    if ps[n] != p { PostedHolds(ps[..n], p); }
  }
}
