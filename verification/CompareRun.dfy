/** The loops of internal/workspace/archgraph/compare.go. */
module CompareRun {
  import opened Compare
  import opened CompareLaws
  import opened Lists
  import opened Sorting
  import opened Wrappers

  /** Sorting the elements of a set, in whatever order they were met, gives its listing. */
  lemma {:induction false} SortIsListing<T(!new)>(xs: seq<T>, s: set<T>, key: T -> string)
    requires multiset(xs) == multiset(s) && KeyTells(key)
    ensures Sort(xs, key) == Listing(s, key)
  {
    hide Sort, Listing, SortedBy;
    SortMultiset(xs, key);
    SortSorted(xs, key);
    ListingHolds(s, key);
    SortedUnique(Sort(xs, key), Listing(s, key), key);
  }

  lemma {:induction false} CountIn<T>(s: set<T>, x: T)
    requires x !in s
    ensures multiset(s + {x}) == multiset(s) + multiset{x}
  {}

  /** The elements of a set, in any order. */
  method Elements<T>(s: set<T>) returns (xs: seq<T>)
    ensures multiset(xs) == multiset(s)
  {
    xs := [];
    var todo := s;
    ghost var done: set<T> := {};
    while todo != {}
      invariant todo <= s && done == s - todo && multiset(xs) == multiset(done)
      decreases |todo|
    {
      var x :| x in todo;
      CountIn(done, x);
      todo, done := todo - {x}, done + {x};
      xs := xs + [x];
    }
    assert done == s;
  }

  function DifferingKeys(enc: Encoder, a: Value, b: Value): set<string> {
    set f | f in a.Keys + b.Keys && Differs(enc, a, b, f)
  }

  /** The loop of changedFields, which meets the keys in any order. */
  method MeetChanged(enc: Encoder, a: Value, b: Value) returns (out: seq<string>)
    ensures multiset(out) == multiset(DifferingKeys(enc, a, b))
  {
    hide Differs, DifferingKeys;
    var keys := a.Keys + b.Keys;
    ghost var done: set<string> := {};
    ghost var differing := DifferingKeys(enc, a, b);
    DifferingKeysAre(enc, a, b);
    var todo := keys;
    out := [];
    while todo != {}
      invariant todo <= keys && multiset(out) == multiset(done)
      invariant forall f :: f in done <==> f in differing && f !in todo
      decreases |todo|
    {
      var key :| key in todo;
      todo := todo - {key};
      if Differs(enc, a, b, key) {
        CountIn(done, key);
        done := done + {key};
        out := out + [key];
      }
    }
    assert done == differing;
  }

  lemma {:induction false} DifferingKeysAre(enc: Encoder, a: Value, b: Value)
    ensures forall f :: f in DifferingKeys(enc, a, b) <==> f in a.Keys + b.Keys && Differs(enc, a, b, f)
  {}

  method CollectChangedFields(enc: Encoder, a: Value, b: Value) returns (out: seq<string>)
    ensures out == ChangedFields(enc, a, b)
  {
    hide Differs, Listing, Sort;
    out := MeetChanged(enc, a, b);
    SortIsListing(out, DifferingKeys(enc, a, b), Itself);
    out := Sort(out, Itself);
  }

  /** The body of Compare, once both graphs have yielded their facts. */
  method CompareMaps(enc: Encoder, left: Facts, right: Facts) returns (out: seq<Change>)
    ensures out == CompareFacts(enc, left, right)
  {
    hide ChangedFields;
    var ordered := Elements(left.Keys + right.Keys);
    IdTextTells();
    SortIsListing(ordered, left.Keys + right.Keys, IdText);
    ordered := Sort(ordered, IdText);
    out := [];
    var i := 0;
    while i < |ordered|
      invariant 0 <= i <= |ordered| && out == Changes(enc, left, right, ordered[..i])
    {
      hide Listing, Sort, IdText;
      var id := ordered[i];
      assert ordered[..i + 1][..i] == ordered[..i];
      ListingMember(left.Keys + right.Keys, IdText, id);
      if id !in left {
        out := out + [Added(id, right[id])];
      } else if id !in right {
        out := out + [Removed(id, left[id])];
      } else {
        var fields := CollectChangedFields(enc, left[id], right[id]);
        if |fields| > 0 { out := out + [Modified(id, fields, left[id], right[id])]; }
      }
      i := i + 1;
    }
    assert ordered[..i] == ordered;
  }

  /** What the three maps hold for one id after some postings. */
  ghost predicate HeldAt(ps: seq<Posting>, added: Facts, legacy: Facts, occurrences: map<FactId, seq<Json>>,
      id: FactId)
  {
    && Uniques(ps, id) == (if id in added then [added[id]] else [])
    && Legacies(ps, id) == (if id in legacy then [legacy[id]] else [])
    && (id in occurrences <==> Occurs(ps, id) != []) && (id in occurrences ==> occurrences[id] == Occurs(ps, id))
  }

  lemma {:induction false} PostingPush(ps: seq<Posting>, p: Posting, id: FactId)
    ensures Uniques(ps + [p], id) == Uniques(ps, id) + UniqueOf(id)(p)
    ensures Legacies(ps + [p], id) == Legacies(ps, id) + LegacyOf(id)(p)
    ensures Occurs(ps + [p], id) == Occurs(ps, id) + OccurOf(id)(p)
  {
    assert (ps + [p])[..|ps|] == ps;
  }

  /** A repeated identity: nothing added later mends it. */
  lemma {:induction false} DirtyStays(ps: seq<Posting>, n: nat, id: FactId)
    requires n <= |ps| && (|Uniques(ps[..n], id)| > 1 || |Legacies(ps[..n], id)| > 1)
    ensures !Clean(ps)
    decreases |ps| - n
  {
    if n == |ps| {
      assert ps[..n] == ps;
      PostedWith(ps, id);
    } else {
      assert ps[..n + 1] == ps[..n] + [ps[n]];
      PostingPush(ps[..n], ps[n], id);
      DirtyStays(ps, n + 1, id);
    }
  }

  lemma {:induction false} HeldPush(ps: seq<Posting>, p: Posting, added: Facts, legacy: Facts, occurrences: map<FactId,
      seq<Json>>, id: FactId)
    requires HeldAt(ps, added, legacy, occurrences, id) && HeldAt(ps, added, legacy, occurrences, p.id)
    ensures p.Unique? && p.id !in added ==> HeldAt(ps + [p], added[p.id := p.value], legacy, occurrences, id)
    ensures p.Legacy? && p.id !in legacy ==> HeldAt(ps + [p], added, legacy[p.id := p.value], occurrences, id)
    ensures p.Occur? ==>
      HeldAt(ps + [p], added, legacy,
          occurrences[p.id := (if p.id in occurrences then occurrences[p.id] else []) + [p.occurrence]], id)
  {
    hide Flat;
    PostingPush(ps, p, id);
    hide Uniques, Legacies, Occurs;
  }

  ghost predicate Held(ps: seq<Posting>, added: Facts, legacy: Facts, occurrences: map<FactId, seq<Json>>) {
    forall id :: HeldAt(ps, added, legacy, occurrences, id)
  }

  lemma {:induction false} HeldPushAll(ps: seq<Posting>, p: Posting, added: Facts, legacy: Facts,
      occurrences: map<FactId, seq<Json>>)
    requires Held(ps, added, legacy, occurrences)
    ensures p.Unique? && p.id !in added ==> Held(ps + [p], added[p.id := p.value], legacy, occurrences)
    ensures p.Legacy? && p.id !in legacy ==> Held(ps + [p], added, legacy[p.id := p.value], occurrences)
    ensures p.Occur? ==>
        Held(ps + [p], added, legacy,
          occurrences[p.id := (if p.id in occurrences then occurrences[p.id] else []) + [p.occurrence]])
  {
    hide HeldAt;
    var r := ps + [p];
    var o := if p.Occur? then occurrences[p.id := (if p.id in occurrences then occurrences[p.id] else [])
        + [p.occurrence]] else occurrences;
    var a := if p.Unique? then added[p.id := p.value] else added;
    var l := if p.Legacy? then legacy[p.id := p.value] else legacy;
    if (p.Unique? ==> p.id !in added) && (p.Legacy? ==> p.id !in legacy) {
      forall id ensures HeldAt(r, a, l, o, id) {
        assert HeldAt(ps, added, legacy, occurrences, id) && HeldAt(ps, added, legacy, occurrences, p.id);
        HeldPush(ps, p, added, legacy, occurrences, id);
      }
    }
  }

  /** comparisonFacts, with its loops flattened into the postings they make. */
  method CollectFacts(enc: Encoder, ps: seq<Posting>) returns (out: Option<Facts>)
    ensures out == FactsOf(enc, ps)
  {
    hide Held, Clean, FactAt;
    var added: Facts, legacy: Facts := map[], map[];
    var occurrences: map<FactId, seq<Json>> := map[];
    var i := 0;
    NothingHeld(ps);
    while i < |ps|
      invariant 0 <= i <= |ps|
      invariant Held(ps[..i], added, legacy, occurrences)
    {
      var p := ps[i];
      assert ps[..i + 1] == ps[..i] + [p];
      HeldPushAll(ps[..i], p, added, legacy, occurrences);
      Repeated(ps, i, added, legacy, occurrences);
      match p {
        case Unique(id, value) =>
          if id in added { return None; }
          added := added[id := value];
        case Legacy(id, value) =>
          if id in legacy { return None; }
          legacy := legacy[id := value];
        case Occur(id, value) =>
          occurrences := occurrences[id := (if id in occurrences then occurrences[id] else []) + [value]];
      }
      i := i + 1;
    }
    assert ps[..i] == ps;
    HeldClean(ps, added, legacy, occurrences);
    HeldFacts(enc, ps, added, legacy, occurrences);
    out := Some(HeldMap(enc, added, legacy, occurrences));
  }

  lemma {:induction false} NothingHeld(ps: seq<Posting>)
    ensures Held(ps[..0], map[], map[], map[])
  {}

  lemma {:induction false} Repeated(ps: seq<Posting>, i: nat, added: Facts, legacy: Facts, occurrences: map<FactId,
      seq<Json>>)
    requires i < |ps| && Held(ps[..i], added, legacy, occurrences)
    ensures (ps[i].Unique? && ps[i].id in added) || (ps[i].Legacy? && ps[i].id in legacy) ==> !Clean(ps)
  {
    hide Clean, Flat;
    assert HeldAt(ps[..i], added, legacy, occurrences, ps[i].id);
    assert ps[..i + 1] == ps[..i] + [ps[i]];
    PostingPush(ps[..i], ps[i], ps[i].id);
    hide Uniques, Legacies, Occurs;
    if (ps[i].Unique? && ps[i].id in added) || (ps[i].Legacy? && ps[i].id in legacy) {
      DirtyStays(ps, i + 1, ps[i].id);
    }
  }

  lemma {:induction false} HeldClean(ps: seq<Posting>, added: Facts, legacy: Facts, occurrences: map<FactId, seq<Json>>)
    requires Held(ps, added, legacy, occurrences)
    ensures Clean(ps)
  {
    hide Flat, Uniques, Legacies, Occurs;
    forall p | p in ps
      ensures |Uniques(ps, p.id)| <= 1 && |Legacies(ps, p.id)| <= 1
    {
      assert HeldAt(ps, added, legacy, occurrences, p.id);
    }
  }

  /** The facts of the three maps at the end. */
  function HeldMap(enc: Encoder, added: Facts, legacy: Facts, occurrences: map<FactId, seq<Json>>): Facts {
    map id | id in added.Keys + legacy.Keys + occurrences.Keys ::
      if id in added then added[id] else if id in legacy then legacy[id] else Occurrences(enc, occurrences[id])
  }

  lemma {:induction false} HeldFact(enc: Encoder, ps: seq<Posting>, added: Facts, legacy: Facts,
      occurrences: map<FactId, seq<Json>>, id: FactId)
    requires HeldAt(ps, added, legacy, occurrences, id)
    ensures id in FactMap(enc, ps) <==> id in HeldMap(enc, added, legacy, occurrences)
    ensures id in FactMap(enc, ps) ==> FactMap(enc, ps)[id] == HeldMap(enc, added, legacy, occurrences)[id]
  {
    hide Flat, Uniques, Legacies, Occurs, Occurrences;
    if id in FactMap(enc, ps) {
      var p :| p in ps && p.id == id;
      PostedHolds(ps, p);
    }
    if id in added.Keys + legacy.Keys + occurrences.Keys { PostedWith(ps, id); }
  }

  lemma {:induction false} HeldFacts(enc: Encoder, ps: seq<Posting>, added: Facts, legacy: Facts,
      occurrences: map<FactId, seq<Json>>)
    requires Held(ps, added, legacy, occurrences)
    ensures FactMap(enc, ps) == HeldMap(enc, added, legacy, occurrences)
  {
    hide HeldAt, FactMap, HeldMap;
    forall id
      ensures id in FactMap(enc, ps) <==> id in HeldMap(enc, added, legacy, occurrences)
      ensures id in FactMap(enc, ps) ==> FactMap(enc, ps)[id] == HeldMap(enc, added, legacy, occurrences)[id]
    {
      assert HeldAt(ps, added, legacy, occurrences, id);
      HeldFact(enc, ps, added, legacy, occurrences, id);
    }
  }

  /** Compare. */
  method RunCompare(enc: Encoder, before: Graph, after: Graph) returns (out: Option<seq<Change>>)
    ensures out == CompareGraphs(enc, before, after)
  {
    hide Postings, FactsOf, CompareFacts;
    var left := CollectFacts(enc, Postings(enc, before));
    if left.None? { return None; }
    var right := CollectFacts(enc, Postings(enc, after));
    if right.None? { return None; }
    var changes := CompareMaps(enc, left.value, right.value);
    return Some(changes);
  }
}
