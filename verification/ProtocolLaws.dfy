/** When the document the builder makes passes the canonical validator. */
module ProtocolLaws {
  import opened Decimal
  import opened Lists
  import opened Protocol
  import opened ProtocolBuild
  import opened Sorting
  import opened Text

  // Numbered ids

  /** The part of a text before its first dot. */
  function BeforeDot(s: string): string {
    if s == "" || s[0] == '.' then "" else [s[0]] + BeforeDot(s[1..])
  }

  lemma {:induction false} BeforeDotOf(a: string, x: string)
    requires forall c | c in a :: c != '.'
    ensures BeforeDot(a + "." + x) == a
  {
    var s := a + "." + x;
    if a != "" {
      assert a[0] in a && forall c | c in a[1..] :: c in a;
      assert s[0] == a[0] && s[1..] == a[1..] + "." + x;
      assert a == [a[0]] + a[1..];
      BeforeDotOf(a[1..], x);
    }
  }

  lemma {:induction false} DotSplit(a: string, x: string, b: string, y: string)
    requires (forall c | c in a :: c != '.') && (forall c | c in b :: c != '.')
    requires a + "." + x == b + "." + y
    ensures a == b && x == y
  {
    BeforeDotOf(a, x);
    BeforeDotOf(b, y);
    var s := a + "." + x;
    assert x == s[|a| + 1..] && y == s[|b| + 1..];
  }

  lemma {:induction false} TextSplit(o: ObjectId, x: string, p: ObjectId, y: string)
    requires o.Text() + "." + x == p.Text() + "." + y
    ensures o == p && x == y
  {
    var m, n: string := o.name, p.name;
    assert o.Text() + "." + x == o.scope + "." + (m + "." + x);
    assert p.Text() + "." + y == p.scope + "." + (n + "." + y);
    DotSplit(o.scope, m + "." + x, p.scope, n + "." + y);
    DotSplit(m, x, n, y);
  }

  lemma {:induction false} TextInjective(o: ObjectId, p: ObjectId)
    requires o.Text() == p.Text()
    ensures o == p
  {
    TextSplit(o, "", p, "");
  }

  lemma {:induction false} NumberedInjective(tag: string, o: ObjectId, m: nat, p: ObjectId, n: nat)
    requires NumberedId(tag, o.Text(), m) == NumberedId(tag, p.Text(), n)
    ensures o == p && m == n
  {
    var a, b := NumberedId(tag, o.Text(), m), NumberedId(tag, p.Text(), n);
    assert a[|tag|..] == o.Text() + "." + Show(m) && b[|tag|..] == p.Text() + "." + Show(n);
    TextSplit(o, Show(m), p, Show(n));
    ShowInjective(m, n);
  }

  lemma {:induction false} StemPrefix(tag: string, o: ObjectId, p: ObjectId, n: nat)
    ensures Stem(tag, o.Text()) <= NumberedId(tag, p.Text(), n) <==> o == p
  {
    var a, b := Stem(tag, o.Text()), NumberedId(tag, p.Text(), n);
    if a <= b {
      var rest := b[|a|..];
      assert b == a + rest;
      assert b[|tag|..] == o.Text() + "." + rest && b[|tag|..] == p.Text() + "." + Show(n);
      TextSplit(o, rest, p, Show(n));
    }
  }

  /** `id` is the k-th id of some object, for a `k` within the count. */
  ghost predicate Numbered(ids: seq<string>, tag: string, id: string) {
    exists o: ObjectId, k: nat :: 1 <= k <= Count(ids, Stem(tag, o.Text())) && id == NumberedId(tag, o.Text(), k)
  }

  ghost predicate NumOk(ids: seq<string>, tag: string) {
    Distinct(ids) && forall i | 0 <= i < |ids| :: Numbered(ids, tag, ids[i])
  }

  lemma {:induction false} CountPush(ids: seq<string>, id: string, prefix: string)
    ensures Count(ids + [id], prefix) == Count(ids, prefix) + if prefix <= id then 1 else 0
  {
    assert (ids + [id])[..|ids|] == ids;
  }

  lemma {:induction false} NumberedPush(ids: seq<string>, id: string, tag: string, x: string)
    requires Numbered(ids, tag, x)
    ensures Numbered(ids + [id], tag, x)
  {
    var o: ObjectId, k: nat :| 1 <= k <= Count(ids, Stem(tag, o.Text())) && x == NumberedId(tag, o.Text(), k);
    CountPush(ids, id, Stem(tag, o.Text()));
    assert x == NumberedId(tag, o.Text(), k);
  }

  /** The next ordinal of an object is new. */
  lemma {:induction false} NextIsNew(ids: seq<string>, tag: string, o: ObjectId)
    requires NumOk(ids, tag)
    ensures NumberedId(tag, o.Text(), 1 + Count(ids, Stem(tag, o.Text()))) !in ids
  {
    hide Distinct, NumberedId, Stem;
    var n := 1 + Count(ids, Stem(tag, o.Text()));
    forall i | 0 <= i < |ids| ensures ids[i] != NumberedId(tag, o.Text(), n) {
      assert Numbered(ids, tag, ids[i]);
      var p: ObjectId, k: nat :| 1 <= k <= Count(ids, Stem(tag, p.Text())) && ids[i] == NumberedId(tag, p.Text(), k);
      if ids[i] == NumberedId(tag, o.Text(), n) { NumberedInjective(tag, o, n, p, k); }
    }
  }

  lemma {:induction false} NumAdd(ids: seq<string>, tag: string, o: ObjectId)
    requires NumOk(ids, tag)
    ensures var n := 1 + Count(ids, Stem(tag, o.Text()));
            var id := NumberedId(tag, o.Text(), n);
            NumOk(ids + [id], tag) && Count(ids + [id], Stem(tag, o.Text())) == n
  {
    hide NumberedId, Stem, Count, Distinct, Numbered;
    var n := 1 + Count(ids, Stem(tag, o.Text()));
    var id := NumberedId(tag, o.Text(), n);
    var r := ids + [id];
    NextIsNew(ids, tag, o);
    CountPush(ids, id, Stem(tag, o.Text()));
    StemPrefix(tag, o, o, n);
    NumberedLast(r, tag, o, n);
    forall i | 0 <= i < |r| ensures Numbered(r, tag, r[i]) {
      if i < |ids| { NumberedPush(ids, id, tag, ids[i]); }
    }
    DistinctPush(ids, id);
  }

  lemma {:induction false} NumberedLast(ids: seq<string>, tag: string, o: ObjectId, n: nat)
    requires 1 <= n <= Count(ids, Stem(tag, o.Text()))
    ensures Numbered(ids, tag, NumberedId(tag, o.Text(), n))
  {}

  lemma {:induction false} NumAddMany(ids: seq<string>, tag: string, o: ObjectId, count: nat)
    requires NumOk(ids, tag)
    ensures var stem := Stem(tag, o.Text());
            var r := ids + NewIds(tag, o.Text(), 1 + Count(ids, stem), count);
            NumOk(r, tag) && Count(r, stem) == Count(ids, stem) + count
  {
    hide NumOk, Stem, NumberedId;
    var stem, from := Stem(tag, o.Text()), 1 + Count(ids, Stem(tag, o.Text()));
    if count == 0 {
      assert ids + NewIds(tag, o.Text(), from, 0) == ids;
    } else {
      var before := ids + NewIds(tag, o.Text(), from, count - 1);
      NumAddMany(ids, tag, o, count - 1);
      NumAdd(before, tag, o);
      assert NewIds(tag, o.Text(), from, count) == NewIds(tag, o.Text(), from, count - 1)
          + [NumberedId(tag, o.Text(), from + count - 1)];
      assert ids + NewIds(tag, o.Text(), from, count) == before + [NumberedId(tag, o.Text(), from + count - 1)];
    }
  }

  lemma {:induction false} NumberedSolid(tag: string, oid: string, n: nat)
    requires tag != "" && !Space(tag[0])
    ensures Trim(NumberedId(tag, oid, n)) == NumberedId(tag, oid, n) && !Blank(NumberedId(tag, oid, n))
  {
    var id := NumberedId(tag, oid, n);
    var d := Show(n);
    assert id[|id| - 1] == d[|d| - 1] && d[|d| - 1] in d;
    TrimSolid(id);
  }

  // References resolve

  ghost predicate EvidenceFine(list: seq<Evidence>) {
    forall e | e in list :: ValidConfidence(e.confidence) && Authored(e.source)
  }

  ghost predicate SeenOk(seen: map<string, string>, ids: seq<string>) {
    forall key | key in seen :: seen[key] in ids
  }

  ghost predicate Within(refs: seq<string>, ids: seq<string>) {
    forall ref | ref in refs :: ref in ids
  }

  ghost predicate BookOk(b: Book, o: ObjectId) {
    var ids := Map(EvidenceId, b.evidence);
    && NumOk(ids, "ev.") && b.next == 1 + Count(ids, Stem("ev.", o.Text()))
    && SeenOk(b.seen, ids) && Within(b.refs, ids) && EvidenceFine(b.evidence)
  }

  lemma {:induction false} CiteOneKeeps(b: Book, o: ObjectId, c: Cite, confidence: string)
    requires BookOk(b, o) && Authored(c.source) && ValidConfidence(confidence)
    ensures BookOk(CiteOne(b, o.Text(), c, confidence), o)
  {
    hide NumOk, Count, Authored, NumberedId, Stem, ValidConfidence;
    if c.key !in b.seen {
      var ids := Map(EvidenceId, b.evidence);
      var id := NumberedId("ev.", o.Text(), b.next);
      NumAdd(ids, "ev.", o);
      assert Map(EvidenceId, b.evidence + [Evidence(id, c.source, confidence)]) == ids + [id];
    }
  }

  lemma {:induction false} CiteAllKeeps(b: Book, o: ObjectId, cs: seq<Cite>, confidence: string)
    requires BookOk(b, o) && (forall c | c in cs :: Authored(c.source)) && ValidConfidence(confidence)
    ensures var r := CiteAll(b, o.Text(), cs, confidence);
        BookOk(r, o) && b.evidence <= r.evidence && |r.refs| == |b.refs| + |cs|
  {
    hide BookOk, Authored, NumberedId, ValidConfidence;
    if cs != [] {
      var n := |cs| - 1;
      assert cs[n] in cs;
      CiteAllKeeps(b, o, cs[..n], confidence);
      CiteOneKeeps(CiteAll(b, o.Text(), cs[..n], confidence), o, cs[n], confidence);
    }
  }

  lemma {:induction false} SourcesAuthored()
    ensures Authored("config") && Authored("infra") && Authored("human") && Authored("code")
  {
    hide Trim;
    TrimSolid("config");
    TrimSolid("infra");
    TrimSolid("human");
    TrimSolid("code");
  }

  lemma {:induction false} CitesAuthored(e: Entity, fallback: string)
    ensures forall c | c in Cites(e, fallback) :: Authored(c.source)
  {
    hide Authored, Contains, Lower, Trim;
    SourcesAuthored();
    var cs := Cites(e, fallback);
    forall c | c in cs ensures Authored(c.source) {
      var i :| 0 <= i < |cs| && cs[i] == c;
    }
  }

  ghost predicate RefsInv(s: State) {
    var obsIds, evIds := Map(ObservationId, s.observations), Map(EvidenceId, s.evidence);
    && NumOk(obsIds, "obs.") && NumOk(evIds, "ev.")
    && SeenOk(s.evSeen, evIds) && EvidenceFine(s.evidence)
    && (forall o | o in s.observations :: ValidConfidence(o.confidence))
    && (forall o | o in s.objects :: Within(o.observations, obsIds) && Within(o.evidenceRefs, evIds))
  }

  lemma {:induction false} ConfidenceValid(v: real)
    ensures ValidConfidence(Confidence(v)) && Confidence(v) != ""
  {}

  /** What recording an entity adds, and what it leaves alone. */
  ghost predicate RecordedFine(s: State, r: Recorded, oid: string, e: Entity, fallback: string) {
    && r.state == s.(observations := r.state.observations, evidence := r.state.evidence, evSeen := r.state.evSeen)
    && |s.observations| <= |r.state.observations| && r.state.observations[..|s.observations|] == s.observations
    && (forall i | |s.observations| <= i < |r.state.observations| :: r.state.observations[i].objectRef == oid)
    && s.evidence <= r.state.evidence
    && |r.observations| == |Located(e.locations)| && |r.evidence| == |Cites(e, fallback)|
    && Within(r.observations, Map(ObservationId, r.state.observations))
        && Within(r.evidence, Map(EvidenceId, r.state.evidence))
  }

  lemma {:induction false} RecordObservations(s: State, o: ObjectId, e: Entity, fallback: string)
    requires RefsInv(s)
    ensures var r := Record(s, o.Text(), e, fallback);
            && NumOk(Map(ObservationId, r.state.observations), "obs.")
            && Within(r.observations, Map(ObservationId, r.state.observations))
            && (forall ob | ob in r.state.observations :: ValidConfidence(ob.confidence))
  {
    hide NumOk, Count, NumberedId, Stem, CiteAll, Cites, Located, ValidConfidence, Confidence;
    var ids := Map(ObservationId, s.observations);
    var r := Record(s, o.Text(), e, fallback);
    NumAddMany(ids, "obs.", o, |Located(e.locations)|);
    ConfidenceValid(e.confidence);
    var all := Map(ObservationId, r.state.observations);
    assert all == ids + r.observations;
  }

  lemma {:induction false} RecordEvidence(s: State, o: ObjectId, e: Entity, fallback: string)
    requires RefsInv(s)
    ensures var r := Record(s, o.Text(), e, fallback);
            var ids := Map(EvidenceId, r.state.evidence);
            && NumOk(ids, "ev.") && SeenOk(r.state.evSeen, ids) && EvidenceFine(r.state.evidence)
                && Within(r.evidence, ids)
            && s.evidence <= r.state.evidence && |r.evidence| == |Cites(e, fallback)|
  {
    hide NumOk, Count, NumberedId, Stem, CiteAll, Cites, Located, ValidConfidence, Confidence, EvidenceFine, SeenOk;
    CitesAuthored(e, fallback);
    ConfidenceValid(e.confidence);
    CiteAllKeeps(OpenBook(s, o.Text()), o, Cites(e, fallback), Confidence(e.confidence));
  }

  lemma {:induction false} WithinGrows(refs: seq<string>, ids: seq<string>, more: seq<string>)
    requires Within(refs, ids) && ids <= more
    ensures Within(refs, more)
  {}

  lemma {:induction false} RecordKeeps(s: State, o: ObjectId, e: Entity, fallback: string)
    requires RefsInv(s)
    ensures var r := Record(s, o.Text(), e, fallback); RefsInv(r.state) && RecordedFine(s, r, o.Text(), e, fallback)
  {
    RecordObservations(s, o, e, fallback);
    RecordEvidence(s, o, e, fallback);
    RecordShape(s, o.Text(), e, fallback);
    var r := Record(s, o.Text(), e, fallback);
    RefsGrow(s, r.state);
    hide Record, NumOk, SeenOk, EvidenceFine, Within;
  }

  lemma {:induction false} RecordShape(s: State, oid: string, e: Entity, fallback: string)
    ensures var r := Record(s, oid, e, fallback);
            && r.state == s.(observations := r.state.observations, evidence := r.state.evidence,
                evSeen := r.state.evSeen)
            && |s.observations| <= |r.state.observations| && r.state.observations[..|s.observations|] == s.observations
            && (forall i | |s.observations| <= i < |r.state.observations| :: r.state.observations[i].objectRef == oid)
            && |r.observations| == |Located(e.locations)|
  {
    hide CiteAll, Cites, Located, Count, NumberedId;
  }

  lemma {:induction false} RefsGrow(s: State, r: State)
    requires s.objects == r.objects
    requires |s.observations| <= |r.observations| && r.observations[..|s.observations|] == s.observations
        && s.evidence <= r.evidence
    requires forall o | o in s.objects ::
        Within(o.observations, Map(ObservationId, s.observations))
          && Within(o.evidenceRefs, Map(EvidenceId, s.evidence))
    ensures forall o | o in r.objects ::
        Within(o.observations, Map(ObservationId, r.observations))
          && Within(o.evidenceRefs, Map(EvidenceId, r.evidence))
  {
    var a, b := Map(ObservationId, s.observations), Map(ObservationId, r.observations);
    var c, d := Map(EvidenceId, s.evidence), Map(EvidenceId, r.evidence);
    assert a <= b by { assert b[..|a|] == a; }
    assert c <= d by { assert d[..|c|] == c; }
    hide Within;
    forall o | o in r.objects ensures Within(o.observations, b) && Within(o.evidenceRefs, d) {
      WithinGrows(o.observations, a, b);
      WithinGrows(o.evidenceRefs, c, d);
    }
  }
}
