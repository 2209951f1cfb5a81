/**
  Resuming a stream: a client that read up to event `e` subscribes again from the number behind it.
  What the new subscription loses and repeats depends on the order in which events were accepted.
 */
module EventResume {
  import opened EventBus
  import opened EventOrder
  import opened Wrappers

  /** The events a subscriber has taken out of its channel. */
  function Taken(w: World, x: SubId): seq<Event>
    requires x in w.accounts
  {
    Events(w.accounts[x].received)
  }

  /** What the handler passes on: resume behind the last event taken. */
  function Resume(w: World, x: SubId, y: SubId, bufSize: int): Action
    requires x in w.accounts && Taken(w, x) != []
  {
    Subscribe(y, Taken(w, x)[|Taken(w, x)| - 1].num + 1, bufSize)
  }

  // ----- runs in two parts

  lemma {:induction false} PlaySum(w: World, a: seq<Action>, b: seq<Action>)
    requires Play(w, a).Some?
    ensures Play(w, a + b) == Play(Play(w, a).value, b)
  {
    hide Next, Enabled;
    if b == [] {
      assert a + b == a;
    } else {
      assert (a + b)[..|a + b| - 1] == a + b[..|b| - 1];
      PlaySum(w, a, b[..|b| - 1]);
    }
  }

  lemma {:induction false} PlayOne(w: World, a: Action)
    requires Enabled(w, a)
    ensures Play(w, [a]) == Some(Next(w, a))
  {
    assert [a][..0] == [];
    assert Play(w, [a][..0]) == Some(w);
  }

  lemma {:induction false} PlayKeepsInv(w: World, run: seq<Action>)
    requires Inv(w) && Play(w, run).Some?
    ensures Inv(Play(w, run).value)
  {
    hide Inv, Next, Enabled;
    if run != [] {
      PlayKeepsInv(w, run[..|run| - 1]);
      Step(Play(w, run[..|run| - 1]).value, run[|run| - 1]);
    }
  }

  /** What joining fixed stays fixed, and accepted events stay where they are. */
  ghost predicate Later(w: World, z: World, y: SubId) {
    && y in w.accounts && y in z.accounts && y in w.st.chans && y in z.st.chans && w.accepted <= z.accepted
    && z.accounts[y].joined == w.accounts[y].joined && z.accounts[y].replayed == w.accounts[y].replayed
    && z.accounts[y].fromSeq == w.accounts[y].fromSeq
  }

  lemma {:induction false} LaterStep(w: World, a: Action, y: SubId)
    requires Enabled(w, a) && y in w.accounts && y in w.st.chans
    ensures Later(w, Next(w, a), y)
  {
    hide From, Items, Take, Offer;
  }

  lemma {:induction false} LaterPlay(w: World, run: seq<Action>, y: SubId)
    requires Play(w, run).Some? && y in w.accounts && y in w.st.chans
    ensures Later(w, Play(w, run).value, y)
  {
    hide Next, Enabled;
    if run != [] {
      LaterPlay(w, run[..|run| - 1], y);
      LaterStep(Play(w, run[..|run| - 1]).value, run[|run| - 1], y);
    }
  }

  // ----- what was taken was accepted

  lemma {:induction false} SubSeqMember(a: seq<Event>, b: seq<Event>, e: Event)
    requires SubSeq(a, b) && e in a
    ensures e in b
    decreases |b|
  {
    var c := b[..|b| - 1];
    assert b == c + [b[|b| - 1]];
    if SubSeq(a, c) {
      SubSeqMember(a, c, e);
    } else {
      assert a == a[..|a| - 1] + [a[|a| - 1]];
      if e != a[|a| - 1] { SubSeqMember(a[..|a| - 1], c, e); }
    }
  }

  lemma {:induction false} EventsSum(a: seq<Item>, b: seq<Item>)
    ensures Events(a) <= Events(a + b)
  {
    if b == [] {
      assert a + b == a;
    } else {
      assert (a + b)[..|a + b| - 1] == a + b[..|b| - 1];
      EventsSum(a, b[..|b| - 1]);
    }
  }

  lemma {:induction false} TakenAccepted(w: World, x: SubId, e: Event)
    requires Inv(w) && DeliveryOk(w) && x in w.accounts && e in Taken(w, x)
    ensures e in w.accepted
  {
    hide NumbersOk, RingOk, SubSeq;
    EventsSum(w.accounts[x].received, w.st.chans[x].buffer);
    assert e in Delivered(w, x);
    SubSeqMember(Delivered(w, x), w.accounts[x].offered, e);
    assert AccountOk(w, x);
    DueAccepted(w, x, e);
  }

  /** `f` was accepted after `e`. */
  ghost predicate After(accepted: seq<Event>, e: Event, f: Event) {
    exists i, j :: 0 <= i < j < |accepted| && accepted[i] == e && accepted[j] == f
  }

  /** The resumed subscription gets all that came after `e`, as far as the ring still had it. */
  ghost predicate Continues(w: World, z: World, y: SubId, e: Event)
    requires y in z.accounts
  {
    forall j | 0 <= j < LeftAt(z, y) && j < |z.accepted| && After(z.accepted, e, z.accepted[j])
                && (j < |w.accepted| ==> z.accepted[j] in w.st.history) :: z.accepted[j] in z.accounts[y].offered
  }

  /** Nothing the client has taken is offered to it again. */
  ghost predicate RepeatsNothing(w: World, z: World, x: SubId, y: SubId)
    requires x in w.accounts && y in z.accounts
  {
    forall f | f in Taken(w, x) :: f !in z.accounts[y].offered
  }

  lemma {:induction false} SamePlace(accepted: seq<Event>, i: nat, j: nat)
    requires DistinctNumbers(accepted) && i < |accepted| && j < |accepted| && accepted[i] == accepted[j]
    ensures i == j
  {}

  /** What a new subscriber is offered of the events accepted before it joined: those replayed to it. */
  lemma {:induction false} OfferedBefore(w: World, z: World, y: SubId, fromSeq: nat, bufSize: int, j: nat)
    requires Inv(w) && Inv(z) && Enabled(w, Subscribe(y, fromSeq, bufSize))
        && Later(Next(w, Subscribe(y, fromSeq, bufSize)), z, y)
    requires Settled(z, y) && j < |w.accepted|
    ensures z.accepted[j] == w.accepted[j]
    ensures z.accepted[j] in z.accounts[y].offered <==> z.accepted[j] in w.st.history && z.accepted[j].num >= fromSeq
  {
    hide TokensOk, RingOk;
    FromMember(w.st.history, fromSeq);
    var f := z.accepted[j];
    assert AccountOk(z, y);
    hide AccountOk, From;
    assert f in z.accounts[y].offered <==> Due(z, y, f);
    forall i | |w.accepted| <= i < |z.accepted|
      ensures z.accepted[i] != f
    {
      assert z.accepted[j].num != z.accepted[i].num;
    }
  }

  lemma {:induction false} OfferedSince(w: World, z: World, y: SubId, fromSeq: nat, bufSize: int, j: nat)
    requires Inv(z) && Enabled(w, Subscribe(y, fromSeq, bufSize))
        && Later(Next(w, Subscribe(y, fromSeq, bufSize)), z, y)
    requires Settled(z, y) && |w.accepted| <= j < LeftAt(z, y) && j < |z.accepted|
    ensures z.accepted[j] in z.accounts[y].offered
  {
    hide NumbersOk, TokensOk, RingOk;
    assert AccountOk(z, y);
    assert Due(z, y, z.accepted[j]);
  }

  /**
    Resuming behind the last event taken, whatever happens before and after: nothing still in the ring
    is lost exactly if no event accepted after it, and still in the ring, has a lower number; nothing is
    repeated exactly if no event taken, and still in the ring, has a higher one.
   */
  lemma {:induction false} ResumesWellIff(cap: nat, run: seq<Action>, x: SubId, y: SubId, bufSize: int,
      cont: seq<Action>)
    requires cap > 0 && Play(Init(cap), run).Some?
    requires var w := Play(Init(cap), run).value;
             && x in w.accounts && Taken(w, x) != [] && Enabled(w, Resume(w, x, y, bufSize))
             && Play(Next(w, Resume(w, x, y, bufSize)), cont).Some?
    ensures var w := Play(Init(cap), run).value;
            var z := Play(Next(w, Resume(w, x, y, bufSize)), cont).value;
            var e := Taken(w, x)[|Taken(w, x)| - 1];
            && e in w.accepted && y in z.accounts && w.accepted <= z.accepted
            && (Settled(z, y) ==>
                 && (Continues(w, z, y, e) <==>
                     forall f | f in w.st.history && After(w.accepted, e, f) :: e.num < f.num)
                 && (RepeatsNothing(w, z, x, y) <==>
                     forall f | f in w.st.history && f in Taken(w, x) :: f.num <= e.num))
  {
    hide NumbersOk, RingOk, TokensOk, AccountsOk, DeliveryOk, From, Settled, Events, After, Continues, RepeatsNothing;
    var w := Play(Init(cap), run).value;
    var a := Resume(w, x, y, bufSize);
    var v := Next(w, a);
    var z := Play(v, cont).value;
    var e := Taken(w, x)[|Taken(w, x)| - 1];
    RunsKeepInv(cap, run);
    DeliveredIsSubSeq(cap, run);
    Step(w, a);
    PlayKeepsInv(v, cont);
    LaterPlay(v, cont, y);
    TakenAccepted(w, x, e);
    if Settled(z, y) {
      ContinuesIff(w, z, y, e, bufSize);
      forall f | f in Taken(w, x) ensures f in w.accepted { TakenAccepted(w, x, f); }
      RepeatsIff(w, z, x, y, e, bufSize);
    }
  }

  lemma {:induction false} AfterSame(w: World, z: World, e: Event, j: nat)
    requires Inv(z) && w.accepted <= z.accepted && e in w.accepted && j < |w.accepted|
    ensures After(z.accepted, e, z.accepted[j]) <==> After(w.accepted, e, w.accepted[j])
  {
    hide RingOk, TokensOk, AccountsOk;
    if After(z.accepted, e, z.accepted[j]) {
      var i, k :| 0 <= i < k < |z.accepted| && z.accepted[i] == e && z.accepted[k] == z.accepted[j];
      SamePlace(z.accepted, k, j);
      assert w.accepted[i] == e && w.accepted[j] == z.accepted[j];
    }
    if After(w.accepted, e, w.accepted[j]) {
      var i, k :| 0 <= i < k < |w.accepted| && w.accepted[i] == e && w.accepted[k] == w.accepted[j];
      assert z.accepted[i] == e && z.accepted[k] == z.accepted[j];
    }
  }

  lemma {:induction false} ContinuesIff(w: World, z: World, y: SubId, e: Event, bufSize: int)
    requires Inv(w) && Inv(z) && Enabled(w, Subscribe(y, e.num + 1, bufSize)) && e in w.accepted
    requires Later(Next(w, Subscribe(y, e.num + 1, bufSize)), z, y) && Settled(z, y)
    ensures Continues(w, z, y, e) <==> forall f | f in w.st.history && After(w.accepted, e, f) :: e.num < f.num
  {
    hide Inv, Settled, From, After;
    if Continues(w, z, y, e) {
      forall f | f in w.st.history && After(w.accepted, e, f) ensures e.num < f.num {
        var j := PlaceAfter(w.accepted, e, f);
        AfterSame(w, z, e, j);
        OfferedBefore(w, z, y, e.num + 1, bufSize, j);
        JoinedBy(w, z, y, e.num + 1, bufSize);
      }
    }
    if forall f | f in w.st.history && After(w.accepted, e, f) :: e.num < f.num {
      forall j | 0 <= j < LeftAt(z, y) && j < |z.accepted| && After(z.accepted, e, z.accepted[j])
                 && (j < |w.accepted| ==> z.accepted[j] in w.st.history)
        ensures z.accepted[j] in z.accounts[y].offered
      {
        if j < |w.accepted| {
          AfterSame(w, z, e, j);
          OfferedBefore(w, z, y, e.num + 1, bufSize, j);
        } else {
          OfferedSince(w, z, y, e.num + 1, bufSize, j);
        }
      }
    }
  }

  lemma {:induction false} JoinedBy(w: World, z: World, y: SubId, fromSeq: nat, bufSize: int)
    requires Inv(z) && Enabled(w, Subscribe(y, fromSeq, bufSize))
        && Later(Next(w, Subscribe(y, fromSeq, bufSize)), z, y)
    ensures |w.accepted| <= LeftAt(z, y)
  {
    hide NumbersOk, RingOk, TokensOk, From;
    assert AccountOk(z, y);
  }

  lemma {:induction false} PlaceAfter(accepted: seq<Event>, e: Event, f: Event) returns (j: nat)
    requires After(accepted, e, f)
    ensures j < |accepted| && accepted[j] == f
  {
    var i, k :| 0 <= i < k < |accepted| && accepted[i] == e && accepted[k] == f;
    j := k;
  }

  lemma {:induction false} RepeatsIff(w: World, z: World, x: SubId, y: SubId, e: Event, bufSize: int)
    requires Inv(w) && Inv(z) && Enabled(w, Subscribe(y, e.num + 1, bufSize)) && x in w.accounts
    requires Later(Next(w, Subscribe(y, e.num + 1, bufSize)), z, y) && Settled(z, y)
    requires forall f | f in Taken(w, x) :: f in w.accepted
    ensures RepeatsNothing(w, z, x, y) <==> forall f | f in w.st.history && f in Taken(w, x) :: f.num <= e.num
  {
    hide Inv, Settled, From, Events, Taken;
    forall f | f in Taken(w, x)
      ensures f in z.accounts[y].offered <==> f in w.st.history && f.num >= e.num + 1
    {
      var j :| 0 <= j < |w.accepted| && w.accepted[j] == f;
      OfferedBefore(w, z, y, e.num + 1, bufSize, j);
    }
  }

  // ----- one emitter

  lemma {:induction false} SoloPrefix(cap: nat, a: seq<Action>, b: seq<Action>)
    requires Solo(cap, a + b)
    ensures Solo(cap, a)
  {
    hide Next, Enabled;
    if b == [] {
      assert a + b == a;
    } else {
      assert (a + b)[..|a + b| - 1] == a + b[..|b| - 1];
      SoloPrefix(cap, a, b[..|b| - 1]);
    }
  }

  /**
    One emitter: the resumed subscription is offered nothing the client has taken, and once settled
    exactly the stretch that begins behind the last event taken or, if that stretch was evicted in
    part, at the oldest event of the ring.
   */
  lemma {:induction false} SoloResumeContinues(cap: nat, run: seq<Action>, x: SubId, y: SubId, bufSize: int,
      cont: seq<Action>)
    requires cap > 0 && Play(Init(cap), run).Some?
    requires var w := Play(Init(cap), run).value;
             && x in w.accounts && Taken(w, x) != [] && Enabled(w, Resume(w, x, y, bufSize))
             && Play(Next(w, Resume(w, x, y, bufSize)), cont).Some?
             && Solo(cap, run + [Resume(w, x, y, bufSize)] + cont)
    ensures var w := Play(Init(cap), run).value;
            var z := Play(Next(w, Resume(w, x, y, bufSize)), cont).value;
            var e, evicted := Taken(w, x)[|Taken(w, x)| - 1], Evicted(cap, |w.accepted|);
            var start := if e.num < evicted then evicted else e.num;
            && y in z.accounts && RepeatsNothing(w, z, x, y)
            && 1 <= e.num <= |z.accepted| && z.accepted[e.num - 1] == e
            && start <= LeftAt(z, y) <= |z.accepted|
            && (Settled(z, y) ==> z.accounts[y].offered == z.accepted[start..LeftAt(z, y)])
  {
    hide Inv, DeliveryOk, Settled, Solo, Next, Enabled, Increasing, Events, Play, StretchOk;
    var w := Play(Init(cap), run).value;
    var a := Resume(w, x, y, bufSize);
    var v := Next(w, a);
    var z := Play(v, cont).value;
    var full := run + [a] + cont;
    SoloPlayed(cap, run, a, cont);
    SoloTaken(cap, run, x);
    SubscribedWith(w, y, a.fromSeq, bufSize);
    LaterPlay(v, cont, y);
    SoloOffersStretch(cap, full, y);
    SoloResumeRepeatsNothing(cap, full, y);
  }

  lemma {:induction false} SubscribedWith(w: World, y: SubId, fromSeq: nat, bufSize: int)
    requires Enabled(w, Subscribe(y, fromSeq, bufSize))
    ensures var v := Next(w, Subscribe(y, fromSeq, bufSize));
            && y in v.accounts && y in v.st.chans && v.accepted == w.accepted
            && v.accounts[y].fromSeq == fromSeq && v.accounts[y].joined == |w.accepted|
  {}

  lemma {:induction false} SoloPlayed(cap: nat, run: seq<Action>, a: Action, cont: seq<Action>)
    requires Play(Init(cap), run).Some? && Enabled(Play(Init(cap), run).value, a)
    requires Play(Next(Play(Init(cap), run).value, a), cont).Some? && Solo(cap, run + [a] + cont)
    ensures Solo(cap, run)
    ensures Play(Init(cap), run + [a] + cont) == Play(Next(Play(Init(cap), run).value, a), cont)
  {
    hide Next, Enabled, Play, Solo;
    var w := Play(Init(cap), run).value;
    PlayOne(w, a);
    PlaySum(Init(cap), run, [a]);
    PlaySum(Init(cap), run + [a], cont);
    SoloPrefix(cap, run + [a], cont);
    SoloPrefix(cap, run, [a]);
  }

  /** With one emitter the last event taken has the highest number of all that were taken. */
  lemma {:induction false} SoloTaken(cap: nat, run: seq<Action>, x: SubId)
    requires cap > 0 && Play(Init(cap), run).Some? && Solo(cap, run)
    requires x in Play(Init(cap), run).value.accounts && Taken(Play(Init(cap), run).value, x) != []
    ensures var w := Play(Init(cap), run).value;
            var e := Taken(w, x)[|Taken(w, x)| - 1];
            && 1 <= e.num <= |w.accepted| && w.accepted[e.num - 1] == e
            && forall f | f in Taken(w, x) :: f.num <= e.num
  {
    hide Inv, DeliveryOk, Solo, Play, CountOk, StretchOk, Events;
    var w := Play(Init(cap), run).value;
    SoloGapsAreDrops(cap, run, x);
    SoloOffersStretch(cap, run, x);
    RunsKeepInv(cap, run);
    DeliveredIsSubSeq(cap, run);
    EventsSum(w.accounts[x].received, w.st.chans[x].buffer);
    var t, d := Taken(w, x), Delivered(w, x);
    var e := t[|t| - 1];
    TakenAccepted(w, x, e);
    forall f | f in t ensures f.num <= e.num {
      var i :| 0 <= i < |t| && t[i] == f;
      assert d[i] == f && d[|t| - 1] == e;
    }
  }
}
