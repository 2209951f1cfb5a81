/**
  Order on the event bus: what a subscriber may conclude from sequence numbers when one goroutine
  emits, and what it may not when several do.
 */
module EventOrder {
  import opened EventBus
  import opened Wrappers

  // ----- a channel delivers a subsequence of what was offered

  ghost predicate SubSeq(a: seq<Event>, b: seq<Event>) {
    a == [] || (b != [] && (SubSeq(a, b[..|b| - 1])
                         || (a[|a| - 1] == b[|b| - 1] && SubSeq(a[..|a| - 1], b[..|b| - 1]))))
  }

  function Events(items: seq<Item>): seq<Event> {
    if items == [] then []
    else
      var last := items[|items| - 1];
      Events(items[..|items| - 1]) + (match last case Live(e) => [e] case Eof => [])
  }

  /** What the subscriber has taken from its channel and what still waits in it, without end markers. */
  function Delivered(w: World, x: SubId): seq<Event>
    requires x in w.accounts && x in w.st.chans
  {
    Events(w.accounts[x].received + w.st.chans[x].buffer)
  }

  ghost predicate DeliveryOk(w: World) {
    && w.st.chans.Keys == w.accounts.Keys
    && forall x | x in w.accounts :: SubSeq(Delivered(w, x), w.accounts[x].offered)
  }

  lemma {:induction false} EventsSnoc(items: seq<Item>, item: Item)
    ensures Events(items + [item]) == Events(items) + (match item case Live(e) => [e] case Eof => [])
  {
    assert (items + [item])[..|items + [item]| - 1] == items;
  }

  lemma {:induction false} SubSeqSnoc(a: seq<Event>, b: seq<Event>, e: Event)
    requires SubSeq(a, b)
    ensures SubSeq(a, b + [e]) && SubSeq(a + [e], b + [e])
  {
    assert (b + [e])[..|b + [e]| - 1] == b;
    assert (a + [e])[..|a + [e]| - 1] == a;
  }

  lemma {:induction false} ReplayDelivered(replay: seq<Event>, cap: nat)
    ensures SubSeq(Events(Take(Items(replay), cap)), replay)
  {
    if replay != [] {
      var rest, last := replay[..|replay| - 1], replay[|replay| - 1];
      ReplayDelivered(rest, cap);
      assert replay == rest + [last];
      assert Items(replay) == Items(rest) + [Live(last)];
      if |replay| <= cap {
        EventsSnoc(Items(rest), Live(last));
      } else {
        assert Take(Items(replay), cap) == Take(Items(rest), cap);
      }
      SubSeqSnoc(Events(Take(Items(rest), cap)), rest, last);
    }
  }

  lemma {:induction false} OfferDelivers(w: World, x: SubId, item: Item)
    requires x in w.accounts && x in w.st.chans && SubSeq(Delivered(w, x), w.accounts[x].offered)
    ensures var now := Events(w.accounts[x].received + Offer(w.st.chans[x], item).buffer);
            && (item.Live? ==> SubSeq(now, w.accounts[x].offered + [item.event]))
            && (item.Eof? ==> now == Delivered(w, x))
  {
    var a, c := w.accounts[x], w.st.chans[x];
    assert a.received + (c.buffer + [item]) == (a.received + c.buffer) + [item];
    EventsSnoc(a.received + c.buffer, item);
    if item.Live? { SubSeqSnoc(Delivered(w, x), a.offered, item.event); }
  }

  lemma {:induction false} DeliveryStep(w: World, a: Action)
    requires DeliveryOk(w) && Enabled(w, a)
    ensures DeliveryOk(Next(w, a))
  {
    hide SubSeq, Delivered, From, Items, Offer;
    var v := Next(w, a);
    forall x | x in v.accounts ensures SubSeq(Delivered(v, x), v.accounts[x].offered) {
      DeliveryStepFor(w, a, x);
    }
  }

  lemma {:induction false} DeliveryStepFor(w: World, a: Action, x: SubId)
    requires DeliveryOk(w) && Enabled(w, a) && x in Next(w, a).accounts
    ensures x in Next(w, a).st.chans && SubSeq(Delivered(Next(w, a), x), Next(w, a).accounts[x].offered)
  {
    hide SubSeq, Delivered;
    if a.Send? && a.to == x { SendDelivery(w, a.num, x); }
    else if a.SendEof? && a.x == x { EofDelivery(w, a, x); }
    else if a.Subscribe? && a.x == x { SubscribeDelivery(w, a, x); }
    else if a.Receive? && a.x == x { ReceiveDelivery(w, x); }
    else { QuietDelivery(w, a, x); }
  }

  lemma {:induction false} SendDelivery(w: World, k: nat, x: SubId)
    requires DeliveryOk(w) && Enabled(w, Send(k, x))
    ensures var v := Next(w, Send(k, x)); SubSeq(Delivered(v, x), v.accounts[x].offered)
  {
    hide SubSeq, Events, Offer;
    OfferDelivers(w, x, Live(Event(k, w.emits[k].payload)));
  }

  lemma {:induction false} EofDelivery(w: World, a: Action, x: SubId)
    requires DeliveryOk(w) && Enabled(w, a) && a.SendEof? && a.x == x
    ensures var v := Next(w, a); SubSeq(Delivered(v, x), v.accounts[x].offered)
  {
    hide SubSeq, Events, Offer;
    OfferDelivers(w, x, Eof);
  }

  lemma {:induction false} SubscribeDelivery(w: World, a: Action, x: SubId)
    requires DeliveryOk(w) && Enabled(w, a) && a.Subscribe? && a.x == x
    ensures var v := Next(w, a); SubSeq(Delivered(v, x), v.accounts[x].offered)
  {
    hide SubSeq, Events, From;
    ReplayDelivered(From(w.st.history, a.fromSeq), BufCap(a.bufSize));
    var v := Next(w, a);
    assert [] + v.st.chans[x].buffer == v.st.chans[x].buffer;
  }

  lemma {:induction false} ReceiveDelivery(w: World, x: SubId)
    requires DeliveryOk(w) && Enabled(w, Receive(x))
    ensures var v := Next(w, Receive(x)); SubSeq(Delivered(v, x), v.accounts[x].offered)
  {
    hide SubSeq, Events;
    var c := w.st.chans[x];
    assert (w.accounts[x].received + [c.buffer[0]]) + c.buffer[1..] == w.accounts[x].received + c.buffer;
  }

  lemma {:induction false} QuietDelivery(w: World, a: Action, x: SubId)
    requires DeliveryOk(w) && Enabled(w, a) && x in Next(w, a).accounts
    requires !(a.Send? && a.to == x) && !((a.SendEof? || a.Subscribe? || a.Receive?) && a.x == x)
    ensures x in Next(w, a).st.chans && SubSeq(Delivered(Next(w, a), x), Next(w, a).accounts[x].offered)
  {
    hide SubSeq, Events, Next, Enabled;
    QuietFields(w, a, x);
  }

  lemma {:induction false} QuietFields(w: World, a: Action, x: SubId)
    requires Enabled(w, a) && x in Next(w, a).accounts && w.st.chans.Keys == w.accounts.Keys
    requires !(a.Send? && a.to == x) && !((a.SendEof? || a.Subscribe? || a.Receive?) && a.x == x)
    ensures var v := Next(w, a);
            && x in w.accounts && x in w.st.chans && x in v.st.chans
            && v.accounts[x].received == w.accounts[x].received && v.accounts[x].offered == w.accounts[x].offered
            && v.st.chans[x].buffer == w.st.chans[x].buffer
  {
    hide From, Items, Offer;
  }

  lemma {:induction false} DeliveredIsSubSeq(cap: nat, run: seq<Action>)
    requires Play(Init(cap), run).Some?
    ensures DeliveryOk(Play(Init(cap), run).value)
  {
    hide DeliveryOk, Next, Enabled;
    if run == [] {
      StartDelivery(cap);
    } else {
      DeliveredIsSubSeq(cap, run[..|run| - 1]);
      DeliveryStep(Play(Init(cap), run[..|run| - 1]).value, run[|run| - 1]);
    }
  }

  lemma {:induction false} StartDelivery(cap: nat)
    ensures DeliveryOk(Init(cap))
  {}

  // ----- one emitting goroutine

  /** Emit is never entered while another Emit is in flight. */
  ghost predicate Solo(cap: nat, run: seq<Action>) {
    run == [] || (
      var before := run[..|run| - 1];
      && Solo(cap, before)
      && (run[|run| - 1].Draw? ==> Play(Init(cap), before).Some? && Play(Init(cap), before).value.emits == map[]))
  }

  /** Accepted events are numbered 1, 2, 3, ...; the one Emit in flight, if any, holds the newest number. */
  ghost predicate CountOk(w: World) {
    && (forall i | 0 <= i < |w.accepted| :: w.accepted[i].num == i + 1)
    && (forall k | k in w.emits :: k == w.st.lastSeq && (w.emits[k].phase.Sending? ==> k == |w.accepted|))
    && (!w.st.finished ==>
          if exists k :: k in w.emits && w.emits[k].phase.Waiting?
          then w.st.lastSeq == |w.accepted| + 1
          else w.st.lastSeq == |w.accepted|)
  }

  function Cut(low: nat, high: nat, fromSeq: nat): (c: nat)
    requires low <= high
    ensures low <= c <= high
  {
    if fromSeq <= low + 1 then low else if high < fromSeq then high else fromSeq - 1
  }

  /** How many of `n` accepted events the ring has dropped. */
  function Evicted(cap: nat, n: nat): nat {
    if n <= cap then 0 else n - cap
  }

  /** `x` was offered a contiguous stretch: its replay and all that came while it was registered. */
  ghost predicate StretchOk(w: World, x: SubId)
    requires x in w.accounts
  {
    var a := w.accounts[x];
    var end := LeftAt(w, x) - (if Settled(w, x) then 0 else 1);
    && |a.replayed| <= a.joined <= end <= |w.accepted|
    && (!Settled(w, x) ==> LeftAt(w, x) == |w.accepted|)
    && a.replayed == w.accepted[a.joined - |a.replayed|..a.joined]
    && a.offered == w.accepted[a.joined - |a.replayed|..end]
    && a.joined - |a.replayed| == Cut(Evicted(w.cap, a.joined), a.joined, a.fromSeq)
  }

  ghost predicate SoloInv(w: World) {
    Inv(w) && CountOk(w) && forall x | x in w.accounts :: StretchOk(w, x)
  }

  lemma {:induction false} FromSnoc(history: seq<Event>, e: Event, fromSeq: nat)
    ensures From(history + [e], fromSeq) == From(history, fromSeq) + (if e.num < fromSeq then [] else [e])
  {
    assert (history + [e])[..|history + [e]| - 1] == history;
  }

  lemma {:induction false} FromNothing(fromSeq: nat)
    ensures From([], fromSeq) == []
  {}

  /** On a ring numbered without gaps the replay is the stretch from `fromSeq` on. */
  lemma {:induction false} FromStretch(accepted: seq<Event>, low: nat, high: nat, fromSeq: nat)
    requires low <= high <= |accepted| && forall i | 0 <= i < |accepted| :: accepted[i].num == i + 1
    ensures From(accepted[low..high], fromSeq) == accepted[Cut(low, high, fromSeq)..high]
    decreases high - low
  {
    hide From;
    if low == high {
      FromNothing(fromSeq);
    } else {
      var last := accepted[high - 1];
      FromStretch(accepted, low, high - 1, fromSeq);
      FromSnoc(accepted[low..high - 1], last, fromSeq);
      assert accepted[low..high - 1] + [last] == accepted[low..high];
      var c := Cut(low, high, fromSeq);
      if last.num >= fromSeq { assert accepted[c..high - 1] + [last] == accepted[c..high]; }
    }
  }

  lemma {:induction false} CountStep(w: World, a: Action)
    requires Inv(w) && CountOk(w) && Enabled(w, a) && (a.Draw? ==> w.emits == map[])
    ensures CountOk(Next(w, a))
  {
    hide Inv, CountOk;
    if a.Draw? { DrawCount(w, a); } else if a.Accept? { AcceptCount(w, a.num); } else { SameWaiting(w, Next(w, a)); }
  }

  lemma {:induction false} DrawCount(w: World, a: Action)
    requires CountOk(w) && a.Draw? && w.emits == map[]
    ensures CountOk(Next(w, a))
  {
    assert w.st.lastSeq + 1 in Next(w, a).emits;
  }

  lemma {:induction false} SameWaiting(w: World, v: World)
    requires CountOk(w) && v.accepted == w.accepted && v.st.lastSeq == w.st.lastSeq && (v.st.finished || !w.st.finished)
    requires v.emits.Keys <= w.emits.Keys
    requires forall k | k in v.emits :: v.emits[k].phase.Sending? == w.emits[k].phase.Sending?
    requires forall k | k in w.emits && k !in v.emits :: w.emits[k].phase.Sending?
    ensures CountOk(v)
  {
    if k :| k in w.emits && w.emits[k].phase.Waiting? { assert k in v.emits; }
  }

  lemma {:induction false} AcceptCount(w: World, k: nat)
    requires CountOk(w) && Enabled(w, Accept(k))
    ensures CountOk(Next(w, Accept(k)))
  {
    var v := Next(w, Accept(k));
    if !w.st.finished {
      assert k == |w.accepted| + 1;
    }
  }

  lemma {:induction false} StretchFrame(w: World, v: World, x: SubId)
    requires x in w.accounts && StretchOk(w, x) && x in v.accounts && v.accepted == w.accepted && v.cap == w.cap
    requires var a, b := w.accounts[x], v.accounts[x];
             b.joined == a.joined && b.replayed == a.replayed && b.offered == a.offered && b.fromSeq == a.fromSeq
    requires LeftAt(v, x) == LeftAt(w, x) && (Settled(v, x) <==> Settled(w, x))
    ensures StretchOk(v, x)
  {
    hide Settled;
  }

  lemma {:induction false} AcceptStretch(w: World, k: nat, x: SubId)
    requires Inv(w) && CountOk(w) && Enabled(w, Accept(k)) && !w.st.finished && x in w.accounts && StretchOk(w, x)
    ensures StretchOk(Next(w, Accept(k)), x)
  {
    hide Inv, CountOk, Settled, AccountOk;
    var v := Next(w, Accept(k));
    RegisteredHasNotLeft(w, x);
    OnlyOneInFlight(w, k, x);
    var a := w.accounts[x];
    var low := a.joined - |a.replayed|;
    assert w.accepted[low..LeftAt(w, x)] == v.accepted[low..LeftAt(w, x)];
    assert w.accepted[low..a.joined] == v.accepted[low..a.joined];
  }

  lemma {:induction false} OnlyOneInFlight(w: World, k: nat, x: SubId)
    requires CountOk(w) && Enabled(w, Accept(k)) && !w.st.finished
    ensures Settled(w, x) && (Settled(Next(w, Accept(k)), x) <==> x !in w.st.subs)
  {
    var v := Next(w, Accept(k));
    assert k in v.emits;
  }

  lemma {:induction false} SentIsNewest(w: World, k: nat, x: SubId)
    requires Inv(w) && CountOk(w) && Enabled(w, Send(k, x))
    ensures !Settled(w, x) && Settled(Next(w, Send(k, x)), x)
    ensures |w.accepted| > 0 && Event(k, w.emits[k].payload) == w.accepted[|w.accepted| - 1]
  {
    hide RingOk, TokensOk, AccountsOk;
    var e := Event(k, w.emits[k].payload);
    assert e in w.accepted;
  }

  lemma {:induction false} SendStretch(w: World, k: nat, x: SubId)
    requires Inv(w) && CountOk(w) && Enabled(w, Send(k, x)) && StretchOk(w, x)
    ensures StretchOk(Next(w, Send(k, x)), x)
  {
    hide Inv, CountOk, Settled;
    var v := Next(w, Send(k, x));
    SentIsNewest(w, k, x);
    var e := Event(k, w.emits[k].payload);
    var n := |w.accepted|;
    var low := w.accounts[x].joined - |w.accounts[x].replayed|;
    assert w.accepted[low..n - 1] + [e] == w.accepted[low..n];
  }

  lemma {:induction false} RingStretch(w: World)
    requires Inv(w) && CountOk(w)
    ensures |w.st.history| <= |w.accepted| && |w.accepted| - |w.st.history| == Evicted(w.cap, |w.accepted|)
    ensures w.st.history == w.accepted[|w.accepted| - |w.st.history|..|w.accepted|]
    ensures forall i | 0 <= i < |w.accepted| :: w.accepted[i].num == i + 1
  {
    hide NumbersOk, TokensOk, AccountsOk;
  }

  lemma {:induction false} SubscribeStretch(w: World, x: SubId, fromSeq: nat, bufSize: int)
    requires Inv(w) && CountOk(w) && Enabled(w, Subscribe(x, fromSeq, bufSize))
    ensures StretchOk(Next(w, Subscribe(x, fromSeq, bufSize)), x)
  {
    hide Inv, CountOk, Settled, From;
    var v := Next(w, Subscribe(x, fromSeq, bufSize));
    RingStretch(w);
    NewIsSettled(w, x, fromSeq, bufSize);
    var n := |w.accepted|;
    var low := n - |w.st.history|;
    FromStretch(w.accepted, low, n, fromSeq);
  }

  lemma {:induction false} NewIsSettled(w: World, x: SubId, fromSeq: nat, bufSize: int)
    requires Inv(w) && Enabled(w, Subscribe(x, fromSeq, bufSize))
    ensures Settled(Next(w, Subscribe(x, fromSeq, bufSize)), x)
  {
    hide NumbersOk, TokensOk, AccountOk;
  }

  lemma {:induction false} StretchStep(w: World, a: Action, x: SubId)
    requires SoloInv(w) && Enabled(w, a) && (a.Draw? ==> w.emits == map[]) && x in Next(w, a).accounts
    ensures StretchOk(Next(w, a), x)
  {
    hide StretchOk, CountOk, Inv, Next, Settled;
    if a.Accept? && !w.st.finished { AcceptedBefore(w, a, x); AcceptStretch(w, a.num, x); }
    else if a.Send? && a.to == x { SendStretch(w, a.num, x); }
    else if a.Subscribe? && a.x == x { SubscribeStretch(w, x, a.fromSeq, a.bufSize); }
    else { QuietStretch(w, a, x); }
  }

  lemma {:induction false} AcceptedBefore(w: World, a: Action, x: SubId)
    requires Enabled(w, a) && a.Accept? && x in Next(w, a).accounts
    ensures x in w.accounts
  {}

  lemma {:induction false} QuietStretch(w: World, a: Action, x: SubId)
    requires SoloInv(w) && Enabled(w, a) && (a.Draw? ==> w.emits == map[]) && x in Next(w, a).accounts
    requires (a.Accept? ==> w.st.finished) && !(a.Send? && a.to == x) && !(a.Subscribe? && a.x == x)
    ensures StretchOk(Next(w, a), x)
  {
    hide StretchOk, CountOk, Inv, Settled;
    LeftSame(w, a, x);
    SettledSame(w, a, x);
    StretchFrame(w, Next(w, a), x);
  }

  lemma {:induction false} LeftSame(w: World, a: Action, x: SubId)
    requires Inv(w) && Enabled(w, a) && x in w.accounts && (a.Accept? ==> w.st.finished)
    requires !(a.Subscribe? && a.x == x)
    ensures x in Next(w, a).accounts && LeftAt(Next(w, a), x) == LeftAt(w, x)
  {
    hide Inv, Due, Pending, AccountOk;
    RegisteredHasNotLeft(w, x);
  }

  lemma {:induction false} RegisteredHasNotLeft(w: World, x: SubId)
    requires Inv(w) && x in w.accounts
    ensures w.accounts[x].left.None? <==> x in w.st.subs
  {
    hide Due, Pending, NumbersOk, TokensOk, RingOk;
    assert AccountOk(w, x);
  }

  lemma {:induction false} SettledSame(w: World, a: Action, x: SubId)
    requires Enabled(w, a) && (a.Draw? ==> w.emits == map[]) && (a.Accept? ==> w.st.finished) && (a.Send? ==> a.to != x)
    ensures Settled(Next(w, a), x) <==> Settled(w, x)
  {
    var v := Next(w, a);
    if !Settled(w, x) {
      var k :| k in w.emits && w.emits[k].phase.Sending? && x in w.emits[k].phase.remaining;
      assert k in v.emits;
    }
  }

  lemma {:induction false} SoloKeepsInv(cap: nat, run: seq<Action>)
    requires cap > 0 && Solo(cap, run) && Play(Init(cap), run).Some?
    ensures SoloInv(Play(Init(cap), run).value)
  {
    hide Inv, CountOk, StretchOk, Next, Enabled;
    RunsKeepInv(cap, run);
    if run == [] {
      StartCount(cap);
    } else {
      var before := run[..|run| - 1];
      SoloKeepsInv(cap, before);
      var w, a := Play(Init(cap), before).value, run[|run| - 1];
      CountStep(w, a);
      forall x | x in Next(w, a).accounts ensures StretchOk(Next(w, a), x) { StretchStep(w, a, x); }
    }
  }

  lemma {:induction false} StartCount(cap: nat)
    ensures CountOk(Init(cap))
  {}

  ghost predicate OffersStretch(w: World, cap: nat, x: SubId)
    requires x in w.accounts
  {
    var a := w.accounts[x];
    && a.joined <= LeftAt(w, x) <= |w.accepted|
    && (Settled(w, x) ==> a.offered == w.accepted[Cut(Evicted(cap, a.joined), a.joined, a.fromSeq)..LeftAt(w, x)])
  }

  lemma {:induction false} StretchOffers(w: World, x: SubId)
    requires x in w.accounts && StretchOk(w, x)
    ensures OffersStretch(w, w.cap, x)
  {
    hide Settled;
  }

  /**
    One emitter: once settled, a subscriber was offered the whole stretch of events that starts at
    `fromSeq` or, if that was evicted, at the oldest event of the ring.
   */
  lemma {:induction false} SoloOffersStretch(cap: nat, run: seq<Action>, x: SubId)
    requires cap > 0 && Solo(cap, run) && Play(Init(cap), run).Some? && x in Play(Init(cap), run).value.accounts
    ensures var w := Play(Init(cap), run).value;
            (forall i | 0 <= i < |w.accepted| :: w.accepted[i].num == i + 1) && OffersStretch(w, cap, x)
  {
    hide Inv, StretchOk, OffersStretch;
    SoloKeepsInv(cap, run);
    CapFixed(cap, run);
    StretchOffers(Play(Init(cap), run).value, x);
  }

  lemma {:induction false} StretchStartsAt(w: World, x: SubId)
    requires x in w.accounts && StretchOk(w, x) && w.accounts[x].fromSeq <= w.accounts[x].joined + 1
    requires forall i | 0 <= i < |w.accepted| :: w.accepted[i].num == i + 1
    ensures forall e | e in w.accounts[x].offered :: e.num >= w.accounts[x].fromSeq
  {
    hide Settled;
    var a := w.accounts[x];
    var low := a.joined - |a.replayed|;
    forall i | 0 <= i < |a.offered|
      ensures a.offered[i].num >= a.fromSeq
    {
      assert a.offered[i] == w.accepted[low + i];
    }
  }

  /** Resuming from the number after the last one received repeats nothing. */
  lemma {:induction false} SoloResumeRepeatsNothing(cap: nat, run: seq<Action>, x: SubId)
    requires cap > 0 && Solo(cap, run) && Play(Init(cap), run).Some? && x in Play(Init(cap), run).value.accounts
    requires Play(Init(cap), run).value.accounts[x].fromSeq <= Play(Init(cap), run).value.accounts[x].joined + 1
    ensures var a := Play(Init(cap), run).value.accounts[x];
            forall e | e in a.offered :: e.num >= a.fromSeq
  {
    hide Inv, StretchOk;
    SoloKeepsInv(cap, run);
    StretchStartsAt(Play(Init(cap), run).value, x);
  }

  ghost predicate Increasing(s: seq<Event>) {
    forall i, j | 0 <= i < j < |s| :: s[i].num < s[j].num
  }

  lemma {:induction false} SubSeqIncreasing(a: seq<Event>, b: seq<Event>)
    requires SubSeq(a, b) && Increasing(b)
    ensures Increasing(a) && forall e | e in a :: e in b
    decreases |b|
  {
    if a != [] {
      var c := b[..|b| - 1];
      assert b == c + [b[|b| - 1]];
      if SubSeq(a, c) {
        SubSeqIncreasing(a, c);
      } else {
        SubSeqIncreasing(a[..|a| - 1], c);
        forall i | 0 <= i < |a| - 1 ensures a[i].num < a[|a| - 1].num { assert a[i] in a[..|a| - 1]; }
      }
    }
  }

  predicate Between(d: seq<Event>, i: nat, n: nat)
    requires i < |d| - 1
  {
    d[i].num < n < d[i + 1].num
  }

  /** The event numbered `n` was offered and is not among the delivered ones. */
  ghost predicate Dropped(offered: seq<Event>, delivered: seq<Event>, n: nat) {
    (exists e :: e in offered && e.num == n) && (forall e | e in delivered :: e.num != n)
  }

  /**
    One emitter: what a subscriber is delivered comes in strictly increasing order, and every number
    missing between two deliveries is that of an event that was offered to it and dropped.
   */
  lemma {:induction false} SoloGapsAreDrops(cap: nat, run: seq<Action>, x: SubId)
    requires cap > 0 && Solo(cap, run) && Play(Init(cap), run).Some? && x in Play(Init(cap), run).value.accounts
    ensures var w := Play(Init(cap), run).value;
            && x in w.st.chans && Increasing(Delivered(w, x))
            && forall i: nat, n: nat | i < |Delivered(w, x)| - 1 && Between(Delivered(w, x), i, n) ::
                 Dropped(w.accounts[x].offered, Delivered(w, x), n)
  {
    hide Inv, Settled, SubSeq, Events;
    SoloKeepsInv(cap, run);
    DeliveredIsSubSeq(cap, run);
    var w := Play(Init(cap), run).value;
    assert StretchOk(w, x);
    var a, d := w.accounts[x], Delivered(w, x);
    StretchNumbers(w, x);
    SubSeqIncreasing(d, a.offered);
    hide StretchOk, CountOk;
    forall i: nat, n: nat | i < |d| - 1 && Between(d, i, n) ensures Dropped(a.offered, d, n) {
      GapDropped(d, a.offered, i, n);
    }
  }

  ghost predicate Consecutive(s: seq<Event>) {
    forall i | 0 <= i < |s| :: s[i].num == s[0].num + i
  }

  lemma {:induction false} StretchNumbers(w: World, x: SubId)
    requires x in w.accounts && StretchOk(w, x) && forall i | 0 <= i < |w.accepted| :: w.accepted[i].num == i + 1
    ensures Consecutive(w.accounts[x].offered) && Increasing(w.accounts[x].offered)
  {
    hide Settled;
    var a := w.accounts[x];
    var low: nat := a.joined - |a.replayed|;
    assert forall i | 0 <= i < |a.offered| :: a.offered[i] == w.accepted[low + i];
    assert forall i | 0 <= i < |a.offered| :: a.offered[i].num == low + i + 1;
  }

  lemma {:induction false} GapDropped(d: seq<Event>, offered: seq<Event>, i: nat, n: nat)
    requires Increasing(d) && Consecutive(offered) && (forall e | e in d :: e in offered)
    requires i < |d| - 1 && Between(d, i, n)
    ensures Dropped(offered, d, n)
  {
    assert d[i] in d && d[i + 1] in d;
    var k :| 0 <= k < |offered| && offered[k] == d[i];
    var l :| 0 <= l < |offered| && offered[l] == d[i + 1];
    assert offered[n - offered[0].num].num == n;
    forall e | e in d ensures e.num != n {
      var m :| 0 <= m < |d| && d[m] == e;
      if m <= i { assert d[m].num <= d[i].num; } else { assert d[m].num >= d[i + 1].num; }
    }
  }

  // ----- several emitters, and the end marker: two promises of the comments that do not hold

  predicate SameWorld(w: World, v: World) {
    && w.cap == v.cap && w.accepted == v.accepted && w.emits == v.emits && w.closers == v.closers
    && w.late == v.late && w.accounts == v.accounts && w.st.lastSeq == v.st.lastSeq && w.st.history == v.st.history
    && w.st.subs == v.st.subs && w.st.finished == v.st.finished && w.st.chans == v.st.chans
  }

  lemma {:induction false} Extend(run: seq<Action>, w: World, a: Action, after: World) returns (longer: seq<Action>)
    requires Play(Init(10), run) == Some(w) && Enabled(w, a) && SameWorld(Next(w, a), after)
    ensures Play(Init(10), longer) == Some(after)
  {
    longer := run + [a];
    assert longer[..|longer| - 1] == run;
  }

  const A := Event(1, "a")
  const B := Event(2, "b")

  function Buffered(items: seq<Item>): Chan {
    Chan(256, items, false)
  }

  const BLANK := Account(0, 0, None, [], [], [], 0)
  const JOINED := World(Stream(0, [], {0}, false, map[0 := Buffered([])]), 10, [], map[], map[], {}, map[0 := BLANK])
  const DRAWN := JOINED.(st := JOINED.st.(lastSeq := 2), emits := map[1 := Emit("a", Waiting), 2 := Emit("b", Waiting)])
  const OVERTAKEN := DRAWN.(st := DRAWN.st.(history := [B]), accepted := [B],
                            emits := map[1 := Emit("a", Waiting), 2 := Emit("b", Sending({0}))])
  const RECEIVED := OVERTAKEN.(emits := map[1 := Emit("a", Waiting), 2 := Emit("b", Sending({}))],
                               accounts := map[0 := BLANK.(offered := [B], received := [Live(B)])])

  lemma {:induction false} PlayJoined() returns (run: seq<Action>)
    ensures Play(Init(10), run) == Some(JOINED)
  {
    run := [];
    assert Play(Init(10), run) == Some(Init(10));
    hide Play;
    run := Extend(run, Init(10), Subscribe(0, 0, 0), JOINED);
  }

  lemma {:induction false} PlayDrawn() returns (run: seq<Action>)
    ensures Play(Init(10), run) == Some(DRAWN)
  {
    hide Play;
    run := PlayJoined();
    var w := JOINED.(st := JOINED.st.(lastSeq := 1), emits := map[1 := Emit("a", Waiting)]);
    run := Extend(run, JOINED, Draw("a"), w);
    run := Extend(run, w, Draw("b"), DRAWN);
  }

  /** The emitter that drew the second number gets through first, and the client receives its event. */
  lemma {:induction false} PlayReceived() returns (run: seq<Action>)
    ensures Play(Init(10), run) == Some(RECEIVED)
  {
    hide Play;
    run := PlayDrawn();
    run := Extend(run, DRAWN, Accept(2), OVERTAKEN);
    var w := OVERTAKEN.(st := OVERTAKEN.st.(chans := map[0 := Buffered([Live(B)])]), emits := RECEIVED.emits,
                        accounts := map[0 := BLANK.(offered := [B])]);
    assert [] + [Live(B)] == [Live(B)] && [] + [B] == [B] && {0 as SubId} - {0} == {};
    run := Extend(run, OVERTAKEN, Send(2, 0), w);
    assert [Live(B)][1..] == [];
    run := Extend(run, w, Receive(0), RECEIVED);
  }

  /**
    The numbers of a run are documented to be a monotone stream a client may resume from.  With two
    emitters the second number can be accepted first; a client that saw it and resumes from the next
    number never gets event 1, although it stayed in the ring all the time.
   */
  lemma {:induction false} ResumeCanLoseEvent() returns (run: seq<Action>, w: World)
    ensures Play(Init(10), run) == Some(w) && w.st.history == [B, A]
    ensures w.accounts.Keys == {0, 1} && w.accounts[1].fromSeq == 3
    ensures w.accounts[0].received == [Live(B)] && w.accounts[0].left.Some?
    ensures forall x | x in w.accounts :: Settled(w, x) && A !in w.accounts[x].offered
  {
    hide Play;
    run := PlayReceived();
    var gone := Account(0, 0, Some(1), [], [B], [Live(B)], 1);
    var w6 := RECEIVED.(st := RECEIVED.st.(subs := {}, chans := map[0 := Chan(256, [], true)]),
        accounts := map[0 := gone]);
    run := Extend(run, RECEIVED, Cancel(0), w6);
    var w7 := w6.(st := w6.st.(history := [B, A]), accepted := [B, A],
                  emits := map[1 := Emit("a", Sending({})), 2 := Emit("b", Sending({}))]);
    run := Extend(run, w6, Accept(1), w7);
    NothingToReplay();
    w := w7.(st := w7.st.(subs := {1}, chans := map[0 := Chan(256, [], true), 1 := Buffered([])]),
             accounts := map[0 := gone, 1 := Account(3, 2, None, [], [], [], 0)]);
    run := Extend(run, w7, Subscribe(1, 3, 0), w);
  }

  lemma {:induction false} NothingToReplay()
    ensures From([B, A], 3) == []
  {
    assert [B, A][..|[B, A]| - 1] == [B];
    assert [B][..|[B]| - 1] == [];
    assert From([B], 3) == [];
  }

  const CAUGHT := JOINED.(st := JOINED.st.(lastSeq := 1, history := [A]), accepted := [A],
                          emits := map[1 := Emit("a", Sending({0}))])
  const ENDED := CAUGHT.(st := CAUGHT.st.(finished := true, subs := {}, chans := map[0 := Buffered([Eof])]),
                         closers := map[0 := true], accounts := map[0 := BLANK.(left := Some(1))])

  /** FinishRun comes between an Emit's capture of its subscribers and its sends. */
  lemma {:induction false} PlayEnded() returns (run: seq<Action>)
    ensures Play(Init(10), run) == Some(ENDED)
  {
    hide Play;
    run := PlayJoined();
    var w1 := JOINED.(st := JOINED.st.(lastSeq := 1), emits := map[1 := Emit("a", Waiting)]);
    run := Extend(run, JOINED, Draw("a"), w1);
    run := Extend(run, w1, Accept(1), CAUGHT);
    var w3 := ENDED.(st := ENDED.st.(chans := CAUGHT.st.chans), closers := map[0 := false]);
    run := Extend(run, CAUGHT, Finish, w3);
    assert [] + [Eof] == [Eof];
    run := Extend(run, w3, SendEof(0, false), ENDED);
  }

  /**
    A subscriber handed to the closer is documented to be skipped by Emit.  The mark is never read: an
    Emit that captured the subscriber before FinishRun can still put its event behind the end marker.
   */
  lemma {:induction false} EventCanFollowEof() returns (run: seq<Action>, w: World)
    ensures Play(Init(10), run) == Some(w)
    ensures 0 in w.st.chans && w.st.chans[0].buffer == [Eof, Live(A)] && 0 in w.closers
  {
    hide Play;
    run := PlayEnded();
    w := ENDED.(st := ENDED.st.(chans := map[0 := Buffered([Eof, Live(A)])]), emits := map[1 := Emit("a", Sending({}))],
                accounts := map[0 := BLANK.(left := Some(1), offered := [A])]);
    assert [Eof] + [Live(A)] == [Eof, Live(A)] && [] + [A] == [A] && {0 as SubId} - {0} == {};
    run := Extend(run, ENDED, Send(1, 0), w);
  }
}
