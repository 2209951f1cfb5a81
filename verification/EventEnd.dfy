/**
  The end marker of a stream.  FinishRun detaches the subscribers and a closer sends each of them the
  marker; whether an event can still come behind it depends on the state FinishRun found.
 */
module EventEnd {
  import opened EventBus
  import opened EventOrder
  import opened Wrappers

  /** Everything the subscriber took out of its channel or may still take out, in order. */
  function Stream(w: World, x: SubId): seq<Item>
    requires x in w.accounts && x in w.st.chans
  {
    w.accounts[x].received + w.st.chans[x].buffer
  }

  ghost predicate EventBehindEof(items: seq<Item>) {
    exists i, j :: 0 <= i < j < |items| && items[i].Eof? && items[j].Live?
  }

  ghost predicate NoEof(items: seq<Item>) {
    forall i | 0 <= i < |items| :: items[i].Live?
  }

  // ----- before FinishRun

  /** A registered subscriber has not been sent the marker, and every channel can hold an item. */
  ghost predicate OpenOk(w: World) {
    && (forall x | x in w.st.subs && x in w.accounts && x in w.st.chans :: NoEof(Stream(w, x)))
    && (forall x | x in w.st.chans :: w.st.chans[x].cap > 0)
  }

  lemma {:induction false} StreamQuiet(w: World, a: Action, x: SubId)
    requires Inv(w) && Enabled(w, a) && x in Next(w, a).accounts
    requires !(a.Send? && a.to == x) && !((a.SendEof? || a.Subscribe?) && a.x == x)
    ensures x in w.accounts && x in w.st.chans && x in Next(w, a).st.chans && Stream(Next(w, a), x) == Stream(w, x)
  {
    hide NumbersOk, RingOk, AccountsOk, From, Items, Offer;
    if a.Receive? && a.x == x {
      var c := w.st.chans[x];
      assert [c.buffer[0]] + c.buffer[1..] == c.buffer;
    } else {
      hide Next, Enabled;
      QuietFields(w, a, x);
    }
  }

  lemma {:induction false} StreamSent(w: World, k: nat, x: SubId)
    requires Inv(w) && Enabled(w, Send(k, x))
    ensures var v := Next(w, Send(k, x));
            && x in v.accounts && x in v.st.chans
            && (Stream(v, x) == Stream(w, x) || Stream(v, x) == Stream(w, x) + [Live(Event(k, w.emits[k].payload))])
  {
    hide NumbersOk, RingOk, AccountsOk;
    var e := Live(Event(k, w.emits[k].payload));
    assert w.accounts[x].received + (w.st.chans[x].buffer + [e]) == Stream(w, x) + [e];
  }

  lemma {:induction false} StreamEnds(w: World, a: Action, x: SubId)
    requires Inv(w) && Enabled(w, a) && a.SendEof? && a.x == x
    ensures var v := Next(w, a);
            && x in v.accounts && x in v.st.chans
                && (Stream(v, x) == Stream(w, x) || Stream(v, x) == Stream(w, x) + [Eof])
  {
    hide NumbersOk, RingOk, AccountsOk;
    assert w.accounts[x].received + (w.st.chans[x].buffer + [Eof]) == Stream(w, x) + [Eof];
  }

  lemma {:induction false} CapsStep(w: World, a: Action)
    requires Enabled(w, a) && forall x | x in w.st.chans :: w.st.chans[x].cap > 0
    ensures forall x | x in Next(w, a).st.chans :: Next(w, a).st.chans[x].cap > 0
  {
    hide From, Items, Take;
  }

  lemma {:induction false} SubscribedNoEof(w: World, a: Action, x: SubId)
    requires Enabled(w, a) && a.Subscribe? && a.x == x
    ensures var v := Next(w, a); x in v.accounts && x in v.st.chans && NoEof(Stream(v, x))
  {
    hide From;
  }

  lemma {:induction false} EndingIsDetached(w: World, a: Action)
    requires Inv(w) && Enabled(w, a) && a.SendEof?
    ensures a.x !in Next(w, a).st.subs
  {
    hide NumbersOk, RingOk, AccountsOk, Offer;
  }

  lemma {:induction false} SubsBefore(w: World, a: Action, x: SubId)
    requires Enabled(w, a) && x in Next(w, a).st.subs && !(a.Subscribe? && a.x == x)
    ensures x in w.st.subs
  {
    hide From, Items, Take, Offer;
  }

  lemma {:induction false} NoEofStep(w: World, a: Action, x: SubId)
    requires Inv(w) && OpenOk(w) && Enabled(w, a)
    requires x in Next(w, a).st.subs && x in Next(w, a).accounts && x in Next(w, a).st.chans
    ensures NoEof(Stream(Next(w, a), x))
  {
    hide Inv, Next, Enabled, Stream;
    if a.Subscribe? && a.x == x {
      SubscribedNoEof(w, a, x);
    } else {
      SubsBefore(w, a, x);
      if a.SendEof? && a.x == x { EndingIsDetached(w, a); }
      else if a.Send? && a.to == x { SentTo(w, a.num, x); StreamSent(w, a.num, x); }
      else { StreamQuiet(w, a, x); }
    }
  }

  lemma {:induction false} SentTo(w: World, k: nat, x: SubId)
    requires Enabled(w, Send(k, x))
    ensures k in w.emits && x in w.accounts && x in w.st.chans
  {}

  lemma {:induction false} OpenStep(w: World, a: Action)
    requires Inv(w) && OpenOk(w) && Enabled(w, a)
    ensures OpenOk(Next(w, a))
  {
    CapsStep(w, a);
    hide Inv, NoEof, Next, Enabled;
    forall x | x in Next(w, a).st.subs && x in Next(w, a).accounts && x in Next(w, a).st.chans
      ensures NoEof(Stream(Next(w, a), x))
    {
      NoEofStep(w, a, x);
    }
  }

  lemma {:induction false} RunsKeepOpen(cap: nat, run: seq<Action>)
    requires cap > 0 && Play(Init(cap), run).Some?
    ensures OpenOk(Play(Init(cap), run).value)
  {
    hide Inv, OpenOk, Next, Enabled;
    if run == [] {
      StartOpen(cap);
    } else {
      var before := run[..|run| - 1];
      RunsKeepOpen(cap, before);
      RunsKeepInv(cap, before);
      OpenStep(Play(Init(cap), before).value, run[|run| - 1]);
    }
  }

  lemma {:induction false} StartOpen(cap: nat)
    ensures OpenOk(Init(cap))
  {}

  // ----- after FinishRun

  /** Detached, with no Emit left that has something for `x`. */
  ghost predicate Shut(w: World, x: SubId) {
    && x in w.accounts && x in w.st.chans && x !in w.st.subs && Settled(w, x)
    && !EventBehindEof(Stream(w, x))
  }

  lemma {:induction false} BehindPush(items: seq<Item>)
    requires !EventBehindEof(items)
    ensures !EventBehindEof(items + [Eof])
  {
    var longer := items + [Eof];
    forall i, j | 0 <= i < j < |longer| && longer[i].Eof? ensures !longer[j].Live? {
      if j < |items| { assert items[i].Eof?; }
    }
  }

  lemma {:induction false} SettledStep(w: World, a: Action, x: SubId)
    requires Inv(w) && Enabled(w, a) && Settled(w, x) && x in w.st.chans && x in w.accounts && x !in w.st.subs
    ensures Settled(Next(w, a), x) && x !in Next(w, a).st.subs
  {
    hide NumbersOk, RingOk, TokensOk, AccountsOk;
  }

  lemma {:induction false} ShutStep(w: World, a: Action, x: SubId)
    requires Inv(w) && Shut(w, x) && Enabled(w, a)
    ensures Shut(Next(w, a), x)
  {
    SettledStep(w, a, x);
    AccountStays(w, a, x);
    hide Inv, EventBehindEof, Stream, Next;
    if a.SendEof? && a.x == x {
      StreamEnds(w, a, x);
      BehindPush(Stream(w, x));
    } else if a.Send? && a.to == x {
      assert false;
    } else {
      StreamQuiet(w, a, x);
    }
  }

  lemma {:induction false} AccountStays(w: World, a: Action, x: SubId)
    requires Enabled(w, a) && x in w.accounts && x in w.st.chans
    ensures x in Next(w, a).accounts && x in Next(w, a).st.chans
  {}

  lemma {:induction false} ShutStays(w: World, run: seq<Action>, x: SubId)
    requires Inv(w) && Shut(w, x) && Play(w, run).Some?
    ensures Inv(Play(w, run).value) && Shut(Play(w, run).value, x)
  {
    hide Inv, Shut, Next, Enabled;
    if run != [] {
      var v := Play(w, run[..|run| - 1]).value;
      ShutStays(w, run[..|run| - 1], x);
      Step(v, run[|run| - 1]);
      ShutStep(v, run[|run| - 1], x);
    }
  }

  lemma {:induction false} FinishShuts(w: World, x: SubId)
    requires Inv(w) && OpenOk(w) && x in w.st.subs && Settled(w, x)
    ensures Shut(Next(w, Finish), x)
  {
    hide NumbersOk, RingOk, AccountsOk;
    assert Stream(Next(w, Finish), x) == Stream(w, x);
    assert NoEof(Stream(w, x));
  }

  // ----- an Emit still has something for the subscriber

  /** The subscriber takes out all there is. */
  lemma {:induction false} Drain(w: World, x: SubId) returns (run: seq<Action>, z: World)
    requires x in w.accounts && x in w.st.chans
    ensures Play(w, run) == Some(z) && z.emits == w.emits && z.closers == w.closers
    ensures x in z.accounts && x in z.st.chans && z.st.chans[x] == w.st.chans[x].(buffer := [])
  {
    run, z := [], w;
    while z.st.chans[x].buffer != []
      invariant Play(w, run) == Some(z) && z.emits == w.emits && z.closers == w.closers
      invariant x in z.accounts && x in z.st.chans && z.st.chans[x] == w.st.chans[x].(buffer := z.st.chans[x].buffer)
      decreases |z.st.chans[x].buffer|
    {
      assert (run + [Receive(x)])[..|run|] == run;
      run, z := run + [Receive(x)], Next(z, Receive(x));
    }
  }

  lemma {:induction false} PlayPush(w: World, run: seq<Action>, z: World, a: Action)
    requires Play(w, run) == Some(z) && Enabled(z, a)
    ensures Play(w, run + [a]) == Some(Next(z, a))
  {
    assert (run + [a])[..|run|] == run;
  }

  lemma {:induction false} PendingBreaks(w: World, x: SubId) returns (run: seq<Action>, z: World)
    requires x in w.accounts && x in w.st.chans && !w.st.chans[x].closed && w.st.chans[x].cap > 0
    requires x in w.closers && !w.closers[x] && !Settled(w, x)
    ensures Play(w, run) == Some(z) && x in z.accounts && x in z.st.chans && EventBehindEof(Stream(z, x))
  {
    hide Play;
    var k :| k in w.emits && w.emits[k].phase.Sending? && x in w.emits[k].phase.remaining;
    var z0;
    run, z0 := Drain(w, x);
    PlayPush(w, run, z0, SendEof(x, false));
    var z1 := Next(z0, SendEof(x, false));
    assert z1.st.chans[x].buffer == [Eof];
    PlayPush(w, run + [SendEof(x, false)], z1, Receive(x));
    var z2 := Next(z1, Receive(x));
    assert z2.accounts[x].received == z0.accounts[x].received + [Eof];
    PlayPush(w, run + [SendEof(x, false)] + [Receive(x)], z2, Send(k, x));
    z := Next(z2, Send(k, x));
    run := run + [SendEof(x, false)] + [Receive(x)] + [Send(k, x)];
    var n := |z0.accounts[x].received|;
    assert Stream(z, x)[n].Eof? && Stream(z, x)[n + 1].Live?;
  }

  /** However the run goes on, no event comes behind the end marker of `x`. */
  ghost predicate EofStaysLast(w: World, x: SubId) {
    forall run | Play(w, run).Some? ::
      var z := Play(w, run).value; x in z.accounts && x in z.st.chans && !EventBehindEof(Stream(z, x))
  }

  /**
    The comment on FinishRun promises that nothing follows the end marker.  For a subscriber that
    FinishRun detaches this holds, in all continuations, exactly if no Emit in flight still has an event
    for it at that moment.
   */
  lemma {:induction false} EofIsLastIff(cap: nat, run: seq<Action>, x: SubId)
    requires cap > 0 && Play(Init(cap), run).Some? && x in Play(Init(cap), run).value.st.subs
    ensures var w := Play(Init(cap), run).value; EofStaysLast(Next(w, Finish), x) <==> Settled(w, x)
  {
    hide NumbersOk, RingOk, AccountsOk, NoEof, Shut, Stream, EventBehindEof;
    var w := Play(Init(cap), run).value;
    var v := Next(w, Finish);
    RunsKeepInv(cap, run);
    RunsKeepOpen(cap, run);
    Step(w, Finish);
    if Settled(w, x) {
      FinishShuts(w, x);
      forall cont | Play(v, cont).Some?
        ensures var z := Play(v, cont).value; x in z.accounts && x in z.st.chans && !EventBehindEof(Stream(z, x))
      {
        ShutStays(v, cont, x);
        ShutIs(Play(v, cont).value, x);
      }
    } else {
      var cont, z := PendingBreaks(v, x);
    }
  }

  lemma {:induction false} ShutIs(w: World, x: SubId)
    requires Shut(w, x)
    ensures x in w.accounts && x in w.st.chans && !EventBehindEof(Stream(w, x))
  {}
}
