/**
  One run's stream on the event bus of internal/extractor/events/bus.go, under every interleaving.

  `Stream` is what the source keeps in a runState and its channels; the functions on it are the
  pieces of code that run without interference: a section under the run's mutex, the atomic
  counter, one channel operation.  `World` adds the goroutines that are in flight and the books the
  theorems are about.  The class `RunState` is the source's object, proved against the functions.
 */
module EventBus {
  import opened Wrappers

  type SubId = nat

  datatype Event = Event(num: nat, payload: string)

  /** What travels through a subscriber's channel. */
  datatype Item = Live(event: Event) | Eof

  datatype Chan = Chan(cap: nat, buffer: seq<Item>, closed: bool)

  datatype Stream = Stream(lastSeq: nat, history: seq<Event>, subs: set<SubId>, finished: bool, chans: map<SubId, Chan>)

  // ----- the atomic pieces

  function Suffix<T>(s: seq<T>, n: nat): seq<T> {
    if |s| <= n then s else s[|s| - n..]
  }

  function From(history: seq<Event>, fromSeq: nat): seq<Event> {
    if history == [] then []
    else
      var last := history[|history| - 1];
      From(history[..|history| - 1], fromSeq) + (if last.num < fromSeq then [] else [last])
  }

  function Items(events: seq<Event>): (r: seq<Item>)
    ensures |r| == |events| && forall i | 0 <= i < |r| :: r[i] == Live(events[i])
  {
    seq(|events|, i requires 0 <= i < |events| => Live(events[i]))
  }

  function Take<T>(s: seq<T>, n: nat): seq<T> {
    if |s| <= n then s else s[..n]
  }

  /** Emit, under the lock: append to the ring unless the run is finished. */
  function Append(st: Stream, e: Event, cap: nat): Stream {
    if st.finished then st else st.(history := Suffix(st.history + [e], cap))
  }

  /** A non-blocking send; on a closed channel the panic is swallowed. */
  function Offer(c: Chan, item: Item): Chan {
    if c.closed || |c.buffer| >= c.cap then c else c.(buffer := c.buffer + [item])
  }

  /** Subscribe, under the lock: register, and replay as much of the ring as the buffer holds. */
  function Join(st: Stream, x: SubId, fromSeq: nat, cap: nat): Stream {
    st.(subs := st.subs + {x}, chans := st.chans[x := Chan(cap, Take(Items(From(st.history, fromSeq)), cap), false)])
  }

  /** The cancel function and the delayed close of a late subscriber: close only if still registered. */
  function Leave(st: Stream, x: SubId): Stream {
    if x in st.subs && x in st.chans
    then st.(subs := st.subs - {x}, chans := st.chans[x := st.chans[x].(closed := true)])
    else st
  }

  /** FinishRun, under the lock. */
  function Detach(st: Stream): Stream {
    st.(finished := true, subs := {})
  }

  // ----- the goroutines and the books

  datatype Phase = Waiting | Sending(remaining: set<SubId>)

  /** An Emit call in flight; it is named by the sequence number it drew. */
  datatype Emit = Emit(payload: string, phase: Phase)

  /**
    The books on one subscriber: the ring and number of accepted events when it joined, the number
    when it left, everything ever offered to it, what it took out, and the closes of its channel.
   */
  datatype Account = Account(fromSeq: nat, joined: nat, left: Option<nat>, replayed: seq<Event>,
                             offered: seq<Event>, received: seq<Item>, closes: nat)

  datatype World = World(st: Stream, cap: nat, accepted: seq<Event>, emits: map<nat, Emit>,
                         closers: map<SubId, bool>, late: set<SubId>, accounts: map<SubId, Account>)

  datatype Action =
    | Draw(payload: string)              // Emit: the atomic counter
    | Accept(num: nat)                   // Emit: the locked section
    | Send(num: nat, to: SubId)          // Emit: one send
    | Return(num: nat)                   // Emit: no subscriber left
    | Subscribe(x: SubId, fromSeq: nat, bufSize: int)
    | Cancel(x: SubId)
    | LateClose(x: SubId)                // the delayed close of a subscriber of a finished run
    | Finish                             // FinishRun: the locked section
    | SendEof(x: SubId, timedOut: bool)  // finishSubscriber: the send or its timeout
    | CloseEof(x: SubId)                 // finishSubscriber: the close
    | Receive(x: SubId)                  // the consumer

  function Init(cap: nat): World {
    World(Stream(0, [], {}, false, map[]), cap, [], map[], map[], {}, map[])
  }

  predicate Enabled(w: World, a: Action) {
    match a
    case Draw(_) => true
    case Accept(k) => k in w.emits && w.emits[k].phase.Waiting?
    case Send(k, x) => k in w.emits && w.emits[k].phase.Sending? && x in w.emits[k].phase.remaining
                       && x in w.st.chans && x in w.accounts
    case Return(k) => k in w.emits && w.emits[k].phase == Sending({})
    case Subscribe(x, _, _) => x !in w.st.chans && x !in w.accounts
    case Cancel(x) => x in w.st.chans && x in w.accounts
    case LateClose(x) => x in w.late && x in w.st.chans && x in w.accounts
    case Finish => true
    case SendEof(x, timedOut) => x in w.closers && !w.closers[x] && x in w.st.chans && x in w.accounts
                                 && (timedOut || w.st.chans[x].closed || |w.st.chans[x].buffer| < w.st.chans[x].cap)
    case CloseEof(x) => x in w.closers && w.closers[x] && x in w.st.chans && x in w.accounts
    case Receive(x) => x in w.st.chans && x in w.accounts && w.st.chans[x].buffer != []
  }

  function BufCap(bufSize: int): nat {
    if bufSize <= 0 then 256 else bufSize
  }

  function LeaveAt(w: World, x: SubId): World
    requires x in w.st.chans && x in w.accounts
  {
    if x in w.st.subs
    then w.(st := Leave(w.st, x),
            accounts := w.accounts[x := w.accounts[x].(left := Some(|w.accepted|), closes := w.accounts[x].closes + 1)])
    else w
  }

  function Next(w: World, a: Action): World
    requires Enabled(w, a)
  {
    match a
    case Draw(payload) =>
      w.(st := w.st.(lastSeq := w.st.lastSeq + 1), emits := w.emits[w.st.lastSeq + 1 := Emit(payload, Waiting)])
    case Accept(k) =>
      var e := Event(k, w.emits[k].payload);
      if w.st.finished then w.(emits := w.emits - {k})
      else w.(st := Append(w.st, e, w.cap), accepted := w.accepted + [e],
              emits := w.emits[k := w.emits[k].(phase := Sending(w.st.subs))])
    case Send(k, x) =>
      var e := Event(k, w.emits[k].payload);
      w.(st := w.st.(chans := w.st.chans[x := Offer(w.st.chans[x], Live(e))]),
         emits := w.emits[k := w.emits[k].(phase := Sending(w.emits[k].phase.remaining - {x}))],
         accounts := w.accounts[x := w.accounts[x].(offered := w.accounts[x].offered + [e])])
    case Return(k) => w.(emits := w.emits - {k})
    case Subscribe(x, fromSeq, bufSize) =>
      var replay := From(w.st.history, fromSeq);
      w.(st := Join(w.st, x, fromSeq, BufCap(bufSize)),
         late := if w.st.finished then w.late + {x} else w.late,
         accounts := w.accounts[x := Account(fromSeq, |w.accepted|, None, replay, replay, [], 0)])
    case Cancel(x) => LeaveAt(w, x)
    case LateClose(x) => LeaveAt(w.(late := w.late - {x}), x)
    case Finish =>
      w.(st := Detach(w.st),
         closers := map x | x in w.closers.Keys + w.st.subs :: if x in w.st.subs then false else w.closers[x],
         accounts := map x | x in w.accounts ::
                       if x in w.st.subs then w.accounts[x].(left := Some(|w.accepted|)) else w.accounts[x])
    case SendEof(x, timedOut) =>
      if w.st.chans[x].closed && !timedOut then w.(closers := w.closers - {x})
      else w.(st := if timedOut then w.st else w.st.(chans := w.st.chans[x := Offer(w.st.chans[x], Eof)]),
              closers := w.closers[x := true])
    case CloseEof(x) =>
      w.(st := w.st.(chans := w.st.chans[x := w.st.chans[x].(closed := true)]),
         closers := w.closers - {x},
         accounts := w.accounts[x := w.accounts[x].(closes := w.accounts[x].closes + 1)])
    case Receive(x) =>
      var c := w.st.chans[x];
      w.(st := w.st.(chans := w.st.chans[x := c.(buffer := c.buffer[1..])]),
         accounts := w.accounts[x := w.accounts[x].(received := w.accounts[x].received + [c.buffer[0]])])
  }

  /** The world after a run of actions, if every one was enabled. */
  function Play(w: World, run: seq<Action>): Option<World> {
    if run == [] then Some(w)
    else
      match Play(w, run[..|run| - 1])
      case None => None
      case Some(v) => var a := run[|run| - 1]; if Enabled(v, a) then Some(Next(v, a)) else None
  }

  // ----- invariants of every interleaving

  /** Sequence numbers name events: those accepted, those being fanned out, and those still waiting. */
  ghost predicate NumbersOk(w: World) {
    && (forall i | 0 <= i < |w.accepted| :: 1 <= w.accepted[i].num <= w.st.lastSeq)
    && (forall i, j | 0 <= i < j < |w.accepted| :: w.accepted[i].num != w.accepted[j].num)
    && (forall k | k in w.emits :: 1 <= k <= w.st.lastSeq)
    && (forall k | k in w.emits && w.emits[k].phase.Waiting? ::
          forall i | 0 <= i < |w.accepted| :: w.accepted[i].num != k)
    && (forall k | k in w.emits && w.emits[k].phase.Sending? :: Event(k, w.emits[k].payload) in w.accepted)
  }

  /** The ring holds the newest accepted events, in the order of acceptance. */
  ghost predicate RingOk(w: World) {
    w.cap > 0 && w.st.history == Suffix(w.accepted, w.cap)
  }

  /** Being registered, or being handed to a closer, is the right to close; it is used at most once. */
  ghost predicate TokensOk(w: World) {
    && w.st.chans.Keys == w.accounts.Keys
    && w.st.subs <= w.st.chans.Keys && w.closers.Keys <= w.st.chans.Keys && w.st.subs !! w.closers.Keys
    && (forall x | x in w.accounts ::
          && w.accounts[x].closes <= 1
          && w.st.chans[x].closed == (w.accounts[x].closes == 1)
          && (w.accounts[x].closes == 0 <==> x in w.st.subs || x in w.closers))
  }

  ghost predicate DistinctNumbers(s: seq<Event>) {
    forall i, j | 0 <= i < j < |s| :: s[i].num != s[j].num
  }

  function LeftAt(w: World, x: SubId): nat
    requires x in w.accounts
  {
    if w.accounts[x].left.Some? then w.accounts[x].left.value else |w.accepted|
  }

  /** `e` was in the ring and recent enough when `x` joined, or was accepted while `x` was registered. */
  ghost predicate Due(w: World, x: SubId, e: Event)
    requires x in w.accounts
  {
    e in w.accounts[x].replayed || exists i ::
        w.accounts[x].joined <= i < LeftAt(w, x) && i < |w.accepted| && w.accepted[i] == e
  }

  /** An Emit in flight still has to send `e` to `x`. */
  predicate Pending(w: World, x: SubId, e: Event) {
    && e.num in w.emits && w.emits[e.num].payload == e.payload
    && w.emits[e.num].phase.Sending? && x in w.emits[e.num].phase.remaining
  }

  ghost predicate AccountOk(w: World, x: SubId)
    requires x in w.accounts
  {
    var a := w.accounts[x];
    && a.joined <= LeftAt(w, x) <= |w.accepted|
    && (a.left.None? <==> x in w.st.subs)
    && (forall i | 0 <= i < |a.replayed| :: a.replayed[i] in w.accepted[..a.joined])
    && DistinctNumbers(a.offered)
    && (forall e :: e in a.offered ==> !Pending(w, x, e))
    && (forall e :: e in a.offered || Pending(w, x, e) <==> Due(w, x, e))
  }

  ghost predicate AccountsOk(w: World) {
    && (forall x | x in w.accounts :: AccountOk(w, x))
    && (forall k | k in w.emits && w.emits[k].phase.Sending? :: w.emits[k].phase.remaining <= w.accounts.Keys)
  }

  ghost predicate Inv(w: World) {
    NumbersOk(w) && RingOk(w) && TokensOk(w) && AccountsOk(w)
  }

  lemma {:induction false} InitInv(cap: nat)
    requires cap > 0
    ensures Inv(Init(cap))
  {}

  lemma {:induction false} FromMember(history: seq<Event>, fromSeq: nat)
    ensures forall e :: e in From(history, fromSeq) <==> e in history && e.num >= fromSeq
  {
    if history != [] { FromMember(history[..|history| - 1], fromSeq); }
  }

  lemma {:induction false} FromDistinct(history: seq<Event>, fromSeq: nat)
    requires DistinctNumbers(history)
    ensures DistinctNumbers(From(history, fromSeq))
  {
    if history != [] {
      FromDistinct(history[..|history| - 1], fromSeq);
      FromMember(history[..|history| - 1], fromSeq);
    }
  }

  lemma {:induction false} DrawNumbers(w: World, payload: string)
    requires NumbersOk(w)
    ensures NumbersOk(Next(w, Draw(payload)))
  {}

  lemma {:induction false} AcceptNumbers(w: World, k: nat)
    requires NumbersOk(w) && Enabled(w, Accept(k))
    ensures NumbersOk(Next(w, Accept(k)))
  {
    if w.st.finished { NumbersFrame(w, Next(w, Accept(k))); } else { AppendNumbers(w, k); }
  }

  lemma {:induction false} AppendNumbers(w: World, k: nat)
    requires NumbersOk(w) && Enabled(w, Accept(k)) && !w.st.finished
    ensures NumbersOk(Next(w, Accept(k)))
  {
    var e := Event(k, w.emits[k].payload);
    var v := Next(w, Accept(k));
    assert v.accepted[|w.accepted|] == e;
    forall l | l in v.emits && v.emits[l].phase.Sending? ensures Event(l, v.emits[l].payload) in v.accepted {
      if l != k { assert Event(l, w.emits[l].payload) in w.accepted; }
    }
  }

  lemma {:induction false} SendNumbers(w: World, k: nat, x: SubId)
    requires NumbersOk(w) && Enabled(w, Send(k, x))
    ensures NumbersOk(Next(w, Send(k, x)))
  {}

  lemma {:induction false} NumbersStep(w: World, a: Action)
    requires NumbersOk(w) && Enabled(w, a)
    ensures NumbersOk(Next(w, a))
  {
    match a
    case Draw(p) => DrawNumbers(w, p);
    case Accept(k) => AcceptNumbers(w, k);
    case Send(k, x) => SendNumbers(w, k, x);
    case _ => NumbersFrame(w, Next(w, a));
  }

  lemma {:induction false} NumbersFrame(w: World, v: World)
    requires NumbersOk(w) && v.accepted == w.accepted && v.st.lastSeq == w.st.lastSeq
    requires v.emits.Keys <= w.emits.Keys && forall k | k in v.emits :: v.emits[k] == w.emits[k]
    ensures NumbersOk(v)
  {}

  lemma {:induction false} RingStep(w: World, a: Action)
    requires RingOk(w) && Enabled(w, a)
    ensures RingOk(Next(w, a))
  {
    if a.Accept? && !w.st.finished {
      var e := Event(a.num, w.emits[a.num].payload);
      assert Suffix(Suffix(w.accepted, w.cap) + [e], w.cap) == Suffix(w.accepted + [e], w.cap);
    }
  }

  lemma {:induction false} LeaveTokens(w: World, x: SubId)
    requires TokensOk(w) && x in w.accounts
    ensures TokensOk(LeaveAt(w, x))
  {}

  lemma {:induction false} FinishTokens(w: World)
    requires TokensOk(w)
    ensures TokensOk(Next(w, Finish))
  {}

  lemma {:induction false} CloserTokens(w: World, a: Action)
    requires TokensOk(w) && Enabled(w, a) && (a.SendEof? || a.CloseEof?)
    ensures TokensOk(Next(w, a))
  {}

  lemma {:induction false} SubscribeTokens(w: World, a: Action)
    requires TokensOk(w) && Enabled(w, a) && a.Subscribe?
    ensures TokensOk(Next(w, a))
  {}

  lemma {:induction false} BufferTokens(w: World, a: Action)
    requires TokensOk(w) && Enabled(w, a) && (a.Send? || a.Receive?)
    ensures TokensOk(Next(w, a))
  {}

  lemma {:induction false} TokensFrame(w: World, v: World)
    requires TokensOk(w) && v.accounts == w.accounts && v.closers == w.closers
    requires v.st.subs == w.st.subs && v.st.chans == w.st.chans
    ensures TokensOk(v)
  {}

  lemma {:induction false} TokensStep(w: World, a: Action)
    requires TokensOk(w) && Enabled(w, a)
    ensures TokensOk(Next(w, a))
  {
    hide TokensOk;
    match a
    case Subscribe(_, _, _) => SubscribeTokens(w, a);
    case Send(_, _) => BufferTokens(w, a);
    case Receive(_) => BufferTokens(w, a);
    case Cancel(x) => LeaveTokens(w, x);
    case LateClose(x) => LateTokens(w, x);
    case Finish => FinishTokens(w);
    case SendEof(_, _) => CloserTokens(w, a);
    case CloseEof(_) => CloserTokens(w, a);
    case _ => TokensFrame(w, Next(w, a));
  }

  lemma {:induction false} LateTokens(w: World, x: SubId)
    requires TokensOk(w) && x in w.accounts && x in w.st.chans
    ensures TokensOk(LeaveAt(w.(late := w.late - {x}), x))
  {
    hide TokensOk;
    TokensFrame(w, w.(late := w.late - {x}));
    LeaveTokens(w.(late := w.late - {x}), x);
  }

  // ----- the books

  lemma {:induction false} AccountFrame(w: World, v: World, x: SubId)
    requires x in w.accounts && AccountOk(w, x) && x in v.accounts && v.accepted == w.accepted
    requires var a, b := w.accounts[x], v.accounts[x];
             b.joined == a.joined && b.left == a.left && b.replayed == a.replayed && b.offered == a.offered
    requires x in v.st.subs <==> x in w.st.subs
    requires forall e :: Pending(v, x, e) <==> Pending(w, x, e)
    ensures AccountOk(v, x)
  {
    hide Pending;
    forall e ensures Due(v, x, e) <==> Due(w, x, e) {}
  }

  lemma {:induction false} DueAccepted(w: World, x: SubId, e: Event)
    requires x in w.accounts && AccountOk(w, x) && Due(w, x, e)
    ensures e in w.accepted
  {
    hide Pending;
    if e in w.accounts[x].replayed { assert e in w.accepted[..w.accounts[x].joined]; }
  }

  /** Accepting an event makes it due, and pending, for exactly the registered subscribers. */
  lemma {:induction false} AcceptAccount(w: World, k: nat, x: SubId)
    requires NumbersOk(w) && Enabled(w, Accept(k)) && !w.st.finished && x in w.accounts && AccountOk(w, x)
    ensures AccountOk(Next(w, Accept(k)), x)
  {
    var e := Event(k, w.emits[k].payload);
    var v := Next(w, Accept(k));
    var a := w.accounts[x];
    assert v.accepted[..a.joined] == w.accepted[..a.joined];
    forall f ensures Pending(v, x, f) <==> Pending(w, x, f) || (f == e && x in w.st.subs) {}
    forall f ensures Due(v, x, f) <==> Due(w, x, f) || (f == e && x in w.st.subs) {
      AcceptDue(w, k, x, f);
    }
    if e in a.offered || Due(w, x, e) {
      DueAccepted(w, x, e);
      assert false;
    }
  }

  lemma {:induction false} AcceptDue(w: World, k: nat, x: SubId, f: Event)
    requires NumbersOk(w) && Enabled(w, Accept(k)) && !w.st.finished && x in w.accounts && AccountOk(w, x)
    ensures Due(Next(w, Accept(k)), x, f) <==> Due(w, x, f) || (f == Event(k, w.emits[k].payload) && x in w.st.subs)
  {
    hide Pending, NumbersOk;
    var e := Event(k, w.emits[k].payload);
    var v := Next(w, Accept(k));
    var a := w.accounts[x];
    var n := |w.accepted|;
    assert v.accepted[n] == e;
    assert forall i | 0 <= i < n :: v.accepted[i] == w.accepted[i];
    if i :| a.joined <= i < LeftAt(w, x) && i < n && w.accepted[i] == f {
      assert v.accepted[i] == f;
    }
    if i :| a.joined <= i < LeftAt(v, x) && i < n + 1 && v.accepted[i] == f {
      if i < n { assert w.accepted[i] == f; }
    }
  }

  lemma {:induction false} AcceptedUnique(w: World, e: Event, f: Event)
    requires NumbersOk(w) && e in w.accepted && f in w.accepted && e.num == f.num
    ensures e == f
  {}

  lemma {:induction false} SendAccount(w: World, k: nat, x: SubId)
    requires NumbersOk(w) && Enabled(w, Send(k, x)) && AccountOk(w, x)
    ensures AccountOk(Next(w, Send(k, x)), x)
  {
    var e := Event(k, w.emits[k].payload);
    var v := Next(w, Send(k, x));
    assert Pending(w, x, e) && e in w.accepted;
    forall f ensures Pending(v, x, f) <==> Pending(w, x, f) && f != e {}
    forall f | f in w.accounts[x].offered ensures f.num != k {
      DueAccepted(w, x, f);
      if f.num == k { AcceptedUnique(w, e, f); }
    }
    hide Pending, NumbersOk;
    forall f ensures Due(v, x, f) <==> Due(w, x, f) {}
  }

  lemma {:induction false} LeaveAccount(w: World, y: SubId, x: SubId)
    requires y in w.st.chans && y in w.accounts && x in w.accounts && AccountOk(w, x)
    ensures AccountOk(LeaveAt(w, y), x)
  {
    var v := LeaveAt(w, y);
    forall e ensures Pending(v, x, e) <==> Pending(w, x, e) {}
    hide Pending;
    forall e ensures Due(v, x, e) <==> Due(w, x, e) {}
  }

  lemma {:induction false} FinishAccount(w: World, x: SubId)
    requires x in w.accounts && AccountOk(w, x)
    ensures AccountOk(Next(w, Finish), x)
  {
    var v := Next(w, Finish);
    forall e ensures Pending(v, x, e) <==> Pending(w, x, e) {}
    hide Pending;
    forall e ensures Due(v, x, e) <==> Due(w, x, e) {}
  }

  lemma {:induction false} SuffixIn<T>(s: seq<T>, n: nat)
    ensures forall e :: e in Suffix(s, n) ==> e in s
  {}

  lemma {:induction false} SubscribeAccount(w: World, x: SubId, fromSeq: nat, bufSize: int)
    requires Inv(w) && Enabled(w, Subscribe(x, fromSeq, bufSize))
    ensures AccountOk(Next(w, Subscribe(x, fromSeq, bufSize)), x)
  {
    hide AccountOk;
    var v := Next(w, Subscribe(x, fromSeq, bufSize));
    var replay := From(w.st.history, fromSeq);
    FromMember(w.st.history, fromSeq);
    SuffixIn(w.accepted, w.cap);
    assert DistinctNumbers(w.accepted) && DistinctNumbers(w.st.history);
    FromDistinct(w.st.history, fromSeq);
    assert w.accepted[..|w.accepted|] == w.accepted;
    assert forall e :: !Pending(w, x, e);
    NewAccount(v, x);
  }

  lemma {:induction false} NewAccount(v: World, x: SubId)
    requires x in v.accounts && v.accounts[x].left.None? && x in v.st.subs && v.accounts[x].joined == |v.accepted|
    requires v.accounts[x].replayed == v.accounts[x].offered && DistinctNumbers(v.accounts[x].offered)
    requires forall e | e in v.accounts[x].replayed :: e in v.accepted[..|v.accepted|]
    requires forall e :: !Pending(v, x, e)
    ensures AccountOk(v, x)
  {
    hide Pending;
  }

  lemma {:induction false} AccountsStep(w: World, a: Action)
    requires Inv(w) && Enabled(w, a)
    ensures AccountsOk(Next(w, a))
  {
    hide AccountOk, NumbersOk, RingOk, TokensOk;
    var v := Next(w, a);
    forall x | x in v.accounts ensures AccountOk(v, x) {
      AccountStep(w, a, x);
    }
    assert forall k | k in v.emits && v.emits[k].phase.Sending? :: v.emits[k].phase.remaining <= v.accounts.Keys by {
      SubsHaveAccounts(w);
    }
  }

  lemma {:induction false} SubsHaveAccounts(w: World)
    requires TokensOk(w)
    ensures w.st.subs <= w.accounts.Keys
  {}

  lemma {:induction false} AccountStep(w: World, a: Action, x: SubId)
    requires Inv(w) && Enabled(w, a) && x in Next(w, a).accounts
    ensures AccountOk(Next(w, a), x)
  {
    hide AccountOk, NumbersOk, RingOk, TokensOk;
    match a
    case Accept(k) => if w.st.finished { QuietStep(w, a, x); } else { AcceptAccount(w, k, x); }
    case Send(k, y) => if x == y { SendAccount(w, k, x); } else { QuietStep(w, a, x); }
    case Subscribe(y, fromSeq, bufSize) =>
      if x == y { SubscribeAccount(w, x, fromSeq, bufSize); } else { QuietStep(w, a, x); }
    case Cancel(y) => LeaveAccount(w, y, x);
    case LateClose(y) =>
      AccountFrame(w, w.(late := w.late - {y}), x);
      LeaveAccount(w.(late := w.late - {y}), y, x);
    case Finish => FinishAccount(w, x);
    case _ => QuietStep(w, a, x);
  }

  /** The steps that leave the books on `x` as they are. */
  lemma {:induction false} QuietStep(w: World, a: Action, x: SubId)
    requires Inv(w) && Enabled(w, a) && x in w.accounts
    requires a.Draw? || a.Return? || a.SendEof? || a.CloseEof? || a.Receive? || (a.Accept? && w.st.finished)
          || (a.Send? && a.to != x) || (a.Subscribe? && a.x != x)
    ensures x in Next(w, a).accounts && AccountOk(Next(w, a), x)
  {
    hide AccountOk, RingOk, TokensOk, AccountsOk, NumbersOk;
    var v := Next(w, a);
    if a.Draw? || a.Accept? { EmitQuiet(w, a, x); } else { SubscriberQuiet(w, a, x); }
    BooksFrame(w, x);
    AccountFrame(w, v, x);
  }

  lemma {:induction false} BooksFrame(w: World, x: SubId)
    requires AccountsOk(w) && x in w.accounts
    ensures AccountOk(w, x)
  {
    hide AccountOk;
  }

  lemma {:induction false} EmitQuiet(w: World, a: Action, x: SubId)
    requires NumbersOk(w) && Enabled(w, a) && (a.Draw? || (a.Accept? && w.st.finished))
    ensures forall e :: Pending(Next(w, a), x, e) <==> Pending(w, x, e)
  {}

  lemma {:induction false} SubscriberQuiet(w: World, a: Action, x: SubId)
    requires Enabled(w, a) && !a.Draw? && !a.Accept? && (a.Send? ==> a.to != x)
    ensures forall e :: Pending(Next(w, a), x, e) <==> Pending(w, x, e)
  {}

  lemma {:induction false} Step(w: World, a: Action)
    requires Inv(w) && Enabled(w, a)
    ensures Inv(Next(w, a))
  {
    hide NumbersOk, RingOk, TokensOk, AccountsOk;
    NumbersStep(w, a);
    RingStep(w, a);
    TokensStep(w, a);
    AccountsStep(w, a);
  }

  /** The invariant holds after every run of every length. */
  lemma {:induction false} RunsKeepInv(cap: nat, run: seq<Action>)
    requires cap > 0 && Play(Init(cap), run).Some?
    ensures Inv(Play(Init(cap), run).value)
  {
    hide Inv, Next, Enabled;
    if run == [] {
      InitInv(cap);
    } else {
      RunsKeepInv(cap, run[..|run| - 1]);
      Step(Play(Init(cap), run[..|run| - 1]).value, run[|run| - 1]);
    }
  }

  // ----- what the bus promises

  /** No Emit in flight still has something for `x`. */
  ghost predicate Settled(w: World, x: SubId) {
    forall k | k in w.emits && w.emits[k].phase.Sending? :: x !in w.emits[k].phase.remaining
  }

  /**
    After every run: no event was offered twice to a subscriber, by replay or by fan-out, and once no
    Emit has something left for it, it was offered exactly what was due.
   */
  lemma {:induction false} OfferedExactlyOnce(cap: nat, run: seq<Action>, x: SubId)
    requires cap > 0 && Play(Init(cap), run).Some?
    requires x in Play(Init(cap), run).value.accounts
    ensures var w := Play(Init(cap), run).value;
            && DistinctNumbers(w.accounts[x].offered)
            && (forall e | e in w.accounts[x].offered :: Due(w, x, e) && e in w.accepted)
            && (Settled(w, x) ==> forall e | Due(w, x, e) :: e in w.accounts[x].offered)
  {
    hide NumbersOk, RingOk, TokensOk;
    RunsKeepInv(cap, run);
    var w := Play(Init(cap), run).value;
    assert AccountOk(w, x);
    forall e | e in w.accounts[x].offered ensures e in w.accepted { DueAccepted(w, x, e); }
  }

  /**
    After every run each channel was closed at most once, and is open exactly as long as somebody may
    close it: whoever closes a channel, or sends the end marker, finds it open, so no close panics.
   */
  lemma {:induction false} ClosedAtMostOnce(cap: nat, run: seq<Action>, x: SubId)
    requires cap > 0 && Play(Init(cap), run).Some?
    requires x in Play(Init(cap), run).value.accounts
    ensures var w := Play(Init(cap), run).value;
            && x in w.st.chans && w.accounts[x].closes <= 1
            && (w.st.chans[x].closed <==> w.accounts[x].closes == 1)
            && (w.st.chans[x].closed <==> x !in w.st.subs && x !in w.closers)
  {
    hide NumbersOk, RingOk, AccountsOk;
    RunsKeepInv(cap, run);
  }

  /** After every run the ring is the newest part of what was accepted, in the order of acceptance. */
  lemma {:induction false} RingIsNewest(cap: nat, run: seq<Action>)
    requires cap > 0 && Play(Init(cap), run).Some?
    ensures var w := Play(Init(cap), run).value;
            && |w.st.history| == (if |w.accepted| < cap then |w.accepted| else cap)
            && w.st.history == w.accepted[|w.accepted| - |w.st.history|..]
  {
    hide NumbersOk, TokensOk, AccountsOk, Next, Enabled;
    RunsKeepInv(cap, run);
    CapFixed(cap, run);
    RingShape(Play(Init(cap), run).value);
  }

  lemma {:induction false} RingShape(w: World)
    requires RingOk(w)
    ensures |w.st.history| == (if |w.accepted| < w.cap then |w.accepted| else w.cap)
    ensures w.st.history == w.accepted[|w.accepted| - |w.st.history|..]
  {}

  lemma {:induction false} CapFixed(cap: nat, run: seq<Action>)
    requires Play(Init(cap), run).Some?
    ensures Play(Init(cap), run).value.cap == cap
  {
    hide Next, Enabled;
    if run != [] {
      CapFixed(cap, run[..|run| - 1]);
      NextCap(Play(Init(cap), run[..|run| - 1]).value, run[|run| - 1]);
    }
  }

  lemma {:induction false} NextCap(w: World, a: Action)
    requires Enabled(w, a)
    ensures Next(w, a).cap == w.cap
  {}

  // ----- the source's object

  /** One entry of the bus; every method body runs under the run's mutex, but for `NextSeq` and `SafeSend`. */
  class RunState {
    const historyCap: nat
    var lastSeq: nat
    var history: seq<Event>
    var subs: set<SubId>
    var finished: bool
    var chans: map<SubId, Chan>

    ghost predicate Valid()
      reads this
    {
      0 < historyCap && |history| <= historyCap && subs <= chans.Keys
    }

    ghost function Model(): Stream
      reads this
    {
      Stream(lastSeq, history, subs, finished, chans)
    }

    /** `historySize` not above zero stands for the default of the bus. */
    constructor (historySize: int)
      ensures Valid() && Model() == Init(historyCap).st
      ensures historyCap == if historySize <= 0 then 5000 else historySize
    {
      historyCap := if historySize <= 0 then 5000 else historySize;
      lastSeq, history, subs, finished, chans := 0, [], {}, false, map[];
    }

    method NextSeq() returns (num: nat)
      requires Valid()
      modifies this`lastSeq
      ensures Valid() && num == lastSeq && Model() == old(Model()).(lastSeq := old(lastSeq) + 1)
    {
      lastSeq := lastSeq + 1;
      num := lastSeq;
    }

    /** The locked section of Emit; on a finished run the event is dropped. */
    method AppendAndCapture(e: Event) returns (accepted: bool, captured: set<SubId>)
      requires Valid()
      modifies this`history
      ensures Valid() && Model() == Append(old(Model()), e, historyCap)
      ensures accepted == !finished && captured == (if finished then {} else subs)
    {
      if finished {
        return false, {};
      }
      if historyCap > 0 && |history| >= historyCap {
        history := history[1..];
      }
      history := history + [e];
      return true, subs;
    }

    method SafeSend(x: SubId, e: Event)
      requires Valid() && x in chans
      modifies this`chans
      ensures Valid() && Model() == old(Model()).(chans := old(chans)[x := Offer(old(chans)[x], Live(e))])
    {
      var c := chans[x];
      if !c.closed && |c.buffer| < c.cap {
        c := c.(buffer := c.buffer + [Live(e)]);
      }
      chans := chans[x := c];
    }

    /** The locked section of Subscribe: the ring is replayed without blocking. */
    method Subscribe(x: SubId, fromSeq: nat, bufSize: int) returns (late: bool)
      requires Valid() && x !in chans
      modifies this`subs, this`chans
      ensures Valid() && late == finished && Model() == Join(old(Model()), x, fromSeq, BufCap(bufSize))
    {
      var cap := if bufSize <= 0 then 256 else bufSize;
      subs := subs + {x};
      var buffer := [];
      var i := 0;
      while i < |history|
        invariant 0 <= i <= |history|
        invariant buffer == Take(Items(From(history[..i], fromSeq)), cap)
        invariant subs == old(subs) + {x} && chans == old(chans)
      {
        var e := history[i];
        ReplayStep(history, i, fromSeq, cap);
        if e.num >= fromSeq && |buffer| < cap {
          buffer := buffer + [Live(e)];
        }
        i := i + 1;
      }
      assert history[..i] == history;
      chans := chans[x := Chan(cap, buffer, false)];
      late := finished;
    }

    /** The cancel function, and the delayed close of a late subscriber. */
    method CloseIfRegistered(x: SubId)
      requires Valid()
      modifies this`subs, this`chans
      ensures Valid() && Model() == Leave(old(Model()), x)
    {
      if x in subs {
        subs := subs - {x};
        chans := chans[x := chans[x].(closed := true)];
      }
    }

    /** The locked section of FinishRun; the caller starts one closer per detached subscriber. */
    method FinishRun() returns (detached: set<SubId>)
      requires Valid()
      modifies this`finished, this`subs
      ensures Valid() && Model() == Detach(old(Model())) && detached == old(subs)
    {
      finished := true;
      detached := subs;
      subs := {};
    }
  }

  lemma {:induction false} ReplayStep(history: seq<Event>, i: nat, fromSeq: nat, cap: nat)
    requires i < |history|
    ensures var before := Take(Items(From(history[..i], fromSeq)), cap);
            Take(Items(From(history[..i + 1], fromSeq)), cap) ==
            if history[i].num >= fromSeq && |before| < cap then before + [Live(history[i])] else before
  {
    assert history[..i + 1][..|history[..i + 1]| - 1] == history[..i];
  }
}
