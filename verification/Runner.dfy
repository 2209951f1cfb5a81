/**
  The life of runs in internal/extractor/runner/runner.go together with the run table of
  internal/extractor/events/bus.go, under every interleaving of Start, execute, finish and Cancel.

  A call of Start is named by a number.  Each action is one section under a lock, one step outside
  any lock, or a step of the environment.
 */
module Runner {
  import opened Decimal
  import opened Wrappers

  type RunNo = nat

  datatype Status = Running | Cancelling | Completed | Failed | Cancelled {
    predicate Terminal() {
      Completed? || Failed? || Cancelled?
    }
  }

  /** How far a call of Start, and the goroutine it launches, has come. */
  datatype Stage =
    | Picked    // an id was found free
    | Refused   // StartRun failed
    | Opened    // StartRun registered the stream
    | Listed    // the run is in the table and executing
    | Ended     // finish has recorded the terminal status
    | Closed    // finish has called FinishRun
    | Done      // doneCh is closed

  datatype Run = Run(id: string, stage: Stage, status: Status, ctxDone: bool, cancelPending: bool)

  /**
    `table` is the runner's map, `bus` names the owner of each stream of the bus, `ended` holds the owners of
    finished streams.
   */
  datatype World = World(runs: map<RunNo, Run>, table: map<string, RunNo>, bus: map<string, RunNo>, ended: set<RunNo>)

  datatype Action =
    | Pick(r: RunNo, id: string)     // allocateRunID: the check
    | Open(r: RunNo, ioOk: bool)     // Bus.StartRun
    | List(r: RunNo)                 // Start: the act, and the launch of execute
    | End(r: RunNo, failed: bool)    // finish: the locked section
    | Close(r: RunNo)                // finish: Bus.FinishRun
    | Signal(r: RunNo)               // execute: close(doneCh)
    | Mark(id: string)               // Cancel: the locked section
    | Deliver(r: RunNo)              // Cancel: the call of the cancel function
    | ParentDone(r: RunNo)           // the context Start was given is cancelled

  const EMPTY := World(map[], map[], map[], {})

  predicate At(w: World, r: RunNo, stage: Stage) {
    r in w.runs && w.runs[r].stage == stage
  }

  predicate Enabled(w: World, a: Action) {
    match a
    case Pick(r, id) => r !in w.runs && id != "" && id !in w.table
    case Open(r, _) => At(w, r, Picked)
    case List(r) => At(w, r, Opened)
    case End(r, _) => At(w, r, Listed)
    case Close(r) => At(w, r, Ended)
    case Signal(r) => At(w, r, Closed)
    case Mark(_) => true
    case Deliver(r) => r in w.runs && w.runs[r].cancelPending
    case ParentDone(r) => r in w.runs
  }

  predicate Finished(w: World, id: string) {
    id in w.bus && w.bus[id] in w.ended
  }

  /** A live stream of that id refuses the start; a finished one is dropped, even if opening the file then fails. */
  function OpenStep(w: World, r: RunNo, ioOk: bool): World
    requires r in w.runs
  {
    var run := w.runs[r];
    if run.id in w.bus && !Finished(w, run.id) then w.(runs := w.runs[r := run.(stage := Refused)])
    else if !ioOk then w.(runs := w.runs[r := run.(stage := Refused)], bus := w.bus - {run.id})
    else w.(runs := w.runs[r := run.(stage := Opened)], bus := w.bus[run.id := r])
  }

  function Final(run: Run, failed: bool): Status {
    if run.ctxDone then Cancelled else if failed then Failed else Completed
  }

  function MarkStep(w: World, id: string): World {
    if id in w.table && w.table[id] in w.runs && w.runs[w.table[id]].status == Running
    then w.(runs := w.runs[w.table[id] := w.runs[w.table[id]].(status := Cancelling, cancelPending := true)])
    else w
  }

  function Next(w: World, a: Action): World
    requires Enabled(w, a)
  {
    match a
    case Pick(r, id) => w.(runs := w.runs[r := Run(id, Picked, Running, false, false)])
    case Open(r, ioOk) => OpenStep(w, r, ioOk)
    case List(r) => w.(runs := w.runs[r := w.runs[r].(stage := Listed)], table := w.table[w.runs[r].id := r])
    case End(r, failed) =>
      w.(runs := w.runs[r := w.runs[r].(stage := Ended, status := Final(w.runs[r], failed))])
    case Close(r) =>
      var w1 := w.(runs := w.runs[r := w.runs[r].(stage := Closed)]);
      if w.runs[r].id in w.bus then w1.(ended := w.ended + {w.bus[w.runs[r].id]}) else w1
    case Signal(r) => w.(runs := w.runs[r := w.runs[r].(stage := Done)])
    case Mark(id) => MarkStep(w, id)
    case Deliver(r) => w.(runs := w.runs[r := w.runs[r].(ctxDone := true, cancelPending := false)])
    case ParentDone(r) => w.(runs := w.runs[r := w.runs[r].(ctxDone := true)])
  }

  function Play(w: World, run: seq<Action>): Option<World> {
    if run == [] then Some(w)
    else
      match Play(w, run[..|run| - 1])
      case None => None
      case Some(v) => var a := run[|run| - 1]; if Enabled(v, a) then Some(Next(v, a)) else None
  }

  /** The run owns its stream: it was opened and not finished yet. */
  predicate Live(w: World, r: RunNo) {
    At(w, r, Opened) || At(w, r, Listed) || At(w, r, Ended)
  }

  ghost predicate RunOk(w: World, r: RunNo)
    requires r in w.runs
  {
    var run := w.runs[r];
    && (Live(w, r) ==> run.id in w.bus && w.bus[run.id] == r && r !in w.ended)
    && (run.stage.Closed? || run.stage.Done? ==> r in w.ended)
    && (run.status.Terminal() <==> run.stage.Ended? || run.stage.Closed? || run.stage.Done?)
    && (run.stage.Picked? || run.stage.Refused? || run.stage.Opened? ==> run.status == Running && r !in w.ended)
  }

  ghost predicate Inv(w: World) {
    MapsOk(w) && forall r | r in w.runs :: RunOk(w, r)
  }

  ghost predicate MapsOk(w: World) {
    && (forall id | id in w.bus ::
          && w.bus[id] in w.runs && w.runs[w.bus[id]].id == id
          && !w.runs[w.bus[id]].stage.Picked? && !w.runs[w.bus[id]].stage.Refused?)
    && (forall id | id in w.table ::
          && w.table[id] in w.runs && w.runs[w.table[id]].id == id
          && !w.runs[w.table[id]].stage.Picked? && !w.runs[w.table[id]].stage.Refused?
              && !w.runs[w.table[id]].stage.Opened?)
    && w.ended <= w.runs.Keys
  }

  /** A run the step does not touch. */
  lemma {:induction false} RunFrame(w: World, v: World, q: RunNo)
    requires q in w.runs && RunOk(w, q) && q in v.runs && v.runs[q] == w.runs[q]
    requires q in v.ended <==> q in w.ended
    requires Live(w, q) ==> w.runs[q].id in v.bus && v.bus[w.runs[q].id] == q
    ensures RunOk(v, q)
  {}

  lemma {:induction false} OpenRuns(w: World, r: RunNo, ioOk: bool, q: RunNo)
    requires Inv(w) && At(w, r, Picked) && q in w.runs
    ensures RunOk(OpenStep(w, r, ioOk), q)
  {
    assert RunOk(w, q) && RunOk(w, r);
    hide Inv, MapsOk;
    if q != r { RunFrame(w, OpenStep(w, r, ioOk), q); }
  }

  lemma {:induction false} OpenMaps(w: World, r: RunNo, ioOk: bool)
    requires MapsOk(w) && At(w, r, Picked)
    ensures MapsOk(OpenStep(w, r, ioOk))
  {}

  lemma {:induction false} OpenKeepsInv(w: World, r: RunNo, ioOk: bool)
    requires Inv(w) && At(w, r, Picked)
    ensures Inv(OpenStep(w, r, ioOk))
  {
    hide RunOk, MapsOk;
    OpenMaps(w, r, ioOk);
    forall q | q in w.runs ensures RunOk(OpenStep(w, r, ioOk), q) { OpenRuns(w, r, ioOk, q); }
  }

  lemma {:induction false} CloseKeepsInv(w: World, r: RunNo)
    requires Inv(w) && At(w, r, Ended)
    ensures Inv(Next(w, Close(r)))
  {
    hide MapsOk;
    var v := Next(w, Close(r));
    assert RunOk(w, r);
    CloseMaps(w, r);
    forall q | q in v.runs ensures RunOk(v, q) {
      assert RunOk(w, q);
      if q != r { RunFrame(w, v, q); }
    }
  }

  lemma {:induction false} CloseMaps(w: World, r: RunNo)
    requires MapsOk(w) && At(w, r, Ended)
    ensures MapsOk(Next(w, Close(r)))
  {}

  lemma {:induction false} MarkKeepsInv(w: World, id: string)
    requires Inv(w)
    ensures Inv(MarkStep(w, id))
  {
    var v := MarkStep(w, id);
    forall q | q in v.runs ensures RunOk(v, q) {
      assert RunOk(w, q);
      if v.runs[q] == w.runs[q] { RunFrame(w, v, q); }
    }
  }

  lemma {:induction false} AdvanceMaps(w: World, a: Action)
    requires MapsOk(w) && Enabled(w, a) && (a.List? || a.End? || a.Signal?)
    ensures MapsOk(Next(w, a))
  {}

  lemma {:induction false} AdvanceKeepsInv(w: World, a: Action)
    requires Inv(w) && Enabled(w, a) && (a.List? || a.End? || a.Signal?)
    ensures Inv(Next(w, a))
  {
    hide MapsOk;
    var v := Next(w, a);
    AdvanceMaps(w, a);
    forall q | q in v.runs ensures RunOk(v, q) {
      assert RunOk(w, q);
      if q != a.r { RunFrame(w, v, q); }
    }
  }

  lemma {:induction false} ContextMaps(w: World, a: Action)
    requires MapsOk(w) && Enabled(w, a) && (a.Pick? || a.Deliver? || a.ParentDone?)
    ensures MapsOk(Next(w, a))
  {}

  lemma {:induction false} ContextKeepsInv(w: World, a: Action)
    requires Inv(w) && Enabled(w, a) && (a.Pick? || a.Deliver? || a.ParentDone?)
    ensures Inv(Next(w, a))
  {
    var v := Next(w, a);
    assert a.Pick? ==> a.r !in w.ended;
    hide MapsOk;
    ContextMaps(w, a);
    forall q | q in v.runs ensures RunOk(v, q) {
      if q != a.r {
        assert RunOk(w, q);
        RunFrame(w, v, q);
      } else if !a.Pick? {
        assert RunOk(w, q);
      }
    }
  }

  lemma {:induction false} Step(w: World, a: Action)
    requires Inv(w) && Enabled(w, a)
    ensures Inv(Next(w, a))
  {
    hide Inv;
    match a
    case Open(r, ioOk) => OpenKeepsInv(w, r, ioOk);
    case Close(r) => CloseKeepsInv(w, r);
    case Mark(id) => MarkKeepsInv(w, id);
    case List(_) => AdvanceKeepsInv(w, a);
    case End(_, _) => AdvanceKeepsInv(w, a);
    case Signal(_) => AdvanceKeepsInv(w, a);
    case _ => ContextKeepsInv(w, a);
  }

  lemma {:induction false} RunsKeepInv(run: seq<Action>)
    requires Play(EMPTY, run).Some?
    ensures Inv(Play(EMPTY, run).value)
  {
    hide Next, Enabled;
    if run != [] {
      RunsKeepInv(run[..|run| - 1]);
      Step(Play(EMPTY, run[..|run| - 1]).value, run[|run| - 1]);
    }
  }

  // ----- what the runner promises

  /** Although the id is checked and used in different steps, no two live runs ever share one. */
  lemma {:induction false} LiveRunsDiffer(run: seq<Action>, r: RunNo, q: RunNo)
    requires Play(EMPTY, run).Some?
    requires var w := Play(EMPTY, run).value; Live(w, r) && Live(w, q) && w.runs[r].id == w.runs[q].id
    ensures r == q
  {
    RunsKeepInv(run);
    var w := Play(EMPTY, run).value;
    assert RunOk(w, r) && RunOk(w, q);
  }

  /**
    A run is pushed out of the table only by a later run of the same id, and only once it is over and its stream
    finished.
   */
  lemma {:induction false} OverwritesOnlyFinished(run: seq<Action>, a: Action, id: string)
    requires Play(EMPTY, run).Some? && Enabled(Play(EMPTY, run).value, a)
    requires id in Play(EMPTY, run).value.table
    ensures var w := Play(EMPTY, run).value;
            var v := Next(w, a);
            var old0 := w.table[id];
            && id in v.table && old0 in w.runs
            && (v.table[id] != old0 ==> w.runs[old0].status.Terminal() && old0 in w.ended)
  {
    RunsKeepInv(run);
    var w := Play(EMPTY, run).value;
    assert RunOk(w, w.table[id]);
    if a.List? { assert RunOk(w, a.r); }
  }

  /** A terminal status never changes again, and a finished stream stays finished. */
  lemma {:induction false} TerminalIsFinal(w: World, a: Action, r: RunNo)
    requires Inv(w) && Enabled(w, a) && r in w.runs
    ensures r in Next(w, a).runs && Next(w, a).runs[r].id == w.runs[r].id && w.ended <= Next(w, a).ended
    ensures w.runs[r].status.Terminal() ==> Next(w, a).runs[r].status == w.runs[r].status
  {
    assert RunOk(w, r);
  }

  lemma {:induction false} TerminalForever(w: World, run: seq<Action>, r: RunNo)
    requires Inv(w) && r in w.runs && Play(w, run).Some?
    ensures var v := Play(w, run).value;
            && Inv(v) && r in v.runs && v.runs[r].id == w.runs[r].id && w.ended <= v.ended
            && (w.runs[r].status.Terminal() ==> v.runs[r].status == w.runs[r].status)
  {
    hide Inv, Next, Enabled;
    if run != [] {
      var v := Play(w, run[..|run| - 1]).value;
      TerminalForever(w, run[..|run| - 1], r);
      Step(v, run[|run| - 1]);
      TerminalIsFinal(v, run[|run| - 1], r);
    }
  }

  /**
    Whoever waited for doneCh finds a terminal status and a finished stream; before that no stream of a live run is
    finished.
   */
  lemma {:induction false} DoneMeansOver(run: seq<Action>, r: RunNo)
    requires Play(EMPTY, run).Some? && r in Play(EMPTY, run).value.runs
    ensures var w := Play(EMPTY, run).value;
            && (w.runs[r].stage.Done? ==> w.runs[r].status.Terminal() && r in w.ended)
            && (Live(w, r) ==> r !in w.ended && w.runs[r].id in w.bus && w.bus[w.runs[r].id] == r)
  {
    RunsKeepInv(run);
    assert RunOk(Play(EMPTY, run).value, r);
  }

  /**
    The recorded status is `cancelled` exactly if the context was done when finish ran; the mark alone does not
    decide.
   */
  lemma {:induction false} CancelledIffContextDone(w: World, r: RunNo, failed: bool)
    requires Inv(w) && Enabled(w, End(r, failed))
    ensures Next(w, End(r, failed)).runs[r].status == Cancelled <==> w.runs[r].ctxDone
  {}

  /** The step ends the context of the run: its cancel function is called, or the context it was given is cancelled. */
  predicate EndsContext(a: Action, r: RunNo) {
    a == Deliver(r) || a == ParentDone(r)
  }

  ghost predicate ContextEnds(run: seq<Action>, r: RunNo) {
    exists i :: 0 <= i < |run| && EndsContext(run[i], r)
  }

  predicate Finishes(a: Action, r: RunNo) {
    a.End? && a.r == r
  }

  /** The context of the run ended before finish recorded its status. */
  ghost predicate EndsBeforeFinish(run: seq<Action>, r: RunNo) {
    exists i, j :: 0 <= i < j < |run| && EndsContext(run[i], r) && Finishes(run[j], r)
  }

  /** What the steps so far say about one run. */
  ghost predicate HistoryOk(run: seq<Action>, w: World, r: RunNo) {
    if r !in w.runs then !ContextEnds(run, r) && !EndsBeforeFinish(run, r)
    else
      && (w.runs[r].ctxDone <==> ContextEnds(run, r))
      && (if w.runs[r].status.Terminal() then w.runs[r].status == Cancelled <==> EndsBeforeFinish(run, r)
          else !EndsBeforeFinish(run, r))
  }

  lemma {:induction false} ContextPush(run: seq<Action>, a: Action, r: RunNo)
    ensures ContextEnds(run + [a], r) <==> ContextEnds(run, r) || EndsContext(a, r)
    ensures EndsBeforeFinish(run + [a], r) <==> EndsBeforeFinish(run, r) || (ContextEnds(run, r) && Finishes(a, r))
  {
    hide EndsContext, Finishes;
    var longer := run + [a];
    assert longer[|run|] == a && forall i | 0 <= i < |run| :: longer[i] == run[i];
    if ContextEnds(run, r) && Finishes(a, r) {
      var i :| 0 <= i < |run| && EndsContext(run[i], r);
      assert EndsContext(longer[i], r) && Finishes(longer[|run|], r);
    }
    if EndsBeforeFinish(run, r) {
      var i, j :| 0 <= i < j < |run| && EndsContext(run[i], r) && Finishes(run[j], r);
      assert EndsContext(longer[i], r) && Finishes(longer[j], r);
    }
    if i :| 0 <= i < |run| && EndsContext(run[i], r) { assert EndsContext(longer[i], r); }
  }

  lemma {:induction false} HistoryStep(run: seq<Action>, w: World, a: Action, r: RunNo)
    requires Inv(w) && Enabled(w, a) && HistoryOk(run, w, r)
    ensures HistoryOk(run + [a], Next(w, a), r)
  {
    ContextPush(run, a, r);
    hide ContextEnds, EndsBeforeFinish, MapsOk, Live;
    if r in w.runs { assert RunOk(w, r); }
    if Finishes(a, r) { CancelledIffContextDone(w, r, a.failed); }
  }

  lemma {:induction false} HistoryHolds(run: seq<Action>, r: RunNo)
    requires Play(EMPTY, run).Some?
    ensures HistoryOk(run, Play(EMPTY, run).value, r)
  {
    if run != [] {
      var before := run[..|run| - 1];
      hide Inv, HistoryOk, Next, Enabled;
      RunsKeepInv(before);
      HistoryHolds(before, r);
      HistoryStep(before, Play(EMPTY, before).value, run[|run| - 1], r);
      assert run == before + [run[|run| - 1]];
    }
  }

  /**
    In every interleaving a run that is over was cancelled exactly if its context ended, by its cancel
    function or from outside, before finish took the lock; that it was marked as cancelling decides nothing.
   */
  lemma {:induction false} CancelledIffContextEnded(run: seq<Action>, r: RunNo)
    requires Play(EMPTY, run).Some? && r in Play(EMPTY, run).value.runs
    requires Play(EMPTY, run).value.runs[r].status.Terminal()
    ensures Play(EMPTY, run).value.runs[r].status == Cancelled <==> EndsBeforeFinish(run, r)
  {
    hide Next, Enabled;
    HistoryHolds(run, r);
  }

  lemma {:induction false} Extend(run: seq<Action>, w: World, a: Action, after: World) returns (longer: seq<Action>)
    requires Play(EMPTY, run) == Some(w) && Enabled(w, a) && Next(w, a).runs == after.runs
        && Next(w, a).table == after.table
    requires Next(w, a).bus == after.bus && Next(w, a).ended == after.ended
    ensures Play(EMPTY, longer) == Some(after)
  {
    longer := run + [a];
    assert longer[..|longer| - 1] == run;
  }

  /** A run whose cancellation was requested and recorded can still end as completed. */
  lemma {:induction false} CancellingCanComplete() returns (before: seq<Action>, after: seq<Action>)
    ensures Play(EMPTY, before).Some? && Play(EMPTY, after).Some?
    ensures 0 in Play(EMPTY, before).value.runs && Play(EMPTY, before).value.runs[0].status == Cancelling
    ensures 0 in Play(EMPTY, after).value.runs && Play(EMPTY, after).value.runs[0].status == Completed
    ensures before <= after
  {
    assert Play(EMPTY, []) == Some(EMPTY);
    hide Play;
    var r := Run("t", Picked, Running, false, false);
    var w := World(map[0 := r], map[], map[], {});
    var run := Extend([], EMPTY, Pick(0, "t"), w);
    var w1 := World(map[0 := r.(stage := Opened)], map[], map["t" := 0], {});
    run := Extend(run, w, Open(0, true), w1);
    var w2 := World(map[0 := r.(stage := Listed)], map["t" := 0], map["t" := 0], {});
    run := Extend(run, w1, List(0), w2);
    var c := Run("t", Listed, Cancelling, false, true);
    var w3 := w2.(runs := map[0 := c]);
    before := Extend(run, w2, Mark("t"), w3);
    after := ExtendLonger(before, w3, End(0, false), w3.(runs := map[0 := c.(stage := Ended, status := Completed)]));
  }

  lemma {:induction false} ExtendLonger(run: seq<Action>, w: World, a: Action, after: World)
      returns (longer: seq<Action>)
    requires Play(EMPTY, run) == Some(w) && Enabled(w, a) && Next(w, a).runs == after.runs
        && Next(w, a).table == after.table
    requires Next(w, a).bus == after.bus && Next(w, a).ended == after.ended
    ensures Play(EMPTY, longer) == Some(after) && run <= longer
  {
    longer := run + [a];
    assert longer[..|longer| - 1] == run;
  }

  // ----- the source's object

  function Candidate(base: string, i: nat): string {
    if i < 2 then base else base + "-" + Show(i)
  }

  lemma {:induction false} CandidatesDiffer(base: string, i: nat, j: nat)
    requires i != j && 1 <= i && 1 <= j
    ensures Candidate(base, i) != Candidate(base, j)
  {
    if Candidate(base, i) == Candidate(base, j) {
      if i >= 2 && j >= 2 {
        assert Show(i) == Candidate(base, i)[|base| + 1..] && Show(j) == Candidate(base, j)[|base| + 1..];
        ShowInjective(i, j);
      }
    }
  }

  /** The next candidate was not polled before. */
  lemma {:induction false} CandidateFresh(base: string, n: nat, seen: set<string>)
    requires n >= 1 && forall s | s in seen :: exists k :: 1 <= k < n && s == Candidate(base, k)
    ensures Candidate(base, n) !in seen
  {
    hide Candidate;
    forall s | s in seen ensures s != Candidate(base, n) {
      var k :| 1 <= k < n && s == Candidate(base, k);
      CandidatesDiffer(base, k, n);
    }
  }

  lemma {:induction false} CandidateIs(base: string, i: nat)
    ensures Candidate(base, 1) == base
    ensures i >= 2 ==> Candidate(base, i) == base + "-" + Show(i)
  {}

  /**
    The loop of allocateRunID: the first of base, base-2, base-3, ... that was not taken when it was polled.
    `taken` is the answer of each poll, as other goroutines come and go; only finitely many ids, those of
    `ever`, are taken while the loop runs.  `n` is the number of polls.
   */
  method AllocateRunId(base: string, taken: (nat, string) -> bool, ghost ever: set<string>) returns (id: string, n: nat)
    requires forall i, s | taken(i, s) :: s in ever
    ensures n >= 1 && id == Candidate(base, n) && !taken(n, id)
    ensures forall i | 1 <= i < n :: taken(i, Candidate(base, i))
  {
    hide Candidate, Show;
    id := base;
    n := 1;
    var i := 2;
    ghost var seen: set<string> := {};
    CandidateIs(base, 1);
    while taken(i - 1, id)
      invariant i >= 2 && n == i - 1 && id == Candidate(base, n)
      invariant seen <= ever && (forall k | 1 <= k < n :: taken(k, Candidate(base, k)))
      invariant forall s | s in seen :: exists k :: 1 <= k < n && s == Candidate(base, k)
      decreases ever - seen
    {
      CandidateFresh(base, n, seen);
      CandidateIs(base, i);
      seen := seen + {id};
      id := base + "-" + Show(i);
      n := n + 1;
      i := i + 1;
    }
  }

  /** The runner's table and the records it points to; the records are shared with the execute goroutines. */
  class Manager {
    var runs: map<RunNo, Run>
    var table: map<string, RunNo>

    ghost predicate Shows(w: World)
      reads this
    {
      runs == w.runs && table == w.table
    }

    constructor ()
      ensures Shows(EMPTY)
    {
      runs, table := map[], map[];
    }

    method Insert(r: RunNo, ghost w: World)
      requires Shows(w) && Enabled(w, List(r))
      modifies this
      ensures Shows(Next(w, List(r)))
    {
      table := table[runs[r].id := r];
      runs := runs[r := runs[r].(stage := Listed)];
    }

    method Cancel(id: string, ghost w: World)
      requires Shows(w) && Inv(w)
      modifies this`runs
      ensures Shows(Next(w, Mark(id)))
    {
      if id !in table || runs[table[id]].status != Running {
        return;
      }
      var r := table[id];
      runs := runs[r := runs[r].(status := Cancelling, cancelPending := true)];
    }

    method RecordEnd(r: RunNo, failed: bool, ghost w: World)
      requires Shows(w) && Enabled(w, End(r, failed))
      modifies this`runs
      ensures Shows(Next(w, End(r, failed)))
    {
      var status := Completed;
      if runs[r].ctxDone {
        status := Cancelled;
      } else if failed {
        status := Failed;
      }
      runs := runs[r := runs[r].(stage := Ended, status := status)];
    }
  }
}
