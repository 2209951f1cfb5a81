/**
  What the total cap of the syntax-tree walk costs.

  The flag of the walk does not tell whether the cap dropped something.  Here the walk is compared with
  the enumeration of all chains, which is the same walk without the two caps on paths: an unflagged walk
  returns what the caps keep of that enumeration, and this says exactly when nothing is missing.
 */
module AstCoverage {
  import opened AstWalker
  import opened Cancellation
  import opened Lists

  // ----- what two caps keep of a list of paths

  /** Keep a path while its target has fewer than `cap` and there are fewer than `total`. */
  function Keep(paths: seq<CallPath>, cap: int, total: int): (kept: seq<CallPath>)
    ensures |kept| <= |paths|
  {
    if paths == [] then []
    else
      var kept, p := Keep(paths[..|paths| - 1], cap, total), paths[|paths| - 1];
      if Hits(kept, p.target) < cap && |kept| < total then kept + [p] else kept
  }

  lemma {:induction false} KeepPush(paths: seq<CallPath>, p: CallPath, cap: int, total: int)
    ensures var kept := Keep(paths, cap, total);
            Keep(paths + [p], cap, total) == if Hits(kept, p.target) < cap && |kept| < total then kept + [p] else kept
  {
    assert (paths + [p])[..|paths + [p]| - 1] == paths;
  }

  /** What the cap per target lets through, when there is no total. */
  function Wanted(paths: seq<CallPath>, cap: int): seq<CallPath> {
    Keep(paths, cap, |paths| + 1)
  }

  lemma {:induction false} KeepPrefix(paths: seq<CallPath>, cap: int, total: int, more: int)
    requires 0 <= total <= more
    ensures var k := Keep(paths, cap, more); Keep(paths, cap, total) == if |k| <= total then k else k[..total]
  {
    if paths != [] {
      KeepPrefix(paths[..|paths| - 1], cap, total, more);
    }
  }

  lemma {:induction false} KeepRoomy(paths: seq<CallPath>, cap: int, total: int, more: int)
    requires |paths| <= total && |paths| <= more
    ensures Keep(paths, cap, total) == Keep(paths, cap, more)
  {
    if paths != [] { KeepRoomy(paths[..|paths| - 1], cap, total, more); }
  }

  /** The total cap cuts off the end of what is wanted. */
  lemma {:induction false} KeepIsFront(paths: seq<CallPath>, cap: int, total: int)
    requires total >= 0
    ensures var k := Wanted(paths, cap); Keep(paths, cap, total) == if |k| <= total then k else k[..total]
  {
    hide Keep;
    if total <= |paths| + 1 {
      KeepPrefix(paths, cap, total, |paths| + 1);
    } else {
      KeepRoomy(paths, cap, total, |paths| + 1);
    }
  }

  function Smaller(a: int, b: int): int {
    if a < b then a else b
  }

  lemma {:induction false} KeepHits(paths: seq<CallPath>, cap: nat, total: int, t: string)
    requires |paths| < total
    ensures Hits(Keep(paths, cap, total), t) == Smaller(cap, Hits(paths, t))
  {
    if paths != [] {
      var n := |paths| - 1;
      var kept := Keep(paths[..n], cap, total);
      KeepHits(paths[..n], cap, total, t);
      KeepHits(paths[..n], cap, total, paths[n].target);
      HitsAppend(kept, paths[n], t);
    }
  }

  /** Of every target, what is wanted is the smaller of the cap and the number of its paths. */
  lemma {:induction false} WantedHits(paths: seq<CallPath>, cap: nat, t: string)
    ensures Hits(Wanted(paths, cap), t) == Smaller(cap, Hits(paths, t))
  {
    KeepHits(paths, cap, |paths| + 1, t);
  }

  lemma {:induction false} KeepWithin(paths: seq<CallPath>, cap: int, total: int)
    ensures forall p | p in Keep(paths, cap, total) :: p in paths
  {
    if paths != [] {
      KeepWithin(paths[..|paths| - 1], cap, total);
      assert paths == paths[..|paths| - 1] + [paths[|paths| - 1]];
    }
  }

  lemma {:induction false} HitsPrefix(paths: seq<CallPath>, n: nat, i: nat)
    requires n <= i < |paths|
    ensures Hits(paths[..n], paths[i].target) < Hits(paths, paths[i].target)
    decreases |paths|
  {
    var m := |paths| - 1;
    if i < m {
      assert paths[..m][..n] == paths[..n];
      HitsPrefix(paths[..m], n, i);
    } else {
      HitsGrow(paths[..m], n, paths[i].target);
      assert paths[..m][..n] == paths[..n];
    }
  }

  lemma {:induction false} HitsGrow(paths: seq<CallPath>, n: nat, t: string)
    requires n <= |paths|
    ensures Hits(paths[..n], t) <= Hits(paths, t) <= |paths|
  {
    if n < |paths| {
      var m := |paths| - 1;
      assert paths[..m][..n] == paths[..n];
      HitsGrow(paths[..m], n, t);
    } else {
      assert paths[..n] == paths;
      if n > 0 { HitsGrow(paths[..n - 1], n - 1, t); }
    }
  }

  // ----- the walk without caps on paths

  /** Some bound on the callees of one call site. */
  ghost predicate Widest(idx: Index, b: nat) {
    forall symbol, i | symbol in idx.callGraph && 0 <= i < |idx.callGraph[symbol]| ::
        |idx.callGraph[symbol][i].resolved| <= b
  }

  lemma {:induction false} WidestOfCalls(calls: seq<CallSite>) returns (b: nat)
    ensures forall i | 0 <= i < |calls| :: |calls[i].resolved| <= b
  {
    if calls == [] {
      b := 0;
    } else {
      var n := |calls| - 1;
      b := WidestOfCalls(calls[..n]);
      if b < |calls[n].resolved| { b := |calls[n].resolved|; }
      forall i | 0 <= i < |calls| ensures |calls[i].resolved| <= b { if i < n { assert calls[..n][i] == calls[i]; } }
    }
  }

  lemma {:induction false} WidestOfSymbols(idx: Index, symbols: set<string>) returns (b: nat)
    requires symbols <= idx.callGraph.Keys
    ensures forall symbol, i | symbol in symbols && 0 <= i < |idx.callGraph[symbol]| ::
        |idx.callGraph[symbol][i].resolved| <= b
    decreases |symbols|
  {
    if symbols == {} {
      b := 0;
    } else {
      var s :| s in symbols;
      var a := WidestOfCalls(idx.callGraph[s]);
      b := WidestOfSymbols(idx, symbols - {s});
      if b < a { b := a; }
    }
  }

  lemma {:induction false} WidestExists(idx: Index)
    ensures exists b: nat :: Widest(idx, b)
  {
    var b := WidestOfSymbols(idx, idx.callGraph.Keys);
    assert Widest(idx, b);
  }

  ghost function Width(idx: Index): (b: nat)
    ensures Widest(idx, b)
  {
    WidestExists(idx);
    var b: nat :| Widest(idx, b);
    b
  }

  /** More paths than a walk can record within its cap on edges. */
  ghost function Room(w: Walk): (m: int)
    requires w.cfg.Positive()
    ensures m > 0
  {
    Width(w.idx) * (w.cfg.maxVisitedEdges + 1) + 1
  }

  /** The same walk with room for every path. */
  ghost function Uncapped(w: Walk): (v: Walk)
    requires w.cfg.Positive()
    ensures v.cfg.Positive()
  {
    w.(cfg := w.cfg.(maxPathsPerTarget := Room(w), maxPathsTotal := Room(w)))
  }

  /** Every chain the walk may return, as often as the call graph yields it, in breadth-first order. */
  ghost function Enumeration(w: Walk): seq<CallPath>
    requires w.cfg.Positive()
  {
    Uncapped(w).Run().paths
  }

  lemma {:induction false} CalleesBound(v: Walk, s: Search, n: Node, call: CallSite, j: nat)
    requires j <= |call.resolved|
    ensures |s.paths| <= |v.Callees(s, n, call, j).paths| <= |s.paths| + |call.resolved| - j
    ensures s.truncated ==> v.Callees(s, n, call, j).truncated
    decreases |call.resolved| - j
  {
    if j < |call.resolved| { CalleesBound(v, v.Callee(s, n, call, call.resolved[j]), n, call, j + 1); }
  }

  lemma {:induction false} CallsBound(v: Walk, s: Search, n: Node, i: nat, b: nat)
    requires i <= |CallsOf(v.idx, n.symbol)| && !s.stopped && s.edges <= v.cfg.maxVisitedEdges
    requires Widest(v.idx, b) && |s.paths| <= b * s.edges
    ensures var r := v.Calls(s, n, i);
            && |s.paths| <= |r.paths| <= b * r.edges && r.edges <= v.cfg.maxVisitedEdges + 1
            && (s.truncated ==> r.truncated)
    decreases |CallsOf(v.idx, n.symbol)| - i
  {
    hide Walk.Callees, Walk.Callee;
    var calls := CallsOf(v.idx, n.symbol);
    if i < |calls| && !v.ctx.Err(s.polls) && |s.paths| < v.cfg.maxPathsTotal {
      var s1 := s.(polls := s.polls + 1, edges := s.edges + 1);
      TimesSucc(b, s.edges);
      if s1.edges <= v.cfg.maxVisitedEdges {
        CalleesBound(v, s1, n, calls[i], 0);
        CallsBound(v, v.Callees(s1, n, calls[i], 0), n, i + 1, b);
      }
    }
  }

  lemma {:induction false} HeadBound(v: Walk, s: Search, b: nat)
    requires s.queue != [] && !s.stopped && s.edges <= v.cfg.maxVisitedEdges && Widest(v.idx, b)
        && |s.paths| <= b * s.edges
    ensures var r := v.Head(s);
            && |s.paths| <= |r.paths| <= b * r.edges && r.edges <= v.cfg.maxVisitedEdges + 1
            && (s.truncated ==> r.truncated)
  {
    hide Walk.Calls;
    var n := s.queue[0];
    if n.depth < v.cfg.maxDepth { CallsBound(v, s.(queue := s.queue[1..], polls := s.polls + 1), n, 0, b); }
  }

  lemma {:induction false} HeadEdges(v: Walk, s: Search)
    requires s.queue != [] && !s.stopped && s.edges <= v.cfg.maxVisitedEdges
    ensures var r := v.Head(s);
            && s.edges <= r.edges && (r.edges == s.edges ==> |r.queue| < |s.queue|)
            && (!r.stopped ==> r.edges <= v.cfg.maxVisitedEdges)
  {
    hide Walk.Calls;
  }

  lemma {:induction false} LoopBound(v: Walk, s: Search, b: nat)
    requires v.cfg.Positive() && (!s.stopped ==> s.edges <= v.cfg.maxVisitedEdges)
        && s.edges <= v.cfg.maxVisitedEdges + 1
    requires Widest(v.idx, b) && |s.paths| <= b * s.edges
    ensures var r := v.Loop(s);
            && |s.paths| <= |r.paths| <= b * r.edges && r.edges <= v.cfg.maxVisitedEdges + 1
            && (s.truncated ==> r.truncated)
    decreases v.cfg.maxVisitedEdges + 1 - s.edges, |s.queue|
  {
    hide Walk.Head, Widest;
    if !s.stopped && s.queue != [] && !v.ctx.Err(s.polls) && |s.paths| < v.cfg.maxPathsTotal {
      HeadBound(v, s, b);
      HeadEdges(v, s);
      LoopBound(v, v.Head(s), b);
    }
  }

  /** The enumeration never fills the room it has. */
  lemma {:induction false} RoomSuffices(w: Walk)
    requires w.cfg.Positive()
    ensures |Enumeration(w)| < Room(w)
  {
    hide Widest, Walk.Loop;
    var v, b := Uncapped(w), Width(w.idx);
    LoopBound(v, v.Start(), b);
    TimesMonotone(v.Run().edges, w.cfg.maxVisitedEdges + 1, b);
  }

  // ----- the capped walk beside the enumeration

  /** The same search, but that the caps have kept fewer paths. */
  ghost predicate Beside(w: Walk, s: Search, r: Search) {
    s == r.(paths := Keep(r.paths, w.cfg.maxPathsPerTarget, w.cfg.maxPathsTotal))
  }

  ghost predicate Wider(w: Walk, v: Walk) {
    v == w.(cfg := w.cfg.(maxPathsPerTarget := v.cfg.maxPathsTotal, maxPathsTotal := v.cfg.maxPathsTotal))
        && w.cfg.maxPathsTotal > 0
  }

  lemma {:induction false} CalleeBeside(w: Walk, v: Walk, s: Search, r: Search, n: Node, call: CallSite, callee: string)
    requires Wider(w, v) && Beside(w, s, r) && |r.paths| < v.cfg.maxPathsTotal
    ensures Beside(w, w.Callee(s, n, call, callee), v.Callee(r, n, call, callee))
  {
    HitsGrow(r.paths, 0, callee);
    KeepPush(r.paths, CallPath(w.entry, callee, n.steps + [StepFor(n, call, callee)]), w.cfg.maxPathsPerTarget,
        w.cfg.maxPathsTotal);
    hide Keep, Hits;
  }

  lemma {:induction false} CalleesBeside(w: Walk, v: Walk, s: Search, r: Search, n: Node, call: CallSite, j: nat)
    requires Wider(w, v) && Beside(w, s, r) && j <= |call.resolved|
    requires |v.Callees(r, n, call, j).paths| < v.cfg.maxPathsTotal
    ensures Beside(w, w.Callees(s, n, call, j), v.Callees(r, n, call, j))
    decreases |call.resolved| - j
  {
    hide Walk.Callee, Beside;
    CalleesBound(v, r, n, call, j);
    if j < |call.resolved| {
      CalleeBeside(w, v, s, r, n, call, call.resolved[j]);
      CalleesBeside(w, v, w.Callee(s, n, call, call.resolved[j]), v.Callee(r, n, call, call.resolved[j]), n, call,
          j + 1);
    }
  }

  lemma {:induction false} CallsFlag(v: Walk, s: Search, n: Node, i: nat)
    requires i <= |CallsOf(v.idx, n.symbol)| && !s.stopped
    ensures |s.paths| <= |v.Calls(s, n, i).paths| && (s.truncated ==> v.Calls(s, n, i).truncated)
    decreases |CallsOf(v.idx, n.symbol)| - i
  {
    hide Walk.Callees;
    var calls := CallsOf(v.idx, n.symbol);
    if i < |calls| && !v.ctx.Err(s.polls) && |s.paths| < v.cfg.maxPathsTotal {
      var s1 := s.(polls := s.polls + 1, edges := s.edges + 1);
      if s1.edges <= v.cfg.maxVisitedEdges {
        CalleesBound(v, s1, n, calls[i], 0);
        CallsFlag(v, v.Callees(s1, n, calls[i], 0), n, i + 1);
      }
    }
  }

  lemma {:induction false} BesideFields(w: Walk, s: Search, r: Search, s1: Search, r1: Search)
    requires Beside(w, s, r) && s1
        == s.(queue := s1.queue, polls := s1.polls, edges := s1.edges, truncated := s1.truncated, stopped := s1.stopped)
    requires r1 == s1.(paths := r.paths)
    ensures Beside(w, s1, r1)
  {}

  lemma {:induction false} BesideIs(w: Walk, s: Search, r: Search)
    requires Beside(w, s, r)
    ensures s.(paths := r.paths) == r && |s.paths| <= |r.paths|
  {}

  lemma {:induction false} CallsBeside(w: Walk, v: Walk, s: Search, r: Search, n: Node, i: nat)
    requires Wider(w, v) && Beside(w, s, r) && i <= |CallsOf(w.idx, n.symbol)| && !s.stopped
    requires |v.Calls(r, n, i).paths| < v.cfg.maxPathsTotal && !w.Calls(s, n, i).truncated
    ensures Beside(w, w.Calls(s, n, i), v.Calls(r, n, i))
    decreases |CallsOf(w.idx, n.symbol)| - i
  {
    hide Walk.Callees, Beside;
    var calls := CallsOf(w.idx, n.symbol);
    BesideIs(w, s, r);
    CallsFlag(v, r, n, i);
    BesideFields(w, s, r, s.(polls := s.polls + 1), r.(polls := r.polls + 1));
    if i < |calls| && !w.ctx.Err(s.polls) {
      var s1, r1 := s.(polls := s.polls + 1, edges := s.edges + 1), r.(polls := r.polls + 1, edges := r.edges + 1);
      BesideFields(w, s, r, s1, r1);
      var s2, r2 := w.Callees(s1, n, calls[i], 0), v.Callees(r1, n, calls[i], 0);
      if s1.edges <= w.cfg.maxVisitedEdges {
        CallsFlag(v, r2, n, i + 1);
        CalleesBeside(w, v, s1, r1, n, calls[i], 0);
        CallsBeside(w, v, s2, r2, n, i + 1);
      }
    }
  }

  lemma {:induction false} HeadBeside(w: Walk, v: Walk, s: Search, r: Search)
    requires Wider(w, v) && Beside(w, s, r) && s.queue != [] && r.queue == s.queue && !s.stopped && !r.stopped
    requires |v.Head(r).paths| < v.cfg.maxPathsTotal && !w.Head(s).truncated
    ensures Beside(w, w.Head(s), v.Head(r))
  {
    hide Walk.Calls, Beside;
    BesideIs(w, s, r);
    var n := s.queue[0];
    var s1, r1 := s.(queue := s.queue[1..], polls := s.polls + 1), r.(queue := r.queue[1..], polls := r.polls + 1);
    BesideFields(w, s, r, s1, r1);
    if n.depth < w.cfg.maxDepth { CallsBeside(w, v, s1, r1, n, 0); }
  }

  lemma {:induction false} LoopFlag(v: Walk, s: Search)
    requires v.cfg.Positive() && (!s.stopped ==> s.edges <= v.cfg.maxVisitedEdges)
    ensures |s.paths| <= |v.Loop(s).paths| && (s.truncated ==> v.Loop(s).truncated)
    decreases v.cfg.maxVisitedEdges + 1 - s.edges, |s.queue|
  {
    if !s.stopped && s.queue != [] && !v.ctx.Err(s.polls) && |s.paths| < v.cfg.maxPathsTotal {
      HeadFlag(v, s);
      HeadEdges(v, s);
      hide Walk.Head;
      LoopFlag(v, v.Head(s));
    }
  }

  lemma {:induction false} HeadFlag(v: Walk, s: Search)
    requires s.queue != [] && !s.stopped
    ensures |s.paths| <= |v.Head(s).paths| && (s.truncated ==> v.Head(s).truncated)
  {
    hide Walk.Calls;
    if s.queue[0].depth < v.cfg.maxDepth {
      CallsFlag(v, s.(queue := s.queue[1..], polls := s.polls + 1), s.queue[0], 0);
    }
  }

  lemma {:induction false} LoopBeside(w: Walk, v: Walk, s: Search, r: Search)
    requires w.cfg.Positive() && v.cfg.Positive() && Wider(w, v) && Beside(w, s, r)
        && (!s.stopped ==> s.edges <= w.cfg.maxVisitedEdges)
    requires r.edges == s.edges && r.stopped == s.stopped
    requires |v.Loop(r).paths| < v.cfg.maxPathsTotal && !w.Loop(s).truncated
    ensures Beside(w, w.Loop(s), v.Loop(r))
    decreases w.cfg.maxVisitedEdges + 1 - s.edges, |s.queue|
  {
    hide Walk.Head, Beside;
    BesideIs(w, s, r);
    LoopFlag(v, r);
    if !s.stopped && s.queue != [] {
      BesideFields(w, s, r, s.(polls := s.polls + 1, stopped := true), r.(polls := r.polls + 1, stopped := true));
      if !w.ctx.Err(s.polls) {
        var s1, r1 := w.Head(s), v.Head(r);
        HeadEdges(w, s);
        HeadEdges(v, r);
        LoopFlag(w, s1);
        LoopFlag(v, r1);
        HeadBeside(w, v, s, r);
        BesideIs(w, s1, r1);
        LoopBeside(w, v, s1, r1);
      }
    }
  }

  /** An unflagged walk returns what its caps keep of the enumeration, in all other respects it is the uncapped walk. */
  lemma {:induction false} RunKeepsFront(w: Walk)
    requires w.cfg.Positive() && !w.Run().truncated
    ensures w.Run() == Uncapped(w).Run().(paths := Keep(Enumeration(w), w.cfg.maxPathsPerTarget, w.cfg.maxPathsTotal))
  {
    hide Walk.Loop;
    RoomSuffices(w);
    LoopBeside(w, Uncapped(w), w.Start(), Uncapped(w).Start());
  }

  // ----- the enumeration is what the walk is asked for

  ghost predicate Listed(c: seq<PathStep>, paths: seq<CallPath>) {
    exists k :: 0 <= k < |paths| && paths[k].steps == c
  }

  lemma {:induction false} QualifiesSame(w: Walk, c: seq<PathStep>)
    requires w.cfg.Positive()
    ensures Uncapped(w).Qualifies(c) <==> w.Qualifies(c)
  {
    var v := Uncapped(w);
    assert forall st :: v.EdgeStep(st) <==> w.EdgeStep(st);
    hide Room;
  }

  /**
    For a walk that was neither flagged nor cancelled the enumeration lists exactly the chains to targets,
    and the walk returns those that its two caps keep.
   */
  lemma {:induction false} EnumerationIsAll(w: Walk)
    requires w.cfg.Positive() && !w.Run().truncated && w.Uncancelled(w.Run().polls)
    ensures forall c :: w.Qualifies(c) <==> Listed(c, Enumeration(w))
    ensures w.Run().paths == Keep(Enumeration(w), w.cfg.maxPathsPerTarget, w.cfg.maxPathsTotal)
    ensures forall p | p in Enumeration(w) :: p.target == w.End(p.steps)
  {
    hide Walk.Loop, Walk.Qualifies, Keep;
    var v := Uncapped(w);
    RunKeepsFront(w);
    RoomSuffices(w);
    v.RunComplete();
    v.RunPathsOk();
    var paths := v.Run().paths;
    forall c ensures w.Qualifies(c) <==> Listed(c, paths) {
      QualifiesSame(w, c);
      HitsGrow(paths, 0, v.End(c));
      if w.Qualifies(c) { assert v.Recorded(c, paths); }
      if k :| 0 <= k < |paths| && paths[k].steps == c { assert v.PathOk(paths[k]); }
    }
    forall p | p in paths ensures p.target == w.End(p.steps) {
      var k :| 0 <= k < |paths| && paths[k] == p;
      assert v.PathOk(paths[k]);
    }
  }

  // ----- when the walk is complete

  /** Everything the total cap cuts off goes to targets all of whose chains were kept before. */
  ghost predicate CutsNothing(all: seq<CallPath>, cap: int, total: nat) {
    var wanted := Wanted(all, cap);
    forall i, p | total <= i < |wanted| && p in all && p.target == wanted[i].target :: Listed(p.steps, wanted[..total])
  }

  /**
    A walk that was neither flagged nor cancelled is complete exactly if its total cap cuts nothing off
    the enumeration.
   */
  lemma {:induction false} CompleteIff(w: Walk)
    requires w.cfg.Positive() && !w.Run().truncated && w.Uncancelled(w.Run().polls)
    ensures w.Complete(w.Run().paths) <==> CutsNothing(Enumeration(w), w.cfg.maxPathsPerTarget, w.cfg.maxPathsTotal)
  {
    hide Walk.Run, Walk.Qualifies, Keep, Walk.Complete, CutsNothing;
    EnumerationIsAll(w);
    var all, cap, total := Enumeration(w), w.cfg.maxPathsPerTarget, w.cfg.maxPathsTotal;
    KeepIsFront(all, cap, total);
    if CutsNothing(all, cap, total) { CutsNothingCompletes(w, all); }
    if w.Complete(w.Run().paths) { CompleteCutsNothing(w, all); }
  }

  lemma {:induction false} CompleteCutsNothing(w: Walk, all: seq<CallPath>)
    requires w.cfg.Positive() && w.Complete(Keep(all, w.cfg.maxPathsPerTarget, w.cfg.maxPathsTotal))
    requires forall c :: w.Qualifies(c) <==> Listed(c, all)
    requires forall p | p in all :: p.target == w.End(p.steps)
    ensures CutsNothing(all, w.cfg.maxPathsPerTarget, w.cfg.maxPathsTotal)
  {
    hide Walk.Qualifies, Keep, Walk.End;
    var cap, total := w.cfg.maxPathsPerTarget, w.cfg.maxPathsTotal;
    var wanted := Wanted(all, cap);
    KeepIsFront(all, cap, total);
    forall i, p | total <= i < |wanted| && p in all && p.target == wanted[i].target
        ensures Listed(p.steps, wanted[..total])
    {
      HitsPrefix(wanted, total, i);
      WantedHits(all, cap, p.target);
      var k :| 0 <= k < |all| && all[k] == p;
      assert Listed(p.steps, all);
      assert w.Recorded(p.steps, wanted[..total]);
    }
  }

  lemma {:induction false} CutsNothingCompletes(w: Walk, all: seq<CallPath>)
    requires w.cfg.Positive() && CutsNothing(all, w.cfg.maxPathsPerTarget, w.cfg.maxPathsTotal)
    requires forall c :: w.Qualifies(c) <==> Listed(c, all)
    requires forall p | p in all :: p.target == w.End(p.steps)
    ensures w.Complete(Keep(all, w.cfg.maxPathsPerTarget, w.cfg.maxPathsTotal))
  {
    hide Walk.Qualifies, Keep, Walk.End;
    var cap, total := w.cfg.maxPathsPerTarget, w.cfg.maxPathsTotal;
    var wanted := Wanted(all, cap);
    var kept := Keep(all, cap, total);
    KeepIsFront(all, cap, total);
    forall c | w.Qualifies(c) ensures w.Recorded(c, kept) {
      var k :| 0 <= k < |all| && all[k].steps == c;
      var t := all[k].target;
      assert all[k] in all;
      WantedHits(all, cap, t);
      if Hits(kept, t) != cap && !Listed(c, kept) {
        LostIsWanted(all, k, cap, total);
      }
    }
  }

  /** A path that is not kept, though its target has room, goes to a target of which something is cut off. */
  lemma {:induction false} LostIsWanted(all: seq<CallPath>, k: nat, cap: nat, total: nat)
    requires k < |all| && !Listed(all[k].steps, Keep(all, cap, total))
        && Hits(Keep(all, cap, total), all[k].target) != cap
    ensures exists i :: total <= i < |Wanted(all, cap)| && Wanted(all, cap)[i].target == all[k].target
  {
    hide Keep, Hits;
    var t, wanted := all[k].target, Wanted(all, cap);
    var n := if total < |wanted| then total else |wanted|;
    KeepIsFront(all, cap, total);
    assert wanted[..n] == Keep(all, cap, total);
    HitsGrow(wanted, n, t);
    WantedHits(all, cap, t);
    forall j | 0 <= j < n ensures wanted[j] != all[k] { assert wanted[..n][j].steps != all[k].steps; }
    if Hits(all, t) <= cap {
      KeepAll(all, cap, |all| + 1, k);
      var j :| 0 <= j < |wanted| && wanted[j] == all[k];
      assert total <= j;
    } else if forall i | n <= i < |wanted| :: wanted[i].target != t {
      NoMoreHits(wanted, n, t);
    }
  }

  lemma {:induction false} NoMoreHits(paths: seq<CallPath>, n: nat, t: string)
    requires n <= |paths| && forall i | n <= i < |paths| :: paths[i].target != t
    ensures Hits(paths[..n], t) == Hits(paths, t)
    decreases |paths|
  {
    if n < |paths| {
      var m := |paths| - 1;
      assert paths[..m][..n] == paths[..n];
      NoMoreHits(paths[..m], n, t);
    } else {
      assert paths[..n] == paths;
    }
  }

  /** Of a target with no more paths than the cap all are kept. */
  lemma {:induction false} KeepAll(paths: seq<CallPath>, cap: nat, total: int, k: nat)
    requires |paths| < total && k < |paths| && Hits(paths, paths[k].target) <= cap
    ensures paths[k] in Keep(paths, cap, total)
  {
    var n := |paths| - 1;
    KeepHits(paths[..n], cap, total, paths[k].target);
    if k < n { KeepAll(paths[..n], cap, total, k); }
  }

  /** No chain occurs twice. */
  ghost predicate NoRepeats(paths: seq<CallPath>) {
    forall i, j | 0 <= i < j < |paths| :: paths[i].steps != paths[j].steps
  }

  lemma {:induction false} KeepNoRepeats(paths: seq<CallPath>, cap: int, total: int)
    requires NoRepeats(paths)
    ensures NoRepeats(Keep(paths, cap, total))
  {
    if paths != [] {
      var n := |paths| - 1;
      KeepNoRepeats(paths[..n], cap, total);
      KeepWithin(paths[..n], cap, total);
      forall p | p in paths[..n] ensures p.steps != paths[n].steps {
        var i :| 0 <= i < n && paths[..n][i] == p;
        assert paths[i].steps != paths[n].steps;
      }
    }
  }

  /**
    If the call graph yields no chain twice, that means: what the cap per target lets through, which is of
    every target the smaller of that cap and the number of its chains, is no more than the total cap.
   */
  lemma {:induction false} CompleteIffFits(w: Walk)
    requires w.cfg.Positive() && !w.Run().truncated && w.Uncancelled(w.Run().polls) && NoRepeats(Enumeration(w))
    ensures var wanted := Wanted(Enumeration(w), w.cfg.maxPathsPerTarget);
            && (forall t :: Hits(wanted, t) == Smaller(w.cfg.maxPathsPerTarget, Hits(Enumeration(w), t)))
            && (w.Complete(w.Run().paths) <==> |wanted| <= w.cfg.maxPathsTotal)
  {
    hide Walk.Run, Walk.Complete, Keep;
    var all, cap, total := Enumeration(w), w.cfg.maxPathsPerTarget, w.cfg.maxPathsTotal;
    var wanted := Wanted(all, cap);
    CompleteIff(w);
    forall t ensures Hits(wanted, t) == Smaller(cap, Hits(all, t)) { WantedHits(all, cap, t); }
    KeepNoRepeats(all, cap, |all| + 1);
    KeepWithin(all, cap, |all| + 1);
    if total < |wanted| {
      assert wanted[total] in all;
      assert !Listed(wanted[total].steps, wanted[..total]);
    }
  }

  // ----- a cancelled walk

  lemma {:induction false} CalleesExtend(w: Walk, s: Search, n: Node, call: CallSite, j: nat)
    requires j <= |call.resolved|
    ensures s.paths <= w.Callees(s, n, call, j).paths
    decreases |call.resolved| - j
  {
    hide Hits;
    if j < |call.resolved| { CalleesExtend(w, w.Callee(s, n, call, call.resolved[j]), n, call, j + 1); }
  }

  lemma {:induction false} CallsExtend(w: Walk, s: Search, n: Node, i: nat)
    requires i <= |CallsOf(w.idx, n.symbol)| && !s.stopped
    ensures s.paths <= w.Calls(s, n, i).paths
    decreases |CallsOf(w.idx, n.symbol)| - i
  {
    hide Walk.Callees;
    var calls := CallsOf(w.idx, n.symbol);
    var s1 := s.(polls := s.polls + 1, edges := s.edges + 1);
    if i < |calls| && !w.ctx.Err(s.polls) && |s.paths| < w.cfg.maxPathsTotal && s1.edges <= w.cfg.maxVisitedEdges {
      CalleesExtend(w, s1, n, calls[i], 0);
      CallsExtend(w, w.Callees(s1, n, calls[i], 0), n, i + 1);
    }
  }

  lemma {:induction false} HeadExtends(w: Walk, s: Search)
    requires s.queue != [] && !s.stopped
    ensures s.paths <= w.Head(s).paths
  {
    hide Walk.Calls;
    if s.queue[0].depth < w.cfg.maxDepth {
      CallsExtend(w, s.(queue := s.queue[1..], polls := s.polls + 1), s.queue[0], 0);
    }
  }

  lemma {:induction false} LoopExtends(w: Walk, s: Search)
    requires w.cfg.Positive() && (!s.stopped ==> s.edges <= w.cfg.maxVisitedEdges)
    ensures s.paths <= w.Loop(s).paths
    decreases w.cfg.maxVisitedEdges + 1 - s.edges, |s.queue|
  {
    hide Walk.Head;
    if !s.stopped && s.queue != [] && !w.ctx.Err(s.polls) && |s.paths| < w.cfg.maxPathsTotal {
      HeadEdges(w, s);
      HeadExtends(w, s);
      LoopExtends(w, w.Head(s));
    }
  }

  /** The same walk in a context that is never cancelled. */
  function Whole(w: Walk): Walk {
    w.(ctx := Background)
  }

  /** Up to the poll that sees the cancellation the two walks do the same. */
  lemma {:induction false} CalleesWhole(w: Walk, s: Search, n: Node, call: CallSite, j: nat)
    requires j <= |call.resolved|
    ensures w.Callees(s, n, call, j) == Whole(w).Callees(s, n, call, j)
    decreases |call.resolved| - j
  {
    hide Hits;
    if j < |call.resolved| { CalleesWhole(w, w.Callee(s, n, call, call.resolved[j]), n, call, j + 1); }
  }

  lemma {:induction false} CallsCut(w: Walk, s: Search, n: Node, i: nat)
    requires i <= |CallsOf(w.idx, n.symbol)| && !s.stopped
    ensures var r, f := w.Calls(s, n, i), Whole(w).Calls(s, n, i);
            r == f || (r.paths <= f.paths && (r.stopped || w.ctx.Err(r.polls)))
    decreases |CallsOf(w.idx, n.symbol)| - i
  {
    hide Walk.Callees;
    var calls := CallsOf(w.idx, n.symbol);
    var s1 := s.(polls := s.polls + 1, edges := s.edges + 1);
    CallsExtend(Whole(w), s, n, i);
    if i < |calls| && !w.ctx.Err(s.polls) && |s.paths| < w.cfg.maxPathsTotal && s1.edges <= w.cfg.maxVisitedEdges {
      CalleesWhole(w, s1, n, calls[i], 0);
      CallsCut(w, w.Callees(s1, n, calls[i], 0), n, i + 1);
    }
  }

  lemma {:induction false} HeadCut(w: Walk, s: Search)
    requires s.queue != [] && !s.stopped
    ensures var r, f := w.Head(s), Whole(w).Head(s);
            r == f || (r.paths <= f.paths && (r.stopped || w.ctx.Err(r.polls)))
  {
    hide Walk.Calls;
    if s.queue[0].depth < w.cfg.maxDepth {
      CallsCut(w, s.(queue := s.queue[1..], polls := s.polls + 1), s.queue[0], 0);
    }
  }

  lemma {:induction false} LoopCut(w: Walk, s: Search)
    requires w.cfg.Positive() && (!s.stopped ==> s.edges <= w.cfg.maxVisitedEdges)
    ensures w.Loop(s).paths <= Whole(w).Loop(s).paths
    decreases w.cfg.maxVisitedEdges + 1 - s.edges, |s.queue|
  {
    hide Walk.Head;
    LoopExtends(Whole(w), s);
    if !s.stopped && s.queue != [] && !w.ctx.Err(s.polls) && |s.paths| < w.cfg.maxPathsTotal {
      HeadEdges(w, s);
      HeadEdges(Whole(w), s);
      HeadCut(w, s);
      if w.Head(s) == Whole(w).Head(s) {
        LoopCut(w, w.Head(s));
      } else {
        LoopExtends(Whole(w), Whole(w).Head(s));
      }
    }
  }

  /** Some path of the enumeration was not reached, or not kept, though its target had room. */
  ghost predicate Misses(all: seq<CallPath>, kept: seq<CallPath>, cap: int) {
    exists p :: p in all && !Listed(p.steps, kept) && Hits(kept, p.target) != cap
  }

  /**
    A cancelled walk that was not flagged returns what the caps keep of the first `n` paths of the
    enumeration it would have gone through.  It is complete exactly if that leaves out only paths to
    targets that have their cap.
   */
  lemma {:induction false} CancelledCompleteIff(w: Walk) returns (n: nat)
    requires w.cfg.Positive() && !w.Run().truncated && !Whole(w).Run().truncated
    ensures var all, cap := Enumeration(Whole(w)), w.cfg.maxPathsPerTarget;
            && n <= |all| && w.Run().paths == Keep(all[..n], cap, w.cfg.maxPathsTotal)
            && (w.Complete(w.Run().paths) <==> !Misses(all, w.Run().paths, cap))
  {
    hide Walk.Loop, Walk.Qualifies, Keep, Walk.Complete;
    var f := Whole(w);
    RunKeepsFront(w);
    EnumerationIsAll(f);
    WholeEnumeration(w);
    n := |Enumeration(w)|;
    assert Enumeration(f)[..n] == Enumeration(w);
    CompleteMisses(w, Enumeration(f), w.Run().paths);
  }

  lemma {:induction false} WholeEnumeration(w: Walk)
    requires w.cfg.Positive()
    ensures Enumeration(w) <= Enumeration(Whole(w))
  {
    hide Walk.Loop;
    LoopCut(Uncapped(w), Uncapped(w).Start());
    assert Uncapped(Whole(w)) == Whole(Uncapped(w));
  }

  lemma {:induction false} CompleteMisses(w: Walk, all: seq<CallPath>, kept: seq<CallPath>)
    requires forall c :: Whole(w).Qualifies(c) <==> Listed(c, all)
    requires forall p | p in all :: p.target == Whole(w).End(p.steps)
    ensures w.Complete(kept) <==> !Misses(all, kept, w.cfg.maxPathsPerTarget)
  {
    assert forall c :: w.Qualifies(c) <==> Whole(w).Qualifies(c) by { QualifiesWhole(w); }
    hide Walk.Qualifies, Hits;
    if !Misses(all, kept, w.cfg.maxPathsPerTarget) {
      forall c | w.Qualifies(c) ensures w.Recorded(c, kept) {
        var k :| 0 <= k < |all| && all[k].steps == c;
        assert all[k] in all;
        assert w.End(c) == Whole(w).End(c);
      }
    }
    if w.Complete(kept) {
      forall p | p in all ensures Listed(p.steps, kept) || Hits(kept, p.target) == w.cfg.maxPathsPerTarget {
        var k :| 0 <= k < |all| && all[k] == p;
        assert Listed(p.steps, all);
        assert w.Recorded(p.steps, kept);
        assert w.End(p.steps) == Whole(w).End(p.steps);
      }
    }
  }

  lemma {:induction false} QualifiesWhole(w: Walk)
    ensures forall c :: w.Qualifies(c) <==> Whole(w).Qualifies(c)
  {
    assert forall st :: Whole(w).EdgeStep(st) <==> w.EdgeStep(st);
  }

  // ----- when no chain occurs twice

  /** No symbol has two calls, or two places in one call, with the same callee and the same evidence. */
  ghost predicate DistinctSites(idx: Index) {
    forall symbol | symbol in idx.callGraph :: DistinctCalls(idx.callGraph[symbol])
  }

  ghost predicate DistinctCalls(calls: seq<CallSite>) {
    forall i, j, k, l | 0 <= i < |calls| && 0 <= j < |calls[i].resolved| && 0 <= k < |calls|
        && 0 <= l < |calls[k].resolved|
                        && calls[i].evidence == calls[k].evidence && calls[i].resolved[j] == calls[k].resolved[l] ::
                            i == k && j == l
  }

  function Parent(c: seq<PathStep>): seq<PathStep>
    requires c != []
  {
    c[..|c| - 1]
  }

  ghost predicate InQueue(queue: seq<Node>, c: seq<PathStep>) {
    exists k :: 0 <= k < |queue| && queue[k].steps == c
  }

  /** No chain is recorded twice or queued twice, and none is recorded or queued whose parent is still queued. */
  ghost predicate Fresh(s: Search) {
    && NoRepeats(s.paths)
    && (forall k, l | 0 <= k < l < |s.queue| :: s.queue[k].steps != s.queue[l].steps)
    && (forall k | 0 <= k < |s.paths| :: s.paths[k].steps != [] && !InQueue(s.queue, Parent(s.paths[k].steps)))
    && (forall k | 0 <= k < |s.queue| && s.queue[k].steps != [] :: !InQueue(s.queue, Parent(s.queue[k].steps)))
  }

  /** The chain was made at an earlier place among the calls of `n`. */
  ghost predicate MadeBefore(w: Walk, n: Node, c: seq<PathStep>, i: nat, j: nat) {
    exists k, l ::
      && 0 <= k < |CallsOf(w.idx, n.symbol)| && 0 <= l < |CallsOf(w.idx, n.symbol)[k].resolved|
      && (k < i || (k == i && l < j))
      && MadeAt(w, n, c, k, l)
  }

  predicate MadeAt(w: Walk, n: Node, c: seq<PathStep>, k: nat, l: nat)
    requires k < |CallsOf(w.idx, n.symbol)| && l < |CallsOf(w.idx, n.symbol)[k].resolved|
  {
    var call := CallsOf(w.idx, n.symbol)[k];
    c == n.steps + [StepFor(n, call, call.resolved[l])]
  }

  /** Node `n` is being expanded and the calls up to place `j` of call `i` are dealt with. */
  ghost predicate Expanding(w: Walk, s: Search, n: Node, i: nat, j: nat) {
    && Fresh(s) && !InQueue(s.queue, n.steps)
    && (forall k | 0 <= k < |s.paths| && Parent(s.paths[k].steps) == n.steps ::
        MadeBefore(w, n, s.paths[k].steps, i, j))
    && (forall k | 0 <= k < |s.queue| && s.queue[k].steps != [] && Parent(s.queue[k].steps) == n.steps ::
          MadeBefore(w, n, s.queue[k].steps, i, j))
    && (forall k | 0 <= k < |s.paths| :: |s.paths[k].steps| <= |n.steps| + 1)
    && (forall k | 0 <= k < |s.queue| :: |s.queue[k].steps| <= |n.steps| + 1)
  }

  lemma {:induction false} MadeOnce(w: Walk, n: Node, c: seq<PathStep>, i: nat, j: nat)
    requires DistinctSites(w.idx) && i < |CallsOf(w.idx, n.symbol)| && j < |CallsOf(w.idx, n.symbol)[i].resolved|
    requires MadeBefore(w, n, c, i, j)
    ensures !MadeAt(w, n, c, i, j)
  {
    var calls := CallsOf(w.idx, n.symbol);
    var k, l :| 0 <= k < |calls| && 0 <= l < |calls[k].resolved| && (k < i || (k == i && l < j))
        && MadeAt(w, n, c, k, l);
    assert c[|n.steps|] == StepFor(n, calls[k], calls[k].resolved[l]);
    var made := n.steps + [StepFor(n, calls[i], calls[i].resolved[j])];
    assert made[|n.steps|] != c[|n.steps|];
  }

  lemma {:induction false} MadeLater(w: Walk, n: Node, c: seq<PathStep>, i: nat, j: nat, i1: nat, j1: nat)
    requires MadeBefore(w, n, c, i, j) && (i < i1 || (i == i1 && j <= j1))
    ensures MadeBefore(w, n, c, i1, j1)
  {
    hide MadeAt;
  }

  lemma {:induction false} ExpandOn(w: Walk, s: Search, n: Node, i: nat, j: nat, i1: nat, j1: nat)
    requires Expanding(w, s, n, i, j) && (i < i1 || (i == i1 && j <= j1))
    ensures Expanding(w, s, n, i1, j1)
  {
    hide MadeBefore, InQueue;
    forall k | 0 <= k < |s.paths| && Parent(s.paths[k].steps) == n.steps
        ensures MadeBefore(w, n, s.paths[k].steps, i1, j1)
    {
      MadeLater(w, n, s.paths[k].steps, i, j, i1, j1);
    }
    forall k | 0 <= k < |s.queue| && s.queue[k].steps != [] && Parent(s.queue[k].steps) == n.steps
      ensures MadeBefore(w, n, s.queue[k].steps, i1, j1)
    {
      MadeLater(w, n, s.queue[k].steps, i, j, i1, j1);
    }
  }

  lemma {:induction false} ExpandFrame(w: Walk, s: Search, r: Search, n: Node, i: nat, j: nat)
    requires Expanding(w, s, n, i, j) && r.paths == s.paths && r.queue == s.queue
    ensures Expanding(w, r, n, i, j)
  {
    hide MadeBefore, InQueue;
  }

  lemma {:induction false} RecordFresh(w: Walk, s: Search, n: Node, i: nat, j: nat, p: CallPath)
    requires DistinctSites(w.idx) && i < |CallsOf(w.idx, n.symbol)| && j < |CallsOf(w.idx, n.symbol)[i].resolved|
    requires Expanding(w, s, n, i, j) && MadeAt(w, n, p.steps, i, j)
    ensures Expanding(w, s.(paths := s.paths + [p]), n, i, j + 1)
  {
    var r := s.(paths := s.paths + [p]);
    assert Parent(p.steps) == n.steps;
    assert MadeBefore(w, n, p.steps, i, j + 1);
    ExpandOn(w, s, n, i, j, i, j + 1);
    forall k | 0 <= k < |s.paths| ensures s.paths[k].steps != p.steps {
      if Parent(s.paths[k].steps) == n.steps { MadeOnce(w, n, s.paths[k].steps, i, j); }
    }
    hide MadeBefore, MadeAt, InQueue, Parent;
  }

  lemma {:induction false} QueueFresh(w: Walk, s: Search, n: Node, i: nat, j: nat, m: Node)
    requires DistinctSites(w.idx) && i < |CallsOf(w.idx, n.symbol)| && j < |CallsOf(w.idx, n.symbol)[i].resolved|
    requires Expanding(w, s, n, i, j) && MadeAt(w, n, m.steps, i, j)
    ensures Expanding(w, s.(queue := s.queue + [m]), n, i, j + 1)
  {
    var r := s.(queue := s.queue + [m]);
    assert Parent(m.steps) == n.steps;
    assert MadeBefore(w, n, m.steps, i, j + 1);
    ExpandOn(w, s, n, i, j, i, j + 1);
    forall k | 0 <= k < |s.queue| ensures s.queue[k].steps != m.steps {
      if s.queue[k].steps != [] && Parent(s.queue[k].steps) == n.steps { MadeOnce(w, n, s.queue[k].steps, i, j); }
    }
    assert |m.steps| == |n.steps| + 1;
    hide MadeBefore, MadeAt;
    assert forall c :: InQueue(r.queue, c) ==> InQueue(s.queue, c) || c == m.steps;
    hide InQueue;
  }

  lemma {:induction false} CalleeFresh(w: Walk, s: Search, n: Node, i: nat, j: nat)
    requires DistinctSites(w.idx) && i < |CallsOf(w.idx, n.symbol)| && j < |CallsOf(w.idx, n.symbol)[i].resolved|
    requires Expanding(w, s, n, i, j)
    ensures var call := CallsOf(w.idx, n.symbol)[i]; Expanding(w, w.Callee(s, n, call, call.resolved[j]), n, i, j + 1)
  {
    hide Expanding, DistinctSites;
    var call := CallsOf(w.idx, n.symbol)[i];
    var callee := call.resolved[j];
    var steps := n.steps + [StepFor(n, call, callee)];
    ExpandOn(w, s, n, i, j, i, j + 1);
    ExpandFrame(w, s, s.(truncated := true), n, i, j + 1);
    RecordFresh(w, s, n, i, j, CallPath(w.entry, callee, steps));
    QueueFresh(w, s, n, i, j, Node(callee, steps, n.visited + {callee}, n.depth + 1));
  }

  lemma {:induction false} CalleesFresh(w: Walk, s: Search, n: Node, i: nat, j: nat)
    requires DistinctSites(w.idx) && i < |CallsOf(w.idx, n.symbol)| && j <= |CallsOf(w.idx, n.symbol)[i].resolved|
    requires Expanding(w, s, n, i, j)
    ensures Expanding(w, w.Callees(s, n, CallsOf(w.idx, n.symbol)[i], j), n, i + 1, 0)
    decreases |CallsOf(w.idx, n.symbol)[i].resolved| - j
  {
    hide Expanding, DistinctSites, Walk.Callee;
    var call := CallsOf(w.idx, n.symbol)[i];
    if j < |call.resolved| {
      CalleeFresh(w, s, n, i, j);
      CalleesFresh(w, w.Callee(s, n, call, call.resolved[j]), n, i, j + 1);
    } else {
      ExpandOn(w, s, n, i, j, i + 1, 0);
    }
  }

  lemma {:induction false} CallsFresh(w: Walk, s: Search, n: Node, i: nat)
    requires DistinctSites(w.idx) && i <= |CallsOf(w.idx, n.symbol)| && !s.stopped && Expanding(w, s, n, i, 0)
    ensures Fresh(w.Calls(s, n, i))
    decreases |CallsOf(w.idx, n.symbol)| - i
  {
    hide DistinctSites, Walk.Callees;
    var calls := CallsOf(w.idx, n.symbol);
    var s1 := s.(polls := s.polls + 1, edges := s.edges + 1);
    ExpandFrame(w, s, s1, n, i, 0);
    if i < |calls| && !w.ctx.Err(s.polls) && |s.paths| < w.cfg.maxPathsTotal && s1.edges <= w.cfg.maxVisitedEdges {
      hide Expanding, Fresh;
      CalleesFresh(w, s1, n, i, 0);
      CallsFresh(w, w.Callees(s1, n, calls[i], 0), n, i + 1);
    }
  }

  /** Taking a node from the queue: nothing was made from it yet. */
  lemma {:induction false} DequeueFresh(w: Walk, s: Search, d: nat)
    requires Fresh(s) && s.queue != [] && w.Inv(s, d)
    ensures Expanding(w, s.(queue := s.queue[1..], polls := s.polls + 1), s.queue[0], 0, 0)
  {
    hide Walk.PathsOk, Walk.Chain;
    var s1, n := s.(queue := s.queue[1..], polls := s.polls + 1), s.queue[0];
    assert w.NodeOk(n);
    assert InQueue(s.queue, n.steps);
    forall k | 0 <= k < |s1.queue| ensures s1.queue[k].steps != n.steps && |s1.queue[k].steps| <= |n.steps| + 1 {
      assert s1.queue[k] == s.queue[k + 1];
      assert w.NodeOk(s.queue[k + 1]);
    }
    forall c | InQueue(s1.queue, c) ensures InQueue(s.queue, c) {
      var k :| 0 <= k < |s1.queue| && s1.queue[k].steps == c;
      assert s.queue[k + 1].steps == c;
    }
    hide MadeBefore, Walk.NodeOk;
    assert forall k | 0 <= k < |s1.queue| :: s1.queue[k] == s.queue[k + 1];
  }

  lemma {:induction false} LoopFresh(w: Walk, s: Search, d: nat)
    requires w.cfg.Positive() && DistinctSites(w.idx) && Fresh(s) && w.Inv(s, d)
        && (!s.stopped ==> s.edges <= w.cfg.maxVisitedEdges)
    ensures Fresh(w.Loop(s))
    decreases w.cfg.maxVisitedEdges + 1 - s.edges, |s.queue|
  {
    hide Fresh, DistinctSites, Walk.Inv, Walk.Head;
    FreshFrame(s);
    if !s.stopped && s.queue != [] && !w.ctx.Err(s.polls) && |s.paths| < w.cfg.maxPathsTotal {
      HeadFresh(w, s, d);
      w.HeadKeepsInv(s, d);
      HeadEdges(w, s);
      LoopFresh(w, w.Head(s), s.queue[0].depth);
    }
  }

  lemma {:induction false} FreshFrame(s: Search)
    requires Fresh(s)
    ensures forall r: Search | r.paths == s.paths && r.queue == s.queue :: Fresh(r)
  {}

  lemma {:induction false} HeadFresh(w: Walk, s: Search, d: nat)
    requires DistinctSites(w.idx) && Fresh(s) && w.Inv(s, d) && s.queue != [] && !s.stopped
    ensures Fresh(w.Head(s))
  {
    hide DistinctSites, Walk.Inv, Walk.Calls;
    var n := s.queue[0];
    var s1 := s.(queue := s.queue[1..], polls := s.polls + 1);
    DequeueFresh(w, s, d);
    FreshFrame(s1);
    hide Fresh;
    if n.depth < w.cfg.maxDepth { CallsFresh(w, s1, n, 0); }
  }

  /** If the call sites of every symbol differ, no chain is enumerated twice. */
  lemma {:induction false} DistinctSitesNoRepeats(w: Walk)
    requires w.cfg.Positive() && DistinctSites(w.idx)
    ensures NoRepeats(Enumeration(w))
  {
    hide Walk.Loop, DistinctSites;
    var v := Uncapped(w);
    v.StartInv();
    LoopFresh(v, v.Start(), 0);
  }
}
