/**
  The documented shape of a path: that its steps read as a chain of caller and callee.

  A call of an interface method that was followed to an implementation breaks the chain, so whether the
  shape can be relied on is a question about the index.
 */
module ScipShape {
  import opened Cancellation
  import opened Lists
  import opened ScipWalker

  /** Every call site of the index names the symbol it was collected for. */
  ghost predicate CallersNamed(idx: Index) {
    forall s | s in idx.calls :: forall i | 0 <= i < |idx.calls[s]| :: idx.calls[s][i].caller == s
  }

  ghost predicate ReadsAsChain(steps: seq<CallSite>) {
    forall i, j | 0 <= i < j < |steps| && j == i + 1 :: steps[j].caller == steps[i].callee
  }

  /**
    The documented shape: from the entry, each step's caller the previous step's callee and, with `whole`,
    the last callee the target.
   */
  ghost predicate Shaped(p: Path, whole: bool) {
    && p.steps != [] && p.steps[0].caller == p.entry && ReadsAsChain(p.steps)
    && (whole ==> p.steps[|p.steps| - 1].callee == p.target)
  }

  /** One of the first `n` steps leads to an implementation and not to the symbol called. */
  ghost predicate HopsAside(syms: seq<string>, steps: seq<CallSite>, n: nat)
    requires |syms| == |steps| + 1
  {
    exists i, j :: 0 <= i < n && i < |steps| && j == i + 1 && syms[j] != steps[i].callee
  }

  /** The steps that bear on the shape: all of them or, without the clause on the target, all but the last. */
  function Bearing(steps: seq<CallSite>, whole: bool): nat {
    if whole || steps == [] then |steps| else |steps| - 1
  }

  /**
    A path is documented to read as a chain: each step's caller is the previous step's callee.  That
    holds of a trail exactly if no step but the last one was followed to an implementation.
   */
  lemma {:induction false} ChainIffNoImplementationHop(w: Walk, syms: seq<string>, steps: seq<CallSite>)
    requires CallersNamed(w.idx) && w.Trail(syms, steps)
    ensures ReadsAsChain(steps) <==> forall i, j | 0 <= i < j < |steps| && j == i + 1 :: syms[j] == steps[i].callee
  {
    forall i | 0 <= i < |steps| ensures steps[i].caller == syms[i] {
      assert w.Hop(syms[i], steps[i], syms[i + 1]);
    }
  }

  /** So a trail has the shape exactly if no step that bears on it was followed to an implementation. */
  lemma {:induction false} ShapedIff(w: Walk, p: Path, syms: seq<string>, whole: bool)
    requires CallersNamed(w.idx) && w.Trail(syms, p.steps) && p.steps != []
    requires p.entry == w.entry && p.target == syms[|p.steps|]
    ensures Shaped(p, whole) <==> !HopsAside(syms, p.steps, Bearing(p.steps, whole))
  {
    ChainIffNoImplementationHop(w, syms, p.steps);
    assert w.Hop(syms[0], p.steps[0], syms[1]);
    var n := |p.steps| - 1;
    if forall i, j | 0 <= i < j < |p.steps| && j == i + 1 :: syms[j] == p.steps[i].callee {
      assert forall i, j | 0 <= i < n && j == i + 1 :: syms[j] == p.steps[i].callee;
    } else {
      var i, j :| 0 <= i < j < |p.steps| && j == i + 1 && syms[j] != p.steps[i].callee;
      assert HopsAside(syms, p.steps, n);
    }
  }

  // ----- limits that cut nothing

  /** Bounds on the calls of one symbol and on the implementations of one callee. */
  ghost predicate Bounded(idx: Index, calls: nat, impls: nat) {
    && (forall s | s in idx.calls :: |idx.calls[s]| <= calls)
    && (forall s | s in idx.implementations :: |idx.implementations[s]| <= impls)
  }

  lemma {:induction false} LongestValue<T>(m: map<string, seq<T>>, keys: set<string>) returns (b: nat)
    requires keys <= m.Keys
    ensures forall k | k in keys :: |m[k]| <= b
    decreases |keys|
  {
    if keys == {} {
      b := 0;
    } else {
      var k :| k in keys;
      b := LongestValue(m, keys - {k});
      if b < |m[k]| { b := |m[k]|; }
    }
  }

  lemma {:induction false} BoundsExist(idx: Index)
    ensures exists calls, impls :: Bounded(idx, calls, impls)
  {
    var a := LongestValue(idx.calls, idx.calls.Keys);
    var b := LongestValue(idx.implementations, idx.implementations.Keys);
    assert Bounded(idx, a, b);
  }

  /** What one call costs: itself, and the nodes it may queue. */
  function CallCost(impls: nat, below: nat): nat {
    1 + (impls + 1) * below
  }

  /** The edges a node may cost, with all that is queued from it, if `left` more steps may be made. */
  function Cost(calls: nat, impls: nat, left: nat): nat {
    if left == 0 then 0 else calls * CallCost(impls, Cost(calls, impls, left - 1))
  }

  function CostAt(w: Walk, calls: nat, impls: nat, depth: nat): nat {
    Cost(calls, impls, if depth <= w.cfg.maxDepth then w.cfg.maxDepth - depth else 0)
  }

  /** The edges the nodes in the queue may still cost. */
  function Owed(w: Walk, calls: nat, impls: nat, nodes: seq<Node>): nat {
    if nodes == [] then 0
    else Owed(w, calls, impls, nodes[..|nodes| - 1]) + CostAt(w, calls, impls, nodes[|nodes| - 1].depth)
  }

  lemma {:induction false} OwedPush(w: Walk, calls: nat, impls: nat, nodes: seq<Node>, n: Node)
    ensures Owed(w, calls, impls, nodes + [n]) == Owed(w, calls, impls, nodes) + CostAt(w, calls, impls, n.depth)
  {
    assert (nodes + [n])[..|nodes|] == nodes;
  }

  lemma {:induction false} OwedPop(w: Walk, calls: nat, impls: nat, nodes: seq<Node>)
    requires nodes != []
    ensures Owed(w, calls, impls, nodes) == CostAt(w, calls, impls, nodes[0].depth) + Owed(w, calls, impls, nodes[1..])
  {
    if |nodes| > 1 {
      var m := |nodes| - 1;
      OwedPop(w, calls, impls, nodes[..m]);
      assert nodes[1..][..m - 1] == nodes[..m][1..];
    } else {
      assert nodes[..0] == [] && nodes[1..] == [];
    }
  }

  /** Room left behind the search: nothing was cut yet, and nothing will be cut at the next step. */
  ghost predicate Open(w: Walk, s: Search) {
    |s.log| < w.cfg.maxPathsPerSymbol && |s.paths| < w.cfg.maxPathsTotal && |s.paths| < w.cfg.maxPathsPerTarget
  }

  // ----- what one step may add

  /** From `s` to `r` at most `more` nodes, all one deeper than `d`, and `more` paths were added. */
  ghost predicate Adds(s: Search, r: Search, d: nat, more: nat) {
    && s.log <= r.log && s.paths <= r.paths && |r.log| <= |s.log| + more && |r.paths| <= |s.paths| + more
    && (forall k | |s.log| <= k < |r.log| :: r.log[k].depth == d + 1)
    && r.next == s.next && r.visited == s.visited && r.polls == s.polls && r.stopped == s.stopped
  }

  lemma {:induction false} AddsSum(s: Search, r: Search, q: Search, d: nat, a: nat, b: nat)
    requires Adds(s, r, d, a) && Adds(r, q, d, b)
    ensures Adds(s, q, d, a + b)
  {}

  lemma {:induction false} ImplAdds(w: Walk, s: Search, n: Node, steps: seq<CallSite>, impl: string)
    ensures Adds(s, w.Impl(s, n, steps, impl), n.depth, 1)
  {
    hide Hits, Kept;
  }

  lemma {:induction false} ImplsAdd(w: Walk, s: Search, n: Node, steps: seq<CallSite>, impls: seq<string>, j: nat)
    requires j <= |impls|
    ensures Adds(s, w.Impls(s, n, steps, impls, j), n.depth, |impls| - j)
    decreases |impls| - j
  {
    hide Walk.Impl;
    if j < |impls| {
      ImplAdds(w, s, n, steps, impls[j]);
      var s1 := w.Impl(s, n, steps, impls[j]);
      ImplsAdd(w, s1, n, steps, impls, j + 1);
      AddsSum(s, s1, w.Impls(s1, n, steps, impls, j + 1), n.depth, 1, |impls| - j - 1);
    }
  }

  lemma {:induction false} CallAdds(w: Walk, s: Search, n: Node, call: CallSite)
    ensures Adds(s, w.Call(s, n, call), n.depth, |w.idx.Implementations(call.callee)| + 1)
  {
    hide Hits, Kept, Walk.Impls;
    ImplsAdd(w, s, n, n.steps + [call], w.idx.Implementations(call.callee), 0);
  }

  // ----- the budget

  /** The edges spent and those still owed are within `budget`; what was queued and recorded was paid for. */
  ghost predicate Paid(w: Walk, calls: nat, impls: nat, s: Search, budget: nat) {
    && s.next <= |s.log| && s.visited + Owed(w, calls, impls, s.log[s.next..]) <= budget
    && |s.log| <= 1 + (impls + 1) * s.visited && |s.paths| <= (impls + 1) * s.visited
  }

  lemma {:induction false} OwedAdds(w: Walk, calls: nat, impls: nat, log: seq<Node>, more: seq<Node>, d: nat)
    requires forall k | 0 <= k < |more| :: more[k].depth == d
    ensures Owed(w, calls, impls, log + more) == Owed(w, calls, impls, log) + |more| * CostAt(w, calls, impls, d)
  {
    if more == [] {
      assert log + more == log;
    } else {
      var m := |more| - 1;
      OwedAdds(w, calls, impls, log, more[..m], d);
      assert log + more == (log + more[..m]) + [more[m]];
      OwedPush(w, calls, impls, log + more[..m], more[m]);
      TimesSucc(CostAt(w, calls, impls, d), m);
    }
  }

  lemma {:induction false} CallPaid(w: Walk, calls: nat, impls: nat, s: Search, n: Node, call: CallSite, budget: nat)
    requires Bounded(w.idx, calls, impls) && n.depth < w.cfg.maxDepth
    requires CallCost(impls, CostAt(w, calls, impls, n.depth + 1)) <= budget
    requires Paid(w, calls, impls, s, budget - CallCost(impls, CostAt(w, calls, impls, n.depth + 1)))
    ensures Paid(w, calls, impls, w.Call(s.(polls := s.polls + 1, visited := s.visited + 1), n, call), budget)
  {
    hide Walk.Call, Owed, Cost, CostAt;
    var s1 := s.(polls := s.polls + 1, visited := s.visited + 1);
    var r := w.Call(s1, n, call);
    var cost := CostAt(w, calls, impls, n.depth + 1);
    CallAdds(w, s1, n, call);
    var more := r.log[|s.log|..];
    assert r.log[s.next..] == s.log[s.next..] + more;
    OwedAdds(w, calls, impls, s.log[s.next..], more, n.depth + 1);
    assert |w.idx.Implementations(call.callee)| <= impls;
    TimesMonotone(|more|, impls + 1, cost);
    TimesSucc(impls + 1, s.visited);
  }

  /** Nothing is stopped while the budget lasts, and the budget pays for every call. */
  lemma {:induction false} CallsPaid(w: Walk, calls: nat, impls: nat, s: Search, n: Node, i: nat, budget: nat)
    requires Bounded(w.idx, calls, impls) && n.depth < w.cfg.maxDepth && w.ctx.Background?
    requires i <= |w.idx.CallsFrom(n.symbol)| && !s.stopped && s.visited <= w.cfg.maxVisitedEdges
    requires var left := (|w.idx.CallsFrom(n.symbol)| - i) * CallCost(impls, CostAt(w, calls, impls, n.depth + 1));
             left <= budget && Paid(w, calls, impls, s, budget - left)
    requires budget <= w.cfg.maxVisitedEdges && (impls + 1) * budget < w.cfg.maxPathsTotal
    ensures var r := w.Calls(s, n, i); !r.stopped && Paid(w, calls, impls, r, budget) && r.next == s.next
    decreases |w.idx.CallsFrom(n.symbol)| - i
  {
    hide Walk.Call, Paid, Cost, CostAt, CallCost, Bounded;
    var sites := w.idx.CallsFrom(n.symbol);
    if i < |sites| {
      var cost := CallCost(impls, CostAt(w, calls, impls, n.depth + 1));
      OneLess(|sites| - i, cost);
      PaidRoom(w, calls, impls, s, budget - (|sites| - i) * cost, budget);
      CostPositive(impls, CostAt(w, calls, impls, n.depth + 1));
      CallPaid(w, calls, impls, s, n, sites[i], budget - (|sites| - i - 1) * cost);
      CallsPaid(w, calls, impls, w.Call(s.(polls := s.polls + 1, visited := s.visited + 1), n, sites[i]), n, i + 1,
          budget);
    }
  }

  lemma {:induction false} OneLess(k: nat, cost: nat)
    requires k > 0
    ensures k * cost == (k - 1) * cost + cost && cost <= k * cost
  {
    TimesSucc(cost, k - 1);
  }

  lemma {:induction false} CostPositive(impls: nat, below: nat)
    ensures CallCost(impls, below) > 0
  {}

  lemma {:induction false} PaidRoom(w: Walk, calls: nat, impls: nat, s: Search, spent: nat, budget: nat)
    requires Paid(w, calls, impls, s, spent) && spent <= budget && (impls + 1) * budget < w.cfg.maxPathsTotal
    ensures s.visited <= spent && |s.paths| < w.cfg.maxPathsTotal
  {
    hide Owed;
    TimesMonotone(s.visited, budget, impls + 1);
  }

  lemma {:induction false} HeadPaid(w: Walk, calls: nat, impls: nat, s: Search, budget: nat)
    requires Bounded(w.idx, calls, impls) && w.ctx.Background? && w.Ready(s) && s.next < |s.log| && !s.stopped
    requires Paid(w, calls, impls, s, budget) && budget <= w.cfg.maxVisitedEdges
        && (impls + 1) * budget < w.cfg.maxPathsTotal
    ensures var r := w.Head(s); !r.stopped && Paid(w, calls, impls, r, budget)
  {
    hide Walk.Calls, Owed;
    var n := s.log[s.next];
    var s1 := s.(next := s.next + 1, polls := s.polls + 1);
    OwedPop(w, calls, impls, s.log[s.next..]);
    assert s.log[s.next..][1..] == s.log[s1.next..];
    if n.depth < w.cfg.maxDepth {
      var cost := CallCost(impls, CostAt(w, calls, impls, n.depth + 1));
      assert CostAt(w, calls, impls, n.depth) == calls * cost;
      hide CostAt, Cost, CallCost;
      TimesMonotone(|w.idx.CallsFrom(n.symbol)|, calls, cost);
      CallsPaid(w, calls, impls, s1, n, 0, budget);
    }
  }

  // ----- with ample limits every simple trail is recorded

  ghost predicate Ample(w: Walk, impls: nat, budget: nat) {
    && w.ctx.Background? && w.cfg.Positive() && budget <= w.cfg.maxVisitedEdges
    && 1 + (impls + 1) * budget < w.cfg.maxPathsPerSymbol
    && 1 + (impls + 1) * budget < w.cfg.maxPathsPerTarget
    && 1 + (impls + 1) * budget < w.cfg.maxPathsTotal
  }

  lemma {:induction false} PaidOpen(w: Walk, calls: nat, impls: nat, s: Search, budget: nat)
    requires Paid(w, calls, impls, s, budget) && Ample(w, impls, budget)
    ensures Open(w, s)
  {
    hide Owed;
    TimesMonotone(s.visited, budget, impls + 1);
  }

  lemma {:induction false} HitsBound(paths: seq<Path>, t: string)
    ensures Hits(paths, t) <= |paths|
  {
    if paths != [] { HitsBound(paths[..|paths| - 1], t); }
  }

  lemma {:induction false} KeptWithin(log: seq<Node>, t: string)
    ensures Kept(log, t) <= |log|
  {
    if log != [] { KeptWithin(log[..|log| - 1], t); }
  }

  /** A hop of `n` to `to` was recorded, or queued at or behind `base`. */
  ghost predicate Reached(w: Walk, r: Search, base: nat, n: Node, steps: seq<CallSite>, to: string) {
    if w.isTarget(to) then Path(w.entry, to, steps) in r.paths
    else to in w.idx.local ==>
        exists k :: base <= k < |r.log| && r.log[k] == Node(to, n.depth + 1, steps, n.seen + {to})
  }

  lemma {:induction false} ReachedGrows(w: Walk, s: Search, r: Search, base: nat, n: Node, steps: seq<CallSite>,
      to: string)
    requires s.log <= r.log && s.paths <= r.paths && Reached(w, s, base, n, steps, to)
    ensures Reached(w, r, base, n, steps, to)
  {
    if !w.isTarget(to) && to in w.idx.local {
      var k :| base <= k < |s.log| && s.log[k] == Node(to, n.depth + 1, steps, n.seen + {to});
      assert r.log[k] == s.log[k];
    }
  }

  lemma {:induction false} RecordReaches(w: Walk, s: Search, base: nat, n: Node, steps: seq<CallSite>, to: string)
    requires Open(w, s) && w.isTarget(to) && steps != []
    ensures Reached(w, w.Record(s, to, steps), base, n, steps, to)
  {
    HitsBound(s.paths, to);
    var r := w.Record(s, to, steps);
    assert r.paths[|s.paths|] == Path(w.entry, to, steps);
  }

  lemma {:induction false} EnqueueReaches(w: Walk, s: Search, base: nat, n: Node, steps: seq<CallSite>, to: string)
    requires Open(w, s) && !w.isTarget(to) && base <= |s.log|
    ensures Reached(w, w.Enqueue(s, n, to, steps), base, n, steps, to)
  {
    KeptWithin(s.log, to);
    var r := w.Enqueue(s, n, to, steps);
    if to in w.idx.local { assert r.log[|s.log|] == Node(to, n.depth + 1, steps, n.seen + {to}); }
  }

  lemma {:induction false} ImplsReach(w: Walk, s: Search, base: nat, n: Node, steps: seq<CallSite>, impls: seq<string>,
      j: nat)
    requires j <= |impls| && steps != [] && base <= |s.log| && Open(w, w.Impls(s, n, steps, impls, j))
    ensures forall k | j <= k < |impls| && impls[k] !in n.seen ::
        Reached(w, w.Impls(s, n, steps, impls, j), base, n, steps, impls[k])
    decreases |impls| - j
  {
    hide Reached, Walk.Record, Walk.Enqueue;
    ImplsAdd(w, s, n, steps, impls, j);
    if j < |impls| {
      var to := impls[j];
      var s1 := w.Impl(s, n, steps, to);
      ImplAdds(w, s, n, steps, to);
      if to !in n.seen {
        if w.isTarget(to) {
          RecordReaches(w, s, base, n, steps, to);
        } else {
          EnqueueReaches(w, s, base, n, steps, to);
        }
      }
      ImplsAdd(w, s1, n, steps, impls, j + 1);
      ImplsReach(w, s1, base, n, steps, impls, j + 1);
      if to !in n.seen { ReachedGrows(w, s1, w.Impls(s1, n, steps, impls, j + 1), base, n, steps, to); }
    }
  }

  /** The hops the search makes: to symbols not on the path, and to a target that is called itself. */
  predicate MayHop(w: Walk, n: Node, call: CallSite, to: string) {
    w.HopVia(call, to) && (to !in n.seen || (to == call.callee && w.isTarget(to)))
  }

  lemma {:induction false} CallReaches(w: Walk, s: Search, base: nat, n: Node, call: CallSite)
    requires base <= |s.log| && Open(w, w.Call(s, n, call))
    ensures forall to | MayHop(w, n, call, to) :: Reached(w, w.Call(s, n, call), base, n, n.steps + [call], to)
  {
    hide Reached, Walk.Impls, Walk.Record, Walk.Enqueue;
    var steps := n.steps + [call];
    CallAdds(w, s, n, call);
    if w.isTarget(call.callee) {
      RecordReaches(w, s, base, n, steps, call.callee);
    } else {
      var impls := w.idx.Implementations(call.callee);
      var s1 := w.Impls(s, n, steps, impls, 0);
      var r := w.Call(s, n, call);
      ImplsAdd(w, s, n, steps, impls, 0);
      EnqueueAdds(w, s1, n, steps, call.callee);
      ImplsReach(w, s, base, n, steps, impls, 0);
      if call.callee !in n.seen { EnqueueReaches(w, s1, base, n, steps, call.callee); }
      forall to | MayHop(w, n, call, to) ensures Reached(w, r, base, n, steps, to) {
        if to in impls { ReachedGrows(w, s1, r, base, n, steps, to); }
      }
    }
  }

  lemma {:induction false} EnqueueAdds(w: Walk, s: Search, n: Node, steps: seq<CallSite>, to: string)
    ensures Adds(s, w.Enqueue(s, n, to, steps), n.depth, 1)
  {
    hide Kept;
  }

  lemma {:induction false} CallsReach(w: Walk, s: Search, base: nat, n: Node, i: nat)
    requires i <= |w.idx.CallsFrom(n.symbol)| && !s.stopped && s.visited <= w.cfg.maxVisitedEdges && base <= |s.log|
    requires var r := w.Calls(s, n, i); Open(w, r) && !r.stopped
    ensures var r := w.Calls(s, n, i);
            && s.log <= r.log && s.paths <= r.paths
            && forall k, to | i <= k < |w.idx.CallsFrom(n.symbol)| && MayHop(w, n, w.idx.CallsFrom(n.symbol)[k], to) ::
                 Reached(w, r, base, n, n.steps + [w.idx.CallsFrom(n.symbol)[k]], to)
    decreases |w.idx.CallsFrom(n.symbol)| - i
  {
    hide Reached, Walk.Call, MayHop;
    var sites := w.idx.CallsFrom(n.symbol);
    if i < |sites| {
      var s1 := s.(polls := s.polls + 1, visited := s.visited + 1);
      var s2 := w.Call(s1, n, sites[i]);
      CallAdds(w, s1, n, sites[i]);
      var r := w.Calls(s2, n, i + 1);
      CallsReach(w, s2, base, n, i + 1);
      CallReaches(w, s1, base, n, sites[i]);
      forall k, to | i <= k < |sites| && MayHop(w, n, sites[k], to)
          ensures Reached(w, r, base, n, n.steps + [sites[k]], to)
      {
        if k == i { ReachedGrows(w, s2, r, base, n, n.steps + [sites[i]], to); }
      }
    }
  }

  /** A trail the walk may record: to a target, within the depth limit, no symbol twice. */
  ghost predicate Recordable(w: Walk, syms: seq<string>, steps: seq<CallSite>): (ok: bool)
    ensures ok ==> |syms| == |steps| + 1
  {
    && w.Trail(syms, steps) && w.Simple(syms, steps) && 1 <= |steps| <= w.cfg.maxDepth && w.isTarget(syms[|steps|])
  }

  function Along(syms: seq<string>, steps: seq<CallSite>, m: nat): Node
    requires m <= |steps| && m < |syms|
  {
    Node(syms[m], m, steps[..m], set i | 0 <= i <= m :: syms[i])
  }

  ghost predicate QueuedAlong(s: Search, syms: seq<string>, steps: seq<CallSite>, m: nat, k: nat)
    requires |syms| == |steps| + 1
  {
    m < |steps| && s.next <= k < |s.log| && s.log[k] == Along(syms, steps, m)
  }

  /** The trail is recorded, or a node on it is still queued. */
  ghost predicate Covered(w: Walk, s: Search, syms: seq<string>, steps: seq<CallSite>)
    requires |syms| == |steps| + 1
  {
    || Path(w.entry, syms[|steps|], steps) in s.paths
    || exists m: nat, k: nat :: QueuedAlong(s, syms, steps, m, k)
  }

  lemma {:induction false} NextHop(w: Walk, syms: seq<string>, steps: seq<CallSite>, m: nat)
    requires Recordable(w, syms, steps) && m < |steps|
    ensures steps[m] in w.idx.CallsFrom(syms[m]) && MayHop(w, Along(syms, steps, m), steps[m], syms[m + 1])
    ensures m + 1 < |steps| ==> w.Expandable(syms[m + 1]) && syms[m + 1] !in Along(syms, steps, m).seen
    ensures steps[..m] + [steps[m]] == steps[..m + 1]
    ensures Along(syms, steps, m).seen + {syms[m + 1]} == Along(syms, steps, m + 1).seen
  {
    assert w.Hop(syms[m], steps[m], syms[m + 1]);
    var init := syms[..|steps|];
    if m + 1 < |steps| {
      forall i | 0 <= i <= m ensures syms[i] != syms[m + 1] { assert init[i] != init[m + 1]; }
    } else if syms[m + 1] in Along(syms, steps, m).seen {
      var i :| 0 <= i <= m && syms[i] == syms[m + 1];
      assert init[i] == syms[|steps|];
    }
  }

  lemma {:induction false} HeadCovers(w: Walk, s: Search, syms: seq<string>, steps: seq<CallSite>)
    requires w.Ready(s) && s.next < |s.log| && !s.stopped && Recordable(w, syms, steps) && Covered(w, s, syms, steps)
    requires Open(w, w.Head(s)) && !w.Head(s).stopped
    ensures Covered(w, w.Head(s), syms, steps)
  {
    hide Walk.Calls, Recordable, MayHop, Open;
    var n := s.log[s.next];
    var s1 := s.(next := s.next + 1, polls := s.polls + 1);
    var r := w.Head(s);
    if n.depth < w.cfg.maxDepth { CallsReach(w, s1, |s.log|, n, 0); }
    if Path(w.entry, syms[|steps|], steps) !in s.paths {
      var m: nat, k: nat :| QueuedAlong(s, syms, steps, m, k);
      if k > s.next {
        assert QueuedAlong(r, syms, steps, m, k);
      } else {
        NextHop(w, syms, steps, m);
        RecordableDepth(w, syms, steps);
        assert n.depth < w.cfg.maxDepth;
        var x :| 0 <= x < |w.idx.CallsFrom(n.symbol)| && w.idx.CallsFrom(n.symbol)[x] == steps[m];
        assert Reached(w, r, |s.log|, n, n.steps + [steps[m]], syms[m + 1]);
        StepCovers(w, r, |s.log|, syms, steps, m);
      }
    }
  }

  lemma {:induction false} RecordableDepth(w: Walk, syms: seq<string>, steps: seq<CallSite>)
    requires Recordable(w, syms, steps)
    ensures 1 <= |steps| <= w.cfg.maxDepth && w.isTarget(syms[|steps|])
  {}

  lemma {:induction false} StepCovers(w: Walk, r: Search, base: nat, syms: seq<string>, steps: seq<CallSite>, m: nat)
    requires Recordable(w, syms, steps) && m < |steps| && r.next <= base
    requires Reached(w, r, base, Along(syms, steps, m), steps[..m] + [steps[m]], syms[m + 1])
    ensures Covered(w, r, syms, steps)
  {
    hide MayHop;
    NextHop(w, syms, steps, m);
    RecordableDepth(w, syms, steps);
    hide Recordable;
    if m + 1 < |steps| {
      var k :| base <= k < |r.log| && r.log[k] == Along(syms, steps, m + 1);
      assert QueuedAlong(r, syms, steps, m + 1, k);
    } else {
      assert steps[..m + 1] == steps;
    }
  }

  lemma {:induction false} LoopCovers(w: Walk, calls: nat, impls: nat, s: Search, budget: nat, syms: seq<string>,
      steps: seq<CallSite>)
    requires Bounded(w.idx, calls, impls) && Ample(w, impls, budget) && w.Ready(s) && !s.stopped
    requires Paid(w, calls, impls, s, budget) && Recordable(w, syms, steps) && Covered(w, s, syms, steps)
    ensures Path(w.entry, syms[|steps|], steps) in w.Loop(s).paths && w.Clean(w.Loop(s))
    decreases w.cfg.maxVisitedEdges + 1 - s.visited, |s.log| - s.next
  {
    hide Walk.Head, Paid, Recordable;
    PaidOpen(w, calls, impls, s, budget);
    if s.next < |s.log| {
      HeadPaid(w, calls, impls, s, budget);
      PaidOpen(w, calls, impls, w.Head(s), budget);
      HeadCovers(w, s, syms, steps);
      LoopCovers(w, calls, impls, w.Head(s), budget, syms, steps);
    }
  }

  /** The same index, entry, targets and depth limit under other limits, and without cancellation. */
  function Tuned(w: Walk, cfg: Limits): Walk {
    w.(cfg := cfg.(maxDepth := w.cfg.maxDepth), ctx := Background)
  }

  lemma {:induction false} AmpleLimits(w: Walk, calls: nat, impls: nat) returns (cfg: Limits, budget: nat)
    requires w.cfg.Positive() && Bounded(w.idx, calls, impls)
    ensures Ample(Tuned(w, cfg), impls, budget)
    ensures var v := Tuned(w, cfg); Paid(v, calls, impls, v.Start(), budget)
  {
    hide Cost, CostAt, Owed, Bounded;
    budget := Cost(calls, impls, w.cfg.maxDepth);
    var k := 2 + (impls + 1) * budget;
    cfg := Limits(w.cfg.maxDepth, k, k, k, budget + 1);
    var v := Tuned(w, cfg);
    var log := v.Start().log;
    assert log == [log[0]] && [] + [log[0]] == log && log[0..] == log;
    OwedPush(v, calls, impls, [], log[0]);
    NothingOwed(v, calls, impls);
    StartCost(v, calls, impls);
  }

  lemma {:induction false} StartCost(w: Walk, calls: nat, impls: nat)
    requires w.cfg.Positive()
    ensures CostAt(w, calls, impls, 0) == Cost(calls, impls, w.cfg.maxDepth)
  {
    hide Cost;
  }

  lemma {:induction false} NothingOwed(w: Walk, calls: nat, impls: nat)
    ensures Owed(w, calls, impls, []) == 0
  {}

  lemma {:induction false} StartCovers(w: Walk, syms: seq<string>, steps: seq<CallSite>)
    requires Recordable(w, syms, steps)
    ensures Covered(w, w.Start(), syms, steps)
  {
    assert (set i | 0 <= i <= 0 :: syms[i]) == {w.entry} by { assert syms[0] == w.entry; }
    assert steps[..0] == [];
    assert QueuedAlong(w.Start(), syms, steps, 0, 0);
  }

  /** Under some limits a walk that is not stopped records the trail. */
  lemma {:induction false} SomeWalkRecords(w: Walk, syms: seq<string>, steps: seq<CallSite>) returns (cfg: Limits)
    requires w.cfg.Positive() && Recordable(w, syms, steps)
    ensures var v := Tuned(w, cfg);
        v.cfg.Positive() && v.Clean(v.Run()) && Path(w.entry, syms[|steps|], steps) in v.Run().paths
  {
    hide Recordable, Paid, Walk.Loop, Bounded;
    BoundsExist(w.idx);
    var calls, impls :| Bounded(w.idx, calls, impls);
    var budget;
    cfg, budget := AmpleLimits(w, calls, impls);
    var v := Tuned(w, cfg);
    RecordableTuned(w, cfg, syms, steps);
    StartCovers(v, syms, steps);
    LoopCovers(v, calls, impls, v.Start(), budget, syms, steps);
  }

  lemma {:induction false} RecordableTuned(w: Walk, cfg: Limits, syms: seq<string>, steps: seq<CallSite>)
    ensures Recordable(Tuned(w, cfg), syms, steps) <==> Recordable(w, syms, steps)
  {
    var v := Tuned(w, cfg);
    assert forall from, call, to :: v.Hop(from, call, to) <==> w.Hop(from, call, to);
    assert forall s :: v.Expandable(s) <==> w.Expandable(s);
    hide Walk.Hop, Walk.Expandable;
  }

  // ----- the shape of paths, exactly

  /** The index holds a simple trail to a target, within the depth limit, with such a step. */
  ghost predicate HopTrail(w: Walk, whole: bool) {
    exists syms, steps :: Recordable(w, syms, steps) && HopsAside(syms, steps, Bearing(steps, whole))
  }

  ghost predicate AllShaped(paths: seq<Path>, whole: bool) {
    forall k | 0 <= k < |paths| :: Shaped(paths[k], whole)
  }

  /** Whatever the limits besides the depth, a walk that is not stopped returns paths of that shape only. */
  ghost predicate AlwaysShaped(w: Walk, whole: bool) {
    forall cfg | Tuned(w, cfg).cfg.Positive() && Tuned(w, cfg).Clean(Tuned(w, cfg).Run()) ::
      AllShaped(Tuned(w, cfg).Run().paths, whole)
  }

  lemma {:induction false} PathRecordable(w: Walk, p: Path) returns (syms: seq<string>)
    requires w.PathOk(p)
    ensures w.PathOver(p, syms) && Recordable(w, syms, p.steps) && w.Trail(syms, p.steps)
    ensures |syms| == |p.steps| + 1 && p.steps != [] && p.entry == w.entry && p.target == syms[|p.steps|]
  {
    syms :| w.PathOver(p, syms);
  }

  /** Without such a trail in the index every path of every walk, stopped or not, has the shape. */
  lemma {:induction false} NoHopTrail(w: Walk, whole: bool)
    requires w.cfg.Positive() && CallersNamed(w.idx) && !HopTrail(w, whole)
    ensures AllShaped(w.Run().paths, whole)
  {
    hide Walk.Run, Recordable, Shaped, Walk.Trail, HopsAside, Bearing, Walk.PathOver;
    w.RunPathsOk();
    var paths := w.Run().paths;
    forall k | 0 <= k < |paths| ensures Shaped(paths[k], whole) {
      assert w.PathOk(paths[k]);
      var syms := PathRecordable(w, paths[k]);
      ShapedIff(w, paths[k], syms, whole);
    }
  }

  /**
    The documented shape can be relied on, under all limits, exactly if the index holds no simple trail to
    a target, within the depth limit, on which a step leads to an implementation: any step for the whole
    shape, one before the last for the chain of callers and callees alone.
   */
  lemma {:induction false} AlwaysShapedIff(w: Walk, whole: bool)
    requires w.cfg.Positive() && CallersNamed(w.idx)
    ensures AlwaysShaped(w, whole) <==> !HopTrail(w, whole)
  {
    hide Walk.Run, Recordable, Shaped, Walk.Clean, HopsAside, Bearing, Walk.Trail;
    if HopTrail(w, whole) {
      var syms, steps :| Recordable(w, syms, steps) && HopsAside(syms, steps, Bearing(steps, whole));
      var cfg := SomeWalkRecords(w, syms, steps);
      var v := Tuned(w, cfg);
      RecordableTrail(w, syms, steps);
      var p := Path(w.entry, syms[|steps|], steps);
      ShapedIff(w, p, syms, whole);
      var k :| 0 <= k < |v.Run().paths| && v.Run().paths[k] == p;
      assert !Shaped(v.Run().paths[k], whole);
    } else {
      forall cfg | Tuned(w, cfg).cfg.Positive() && Tuned(w, cfg).Clean(Tuned(w, cfg).Run())
        ensures AllShaped(Tuned(w, cfg).Run().paths, whole)
      {
        TunedTrails(w, cfg, whole);
        NoHopTrail(Tuned(w, cfg), whole);
      }
    }
  }

  lemma {:induction false} RecordableTrail(w: Walk, syms: seq<string>, steps: seq<CallSite>)
    requires Recordable(w, syms, steps)
    ensures w.Trail(syms, steps) && steps != []
  {}

  lemma {:induction false} TunedTrails(w: Walk, cfg: Limits, whole: bool)
    requires !HopTrail(w, whole)
    ensures !HopTrail(Tuned(w, cfg), whole)
  {
    hide Recordable, HopsAside, Bearing;
    forall syms, steps | Recordable(Tuned(w, cfg), syms, steps) ensures !HopsAside(syms, steps, Bearing(steps, whole)) {
      RecordableTuned(w, cfg, syms, steps);
    }
  }

  /**
    Under given limits, pruning included: a target all of whose shortest trails have such a step is
    reported with a path that has not the shape.
   */
  lemma {:induction false} ShortestBroken(w: Walk, t: string, length: nat, whole: bool)
    requires w.cfg.Positive() && CallersNamed(w.idx) && w.Clean(w.Run()) && w.isTarget(t) && t != w.entry
    requires 1 <= length <= w.cfg.maxDepth && w.Distance(t, length)
    requires forall syms, steps | w.Trail(syms, steps) && |steps| == length && syms[length] == t ::
               HopsAside(syms, steps, Bearing(steps, whole))
    ensures !AllShaped(w.Run().paths, whole)
  {
    hide Walk.Run, Walk.Trail, Shaped, HopsAside, Bearing, Walk.Simple;
    w.RunKeepsPromise();
    w.RunPathsOk();
    var paths := w.Run().paths;
    assert w.TrailTo(t, length);
    var f :| w.First(paths, t, f);
    assert w.Distance(t, |paths[f].steps|);
    assert w.PathOk(paths[f]);
    w.PathIsTrail(paths[f]);
    assert |paths[f].steps| == length;
    var syms := PathRecordable(w, paths[f]);
    ShapedIff(w, paths[f], syms, whole);
  }

  // ----- a shortest example

  const CALL_I := CallSite("e", "I", "e:1")
  const CALL_T := CallSite("C", "t", "C:1")

  function Interface(): Walk {
    Walk(Index(map["e" := [CALL_I], "C" := [CALL_T]], map["I" := ["C"]], {"C"}), "e", s => s == "t",
         Limits(25, 8, 1000, 3, 50000), Background)
  }

  /** The shortest walk through an interface: its one path does not read as a chain. */
  lemma {:induction false} ImplementationHopBreaksChain()
    ensures Interface().Run().paths == [Path("e", "t", [CALL_I, CALL_T])] && !ReadsAsChain([CALL_I, CALL_T])
  {
    var w := Interface();
    var e := Node("e", 0, [], {"e"});
    var c := Node("C", 1, [CALL_I], {"e", "C"});
    hide Walk.Calls, Walk.Call, Walk.Loop;
    InterfaceFirst();
    InterfaceSecond();
    var s1 := Search([e, c], 1, [], 1, 2, false);
    var s2 := Search([e, c], 2, [Path("e", "t", [CALL_I, CALL_T])], 2, 4, false);
    assert w.Head(w.Start()) == s1;
    assert w.Head(s1) == s2;
    w.LoopUnfold(w.Start());
    w.LoopUnfold(s1);
    w.LoopUnfold(s2);
    assert [CALL_I, CALL_T][1].caller != [CALL_I, CALL_T][0].callee;
  }

  lemma {:induction false} InterfaceFirst()
    ensures var e := Node("e", 0, [], {"e"});
            Interface().Calls(Search([e], 1, [], 0, 1, false), e, 0) ==
            Search([e, Node("C", 1, [CALL_I], {"e", "C"})], 1, [], 1, 2, false)
  {
    var w := Interface();
    var e := Node("e", 0, [], {"e"});
    var s := Search([e], 1, [], 1, 2, false);
    KeptAppend([], e, "C");
    assert [] + [e] == [e];
    assert e.seen + {"C"} == {"e", "C"};
    assert e.steps + [CALL_I] == [CALL_I];
    var r := Search([e, Node("C", 1, [CALL_I], {"e", "C"})], 1, [], 1, 2, false);
    assert w.Enqueue(s, e, "C", [CALL_I]) == r;
    w.ImplsUnfold(s, e, [CALL_I], ["C"], 0);
    w.ImplsUnfold(r, e, [CALL_I], ["C"], 1);
    assert w.Call(s, e, CALL_I) == r;
    w.CallsUnfold(s.(visited := 0, polls := 1), e, 0);
    w.CallsUnfold(r, e, 1);
  }

  lemma {:induction false} InterfaceSecond()
    ensures var e, c := Node("e", 0, [], {"e"}), Node("C", 1, [CALL_I], {"e", "C"});
            Interface().Calls(Search([e, c], 2, [], 1, 3, false), c, 0) ==
            Search([e, c], 2, [Path("e", "t", [CALL_I, CALL_T])], 2, 4, false)
  {
    var w := Interface();
    var e, c := Node("e", 0, [], {"e"}), Node("C", 1, [CALL_I], {"e", "C"});
    assert c.steps + [CALL_T] == [CALL_I, CALL_T];
    w.CallsUnfold(Search([e, c], 2, [], 1, 3, false), c, 0);
    w.CallsUnfold(Search([e, c], 2, [Path("e", "t", [CALL_I, CALL_T])], 2, 4, false), c, 1);
  }

  // ----- a target that is an implementation itself

  function Direct(): Walk {
    Walk(Index(map["e" := [CALL_I]], map["I" := ["t"]], {}), "e", s => s == "t", Limits(25, 8, 1000, 3, 50000),
        Background)
  }

  /** The path to a target found as an implementation: its steps form a chain, and the last one names the interface. */
  lemma {:induction false} LastHopMissesTarget()
    ensures var w := Direct();
            && w.Run().paths == [Path("e", "t", [CALL_I])] && w.Clean(w.Run())
            && AlwaysShaped(w, false) && !Shaped(Path("e", "t", [CALL_I]), true)
  {
    var w := Direct();
    var e := Node("e", 0, [], {"e"});
    var s := Search([e], 1, [], 1, 2, false);
    var r := s.(paths := [Path("e", "t", [CALL_I])]);
    assert e.steps + [CALL_I] == [CALL_I] && [] + [Path("e", "t", [CALL_I])] == [Path("e", "t", [CALL_I])];
    assert w.Impl(s, e, [CALL_I], "t") == r;
    w.ImplsUnfold(s, e, [CALL_I], ["t"], 0);
    w.ImplsUnfold(r, e, [CALL_I], ["t"], 1);
    assert w.Call(s, e, CALL_I) == r by { NoLocal(w, r, e); }
    w.CallsUnfold(s.(visited := 0, polls := 1), e, 0);
    w.CallsUnfold(r, e, 1);
    w.LoopUnfold(w.Start());
    w.LoopUnfold(r);
    DirectTrails();
    AlwaysShapedIff(w, false);
  }

  lemma {:induction false} NoLocal(w: Walk, s: Search, n: Node)
    requires w.idx.local == {}
    ensures w.Enqueue(s, n, "I", [CALL_I]) == s
  {}

  /** Nothing is local here, so every trail to a target is one step long. */
  lemma {:induction false} DirectTrails()
    ensures !HopTrail(Direct(), false)
  {
    assert forall s :: !Direct().Expandable(s);
    forall syms, steps | Recordable(Direct(), syms, steps) ensures !HopsAside(syms, steps, Bearing(steps, false)) {}
  }
}
