/**
  The bounded breadth-first search of internal/extractor/ast/walker.go.

  `Walk` fixes one call: the index, the entry symbol, the configuration with its defaults filled
  in, and the caller's context.  Its functions are the search written step by step; the method
  `WalkVerbose` is the loop nest of the source, proved equal to them.
 */
module AstWalker {
  import opened Cancellation
  import opened Lists
  import opened Wrappers

  /** One call expression. `evidence` stands for the fields copied into a step unchanged. */
  datatype CallSite = CallSite(resolved: seq<string>, evidence: string)

  datatype PathStep = PathStep(order: nat, caller: string, callee: string, evidence: string)

  datatype CallPath = CallPath(entry: string, target: string, steps: seq<PathStep>)

  datatype Index = Index(callGraph: map<string, seq<CallSite>>, symbols: set<string>)

  datatype Limits = Limits(maxDepth: int, maxPathsPerTarget: int, maxPathsTotal: int,
                           maxVisitedEdges: int, maxQueuedNodes: int)
  {
    predicate Positive() {
      0 < maxDepth && 0 < maxPathsPerTarget && 0 < maxPathsTotal && 0 < maxVisitedEdges && 0 < maxQueuedNodes
    }

    function WithDefaults(): (c: Limits)
      ensures c.Positive()
      ensures if maxDepth > 0 then c.maxDepth == maxDepth else c.maxDepth == 15
      ensures if maxPathsPerTarget > 0 then c.maxPathsPerTarget == maxPathsPerTarget else c.maxPathsPerTarget == 8
      ensures if maxPathsTotal > 0 then c.maxPathsTotal == maxPathsTotal else c.maxPathsTotal == 2000
      ensures if maxVisitedEdges > 0 then c.maxVisitedEdges == maxVisitedEdges else c.maxVisitedEdges == 100000
      ensures if maxQueuedNodes > 0 then c.maxQueuedNodes == maxQueuedNodes else c.maxQueuedNodes == 50000
    {
      Limits(if maxDepth <= 0 then 15 else maxDepth,
             if maxPathsPerTarget <= 0 then 8 else maxPathsPerTarget,
             if maxPathsTotal <= 0 then 2000 else maxPathsTotal,
             if maxVisitedEdges <= 0 then 100000 else maxVisitedEdges,
             if maxQueuedNodes <= 0 then 50000 else maxQueuedNodes)
    }
  }

  /** A frontier node: a partial path together with the symbols on it. */
  datatype Node = Node(symbol: string, steps: seq<PathStep>, visited: set<string>, depth: nat)

  /** Everything the loop nest updates; `polls` counts the context polls made so far. */
  datatype Search = Search(queue: seq<Node>, paths: seq<CallPath>, edges: nat, truncated: bool,
                           polls: nat, stopped: bool)

  /** How many recorded paths end at `target` (what `hitCounts` caches). */
  function Hits(paths: seq<CallPath>, target: string): nat {
    if paths == [] then 0
    else Hits(paths[..|paths| - 1], target) + (if paths[|paths| - 1].target == target then 1 else 0)
  }

  lemma {:induction false} HitsAppend(paths: seq<CallPath>, p: CallPath, t: string)
    ensures Hits(paths + [p], t) == Hits(paths, t) + (if p.target == t then 1 else 0)
  {
    assert (paths + [p])[..|paths + [p]| - 1] == paths;
  }

  function CallsOf(idx: Index, symbol: string): seq<CallSite> {
    if symbol in idx.callGraph then idx.callGraph[symbol] else []
  }

  function StepFor(n: Node, call: CallSite, callee: string): PathStep {
    PathStep(|n.steps| + 1, n.symbol, callee, call.evidence)
  }

  datatype Walk = Walk(idx: Index, entry: string, isTarget: string -> bool, cfg: Limits, ctx: Context) {

    // ----- the search, step by step

    /** One resolved callee of one call of node `n`. */
    function Callee(s: Search, n: Node, call: CallSite, callee: string): Search {
      if callee in n.visited then s
      else
        var steps := n.steps + [StepFor(n, call, callee)];
        if isTarget(callee) then
          if Hits(s.paths, callee) < cfg.maxPathsPerTarget && |s.paths| < cfg.maxPathsTotal
          then s.(paths := s.paths + [CallPath(entry, callee, steps)])
          else s
        else if callee !in idx.symbols then s
        else if |s.queue| >= cfg.maxQueuedNodes then s.(truncated := true)
        else s.(queue := s.queue + [Node(callee, steps, n.visited + {callee}, n.depth + 1)])
    }

    function Callees(s: Search, n: Node, call: CallSite, j: nat): (r: Search)
      requires j <= |call.resolved|
      ensures r.edges == s.edges && r.stopped == s.stopped && r.polls == s.polls
      decreases |call.resolved| - j
    {
      if j == |call.resolved| then s
      else Callees(Callee(s, n, call, call.resolved[j]), n, call, j + 1)
    }

    function Calls(s: Search, n: Node, i: nat): (r: Search)
      requires i <= |CallsOf(idx, n.symbol)|
      requires !s.stopped
      ensures s.edges <= r.edges
      ensures r.edges == s.edges ==> r.queue == s.queue && !r.stopped
      ensures s.edges <= cfg.maxVisitedEdges ==> (r.stopped <==> cfg.maxVisitedEdges < r.edges)
      decreases |CallsOf(idx, n.symbol)| - i
    {
      var calls := CallsOf(idx, n.symbol);
      if i == |calls| then s
      else if ctx.Err(s.polls) then s.(polls := s.polls + 1)
      else if |s.paths| >= cfg.maxPathsTotal then s.(polls := s.polls + 1, truncated := true)
      else
        var s1 := s.(polls := s.polls + 1, edges := s.edges + 1);
        if s1.edges > cfg.maxVisitedEdges then s1.(truncated := true, stopped := true)
        else Calls(Callees(s1, n, calls[i], 0), n, i + 1)
    }

    /** The state after the node at the head of the queue has been dealt with. */
    function Head(s: Search): (r: Search)
      requires s.queue != [] && !s.stopped
    {
      var n := s.queue[0];
      var s1 := s.(queue := s.queue[1..], polls := s.polls + 1);
      if n.depth >= cfg.maxDepth
      then (if CallsOf(idx, n.symbol) != [] then s1.(truncated := true) else s1)
      else Calls(s1, n, 0)
    }

    function Loop(s: Search): (r: Search)
      requires !s.stopped ==> s.edges <= cfg.maxVisitedEdges
      decreases cfg.maxVisitedEdges + 1 - s.edges, |s.queue|
    {
      if s.stopped || s.queue == [] then s
      else if ctx.Err(s.polls) then s.(polls := s.polls + 1, stopped := true)
      else if |s.paths| >= cfg.maxPathsTotal then s.(polls := s.polls + 1, truncated := true, stopped := true)
      else Loop(Head(s))
    }

    function Start(): Search {
      Search([Node(entry, [], {entry}, 0)], [], 0, false, 0, false)
    }

    function Run(): Search
      requires cfg.Positive()
    {
      Loop(Start())
    }

    // The loops of the method hide the three recursive definitions and unfold them by these lemmas.

    lemma {:induction false} CalleesUnfold(s: Search, n: Node, call: CallSite, j: nat)
      requires j <= |call.resolved|
      ensures Callees(s, n, call, j) ==
              if j == |call.resolved| then s else Callees(Callee(s, n, call, call.resolved[j]), n, call, j + 1)
    {}

    lemma {:induction false} CallsUnfold(s: Search, n: Node, i: nat)
      requires i <= |CallsOf(idx, n.symbol)| && !s.stopped
      ensures Calls(s, n, i) ==
              if i == |CallsOf(idx, n.symbol)| then s
              else if ctx.Err(s.polls) then s.(polls := s.polls + 1)
              else if |s.paths| >= cfg.maxPathsTotal then s.(polls := s.polls + 1, truncated := true)
              else if s.edges >= cfg.maxVisitedEdges
              then s.(polls := s.polls + 1, edges := s.edges + 1, truncated := true, stopped := true)
              else Calls(Callees(s.(polls := s.polls + 1, edges := s.edges + 1), n,
                                 CallsOf(idx, n.symbol)[i], 0), n, i + 1)
    {}

    lemma {:induction false} LoopUnfold(s: Search)
      requires !s.stopped ==> s.edges <= cfg.maxVisitedEdges
      ensures Loop(s) ==
              if s.stopped || s.queue == [] then s
              else if ctx.Err(s.polls) then s.(polls := s.polls + 1, stopped := true)
              else if |s.paths| >= cfg.maxPathsTotal then s.(polls := s.polls + 1, truncated := true, stopped := true)
              else Loop(Head(s))
    {}

    // ----- what the search is about

    /** The step follows a call edge and carries the evidence of that call. */
    ghost predicate EdgeStep(st: PathStep) {
      exists call :: call in CallsOf(idx, st.caller) && st.callee in call.resolved && call.evidence == st.evidence
    }

    predicate Expandable(symbol: string) {
      symbol in idx.symbols && !isTarget(symbol)
    }

    /** The symbol a chain of steps leads to. */
    function End(steps: seq<PathStep>): string {
      if steps == [] then entry else steps[|steps| - 1].callee
    }

    /** Consecutive call edges from the entry, numbered from 1, no symbol twice. */
    ghost predicate Chain(steps: seq<PathStep>) {
      && (steps != [] ==> steps[0].caller == entry)
      && (forall i, j | 0 <= i < j < |steps| && j == i + 1 :: steps[j].caller == steps[i].callee)
      && (forall i | 0 <= i < |steps| :: steps[i].order == i + 1 && EdgeStep(steps[i]) && steps[i].callee != entry)
      && (forall i, j | 0 <= i < j < |steps| :: steps[i].callee != steps[j].callee)
    }

    /** A chain all of whose symbols, except possibly the last, may be expanded. */
    ghost predicate InteriorOk(steps: seq<PathStep>) {
      forall i | 0 <= i < |steps| - 1 :: Expandable(steps[i].callee)
    }

    /** The chains the walk is asked to find. */
    ghost predicate Qualifies(c: seq<PathStep>) {
      c != [] && Chain(c) && InteriorOk(c) && isTarget(End(c))
    }

    ghost predicate PathOk(p: CallPath) {
      p.entry == entry && p.target == End(p.steps) && Qualifies(p.steps) && |p.steps| <= cfg.maxDepth
    }

    ghost predicate Recorded(c: seq<PathStep>, paths: seq<CallPath>) {
      || (exists k :: 0 <= k < |paths| && paths[k].steps == c)
      || Hits(paths, End(c)) == cfg.maxPathsPerTarget
    }

    /** Sound, in breadth-first order and within the caps. */
    ghost predicate PathsOk(paths: seq<CallPath>) {
      && (forall k | 0 <= k < |paths| :: PathOk(paths[k]))
      && (forall k, l | 0 <= k < l < |paths| :: |paths[k].steps| <= |paths[l].steps|)
      && |paths| <= cfg.maxPathsTotal
      && (forall t :: Hits(paths, t) <= cfg.maxPathsPerTarget)
    }

    /** Nothing that qualifies is missing, other than through the per-target cap. */
    ghost predicate Complete(paths: seq<CallPath>) {
      forall c | Qualifies(c) :: Recorded(c, paths)
    }

    // ----- invariant of the search

    ghost predicate NodeOk(n: Node) {
      && n.symbol == End(n.steps)
      && n.depth == |n.steps| <= cfg.maxDepth
      && Chain(n.steps)
      && (forall i | 0 <= i < |n.steps| :: Expandable(n.steps[i].callee))
      && n.visited == {entry} + (set i | 0 <= i < |n.steps| :: n.steps[i].callee)
    }

    /** Depth `d` is being worked on: the frontier holds depths `d` and `d + 1`, in that order. */
    ghost predicate Inv(s: Search, d: nat) {
      && PathsOk(s.paths)
      && (forall k | 0 <= k < |s.paths| :: |s.paths[k].steps| <= d + 1)
      && QueueOk(s.queue, d)
    }

    ghost predicate QueueOk(queue: seq<Node>, d: nat) {
      && (forall k | 0 <= k < |queue| :: NodeOk(queue[k]) && d <= queue[k].depth <= d + 1)
      && (forall k, l | 0 <= k < l < |queue| :: queue[k].depth <= queue[l].depth)
      && |queue| <= cfg.maxQueuedNodes
    }

    /** Extending the chain of a node by one fresh edge gives a chain again. */
    lemma {:induction false} ChainAppend(n: Node, call: CallSite, callee: string)
      requires NodeOk(n) && call in CallsOf(idx, n.symbol) && callee in call.resolved && callee !in n.visited
      ensures Chain(n.steps + [StepFor(n, call, callee)]) && End(n.steps + [StepFor(n, call, callee)]) == callee
    {
      var c := n.steps + [StepFor(n, call, callee)];
      assert EdgeStep(StepFor(n, call, callee));
      forall i, j | 0 <= i < j < |c| ensures c[i].callee != c[j].callee {
        if j == |n.steps| { assert c[i].callee in n.visited; }
      }
    }

    lemma {:induction false} PathAppendOk(paths: seq<CallPath>, p: CallPath)
      requires PathsOk(paths) && PathOk(p) && |paths| < cfg.maxPathsTotal
          && Hits(paths, p.target) < cfg.maxPathsPerTarget
      requires forall k | 0 <= k < |paths| :: |paths[k].steps| <= |p.steps|
      ensures PathsOk(paths + [p])
    {
      hide PathOk;
      forall t ensures Hits(paths + [p], t) <= cfg.maxPathsPerTarget { HitsAppend(paths, p, t); }
    }

    lemma {:induction false} NodeAppendOk(n: Node, call: CallSite, callee: string)
      requires NodeOk(n) && call in CallsOf(idx, n.symbol) && callee in call.resolved && callee !in n.visited
      requires n.depth < cfg.maxDepth && Expandable(callee)
      ensures NodeOk(Node(callee, n.steps + [StepFor(n, call, callee)], n.visited + {callee}, n.depth + 1))
    {
      ChainAppend(n, call, callee);
      hide Chain;
      var steps := n.steps + [StepFor(n, call, callee)];
      assert n.visited + {callee} == {entry} + (set i | 0 <= i < |steps| :: steps[i].callee) by {
        assert forall i | 0 <= i < |n.steps| :: steps[i] == n.steps[i];
        assert steps[|n.steps|].callee == callee;
      }
    }

    lemma {:induction false} PathOfNodeOk(n: Node, call: CallSite, callee: string)
      requires NodeOk(n) && call in CallsOf(idx, n.symbol) && callee in call.resolved && callee !in n.visited
      requires n.depth < cfg.maxDepth && isTarget(callee)
      ensures PathOk(CallPath(entry, callee, n.steps + [StepFor(n, call, callee)]))
    {
      ChainAppend(n, call, callee);
      hide Chain;
    }

    lemma {:induction false} RecordKeepsInv(s: Search, p: CallPath, d: nat)
      requires Inv(s, d) && PathOk(p) && |p.steps| == d + 1
      requires |s.paths| < cfg.maxPathsTotal && Hits(s.paths, p.target) < cfg.maxPathsPerTarget
      ensures Inv(s.(paths := s.paths + [p]), d)
    {
      hide PathOk, QueueOk, PathsOk;
      PathAppendOk(s.paths, p);
    }

    lemma {:induction false} EnqueueKeepsInv(s: Search, m: Node, d: nat)
      requires Inv(s, d) && NodeOk(m) && m.depth == d + 1 && |s.queue| < cfg.maxQueuedNodes
      ensures Inv(s.(queue := s.queue + [m]), d)
    {
      hide PathsOk, NodeOk;
    }

    lemma {:induction false} CalleeKeepsInv(s: Search, n: Node, call: CallSite, callee: string)
      requires cfg.Positive() && Inv(s, n.depth) && NodeOk(n) && n.depth < cfg.maxDepth
      requires call in CallsOf(idx, n.symbol) && callee in call.resolved
      ensures Inv(Callee(s, n, call, callee), n.depth)
    {
      hide Inv, PathOk, Chain;
      if callee !in n.visited {
        var m := Node(callee, n.steps + [StepFor(n, call, callee)], n.visited + {callee}, n.depth + 1);
        if isTarget(callee) {
          PathOfNodeOk(n, call, callee);
          if Hits(s.paths, callee) < cfg.maxPathsPerTarget && |s.paths| < cfg.maxPathsTotal {
            RecordKeepsInv(s, CallPath(entry, callee, m.steps), n.depth);
          }
        } else if callee in idx.symbols && |s.queue| < cfg.maxQueuedNodes {
          NodeAppendOk(n, call, callee);
          EnqueueKeepsInv(s, m, n.depth);
        } else {
          InvFrame(s, s.(truncated := true), n.depth);
        }
      }
    }

    lemma {:induction false} InvFrame(s: Search, r: Search, d: nat)
      requires Inv(s, d) && r.paths == s.paths && r.queue == s.queue
      ensures Inv(r, d)
    {
      hide PathsOk, QueueOk;
    }

    lemma {:induction false} CalleesKeepInv(s: Search, n: Node, call: CallSite, j: nat)
      requires cfg.Positive() && Inv(s, n.depth) && NodeOk(n) && n.depth < cfg.maxDepth
      requires call in CallsOf(idx, n.symbol) && j <= |call.resolved|
      ensures Inv(Callees(s, n, call, j), n.depth)
      decreases |call.resolved| - j
    {
      hide Inv, NodeOk, Callee;
      if j < |call.resolved| {
        CalleeKeepsInv(s, n, call, call.resolved[j]);
        CalleesKeepInv(Callee(s, n, call, call.resolved[j]), n, call, j + 1);
      }
    }

    lemma {:induction false} CallsKeepInv(s: Search, n: Node, i: nat)
      requires cfg.Positive() && Inv(s, n.depth) && NodeOk(n) && n.depth < cfg.maxDepth
      requires i <= |CallsOf(idx, n.symbol)| && !s.stopped
      ensures Inv(Calls(s, n, i), n.depth)
      decreases |CallsOf(idx, n.symbol)| - i
    {
      hide Inv, NodeOk, Callees;
      var calls := CallsOf(idx, n.symbol);
      InvFrame(s, s.(polls := s.polls + 1), n.depth);
      InvFrame(s, s.(polls := s.polls + 1, truncated := true), n.depth);
      if i < |calls| && !ctx.Err(s.polls) && |s.paths| < cfg.maxPathsTotal {
        var s1 := s.(polls := s.polls + 1, edges := s.edges + 1);
        InvFrame(s, s1, n.depth);
        InvFrame(s, s1.(truncated := true, stopped := true), n.depth);
        if s1.edges <= cfg.maxVisitedEdges {
          CalleesKeepInv(s1, n, calls[i], 0);
          CallsKeepInv(Callees(s1, n, calls[i], 0), n, i + 1);
        }
      }
    }

    lemma {:induction false} DequeueInv(s: Search, d: nat)
      requires Inv(s, d) && s.queue != []
      ensures NodeOk(s.queue[0])
      ensures Inv(s.(queue := s.queue[1..], polls := s.polls + 1), s.queue[0].depth)
    {
      hide Chain, NodeOk, PathsOk;
      assert NodeOk(s.queue[0]);
    }

    lemma {:induction false} HeadKeepsInv(s: Search, d: nat)
      requires cfg.Positive() && Inv(s, d) && s.queue != [] && !s.stopped
      ensures Inv(Head(s), s.queue[0].depth)
    {
      hide Inv, NodeOk, Calls;
      var n := s.queue[0];
      var s1 := s.(queue := s.queue[1..], polls := s.polls + 1);
      DequeueInv(s, d);
      InvFrame(s1, s1.(truncated := true), n.depth);
      if n.depth < cfg.maxDepth { CallsKeepInv(s1, n, 0); }
    }

    lemma {:induction false} LoopKeepsPathsOk(s: Search, d: nat)
      requires cfg.Positive() && Inv(s, d) && (!s.stopped ==> s.edges <= cfg.maxVisitedEdges)
      ensures PathsOk(Loop(s).paths)
      decreases cfg.maxVisitedEdges + 1 - s.edges, |s.queue|
    {
      if !s.stopped && s.queue != [] && !ctx.Err(s.polls) && |s.paths| < cfg.maxPathsTotal {
        HeadKeepsInv(s, d);
        LoopKeepsPathsOk(Head(s), s.queue[0].depth);
      }
    }

    lemma {:induction false} StartInv()
      requires cfg.Positive()
      ensures Inv(Start(), 0)
    {
      assert NodeOk(Start().queue[0]);
    }

    /** Soundness, order and caps of every run. */
    lemma {:induction false} RunPathsOk()
      requires cfg.Positive()
      ensures PathsOk(Run().paths)
    {
      StartInv();
      LoopKeepsPathsOk(Start(), 0);
    }

    // ----- completeness

    /** None of the first `polls` polls saw a cancellation. */
    predicate Uncancelled(polls: nat) {
      polls == 0 || !ctx.Err(polls - 1)
    }

    /** No poll up to now saw a cancellation, no cap has cut anything and there is room for one more path. */
    predicate Clean(s: Search) {
      !s.truncated && Uncancelled(s.polls) && |s.paths| < cfg.maxPathsTotal
    }

    /** `c` is recorded or one of its proper prefixes is still on the frontier. */
    ghost predicate Covered(c: seq<PathStep>, s: Search) {
      Recorded(c, s.paths) || exists k :: 0 <= k < |s.queue| && s.queue[k].steps < c
    }

    /** `c` leaves the chain of `n` over a call with index at least `i`. */
    ghost predicate LeavesFrom(c: seq<PathStep>, n: Node, i: nat) {
      && n.steps < c
      && exists k :: i <= k < |CallsOf(idx, n.symbol)| && LeavesOver(c, n, CallsOf(idx, n.symbol)[k], 0)
    }

    ghost predicate LeavesOver(c: seq<PathStep>, n: Node, call: CallSite, j: nat) {
      && n.steps < c
      && exists l :: j <= l < |call.resolved| && c[|n.steps|] == StepFor(n, call, call.resolved[l])
    }

    lemma {:induction false} QualifiesNext(c: seq<PathStep>, n: Node)
      requires Qualifies(c) && NodeOk(n) && n.steps < c
      ensures LeavesFrom(c, n, 0)
      ensures c[|n.steps|].callee !in n.visited
    {
      var k := |n.steps|;
      var st := c[k];
      assert st.caller == n.symbol by {
        if k > 0 { assert c[k - 1] == n.steps[k - 1]; }
      }
      var call :| call in CallsOf(idx, n.symbol) && st.callee in call.resolved && call.evidence == st.evidence;
      var x :| 0 <= x < |CallsOf(idx, n.symbol)| && CallsOf(idx, n.symbol)[x] == call;
      var l :| 0 <= l < |call.resolved| && call.resolved[l] == st.callee;
      assert c[k] == StepFor(n, call, call.resolved[l]);
      assert LeavesOver(c, n, call, 0);
      forall i | 0 <= i < k ensures n.steps[i].callee != st.callee { assert n.steps[i] == c[i]; }
    }

    lemma {:induction false} HitsCapped(s: Search, d: nat)
      requires Inv(s, d)
      ensures forall t :: Hits(s.paths, t) <= cfg.maxPathsPerTarget
    {
      hide PathOk, QueueOk;
    }

    lemma {:induction false} RecordedGrows(paths: seq<CallPath>, p: CallPath, c: seq<PathStep>)
      requires Recorded(c, paths) && Hits(paths, p.target) < cfg.maxPathsPerTarget
      ensures Recorded(c, paths + [p])
    {
      HitsAppend(paths, p, End(c));
      if k :| 0 <= k < |paths| && paths[k].steps == c { assert (paths + [p])[k].steps == c; }
    }

    lemma {:induction false} CalleeGrows(s: Search, n: Node, call: CallSite, callee: string, c: seq<PathStep>)
      requires Covered(c, s) && forall t :: Hits(s.paths, t) <= cfg.maxPathsPerTarget
      ensures Covered(c, Callee(s, n, call, callee))
    {
      var r := Callee(s, n, call, callee);
      if Recorded(c, s.paths) {
        if r.paths != s.paths { RecordedGrows(s.paths, r.paths[|s.paths|], c); }
      } else {
        var k :| 0 <= k < |s.queue| && s.queue[k].steps < c;
        assert r.queue[k].steps < c;
      }
    }

    /** The step over `callee` either keeps `c` covered or dirties the search. */
    lemma {:induction false} CalleeCovers(s: Search, n: Node, call: CallSite, callee: string, c: seq<PathStep>)
      requires cfg.Positive() && NodeOk(n) && Qualifies(c) && n.steps < c && c[|n.steps|] == StepFor(n, call, callee)
      requires forall t :: Hits(s.paths, t) <= cfg.maxPathsPerTarget
      requires Clean(Callee(s, n, call, callee))
      ensures Covered(c, Callee(s, n, call, callee))
    {
      QualifiesNext(c, n);
      var k := |n.steps|;
      var r := Callee(s, n, call, callee);
      var steps := n.steps + [StepFor(n, call, callee)];
      assert steps == c[..k + 1];
      if isTarget(callee) {
        assert !Expandable(c[k].callee);
        assert |c| == k + 1;
        assert steps == c;
        if r.paths != s.paths {
          assert r.paths[|s.paths|].steps == c;
        } else {
          assert Hits(s.paths, End(c)) == cfg.maxPathsPerTarget;
        }
      } else {
        assert k < |c| - 1;
        assert Expandable(c[k].callee);
        assert r.queue[|s.queue|].steps < c;
      }
    }

    lemma {:induction false} CalleesCleanBack(s: Search, n: Node, call: CallSite, j: nat)
      requires j <= |call.resolved|
      ensures Clean(Callees(s, n, call, j)) ==> Clean(s)
      decreases |call.resolved| - j
    {
      if j < |call.resolved| {
        CalleesCleanBack(Callee(s, n, call, call.resolved[j]), n, call, j + 1);
      }
    }

    lemma {:induction false} CalleesCover(s: Search, n: Node, call: CallSite, j: nat, c: seq<PathStep>)
      requires cfg.Positive() && Inv(s, n.depth) && NodeOk(n) && n.depth < cfg.maxDepth && Qualifies(c)
      requires call in CallsOf(idx, n.symbol) && j <= |call.resolved|
      requires Covered(c, s) || LeavesOver(c, n, call, j)
      requires Clean(Callees(s, n, call, j))
      ensures Covered(c, Callees(s, n, call, j))
      decreases |call.resolved| - j
    {
      hide Chain, QueueOk, PathsOk, NodeOk, Recorded, Covered, Callee;
      if j < |call.resolved| {
        var callee := call.resolved[j];
        var s1 := Callee(s, n, call, callee);
        CalleeKeepsInv(s, n, call, callee);
        CalleesCleanBack(s1, n, call, j + 1);
        HitsCapped(s, n.depth);
        if Covered(c, s) {
          CalleeGrows(s, n, call, callee, c);
        } else {
          var l :| j <= l < |call.resolved| && c[|n.steps|] == StepFor(n, call, call.resolved[l]);
          if l == j { CalleeCovers(s, n, call, callee, c); } else { assert LeavesOver(c, n, call, j + 1); }
        }
        CalleesCover(s1, n, call, j + 1, c);
      }
    }

    lemma {:induction false} CallsCleanBack(s: Search, n: Node, i: nat)
      requires i <= |CallsOf(idx, n.symbol)| && !s.stopped
      ensures s.polls <= Calls(s, n, i).polls
      ensures Clean(Calls(s, n, i)) ==> Clean(s) && !Calls(s, n, i).stopped
      ensures Clean(Calls(s, n, i)) && i < |CallsOf(idx, n.symbol)| ==> !ctx.Err(s.polls)
      decreases |CallsOf(idx, n.symbol)| - i
    {
      var calls := CallsOf(idx, n.symbol);
      if i < |calls| && !ctx.Err(s.polls) && |s.paths| < cfg.maxPathsTotal {
        var s1 := s.(polls := s.polls + 1, edges := s.edges + 1);
        if s1.edges <= cfg.maxVisitedEdges {
          CalleesCleanBack(s1, n, calls[i], 0);
          CallsCleanBack(Callees(s1, n, calls[i], 0), n, i + 1);
        }
      }
    }

    lemma {:induction false} CallsCover(s: Search, n: Node, i: nat, c: seq<PathStep>)
      requires cfg.Positive() && Inv(s, n.depth) && NodeOk(n) && n.depth < cfg.maxDepth && Qualifies(c)
      requires i <= |CallsOf(idx, n.symbol)| && !s.stopped
      requires Covered(c, s) || LeavesFrom(c, n, i)
      requires Clean(Calls(s, n, i))
      ensures Covered(c, Calls(s, n, i))
      decreases |CallsOf(idx, n.symbol)| - i
    {
      hide Inv, NodeOk, Covered, Qualifies, LeavesOver, Callees;
      var calls := CallsOf(idx, n.symbol);
      CallsCleanBack(s, n, i);
      if i < |calls| {
        var s1 := s.(polls := s.polls + 1, edges := s.edges + 1);
        var s2 := Callees(s1, n, calls[i], 0);
        InvFrame(s, s1, n.depth);
        CalleesKeepInv(s1, n, calls[i], 0);
        CallsCleanBack(s2, n, i + 1);
        if Covered(c, s) {
          CoveredFrame(c, s, s1);
          CalleesCover(s1, n, calls[i], 0, c);
        } else {
          var k :| i <= k < |calls| && LeavesOver(c, n, calls[k], 0);
          if k == i { CalleesCover(s1, n, calls[i], 0, c); } else { assert LeavesFrom(c, n, i + 1); }
        }
        CallsCover(s2, n, i + 1, c);
      }
    }

    lemma {:induction false} CoveredFrame(c: seq<PathStep>, s: Search, r: Search)
      requires r.paths == s.paths && r.queue == s.queue
      ensures Covered(c, s) ==> Covered(c, r)
    {}

    lemma {:induction false} CoveredDequeue(s: Search, c: seq<PathStep>)
      requires Covered(c, s) && s.queue != []
      ensures Covered(c, s.(queue := s.queue[1..], polls := s.polls + 1)) || s.queue[0].steps < c
    {
      var s1 := s.(queue := s.queue[1..], polls := s.polls + 1);
      if !Recorded(c, s.paths) && !(s.queue[0].steps < c) {
        var k :| 0 <= k < |s.queue| && s.queue[k].steps < c;
        assert s1.queue[k - 1].steps < c;
      }
    }

    lemma {:induction false} HeadCovers(s: Search, d: nat, c: seq<PathStep>)
      requires cfg.Positive() && Inv(s, d) && s.queue != [] && !s.stopped && Qualifies(c)
      requires Covered(c, s) && Clean(Head(s))
      ensures Covered(c, Head(s))
    {
      hide Chain, Inv, NodeOk, Covered, Qualifies, Calls, LeavesOver;
      var n := s.queue[0];
      var s1 := s.(queue := s.queue[1..], polls := s.polls + 1);
      DequeueInv(s, d);
      CoveredDequeue(s, c);
      CoveredFrame(c, s1, s1.(truncated := true));
      if !Covered(c, s1) { QualifiesNext(c, n); }
      if n.depth < cfg.maxDepth { CallsCover(s1, n, 0, c); }
    }

    /** A finished search is clean only if every step of it was. */
    lemma {:induction false} LoopCleanBack(s: Search)
      requires !s.stopped ==> s.edges <= cfg.maxVisitedEdges
      requires Clean(Loop(s))
      ensures Clean(s)
      ensures !s.stopped && s.queue != [] ==> !ctx.Err(s.polls) && Clean(Head(s)) && !Head(s).stopped
      decreases cfg.maxVisitedEdges + 1 - s.edges, |s.queue|
    {
      if !s.stopped && s.queue != [] && !ctx.Err(s.polls) && |s.paths| < cfg.maxPathsTotal {
        var n := s.queue[0];
        var s1 := s.(queue := s.queue[1..], polls := s.polls + 1);
        if n.depth < cfg.maxDepth { CallsCleanBack(s1, n, 0); }
        LoopCleanBack(Head(s));
      }
    }

    lemma {:induction false} LoopCovers(s: Search, d: nat, c: seq<PathStep>)
      requires cfg.Positive() && Inv(s, d) && !s.stopped && s.edges <= cfg.maxVisitedEdges
      requires Qualifies(c) && Covered(c, s) && Clean(Loop(s))
      ensures Recorded(c, Loop(s).paths)
      decreases cfg.maxVisitedEdges + 1 - s.edges, |s.queue|
    {
      if s.queue != [] {
        LoopCleanBack(s);
        HeadKeepsInv(s, d);
        HeadCovers(s, d, c);
        LoopCovers(Head(s), s.queue[0].depth, c);
      }
    }

    /** A run that was not flagged, not cancelled and not full has found every qualifying chain. */
    lemma {:induction false} RunComplete()
      requires cfg.Positive() && Clean(Run())
      ensures Complete(Run().paths)
    {
      StartInv();
      forall c | Qualifies(c) ensures Recorded(c, Run().paths) {
        assert Start().queue[0].steps < c;
        assert Covered(c, Start());
        LoopCovers(Start(), 0, c);
      }
    }

    // ----- reachability: loop erasure turns any walk into a chain

    ghost predicate HasCall(caller: string, callee: string) {
      exists call :: call in CallsOf(idx, caller) && callee in call.resolved
    }

    /** Any walk over call edges from the entry, repetitions allowed, whose interior may be expanded. */
    ghost predicate IsWalk(w: seq<string>) {
      && 2 <= |w|
      && w[0] == entry
      && (forall i, j | 0 <= i < j < |w| && j == i + 1 :: HasCall(w[i], w[j]))
      && (forall i | 0 < i < |w| - 1 :: Expandable(w[i]))
    }

    ghost predicate Reaches(target: string) {
      exists w :: IsWalk(w) && w[|w| - 1] == target
    }

    lemma {:induction false} LoopErase(w: seq<string>) returns (e: seq<string>)
      requires IsWalk(w) && w[|w| - 1] != entry
      ensures IsWalk(e) && Distinct(e) && e[|e| - 1] == w[|w| - 1]
      decreases |w|
    {
      if Distinct(w) {
        e := w;
      } else {
        var i, j :| 0 <= i < j < |w| && w[i] == w[j];
        var v := w[..i] + w[j..];
        assert v[|v| - 1] == w[|w| - 1];
        forall k, l | 0 <= k < l < |v| && l == k + 1 ensures HasCall(v[k], v[l]) {
          if l < i { assert HasCall(w[k], w[l]); }
          else if l == i { assert HasCall(w[k], w[i]); }
          else { assert HasCall(w[k - i + j], w[l - i + j]); }
        }
        e := LoopErase(v);
      }
    }

    lemma {:induction false} ChainSnoc(b: seq<PathStep>, st: PathStep)
      requires Chain(b) && EdgeStep(st) && st.order == |b| + 1 && st.caller == End(b)
      requires st.callee != entry && forall i | 0 <= i < |b| :: b[i].callee != st.callee
      ensures Chain(b + [st])
    {
      hide EdgeStep;
    }

    lemma {:induction false} ChainAlong(w: seq<string>, m: nat) returns (c: seq<PathStep>)
      requires IsWalk(w) && Distinct(w) && m < |w|
      ensures |c| == m && Chain(c) && End(c) == w[m]
      ensures forall i | 0 <= i < m :: c[i].callee == w[i + 1]
    {
      hide Chain, EdgeStep;
      if m == 0 {
        c := [];
        ChainEmpty();
      } else {
        var b := ChainAlong(w, m - 1);
        assert HasCall(w[m - 1], w[m]);
        var call :| call in CallsOf(idx, w[m - 1]) && w[m] in call.resolved;
        var st := PathStep(m, w[m - 1], w[m], call.evidence);
        EdgeOver(st, call);
        ChainSnoc(b, st);
        c := b + [st];
      }
    }

    lemma {:induction false} ChainEmpty()
      ensures Chain([])
    {}

    lemma {:induction false} EdgeOver(st: PathStep, call: CallSite)
      requires call in CallsOf(idx, st.caller) && st.callee in call.resolved && st.evidence == call.evidence
      ensures EdgeStep(st)
    {}

    lemma {:induction false} ChainStep(c: seq<PathStep>, i: nat)
      requires Chain(c) && i < |c|
      ensures c[i].caller == (if i == 0 then entry else c[i - 1].callee)
      ensures HasCall(c[i].caller, c[i].callee)
    {
      assert EdgeStep(c[i]);
    }

    lemma {:induction false} WalkAlong(c: seq<PathStep>)
      requires Qualifies(c)
      ensures Reaches(End(c))
    {
      hide Chain, HasCall;
      var w := [entry] + seq(|c|, i requires 0 <= i < |c| => c[i].callee);
      forall i, j | 0 <= i < j < |w| && j == i + 1 ensures HasCall(w[i], w[j]) { ChainStep(c, i); }
      assert IsWalk(w) && w[|w| - 1] == End(c);
    }

    lemma {:induction false} HitsPositive(paths: seq<CallPath>, t: string)
      ensures Hits(paths, t) > 0 <==> exists k :: 0 <= k < |paths| && paths[k].target == t
    {
      if paths != [] {
        HitsPositive(paths[..|paths| - 1], t);
      }
    }

    ghost predicate Reported(t: string, paths: seq<CallPath>) {
      exists k :: 0 <= k < |paths| && paths[k].target == t
    }

    lemma {:induction false} ReachableReported(paths: seq<CallPath>, t: string)
      requires cfg.Positive() && PathsOk(paths) && Complete(paths) && isTarget(t) && t != entry && Reaches(t)
      ensures Reported(t, paths)
    {
      hide Chain, EdgeStep, HasCall;
      var w :| IsWalk(w) && w[|w| - 1] == t;
      var e := LoopErase(w);
      var c := ChainAlong(e, |e| - 1);
      assert Qualifies(c) && Recorded(c, paths);
      HitsPositive(paths, t);
      if k :| 0 <= k < |paths| && paths[k].steps == c { assert PathOk(paths[k]) && paths[k].target == t; }
    }

    /** What a caller reads off a complete result: a target is reported exactly if it can be reached. */
    lemma {:induction false} ReportedIffReachable(paths: seq<CallPath>, t: string)
      requires cfg.Positive() && PathsOk(paths) && Complete(paths) && isTarget(t) && t != entry
      ensures Reported(t, paths) <==> Reaches(t)
    {
      hide Complete, Qualifies, Reaches;
      if Reaches(t) { ReachableReported(paths, t); }
      if Reported(t, paths) {
        var k :| 0 <= k < |paths| && paths[k].target == t;
        assert PathOk(paths[k]);
        WalkAlong(paths[k].steps);
      }
    }

    /**
      What a caller may rely on: soundness, order and caps always; completeness if the walk was neither flagged,
      cancelled nor filled.
     */
    ghost predicate Promise(paths: seq<CallPath>, truncated: bool, polls: nat) {
      && PathsOk(paths)
      && (Uncancelled(polls) && !truncated && |paths| < cfg.maxPathsTotal ==>
            && Complete(paths)
            && forall t | isTarget(t) && t != entry :: Reported(t, paths) <==> Reaches(t))
    }

    lemma {:induction false} RunKeepsPromise()
      requires cfg.Positive()
      ensures Promise(Run().paths, Run().truncated, Run().polls)
    {
      RunPathsOk();
      var paths := Run().paths;
      if Uncancelled(Run().polls) && !Run().truncated && |paths| < cfg.maxPathsTotal {
        RunComplete();
        forall t | isTarget(t) && t != entry ensures Reported(t, paths) <==> Reaches(t) {
          ReportedIffReachable(paths, t);
        }
      }
    }
  }

  // ----- the documented meaning of the flag, and where it fails

  const ONE_PATH := Limits(15, 8, 1, 100, 100)

  function Fan(targets: seq<string>, ctx: Context): Walk {
    Walk(Index(map["e" := [CallSite(targets, "at")]], {}), "e", s => s == "t" || s == "u", ONE_PATH, ctx)
  }

  const TO_T := CallPath("e", "t", [PathStep(1, "e", "t", "at")])

  lemma {:induction false} FanRun(targets: seq<string>)
    requires targets == ["t"] || targets == ["t", "u"]
    ensures Fan(targets, Background).Run().paths == [TO_T] && !Fan(targets, Background).Run().truncated
  {
    var w := Fan(targets, Background);
    var n := Node("e", [], {"e"}, 0);
    var call := CallSite(targets, "at");
    var s := Search([], [], 1, false, 2, false);
    var r := s.(paths := [TO_T]);
    assert n.steps + [StepFor(n, call, "t")] == TO_T.steps;
    assert w.Callee(s, n, call, "t") == r;
    assert w.Callee(r, n, call, "u") == r;
    w.CalleesUnfold(s, n, call, 0);
    w.CalleesUnfold(r, n, call, 1);
    w.CalleesUnfold(r, n, call, |targets|);
    w.CallsUnfold(s.(polls := 1, edges := 0), n, 0);
    w.CallsUnfold(r, n, 1);
    w.LoopUnfold(w.Start());
    w.LoopUnfold(r);
  }

  lemma {:induction false} WholeIsComplete()
    ensures Fan(["t"], Background).Complete([TO_T])
  {
    hide Walk.Run, Walk.Loop, Walk.Calls, Walk.Callees;
    var w := Fan(["t"], Background);
    forall c: seq<PathStep> | w.Qualifies(c) ensures w.Recorded(c, [TO_T]) {
      assert w.EdgeStep(c[0]);
      assert c[0] == TO_T.steps[0];
      assert !w.Expandable(c[0].callee);
      assert c == TO_T.steps;
      assert [TO_T][0].steps == c;
    }
  }

  lemma {:induction false} CutIsNot()
    ensures !Fan(["t", "u"], Background).Complete([TO_T])
  {
    hide Walk.Run, Walk.Loop, Walk.Calls, Walk.Callees;
    var w := Fan(["t", "u"], Background);
    var u := [PathStep(1, "e", "u", "at")];
    assert CallSite(["t", "u"], "at").resolved[1] == "u";
    assert w.EdgeStep(u[0]);
    assert w.Qualifies(u);
    assert [TO_T][..0] == [];
    assert Hits([TO_T], "u") == 0;
    assert !w.Recorded(u, [TO_T]);
  }

  /**
    The flag is documented to be set whenever more paths may exist than were returned.  The total cap
    can nevertheless drop a hit on the last callee of the last node without setting it.  The two walks
    below return the same path and the same clear flag; the first is complete, the second misses the
    path to "u".  So no test of the flag and the paths that accepts a full result can tell them apart,
    and `|paths| < MaxPathsTotal`, which `Promise` asks for, is needed.
   */
  lemma {:induction false} FlagMissesCappedHit() returns (whole: Walk, cut: Walk)
    ensures whole.cfg.Positive() && cut.cfg == whole.cfg && whole.ctx.Background? && cut.ctx.Background?
    ensures whole.Run().paths == cut.Run().paths && |cut.Run().paths| == cut.cfg.maxPathsTotal
    ensures !whole.Run().truncated && !cut.Run().truncated
    ensures whole.Complete(whole.Run().paths) && !cut.Complete(cut.Run().paths)
  {
    whole, cut := Fan(["t"], Background), Fan(["t", "u"], Background);
    FanRun(["t"]);
    FanRun(["t", "u"]);
    WholeIsComplete();
    CutIsNot();
  }

  /** Nor does a cancelled walk set the flag: here nothing is returned although "t" can be reached. */
  lemma {:induction false} FlagMissesCancellation() returns (w: Walk)
    ensures w.cfg.Positive() && w.Run().paths == [] && !w.Run().truncated && w.Reaches("t") && w.isTarget("t")
  {
    w := Fan(["t"], CancelledFrom(0));
    w.LoopUnfold(w.Start());
    assert CallSite(["t"], "at").resolved[0] == "t";
    assert w.HasCall("e", "t");
    assert w.IsWalk(["e", "t"]);
    assert ["e", "t"][1] == "t";
  }

  // ----- the loop nest of the source

  lemma {:induction false} HitsUpdate(counts: map<string, nat>, paths: seq<CallPath>, p: CallPath)
    requires forall t :: Get(counts, t) == Hits(paths, t)
    ensures forall t :: Get(counts[p.target := Get(counts, p.target) + 1], t) == Hits(paths + [p], t)
  {
    forall t ensures Hits(paths + [p], t) == Hits(paths, t) + (if p.target == t then 1 else 0) {
      HitsAppend(paths, p, t);
    }
  }

  /** The innermost loop: every resolved callee of one call of node `n`. */
  method VisitCallees(w: Walk, n: Node, call: CallSite, ghost at: Search, queue0: seq<Node>, paths0: seq<CallPath>,
                      hits0: map<string, nat>, truncated0: bool)
    returns (queue: seq<Node>, paths: seq<CallPath>, hitCounts: map<string, nat>, truncated: bool)
    requires forall t :: Get(hits0, t) == Hits(paths0, t)
    requires at == Search(queue0, paths0, at.edges, truncated0, at.polls, at.stopped)
    ensures forall t :: Get(hitCounts, t) == Hits(paths, t)
    ensures Search(queue, paths, at.edges, truncated, at.polls, at.stopped) == w.Callees(at, n, call, 0)
  {
    hide Walk.Callees;
    queue, paths, hitCounts, truncated := queue0, paths0, hits0, truncated0;
    var j := 0;
    while j < |call.resolved|
      invariant 0 <= j <= |call.resolved|
      invariant forall t :: Get(hitCounts, t) == Hits(paths, t)
      invariant w.Callees(Search(queue, paths, at.edges, truncated, at.polls, at.stopped), n, call, j)
             == w.Callees(at, n, call, 0)
    {
      var callee := call.resolved[j];
      w.CalleesUnfold(Search(queue, paths, at.edges, truncated, at.polls, at.stopped), n, call, j);
      j := j + 1;
      if callee in n.visited {
        continue;
      }
      var steps := n.steps + [StepFor(n, call, callee)];
      if w.isTarget(callee) {
        if Get(hitCounts, callee) < w.cfg.maxPathsPerTarget && |paths| < w.cfg.maxPathsTotal {
          HitsUpdate(hitCounts, paths, CallPath(w.entry, callee, steps));
          paths := paths + [CallPath(w.entry, callee, steps)];
          hitCounts := hitCounts[callee := Get(hitCounts, callee) + 1];
        }
        continue;
      }
      if callee !in w.idx.symbols {
        continue;
      }
      if |queue| >= w.cfg.maxQueuedNodes {
        truncated := true;
        continue;
      }
      queue := queue + [Node(callee, steps, n.visited + {callee}, n.depth + 1)];
    }
    w.CalleesUnfold(Search(queue, paths, at.edges, truncated, at.polls, at.stopped), n, call, j);
  }

  /** The middle loop: every call of node `n`; `at` is the search when the loop is entered. */
  method VisitCalls(w: Walk, n: Node, at: Search, hits0: map<string, nat>)
    returns (r: Search, hitCounts: map<string, nat>)
    requires forall t :: Get(hits0, t) == Hits(at.paths, t)
    requires !at.stopped && at.edges <= w.cfg.maxVisitedEdges
    ensures forall t :: Get(hitCounts, t) == Hits(r.paths, t)
    ensures r == w.Calls(at, n, 0)
  {
    hide Walk.Callees, Walk.Calls;
    var calls := CallsOf(w.idx, n.symbol);
    var queue, paths, truncated := at.queue, at.paths, at.truncated;
    var edgesVisited: nat, polls: nat := at.edges, at.polls;
    hitCounts := hits0;
    var i := 0;
    while i < |calls|
      invariant 0 <= i <= |calls| && edgesVisited <= w.cfg.maxVisitedEdges
      invariant forall t :: Get(hitCounts, t) == Hits(paths, t)
      invariant w.Calls(Search(queue, paths, edgesVisited, truncated, polls, false), n, i) == w.Calls(at, n, 0)
    {
      w.CallsUnfold(Search(queue, paths, edgesVisited, truncated, polls, false), n, i);
      polls := polls + 1;
      if w.ctx.Err(polls - 1) {
        return Search(queue, paths, edgesVisited, truncated, polls, false), hitCounts;
      }
      if |paths| >= w.cfg.maxPathsTotal {
        return Search(queue, paths, edgesVisited, true, polls, false), hitCounts;
      }
      edgesVisited := edgesVisited + 1;
      if edgesVisited > w.cfg.maxVisitedEdges {
        return Search(queue, paths, edgesVisited, true, polls, true), hitCounts;
      }
      queue, paths, hitCounts, truncated := VisitCallees(w, n, calls[i],
        Search(queue, paths, edgesVisited, truncated, polls, false), queue, paths, hitCounts, truncated);
      i := i + 1;
    }
    w.CallsUnfold(Search(queue, paths, edgesVisited, truncated, polls, false), n, i);
    r := Search(queue, paths, edgesVisited, truncated, polls, false);
  }

  /**
    `index` and `isTarget` are `None` where the source has a nil index or a nil predicate.
   */
  method WalkVerbose(index: Option<Index>, entry: string, isTarget: Option<string -> bool>, limits: Limits,
      ctx: Context)
    returns (paths: seq<CallPath>, truncated: bool)
    ensures index.None? || entry == "" || isTarget.None? ==> paths == [] && !truncated
    ensures index.Some? && entry != "" && isTarget.Some? ==>
              var w := Walk(index.value, entry, isTarget.value, limits.WithDefaults(), ctx);
              && paths == w.Run().paths && truncated == w.Run().truncated
              && w.Promise(paths, truncated, w.Run().polls)
  {
    if index.None? || entry == "" || isTarget.None? {
      return [], false;
    }
    hide Walk.Promise, Walk.Callees, Walk.Calls, Walk.Loop;
    var w := Walk(index.value, entry, isTarget.value, limits.WithDefaults(), ctx);
    w.RunKeepsPromise();
    var s := Search([Node(entry, [], {entry}, 0)], [], 0, false, 0, false);
    var hitCounts: map<string, nat> := map[];

    while s.queue != [] && !s.stopped
      invariant !s.stopped ==> s.edges <= w.cfg.maxVisitedEdges
      invariant forall t :: Get(hitCounts, t) == Hits(s.paths, t)
      invariant w.Loop(s) == w.Run()
      decreases w.cfg.maxVisitedEdges + 1 - s.edges, |s.queue|, !s.stopped
    {
      w.LoopUnfold(s);
      if ctx.Err(s.polls) {
        s := s.(polls := s.polls + 1, stopped := true);
      } else if |s.paths| >= w.cfg.maxPathsTotal {
        s := s.(polls := s.polls + 1, truncated := true, stopped := true);
      } else {
        var n := s.queue[0];
        s := s.(queue := s.queue[1..], polls := s.polls + 1);
        if n.depth < w.cfg.maxDepth {
          s, hitCounts := VisitCalls(w, n, s, hitCounts);
        } else if |CallsOf(index.value, n.symbol)| > 0 {
          s := s.(truncated := true);
        }
      }
      w.LoopUnfold(s);
    }
    w.LoopUnfold(s);
    return s.paths, s.truncated;
  }
}
