/**
  The pruned breadth-first search of internal/extractor/scip/walker.go.

  A node is kept for a symbol at most `MaxPathsPerSymbol` times, and calls of an interface method
  are also followed to its implementations.  `Walk` fixes one call of the walker; its functions are
  the search step by step, and the class `WalkSearch` is the source's object, proved equal to them.
  The specification keeps every node ever queued in `log`; the queue is the part from `next` on.
 */
module ScipWalker {
  import opened Cancellation
  import opened Lists
  import opened Wrappers

  datatype CallSite = CallSite(caller: string, callee: string, at: string)

  datatype Path = Path(entry: string, target: string, steps: seq<CallSite>)

  datatype Index = Index(calls: map<string, seq<CallSite>>, implementations: map<string, seq<string>>,
      local: set<string>)
  {
    function CallsFrom(symbol: string): seq<CallSite> {
      if symbol in calls then calls[symbol] else []
    }

    function Implementations(symbol: string): seq<string> {
      if symbol in implementations then implementations[symbol] else []
    }
  }

  datatype Limits = Limits(maxDepth: int, maxPathsPerTarget: int, maxPathsTotal: int,
                           maxPathsPerSymbol: int, maxVisitedEdges: int)
  {
    predicate Positive() {
      0 < maxDepth && 0 < maxPathsPerTarget && 0 < maxPathsTotal && 0 < maxPathsPerSymbol && 0 < maxVisitedEdges
    }

    function WithDefaults(): (c: Limits)
      ensures c.Positive()
      ensures if maxDepth > 0 then c.maxDepth == maxDepth else c.maxDepth == 25
      ensures if maxPathsPerTarget > 0 then c.maxPathsPerTarget == maxPathsPerTarget else c.maxPathsPerTarget == 8
      ensures if maxPathsTotal > 0 then c.maxPathsTotal == maxPathsTotal else c.maxPathsTotal == 1000
      ensures if maxPathsPerSymbol > 0 then c.maxPathsPerSymbol == maxPathsPerSymbol else c.maxPathsPerSymbol == 3
      ensures if maxVisitedEdges > 0 then c.maxVisitedEdges == maxVisitedEdges else c.maxVisitedEdges == 50000
    {
      Limits(if maxDepth <= 0 then 25 else maxDepth,
             if maxPathsPerTarget <= 0 then 8 else maxPathsPerTarget,
             if maxPathsTotal <= 0 then 1000 else maxPathsTotal,
             if maxPathsPerSymbol <= 0 then 3 else maxPathsPerSymbol,
             if maxVisitedEdges <= 0 then 50000 else maxVisitedEdges)
    }
  }

  datatype Node = Node(symbol: string, depth: nat, steps: seq<CallSite>, seen: set<string>)

  datatype Search = Search(log: seq<Node>, next: nat, paths: seq<Path>, visited: nat, polls: nat, stopped: bool)

  /** How many recorded paths end at `target` (what `hitCounts` caches). */
  function Hits(paths: seq<Path>, target: string): nat {
    if paths == [] then 0
    else Hits(paths[..|paths| - 1], target) + (if paths[|paths| - 1].target == target then 1 else 0)
  }

  /** How many nodes were queued for `symbol` (what `kept` caches). */
  function Kept(log: seq<Node>, symbol: string): nat {
    if log == [] then 0
    else Kept(log[..|log| - 1], symbol) + (if log[|log| - 1].symbol == symbol then 1 else 0)
  }

  lemma {:induction false} HitsAppend(paths: seq<Path>, p: Path, t: string)
    ensures Hits(paths + [p], t) == Hits(paths, t) + (if p.target == t then 1 else 0)
  {
    assert (paths + [p])[..|paths + [p]| - 1] == paths;
  }

  lemma {:induction false} KeptAppend(log: seq<Node>, n: Node, t: string)
    ensures Kept(log + [n], t) == Kept(log, t) + (if n.symbol == t then 1 else 0)
  {
    assert (log + [n])[..|log + [n]| - 1] == log;
  }

  lemma {:induction false} HitsPositive(paths: seq<Path>, t: string)
    ensures Hits(paths, t) > 0 <==> exists k :: 0 <= k < |paths| && paths[k].target == t
  {
    if paths != [] { HitsPositive(paths[..|paths| - 1], t); }
  }

  lemma {:induction false} KeptPositive(log: seq<Node>, t: string)
    ensures Kept(log, t) > 0 <==> exists k :: 0 <= k < |log| && log[k].symbol == t
  {
    if log != [] { KeptPositive(log[..|log| - 1], t); }
  }

  datatype Walk = Walk(idx: Index, entry: string, isTarget: string -> bool, cfg: Limits, ctx: Context) {

    // ----- the search, step by step

    function Record(s: Search, target: string, steps: seq<CallSite>): Search {
      if |steps| == 0 || |s.paths| >= cfg.maxPathsTotal then s
      else if Hits(s.paths, target) >= cfg.maxPathsPerTarget then s
      else s.(paths := s.paths + [Path(entry, target, steps)])
    }

    /** Queue a node for `symbol` if it is local and not yet kept too often. */
    function Enqueue(s: Search, n: Node, symbol: string, steps: seq<CallSite>): Search {
      if symbol in idx.local && Kept(s.log, symbol) < cfg.maxPathsPerSymbol
      then s.(log := s.log + [Node(symbol, n.depth + 1, steps, n.seen + {symbol})])
      else s
    }

    function Impl(s: Search, n: Node, steps: seq<CallSite>, impl: string): Search {
      if impl in n.seen then s
      else if isTarget(impl) then Record(s, impl, steps)
      else Enqueue(s, n, impl, steps)
    }

    function Impls(s: Search, n: Node, steps: seq<CallSite>, impls: seq<string>, j: nat): (r: Search)
      requires j <= |impls|
      ensures r.visited == s.visited && r.polls == s.polls && r.stopped == s.stopped && r.next == s.next
      ensures |s.log| <= |r.log|
      decreases |impls| - j
    {
      if j == |impls| then s else Impls(Impl(s, n, steps, impls[j]), n, steps, impls, j + 1)
    }

    function Call(s: Search, n: Node, call: CallSite): (r: Search)
      ensures r.visited == s.visited && r.polls == s.polls && r.stopped == s.stopped && r.next == s.next
      ensures |s.log| <= |r.log|
    {
      var steps := n.steps + [call];
      if isTarget(call.callee) then Record(s, call.callee, steps)
      else
        var s1 := Impls(s, n, steps, idx.Implementations(call.callee), 0);
        if call.callee in n.seen then s1 else Enqueue(s1, n, call.callee, steps)
    }

    function Calls(s: Search, n: Node, i: nat): (r: Search)
      requires i <= |idx.CallsFrom(n.symbol)|
      requires !s.stopped && s.visited <= cfg.maxVisitedEdges
      ensures s.visited <= r.visited && r.next == s.next && |s.log| <= |r.log|
      ensures r.visited == s.visited ==> r.log == s.log
      ensures !r.stopped ==> r.visited <= cfg.maxVisitedEdges
      decreases |idx.CallsFrom(n.symbol)| - i
    {
      var calls := idx.CallsFrom(n.symbol);
      if i == |calls| then s
      else if ctx.Err(s.polls) || |s.paths| >= cfg.maxPathsTotal then s.(polls := s.polls + 1, stopped := true)
      else if s.visited >= cfg.maxVisitedEdges
      then s.(polls := s.polls + 1, visited := s.visited + 1, stopped := true)
      else Calls(Call(s.(polls := s.polls + 1, visited := s.visited + 1), n, calls[i]), n, i + 1)
    }

    predicate Ready(s: Search) {
      s.next <= |s.log| && (!s.stopped ==> s.visited <= cfg.maxVisitedEdges)
    }

    function Head(s: Search): (r: Search)
      requires Ready(s) && s.next < |s.log| && !s.stopped
      ensures Ready(r)
      ensures s.visited < r.visited || (r.visited == s.visited && r.log == s.log && r.next == s.next + 1)
    {
      var n := s.log[s.next];
      var s1 := s.(next := s.next + 1, polls := s.polls + 1);
      if n.depth >= cfg.maxDepth then s1 else Calls(s1, n, 0)
    }

    function Loop(s: Search): (r: Search)
      requires Ready(s)
      decreases cfg.maxVisitedEdges + 1 - s.visited, |s.log| - s.next
    {
      if s.stopped || s.next == |s.log| then s
      else if ctx.Err(s.polls) || |s.paths| >= cfg.maxPathsTotal then s.(polls := s.polls + 1, stopped := true)
      else Loop(Head(s))
    }

    function Start(): Search {
      Search([Node(entry, 0, [], {entry})], 0, [], 0, 0, false)
    }

    function Run(): Search
      requires cfg.Positive()
    {
      Loop(Start())
    }

    // The loops of the class hide the recursive definitions and unfold them by these lemmas.

    lemma {:induction false} ImplsUnfold(s: Search, n: Node, steps: seq<CallSite>, impls: seq<string>, j: nat)
      requires j <= |impls|
      ensures Impls(s, n, steps, impls, j) ==
              if j == |impls| then s else Impls(Impl(s, n, steps, impls[j]), n, steps, impls, j + 1)
    {}

    lemma {:induction false} CallsUnfold(s: Search, n: Node, i: nat)
      requires i <= |idx.CallsFrom(n.symbol)| && !s.stopped && s.visited <= cfg.maxVisitedEdges
      ensures Calls(s, n, i) ==
              if i == |idx.CallsFrom(n.symbol)| then s
              else if ctx.Err(s.polls) || |s.paths| >= cfg.maxPathsTotal then s.(polls := s.polls + 1, stopped := true)
              else if s.visited >= cfg.maxVisitedEdges
              then s.(polls := s.polls + 1, visited := s.visited + 1, stopped := true)
              else Calls(Call(s.(polls := s.polls + 1, visited := s.visited + 1), n, idx.CallsFrom(n.symbol)[i]), n,
                  i + 1)
    {}

    lemma {:induction false} LoopUnfold(s: Search)
      requires Ready(s)
      ensures Loop(s) ==
              if s.stopped || s.next == |s.log| then s
              else if ctx.Err(s.polls) || |s.paths| >= cfg.maxPathsTotal then s.(polls := s.polls + 1, stopped := true)
              else Loop(Head(s))
    {}

    // ----- what the search is about

    predicate Expandable(symbol: string) {
      symbol in idx.local && !isTarget(symbol)
    }

    /** A hop: a call, or a call of a symbol that is no target plus one of its implementations. */
    predicate HopVia(call: CallSite, to: string) {
      to == call.callee || (!isTarget(call.callee) && to in idx.Implementations(call.callee))
    }

    predicate Hop(from: string, call: CallSite, to: string) {
      call in idx.CallsFrom(from) && HopVia(call, to)
    }

    /** `syms` are the symbols along `steps`; those between the first and the last may be expanded. */
    ghost predicate Trail(syms: seq<string>, steps: seq<CallSite>) {
      && |syms| == |steps| + 1
      && syms[0] == entry
      && (forall i, j | 0 <= i < |steps| && j == i + 1 :: Hop(syms[i], steps[i], syms[j]))
      && (forall i | 0 < i < |steps| :: Expandable(syms[i]))
    }

    /** No symbol twice, but that a target may be called again that the trail began at. */
    ghost predicate Simple(syms: seq<string>, steps: seq<CallSite>)
      requires |syms| == |steps| + 1
    {
      var n := |steps|;
      Distinct(syms[..n]) && (n > 0 && syms[n] in syms[..n] ==> syms[n] == steps[n - 1].callee)
    }

    ghost predicate PathOver(p: Path, syms: seq<string>) {
      Trail(syms, p.steps) && syms[|syms| - 1] == p.target && Simple(syms, p.steps)
    }

    ghost predicate PathOk(p: Path) {
      && p.entry == entry && isTarget(p.target) && 1 <= |p.steps| <= cfg.maxDepth
      && exists syms :: PathOver(p, syms)
    }

    /** Sound, in breadth-first order and within the caps. */
    ghost predicate PathsOk(paths: seq<Path>) {
      && (forall k | 0 <= k < |paths| :: PathOk(paths[k]))
      && (forall k, l | 0 <= k < l < |paths| :: |paths[k].steps| <= |paths[l].steps|)
      && |paths| <= cfg.maxPathsTotal
      && (forall t :: Hits(paths, t) <= cfg.maxPathsPerTarget)
    }

    // ----- invariant of the search

    ghost predicate NodeOver(n: Node, syms: seq<string>) {
      && Trail(syms, n.steps) && syms[|syms| - 1] == n.symbol && Distinct(syms)
      && (|syms| > 1 ==> Expandable(n.symbol))
      && n.seen == set i | 0 <= i < |syms| :: syms[i]
    }

    ghost predicate NodeOk(n: Node) {
      n.depth == |n.steps| <= cfg.maxDepth && exists syms :: NodeOver(n, syms)
    }

    ghost predicate Logged(log: seq<Node>, symbol: string, depth: int) {
      exists k :: 0 <= k < |log| && log[k].symbol == symbol && log[k].depth <= depth
    }

    ghost predicate LogOk(log: seq<Node>) {
      && |log| > 0 && log[0] == Start().log[0]
      && (forall k | 0 <= k < |log| :: NodeOk(log[k]))
      && (forall k, l | 0 <= k < l < |log| :: log[k].depth <= log[l].depth)
      && (forall k, x | 0 <= k < |log| && x in log[k].seen :: Logged(log, x, log[k].depth))
    }

    ghost predicate KeptOk(log: seq<Node>) {
      forall t :: Kept(log, t) <= cfg.maxPathsPerSymbol
    }

    /** Nodes of depth `d` are being worked on. */
    ghost predicate Inv(s: Search, d: nat) {
      && LogOk(s.log) && KeptOk(s.log) && PathsOk(s.paths)
      && s.log[|s.log| - 1].depth <= d + 1
      && (forall k | 0 <= k < |s.paths| :: |s.paths[k].steps| <= d + 1)
    }

    lemma {:induction false} InvFrame(s: Search, r: Search, d: nat)
      requires Inv(s, d) && r.log == s.log && r.paths == s.paths
      ensures Inv(r, d)
    {
      hide PathsOk, LogOk, KeptOk;
    }

    lemma {:induction false} NodeExtend(n: Node, call: CallSite, to: string) returns (syms: seq<string>)
      requires NodeOk(n) && n.depth < cfg.maxDepth && Hop(n.symbol, call, to)
      ensures Trail(syms, n.steps + [call]) && syms[|syms| - 1] == to && Distinct(syms[..|syms| - 1])
      ensures n.seen == set i | 0 <= i < |syms| - 1 :: syms[i]
    {
      var w :| NodeOver(n, w);
      syms := w + [to];
      assert syms[..|syms| - 1] == w;
      assert forall i | 0 <= i < |w| :: syms[i] == w[i];
    }

    lemma {:induction false} RecordKeepsInv(s: Search, n: Node, call: CallSite, to: string)
      requires cfg.Positive() && Inv(s, n.depth) && NodeOk(n) && n.depth < cfg.maxDepth && Hop(n.symbol, call, to)
          && isTarget(to)
      requires to !in n.seen || to == call.callee
      ensures Inv(Record(s, to, n.steps + [call]), n.depth)
    {
      hide LogOk, KeptOk, Trail, Distinct;
      var syms := NodeExtend(n, call, to);
      var p := Path(entry, to, n.steps + [call]);
      assert syms[..|p.steps|] == syms[..|syms| - 1];
      assert PathOver(p, syms);
      assert PathOk(p);
      PathsAppend(s.paths, p);
    }

    lemma {:induction false} PathsAppend(paths: seq<Path>, p: Path)
      requires PathsOk(paths) && PathOk(p) && forall k | 0 <= k < |paths| :: |paths[k].steps| <= |p.steps|
      ensures |paths| < cfg.maxPathsTotal && Hits(paths, p.target) < cfg.maxPathsPerTarget ==> PathsOk(paths + [p])
    {
      hide PathOk;
      if |paths| < cfg.maxPathsTotal && Hits(paths, p.target) < cfg.maxPathsPerTarget {
        forall t ensures Hits(paths + [p], t) <= cfg.maxPathsPerTarget { HitsAppend(paths, p, t); }
      }
    }

    lemma {:induction false} LogAppend(log: seq<Node>, m: Node)
      requires LogOk(log) && NodeOk(m) && log[|log| - 1].depth <= m.depth
      requires forall x | x in m.seen :: x == m.symbol || Logged(log, x, m.depth)
      ensures LogOk(log + [m])
    {
      hide NodeOk;
      var r := log + [m];
      forall k, x | 0 <= k < |r| && x in r[k].seen ensures Logged(r, x, r[k].depth) {
        if k < |log| {
          var l :| 0 <= l < |log| && log[l].symbol == x && log[l].depth <= log[k].depth;
          assert r[l].symbol == x;
        } else if x == m.symbol {
          assert r[|log|].symbol == x;
        } else {
          var l :| 0 <= l < |log| && log[l].symbol == x && log[l].depth <= m.depth;
          assert r[l].symbol == x;
        }
      }
    }

    lemma {:induction false} NodeOfHopOk(n: Node, call: CallSite, to: string)
      requires NodeOk(n) && n.depth < cfg.maxDepth && Hop(n.symbol, call, to) && Expandable(to) && to !in n.seen
      ensures NodeOk(Node(to, n.depth + 1, n.steps + [call], n.seen + {to}))
    {
      var syms := NodeExtend(n, call, to);
      hide Hop, Expandable;
      var m := Node(to, n.depth + 1, n.steps + [call], n.seen + {to});
      assert Distinct(syms) by {
        forall i, j | 0 <= i < j < |syms| ensures syms[i] != syms[j] {
          if j == |syms| - 1 {
            assert syms[i] in n.seen;
          } else {
            assert syms[..|syms| - 1][i] != syms[..|syms| - 1][j];
          }
        }
      }
      assert m.seen == set i | 0 <= i < |syms| :: syms[i];
      assert NodeOver(m, syms);
    }

    lemma {:induction false} EnqueueKeepsInv(s: Search, n: Node, call: CallSite, to: string)
      requires cfg.Positive() && Inv(s, n.depth) && n in s.log && n.depth < cfg.maxDepth && Hop(n.symbol, call, to)
      requires !isTarget(to) && to !in n.seen
      ensures Inv(Enqueue(s, n, to, n.steps + [call]), n.depth)
    {
      hide NodeOk, PathsOk;
      if to in idx.local && Kept(s.log, to) < cfg.maxPathsPerSymbol {
        var m := Node(to, n.depth + 1, n.steps + [call], n.seen + {to});
        NodeOfHopOk(n, call, to);
        forall x | x in m.seen ensures x == m.symbol || Logged(s.log, x, m.depth) {
          if x in n.seen { assert Logged(s.log, x, n.depth); }
        }
        LogAppend(s.log, m);
        forall t ensures Kept(s.log + [m], t) <= cfg.maxPathsPerSymbol { KeptAppend(s.log, m, t); }
      }
    }

    // ----- nothing is lost: every hop from an expanded node is dealt with

    /** Nothing was cut so far and there is room for one more path. */
    predicate Clean(s: Search) {
      !s.stopped && |s.paths| < cfg.maxPathsTotal
    }

    ghost predicate Found(paths: seq<Path>, target: string, length: int) {
      exists k :: 0 <= k < |paths| && paths[k].target == target && |paths[k].steps| <= length
    }

    /** The symbol `to`, one hop from a node of depth `d`, is recorded or queued no deeper than it should be. */
    ghost predicate Handled(s: Search, to: string, d: nat) {
      if isTarget(to) then to == entry || Found(s.paths, to, d + 1)
      else to in idx.local ==> Logged(s.log, to, d + 1)
    }

    predicate Grows(s: Search, r: Search) {
      s.log <= r.log && s.paths <= r.paths
    }

    lemma {:induction false} HandledGrows(s: Search, r: Search, to: string, d: nat)
      requires Grows(s, r) && Handled(s, to, d)
      ensures Handled(r, to, d)
    {
      if isTarget(to) && to != entry {
        var k :| 0 <= k < |s.paths| && s.paths[k].target == to && |s.paths[k].steps| <= d + 1;
        assert r.paths[k] == s.paths[k];
      } else if !isTarget(to) && to in idx.local {
        var k :| 0 <= k < |s.log| && s.log[k].symbol == to && s.log[k].depth <= d + 1;
        assert r.log[k] == s.log[k];
      }
    }

    lemma {:induction false} RecordHandles(s: Search, n: Node, call: CallSite, to: string)
      requires cfg.Positive() && Inv(s, n.depth) && n.depth == |n.steps| && isTarget(to)
      requires Clean(Record(s, to, n.steps + [call]))
      ensures Handled(Record(s, to, n.steps + [call]), to, n.depth)
    {
      hide LogOk, KeptOk, PathsOk;
      var r := Record(s, to, n.steps + [call]);
      if r.paths == s.paths {
        HitsPositive(s.paths, to);
      } else {
        assert r.paths[|s.paths|].target == to;
      }
    }

    lemma {:induction false} EnqueueHandles(s: Search, n: Node, to: string, steps: seq<CallSite>)
      requires cfg.Positive() && Inv(s, n.depth) && !isTarget(to)
      ensures Handled(Enqueue(s, n, to, steps), to, n.depth)
    {
      hide NodeOk, KeptOk, PathsOk;
      var r := Enqueue(s, n, to, steps);
      if to in idx.local {
        if r.log == s.log {
          KeptPositive(s.log, to);
          var k :| 0 <= k < |s.log| && s.log[k].symbol == to;
          assert s.log[k].depth <= s.log[|s.log| - 1].depth;
        } else {
          assert r.log[|s.log|].symbol == to;
        }
      }
    }

    /** What is on the path of a queued node was queued before; only the entry among it can be a target. */
    lemma {:induction false} SeenHandled(s: Search, n: Node, to: string)
      requires Inv(s, n.depth) && n in s.log && to in n.seen
      ensures Handled(s, to, n.depth)
    {
      hide KeptOk, PathsOk, Hop;
      var syms :| NodeOver(n, syms);
      var i :| 0 <= i < |syms| && syms[i] == to;
      assert i > 0 ==> Expandable(syms[i]);
      assert Logged(s.log, to, n.depth);
    }

    lemma {:induction false} ImplStep(s: Search, n: Node, call: CallSite, to: string)
      requires cfg.Positive() && Inv(s, n.depth) && n in s.log && n.depth < cfg.maxDepth && Hop(n.symbol, call, to)
      ensures var r := Impl(s, n, n.steps + [call], to);
              && Inv(r, n.depth) && Grows(s, r)
              && (Clean(r) ==> Clean(s) && Handled(r, to, n.depth))
    {
      LogNodeOk(s, n);
      hide Inv, NodeOk, Handled;
      if to in n.seen {
        SeenHandled(s, n, to);
      } else if isTarget(to) {
        RecordKeepsInv(s, n, call, to);
        if Clean(Record(s, to, n.steps + [call])) { RecordHandles(s, n, call, to); }
      } else {
        EnqueueKeepsInv(s, n, call, to);
        EnqueueHandles(s, n, to, n.steps + [call]);
      }
    }

    lemma {:induction false} LogNodeOk(s: Search, n: Node)
      requires Inv(s, n.depth) && n in s.log
      ensures NodeOk(n) && n.depth == |n.steps|
    {
      hide PathsOk, KeptOk;
    }

    lemma {:induction false} ImplsStep(s: Search, n: Node, call: CallSite, j: nat)
      requires cfg.Positive() && Inv(s, n.depth) && n in s.log && n.depth < cfg.maxDepth
          && call in idx.CallsFrom(n.symbol)
      requires !isTarget(call.callee) && j <= |idx.Implementations(call.callee)|
      ensures var impls := idx.Implementations(call.callee);
              var r := Impls(s, n, n.steps + [call], impls, j);
              && Inv(r, n.depth) && Grows(s, r)
              && (Clean(r) ==> Clean(s) && forall k | j <= k < |impls| :: Handled(r, impls[k], n.depth))
      decreases |idx.Implementations(call.callee)| - j
    {
      hide Inv, Handled, Impl;
      var impls := idx.Implementations(call.callee);
      if j < |impls| {
        ImplStep(s, n, call, impls[j]);
        var s1 := Impl(s, n, n.steps + [call], impls[j]);
        ImplsStep(s1, n, call, j + 1);
        var r := Impls(s1, n, n.steps + [call], impls, j + 1);
        if Clean(r) { HandledGrows(s1, r, impls[j], n.depth); }
      }
    }

    lemma {:induction false} TargetCallStep(s: Search, n: Node, call: CallSite)
      requires cfg.Positive() && Inv(s, n.depth) && n in s.log && n.depth < cfg.maxDepth
          && call in idx.CallsFrom(n.symbol)
      requires isTarget(call.callee)
      ensures var r := Call(s, n, call);
              && Inv(r, n.depth) && Grows(s, r)
              && (Clean(r) ==> Clean(s) && Handled(r, call.callee, n.depth))
    {
      hide Inv, NodeOk, Handled, Impls;
      LogNodeOk(s, n);
      RecordKeepsInv(s, n, call, call.callee);
      if Clean(Record(s, call.callee, n.steps + [call])) { RecordHandles(s, n, call, call.callee); }
    }

    lemma {:induction false} LocalCallStep(s: Search, n: Node, call: CallSite)
      requires cfg.Positive() && Inv(s, n.depth) && n in s.log && n.depth < cfg.maxDepth
          && call in idx.CallsFrom(n.symbol)
      requires !isTarget(call.callee)
      ensures var r := Call(s, n, call);
              && Inv(r, n.depth) && Grows(s, r)
              && (Clean(r) ==> Clean(s) && forall to | HopVia(call, to) :: Handled(r, to, n.depth))
    {
      hide Inv, Handled, Impls;
      var impls := idx.Implementations(call.callee);
      ImplsStep(s, n, call, 0);
      var s1 := Impls(s, n, n.steps + [call], impls, 0);
      var r := Call(s, n, call);
      assert n in s1.log;
      if call.callee in n.seen {
        SeenHandled(s1, n, call.callee);
      } else {
        EnqueueKeepsInv(s1, n, call, call.callee);
        EnqueueHandles(s1, n, call.callee, n.steps + [call]);
      }
      if Clean(r) {
        forall to | HopVia(call, to) ensures Handled(r, to, n.depth) {
          if to in impls { HandledGrows(s1, r, to, n.depth); }
        }
      }
    }

    lemma {:induction false} CallStep(s: Search, n: Node, call: CallSite)
      requires cfg.Positive() && Inv(s, n.depth) && n in s.log && n.depth < cfg.maxDepth
          && call in idx.CallsFrom(n.symbol)
      ensures var r := Call(s, n, call);
              && Inv(r, n.depth) && Grows(s, r)
              && (Clean(r) ==> Clean(s) && forall to | HopVia(call, to) :: Handled(r, to, n.depth))
    {
      hide Inv, Handled, Call;
      if isTarget(call.callee) { TargetCallStep(s, n, call); } else { LocalCallStep(s, n, call); }
    }

    ghost predicate ExpandedFrom(s: Search, n: Node, i: nat) {
      forall k, to | i <= k < |idx.CallsFrom(n.symbol)| && HopVia(idx.CallsFrom(n.symbol)[k], to) ::
          Handled(s, to, n.depth)
    }

    lemma {:induction false} CallsStep(s: Search, n: Node, i: nat)
      requires cfg.Positive() && Inv(s, n.depth) && n in s.log && n.depth < cfg.maxDepth
      requires i <= |idx.CallsFrom(n.symbol)| && !s.stopped && s.visited <= cfg.maxVisitedEdges
      ensures var r := Calls(s, n, i);
              && Inv(r, n.depth) && Grows(s, r)
              && (Clean(r) ==> Clean(s) && ExpandedFrom(r, n, i))
      decreases |idx.CallsFrom(n.symbol)| - i
    {
      hide Inv, Handled, HopVia, Call;
      var calls := idx.CallsFrom(n.symbol);
      InvFrame(s, s.(polls := s.polls + 1, stopped := true), n.depth);
      InvFrame(s, s.(polls := s.polls + 1, visited := s.visited + 1, stopped := true), n.depth);
      if i < |calls| && !ctx.Err(s.polls) && |s.paths| < cfg.maxPathsTotal && s.visited < cfg.maxVisitedEdges {
        var s1 := s.(polls := s.polls + 1, visited := s.visited + 1);
        InvFrame(s, s1, n.depth);
        CallStep(s1, n, calls[i]);
        var s2 := Call(s1, n, calls[i]);
        CallsStep(s2, n, i + 1);
        var r := Calls(s2, n, i + 1);
        if Clean(r) {
          forall k, to | i <= k < |calls| && HopVia(calls[k], to) ensures Handled(r, to, n.depth) {
            if k == i { HandledGrows(s2, r, to, n.depth); }
          }
        }
      }
    }

    /** Every node before `next` that was allowed to be expanded has been. */
    ghost predicate DoneOk(s: Search) {
      forall k | 0 <= k < s.next <= |s.log| && s.log[k].depth < cfg.maxDepth :: ExpandedFrom(s, s.log[k], 0)
    }

    lemma {:induction false} DoneGrows(s: Search, r: Search)
      requires Grows(s, r) && DoneOk(s) && s.next <= |s.log| && r.next == s.next + 1 <= |r.log|
      requires r.log[s.next].depth < cfg.maxDepth ==> ExpandedFrom(r, r.log[s.next], 0)
      ensures DoneOk(r)
    {
      hide Handled, HopVia;
      forall k | 0 <= k < r.next && r.log[k].depth < cfg.maxDepth ensures ExpandedFrom(r, r.log[k], 0) {
        if k < s.next {
          var n := s.log[k];
          assert ExpandedFrom(s, n, 0);
          forall i, to | 0 <= i < |idx.CallsFrom(n.symbol)| && HopVia(idx.CallsFrom(n.symbol)[i], to)
            ensures Handled(r, to, n.depth)
          {
            HandledGrows(s, r, to, n.depth);
          }
        }
      }
    }

    lemma {:induction false} InvDeeper(s: Search, d: nat)
      requires Inv(s, d) && s.next < |s.log| && d <= s.log[s.next].depth
      ensures Inv(s, s.log[s.next].depth)
    {
      hide LogOk, KeptOk, PathsOk;
      assert |s.log| > 0;
    }

    lemma {:induction false} NextDeeper(s: Search, d: nat, k: nat)
      requires Inv(s, d) && k < s.next < |s.log|
      ensures s.log[k].depth <= s.log[s.next].depth
    {
      hide KeptOk, PathsOk;
    }

    /** The depth being worked on: that of the last node taken from the queue. */
    function Level(s: Search): nat
      requires s.next <= |s.log|
    {
      if s.next == 0 then 0 else s.log[s.next - 1].depth
    }

    lemma {:induction false} HeadStep(s: Search)
      requires cfg.Positive() && Ready(s) && s.next < |s.log| && !s.stopped && Inv(s, Level(s))
      ensures var r := Head(s);
              && r.next == s.next + 1 && Inv(r, Level(r)) && Grows(s, r)
              && (Clean(r) ==> Clean(s) && (DoneOk(s) ==> DoneOk(r)))
    {
      hide LogOk, KeptOk, PathsOk, ExpandedFrom, Calls, DoneOk;
      var n := s.log[s.next];
      var s1 := s.(next := s.next + 1, polls := s.polls + 1);
      if s.next > 0 { NextDeeper(s, Level(s), s.next - 1); }
      InvDeeper(s, Level(s));
      InvFrame(s, s1, n.depth);
      if n.depth < cfg.maxDepth { CallsStep(s1, n, 0); }
      var r := Head(s);
      assert r.log[s.next] == n;
      if Clean(r) && DoneOk(s) { DoneGrows(s, r); }
    }

    lemma {:induction false} LoopStep(s: Search)
      requires cfg.Positive() && Ready(s) && Inv(s, Level(s))
      ensures var r := Loop(s);
              && r.next <= |r.log| && Inv(r, Level(r))
              && (Clean(r) ==> Clean(s) && r.next == |r.log| && (DoneOk(s) ==> DoneOk(r)))
      decreases cfg.maxVisitedEdges + 1 - s.visited, |s.log| - s.next
    {
      hide Inv, DoneOk, Head;
      InvFrame(s, s.(polls := s.polls + 1, stopped := true), Level(s));
      if !s.stopped && s.next < |s.log| && !ctx.Err(s.polls) && |s.paths| < cfg.maxPathsTotal {
        HeadStep(s);
        LoopStep(Head(s));
      }
    }

    // ----- the results

    lemma {:induction false} StartOk()
      requires cfg.Positive()
      ensures Inv(Start(), Level(Start())) && DoneOk(Start())
    {
      var n := Start().log[0];
      var syms := [entry];
      assert n.seen == set i | 0 <= i < |syms| :: syms[i] by { assert syms[0] == entry; }
      assert NodeOver(n, syms);
      assert Start().log[0].symbol == entry;
      assert forall t :: Kept(Start().log, t) <= 1 by { assert Start().log[..0] == []; }
    }

    /** Soundness, order and caps of every run. */
    lemma {:induction false} RunPathsOk()
      requires cfg.Positive()
      ensures PathsOk(Run().paths)
    {
      StartOk();
      LoopStep(Start());
    }

    /** Every symbol a trail passes through was queued, no deeper than the trail reaches it. */
    lemma {:induction false} TrailLogged(s: Search, syms: seq<string>, steps: seq<CallSite>, k: nat)
      requires s.next == |s.log| && Inv(s, Level(s)) && DoneOk(s) && Trail(syms, steps) && k < |steps|
          && k < cfg.maxDepth
      ensures Logged(s.log, syms[k], k)
    {
      hide NodeOk, PathsOk, KeptOk;
      if k == 0 {
        assert s.log[0].symbol == syms[0];
      } else {
        TrailLogged(s, syms, steps, k - 1);
        HopHandled(s, syms[k - 1], steps[k - 1], syms[k], k - 1);
        assert Expandable(syms[k]);
      }
    }

    lemma {:induction false} HopHandled(s: Search, from: string, call: CallSite, to: string, d: nat)
      requires DoneOk(s) && s.next == |s.log| && Logged(s.log, from, d) && d < cfg.maxDepth && Hop(from, call, to)
      ensures Handled(s, to, d)
    {
      var m :| 0 <= m < |s.log| && s.log[m].symbol == from && s.log[m].depth <= d;
      assert ExpandedFrom(s, s.log[m], 0);
      var i :| 0 <= i < |idx.CallsFrom(from)| && idx.CallsFrom(from)[i] == call;
      assert HopVia(idx.CallsFrom(from)[i], to);
      assert Handled(s, to, s.log[m].depth);
    }

    /** A trail of `length` hops leads to `target`. */
    ghost predicate TrailTo(target: string, length: nat) {
      exists syms, steps :: Trail(syms, steps) && |steps| == length && syms[length] == target
    }

    /** `length` is the number of hops of a shortest trail to `target`. */
    ghost predicate Distance(target: string, length: nat) {
      TrailTo(target, length) && forall other: nat | TrailTo(target, other) && other > 0 :: length <= other
    }

    ghost predicate First(paths: seq<Path>, target: string, f: int) {
      0 <= f < |paths| && paths[f].target == target && forall g | 0 <= g < f :: paths[g].target != target
    }

    lemma {:induction false} FirstExists(paths: seq<Path>, target: string, k: nat) returns (f: nat)
      requires k < |paths| && paths[k].target == target
      ensures First(paths, target, f) && f <= k
    {
      f := 0;
      while paths[f].target != target
        invariant f <= k
        decreases k - f
        invariant forall g | 0 <= g < f :: paths[g].target != target
      {
        f := f + 1;
      }
    }

    /** Pruning never costs a target: some path is recorded, as short as any trail within the depth limit. */
    lemma {:induction false} TrailFound(s: Search, target: string, length: nat)
      requires cfg.Positive() && s.next == |s.log| && Inv(s, Level(s)) && DoneOk(s)
      requires TrailTo(target, length) && 1 <= length <= cfg.maxDepth && isTarget(target) && target != entry
      ensures Found(s.paths, target, length)
    {
      hide LogOk, KeptOk, PathsOk;
      var syms, steps :| Trail(syms, steps) && |steps| == length && syms[length] == target;
      TrailLogged(s, syms, steps, length - 1);
      HopHandled(s, syms[length - 1], steps[length - 1], target, length - 1);
    }

    lemma {:induction false} PathIsTrail(p: Path)
      requires PathOk(p)
      ensures TrailTo(p.target, |p.steps|)
    {
      var syms :| PathOver(p, syms);
    }

    /**
      What a caller may rely on.  `whole` says that no stop was hit: then a target other than the entry
      is reported exactly if some trail of at most MaxDepth hops leads to it, and the first path
      reported for it is a shortest one.
     */
    ghost predicate Promise(paths: seq<Path>, whole: bool) {
      && PathsOk(paths)
      && (whole ==> forall t | isTarget(t) && t != entry ::
            && ((exists length: nat :: 1 <= length <= cfg.maxDepth && TrailTo(t, length))
                <==> exists f :: First(paths, t, f))
            && forall f | First(paths, t, f) :: Distance(t, |paths[f].steps|))
    }

    lemma {:induction false} FirstIsShortest(s: Search, t: string, f: nat)
      requires cfg.Positive() && s.next == |s.log| && Inv(s, Level(s)) && DoneOk(s) && isTarget(t) && t != entry
      requires First(s.paths, t, f)
      ensures 1 <= |s.paths[f].steps| <= cfg.maxDepth && Distance(t, |s.paths[f].steps|)
    {
      hide LogOk, KeptOk, Trail;
      var paths := s.paths;
      assert PathOk(paths[f]);
      PathIsTrail(paths[f]);
      forall other: nat | TrailTo(t, other) && other > 0 ensures |paths[f].steps| <= other {
        if other <= cfg.maxDepth {
          TrailFound(s, t, other);
          var k :| 0 <= k < |paths| && paths[k].target == t && |paths[k].steps| <= other;
          assert f <= k;
        }
      }
    }

    lemma {:induction false} RunKeepsPromise()
      requires cfg.Positive()
      ensures Promise(Run().paths, Clean(Run()))
    {
      hide Inv, DoneOk, Distance, Loop;
      RunPathsOk();
      StartOk();
      LoopStep(Start());
      var s := Run();
      if Clean(s) {
        forall t | isTarget(t) && t != entry
          ensures (exists length: nat :: 1 <= length <= cfg.maxDepth && TrailTo(t, length))
              <==> exists f :: First(s.paths, t, f)
          ensures forall f | First(s.paths, t, f) :: Distance(t, |s.paths[f].steps|)
        {
          forall f | First(s.paths, t, f)
            ensures 1 <= |s.paths[f].steps| <= cfg.maxDepth && Distance(t, |s.paths[f].steps|)
            ensures TrailTo(t, |s.paths[f].steps|)
          {
            FirstIsShortest(s, t, f);
            PathIsTrail(s.paths[f]);
          }
          if length: nat :| 1 <= length <= cfg.maxDepth && TrailTo(t, length) {
            TrailFound(s, t, length);
            var k :| 0 <= k < |s.paths| && s.paths[k].target == t && |s.paths[k].steps| <= length;
            var f := FirstExists(s.paths, t, k);
          }
        }
      }
    }

    /** Without a cancellation the stops can be read off the number of paths and the visited edges. */
    lemma {:induction false} StopsVisible(s: Search)
      requires Ready(s) && ctx.Background?
      requires s.stopped ==> |s.paths| >= cfg.maxPathsTotal || s.visited > cfg.maxVisitedEdges
      ensures var r := Loop(s); r.stopped ==> |r.paths| >= cfg.maxPathsTotal || r.visited > cfg.maxVisitedEdges
      decreases cfg.maxVisitedEdges + 1 - s.visited, |s.log| - s.next
    {
      hide Head;
      if !s.stopped && s.next < |s.log| && |s.paths| < cfg.maxPathsTotal {
        HeadStops(s);
        StopsVisible(Head(s));
      }
    }

    lemma {:induction false} HeadStops(s: Search)
      requires Ready(s) && s.next < |s.log| && !s.stopped && ctx.Background?
      ensures var r := Head(s); r.stopped ==> |r.paths| >= cfg.maxPathsTotal || r.visited > cfg.maxVisitedEdges
    {
      hide Calls;
      CallsStops(s.(next := s.next + 1, polls := s.polls + 1), s.log[s.next], 0);
    }

    lemma {:induction false} CallsStops(s: Search, n: Node, i: nat)
      requires i <= |idx.CallsFrom(n.symbol)| && !s.stopped && s.visited <= cfg.maxVisitedEdges && ctx.Background?
      ensures var r := Calls(s, n, i); r.stopped ==> |r.paths| >= cfg.maxPathsTotal || r.visited > cfg.maxVisitedEdges
      decreases |idx.CallsFrom(n.symbol)| - i
    {
      hide Call;
      if i < |idx.CallsFrom(n.symbol)| && |s.paths| < cfg.maxPathsTotal && s.visited < cfg.maxVisitedEdges {
        CallsStops(Call(s.(polls := s.polls + 1, visited := s.visited + 1), n, idx.CallsFrom(n.symbol)[i]), n, i + 1);
      }
    }

    /** Pruning keeps the search polynomial: nodes are queued at most MaxPathsPerSymbol times per local symbol. */
    lemma {:induction false} NodesBounded()
      requires cfg.Positive()
      ensures |Run().log| <= cfg.maxPathsPerSymbol * |idx.local + {entry}|
    {
      StartOk();
      LoopStep(Start());
      var log := Run().log;
      forall k | 0 <= k < |log| ensures log[k].symbol in idx.local + {entry} {
        assert NodeOk(log[k]);
        var syms :| NodeOver(log[k], syms);
      }
      KeptBound(log, idx.local + {entry}, cfg.maxPathsPerSymbol);
    }
  }

  function Without(log: seq<Node>, symbol: string): (r: seq<Node>)
    ensures forall n :: n in r <==> n in log && n.symbol != symbol
  {
    if log == [] then []
    else
      var last := log[|log| - 1];
      Without(log[..|log| - 1], symbol) + (if last.symbol == symbol then [] else [last])
  }

  lemma {:induction false} WithoutLength(log: seq<Node>, symbol: string)
    ensures |Without(log, symbol)| + Kept(log, symbol) == |log|
  {
    if log != [] { WithoutLength(log[..|log| - 1], symbol); }
  }

  lemma {:induction false} WithoutKept(log: seq<Node>, symbol: string, other: string)
    requires other != symbol
    ensures Kept(Without(log, symbol), other) == Kept(log, other)
  {
    if log != [] {
      var last := log[|log| - 1];
      var rest := Without(log[..|log| - 1], symbol);
      WithoutKept(log[..|log| - 1], symbol, other);
      if last.symbol == symbol { assert Without(log, symbol) == rest; } else { KeptAppend(rest, last, other); }
    }
  }

  lemma {:induction false} WithoutBounds(log: seq<Node>, x: string, symbols: set<string>, cap: nat)
    requires forall k | 0 <= k < |log| :: log[k].symbol in symbols
    requires x in symbols && forall t | t in symbols :: Kept(log, t) <= cap
    ensures forall k | 0 <= k < |Without(log, x)| :: Without(log, x)[k].symbol in symbols - {x}
    ensures forall t | t in symbols - {x} :: Kept(Without(log, x), t) <= cap
    ensures |log| <= |Without(log, x)| + cap
  {
    WithoutLength(log, x);
    var rest := Without(log, x);
    forall t | t in symbols - {x} ensures Kept(rest, t) <= cap { WithoutKept(log, x, t); }
    forall k | 0 <= k < |rest| ensures rest[k].symbol in symbols - {x} { assert rest[k] in rest; }
  }

  lemma {:induction false} KeptBound(log: seq<Node>, symbols: set<string>, cap: nat)
    requires forall k | 0 <= k < |log| :: log[k].symbol in symbols
    requires forall t | t in symbols :: Kept(log, t) <= cap
    ensures |log| <= cap * |symbols|
    decreases |symbols|
  {
    hide Kept, Without;
    assert |log| > 0 ==> log[0].symbol in symbols;
    if symbols != {} {
      var x :| x in symbols;
      WithoutBounds(log, x, symbols, cap);
      assert |symbols| == |symbols - {x}| + 1;
      TimesSucc(cap, |symbols - {x}|);
      KeptBound(Without(log, x), symbols - {x}, cap);
    }
  }

  // ----- the source's object

  lemma {:induction false} HitsUpdate(counts: map<string, nat>, paths: seq<Path>, p: Path)
    requires forall t :: Get(counts, t) == Hits(paths, t)
    ensures forall t :: Get(counts[p.target := Get(counts, p.target) + 1], t) == Hits(paths + [p], t)
  {
    forall t ensures Hits(paths + [p], t) == Hits(paths, t) + (if p.target == t then 1 else 0) {
      HitsAppend(paths, p, t);
    }
  }

  lemma {:induction false} KeptUpdate(counts: map<string, nat>, log: seq<Node>, n: Node)
    requires forall t :: Get(counts, t) == Kept(log, t)
    ensures forall t :: Get(counts[n.symbol := Get(counts, n.symbol) + 1], t) == Kept(log + [n], t)
  {
    forall t ensures Kept(log + [n], t) == Kept(log, t) + (if n.symbol == t then 1 else 0) {
      KeptAppend(log, n, t);
    }
  }

  lemma {:induction false} KeptFirst(n: Node)
    ensures forall t :: Get(map[n.symbol := 1], t) == Kept([n], t)
  {
    KeptUpdate(map[], [], n);
    assert [] + [n] == [n];
    assert map[][n.symbol := 1] == map[n.symbol := 1];
  }

  class WalkSearch {
    const w: Walk
    var paths: seq<Path>
    var hitCounts: map<string, nat>
    var kept: map<string, nat>
    var visited: nat

    constructor (w: Walk)
      ensures this.w == w
    {
      this.w := w;
      paths, hitCounts, kept, visited := [], map[], map[], 0;
    }

    /** The fields hold what the search `s` says. */
    ghost predicate Holds(s: Search)
      reads this
    {
      && paths == s.paths && visited == s.visited
      && (forall t :: Get(hitCounts, t) == Hits(s.paths, t))
      && (forall t :: Get(kept, t) == Kept(s.log, t))
    }

    method RecordPath(target: string, steps: seq<CallSite>, ghost s: Search)
      requires Holds(s)
      modifies this`paths, this`hitCounts
      ensures Holds(w.Record(s, target, steps))
    {
      if |steps| == 0 || |paths| >= w.cfg.maxPathsTotal {
        return;
      }
      if Get(hitCounts, target) >= w.cfg.maxPathsPerTarget {
        return;
      }
      HitsUpdate(hitCounts, paths, Path(w.entry, target, steps));
      paths := paths + [Path(w.entry, target, steps)];
      hitCounts := hitCounts[target := Get(hitCounts, target) + 1];
    }

    method Enqueueable(symbol: string, ghost s: Search, ghost n: Node, ghost steps: seq<CallSite>) returns (ok: bool)
      requires Holds(s)
      modifies this`kept
      ensures Holds(w.Enqueue(s, n, symbol, steps))
      ensures w.Enqueue(s, n, symbol, steps).log ==
              s.log + (if ok then [Node(symbol, n.depth + 1, steps, n.seen + {symbol})] else [])
    {
      hide Kept, Hits;
      if symbol !in w.idx.local {
        return false;
      }
      if Get(kept, symbol) >= w.cfg.maxPathsPerSymbol {
        return false;
      }
      KeptUpdate(kept, s.log, Node(symbol, n.depth + 1, steps, n.seen + {symbol}));
      kept := kept[symbol := Get(kept, symbol) + 1];
      return true;
    }

    /** One call of node `n`: its target or its implementations and then the callee itself. */
    method VisitCall(n: Node, call: CallSite, queue0: seq<Node>, ghost s: Search) returns (queue: seq<Node>)
      requires Holds(s) && s.next <= |s.log| && queue0 == s.log[s.next..]
      modifies this`paths, this`hitCounts, this`kept
      ensures Holds(w.Call(s, n, call)) && queue == w.Call(s, n, call).log[s.next..]
    {
      hide Walk.Impls, Hits, Kept;
      queue := queue0;
      var steps := n.steps + [call];
      var callee := call.callee;
      if w.isTarget(callee) {
        RecordPath(callee, steps, s);
        return;
      }
      var impls := w.idx.Implementations(callee);
      ghost var cur := s;
      var j := 0;
      while j < |impls|
        invariant 0 <= j <= |impls|
        invariant Holds(cur) && cur.next == s.next <= |cur.log| && queue == cur.log[s.next..]
        invariant w.Impls(cur, n, steps, impls, j) == w.Impls(s, n, steps, impls, 0)
      {
        var impl := impls[j];
        w.ImplsUnfold(cur, n, steps, impls, j);
        if impl !in n.seen {
          if w.isTarget(impl) {
            RecordPath(impl, steps, cur);
          } else {
            var ok := Enqueueable(impl, cur, n, steps);
            if ok {
              queue := queue + [Node(impl, n.depth + 1, steps, n.seen + {impl})];
            }
          }
        }
        cur := w.Impl(cur, n, steps, impl);
        j := j + 1;
      }
      w.ImplsUnfold(cur, n, steps, impls, j);
      if callee in n.seen {
        return;
      }
      var ok := Enqueueable(callee, cur, n, steps);
      if ok {
        queue := queue + [Node(callee, n.depth + 1, steps, n.seen + {callee})];
      }
    }

    /** Every call of node `n`; `stop` is the early return of the search. */
    method VisitCalls(n: Node, queue0: seq<Node>, polls0: nat, ghost s: Search)
      returns (queue: seq<Node>, polls: nat, stop: bool)
      requires Holds(s) && s.next <= |s.log| && queue0 == s.log[s.next..] && polls0 == s.polls
      requires !s.stopped && s.visited <= w.cfg.maxVisitedEdges
      modifies this
      ensures var r := w.Calls(s, n, 0);
              Holds(r) && queue == r.log[s.next..] && polls == r.polls && stop == r.stopped
    {
      hide Walk.Call, Walk.Calls;
      queue, polls, stop := queue0, polls0, false;
      ghost var cur := s;
      var calls := w.idx.CallsFrom(n.symbol);
      var i := 0;
      while i < |calls|
        invariant 0 <= i <= |calls|
        invariant Holds(cur) && cur.next == s.next <= |cur.log| && queue == cur.log[s.next..]
        invariant polls == cur.polls && !cur.stopped && cur.visited <= w.cfg.maxVisitedEdges
        invariant w.Calls(cur, n, i) == w.Calls(s, n, 0)
      {
        w.CallsUnfold(cur, n, i);
        polls := polls + 1;
        if w.ctx.Err(polls - 1) || |paths| >= w.cfg.maxPathsTotal {
          stop := true;
          return;
        }
        visited := visited + 1;
        if visited > w.cfg.maxVisitedEdges {
          stop := true;
          return;
        }
        cur := cur.(polls := polls, visited := visited);
        queue := VisitCall(n, calls[i], queue, cur);
        cur := w.Call(cur, n, calls[i]);
        i := i + 1;
      }
      w.CallsUnfold(cur, n, i);
    }

    /** `whole` is what the fields and the context tell about the stops; the source returns only the paths. */
    method Run() returns (result: seq<Path>, ghost whole: bool)
      requires w.cfg.Positive()
      modifies this
      ensures Holds(w.Run()) && result == w.Run().paths
      ensures whole == w.Clean(w.Run()) && w.Promise(result, whole)
      ensures w.ctx.Background? && |result| < w.cfg.maxPathsTotal && visited <= w.cfg.maxVisitedEdges ==> whole
    {
      hide Walk.Promise, Walk.Loop, Walk.Calls;
      w.RunKeepsPromise();
      if w.ctx.Background? { w.StopsVisible(w.Start()); }
      paths, hitCounts, kept, visited := [], map[], map[w.entry := 1], 0;
      ghost var s := w.Start();
      KeptFirst(s.log[0]);
      var queue := [Node(w.entry, 0, [], {w.entry})];
      var polls, stop := 0, false;
      while queue != [] && !stop
        invariant w.Ready(s) && Holds(s) && queue == s.log[s.next..] && polls == s.polls && stop == s.stopped
        invariant w.Loop(s) == w.Run()
        decreases w.cfg.maxVisitedEdges + 1 - s.visited, |s.log| - s.next, !s.stopped
      {
        w.LoopUnfold(s);
        if w.ctx.Err(polls) || |paths| >= w.cfg.maxPathsTotal {
          s := s.(polls := s.polls + 1, stopped := true);
          polls, stop := polls + 1, true;
        } else {
          var n := queue[0];
          queue, polls := queue[1..], polls + 1;
          ghost var s1 := s.(next := s.next + 1, polls := s.polls + 1);
          if n.depth < w.cfg.maxDepth {
            queue, polls, stop := VisitCalls(n, queue, polls, s1);
          }
          s := w.Head(s);
        }
        w.LoopUnfold(s);
      }
      w.LoopUnfold(s);
      return paths, w.Clean(w.Run());
    }
  }

  /** Walk of the source; `isTarget` and `index` are `None` where the source has nil. */
  method WalkFrom(index: Option<Index>, entry: string, isTarget: Option<string -> bool>, limits: Limits, ctx: Context)
    returns (paths: seq<Path>)
    ensures index.None? || entry == "" || isTarget.None? ==> paths == []
    ensures index.Some? && entry != "" && isTarget.Some? ==>
              var w := Walk(index.value, entry, isTarget.value, limits.WithDefaults(), ctx);
              paths == w.Run().paths && w.Promise(paths, w.Clean(w.Run()))
  {
    if index.None? || entry == "" || isTarget.None? {
      return [];
    }
    var search := new WalkSearch(Walk(index.value, entry, isTarget.value, limits.WithDefaults(), ctx));
    ghost var whole;
    paths, whole := search.Run();
  }
}
