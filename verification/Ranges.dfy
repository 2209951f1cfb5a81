/**
  Source ranges of internal/extractor/scip: ranges.go, SymbolAt in definitions.go and
  callsFromDefinition in calls.go.
 */
module Ranges {
  import opened Text
  import opened Wrappers

  type int32 = x: int | -0x8000_0000 <= x < 0x8000_0000

  /** Arithmetic on int32 wraps. */
  function Wrap32(x: int): int32 {
    (x + 0x8000_0000) % 0x1_0000_0000 - 0x8000_0000
  }

  datatype Rng = Rng(startLine: int32, startCol: int32, endLine: int32, endCol: int32)

  /** parseRange */
  function Parse(r: seq<int32>): Option<Rng> {
    if |r| == 3 then Some(Rng(r[0], r[1], r[0], r[2]))
    else if |r| == 4 then Some(Rng(r[0], r[1], r[2], r[3]))
    else None
  }

  /** rangeContains */
  predicate Contains(r: Rng, line: int32, col: int32) {
    r.startLine <= line <= r.endLine && (line == r.startLine ==> col >= r.startCol)
        && (line == r.endLine ==> col < r.endCol)
  }

  /** rangeContainedIn */
  predicate Inside(inner: Rng, outer: Rng) {
    && !(inner.startLine < outer.startLine || (inner.startLine == outer.startLine && inner.startCol < outer.startCol))
    && !(inner.endLine > outer.endLine || (inner.endLine == outer.endLine && inner.endCol > outer.endCol))
  }

  function Lines(r: Rng): int {
    var lines := Wrap32(Wrap32(r.endLine - r.startLine) + 1);
    if lines <= 0 then 1 else lines
  }

  /** rangeArea */
  function Area(r: Rng): int {
    var columns := if r.startLine != r.endLine then 0 else Wrap32(r.endCol - r.startCol);
    Lines(r) * 4096 + if columns < 0 then 0 else columns
  }

  /** What an indexer promises of a range: no negative position, and the end not before the start. */
  predicate WellFormed(r: Rng) {
    && 0 <= r.startLine <= r.endLine && 0 <= r.startCol && 0 <= r.endCol
    && (r.startLine == r.endLine ==> r.startCol <= r.endCol)
  }

  predicate SingleLine(r: Rng) { r.startLine == r.endLine }

  /** When the area of a range tells that `inner` is the smaller one. */
  predicate Told(inner: Rng, outer: Rng) {
    if SingleLine(outer) then true
    else if SingleLine(inner) then inner.endCol - inner.startCol < 4096 * (Lines(outer) - 1)
    else Lines(inner) < Lines(outer)
  }

  lemma {:induction false} WrapSame(x: int)
    requires -0x8000_0000 <= x < 0x8000_0000
    ensures Wrap32(x) == x
  {}

  lemma {:induction false} SingleArea(r: Rng)
    requires WellFormed(r) && SingleLine(r)
    ensures Area(r) == 4096 + r.endCol - r.startCol && Lines(r) == 1
  {
    WrapSame(r.endLine - r.startLine);
    WrapSame(1);
    WrapSame(r.endCol - r.startCol);
  }

  /** For every range strictly inside another, the area is smaller exactly in these cases. */
  lemma {:induction false} AreaShrinksIff(inner: Rng, outer: Rng)
    requires WellFormed(inner) && WellFormed(outer) && Inside(inner, outer) && inner != outer
    ensures Area(inner) < Area(outer) <==> Told(inner, outer)
  {
    hide Wrap32;
    if SingleLine(outer) {
      SingleArea(outer);
      SingleArea(inner);
    } else if SingleLine(inner) {
      SingleArea(inner);
    }
  }

  /** Below the assumed width of 4096 columns, a single-line range inside another is always told apart. */
  lemma {:induction false} NarrowIsTold(inner: Rng, outer: Rng)
    requires WellFormed(inner) && WellFormed(outer) && Inside(inner, outer) && SingleLine(inner)
    requires inner.endCol - inner.startCol < 4096 && outer.endLine - outer.startLine < 0x7fff_ffff
    ensures Told(inner, outer)
  {
    WrapSame(outer.endLine - outer.startLine);
    WrapSame(outer.endLine - outer.startLine + 1);
  }

  /** A range as wide as the bound, inside a range of two lines, has the larger area. */
  lemma {:induction false} WideIsMistaken()
    ensures var inner, outer := Rng(0, 0, 0, 5000), Rng(0, 0, 1, 1);
            WellFormed(inner) && WellFormed(outer) && Inside(inner, outer) && inner != outer
                && Area(inner) > Area(outer)
  {
    WrapSame(0);
    WrapSame(1);
    WrapSame(2);
    WrapSame(5000);
  }

  datatype Occurrence = Occurrence(symbol: string, definition: bool, range: seq<int32>, enclosing: seq<int32>)

  predicate Covers(o: Occurrence, line: int32, col: int32) {
    Parse(o.range).Some? && Contains(Parse(o.range).value, line, col)
  }

  function AreaOf(o: Occurrence): int {
    match Parse(o.range) case Some(r) => Area(r) case None => 0x4000_0000_0000_0000
  }

  datatype Best = Best(symbol: string, area: int)

  function Consider(b: Best, o: Occurrence, line: int32, col: int32): Best {
    if Covers(o, line, col) && (b.symbol == "" || AreaOf(o) < b.area) then Best(o.symbol, AreaOf(o)) else b
  }

  function Scan(b: Best, occs: seq<Occurrence>, line: int32, col: int32): Best {
    if occs == [] then b else Consider(Scan(b, occs[..|occs| - 1], line, col), occs[|occs| - 1], line, col)
  }

  /** SymbolAt on the occurrences of a document. */
  function SymbolOf(occs: seq<Occurrence>, line: int32, col: int32): string {
    Scan(Best("", -1), occs, line, col).symbol
  }

  /** Occurrence `i` covers the position, and is the first of the smallest that do. */
  ghost predicate FirstSmallest(occs: seq<Occurrence>, line: int32, col: int32, i: nat) {
    && i < |occs| && Covers(occs[i], line, col)
    && (forall j | 0 <= j < |occs| && Covers(occs[j], line, col) :: AreaOf(occs[i]) <= AreaOf(occs[j]))
    && (forall j | 0 <= j < i && Covers(occs[j], line, col) :: AreaOf(occs[i]) < AreaOf(occs[j]))
  }

  lemma {:induction false} ScanSum(b: Best, a: seq<Occurrence>, c: seq<Occurrence>, line: int32, col: int32)
    ensures Scan(b, a + c, line, col) == Scan(Scan(b, a, line, col), c, line, col)
  {
    if c == [] {
      assert a + c == a;
    } else {
      assert (a + c)[..|a + c| - 1] == a + c[..|c| - 1];
      ScanSum(b, a, c[..|c| - 1], line, col);
    }
  }

  lemma {:induction false} NoneCovers(b: Best, occs: seq<Occurrence>, line: int32, col: int32)
    requires forall j | 0 <= j < |occs| :: !Covers(occs[j], line, col)
    ensures Scan(b, occs, line, col) == b
  {
    if occs != [] { NoneCovers(b, occs[..|occs| - 1], line, col); }
  }

  /** While nothing smaller covers, a named best stays. */
  lemma {:induction false} BestStays(b: Best, occs: seq<Occurrence>, line: int32, col: int32)
    requires b.symbol != "" && forall j | 0 <= j < |occs| && Covers(occs[j], line, col) :: b.area <= AreaOf(occs[j])
    ensures Scan(b, occs, line, col) == b
  {
    if occs != [] { BestStays(b, occs[..|occs| - 1], line, col); }
  }

  /** Before a smallest occurrence, the best so far is unnamed or larger. */
  lemma {:induction false} BestIsLarger(occs: seq<Occurrence>, line: int32, col: int32, area: int)
    requires forall j | 0 <= j < |occs| && Covers(occs[j], line, col) :: area < AreaOf(occs[j])
    ensures var b := Scan(Best("", -1), occs, line, col); b.symbol == "" || area < b.area
  {
    if occs != [] { BestIsLarger(occs[..|occs| - 1], line, col, area); }
  }

  /** The area of an unnamed best is never read. */
  lemma {:induction false} UnnamedForgets(a: Best, b: Best, occs: seq<Occurrence>, line: int32, col: int32)
    requires a.symbol == "" == b.symbol
    ensures Scan(a, occs, line, col).symbol == Scan(b, occs, line, col).symbol
    ensures Scan(a, occs, line, col).symbol != "" ==> Scan(a, occs, line, col) == Scan(b, occs, line, col)
  {
    if occs != [] { UnnamedForgets(a, b, occs[..|occs| - 1], line, col); }
  }

  /**
    What SymbolAt returns: the symbol of the first smallest covering occurrence.  If that occurrence has no
    symbol, the search starts afresh behind it.
   */
  lemma {:induction false} SymbolOfSmallest(occs: seq<Occurrence>, line: int32, col: int32, i: nat)
    requires FirstSmallest(occs, line, col, i)
    ensures SymbolOf(occs, line, col) == if occs[i].symbol != "" then occs[i].symbol
        else SymbolOf(occs[i + 1..], line, col)
  {
    hide Covers, AreaOf;
    var before, after := occs[..i], occs[i + 1..];
    var start := Best("", -1);
    assert occs == before + [occs[i]] + after;
    ScanSum(start, before + [occs[i]], after, line, col);
    ScanSum(start, before, [occs[i]], line, col);
    BestIsLarger(before, line, col, AreaOf(occs[i]));
    var b := Scan(start, before, line, col);
    OneScan(b, occs[i], line, col);
    var here := Best(occs[i].symbol, AreaOf(occs[i]));
    if occs[i].symbol != "" {
      BestStays(here, after, line, col);
    } else {
      UnnamedForgets(here, start, after, line, col);
    }
  }

  lemma {:induction false} OneScan(b: Best, o: Occurrence, line: int32, col: int32)
    ensures Scan(b, [o], line, col) == Consider(b, o, line, col)
  {
    assert [o][..0] == [];
    assert Scan(b, [o][..0], line, col) == b;
  }

  lemma {:induction false} NothingCovers(occs: seq<Occurrence>, line: int32, col: int32)
    requires forall j | 0 <= j < |occs| :: !Covers(occs[j], line, col)
    ensures SymbolOf(occs, line, col) == ""
  {
    NoneCovers(Best("", -1), occs, line, col);
  }

  /** An occurrence on the first line, `width` columns wide. */
  function Sample(symbol: string, width: int32): Occurrence { Occurrence(symbol, false, [0, 0, width], []) }

  lemma {:induction false} SampleArea(symbol: string, width: int32)
    requires 2 <= width
    ensures AreaOf(Sample(symbol, width)) == 4096 + width && Covers(Sample(symbol, width), 0, 1)
  {
    SingleArea(Rng(0, 0, 0, width));
  }

  /** An occurrence without a symbol that is the smallest hides a smaller named one from the answer. */
  lemma {:induction false} UnnamedMisleads()
    ensures var a, b, c := Sample("a", 10), Sample("", 5), Sample("c", 90);
            SymbolOf([a, b, c], 0, 1) == "c" && AreaOf(a) < AreaOf(c) && Covers(a, 0, 1)
  {
    hide AreaOf, Covers, Sample, Scan;
    var a, b, c := Sample("a", 10), Sample("", 5), Sample("c", 90);
    SampleArea("a", 10);
    SampleArea("", 5);
    SampleArea("c", 90);
    assert a.symbol == "a" && b.symbol == "" && c.symbol == "c" by { SampleSymbols(); }
    assert [a, b, c] == [a, b] + [c] && [a, b] == [a] + [b];
    ScanSum(Best("", -1), [a, b], [c], 0, 1);
    ScanSum(Best("", -1), [a], [b], 0, 1);
    OneScan(Best("", -1), a, 0, 1);
    OneScan(Best("a", 4106), b, 0, 1);
    OneScan(Best("", 4101), c, 0, 1);
  }

  lemma {:induction false} SampleSymbols()
    ensures Sample("a", 10).symbol == "a" && Sample("", 5).symbol == "" && Sample("c", 90).symbol == "c"
  {}

  /** No covering occurrence behind `i` has a smaller area. */
  ghost predicate Stands(occs: seq<Occurrence>, line: int32, col: int32, i: nat)
    requires i < |occs|
  {
    forall j | i < j < |occs| && Covers(occs[j], line, col) :: AreaOf(occs[i]) <= AreaOf(occs[j])
  }

  /** A covering occurrence with a symbol that stands. */
  ghost predicate NamedStands(occs: seq<Occurrence>, line: int32, col: int32, i: nat)
    requires i < |occs|
  {
    occs[i].symbol != "" && Covers(occs[i], line, col) && Stands(occs, line, col, i)
  }

  /** The occurrence the scan ends with: the first such one. */
  ghost predicate EndsWith(occs: seq<Occurrence>, line: int32, col: int32, e: nat) {
    && e < |occs| && NamedStands(occs, line, col, e)
    && forall i: nat | i < e :: !NamedStands(occs, line, col, i)
  }

  /** Where the scan has got to: nowhere, at a nameless occurrence, or at the first named one that stands. */
  ghost predicate ScanAt(occs: seq<Occurrence>, line: int32, col: int32, b: Best, e: int) {
    if e < 0 then b == Best("", -1) && forall j | 0 <= j < |occs| :: !Covers(occs[j], line, col)
    else
      && e < |occs| && b == Best(occs[e].symbol, AreaOf(occs[e]))
      && if b.symbol != "" then EndsWith(occs, line, col, e)
          else forall i: nat | i < |occs| :: !NamedStands(occs, line, col, i)
  }

  /** One more occurrence: what stood before stands on unless it is undercut. */
  lemma {:induction false} StandsPush(occs: seq<Occurrence>, o: Occurrence, line: int32, col: int32, i: nat)
    requires i < |occs|
    ensures var undercut := Covers(o, line, col) && AreaOf(o) < AreaOf(occs[i]);
            NamedStands(occs + [o], line, col, i) <==> NamedStands(occs, line, col, i) && !undercut
  {
    hide Covers, AreaOf;
    var longer := occs + [o];
    assert longer[|occs|] == o && forall j | 0 <= j < |occs| :: longer[j] == occs[j];
  }

  lemma {:induction false} ScanEnds(occs: seq<Occurrence>, line: int32, col: int32) returns (e: int)
    ensures ScanAt(occs, line, col, Scan(Best("", -1), occs, line, col), e)
  {
    hide Covers, AreaOf;
    if occs == [] {
      e := -1;
    } else {
      var n := |occs| - 1;
      var before, o := occs[..n], occs[n];
      var was := ScanEnds(before, line, col);
      var b := Scan(Best("", -1), before, line, col);
      assert occs == before + [o];
      forall i: nat | i < n
        ensures NamedStands(occs, line, col, i) <==>
                NamedStands(before, line, col, i) && !(Covers(o, line, col) && AreaOf(o) < AreaOf(before[i]))
      {
        StandsPush(before, o, line, col, i);
      }
      if Covers(o, line, col) && (b.symbol == "" || AreaOf(o) < b.area) {
        e := n;
        if b.symbol != "" { NothingElseStands(before, line, col, was); }
      } else {
        e := was;
      }
    }
  }

  /** What stands has at least the area of the first that does. */
  lemma {:induction false} NothingElseStands(occs: seq<Occurrence>, line: int32, col: int32, e: nat)
    requires EndsWith(occs, line, col, e)
    ensures forall i: nat | i < |occs| && NamedStands(occs, line, col, i) :: AreaOf(occs[e]) <= AreaOf(occs[i])
  {
    hide Covers, AreaOf;
  }

  lemma {:induction false} OnlyEnd(occs: seq<Occurrence>, line: int32, col: int32, b: Best, end: int, e: nat)
    requires ScanAt(occs, line, col, b, end) && EndsWith(occs, line, col, e)
    ensures end == e
  {
    hide Covers, AreaOf, Stands;
    assert NamedStands(occs, line, col, e) && Covers(occs[e], line, col);
  }

  /**
    What SymbolAt returns, for every document: the symbol of the first covering occurrence with a symbol
    that no covering occurrence behind it, named or not, undercuts in area; nothing if there is none.
   */
  lemma {:induction false} SymbolOfStanding(occs: seq<Occurrence>, line: int32, col: int32)
    ensures forall e: nat | EndsWith(occs, line, col, e) :: SymbolOf(occs, line, col) == occs[e].symbol
    ensures SymbolOf(occs, line, col) != "" <==> exists e: nat :: EndsWith(occs, line, col, e)
  {
    hide Covers, AreaOf, Stands;
    var end := ScanEnds(occs, line, col);
    forall e: nat | EndsWith(occs, line, col, e) ensures SymbolOf(occs, line, col) == occs[e].symbol {
      OnlyEnd(occs, line, col, Scan(Best("", -1), occs, line, col), end, e);
    }
  }

  /** The first of the smallest among the covering occurrences with a symbol. */
  ghost predicate SmallestNamed(occs: seq<Occurrence>, line: int32, col: int32, i: nat) {
    && i < |occs| && Named(occs[i], line, col)
    && (forall j | 0 <= j < |occs| && Named(occs[j], line, col) :: AreaOf(occs[i]) <= AreaOf(occs[j]))
    && (forall j | 0 <= j < i && Named(occs[j], line, col) :: AreaOf(occs[i]) < AreaOf(occs[j]))
  }

  predicate Named(o: Occurrence, line: int32, col: int32) {
    Covers(o, line, col) && o.symbol != ""
  }

  /** Behind `i` a covering occurrence without a symbol has a smaller area. */
  ghost predicate Spoiled(occs: seq<Occurrence>, line: int32, col: int32, i: nat)
    requires i < |occs|
  {
    exists j ::
        i < j < |occs| && Covers(occs[j], line, col) && occs[j].symbol == "" && AreaOf(occs[j]) < AreaOf(occs[i])
  }

  /** The scan ends with the smallest named occurrence exactly if no nameless one behind it is smaller. */
  lemma {:induction false} SmallestTakenIff(occs: seq<Occurrence>, line: int32, col: int32, i: nat)
    requires SmallestNamed(occs, line, col, i)
    ensures EndsWith(occs, line, col, i) <==> !Spoiled(occs, line, col, i)
  {
    hide Covers, AreaOf;
    if !Spoiled(occs, line, col, i) {
      forall j | i < j < |occs| && Covers(occs[j], line, col) ensures AreaOf(occs[i]) <= AreaOf(occs[j]) {
        if occs[j].symbol != "" { assert Named(occs[j], line, col); }
      }
      forall j: nat | j < i ensures !NamedStands(occs, line, col, j) {
        if occs[j].symbol != "" && Covers(occs[j], line, col) { assert Named(occs[j], line, col); }
      }
    }
  }

  lemma {:induction false} SmallestNamedExists(occs: seq<Occurrence>, line: int32, col: int32, k: nat) returns (i: nat)
    requires k < |occs| && Named(occs[k], line, col)
    ensures SmallestNamed(occs, line, col, i)
  {
    hide Named, AreaOf;
    var n := |occs| - 1;
    var before := occs[..n];
    if k < n || exists j :: 0 <= j < n && Named(before[j], line, col) {
      var j := k;
      if k == n { j :| 0 <= j < n && Named(before[j], line, col); }
      i := SmallestNamedExists(before, line, col, j);
      if Named(occs[n], line, col) && AreaOf(occs[n]) < AreaOf(occs[i]) { i := n; }
    } else {
      i := n;
      assert forall j | 0 <= j < n :: before[j] == occs[j];
    }
  }

  /** A covering single-line range of ordinary width is not strictly inside one with no larger area. */
  lemma {:induction false} NoLargerNotAround(r: Rng, s: Rng)
    requires WellFormed(r) && WellFormed(s) && SingleLine(s) && s.endCol - s.startCol < 4096
    requires r.endLine - r.startLine < 0x7fff_ffff && Area(r) <= Area(s)
    ensures !(Inside(s, r) && s != r)
  {
    if Inside(s, r) && s != r {
      NarrowIsTold(s, r);
      AreaShrinksIff(s, r);
    }
  }

  /**
    The occurrence SymbolAt takes does not strictly contain another covering single-line one of ordinary
    width that comes later and, if no nameless occurrence spoils the choice, none that has a symbol.
   */
  lemma {:induction false} ChosenIsInnermost(occs: seq<Occurrence>, line: int32, col: int32, e: nat, j: nat)
    requires EndsWith(occs, line, col, e) && j < |occs| && Covers(occs[j], line, col)
    requires j > e || (occs[j].symbol != "" && forall i: nat | SmallestNamed(occs, line, col, i) ::
        !Spoiled(occs, line, col, i))
    requires var r, s := Parse(occs[e].range).value, Parse(occs[j].range).value;
             && WellFormed(r) && WellFormed(s) && SingleLine(s)
             && s.endCol - s.startCol < 4096 && r.endLine - r.startLine < 0x7fff_ffff
    ensures var r, s := Parse(occs[e].range).value, Parse(occs[j].range).value; !(Inside(s, r) && s != r)
  {
    assert AreaOf(occs[e]) <= AreaOf(occs[j]) by {
      hide AreaOf, Covers;
      if j <= e {
        var i := SmallestNamedExists(occs, line, col, e);
        SmallestTakenIff(occs, line, col, i);
        assert i == e;
        assert Named(occs[j], line, col);
      }
    }
    NoLargerNotAround(Parse(occs[e].range).value, Parse(occs[j].range).value);
  }

  method SymbolAt(occs: seq<Occurrence>, line: int32, col: int32) returns (best: string)
    ensures best == SymbolOf(occs, line, col)
    ensures forall e: nat | EndsWith(occs, line, col, e) :: best == occs[e].symbol
    ensures best != "" <==> exists e: nat :: EndsWith(occs, line, col, e)
    ensures forall i: nat | FirstSmallest(occs, line, col, i) && occs[i].symbol != "" :: best == occs[i].symbol
    ensures (forall j | 0 <= j < |occs| :: !Covers(occs[j], line, col)) ==> best == ""
  {
    best := "";
    var bestArea := -1;
    var n := 0;
    while n < |occs|
      invariant 0 <= n <= |occs| && Best(best, bestArea) == Scan(Best("", -1), occs[..n], line, col)
    {
      assert occs[..n + 1][..n] == occs[..n];
      var o := occs[n];
      n := n + 1;
      if !Covers(o, line, col) { continue; }
      var area := AreaOf(o);
      if best == "" || area < bestArea {
        best, bestArea := o.symbol, area;
      }
    }
    assert occs[..n] == occs;
    SymbolOfStanding(occs, line, col);
    forall i: nat | FirstSmallest(occs, line, col, i) && occs[i].symbol != ""
      ensures best == occs[i].symbol
    {
      SymbolOfSmallest(occs, line, col, i);
    }
    if forall j | 0 <= j < |occs| :: !Covers(occs[j], line, col) { NothingCovers(occs, line, col); }
  }

  // Inferred bodies

  const SENTINEL: int32 := 0x3fff_ffff

  predicate HasSuffix(s: string, suffix: string) {
    |suffix| <= |s| && s[|s| - |suffix|..] == suffix
  }

  predicate IsSibling(symbol: string) {
    && symbol != "" && !("local " <= symbol)
    && !HasSuffix(symbol, ")") && !Text.Contains(symbol, "().(")
    && !Text.Contains(symbol, "#`<")
  }

  predicate IsCallable(symbol: string) {
    && symbol != "" && !("local " <= symbol)
    && !HasSuffix(symbol, ")") && !(HasSuffix(symbol, ".") && !Text.Contains(symbol, "()"))
  }

  /** The occurrence defines a sibling and has a range. */
  predicate Defines(o: Occurrence) {
    o.definition && IsSibling(o.symbol) && Parse(o.range).Some?
  }

  function LineOf(o: Occurrence): int32
    requires Parse(o.range).Some?
  {
    Parse(o.range).value.startLine
  }

  /** `next` is the line of the first sibling definition below `line`, if there is one below the sentinel. */
  ghost predicate NextLine(occs: seq<Occurrence>, line: int32, next: int32) {
    && (forall i | 0 <= i < |occs| && Defines(occs[i]) && LineOf(occs[i]) > line ::
        next <= LineOf(occs[i]) || LineOf(occs[i]) >= SENTINEL)
    && (next == SENTINEL || exists i ::
        0 <= i < |occs| && Defines(occs[i]) && line < LineOf(occs[i]) == next < SENTINEL)
  }

  function BodyEnd(line: int32, next: int32): int32 {
    if next - 1 < line then line else Wrap32(next - 1)
  }

  function BodyFrom(line: int32, next: int32): Rng {
    Rng(line, 0, BodyEnd(line, next), SENTINEL)
  }

  /** inferBodyRange. */
  method InferBodyRange(occs: seq<Occurrence>, definition: nat) returns (body: Option<Rng>, ghost next: int32)
    requires definition < |occs|
    ensures body.None? <==> Parse(occs[definition].range).None?
    ensures body.Some? ==>
        NextLine(occs, LineOf(occs[definition]), next) && body.value == BodyFrom(LineOf(occs[definition]), next)
  {
    next := SENTINEL;
    if Parse(occs[definition].range).None? { return None, next; }
    var line := LineOf(occs[definition]);
    var nextLine := SENTINEL;
    var index := 0;
    while index < |occs|
      invariant 0 <= index <= |occs| && nextLine <= SENTINEL
      invariant forall i | 0 <= i < index && Defines(occs[i]) && LineOf(occs[i]) > line ::
          nextLine <= LineOf(occs[i]) || LineOf(occs[i]) >= SENTINEL
      invariant nextLine == SENTINEL || exists i ::
          0 <= i < index && Defines(occs[i]) && line < LineOf(occs[i]) == nextLine < SENTINEL
    {
      var o := occs[index];
      index := index + 1;
      if index - 1 == definition || !o.definition || !IsSibling(o.symbol) { continue; }
      var r := Parse(o.range);
      if r.Some? && r.value.startLine > line && r.value.startLine < nextLine {
        nextLine := r.value.startLine;
      }
    }
    var end := Wrap32(nextLine - 1);
    if end < line {
      end := line;
    }
    next := nextLine;
    body := Some(Rng(line, 0, end, SENTINEL));
  }

  lemma {:induction false} NextLineUnique(occs: seq<Occurrence>, line: int32, m: int32, n: int32)
    requires NextLine(occs, line, m) && NextLine(occs, line, n)
    ensures m == n
  {}

  /** A body ends before the next sibling definition. */
  lemma {:induction false} BodyStopsBefore(occs: seq<Occurrence>, line: int32, next: int32, j: nat)
    requires NextLine(occs, line, next) && j < |occs| && Defines(occs[j]) && LineOf(occs[j]) > line
    ensures BodyEnd(line, next) < LineOf(occs[j])
  {}

  predicate Meet(r: Rng, a: Rng, b: Rng) {
    r.startLine <= r.endLine && Inside(r, a) && Inside(r, b)
  }

  /**
    The inferred bodies of two sibling definitions share a range exactly if they start on one line, and then they
    are the same body.
   */
  lemma {:induction false} BodiesMeetIff(occs: seq<Occurrence>, i: nat, j: nat, m: int32, n: int32)
    requires i < |occs| && j < |occs| && Defines(occs[i]) && Defines(occs[j])
    requires NextLine(occs, LineOf(occs[i]), m) && NextLine(occs, LineOf(occs[j]), n)
    ensures var a, b := BodyFrom(LineOf(occs[i]), m), BodyFrom(LineOf(occs[j]), n);
            && ((exists r :: Meet(r, a, b)) <==> LineOf(occs[i]) == LineOf(occs[j]))
            && (LineOf(occs[i]) == LineOf(occs[j]) ==> a == b)
  {
    var a, b := BodyFrom(LineOf(occs[i]), m), BodyFrom(LineOf(occs[j]), n);
    if LineOf(occs[i]) == LineOf(occs[j]) {
      NextLineUnique(occs, LineOf(occs[i]), m, n);
      assert Meet(a, a, b);
    } else if LineOf(occs[i]) < LineOf(occs[j]) {
      BodyStopsBefore(occs, LineOf(occs[i]), m, j);
    } else {
      BodyStopsBefore(occs, LineOf(occs[j]), n, i);
    }
  }

  // Calls

  /** callsFromDefinition: the occurrence is a call made inside the body. */
  predicate IsCall(occs: seq<Occurrence>, definition: nat, body: Rng, i: nat)
    requires definition < |occs| && i < |occs|
  {
    && i != definition && occs[i].symbol != occs[definition].symbol && IsCallable(occs[i].symbol)
    && !occs[i].definition && Parse(occs[i].range).Some? && Inside(Parse(occs[i].range).value, body)
  }

  /** The body whose calls are collected: the one the indexer gives, or an inferred one. */
  ghost predicate BodyOf(occs: seq<Occurrence>, definition: nat, body: Rng)
    requires definition < |occs|
  {
    if occs[definition].enclosing != [] && Parse(occs[definition].enclosing).Some?
        then body == Parse(occs[definition].enclosing).value
    else if Parse(occs[definition].range).None? then false
    else exists next ::
        NextLine(occs, LineOf(occs[definition]), next) && body == BodyFrom(LineOf(occs[definition]), next)
  }

  /** callsFromDefinition up to its sort: the indices of the calls, in order. */
  method CallsFromDefinition(occs: seq<Occurrence>, definition: nat) returns (calls: seq<nat>)
    requires definition < |occs|
    ensures forall i | i in calls :: i < |occs|
    ensures forall a, b | 0 <= a < b < |calls| :: calls[a] < calls[b]
    ensures forall body: Rng | BodyOf(occs, definition, body) ::
        forall i: nat | i < |occs| :: i in calls <==> IsCall(occs, definition, body, i)
    ensures (forall body: Rng :: !BodyOf(occs, definition, body)) ==> calls == []
  {
    calls := [];
    var body := if occs[definition].enclosing == [] then None else Parse(occs[definition].enclosing);
    if body.None? {
      ghost var next;
      body, next := InferBodyRange(occs, definition);
      if body.None? { return; }
    }
    assert BodyOf(occs, definition, body.value);
    BodyUnique(occs, definition, body.value);
    var index := 0;
    while index < |occs|
      invariant 0 <= index <= |occs|
      invariant (forall i | i in calls :: i < index) && forall a | 0 <= a < |calls| :: calls[a] < index
      invariant forall a, b | 0 <= a < b < |calls| :: calls[a] < calls[b]
      invariant forall i: nat | i < index :: i in calls <==> IsCall(occs, definition, body.value, i)
    {
      var o := occs[index];
      index := index + 1;
      if index - 1 == definition { continue; }
      if o.symbol == "" || o.symbol == occs[definition].symbol || !IsCallable(o.symbol) { continue; }
      if o.definition || Parse(o.range).None? || !Inside(Parse(o.range).value, body.value) { continue; }
      calls := calls + [index - 1];
    }
  }

  lemma {:induction false} BodyUnique(occs: seq<Occurrence>, definition: nat, body: Rng)
    requires definition < |occs| && BodyOf(occs, definition, body)
    ensures forall other | BodyOf(occs, definition, other) :: other == body
  {
    forall other | BodyOf(occs, definition, other) ensures other == body {
      if !(occs[definition].enclosing != [] && Parse(occs[definition].enclosing).Some?) {
        var line := LineOf(occs[definition]);
        var m :| NextLine(occs, line, m) && body == BodyFrom(line, m);
        var n :| NextLine(occs, line, n) && other == BodyFrom(line, n);
        NextLineUnique(occs, line, m, n);
      }
    }
  }

  /** Without enclosing ranges, an occurrence is a call of at most one of two sibling definitions on different lines. */
  lemma {:induction false} OneCaller(occs: seq<Occurrence>, i: nat, j: nat, a: Rng, b: Rng, k: nat)
    requires i < |occs| && j < |occs| && Defines(occs[i]) && Defines(occs[j]) && LineOf(occs[i]) != LineOf(occs[j])
    requires occs[i].enclosing == [] == occs[j].enclosing && BodyOf(occs, i, a) && BodyOf(occs, j, b)
    requires k < |occs| && Parse(occs[k].range).Some? && WellFormed(Parse(occs[k].range).value)
    ensures !(IsCall(occs, i, a, k) && IsCall(occs, j, b, k))
  {
    var m :| NextLine(occs, LineOf(occs[i]), m) && a == BodyFrom(LineOf(occs[i]), m);
    var n :| NextLine(occs, LineOf(occs[j]), n) && b == BodyFrom(LineOf(occs[j]), n);
    BodiesMeetIff(occs, i, j, m, n);
    assert !Meet(Parse(occs[k].range).value, a, b);
  }
}
