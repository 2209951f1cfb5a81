/** The argument splitter of internal/extractor/ast/parse_helpers.go. */
module SplitArgs {

  datatype Mode = Code | Quoted(quote: char) | Escaped(quote: char)

  /** The reference reads one character at a time.  The depth may fall below zero. */
  datatype Scanner = Scanner(depth: int, mode: Mode)

  const START := Scanner(0, Code)

  function Read(st: Scanner, ch: char): Scanner {
    match st.mode
    case Escaped(q) => st.(mode := Quoted(q))
    case Quoted(q) =>
      if ch == '\\' && q != '`' then st.(mode := Escaped(q))
      else if ch == q then st.(mode := Code)
      else st
    case Code =>
      if ch == '"' || ch == '\'' || ch == '`' then st.(mode := Quoted(ch))
      else if ch == '(' || ch == '[' || ch == '{' || ch == '<' then st.(depth := st.depth + 1)
      else if ch == ')' || ch == ']' || ch == '}' || ch == '>' then st.(depth := st.depth - 1)
      else st
  }

  function ReadAll(st: Scanner, s: string): Scanner {
    if s == "" then st else Read(ReadAll(st, s[..|s| - 1]), s[|s| - 1])
  }

  /** The character at `i` is a comma at depth zero, outside quotes. */
  predicate IsCut(s: string, i: nat)
    requires i < |s|
  {
    s[i] == ',' && ReadAll(START, s[..i]) == START
  }

  /** Cut at every such comma. */
  function Split(s: string): (parts: seq<string>)
    ensures parts != []
  {
    if s == "" then [""]
    else
      var n := |s| - 1;
      var parts := Split(s[..n]);
      if IsCut(s, n) then parts + [""] else parts[|parts| - 1 := parts[|parts| - 1] + [s[n]]]
  }

  /** strings.Join with a comma. */
  function Join(parts: seq<string>): string
    requires parts != []
  {
    if |parts| == 1 then parts[0] else Join(parts[..|parts| - 1]) + "," + parts[|parts| - 1]
  }

  /** No comma of the part would be a cut, read from a fresh start. */
  ghost predicate Uncut(part: string) {
    forall i | 0 <= i < |part| :: !IsCut(part, i)
  }

  /** Read from a fresh start, the part ends where it began: brackets and quotes closed. */
  predicate Closed(part: string) {
    ReadAll(START, part) == START
  }

  /** What splitting can yield: no part can be cut further, and all but the last are closed. */
  ghost predicate Clean(parts: seq<string>) {
    && parts != []
    && (forall k | 0 <= k < |parts| :: Uncut(parts[k]))
    && (forall k | 0 <= k < |parts| - 1 :: Closed(parts[k]))
  }

  lemma {:induction false} ReadSum(st: Scanner, a: string, b: string)
    ensures ReadAll(st, a + b) == ReadAll(ReadAll(st, a), b)
  {
    if b == "" {
      assert a + b == a;
    } else {
      assert (a + b)[..|a + b| - 1] == a + b[..|b| - 1];
      ReadSum(st, a, b[..|b| - 1]);
    }
  }

  lemma {:induction false} ReadOne(st: Scanner, ch: char)
    ensures ReadAll(st, [ch]) == Read(st, ch)
  {
    assert [ch][..0] == [];
    assert ReadAll(st, [ch][..0]) == st;
  }

  lemma {:induction false} JoinPush(parts: seq<string>, part: string)
    requires parts != []
    ensures Join(parts + [part]) == Join(parts) + "," + part
  {
    assert (parts + [part])[..|parts|] == parts;
  }

  lemma {:induction false} JoinGrows(parts: seq<string>, more: string)
    requires parts != []
    ensures Join(parts[|parts| - 1 := parts[|parts| - 1] + more]) == Join(parts) + more
  {
    var n := |parts| - 1;
    var longer := parts[n := parts[n] + more];
    assert longer[..n] == parts[..n];
    if n > 0 {
      assert Join(parts[..n]) + "," + (parts[n] + more) == Join(parts[..n]) + "," + parts[n] + more;
    }
  }

  /** Joining the parts gives the text back, for every text. */
  lemma {:induction false} JoinSplit(s: string)
    ensures Join(Split(s)) == s
  {
    if s != "" {
      var n := |s| - 1;
      JoinSplit(s[..n]);
      assert s == s[..n] + [s[n]];
      if IsCut(s, n) {
        JoinPush(Split(s[..n]), "");
        assert s[..n] + "," + "" == s;
      } else {
        JoinGrows(Split(s[..n]), [s[n]]);
      }
    }
  }

  /** The last part is what has been read since the last cut. */
  lemma {:induction false} LastPartState(s: string)
    ensures var parts := Split(s); ReadAll(START, s) == ReadAll(START, parts[|parts| - 1])
  {
    if s != "" {
      var n := |s| - 1;
      var parts := Split(s[..n]);
      var last := parts[|parts| - 1];
      LastPartState(s[..n]);
      if !IsCut(s, n) {
        ReadSum(START, last, [s[n]]);
        ReadOne(ReadAll(START, last), s[n]);
      }
    }
  }

  lemma {:induction false} UncutPush(part: string, ch: char)
    requires Uncut(part) && !(ch == ',' && Closed(part))
    ensures Uncut(part + [ch])
  {
    var r := part + [ch];
    forall i | 0 <= i < |r| ensures !IsCut(r, i) {
      assert r[..i] == part[..i];
      if i < |part| {
        assert !IsCut(part, i);
      } else {
        assert part[..i] == part;
      }
    }
  }

  /** Every text is split into clean parts. */
  lemma {:induction false} SplitIsClean(s: string)
    ensures Clean(Split(s))
  {
    if s != "" {
      var n := |s| - 1;
      var parts := Split(s[..n]);
      SplitIsClean(s[..n]);
      LastPartState(s[..n]);
      if !IsCut(s, n) { UncutPush(parts[|parts| - 1], s[n]); }
    }
  }

  /** Reading on from a closed text is reading afresh. */
  lemma {:induction false} CutShift(a: string, b: string, i: nat)
    requires Closed(a) && i < |b|
    ensures IsCut(a + b, |a| + i) <==> IsCut(b, i)
  {
    assert (a + b)[..|a| + i] == a + b[..i];
    ReadSum(START, a, b[..i]);
  }

  lemma {:induction false} JoinClosed(parts: seq<string>)
    requires parts != [] && forall k | 0 <= k < |parts| :: Closed(parts[k])
    ensures Closed(Join(parts))
  {
    if |parts| > 1 {
      var n := |parts| - 1;
      JoinClosed(parts[..n]);
      ReadSum(START, Join(parts[..n]), ",");
      ReadOne(START, ',');
      ReadSum(START, Join(parts[..n]) + ",", parts[n]);
    }
  }

  /** Appending an uncuttable text to a closed one, behind a cut. */
  lemma {:induction false} SplitAppend(a: string, b: string)
    requires Closed(a) && Uncut(b)
    ensures Split(a + "," + b) == Split(a) + [b]
  {
    var c := a + ",";
    if b == "" {
      assert c + b == c && c[..|a|] == a;
    } else {
      var n := |b| - 1;
      var s := c + b;
      assert s[..|s| - 1] == c + b[..n];
      forall i | 0 <= i < n ensures !IsCut(b[..n], i) {
        assert b[..n][..i] == b[..i];
        assert !IsCut(b, i);
      }
      SplitAppend(a, b[..n]);
      ReadSum(START, a, ",");
      ReadOne(START, ',');
      CutShift(c, b, n);
      assert !IsCut(b, n);
      assert b == b[..n] + [b[n]];
    }
  }

  lemma {:induction false} SplitUncut(part: string)
    requires Uncut(part)
    ensures Split(part) == [part]
  {
    if part != "" {
      var n := |part| - 1;
      forall i | 0 <= i < n ensures !IsCut(part[..n], i) {
        assert part[..n][..i] == part[..i];
        assert !IsCut(part, i);
      }
      SplitUncut(part[..n]);
      assert !IsCut(part, n);
      assert part == part[..n] + [part[n]];
    }
  }

  /**
    The other way round: clean parts are what splitting their join gives back. So the split of a text is its only
    division into clean parts.
   */
  lemma {:induction false} SplitJoin(parts: seq<string>)
    requires Clean(parts)
    ensures Split(Join(parts)) == parts
  {
    if |parts| == 1 {
      SplitUncut(parts[0]);
      assert parts == [parts[0]];
    } else {
      var n := |parts| - 1;
      SplitJoin(parts[..n]);
      JoinClosed(parts[..n]);
      SplitAppend(Join(parts[..n]), parts[n]);
      assert parts == parts[..n] + [parts[n]];
    }
  }

  lemma {:induction false} SplitPush(s: string, n: nat)
    requires n < |s|
    ensures ReadAll(START, s[..n + 1]) == Read(ReadAll(START, s[..n]), s[n])
    ensures var parts := Split(s[..n]);
            Split(s[..n + 1]) == if IsCut(s, n) then parts + [""] else parts[|parts| - 1 := parts[|parts| - 1] + [s[n]]]
  {
    assert s[..n + 1][..n] == s[..n];
  }

  /** The source's `quote`: no quote is the zero byte. */
  predicate QuoteOk(quote: char) {
    quote == '\0' || quote == '"' || quote == '\'' || quote == '`'
  }

  function ModeOf(quote: char): Mode {
    if quote == '\0' then Code else Quoted(quote)
  }

  /** The state of the loop agrees with the reference after the first `i` characters. */
  ghost predicate Agrees(s: string, i: nat, out: seq<string>, start: nat, depth: int, quote: char) {
    && start <= i <= |s| && QuoteOk(quote)
    && ReadAll(START, s[..i]) == Scanner(depth, ModeOf(quote))
    && Split(s[..i]) == out + [s[start..i]]
  }

  lemma {:induction false} AgreesAtStart(s: string)
    ensures Agrees(s, 0, [], 0, 0, '\0')
  {}

  /** The loop sees a cut exactly where the reference does. */
  lemma {:induction false} CutSeen(s: string, i: nat, out: seq<string>, start: nat, depth: int, quote: char)
    requires i < |s| && Agrees(s, i, out, start, depth, quote)
    ensures IsCut(s, i) <==> s[i] == ',' && depth == 0 && quote == '\0'
    ensures start <= i && QuoteOk(quote)
  {}

  /** One character that is no cut. */
  lemma {:induction false} Grow(s: string, i: nat, out: seq<string>, start: nat)
    requires i < |s| && start <= i && Split(s[..i]) == out + [s[start..i]] && !IsCut(s, i)
    ensures Split(s[..i + 1]) == out + [s[start..i + 1]]
  {
    hide Split, ReadAll, IsCut;
    SplitPush(s, i);
    var parts := out + [s[start..i]];
    assert s[start..i] + [s[i]] == s[start..i + 1];
    assert parts[|parts| - 1 := s[start..i + 1]] == out + [s[start..i + 1]];
  }

  lemma {:induction false} AgreesStep(s: string, i: nat, out: seq<string>, start: nat, depth: int, quote: char,
      depth1: int, quote1: char)
    requires i < |s| && Agrees(s, i, out, start, depth, quote) && !IsCut(s, i) && QuoteOk(quote1)
    requires Read(Scanner(depth, ModeOf(quote)), s[i]) == Scanner(depth1, ModeOf(quote1))
    ensures Agrees(s, i + 1, out, start, depth1, quote1)
  {
    hide Split, ReadAll, IsCut, Read;
    SplitPush(s, i);
    Grow(s, i, out, start);
  }

  /** A cut. */
  lemma {:induction false} AgreesCut(s: string, i: nat, out: seq<string>, start: nat)
    requires i < |s| && Agrees(s, i, out, start, 0, '\0') && s[i] == ','
    ensures Agrees(s, i + 1, out + [s[start..i]], i + 1, 0, '\0')
  {
    hide Split, ReadAll;
    SplitPush(s, i);
    assert s[i + 1..i + 1] == "";
  }

  /** A backslash in quotes: the next character is passed over. */
  lemma {:induction false} EscapeInside(s: string, i: nat, out: seq<string>, start: nat, depth: int, quote: char)
    requires i + 1 < |s| && Agrees(s, i, out, start, depth, quote) && quote != '\0' && quote != '`' && s[i] == '\\'
    ensures Agrees(s, i + 2, out, start, depth, quote)
  {
    hide Split, ReadAll;
    SplitPush(s, i);
    Grow(s, i, out, start);
    SplitPush(s, i + 1);
    Grow(s, i + 1, out, start);
  }

  /** A backslash in quotes at the very end. */
  lemma {:induction false} EscapeAtEnd(s: string, i: nat, out: seq<string>, start: nat, depth: int, quote: char)
    requires i + 1 == |s| && Agrees(s, i, out, start, depth, quote) && quote != '\0'
    ensures Split(s) == out + [s[start..]]
  {
    hide Split, ReadAll;
    SplitPush(s, i);
    Grow(s, i, out, start);
    assert s[..i + 1] == s && s[start..i + 1] == s[start..];
  }

  lemma {:induction false} AgreesEscape(s: string, i: nat, out: seq<string>, start: nat, depth: int, quote: char)
    requires i < |s| && Agrees(s, i, out, start, depth, quote) && quote != '\0' && quote != '`' && s[i] == '\\'
    ensures if i + 1 < |s| then Agrees(s, i + 2, out, start, depth, quote) else Split(s) == out + [s[start..]]
  {
    hide Split, ReadAll, Agrees, IsCut;
    if i + 1 < |s| {
      EscapeInside(s, i, out, start, depth, quote);
    } else {
      EscapeAtEnd(s, i, out, start, depth, quote);
    }
  }

  lemma {:induction false} AgreesDone(s: string, out: seq<string>, start: nat, depth: int, quote: char)
    requires Agrees(s, |s|, out, start, depth, quote)
    ensures Split(s) == out + [s[start..]]
  {
    assert s[..|s|] == s && s[start..|s|] == s[start..];
  }

  /** splitArgs. */
  method SplitArguments(s: string) returns (out: seq<string>)
    ensures out == Split(s)
    ensures out != [] && Join(out) == s && Clean(out)
  {
    hide Split, ReadAll, Agrees, IsCut;
    out := [];
    var depth, start := 0, 0;
    var quote := '\0';
    var i := 0;
    AgreesAtStart(s);
    while i < |s|
      invariant 0 <= start <= |s| && 0 <= i <= |s| + 1
      invariant if i <= |s| then Agrees(s, i, out, start, depth, quote) else Split(s) == out + [s[start..]]
      decreases |s| + 1 - i
    {
      var ch := s[i];
      ghost var depth0, quote0 := depth, quote;
      CutSeen(s, i, out, start, depth, quote);
      if quote != '\0' {
        if ch == '\\' && quote != '`' {
          AgreesEscape(s, i, out, start, depth, quote);
          i := i + 2;
          continue;
        }
        if ch == quote {
          quote := '\0';
        }
      } else if ch == '"' || ch == '\'' || ch == '`' {
        quote := ch;
      } else if ch == '(' || ch == '[' || ch == '{' || ch == '<' {
        depth := depth + 1;
      } else if ch == ')' || ch == ']' || ch == '}' || ch == '>' {
        depth := depth - 1;
      } else if ch == ',' && depth == 0 {
        AgreesCut(s, i, out, start);
        out := out + [s[start..i]];
        start := i + 1;
        i := i + 1;
        continue;
      }
      AgreesStep(s, i, out, start, depth0, quote0, depth, quote);
      i := i + 1;
    }
    if i == |s| { AgreesDone(s, out, start, depth, quote); }
    out := out + [s[start..]];
    JoinSplit(s);
    SplitIsClean(s);
  }

  // ----- what the comment promises, and when it holds

  /** Brackets, parentheses and braces nest; angle signs are counted beside them. */
  datatype Nesting = Nesting(brackets: int, angles: int, mode: Mode)

  function Delta(opening: string, closing: string, ch: char): int {
    if ch in opening then 1 else if ch in closing then -1 else 0
  }

  function Track(st: Nesting, ch: char): Nesting {
    var mode := Read(Scanner(0, st.mode), ch).mode;
    if st.mode.Code? then Nesting(st.brackets + Delta("([{", ")]}", ch), st.angles + Delta("<", ">", ch), mode)
    else st.(mode := mode)
  }

  /** The nesting behind a text. */
  function NestingOf(s: string): Nesting {
    if s == "" then Nesting(0, 0, Code) else Track(NestingOf(s[..|s| - 1]), s[|s| - 1])
  }

  /** A comma outside quotes. */
  predicate CodeComma(s: string, i: nat)
    requires i < |s|
  {
    s[i] == ',' && NestingOf(s[..i]).mode.Code?
  }

  /** A comma outside quotes, brackets, parentheses and braces. */
  predicate IsTopLevel(s: string, i: nat)
    requires i < |s|
  {
    CodeComma(s, i) && NestingOf(s[..i]).brackets == 0
  }

  /** Cut at every top-level comma. */
  function SplitTopLevel(s: string): (parts: seq<string>)
    ensures parts != []
  {
    if s == "" then [""]
    else
      var n := |s| - 1;
      var parts := SplitTopLevel(s[..n]);
      if IsTopLevel(s, n) then parts + [""] else parts[|parts| - 1 := parts[|parts| - 1] + [s[n]]]
  }

  /** The scanner of the source adds the angle signs to the depth. */
  lemma {:induction false} DepthIsSum(s: string)
    ensures var st := NestingOf(s); ReadAll(START, s) == Scanner(st.brackets + st.angles, st.mode)
  {
    if s != "" { DepthIsSum(s[..|s| - 1]); }
  }

  /** At this comma the angle signs before it make no difference. */
  predicate AnglesHarmless(s: string, i: nat)
    requires i < |s|
  {
    var st := NestingOf(s[..i]);
    st.brackets == 0 <==> st.brackets + st.angles == 0
  }

  lemma {:induction false} CutsAgreeIff(s: string, i: nat)
    requires i < |s|
    ensures (IsCut(s, i) <==> IsTopLevel(s, i)) <==> (CodeComma(s, i) ==> AnglesHarmless(s, i))
  {
    DepthIsSum(s[..i]);
  }

  /** The parts after one more character. */
  function Push(parts: seq<string>, ch: char, cut: bool): seq<string>
    requires parts != []
  {
    if cut then parts + [""] else parts[|parts| - 1 := parts[|parts| - 1] + [ch]]
  }

  /** One more character gives equal parts exactly if the parts were equal and both cut there or neither. */
  lemma {:induction false} PushAgrees(a: seq<string>, b: seq<string>, ch: char, cutA: bool, cutB: bool)
    requires a != [] && b != []
    ensures Push(a, ch, cutA) == Push(b, ch, cutB) <==> a == b && cutA == cutB
  {
    var n, m := |a| - 1, |b| - 1;
    if cutA && cutB {
      assert (a + [""])[..|a|] == a && (b + [""])[..|b|] == b;
    } else if !cutA && !cutB {
      var x, y := a[n := a[n] + [ch]], b[m := b[m] + [ch]];
      if x == y {
        assert x[n][..|a[n]|] == a[n] && y[m][..|b[m]|] == b[m];
        assert a == x[n := a[n]] && b == y[m := b[m]];
      }
    } else if cutA {
      assert (a + [""])[|a|] == "" != b[m] + [ch];
    } else {
      assert (b + [""])[|b|] == "" != a[n] + [ch];
    }
  }

  /**
    The argument list is cut at its top-level commas exactly if angle signs are harmless at every comma outside
    quotes.
   */
  lemma {:induction false} SplitsTopLevelIff(s: string)
    ensures Split(s) == SplitTopLevel(s) <==> forall i: nat | i < |s| && CodeComma(s, i) :: AnglesHarmless(s, i)
  {
    if s != "" {
      var n := |s| - 1;
      SplitsTopLevelIff(s[..n]);
      PushAgrees(Split(s[..n]), SplitTopLevel(s[..n]), s[n], IsCut(s, n), IsTopLevel(s, n));
      CutsAgreeIff(s, n);
      assert forall i: nat | i < n :: s[..n][..i] == s[..i];
      assert forall i: nat | i < n ::
          (CodeComma(s[..n], i) <==> CodeComma(s, i)) && (AnglesHarmless(s[..n], i) <==> AnglesHarmless(s, i));
      hide CodeComma, AnglesHarmless, IsCut, IsTopLevel, NestingOf, ReadAll;
    }
  }

  lemma {:induction false} NoAnglesCounted(s: string)
    requires forall i: nat | i < |s| && NestingOf(s[..i]).mode.Code? :: s[i] != '<' && s[i] != '>'
    ensures NestingOf(s).angles == 0
  {
    if s != "" {
      var n := |s| - 1;
      assert forall i: nat | i < n :: s[..n][..i] == s[..i];
      NoAnglesCounted(s[..n]);
    }
  }

  /** Without an angle sign outside quotes the comment holds. */
  lemma {:induction false} NoAnglesSuffices(s: string)
    requires forall i: nat | i < |s| && NestingOf(s[..i]).mode.Code? :: s[i] != '<' && s[i] != '>'
    ensures Split(s) == SplitTopLevel(s)
  {
    forall i: nat | i < |s| && CodeComma(s, i) ensures AnglesHarmless(s, i) {
      assert forall j: nat | j < i :: s[..i][..j] == s[..j];
      NoAnglesCounted(s[..i]);
    }
    SplitsTopLevelIff(s);
  }

  lemma {:induction false} ReadPush(s: string, ch: char, t: string)
    requires t == s + [ch]
    ensures ReadAll(START, t) == Read(ReadAll(START, s), ch)
  {
    assert t[..|t| - 1] == s;
  }

  lemma {:induction false} SplitPair(a: string, b: string, s: string)
    requires Closed(a) && Uncut(a) && Uncut(b) && s == a + "," + b
    ensures Split(s) == [a, b]
  {
    SplitUncut(a);
    SplitAppend(a, b);
  }

  /** A less-than sign opens a bracket that nothing closes: the comma behind it is no cut. */
  lemma {:induction false} LessThanHidesComma()
    ensures Split("a<b,c") == ["a<b,c"]
  {
    var s := "a<b,c";
    ReadPush("", 'a', s[..1]);
    ReadPush(s[..1], '<', s[..2]);
    ReadPush(s[..2], 'b', s[..3]);
    SplitUncut(s);
  }

  /** A greater-than sign closes a bracket that nothing opened, with the same effect. */
  lemma {:induction false} GreaterThanHidesComma()
    ensures Split("a>b,c") == ["a>b,c"]
  {
    var s := "a>b,c";
    ReadPush("", 'a', s[..1]);
    ReadPush(s[..1], '>', s[..2]);
    ReadPush(s[..2], 'b', s[..3]);
    SplitUncut(s);
  }

  lemma {:induction false} ReadNothing()
    ensures ReadAll(START, "") == START
  {}

  lemma {:induction false} ClosedByAngle()
    ensures Closed("(a>b")
  {
    hide ReadAll;
    ReadNothing();
    var a := "(a>b";
    ReadPush("", '(', a[..1]);
    ReadPush(a[..1], 'a', a[..2]);
    ReadPush(a[..2], '>', a[..3]);
    ReadPush(a[..3], 'b', a);
  }

  /** Inside parentheses it lowers the depth to zero, and the text is cut between them. */
  lemma {:induction false} GreaterThanCutsInside()
    ensures Split("(a>b,c)") == ["(a>b", "c)"]
  {
    hide ReadAll, Split;
    var a, b := "(a>b", "c)";
    ClosedByAngle();
    assert "(a>b,c)" == a + "," + b;
    SplitPair(a, b, "(a>b,c)");
  }
}
