/** The little of Go's strings package the models need, on ASCII white space. */
module Text {

  predicate Space(c: char) {
    c == ' ' || ('\t' <= c <= '\r')
  }

  function TrimLeft(s: string): (r: string)
    ensures |r| <= |s| && r == s[|s| - |r|..] && (r != [] ==> !Space(r[0]))
    ensures s != [] && !Space(s[0]) ==> r == s
  {
    if s != [] && Space(s[0]) then TrimLeft(s[1..]) else s
  }

  function TrimRight(s: string): (r: string)
    ensures |r| <= |s| && r == s[..|r|] && (r != [] ==> !Space(r[|r| - 1]))
    ensures s != [] && !Space(s[|s| - 1]) ==> r == s
  {
    if s != [] && Space(s[|s| - 1]) then TrimRight(s[..|s| - 1]) else s
  }

  /** strings.TrimSpace */
  function Trim(s: string): string {
    TrimRight(TrimLeft(s))
  }

  predicate Blank(s: string) {
    Trim(s) == ""
  }

  lemma {:induction false} TrimIdempotent(s: string)
    ensures Trim(Trim(s)) == Trim(s)
  {
    var l := TrimLeft(s);
    var r := TrimRight(l);
    if r != [] { assert r[0] == l[0]; }
  }

  /** A text whose ends are no white space is left alone. */
  lemma {:induction false} TrimSolid(s: string)
    requires s != [] && !Space(s[0]) && !Space(s[|s| - 1])
    ensures Trim(s) == s
  {}

  lemma {:induction false} TrimRightKeeps(s: string)
    requires s != [] && !Space(s[0])
    ensures TrimRight(s) != []
  {
    if Space(s[|s| - 1]) { TrimRightKeeps(s[..|s| - 1]); }
  }

  /** A text that begins with a mark is not blank. */
  lemma {:induction false} TrimKeepsMark(s: string)
    requires s != [] && !Space(s[0])
    ensures Trim(s) != ""
  {
    TrimRightKeeps(s);
  }

  lemma {:induction false} TrimEmpty()
    ensures Trim("") == ""
  {}

  function LowerChar(c: char): char {
    if 'A' <= c <= 'Z' then (c as int + 32) as char else c
  }

  function Lower(s: string): (r: string)
    ensures |r| == |s|
  {
    seq(|s|, i requires 0 <= i < |s| => LowerChar(s[i]))
  }

  /** strings.Contains */
  predicate Contains(s: string, part: string) {
    part <= s || (s != "" && Contains(s[1..], part))
  }
}
