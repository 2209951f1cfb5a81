/** Mapping over sequences, and sequences without repetition. */
module Lists {
  import opened Sorting

  function Map<T, U>(f: T -> U, xs: seq<T>): (ys: seq<U>)
    ensures |ys| == |xs| && forall i | 0 <= i < |xs| :: ys[i] == f(xs[i])
  {
    seq(|xs|, i requires 0 <= i < |xs| => f(xs[i]))
  }

  ghost predicate Distinct<T>(ids: seq<T>) {
    forall i, j | 0 <= i < j < |ids| :: ids[i] != ids[j]
  }

  lemma {:induction false} MapWithout<T, U>(f: T -> U, b: seq<T>, j: nat)
    requires j < |b|
    ensures multiset(b[..j] + b[j + 1..]) == multiset(b) - multiset{b[j]}
    ensures multiset(Map(f, b[..j] + b[j + 1..])) == multiset(Map(f, b)) - multiset{f(b[j])}
  {
    var mb := Map(f, b);
    assert b == b[..j] + [b[j]] + b[j + 1..];
    assert mb == mb[..j] + [mb[j]] + mb[j + 1..];
    assert Map(f, b[..j] + b[j + 1..]) == mb[..j] + mb[j + 1..];
  }

  lemma {:induction false} MapDrop<T, U>(f: T -> U, b: seq<T>, x: T) returns (rest: seq<T>)
    requires x in b
    ensures multiset(rest) == multiset(b) - multiset{x} && |rest| < |b|
    ensures f(x) in multiset(Map(f, b)) && multiset(Map(f, rest)) == multiset(Map(f, b)) - multiset{f(x)}
  {
    hide Map;
    var j :| 0 <= j < |b| && b[j] == x;
    MapWithout(f, b, j);
    MapHas(f, b, j);
    rest := b[..j] + b[j + 1..];
  }

  lemma {:induction false} MapMultiset<T, U>(f: T -> U, a: seq<T>, b: seq<T>)
    requires multiset(a) == multiset(b)
    ensures multiset(Map(f, a)) == multiset(Map(f, b))
    decreases |a|
  {
    hide Map;
    if a == [] {
      assert |multiset(b)| == 0;
      assert b == [];
    } else {
      assert a[0] in multiset(b);
      var a1 := MapDrop(f, a, a[0]);
      var b1 := MapDrop(f, b, a[0]);
      MapMultiset(f, a1, b1);
      PutBack(multiset(Map(f, a)), multiset(Map(f, b)), f(a[0]));
    }
  }

  lemma {:induction false} MapHas<T, U>(f: T -> U, b: seq<T>, j: nat)
    requires j < |b|
    ensures f(b[j]) in multiset(Map(f, b))
  {
    assert Map(f, b)[j] == f(b[j]);
  }

  lemma {:induction false} PutBack<T>(a: multiset<T>, b: multiset<T>, x: T)
    requires x in a && x in b && a - multiset{x} == b - multiset{x}
    ensures a == b
  {
    assert a == a - multiset{x} + multiset{x};
    assert b == b - multiset{x} + multiset{x};
  }

  lemma {:induction false} DistinctMultiset<T>(s: seq<T>, t: seq<T>)
    requires multiset(s) == multiset(t) && Distinct(s)
    ensures Distinct(t)
  {
    forall i, j | 0 <= i < j < |t| ensures t[i] != t[j] {
      if t[i] == t[j] {
        assert t == t[..j] + [t[j]] + t[j + 1..];
        assert t[i] in t[..j];
        assert multiset(s)[t[j]] >= 2;
        DistinctCount(s, t[j]);
      }
    }
  }

  lemma {:induction false} DistinctCount<T>(s: seq<T>, x: T)
    requires Distinct(s)
    ensures multiset(s)[x] <= 1
  {
    if s != [] {
      var n := |s| - 1;
      assert s == s[..n] + [s[n]];
      DistinctCount(s[..n], x);
      if s[n] == x { assert x !in s[..n]; }
    }
  }

  lemma {:induction false} MultisetMembers<T>(s: seq<T>, t: seq<T>)
    requires multiset(s) == multiset(t)
    ensures forall x :: x in s <==> x in t
  {
    forall x ensures x in s <==> x in t { SameMembers(s, t, x); }
  }

  lemma {:induction false} DistinctParts(a: seq<string>, b: seq<string>, c: seq<string>)
    requires Distinct(a + b + c)
    ensures Distinct(a) && Distinct(b) && Distinct(c)
    ensures forall id | id in a :: id !in b && id !in c
    ensures forall id | id in b :: id !in c
  {
    var s := a + b + c;
    forall i, j | 0 <= i < j < |a| ensures a[i] != a[j] { assert s[i] != s[j]; }
    forall i, j | 0 <= i < j < |b| ensures b[i] != b[j] { assert s[|a| + i] != s[|a| + j]; }
    forall i, j | 0 <= i < j < |c| ensures c[i] != c[j] { assert s[|a| + |b| + i] != s[|a| + |b| + j]; }
    forall i, j | 0 <= i < |a| && 0 <= j < |b| ensures a[i] != b[j] { assert s[i] != s[|a| + j]; }
    forall i, j | 0 <= i < |a| && 0 <= j < |c| ensures a[i] != c[j] { assert s[i] != s[|a| + |b| + j]; }
    forall i, j | 0 <= i < |b| && 0 <= j < |c| ensures b[i] != c[j] { assert s[|a| + i] != s[|a| + |b| + j]; }
  }

  ghost predicate Apart(a: seq<string>, b: seq<string>) {
    forall id | id in a :: id !in b
  }

  lemma {:induction false} DistinctJoin(a: seq<string>, b: seq<string>, c: seq<string>)
    ensures Distinct(a + b + c) <==>
      Distinct(a) && Distinct(b) && Distinct(c) && Apart(b, a) && Apart(c, a) && Apart(c, b)
  {
    var s := a + b + c;
    if Distinct(s) {
      DistinctParts(a, b, c);
    } else if Distinct(a) && Distinct(b) && Distinct(c) && Apart(b, a) && Apart(c, a) && Apart(c, b) {
      forall i, j | 0 <= i < j < |s| ensures s[i] != s[j] {
        if i < |a| {
          assert s[i] in a;
          assert j >= |a| ==> s[j] in b || s[j] in c;
        } else if i < |a| + |b| {
          assert s[i] in b;
          assert j >= |a| + |b| ==> s[j] in c;
        }
      }
    }
  }

  lemma {:induction false} MapSum<T, U>(f: T -> U, a: seq<T>, b: seq<T>)
    ensures Map(f, a + b) == Map(f, a) + Map(f, b)
  {}

  lemma {:induction false} DistinctPush<T>(ids: seq<T>, id: T)
    requires Distinct(ids) && id !in ids
    ensures Distinct(ids + [id])
  {}

  function Flat<T, U>(f: T -> seq<U>, xs: seq<T>): seq<U> {
    if xs == [] then [] else Flat(f, xs[..|xs| - 1]) + f(xs[|xs| - 1])
  }

  lemma {:induction false} FlatSum<T, U>(f: T -> seq<U>, a: seq<T>, b: seq<T>)
    ensures Flat(f, a + b) == Flat(f, a) + Flat(f, b)
  {
    if b == [] {
      assert a + b == a;
    } else {
      var n := |b| - 1;
      assert (a + b)[..|a + b| - 1] == a + b[..n];
      FlatSum(f, a, b[..n]);
      assert Flat(f, a) + Flat(f, b[..n]) + f(b[n]) == Flat(f, a) + Flat(f, b);
    }
  }

  lemma {:induction false} FlatOne<T, U>(f: T -> seq<U>, x: T)
    ensures Flat(f, [x]) == f(x)
  {
    assert [x][..0] == [];
    assert Flat(f, [x][..0]) == [];
  }

  lemma {:induction false} FlatWithout<T, U>(f: T -> seq<U>, b: seq<T>, j: nat)
    requires j < |b|
    ensures multiset(Flat(f, b)) == multiset(Flat(f, b[..j] + b[j + 1..])) + multiset(f(b[j]))
  {
    hide Flat;
    assert b == b[..j] + [b[j]] + b[j + 1..];
    FlatSum(f, b[..j] + [b[j]], b[j + 1..]);
    FlatSum(f, b[..j], [b[j]]);
    FlatSum(f, b[..j], b[j + 1..]);
    FlatOne(f, b[j]);
  }

  /** Elements that agree on `c` yield the same pieces, in any order. */
  ghost predicate Follows<T(!new), U, C>(c: T -> C, f: T -> seq<U>) {
    forall x, y | c(x) == c(y) :: multiset(f(x)) == multiset(f(y))
  }

  lemma {:induction false} FlatDrop<T, U, C>(c: T -> C, f: T -> seq<U>, b: seq<T>, y: C) returns (rest: seq<T>, x: T)
    requires y in multiset(Map(c, b))
    ensures |rest| < |b| && c(x) == y
    ensures multiset(Map(c, rest)) == multiset(Map(c, b)) - multiset{y}
    ensures multiset(Flat(f, b)) == multiset(Flat(f, rest)) + multiset(f(x))
  {
    hide Flat, Map;
    var j := MapFind(c, b, y);
    MapWithout(c, b, j);
    FlatWithout(f, b, j);
    rest, x := b[..j] + b[j + 1..], b[j];
  }

  lemma {:induction false} FlatContent<T(!new), U, C>(c: T -> C, f: T -> seq<U>, a: seq<T>, b: seq<T>)
    requires multiset(Map(c, a)) == multiset(Map(c, b)) && Follows(c, f)
    ensures multiset(Flat(f, a)) == multiset(Flat(f, b))
    decreases |a|
  {
    hide Flat, Map;
    if a == [] {
      assert |multiset(Map(c, b))| == 0;
      assert |Map(c, b)| == 0;
      assert b == [];
    } else {
      MapHas(c, a, 0);
      var y := c(a[0]);
      var a1, x1 := FlatDrop(c, f, a, y);
      var b1, x2 := FlatDrop(c, f, b, y);
      FlatContent(c, f, a1, b1);
      assert multiset(f(x1)) == multiset(f(x2));
    }
  }

  lemma {:induction false} MapFind<T, U>(f: T -> U, b: seq<T>, y: U) returns (j: nat)
    requires y in multiset(Map(f, b))
    ensures j < |b| && f(b[j]) == y
  {
    assert y in Map(f, b);
    j :| 0 <= j < |Map(f, b)| && Map(f, b)[j] == y;
  }

  function Single<T, U>(f: T -> U): T -> seq<U> { (x: T) => [f(x)] }

  lemma {:induction false} MapIsFlat<T, U>(f: T -> U, a: seq<T>)
    ensures Map(f, a) == Flat(Single(f), a)
  {
    if a != [] {
      var n := |a| - 1;
      MapIsFlat(f, a[..n]);
      assert a == a[..n] + [a[n]];
      assert Map(f, a) == Map(f, a[..n]) + [f(a[n])];
    }
  }

  lemma {:induction false} MapContent<T(!new), U, C>(c: T -> C, f: T -> U, a: seq<T>, b: seq<T>)
    requires multiset(Map(c, a)) == multiset(Map(c, b)) && forall x, y | c(x) == c(y) :: f(x) == f(y)
    ensures multiset(Map(f, a)) == multiset(Map(f, b))
  {
    hide Map, Flat;
    MapIsFlat(f, a);
    MapIsFlat(f, b);
    FlatContent(c, Single(f), a, b);
  }

  function Same<T>(x: T): T { x }

  lemma {:induction false} FlatMultiset<T(!new), U>(f: T -> seq<U>, a: seq<T>, b: seq<T>)
    requires multiset(a) == multiset(b)
    ensures multiset(Flat(f, a)) == multiset(Flat(f, b))
  {
    hide Flat;
    assert Map(x => Same(x), a) == a;
    assert Map(x => Same(x), b) == b;
    FlatContent(x => Same(x), f, a, b);
  }

  /** A lookup in a Go map of counters. */
  function Get(counts: map<string, nat>, key: string): nat {
    if key in counts then counts[key] else 0
  }

  lemma {:induction false} TimesSucc(a: nat, b: nat)
    ensures a * (b + 1) == a * b + a
  {}

  lemma {:induction false} TimesMonotone(a: nat, b: nat, c: nat)
    requires a <= b
    ensures a * c <= b * c
  {}
}
