/** Stable sorting by a string key, in the byte order the source sorts by. */
module Sorting {

  /** Go's order on strings: a proper prefix comes first. */
  predicate Leq(a: string, b: string) {
    a == [] || (b != [] && (a[0] < b[0] || (a[0] == b[0] && Leq(a[1..], b[1..]))))
  }

  lemma {:induction false} LeqTotal(a: string, b: string)
    ensures Leq(a, b) || Leq(b, a)
  {
    if a != [] && b != [] { LeqTotal(a[1..], b[1..]); }
  }

  lemma {:induction false} LeqTransitive(a: string, b: string, c: string)
    requires Leq(a, b) && Leq(b, c)
    ensures Leq(a, c)
  {
    if a != [] && a[0] == b[0] && b[0] == c[0] { LeqTransitive(a[1..], b[1..], c[1..]); }
  }

  lemma {:induction false} LeqAntisymmetric(a: string, b: string)
    requires Leq(a, b) && Leq(b, a)
    ensures a == b
  {
    if a != [] {
      LeqAntisymmetric(a[1..], b[1..]);
      assert a == [a[0]] + a[1..] && b == [b[0]] + b[1..];
    }
  }

  lemma {:induction false} LeqReflexive(a: string)
    ensures Leq(a, a)
  {
    if a != [] { LeqReflexive(a[1..]); }
  }

  ghost predicate SortedBy<T>(xs: seq<T>, key: T -> string) {
    forall i, j | 0 <= i < j < |xs| :: Leq(key(xs[i]), key(xs[j]))
  }

  /** Place `x` behind everything not above it. */
  function Insert<T>(xs: seq<T>, x: T, key: T -> string): (r: seq<T>)
    ensures |r| == |xs| + 1
  {
    if xs == [] || Leq(key(xs[|xs| - 1]), key(x)) then xs + [x]
    else Insert(xs[..|xs| - 1], x, key) + [xs[|xs| - 1]]
  }

  function Sort<T>(xs: seq<T>, key: T -> string): (r: seq<T>)
    ensures |r| == |xs|
  {
    if xs == [] then [] else Insert(Sort(xs[..|xs| - 1], key), xs[|xs| - 1], key)
  }

  lemma {:induction false} InsertMultiset<T>(xs: seq<T>, x: T, key: T -> string)
    ensures multiset(Insert(xs, x, key)) == multiset(xs) + multiset{x}
  {
    if xs != [] && !Leq(key(xs[|xs| - 1]), key(x)) {
      InsertMultiset(xs[..|xs| - 1], x, key);
      assert xs == xs[..|xs| - 1] + [xs[|xs| - 1]];
    }
  }

  /** Sorting loses nothing and invents nothing. */
  lemma {:induction false} SortMultiset<T>(xs: seq<T>, key: T -> string)
    ensures multiset(Sort(xs, key)) == multiset(xs)
  {
    if xs != [] {
      SortMultiset(xs[..|xs| - 1], key);
      InsertMultiset(Sort(xs[..|xs| - 1], key), xs[|xs| - 1], key);
      assert xs == xs[..|xs| - 1] + [xs[|xs| - 1]];
    }
  }

  lemma {:induction false} InsertMember<T>(xs: seq<T>, x: T, key: T -> string)
    ensures forall y | y in Insert(xs, x, key) :: y == x || y in xs
  {
    if xs != [] && !Leq(key(xs[|xs| - 1]), key(x)) { InsertMember(xs[..|xs| - 1], x, key); }
  }

  lemma {:induction false} InsertSorted<T>(xs: seq<T>, x: T, key: T -> string)
    requires SortedBy(xs, key)
    ensures SortedBy(Insert(xs, x, key), key)
  {
    if xs == [] {
    } else if Leq(key(xs[|xs| - 1]), key(x)) {
      forall i | 0 <= i < |xs| ensures Leq(key(xs[i]), key(x)) {
        if i < |xs| - 1 { LeqTransitive(key(xs[i]), key(xs[|xs| - 1]), key(x)); }
      }
    } else {
      var last := xs[|xs| - 1];
      var front := Insert(xs[..|xs| - 1], x, key);
      InsertSorted(xs[..|xs| - 1], x, key);
      InsertMember(xs[..|xs| - 1], x, key);
      LeqTotal(key(x), key(last));
      forall i | 0 <= i < |front| ensures Leq(key(front[i]), key(last)) { assert front[i] in front; }
    }
  }

  lemma {:induction false} SortSorted<T>(xs: seq<T>, key: T -> string)
    ensures SortedBy(Sort(xs, key), key)
  {
    if xs != [] {
      SortSorted(xs[..|xs| - 1], key);
      InsertSorted(Sort(xs[..|xs| - 1], key), xs[|xs| - 1], key);
    }
  }

  lemma {:induction false} SortedPrefix<T>(xs: seq<T>, key: T -> string, n: nat)
    requires SortedBy(xs, key) && n <= |xs|
    ensures SortedBy(xs[..n], key)
  {
    hide Leq;
  }

  /** A sorted sequence stays as it is. */
  lemma {:induction false} SortIdentity<T>(xs: seq<T>, key: T -> string)
    requires SortedBy(xs, key)
    ensures Sort(xs, key) == xs
  {
    hide Leq;
    if xs != [] {
      var n := |xs| - 1;
      SortedPrefix(xs, key, n);
      SortIdentity(xs[..n], key);
      InsertTop(xs[..n], xs[n], key);
      assert xs == xs[..n] + [xs[n]];
    }
  }

  lemma {:induction false} InsertTop<T>(xs: seq<T>, x: T, key: T -> string)
    requires forall y | y in xs :: Leq(key(y), key(x))
    ensures Insert(xs, x, key) == xs + [x]
  {
    hide Leq;
  }

  lemma {:induction false} LastIsTop<T>(xs: seq<T>, x: T, key: T -> string)
    requires SortedBy(xs, key) && x in xs
    ensures Leq(key(x), key(xs[|xs| - 1]))
  {
    hide Leq;
    LeqReflexive(key(x));
  }

  lemma {:induction false} SameMembers<T>(xs: seq<T>, ys: seq<T>, x: T)
    requires multiset(xs) == multiset(ys)
    ensures x in xs <==> x in ys
  {
    assert x in xs <==> x in multiset(xs);
    assert x in ys <==> x in multiset(ys);
  }

  lemma {:induction false} PopMultiset<T>(xs: seq<T>, n: nat)
    requires |xs| == n + 1
    ensures multiset(xs[..n]) == multiset(xs) - multiset{xs[n]}
  {
    assert xs == xs[..n] + [xs[n]];
  }

  ghost predicate KeyFixes<T>(xs: seq<T>, key: T -> string) {
    forall x, y | x in xs && y in xs && key(x) == key(y) :: x == y
  }

  /** If equal keys mean equal elements, the sorted sequence depends on the multiset alone. */
  lemma {:induction false} SortedUnique<T>(xs: seq<T>, ys: seq<T>, key: T -> string)
    requires SortedBy(xs, key) && SortedBy(ys, key) && multiset(xs) == multiset(ys) && KeyFixes(xs, key)
    ensures xs == ys
  {
    hide Leq, SortedBy;
    assert |xs| == |multiset(xs)| == |multiset(ys)| == |ys|;
    if xs != [] {
      var n := |xs| - 1;
      var x, y := xs[n], ys[n];
      SameMembers(xs, ys, x);
      SameMembers(xs, ys, y);
      LastIsTop(xs, y, key);
      LastIsTop(ys, x, key);
      LeqAntisymmetric(key(x), key(y));
      PopMultiset(xs, n);
      PopMultiset(ys, n);
      SortedPrefix(xs, key, n);
      SortedPrefix(ys, key, n);
      SortedUnique(xs[..n], ys[..n], key);
      assert xs == xs[..n] + [x] && ys == ys[..n] + [y];
    }
  }

  /** Sorting by a key that tells the elements apart forgets the order they came in. */
  lemma {:induction false} SortCanonical<T>(xs: seq<T>, ys: seq<T>, key: T -> string)
    requires multiset(xs) == multiset(ys) && KeyFixes(xs, key)
    ensures Sort(xs, key) == Sort(ys, key)
  {
    hide Leq, SortedBy, Sort, KeyFixes;
    SortMultiset(xs, key);
    SortMultiset(ys, key);
    SortSorted(xs, key);
    SortSorted(ys, key);
    assert KeyFixes(Sort(xs, key), key) by { KeyFixesMoves(xs, Sort(xs, key), key); }
    SortedUnique(Sort(xs, key), Sort(ys, key), key);
  }

  lemma {:induction false} KeyFixesMoves<T>(xs: seq<T>, ys: seq<T>, key: T -> string)
    requires multiset(xs) == multiset(ys) && KeyFixes(xs, key)
    ensures KeyFixes(ys, key)
  {
    forall x ensures x in xs <==> x in ys { SameMembers(xs, ys, x); }
  }
}
