/**
 Go's string order and the sorts the source runs by a string key (sort.Strings, slices.SortFunc):
 what makes its output independent of map iteration order and of the order conditions arrived in.
 */
module Ordering {
  /** Lexicographic order on strings. */
  predicate Le(a: string, b: string) {
    a == "" || (b != "" && (a[0] < b[0] || (a[0] == b[0] && Le(a[1..], b[1..]))))
  }

  /** The strings agree up to `i`, and there `a` has the smaller character. */
  predicate FirstDiffer(a: string, b: string, i: nat) {
    i < |a| && i < |b| && a[..i] == b[..i] && a[i] < b[i]
  }

  /** A prefix, or smaller where they first differ. */
  lemma {:induction false} LeIsLexicographic(a: string, b: string)
    ensures Le(a, b) <==> a <= b || exists i: nat :: FirstDiffer(a, b, i)
    decreases |a|
  {
    if a != "" && b != "" {
      if a[0] == b[0] {
        var s, t := a[1..], b[1..];
        LeIsLexicographic(s, t);
        assert a == [a[0]] + s && b == [a[0]] + t;
        if i: nat :| FirstDiffer(s, t, i) {
          assert a[..i + 1] == [a[0]] + s[..i] && b[..i + 1] == [a[0]] + t[..i];
          assert FirstDiffer(a, b, i + 1);
        }
        if i: nat :| FirstDiffer(a, b, i) {
          assert s[..i - 1] == a[..i][1..] && t[..i - 1] == b[..i][1..];
          assert FirstDiffer(s, t, i - 1);
        }
      } else if a[0] < b[0] {
        assert FirstDiffer(a, b, 0);
      } else {
        forall i: nat ensures !FirstDiffer(a, b, i) {
          if i > 0 && i < |a| && i < |b| { assert a[..i][0] == a[0] && b[..i][0] == b[0]; }
        }
      }
    }
  }

  lemma {:induction false} LeTotal(a: string, b: string)
    ensures Le(a, b) || Le(b, a)
  {
    if a != "" && b != "" && a[0] == b[0] {
      LeTotal(a[1..], b[1..]);
    }
  }

  lemma {:induction false} LeAntisymmetric(a: string, b: string)
    requires Le(a, b) && Le(b, a)
    ensures a == b
  {
    if a != "" && b != "" {
      LeAntisymmetric(a[1..], b[1..]);
      assert a == [a[0]] + a[1..] && b == [b[0]] + b[1..];
    }
  }

  lemma {:induction false} LeTransitive(a: string, b: string, c: string)
    requires Le(a, b) && Le(b, c)
    ensures Le(a, c)
  {
    if a != "" && b != "" && c != "" && a[0] == b[0] == c[0] {
      LeTransitive(a[1..], b[1..], c[1..]);
    }
  }

  predicate Sorted<T>(key: T -> string, xs: seq<T>) {
    forall i, j | 0 <= i < j < |xs| :: Le(key(xs[i]), key(xs[j]))
  }

  /** No two positions share a key. */
  predicate Unique<T>(key: T -> string, xs: seq<T>) {
    forall i, j | 0 <= i < j < |xs| :: key(xs[i]) != key(xs[j])
  }

  function Insert<T>(key: T -> string, x: T, xs: seq<T>): seq<T> {
    if xs == [] || Le(key(x), key(xs[0])) then [x] + xs else [xs[0]] + Insert(key, x, xs[1..])
  }

  function Sort<T>(key: T -> string, xs: seq<T>): seq<T> {
    if xs == [] then [] else Insert(key, xs[0], Sort(key, xs[1..]))
  }

  lemma {:induction false} InsertSorts<T>(key: T -> string, x: T, xs: seq<T>)
    requires Sorted(key, xs)
    ensures Sorted(key, Insert(key, x, xs))
    ensures multiset(Insert(key, x, xs)) == multiset(xs) + multiset{x}
  {
    if xs != [] {
      assert xs == [xs[0]] + xs[1..];
      LeTotal(key(x), key(xs[0]));
      if Le(key(x), key(xs[0])) {
        forall j | 0 <= j < |xs| ensures Le(key(x), key(xs[j])) {
          if j > 0 { LeTransitive(key(x), key(xs[0]), key(xs[j])); }
        }
      } else {
        InsertSorts(key, x, xs[1..]);
        var rest := Insert(key, x, xs[1..]);
        forall j | 0 <= j < |rest| ensures Le(key(xs[0]), key(rest[j])) {
          assert rest[j] in multiset(rest);
          assert rest[j] in xs[1..] || rest[j] == x;
        }
      }
    }
  }

  lemma {:induction false} SortSorts<T>(key: T -> string, xs: seq<T>)
    ensures Sorted(key, Sort(key, xs)) && multiset(Sort(key, xs)) == multiset(xs)
  {
    if xs != [] {
      assert xs == [xs[0]] + xs[1..];
      SortSorts(key, xs[1..]);
      InsertSorts(key, xs[0], Sort(key, xs[1..]));
    }
  }

  lemma {:induction false} SortLeavesSorted<T>(key: T -> string, xs: seq<T>)
    requires Sorted(key, xs)
    ensures Sort(key, xs) == xs
  {
    if xs != [] {
      SortLeavesSorted(key, xs[1..]);
      assert xs == [xs[0]] + xs[1..];
    }
  }

  lemma HeadIsAlone<T(!new)>(key: T -> string, xs: seq<T>)
    requires Unique(key, xs) && xs != []
    ensures forall y | y in xs[1..] :: key(y) != key(xs[0])
  {
    forall y | y in xs[1..] ensures key(y) != key(xs[0]) {
      var i :| 0 <= i < |xs| - 1 && xs[1..][i] == y;
      assert xs[i + 1] == y;
    }
  }

  lemma {:induction false} InsertKeepsUnique<T(!new)>(key: T -> string, x: T, xs: seq<T>)
    requires Unique(key, xs) && forall i | 0 <= i < |xs| :: key(xs[i]) != key(x)
    ensures Unique(key, Insert(key, x, xs))
    ensures forall y :: y in Insert(key, x, xs) <==> y == x || y in xs
  {
    if xs != [] {
      assert xs == [xs[0]] + xs[1..];
      InsertKeepsUnique(key, x, xs[1..]);
      HeadIsAlone(key, xs);
      var rest := Insert(key, x, xs[1..]);
      forall j | 0 <= j < |rest| ensures key(xs[0]) != key(rest[j]) {
        assert rest[j] in rest;
      }
    }
  }

  lemma {:induction false} SortKeepsUnique<T(!new)>(key: T -> string, xs: seq<T>)
    requires Unique(key, xs)
    ensures Unique(key, Sort(key, xs))
    ensures forall y :: y in Sort(key, xs) <==> y in xs
  {
    if xs != [] {
      assert xs == [xs[0]] + xs[1..];
      SortKeepsUnique(key, xs[1..]);
      HeadIsAlone(key, xs);
      forall i | 0 <= i < |Sort(key, xs[1..])| ensures key(Sort(key, xs[1..])[i]) != key(xs[0]) {
        assert Sort(key, xs[1..])[i] in Sort(key, xs[1..]);
      }
      InsertKeepsUnique(key, xs[0], Sort(key, xs[1..]));
    }
  }

  /** The key tells the elements apart. */
  ghost predicate Separates<T(!new)>(key: T -> string, xs: multiset<T>) {
    forall x, y | x in xs && y in xs && key(x) == key(y) :: x == y
  }

  lemma SameHead<T(!new)>(key: T -> string, a: seq<T>, b: seq<T>)
    requires Sorted(key, a) && Sorted(key, b) && multiset(a) == multiset(b) && a != [] && b != []
    requires Separates(key, multiset(a))
    ensures a[0] == b[0]
  {
    assert a[0] in multiset(b) && b[0] in multiset(a);
    var i :| 0 <= i < |a| && a[i] == b[0];
    var j :| 0 <= j < |b| && b[j] == a[0];
    if i != 0 && j != 0 {
      LeAntisymmetric(key(a[0]), key(b[0]));
    }
  }

  /** Sorted sequences of the same elements are equal when the key tells the elements apart. */
  lemma {:induction false} SortedIsUnique<T(!new)>(key: T -> string, a: seq<T>, b: seq<T>)
    requires Sorted(key, a) && Sorted(key, b) && multiset(a) == multiset(b)
    requires Separates(key, multiset(a))
    ensures a == b
  {
    if a == [] || b == [] {
      assert |multiset(a)| == |a| && |multiset(b)| == |b|;
    } else {
      SameHead(key, a, b);
      assert a == [a[0]] + a[1..] && b == [b[0]] + b[1..];
      assert multiset(a[1..]) == multiset(a) - multiset{a[0]};
      assert multiset(b[1..]) == multiset(b) - multiset{b[0]};
      SortedIsUnique(key, a[1..], b[1..]);
    }
  }

  /** Sorting forgets the order its input came in, e.g. the iteration order of a map. */
  lemma SortForgetsOrder<T(!new)>(key: T -> string, a: seq<T>, b: seq<T>)
    requires multiset(a) == multiset(b) && Separates(key, multiset(a))
    ensures Sort(key, a) == Sort(key, b)
  {
    SortSorts(key, a);
    SortSorts(key, b);
    SortedIsUnique(key, Sort(key, a), Sort(key, b));
  }
}
