// Sorting as the broker uses it: by a key that is unique in the list, so that the
// sorted list depends only on which elements the list holds.
module Ordering {

  // Code-point order on strings: the order of string keys.
  predicate StringLess(a: string, b: string)
  {
    if b == [] then false
    else if a == [] then true
    else if a[0] == b[0] then StringLess(a[1..], b[1..])
    else a[0] < b[0]
  }

  lemma SameHead(a: string, b: string, n: nat)
    requires 0 < n <= |a| && n <= |b| && a[..n] == b[..n]
    ensures a[0] == b[0]
  {
    assert a[..n][0] == b[..n][0];
  }

  // The first place where they differ decides; a proper prefix comes first.
  lemma {:induction false} StringLessIsLexicographic(a: string, b: string)
    ensures StringLess(a, b) <==>
              exists n: nat | n <= |a| && n < |b| :: a[..n] == b[..n] && (n < |a| ==> a[n] < b[n])
    decreases |a|
  {
    if a != [] && b != [] && a[0] == b[0] {
      StringLessIsLexicographic(a[1..], b[1..]);
      if n: nat :| n <= |a| && n < |b| && a[..n] == b[..n] && (n < |a| ==> a[n] < b[n]) {
        assert n > 0 && a[1..][..n - 1] == a[..n][1..] && b[1..][..n - 1] == b[..n][1..];
      }
      if m: nat :| m <= |a[1..]| && m < |b[1..]| && a[1..][..m] == b[1..][..m] && (m < |a[1..]| ==> a[1..][m] < b[1..][m]) {
        assert a[..m + 1] == [a[0]] + a[1..][..m] && b[..m + 1] == [b[0]] + b[1..][..m];
      }
    } else {
      if n: nat :| n <= |a| && n < |b| && a[..n] == b[..n] && (n < |a| ==> a[n] < b[n]) {
        if n > 0 { SameHead(a, b, n); }
      }
      assert a[..0] == b[..0];
    }
  }

  lemma {:induction false} StringLessTotal(a: string, b: string)
    ensures a == b || StringLess(a, b) || StringLess(b, a)
  {
    if a != [] && b != [] && a[0] == b[0] {
      StringLessTotal(a[1..], b[1..]);
      assert a == [a[0]] + a[1..] && b == [b[0]] + b[1..];
    }
  }

  lemma {:induction false} StringLessIrreflexive(a: string)
    ensures !StringLess(a, a)
  {
    if a != [] {
      StringLessIrreflexive(a[1..]);
    }
  }

  lemma {:induction false} StringLessTransitive(a: string, b: string, c: string)
    requires StringLess(a, b) && StringLess(b, c)
    ensures StringLess(a, c)
  {
    if a != [] && b != [] && c != [] && a[0] == b[0] == c[0] {
      StringLessTransitive(a[1..], b[1..], c[1..]);
    }
  }

  // `less` is a strict total order on the elements of `xs`.
  ghost predicate LinearOn<T(!new)>(less: (T, T) -> bool, xs: seq<T>)
  {
    && (forall x | x in xs :: !less(x, x))
    && (forall x, y | x in xs && y in xs :: x == y || less(x, y) || less(y, x))
    && (forall x, y, z | x in xs && y in xs && z in xs && less(x, y) && less(y, z) :: less(x, z))
  }

  predicate Distinct<T(==)>(xs: seq<T>)
  {
    forall i, j | 0 <= i < j < |xs| :: xs[i] != xs[j]
  }

  ghost predicate Increasing<T>(less: (T, T) -> bool, xs: seq<T>)
  {
    forall i, j | 0 <= i < j < |xs| :: less(xs[i], xs[j])
  }

  lemma StringsAreLinear(xs: seq<string>)
    ensures LinearOn(StringLess, xs)
  {
    forall x | x in xs ensures !StringLess(x, x) {
      StringLessIrreflexive(x);
    }
    forall x, y | x in xs && y in xs ensures x == y || StringLess(x, y) || StringLess(y, x) {
      StringLessTotal(x, y);
    }
    forall x, y, z | x in xs && y in xs && z in xs && StringLess(x, y) && StringLess(y, z) ensures StringLess(x, z) {
      StringLessTransitive(x, y, z);
    }
  }

  function Insert<T>(less: (T, T) -> bool, x: T, xs: seq<T>): seq<T>
  {
    if xs == [] || !less(xs[0], x) then [x] + xs
    else [xs[0]] + Insert(less, x, xs[1..])
  }

  // A stable sort, as `sorted` and `list.sort` are.
  function Sort<T>(less: (T, T) -> bool, xs: seq<T>): seq<T>
  {
    if xs == [] then [] else Insert(less, xs[0], Sort(less, xs[1..]))
  }

  lemma {:induction false} InsertElements<T>(less: (T, T) -> bool, x: T, xs: seq<T>)
    ensures multiset(Insert(less, x, xs)) == multiset([x] + xs)
  {
    if !(xs == [] || !less(xs[0], x)) {
      InsertElements(less, x, xs[1..]);
      assert xs == [xs[0]] + xs[1..];
    }
  }

  lemma {:induction false} SortElements<T>(less: (T, T) -> bool, xs: seq<T>)
    ensures multiset(Sort(less, xs)) == multiset(xs)
    ensures |Sort(less, xs)| == |xs|
    ensures forall x :: x in Sort(less, xs) <==> x in xs
  {
    if xs != [] {
      SortElements(less, xs[1..]);
      InsertElements(less, xs[0], Sort(less, xs[1..]));
      assert xs == [xs[0]] + xs[1..];
      assert multiset([xs[0]] + Sort(less, xs[1..])) == multiset{xs[0]} + multiset(xs[1..]);
    }
    assert |Sort(less, xs)| == |multiset(Sort(less, xs))| == |multiset(xs)| == |xs|;
    forall x ensures x in Sort(less, xs) <==> x in xs {
      assert x in multiset(Sort(less, xs)) <==> x in Sort(less, xs);
      assert x in multiset(xs) <==> x in xs;
    }
  }

  lemma {:induction false} InsertIncreasing<T(!new)>(less: (T, T) -> bool, x: T, xs: seq<T>)
    requires LinearOn(less, [x] + xs) && x !in xs && Increasing(less, xs)
    ensures Increasing(less, Insert(less, x, xs))
  {
    assert x in [x] + xs;
    assert forall y | y in xs :: y in [x] + xs;
    if xs == [] {
    } else if !less(xs[0], x) {
      assert less(x, xs[0]);
      forall j | 0 <= j < |xs| ensures less(x, xs[j]) {
        if j > 0 { assert less(xs[0], xs[j]); }
      }
    } else {
      var rest := xs[1..];
      assert forall y | y in [x] + rest :: y in [x] + xs;
      InsertIncreasing(less, x, rest);
      InsertElements(less, x, rest);
      var tail := Insert(less, x, rest);
      forall j | 0 <= j < |tail| ensures less(xs[0], tail[j]) {
        assert tail[j] in multiset(tail);
        assert tail[j] in [x] + rest;
      }
    }
  }

  lemma {:induction false} SortIncreasing<T(!new)>(less: (T, T) -> bool, xs: seq<T>)
    requires LinearOn(less, xs) && Distinct(xs)
    ensures Increasing(less, Sort(less, xs))
  {
    if xs != [] {
      var rest := xs[1..];
      assert forall y | y in rest :: y in xs;
      SortIncreasing(less, rest);
      SortElements(less, rest);
      assert forall y | y in [xs[0]] + Sort(less, rest) :: y in xs;
      InsertIncreasing(less, xs[0], Sort(less, rest));
    }
  }

  // Two increasing lists of the same elements are the same list.
  lemma {:induction false} IncreasingUnique<T(!new)>(less: (T, T) -> bool, xs: seq<T>, ys: seq<T>)
    requires LinearOn(less, xs) && Increasing(less, xs) && Increasing(less, ys)
    requires forall x :: x in xs <==> x in ys
    ensures xs == ys
  {
    if |ys| > 0 { assert ys[0] in xs; }
    if xs == [] {
    } else {
      assert xs[0] in ys;
      assert ys[0] in xs;
      var i :| 0 <= i < |ys| && ys[i] == xs[0];
      var j :| 0 <= j < |xs| && xs[j] == ys[0];
      forall x ensures x in xs[1..] <==> x in ys[1..] {
        if x in xs[1..] {
          var i :| 0 < i < |xs| && xs[i] == x;
          assert less(xs[0], x) && x in xs && x in ys;
          var j :| 0 <= j < |ys| && ys[j] == x;
          assert j > 0;
          assert x == ys[1..][j - 1];
        }
        if x in ys[1..] {
          var j :| 0 < j < |ys| && ys[j] == x;
          assert less(ys[0], x) && x in ys && x in xs;
          var i :| 0 <= i < |xs| && xs[i] == x;
          assert i > 0;
          assert x == xs[1..][i - 1];
        }
      }
      IncreasingUnique(less, xs[1..], ys[1..]);
      assert xs == [xs[0]] + xs[1..] && ys == [ys[0]] + ys[1..];
    }
  }

  lemma DistinctElements<T>(xs: seq<T>, ys: seq<T>)
    requires multiset(xs) == multiset(ys) && Distinct(xs)
    ensures Distinct(ys)
  {
    forall i, j | 0 <= i < j < |ys| ensures ys[i] != ys[j] {
      if ys[i] == ys[j] {
        var a := ys[..j];
        var b := ys[j..];
        assert ys == a + b;
        assert a[i] in multiset(a) && b[0] in multiset(b);
        assert multiset(ys)[ys[i]] >= 2;
        assert multiset(xs)[ys[i]] >= 2;
        MultiplicityOne(xs, ys[i]);
      }
    }
  }

  lemma {:induction false} MultiplicityOne<T>(xs: seq<T>, x: T)
    requires Distinct(xs)
    ensures multiset(xs)[x] <= 1
  {
    if xs != [] {
      assert xs == [xs[0]] + xs[1..];
      MultiplicityOne(xs[1..], x);
      if x == xs[0] {
        assert x !in xs[1..];
        assert multiset(xs[1..])[x] == 0;
      }
    }
  }

  // Sorting forgets the order a list arrived in.
  lemma SortCanonical<T(!new)>(less: (T, T) -> bool, xs: seq<T>, ys: seq<T>)
    requires LinearOn(less, xs) && Distinct(xs) && multiset(xs) == multiset(ys)
    ensures Sort(less, xs) == Sort(less, ys)
  {
    forall x ensures x in xs <==> x in ys {
      assert x in multiset(xs) <==> x in multiset(ys);
    }
    DistinctElements(xs, ys);
    SortIncreasing(less, xs);
    SortIncreasing(less, ys);
    SortElements(less, xs);
    SortElements(less, ys);
    IncreasingUnique(less, Sort(less, xs), Sort(less, ys));
  }

  // A list transformed element by element; permuting it permutes the result.
  function Map<T, U>(f: T -> U, xs: seq<T>): (r: seq<U>)
    ensures |r| == |xs| && forall i | 0 <= i < |r| :: r[i] == f(xs[i])
  {
    if xs == [] then [] else [f(xs[0])] + Map(f, xs[1..])
  }

  lemma MultisetMiddle<T>(a: seq<T>, x: T, b: seq<T>)
    ensures multiset(a + [x] + b) == multiset(a + b) + multiset{x}
  {
  }

  lemma MapConcat<T, U>(f: T -> U, a: seq<T>, b: seq<T>)
    ensures Map(f, a + b) == Map(f, a) + Map(f, b)
  {
  }

  lemma MapAround<T, U>(f: T -> U, left: seq<T>, x: T, right: seq<T>)
    ensures multiset(Map(f, left + [x] + right)) == multiset(Map(f, left + right)) + multiset{f(x)}
  {
    assert Map(f, [x]) == [f(x)];
    hide Map;
    MapConcat(f, left + [x], right);
    MapConcat(f, left, [x]);
    MapConcat(f, left, right);
    MultisetMiddle(Map(f, left), f(x), Map(f, right));
  }

  lemma HeadAndTail<T>(xs: seq<T>)
    requires xs != []
    ensures multiset(xs) == multiset{xs[0]} + multiset(xs[1..])
  {
    assert xs == [xs[0]] + xs[1..];
  }

  lemma WithoutOne<T>(a: multiset<T>, b: multiset<T>, x: T)
    requires a + multiset{x} == multiset{x} + b
    ensures a == b
  {
    forall y ensures a[y] == b[y] {
      assert (a + multiset{x})[y] == (multiset{x} + b)[y];
    }
  }

  // Taking an element out of a list that has it.
  lemma TakeOut<T>(xs: seq<T>, ys: seq<T>) returns (left: seq<T>, right: seq<T>)
    requires xs != [] && multiset(xs) == multiset(ys)
    ensures ys == left + [xs[0]] + right
    ensures multiset(xs[1..]) == multiset(left + right)
  {
    HeadAndTail(xs);
    assert xs[0] in multiset(ys);
    var i :| 0 <= i < |ys| && ys[i] == xs[0];
    left, right := ys[..i], ys[i + 1..];
    assert ys == left + [xs[0]] + right;
    MultisetMiddle(left, xs[0], right);
    WithoutOne(multiset(left + right), multiset(xs[1..]), xs[0]);
  }

  lemma {:induction false} MapPermutation<T, U>(f: T -> U, xs: seq<T>, ys: seq<T>)
    requires multiset(xs) == multiset(ys)
    ensures multiset(Map(f, xs)) == multiset(Map(f, ys))
    decreases |xs|
  {
    if xs == [] {
      assert |ys| == |multiset(ys)| == 0;
      assert ys == xs;
    } else {
      var left, right := TakeOut(xs, ys);
      MapPermutation(f, xs[1..], left + right);
      MapAround(f, left, xs[0], right);
      MapAround(f, [], xs[0], xs[1..]);
      assert [] + [xs[0]] + xs[1..] == xs && [] + xs[1..] == xs[1..];
    }
  }
}
