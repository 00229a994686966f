/** Small shared vocabulary: optional values, bounded picks from a set, and counting facts. */
module Basics {
  datatype Option<+T> = None | Some(value: T)

  function Max(a: int, b: int): int {
    if a < b then b else a
  }

  function Min(a: int, b: int): int {
    if a < b then a else b
  }

  predicate Distinct<T(==)>(s: seq<T>) {
    forall i, j :: 0 <= i < j < |s| ==> s[i] != s[j]
  }

  /** A query with a limit: the first `limit` members of `order` that match. */
  function Pick<T(==)>(matching: set<T>, order: seq<T>, limit: nat): (picked: seq<T>)
    ensures forall x :: x in picked ==> x in matching && x in order
    ensures |picked| <= limit
  {
    if order == [] || limit == 0 then []
    else if order[0] in matching then [order[0]] + Pick(matching, order[1..], limit - 1)
    else Pick(matching, order[1..], limit)
  }

  lemma {:induction false} PickIsDistinct<T>(matching: set<T>, order: seq<T>, limit: nat)
    requires Distinct(order)
    ensures Distinct(Pick(matching, order, limit))
  {
    if order == [] || limit == 0 {
    } else {
      PickIsDistinct(matching, order[1..], if order[0] in matching then limit - 1 else limit);
    }
  }

  /** An order that lists every match yields as many of them as the limit allows. */
  lemma {:induction false} PickIsFull<T>(matching: set<T>, order: seq<T>, limit: nat)
    requires Distinct(order)
    requires forall x :: x in matching ==> x in order
    ensures |Pick(matching, order, limit)| == Min(limit, |matching|)
    ensures |matching| <= limit ==> forall x :: x in matching ==> x in Pick(matching, order, limit)
  {
    if order == [] {
      assert matching == {};
    } else if limit == 0 {
      if |matching| <= limit { assert matching == {}; }
    } else if order[0] in matching {
      var rest := matching - {order[0]};
      assert |rest| == |matching| - 1;
      forall x | x in rest ensures x in order[1..] {
        var i :| 0 <= i < |order| && order[i] == x;
        assert order[1..][i - 1] == x;
      }
      PickIsFull(rest, order[1..], limit - 1);
      PickIgnores(matching, order[0], order[1..], limit - 1);
    } else {
      forall x | x in matching ensures x in order[1..] {
        var i :| 0 <= i < |order| && order[i] == x;
        assert order[1..][i - 1] == x;
      }
      PickIsFull(matching, order[1..], limit);
    }
  }

  lemma {:induction false} PickIgnores<T>(matching: set<T>, x: T, order: seq<T>, limit: nat)
    requires x !in order
    ensures Pick(matching, order, limit) == Pick(matching - {x}, order, limit)
  {
    if order == [] || limit == 0 {
    } else {
      assert order[0] in order;
      PickIgnores(matching, x, order[1..], if order[0] in matching then limit - 1 else limit);
    }
  }

  function Elements<T(==)>(s: seq<T>): set<T> {
    set x | x in s
  }

  lemma {:induction false} DistinctHasItsLength<T>(s: seq<T>)
    requires Distinct(s)
    ensures |Elements(s)| == |s|
  {
    if s == [] {
      assert Elements(s) == {};
    } else {
      DistinctHasItsLength(s[1..]);
      assert Elements(s) == {s[0]} + Elements(s[1..]);
      assert s[0] !in s[1..];
    }
  }

  /** A map that sends distinct members of `xs` to distinct members of `ys` bounds the sizes. */
  lemma {:induction false} InjectionBounds<A, B>(xs: set<A>, ys: set<B>, f: map<A, B>)
    requires forall x :: x in xs ==> x in f && f[x] in ys
    requires forall x, x' :: x in xs && x' in xs && f[x] == f[x'] ==> x == x'
    ensures |xs| <= |ys|
  {
    if xs == {} {
    } else {
      var x :| x in xs;
      InjectionBounds(xs - {x}, ys - {f[x]}, f);
    }
  }

  lemma {:induction false} SubsetIsNoLarger<T>(a: set<T>, b: set<T>)
    requires a <= b
    ensures |a| <= |b|
  {
    if a == {} {
    } else {
      var x :| x in a;
      SubsetIsNoLarger(a - {x}, b - {x});
    }
  }

  function UpTo(n: nat): (r: set<nat>)
    ensures forall i: nat :: i in r <==> 1 <= i <= n
    ensures |r| == n
  {
    if n == 0 then {} else UpTo(n - 1) + {n}
  }

  function Product<A(==), B(==)>(xs: set<A>, ys: set<B>): set<(A, B)> {
    set x, y | x in xs && y in ys :: (x, y)
  }

  lemma {:induction false} RowSize<A, B>(x: A, ys: set<B>)
    ensures |Product({x}, ys)| == |ys|
  {
    if ys == {} {
      assert Product({x}, ys) == {};
    } else {
      var y :| y in ys;
      RowSize(x, ys - {y});
      assert Product({x}, ys) == Product({x}, ys - {y}) + {(x, y)};
    }
  }

  lemma ProductSplits<A, B>(xs: set<A>, x: A, ys: set<B>)
    requires x in xs
    ensures |Product(xs, ys)| == |Product(xs - {x}, ys)| + |Product({x}, ys)|
  {
    assert Product(xs, ys) == Product(xs - {x}, ys) + Product({x}, ys);
    assert Product(xs - {x}, ys) !! Product({x}, ys);
  }

  lemma OneMoreRow(rows: nat, columns: nat)
    requires rows > 0
    ensures (rows - 1) * columns + columns == rows * columns
  {
  }

  lemma {:induction false} ProductSize<A, B>(xs: set<A>, ys: set<B>)
    ensures |Product(xs, ys)| == |xs| * |ys|
  {
    if xs == {} {
      assert Product(xs, ys) == {};
    } else {
      var x :| x in xs;
      ProductSize(xs - {x}, ys);
      RowSize(x, ys);
      ProductSplits(xs, x, ys);
      OneMoreRow(|xs|, |ys|);
    }
  }

  /** A permutation has the first element somewhere, and without it is a permutation of the others. */
  lemma FirstTakenOut<T>(xs: seq<T>, ys: seq<T>) returns (i: nat)
    requires multiset(xs) == multiset(ys) && xs != []
    ensures i < |ys| && ys[i] == xs[0] && multiset(ys[..i] + ys[i + 1..]) == multiset(xs[1..])
  {
    assert xs[0] in ys by { assert multiset(ys)[xs[0]] > 0; }
    i :| 0 <= i < |ys| && ys[i] == xs[0];
    TakenOut(xs, 0);
    TakenOut(ys, i);
    assert xs[..0] + xs[1..] == xs[1..];
  }

  lemma TakenOut<T>(xs: seq<T>, i: nat)
    requires i < |xs|
    ensures xs == xs[..i] + [xs[i]] + xs[i + 1..]
    ensures multiset(xs[..i] + xs[i + 1..]) == multiset(xs) - multiset([xs[i]])
  {
    assert xs == xs[..i] + [xs[i]] + xs[i + 1..];
    assert multiset(xs) == multiset(xs[..i]) + multiset([xs[i]]) + multiset(xs[i + 1..]);
  }
}
