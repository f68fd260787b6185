/** Finite sets of integers in ascending order. */
module Ordering {

  ghost predicate StrictlyAscending(xs: seq<int>) {
    forall i, j :: 0 <= i < j < |xs| ==> xs[i] < xs[j]
  }

  ghost predicate IsLeast(s: set<int>, m: int) {
    m in s && forall y :: y in s ==> m <= y
  }

  lemma EmptyOrNot(s: set<int>)
    ensures s == {} || exists x :: x in s
  {
    if forall x: int :: x !in s {
      assert s == {};
    }
  }

  lemma {:induction false} HasLeast(s: set<int>)
    requires s != {}
    ensures exists m :: IsLeast(s, m)
  {
    EmptyOrNot(s);
    var a :| a in s;
    var rest := s - {a};
    var m := a;
    if rest != {} {
      HasLeast(rest);
      var b :| IsLeast(rest, b);
      m := if a < b then a else b;
    }
    forall y | y in s ensures m <= y {
      if y != a { assert y in rest; }
    }
    assert IsLeast(s, m);
  }

  function Least(s: set<int>): (m: int)
    requires s != {}
    ensures m in s && forall y :: y in s ==> m <= y
  {
    HasLeast(s);
    assert exists x :: x in s && forall y :: y in s ==> x <= y by {
      var m :| IsLeast(s, m);
      assert m in s;
    }
    var x :| x in s && forall y :: y in s ==> x <= y;
    x
  }

  lemma AscendingAfter(m: int, rest: seq<int>)
    requires StrictlyAscending(rest) && forall x :: x in rest ==> m < x
    ensures StrictlyAscending([m] + rest)
    ensures forall x :: x in [m] + rest <==> x == m || x in rest
  {
    var xs := [m] + rest;
    forall i, j | 0 <= i < j < |xs| ensures xs[i] < xs[j] {
      assert xs[j] == rest[j - 1] && rest[j - 1] in rest;
    }
  }

  /** `sorted` of a set. */
  function Sorted(s: set<int>): (xs: seq<int>)
    ensures StrictlyAscending(xs) && |xs| == |s|
    ensures forall x :: x in xs <==> x in s
    decreases |s|
  {
    if s == {} then []
    else
      var m := Least(s);
      var rest := Sorted(s - {m});
      assert forall x :: x in rest ==> m < x;
      AscendingAfter(m, rest);
      [m] + rest
  }

  /** `xs[:limit]`, for a limit that is not negative. */
  function Take<T>(xs: seq<T>, limit: nat): (ys: seq<T>)
    ensures |ys| <= limit && ys <= xs
    ensures |ys| < limit ==> ys == xs
  {
    if |xs| <= limit then xs else xs[..limit]
  }

  lemma HeadIsLeast(xs: seq<int>)
    requires StrictlyAscending(xs) && xs != []
    ensures StrictlyAscending(xs[1..]) && xs[0] in xs
    ensures forall x :: x in xs ==> xs[0] <= x
    ensures forall x :: x in xs[1..] <==> x in xs && x != xs[0]
  {
    assert xs == [xs[0]] + xs[1..];
    forall i | 1 <= i < |xs| ensures xs[0] < xs[i] {}
  }

  /** Two ascending sequences with the same members are the same sequence. */
  lemma {:induction false} AscendingUnique(xs: seq<int>, ys: seq<int>)
    requires StrictlyAscending(xs) && StrictlyAscending(ys)
    requires forall x :: x in xs <==> x in ys
    ensures xs == ys
  {
    hide StrictlyAscending;
    if xs != [] {
      var x := xs[0];
      assert x in xs;
    }
    if ys != [] {
      var y := ys[0];
      assert y in ys;
    }
    if xs != [] && ys != [] {
      HeadIsLeast(xs);
      HeadIsLeast(ys);
      AscendingUnique(xs[1..], ys[1..]);
      assert xs == [xs[0]] + xs[1..] && ys == [ys[0]] + ys[1..];
    }
  }

  /** Members above all the others come last. */
  lemma SortedUnion(low: set<int>, high: set<int>)
    requires forall a, b :: a in low && b in high ==> a < b
    ensures Sorted(low + high) == Sorted(low) + Sorted(high)
  {
    var xs := Sorted(low) + Sorted(high);
    assert forall x :: x in xs <==> x in low + high;
    assert StrictlyAscending(xs) by {
      forall i, j | 0 <= i < j < |xs| ensures xs[i] < xs[j] {
        if i < |low| <= j {
          assert xs[i] in low && xs[j] in high;
        }
      }
    }
    AscendingUnique(Sorted(low + high), xs);
  }

  /** Nothing above `limit` smaller members can be among the first `limit`. */
  lemma TakeIgnoresHigher(low: set<int>, all: set<int>, limit: nat)
    requires low <= all && limit <= |low|
    requires forall a, b :: a in low && b in all - low ==> a < b
    ensures Take(Sorted(all), limit) == Take(Sorted(low), limit)
  {
    hide Sorted, Take;
    assert low + (all - low) == all;
    SortedUnion(low, all - low);
    TakeOfPrefix(Sorted(low), Sorted(all - low), limit);
  }

  lemma TakeOfPrefix(xs: seq<int>, ys: seq<int>, limit: nat)
    requires limit <= |xs|
    ensures Take(xs + ys, limit) == Take(xs, limit)
  {
    assert (xs + ys)[..limit] == xs[..limit];
  }

  /** The first `limit` members: the rest are all greater. */
  lemma TakeSorted(s: set<int>, limit: nat)
    ensures var r := Take(Sorted(s), limit);
      && StrictlyAscending(r)
      && (forall t :: t in r ==> t in s)
      && (forall t :: t in s && t !in r ==> |r| == limit && forall u :: u in r ==> u < t)
  {
    var xs, r := Sorted(s), Take(Sorted(s), limit);
    forall t | t in s && t !in r ensures |r| == limit && forall u :: u in r ==> u < t {
      assert t in xs;
      var i :| 0 <= i < |xs| && xs[i] == t;
      assert i >= limit;
    }
  }

  lemma {:induction false} AscendingSize(xs: seq<int>)
    requires StrictlyAscending(xs)
    ensures |set x | x in xs| == |xs|
  {
    if xs != [] {
      var last := |xs| - 1;
      var init := xs[..last];
      AscendingSize(init);
      assert (set x | x in xs) == (set x | x in init) + {xs[last]} by {
        assert xs == init + [xs[last]];
      }
      assert xs[last] !in init;
    }
  }

  lemma SubsetIsSmaller<T>(small: set<T>, large: set<T>)
    requires small <= large
    ensures |small| <= |large|
  {
    assert small + (large - small) == large;
  }

  lemma UnionSize<T>(a: set<T>, b: set<T>)
    ensures |a + b| <= |a| + |b|
  {
    assert a + b == a + (b - a);
    SubsetIsSmaller(b - a, b);
  }

  lemma {:induction false} MembersAtMost<T>(xs: seq<T>)
    ensures |set x | x in xs| <= |xs|
  {
    if xs != [] {
      var last := |xs| - 1;
      MembersAtMost(xs[..last]);
      assert (set x | x in xs) == (set x | x in xs[..last]) + {xs[last]} by {
        assert xs == xs[..last] + [xs[last]];
      }
      UnionSize(set x | x in xs[..last], {xs[last]});
    }
  }

  function Members<T(==)>(xs: seq<T>): set<T> {
    set x | x in xs
  }

  function HowMany<T(==)>(xs: seq<T>, x: T): nat {
    if xs == [] then 0 else HowMany(xs[..|xs| - 1], x) + if xs[|xs| - 1] == x then 1 else 0
  }

  lemma OneMore<T>(xs: seq<T>, y: T, x: T)
    ensures HowMany(xs + [y], x) == HowMany(xs, x) + if y == x then 1 else 0
  {
    assert (xs + [y])[..|xs|] == xs;
  }

  lemma {:induction false} DistinctSize<T>(xs: seq<T>)
    requires forall i, j :: 0 <= i < j < |xs| ==> xs[i] != xs[j]
    ensures |Members(xs)| == |xs|
  {
    if xs != [] {
      var init, last := xs[..|xs| - 1], xs[|xs| - 1];
      DistinctSize(init);
      assert xs == init + [last];
      assert Members(xs) == Members(init) + {last};
    }
  }
}
