// Facts about finite sequences that the scheduler models share.
module Lists {

  // No element occurs twice.
  ghost predicate Distinct<T(!new)>(s: seq<T>) {
    forall x :: multiset(s)[x] <= 1
  }

  lemma OccursTwice<T(!new)>(s: seq<T>, i: nat, j: nat)
    requires i < j < |s| && s[i] == s[j]
    ensures multiset(s)[s[i]] >= 2
  {
    assert s == s[..i] + [s[i]] + s[i + 1..j] + [s[j]] + s[j + 1..];
  }

  lemma DistinctAt<T(!new)>(s: seq<T>, i: nat, j: nat)
    requires Distinct(s)
    requires i < |s| && j < |s| && s[i] == s[j]
    ensures i == j
  {
    if i < j { OccursTwice(s, i, j); }
    if j < i { OccursTwice(s, j, i); }
  }

  // Taking one element out of a list of distinct elements.
  lemma DistinctSplit<T(!new)>(a: seq<T>, x: T, b: seq<T>)
    requires Distinct(a + [x] + b)
    ensures Distinct(a + b)
    ensures x !in a && x !in b
    ensures forall y :: y in a + [x] + b <==> y in a + b || y == x
  {
    var s := a + [x] + b;
    assert multiset(s) == multiset(a + b) + multiset{x};
    forall y ensures multiset(a + b)[y] <= 1 {
      assert multiset(s)[y] <= 1;
    }
    assert multiset(s)[x] <= 1;
    assert x !in multiset(a) && x !in multiset(b);
  }

  lemma DistinctSum<T(!new)>(a: seq<T>, b: seq<T>)
    requires Distinct(a + b)
    ensures Distinct(a) && Distinct(b)
    ensures forall x :: !(x in a && x in b)
  {
    forall x ensures multiset(a)[x] <= 1 && multiset(b)[x] <= 1 && !(x in a && x in b) {
      assert multiset(a + b)[x] <= 1;
      assert x in a ==> x in multiset(a);
      assert x in b ==> x in multiset(b);
    }
  }

  lemma DistinctTail<T(!new)>(s: seq<T>)
    requires Distinct(s) && s != []
    ensures Distinct(s[1..]) && s[0] !in s[1..]
  {
    assert s == [s[0]] + s[1..];
    forall y ensures multiset(s[1..])[y] <= 1 {
      assert multiset(s)[y] <= 1;
    }
    assert multiset(s)[s[0]] <= 1;
    assert s[0] !in multiset(s[1..]);
  }

  lemma DistinctInit<T(!new)>(s: seq<T>)
    requires Distinct(s) && s != []
    ensures Distinct(s[..|s| - 1]) && s[|s| - 1] !in s[..|s| - 1]
  {
    var front, last := s[..|s| - 1], s[|s| - 1];
    assert s == front + [last];
    forall y ensures multiset(front)[y] <= 1 {
      assert multiset(s)[y] <= 1;
    }
    assert multiset(s)[last] <= 1;
    assert last !in multiset(front);
  }

  // Moving one element across a boundary of a concatenation.
  lemma ShiftHead<T>(a: seq<T>, q: seq<T>, c: seq<T>)
    requires q != []
    ensures (a + [q[0]]) + q[1..] + c == a + q + c
  {
    assert q == [q[0]] + q[1..];
  }

  lemma ShiftLast<T>(a: seq<T>, q: seq<T>, c: seq<T>)
    requires q != []
    ensures a + q[..|q| - 1] + ([q[|q| - 1]] + c) == a + q + c
  {
    assert q == q[..|q| - 1] + [q[|q| - 1]];
  }

  lemma NoTail<T>(s: seq<T>)
    ensures s + [] == s && [] + s == s
  {}

  lemma RestOfTail<T>(s: seq<T>, i: nat)
    requires i < |s|
    ensures s[i..][1..] == s[i + 1..]
  {}

  lemma Regroup<T>(a: seq<T>, b: seq<T>, c: seq<T>)
    ensures (a + b) + c == a + (b + c)
  {}

  function Reverse<T>(s: seq<T>): (r: seq<T>)
    ensures |r| == |s|
    ensures forall i :: 0 <= i < |s| ==> r[i] == s[|s| - 1 - i]
    ensures multiset(r) == multiset(s)
  {
    if s == [] then [] else
    assert s == [s[0]] + s[1..];
    Reverse(s[1..]) + [s[0]]
  }

  lemma {:induction false} ReverseAppend<T(!new)>(s: seq<T>, x: T)
    ensures Reverse(s + [x]) == [x] + Reverse(s)
  {
    if s == [] {
      assert s + [x] == [x];
    } else {
      assert (s + [x])[1..] == s[1..] + [x];
      ReverseAppend(s[1..], x);
    }
  }

  // The elements of s that satisfy keep, in order.
  function Filter<T(!new)>(s: seq<T>, keep: T -> bool): (r: seq<T>)
    ensures |r| <= |s|
    ensures forall x :: x in r <==> x in s && keep(x)
  {
    if s == [] then [] else
    (if keep(s[0]) then [s[0]] else []) + Filter(s[1..], keep)
  }

  // The elements outside, and inside, a given set, in order.
  function Without<T>(s: seq<T>, gone: set<T>): (r: seq<T>) {
    if s == [] then []
    else if s[0] in gone then Without(s[1..], gone)
    else [s[0]] + Without(s[1..], gone)
  }

  function Within<T>(s: seq<T>, some: set<T>): (r: seq<T>) {
    if s == [] then []
    else if s[0] in some then [s[0]] + Within(s[1..], some)
    else Within(s[1..], some)
  }

  lemma {:induction false} WithoutWithin<T(!new)>(s: seq<T>, g: set<T>)
    ensures multiset(s) == multiset(Without(s, g)) + multiset(Within(s, g))
    ensures forall x :: x in Without(s, g) <==> x in s && x !in g
    ensures forall x :: x in Within(s, g) <==> x in s && x in g
  {
    if s != [] {
      WithoutWithin(s[1..], g);
      assert s == [s[0]] + s[1..];
    }
  }

  // One step of a loop that splits a list in two.
  lemma WithoutNext<T>(left: seq<T>, s: seq<T>, g: set<T>)
    requires s != []
    ensures (if s[0] in g then left else left + [s[0]]) + Without(s[1..], g) == left + Without(s, g)
    ensures (if s[0] in g then left + [s[0]] else left) + Within(s[1..], g) == left + Within(s, g)
  {}

  // One step of a loop that splits a list from its end.
  lemma WithoutLast<T>(x: T, s: seq<T>, g: set<T>)
    ensures Reverse(Without([x] + s, g)) == if x in g then Reverse(Without(s, g)) else Reverse(Without(s, g)) + [x]
    ensures Reverse(Within([x] + s, g)) == if x in g then Reverse(Within(s, g)) + [x] else Reverse(Within(s, g))
  {
    assert ([x] + s)[1..] == s;
    if x in g {
      assert ([x] + Within(s, g))[1..] == Within(s, g);
    } else {
      assert ([x] + Without(s, g))[1..] == Without(s, g);
    }
  }

  lemma WithoutDistinct<T(!new)>(s: seq<T>, g: set<T>)
    requires Distinct(s)
    ensures Distinct(Without(s, g)) && Distinct(Within(s, g))
  {
    WithoutWithin(s, g);
    forall x ensures multiset(Without(s, g))[x] <= 1 && multiset(Within(s, g))[x] <= 1 {
      assert multiset(s)[x] <= 1;
    }
  }

  lemma {:induction false} WithoutNone<T(!new)>(s: seq<T>, g: set<T>)
    requires forall x :: x in s ==> x !in g
    ensures Without(s, g) == s
    ensures Within(s, g) == []
  {
    if s != [] { WithoutNone(s[1..], g); }
  }

  lemma PermutationMembers<T(!new)>(a: seq<T>, b: seq<T>)
    requires multiset(a) == multiset(b)
    ensures forall x :: x in a <==> x in b
    ensures |a| == |b|
  {
    assert |multiset(a)| == |multiset(b)|;
    forall x ensures x in a <==> x in b {
      assert x in a <==> x in multiset(a);
      assert x in b <==> x in multiset(b);
    }
  }

  /** Python's `sorted`: a stable sort, written as insertion of the head into the sorted tail.
      before(x, y) says that x may stand in front of y; ties keep their order. */

  ghost predicate TotalPreorder<T(!new)>(before: (T, T) -> bool) {
    && (forall x, y :: before(x, y) || before(y, x))
    && (forall x, y, z :: before(x, y) && before(y, z) ==> before(x, z))
  }

  ghost predicate SortedBy<T(!new)>(s: seq<T>, before: (T, T) -> bool) {
    forall i, j :: 0 <= i < j < |s| ==> before(s[i], s[j])
  }

  function Insert<T>(x: T, s: seq<T>, before: (T, T) -> bool): (r: seq<T>)
    ensures multiset(r) == multiset(s) + multiset{x}
  {
    if s == [] then [x]
    else if before(x, s[0]) then [x] + s
    else
      assert s == [s[0]] + s[1..];
      [s[0]] + Insert(x, s[1..], before)
  }

  function StableSort<T>(s: seq<T>, before: (T, T) -> bool): (r: seq<T>)
    ensures multiset(r) == multiset(s)
  {
    if s == [] then []
    else
      assert s == [s[0]] + s[1..];
      Insert(s[0], StableSort(s[1..], before), before)
  }

  lemma {:induction false} InsertKeepsSorted<T(!new)>(x: T, s: seq<T>, before: (T, T) -> bool)
    requires TotalPreorder(before)
    requires SortedBy(s, before)
    ensures SortedBy(Insert(x, s, before), before)
  {
    if s != [] && !before(x, s[0]) {
      var rest := s[1..];
      var tail := Insert(x, rest, before);
      InsertKeepsSorted(x, rest, before);
      PermutationMembers(tail, rest + [x]);
      forall y | y in tail ensures before(s[0], y) {
        if y != x {
          assert y in rest;
          var i :| 0 <= i < |rest| && rest[i] == y;
          assert before(s[0], s[i + 1]);
        }
      }
    } else if s != [] {
      forall j | 0 <= j < |s| ensures before(x, s[j]) {
        if j > 0 { assert before(s[0], s[j]); }
      }
    }
  }

  lemma {:induction false} StableSortSorts<T(!new)>(s: seq<T>, before: (T, T) -> bool)
    requires TotalPreorder(before)
    ensures SortedBy(StableSort(s, before), before)
  {
    if s != [] {
      StableSortSorts(s[1..], before);
      InsertKeepsSorted(s[0], StableSort(s[1..], before), before);
    }
  }

  // Stability: the elements of any class of ties come out in the order they went in.
  lemma {:induction false} InsertStable<T(!new)>(x: T, s: seq<T>, before: (T, T) -> bool, cls: T -> bool)
    requires forall a, b :: cls(a) && cls(b) ==> before(a, b)
    ensures Filter(Insert(x, s, before), cls) == (if cls(x) then [x] else []) + Filter(s, cls)
  {
    if s == [] {
    } else if before(x, s[0]) {
      assert ([x] + s)[1..] == s;
    } else {
      InsertStable(x, s[1..], before, cls);
      assert Insert(x, s, before)[1..] == Insert(x, s[1..], before);
    }
  }

  lemma {:induction false} StableSortStable<T(!new)>(s: seq<T>, before: (T, T) -> bool, cls: T -> bool)
    requires forall a, b :: cls(a) && cls(b) ==> before(a, b)
    ensures Filter(StableSort(s, before), cls) == Filter(s, cls)
  {
    if s != [] {
      StableSortStable(s[1..], before, cls);
      InsertStable(s[0], StableSort(s[1..], before), before, cls);
    }
  }

  // A list that is already in order comes back unchanged.
  lemma {:induction false} SortOfSorted<T(!new)>(s: seq<T>, before: (T, T) -> bool)
    requires SortedBy(s, before)
    ensures StableSort(s, before) == s
  {
    if s != [] {
      assert SortedBy(s[1..], before);
      SortOfSorted(s[1..], before);
      if |s| > 1 { assert before(s[0], s[1]); }
    }
  }

  /** Index lists: an item list that is sorted by some value and then by index comes back in
      its original order. */

  function Range(n: nat): (r: seq<nat>)
    ensures |r| == n
    ensures forall i :: 0 <= i < n ==> r[i] == i
  {
    seq(n, i => i)
  }

  ghost predicate Ascending(s: seq<nat>) {
    forall i, j :: 0 <= i < j < |s| ==> s[i] <= s[j]
  }

  lemma AscendingHead(a: seq<nat>, b: seq<nat>)
    requires Ascending(a)
    requires multiset(a) == multiset(b)
    requires b != []
    ensures a != [] && a[0] <= b[0]
  {
    PermutationMembers(a, b);
    assert b[0] in b && b[0] in a;
    var i :| 0 <= i < |a| && a[i] == b[0];
    assert a[0] <= a[i];
  }

  lemma {:induction false} AscendingUnique(a: seq<nat>, b: seq<nat>)
    requires Ascending(a) && Ascending(b)
    requires multiset(a) == multiset(b)
    ensures a == b
  {
    if a == [] {
      PermutationMembers(a, b);
    } else {
      PermutationMembers(a, b);
      AscendingHead(a, b);
      AscendingHead(b, a);
      assert a == [a[0]] + a[1..] && b == [b[0]] + b[1..];
      assert multiset(a[1..]) == multiset(a) - multiset{a[0]};
      assert multiset(b[1..]) == multiset(b) - multiset{b[0]};
      AscendingUnique(a[1..], b[1..]);
    }
  }

  function SortIndices(s: seq<nat>): (r: seq<nat>)
    ensures multiset(r) == multiset(s)
  {
    StableSort(s, (a, b) => a <= b)
  }

  lemma SortIndicesRestores(s: seq<nat>, n: nat)
    requires multiset(s) == multiset(Range(n))
    ensures SortIndices(s) == Range(n)
  {
    var before := (a: nat, b: nat) => a <= b;
    StableSortSorts(s, before);
    var r := SortIndices(s);
    assert r == StableSort(s, before);
    forall i, j | 0 <= i < j < |r| ensures r[i] <= r[j] {
      assert before(r[i], r[j]);
    }
    AscendingUnique(r, Range(n));
  }
}
