/** The order in which nested configuration classes are rebuilt: Kahn's algorithm over the map
    from each class to the set of classes its fields refer to. */
module TopologicalSort {
  import opened Lists

  type Class = nat

  type Deps = map<Class, set<Class>>

  // The map is a defaultdict(set): a class without an entry has no dependencies.
  function Of(deps: Deps, c: Class): set<Class> { if c in deps then deps[c] else {} }

  // A class that occurs as a key or as a dependency.
  ghost predicate Occurs(deps: Deps, c: Class) {
    c in deps || exists x :: x in deps && c in deps[x]
  }

  /** Paths follow the dependencies; a cycle is one that returns to its start. */
  ghost predicate Path(p: seq<Class>, deps: Deps) {
    forall i :: 0 <= i < |p| - 1 ==> p[i + 1] in Of(deps, p[i])
  }

  ghost predicate Cycle(p: seq<Class>, deps: Deps) {
    |p| >= 2 && Path(p, deps) && p[0] == p[|p| - 1]
  }

  ghost predicate Acyclic(deps: Deps) {
    forall p :: !Cycle(p, deps)
  }

  // Dependants first: d may only come after every class that depends on it.
  ghost predicate DependantsFirst(order: seq<Class>, deps: Deps) {
    forall k, x :: 0 <= k < |order| && x in deps && order[k] in deps[x] ==> x in order[..k]
  }

  ghost predicate Complete(order: seq<Class>, deps: Deps) {
    forall c :: Occurs(deps, c) ==> c in order
  }

  // The dependants of a class that are not yet placed.
  function Pending(deps: Deps, c: Class, placed: set<Class>): set<Class> {
    set x | x in deps && c in deps[x] && x !in placed
  }

  // The dependants of a class in a list.
  function Among(classes: seq<Class>, deps: Deps, c: Class): set<Class> {
    set x | x in classes && x in deps && c in deps[x]
  }

  function Placed(order: seq<Class>): set<Class> { set c | c in order }

  function Degree(m: map<Class, nat>, c: Class): nat { if c in m then m[c] else 0 }

  /** What the loop has established: the classes that can come next are exactly those whose
      dependants have all been placed. */
  ghost predicate Sorting(deps: Deps, order: seq<Class>, queue: seq<Class>) {
    && Distinct(order + queue)
    && DependantsFirst(order, deps)
    && (forall c :: c in order + queue <==> Occurs(deps, c) && Pending(deps, c, Placed(order)) == {})
  }

  method CountDependants(keys: seq<Class>, deps: Deps) returns (inDegree: map<Class, nat>)
    requires Distinct(keys)
    requires forall c :: c in keys <==> c in deps
    ensures forall c :: Degree(inDegree, c) == |Pending(deps, c, {})|
  {
    inDegree := map[];
    for i := 0 to |keys|
      invariant forall c :: Degree(inDegree, c) == |Among(keys[..i], deps, c)|
    {
      var cls := keys[i];
      assert cls in keys;
      NotCounted(keys, i);
      ghost var before := inDegree;
      var rest := deps[cls];
      while rest != {}
        invariant rest <= deps[cls]
        invariant forall c :: Degree(inDegree, c) == Degree(before, c) + (if c in deps[cls] && c !in rest then 1 else 0)
        decreases |rest|
      {
        var dep :| dep in rest;
        inDegree := inDegree[dep := Degree(inDegree, dep) + 1];
        rest := rest - {dep};
      }
      forall c ensures Degree(inDegree, c) == |Among(keys[..i + 1], deps, c)| {
        CountOne(keys, deps, i, c);
      }
    }
    assert keys[..|keys|] == keys;
    forall c ensures Degree(inDegree, c) == |Pending(deps, c, {})| {
      assert Among(keys, deps, c) == Pending(deps, c, {});
    }
  }

  lemma NotCounted(keys: seq<Class>, i: nat)
    requires Distinct(keys) && i < |keys|
    ensures keys[i] !in keys[..i]
    ensures keys[..i + 1] == keys[..i] + [keys[i]]
  {
    assert keys == keys[..i] + [keys[i]] + keys[i + 1..];
    DistinctSplit(keys[..i], keys[i], keys[i + 1..]);
  }

  lemma CountOne(keys: seq<Class>, deps: Deps, i: nat, c: Class)
    requires Distinct(keys) && i < |keys| && keys[i] in deps
    ensures |Among(keys[..i + 1], deps, c)|
            == |Among(keys[..i], deps, c)| + (if c in deps[keys[i]] then 1 else 0)
  {
    NotCounted(keys, i);
    var a, b := Among(keys[..i], deps, c), Among(keys[..i + 1], deps, c);
    assert forall x :: x in keys[..i + 1] <==> x in keys[..i] || x == keys[i];
    if c in deps[keys[i]] {
      assert keys[i] !in a;
      assert b == a + {keys[i]};
    } else {
      assert b == a;
    }
  }

  // The keys nobody depends on.
  method Roots(keys: seq<Class>, deps: Deps, inDegree: map<Class, nat>) returns (roots: seq<Class>)
    requires Distinct(keys)
    ensures forall c :: c in roots <==> c in keys && Degree(inDegree, c) == 0
    ensures Distinct(roots)
  {
    roots := [];
    for i := 0 to |keys|
      invariant forall c :: c in roots <==> c in keys[..i] && Degree(inDegree, c) == 0
      invariant Distinct(roots)
    {
      NotCounted(keys, i);
      if Degree(inDegree, keys[i]) == 0 {
        DistinctSnoc(roots, keys[i]);
        roots := roots + [keys[i]];
      }
    }
    assert keys[..|keys|] == keys;
  }

  lemma DistinctSnoc(s: seq<Class>, x: Class)
    requires Distinct(s) && x !in s
    ensures Distinct(s + [x])
  {
    forall y ensures multiset(s + [x])[y] <= 1 {
      assert multiset(s)[y] <= 1;
      assert x !in multiset(s);
    }
  }

  // One class less to wait for.
  lemma PendingDrops(deps: Deps, c: Class, placed: set<Class>, cls: Class)
    requires cls !in placed
    ensures |Pending(deps, c, placed + {cls})| + (if c in Of(deps, cls) then 1 else 0) == |Pending(deps, c, placed)|
  {
    var a, b := Pending(deps, c, placed), Pending(deps, c, placed + {cls});
    if c in Of(deps, cls) {
      assert cls in a && cls !in b;
      assert a == b + {cls};
    } else {
      assert a == b;
    }
  }

  /** topological_sort. Its list never repeats a class and puts every class behind all its
      dependants; and what is missing from it waits for something that is missing too. */
  method Sort(keys: seq<Class>, deps: Deps) returns (order: seq<Class>)
    requires Distinct(keys)
    requires forall c :: c in keys <==> c in deps
    ensures Sorting(deps, order, [])
  {
    var inDegree := CountDependants(keys, deps);
    var queue := Roots(keys, deps, inDegree);
    order := [];
    StartSorting(deps, queue, inDegree);
    while queue != []
      invariant Sorting(deps, order, queue)
      invariant Counted(deps, order, inDegree)
      decreases |Everything(deps) - Placed(order)|
    {
      var cls := queue[0];
      FrontProgresses(deps, order, queue);
      inDegree, queue := PlaceNext(deps, order, queue, inDegree);
      order := order + [cls];
    }
  }

  // The table of in-degrees counts the dependants still to come.
  ghost predicate Counted(deps: Deps, order: seq<Class>, inDegree: map<Class, nat>) {
    forall c :: Degree(inDegree, c) == |Pending(deps, c, Placed(order))|
  }

  lemma FrontProgresses(deps: Deps, order: seq<Class>, queue: seq<Class>)
    requires queue != []
    requires Sorting(deps, order, queue)
    ensures |Everything(deps) - Placed(order + [queue[0]])| < |Everything(deps) - Placed(order)|
  {
    HeadIsNew(deps, order, queue);
    assert queue[0] in order + queue;
    PlacingProgresses(deps, order, queue[0]);
  }

  lemma StartSorting(deps: Deps, queue: seq<Class>, inDegree: map<Class, nat>)
    requires Distinct(queue)
    requires forall c :: Degree(inDegree, c) == |Pending(deps, c, {})|
    requires forall c :: c in queue <==> c in deps && Degree(inDegree, c) == 0
    ensures Sorting(deps, [], queue)
    ensures Counted(deps, [], inDegree)
  {
    NoTail(queue);
    assert Placed([]) == {};
    forall c ensures c in queue <==> Occurs(deps, c) && Pending(deps, c, {}) == {} {
      if Occurs(deps, c) && c !in deps {
        var x :| x in deps && c in deps[x];
        assert x in Pending(deps, c, {});
      }
      assert |Pending(deps, c, {})| == 0 <==> Pending(deps, c, {}) == {};
    }
  }

  // Pops the front of the queue and lets go of what depended on it.
  method PlaceNext(deps: Deps, ghost order: seq<Class>, queue: seq<Class>, inDegree: map<Class, nat>)
    returns (degree: map<Class, nat>, next: seq<Class>)
    requires queue != []
    requires Sorting(deps, order, queue)
    requires Counted(deps, order, inDegree)
    ensures Sorting(deps, order + [queue[0]], next)
    ensures Counted(deps, order + [queue[0]], degree)
  {
    var cls := queue[0];
    HeadIsNew(deps, order, queue);
    ghost var placed := Placed(order);
    assert Placed(order + [cls]) == placed + {cls};
    forall c ensures |Pending(deps, c, placed + {cls})| + (if c in Of(deps, cls) then 1 else 0) == Degree(inDegree, c) {
      PendingDrops(deps, c, placed, cls);
    }
    degree, next := ReleaseDependencies(Of(deps, cls), queue[1..], inDegree);
    ReleasedAreReady(deps, order, queue, next, inDegree, degree);
  }

  method ReleaseDependencies(dependencies: set<Class>, queue: seq<Class>, inDegree: map<Class, nat>)
    returns (degree: map<Class, nat>, next: seq<Class>)
    requires forall c :: c in dependencies ==> Degree(inDegree, c) > 0
    requires forall c :: c in dependencies ==> c !in queue
    requires Distinct(queue)
    ensures forall c :: Degree(degree, c) == Degree(inDegree, c) - (if c in dependencies then 1 else 0)
    ensures Distinct(next)
    ensures forall c :: c in next <==> c in queue || (c in dependencies && Degree(degree, c) == 0)
  {
    degree, next := inDegree, queue;
    var rest := dependencies;
    while rest != {}
      invariant rest <= dependencies
      invariant forall c :: Degree(degree, c) == Degree(inDegree, c) - (if c in dependencies && c !in rest then 1 else 0)
      invariant Distinct(next)
      invariant forall c :: c in next <==> c in queue || (c in dependencies && c !in rest && Degree(degree, c) == 0)
      decreases |rest|
    {
      var dep :| dep in rest;
      degree := degree[dep := Degree(degree, dep) - 1];
      rest := rest - {dep};
      if degree[dep] == 0 {
        DistinctSnoc(next, dep);
        next := next + [dep];
      }
    }
  }

  lemma HeadIsNew(deps: Deps, order: seq<Class>, queue: seq<Class>)
    requires queue != []
    requires Sorting(deps, order, queue)
    ensures queue[0] !in order && queue[0] !in queue[1..] && Distinct(queue[1..])
    ensures forall c :: c in Of(deps, queue[0]) ==> c !in queue && c !in order && queue[0] in Pending(deps, c, Placed(order))
  {
    var cls := queue[0];
    assert order + queue == order + [cls] + queue[1..];
    DistinctSplit(order, cls, queue[1..]);
    DistinctSum(order, queue[1..]);
    forall c | c in Of(deps, cls) ensures c !in queue && c !in order && cls in Pending(deps, c, Placed(order)) {
      assert cls in Pending(deps, c, Placed(order));
      assert c in order + queue ==> Pending(deps, c, Placed(order)) == {};
    }
  }

  lemma ReleasedAreReady(deps: Deps, order: seq<Class>, queue: seq<Class>, next: seq<Class>,
                         inDegree: map<Class, nat>, degree: map<Class, nat>)
    requires queue != []
    requires Sorting(deps, order, queue)
    requires Distinct(next)
    requires forall c :: Degree(inDegree, c) == |Pending(deps, c, Placed(order))|
    requires forall c :: Degree(degree, c) == Degree(inDegree, c) - (if c in Of(deps, queue[0]) then 1 else 0)
    requires forall c :: c in next <==> c in queue[1..] || (c in Of(deps, queue[0]) && Degree(degree, c) == 0)
    ensures Sorting(deps, order + [queue[0]], next)
    ensures forall c :: Degree(degree, c) == |Pending(deps, c, Placed(order + [queue[0]]))|
  {
    var cls := queue[0];
    var done := order + [cls];
    HeadIsNew(deps, order, queue);
    assert Placed(done) == Placed(order) + {cls};
    forall c ensures Degree(degree, c) == |Pending(deps, c, Placed(done))| {
      PendingDrops(deps, c, Placed(order), cls);
    }
    forall c ensures c in done + next <==> Occurs(deps, c) && Pending(deps, c, Placed(done)) == {} {
      ReadyAfter(deps, order, queue, next, degree, c);
    }
    DoneIsOrdered(deps, order, queue);
    forall c ensures multiset(done + next)[c] <= 1 {
      assert multiset(order)[c] <= 1 by { DistinctSum(order, queue); }
      assert multiset(next)[c] <= 1;
      NextIsNew(deps, order, queue, next, degree, c);
    }
  }

  lemma DoneIsOrdered(deps: Deps, order: seq<Class>, queue: seq<Class>)
    requires queue != []
    requires Sorting(deps, order, queue)
    ensures DependantsFirst(order + [queue[0]], deps)
  {
    var cls := queue[0];
    var done := order + [cls];
    forall k, x | 0 <= k < |done| && x in deps && done[k] in deps[x] ensures x in done[..k] {
      if k < |order| {
        assert done[..k] == order[..k];
      } else {
        assert done[..k] == order;
        assert cls in order + queue;
        assert x !in Pending(deps, cls, Placed(order));
      }
    }
  }

  lemma ReadyAfter(deps: Deps, order: seq<Class>, queue: seq<Class>, next: seq<Class>, degree: map<Class, nat>, c: Class)
    requires queue != []
    requires Sorting(deps, order, queue)
    requires Degree(degree, c) == |Pending(deps, c, Placed(order + [queue[0]]))|
    requires c in next <==> c in queue[1..] || (c in Of(deps, queue[0]) && Degree(degree, c) == 0)
    ensures c in order + [queue[0]] + next <==> Occurs(deps, c) && Pending(deps, c, Placed(order + [queue[0]])) == {}
  {
    var cls := queue[0];
    var done := order + [cls];
    assert Placed(done) == Placed(order) + {cls};
    var a, b := Pending(deps, c, Placed(order)), Pending(deps, c, Placed(done));
    assert b <= a;
    assert order + queue == done + queue[1..];
    assert |b| == 0 <==> b == {};
    if c in done + queue[1..] {
      assert a == {};
    } else if c in Of(deps, cls) {
      assert Occurs(deps, c);
    } else {
      assert a == b;
    }
  }

  lemma NextIsNew(deps: Deps, order: seq<Class>, queue: seq<Class>, next: seq<Class>, degree: map<Class, nat>, c: Class)
    requires queue != []
    requires Sorting(deps, order, queue)
    requires Distinct(next)
    requires c in next <==> c in queue[1..] || (c in Of(deps, queue[0]) && Degree(degree, c) == 0)
    ensures multiset(order + [queue[0]] + next)[c] <= 1
  {
    HeadIsNew(deps, order, queue);
    DistinctSum(order, queue);
    assert multiset(order)[c] <= 1 && multiset(next)[c] <= 1;
    assert c in order <==> c in multiset(order);
    assert c in next <==> c in multiset(next);
    assert queue[0] in queue;
  }

  // All classes there are.
  function Everything(deps: Deps): set<Class> {
    deps.Keys + (set x, c | x in deps && c in deps[x] :: c)
  }

  lemma PlacingProgresses(deps: Deps, order: seq<Class>, cls: Class)
    requires Occurs(deps, cls) && cls !in order
    ensures |Everything(deps) - Placed(order + [cls])| < |Everything(deps) - Placed(order)|
  {
    var a, b := Everything(deps) - Placed(order), Everything(deps) - Placed(order + [cls]);
    assert cls in a && cls !in b;
    assert b + {cls} <= a;
    Smaller(b, a, cls);
  }

  lemma Smaller(b: set<Class>, a: set<Class>, x: Class)
    requires b <= a && x in a && x !in b
    ensures |b| < |a|
  {
    assert a == b + (a - b);
    assert x in a - b;
    assert |a - b| > 0;
  }

  /** The list is complete exactly when the dependencies are acyclic. */

  // Along a path the positions in the list ascend.
  lemma {:induction false} PathAscends(p: seq<Class>, deps: Deps, order: seq<Class>, m: nat) returns (k: nat)
    requires |p| >= 1 && Path(p, deps)
    requires DependantsFirst(order, deps)
    requires m < |order| && order[m] == p[|p| - 1]
    ensures k <= m && order[k] == p[0]
    ensures |p| >= 2 ==> k < m
    decreases |p|
  {
    if |p| == 1 {
      k := m;
    } else {
      var q := p[..|p| - 1];
      var x := p[|p| - 2];
      assert p[|p| - 2 + 1] in Of(deps, p[|p| - 2]);
      assert x in order[..m];
      var n: nat :| n < m && order[..m][n] == x;
      forall i | 0 <= i < |q| - 1 ensures q[i + 1] in Of(deps, q[i]) {
        assert p[i + 1] in Of(deps, p[i]);
      }
      k := PathAscends(q, deps, order, n);
    }
  }

  lemma CycleIsMissing(p: seq<Class>, deps: Deps, order: seq<Class>)
    requires Sorting(deps, order, [])
    requires Cycle(p, deps)
    ensures !Complete(order, deps)
  {
    var last := p[|p| - 1];
    if Complete(order, deps) {
      assert p[|p| - 2 + 1] in Of(deps, p[|p| - 2]);
      assert Occurs(deps, last);
      var m: nat :| m < |order| && order[m] == last;
      var k := PathAscends(p, deps, order, m);
      NoTail(order);
      DistinctAt(order, k, m);
    }
  }

  // A missing class waits for one that is missing too.
  lemma MissingWaits(deps: Deps, order: seq<Class>, c: Class) returns (x: Class)
    requires Sorting(deps, order, [])
    requires Occurs(deps, c) && c !in order
    ensures x in deps && c in deps[x] && x !in order
  {
    NoTail(order);
    assert Pending(deps, c, Placed(order)) != {};
    x :| x in Pending(deps, c, Placed(order));
  }

  lemma {:induction false} WalkBack(deps: Deps, order: seq<Class>, c: Class, n: nat) returns (p: seq<Class>)
    requires Sorting(deps, order, [])
    requires Occurs(deps, c) && c !in order
    ensures |p| == n + 1 && Path(p, deps)
    ensures forall x :: x in p ==> Occurs(deps, x) && x !in order
  {
    if n == 0 {
      p := [c];
    } else {
      var q := WalkBack(deps, order, c, n - 1);
      assert q[0] in q;
      var x := MissingWaits(deps, order, q[0]);
      p := [x] + q;
    }
  }

  lemma {:induction false} Pigeonhole(p: seq<Class>, holes: set<Class>) returns (i: nat, j: nat)
    requires forall x :: x in p ==> x in holes
    requires |p| > |holes|
    ensures i < j < |p| && p[i] == p[j]
    decreases |p|
  {
    var rest := p[1..];
    if p[0] in rest {
      var k: nat :| k < |rest| && rest[k] == p[0];
      i, j := 0, k + 1;
    } else {
      assert p[0] in holes;
      var fewer := holes - {p[0]};
      assert holes == fewer + {p[0]};
      i, j := Pigeonhole(rest, fewer);
      i, j := i + 1, j + 1;
    }
  }

  lemma MissingHasCycle(deps: Deps, order: seq<Class>)
    requires Sorting(deps, order, [])
    requires !Complete(order, deps)
    ensures !Acyclic(deps)
  {
    var c :| Occurs(deps, c) && c !in order;
    var missing := Everything(deps) - Placed(order);
    var p := WalkBack(deps, order, c, |missing|);
    forall x | x in p ensures x in missing {
      assert Occurs(deps, x);
    }
    var i, j := Pigeonhole(p, missing);
    RepeatIsCycle(p, deps, i, j);
  }

  lemma RepeatIsCycle(p: seq<Class>, deps: Deps, i: nat, j: nat)
    requires Path(p, deps)
    requires i < j < |p| && p[i] == p[j]
    ensures Cycle(p[i..j + 1], deps)
  {
    var q := p[i..j + 1];
    forall k | 0 <= k < |q| - 1 ensures q[k + 1] in Of(deps, q[k]) {
      assert p[i + k + 1] in Of(deps, p[i + k]);
    }
  }

  lemma SortedIffAcyclic(deps: Deps, order: seq<Class>)
    requires Sorting(deps, order, [])
    ensures Complete(order, deps) <==> Acyclic(deps)
  {
    if Complete(order, deps) {
      forall p ensures !Cycle(p, deps) {
        if Cycle(p, deps) { CycleIsMissing(p, deps, order); }
      }
    } else {
      MissingHasCycle(deps, order);
    }
  }

  /** What the flattener relies on: for acyclic dependencies every class comes exactly once, all
      its dependencies behind it, and nobody depends on the first one. */
  method SortAcyclic(keys: seq<Class>, deps: Deps) returns (order: seq<Class>)
    requires Distinct(keys)
    requires forall c :: c in keys <==> c in deps
    requires Acyclic(deps)
    ensures forall c :: multiset(order)[c] == if Occurs(deps, c) then 1 else 0
    ensures forall i, j :: 0 <= i < |order| && 0 <= j < |order| && order[j] in Of(deps, order[i]) ==> i < j
    ensures order != [] ==> forall x :: x in deps ==> order[0] !in deps[x]
  {
    order := Sort(keys, deps);
    SortedIffAcyclic(deps, order);
    NoTail(order);
    forall c ensures multiset(order)[c] == if Occurs(deps, c) then 1 else 0 {
      assert multiset(order)[c] <= 1;
      assert c in order <==> c in multiset(order);
    }
    forall i, j | 0 <= i < |order| && 0 <= j < |order| && order[j] in Of(deps, order[i]) ensures i < j {
      assert order[i] in order[..j];
      var k: nat :| k < j && order[..j][k] == order[i];
      DistinctAt(order, i, k);
    }
    forall x | order != [] && x in deps ensures order[0] !in deps[x] {
      assert x !in order[..0];
    }
  }

  /** reconstruct_original_dataclass: going through the list backwards, each class finds all its
      dependencies already built. */
  method Reconstruct(keys: seq<Class>, deps: Deps) returns (built: seq<Class>, ok: bool)
    requires Distinct(keys)
    requires forall c :: c in keys <==> c in deps
    ensures Acyclic(deps) ==> ok && Complete(built, deps)
    ensures ok ==> forall i, d :: 0 <= i < |built| && d in Of(deps, built[i]) ==> d in built[..i]
  {
    var order := Sort(keys, deps);
    built, ok := [], true;
    SortedIffAcyclic(deps, order);
    NoTail(order);
    var i := |order|;
    while i > 0
      invariant 0 <= i <= |order|
      invariant forall c :: c in built <==> c in order[i..]
      invariant Acyclic(deps) ==> ok
      invariant ok ==> forall k, d :: 0 <= k < |built| && d in Of(deps, built[k]) ==> d in built[..k]
    {
      i := i - 1;
      var cls := order[i];
      assert order[i..] == [cls] + order[i + 1..];
      if Acyclic(deps) { LaterAreBehind(deps, order, i); }
      var found := forall d | d in Of(deps, cls) :: d in built;
      ok := ok && found;
      ghost var before := built;
      built := built + [cls];
      forall k, d | ok && 0 <= k < |built| && d in Of(deps, built[k]) ensures d in built[..k] {
        if k < |before| {
          assert built[..k] == before[..k];
        } else {
          assert built[..k] == before;
        }
      }
    }
    assert order[0..] == order;
  }

  lemma LaterAreBehind(deps: Deps, order: seq<Class>, i: nat)
    requires Sorting(deps, order, [])
    requires Complete(order, deps)
    requires i < |order|
    ensures forall d :: d in Of(deps, order[i]) ==> d in order[i + 1..]
  {
    NoTail(order);
    forall d | d in Of(deps, order[i]) ensures d in order[i + 1..] {
      assert Occurs(deps, d);
      var j: nat :| j < |order| && order[j] == d;
      assert order[i] in order[..j];
      var k: nat :| k < j && order[..j][k] == order[i];
      DistinctAt(order, i, k);
      assert order[i + 1..][j - i - 1] == d;
    }
  }
}
