/** NonPreemptiveSolver: pick whole prompts in order of value until a budget is spent. An item
    is named by its index in the list the scheduler passes in. */
module Solver {
  import opened Lists
  import opened Sequences
  import opened Deadline

  datatype Offer = Offer(id: Id, value: Value, remaining: nat, compute: real)

  datatype Budget = Budget(
    compute: real,    // GPU_FLOPS still to spend
    blocks: int,      // KV blocks still to spend
    batch: int,       // batch_size
    maxTokens: int)

  datatype Greedy = Greedy(
    queue: seq<nat>,    // by value, still to be looked at
    picked: seq<nat>,
    passed: seq<nat>,   // looked at and left out
    tokens: nat,
    compute: real,
    blocks: int)

  const NO_OFFER: Offer := Offer(0, Finite(0.0), 0, 0.0)

  function At(offers: seq<Offer>, i: nat): Offer {
    if i < |offers| then offers[i] else NO_OFFER
  }

  predicate Spent(g: Greedy, b: Budget) {
    g.compute <= 0.0 || g.blocks <= 0 || |g.picked| >= b.batch || g.tokens >= b.maxTokens
  }

  function Consider(g: Greedy, offers: seq<Offer>, b: Budget, size: nat): Greedy
    requires size > 0
    requires g.queue != []
  {
    var i := g.queue[0];
    var o := At(offers, i);
    if g.tokens + o.remaining > b.maxTokens then
      g.(queue := g.queue[1..], passed := g.passed + [i])
    else
      Greedy(g.queue[1..], g.picked + [i], g.passed, g.tokens + o.remaining,
             g.compute - o.compute, g.blocks - Blocks(o.remaining, size))
  }

  function Pick(g: Greedy, offers: seq<Offer>, b: Budget, size: nat): Greedy
    requires size > 0
    decreases |g.queue|
  {
    if g.queue == [] || Spent(g, b) then g else Pick(Consider(g, offers, b, size), offers, b, size)
  }

  predicate WorthMore(offers: seq<Offer>, i: nat, j: nat) {
    AtLeast(At(offers, i).value, At(offers, j).value)
  }

  // sorted(items, key=value, reverse=True)
  function ByOfferValue(offers: seq<Offer>): (r: seq<nat>)
    ensures multiset(r) == multiset(Range(|offers|))
  {
    StableSort(Range(|offers|), (i, j) => WorthMore(offers, i, j))
  }

  function StartPick(offers: seq<Offer>, b: Budget): Greedy {
    Greedy(ByOfferValue(offers), [], [], 0, b.compute, b.blocks)
  }

  function Solution(offers: seq<Offer>, b: Budget, size: nat): Greedy
    requires size > 0
  {
    Pick(StartPick(offers, b), offers, b, size)
  }

  function Tokens(items: seq<nat>, offers: seq<Offer>): nat {
    if items == [] then 0 else At(offers, items[0]).remaining + Tokens(items[1..], offers)
  }

  lemma {:induction false} TokensAppend(a: seq<nat>, i: nat, offers: seq<Offer>)
    ensures Tokens(a + [i], offers) == Tokens(a, offers) + At(offers, i).remaining
  {
    if a == [] {
      assert a + [i] == [i];
      assert Tokens([i][1..], offers) == 0;
    } else {
      assert (a + [i])[1..] == a[1..] + [i];
      TokensAppend(a[1..], i, offers);
    }
  }

  ghost predicate Descending(s: seq<nat>, offers: seq<Offer>) {
    forall i, j :: 0 <= i < j < |s| ==> WorthMore(offers, s[i], s[j])
  }

  // A passed item would have overflowed the tokens of picks of at least its value.
  ghost predicate Overflows(p: nat, picked: seq<nat>, offers: seq<Offer>, b: Budget) {
    exists k :: 0 <= k <= |picked|
      && Tokens(picked[..k], offers) + At(offers, p).remaining > b.maxTokens
      && forall j :: 0 <= j < k ==> WorthMore(offers, picked[j], p)
  }

  ghost predicate Sound(g: Greedy, offers: seq<Offer>, b: Budget) {
    && multiset(g.picked + g.passed + g.queue) == multiset(Range(|offers|))
    && g.tokens == Tokens(g.picked, offers)
    && (g.tokens == 0 || g.tokens <= b.maxTokens)
    && (g.picked == [] || |g.picked| <= b.batch)
    && Descending(g.picked + g.queue, offers)
    && (forall p :: p in g.passed ==> Overflows(p, g.picked, offers, b))
  }

  lemma OverflowsExtends(p: nat, picked: seq<nat>, x: nat, offers: seq<Offer>, b: Budget)
    requires Overflows(p, picked, offers, b)
    ensures Overflows(p, picked + [x], offers, b)
  {
    var k :| 0 <= k <= |picked|
      && Tokens(picked[..k], offers) + At(offers, p).remaining > b.maxTokens
      && forall j :: 0 <= j < k ==> WorthMore(offers, picked[j], p);
    assert (picked + [x])[..k] == picked[..k];
  }

  lemma PassSound(g: Greedy, offers: seq<Offer>, b: Budget, size: nat)
    requires size > 0
    requires g.queue != []
    requires g.tokens + At(offers, g.queue[0]).remaining > b.maxTokens
    requires Sound(g, offers, b)
    ensures Sound(Consider(g, offers, b, size), offers, b)
  {
    var i, rest := g.queue[0], g.queue[1..];
    var s, t := g.picked + g.queue, g.picked + rest;
    var n := Consider(g, offers, b, size);
    assert g.queue == [i] + rest;
    assert n.picked + n.passed + n.queue == g.picked + g.passed + g.queue;
    assert g.picked[..|g.picked|] == g.picked;
    forall j | 0 <= j < |g.picked| ensures WorthMore(offers, g.picked[j], i) {
      assert s[j] == g.picked[j] && s[|g.picked|] == i;
    }
    assert Overflows(i, g.picked, offers, b);
    forall x, y | 0 <= x < y < |t| ensures WorthMore(offers, t[x], t[y]) {
      var x' := if x < |g.picked| then x else x + 1;
      var y' := if y < |g.picked| then y else y + 1;
      assert s[x'] == t[x] && s[y'] == t[y];
    }
  }

  lemma TakePermutes(picked: seq<nat>, passed: seq<nat>, queue: seq<nat>)
    requires queue != []
    ensures multiset((picked + [queue[0]]) + passed + queue[1..]) == multiset(picked + passed + queue)
    ensures (picked + [queue[0]]) + queue[1..] == picked + queue
  {
    assert queue == [queue[0]] + queue[1..];
  }

  lemma TakeSound(g: Greedy, offers: seq<Offer>, b: Budget, size: nat)
    requires size > 0
    requires g.queue != [] && !Spent(g, b)
    requires g.tokens + At(offers, g.queue[0]).remaining <= b.maxTokens
    requires Sound(g, offers, b)
    ensures Sound(Consider(g, offers, b, size), offers, b)
  {
    var i := g.queue[0];
    var n := Consider(g, offers, b, size);
    TakePermutes(g.picked, g.passed, g.queue);
    TokensAppend(g.picked, i, offers);
    forall p | p in n.passed ensures Overflows(p, n.picked, offers, b) {
      OverflowsExtends(p, g.picked, i, offers, b);
    }
  }

  lemma {:induction false} PickSound(g: Greedy, offers: seq<Offer>, b: Budget, size: nat)
    requires size > 0
    requires Sound(g, offers, b)
    ensures Sound(Pick(g, offers, b, size), offers, b)
    ensures Pick(g, offers, b, size).queue == [] || Spent(Pick(g, offers, b, size), b)
    decreases |g.queue|
  {
    if g.queue != [] && !Spent(g, b) {
      if g.tokens + At(offers, g.queue[0]).remaining > b.maxTokens {
        PassSound(g, offers, b, size);
      } else {
        TakeSound(g, offers, b, size);
      }
      PickSound(Consider(g, offers, b, size), offers, b, size);
    }
  }

  /** What the solver promises: at most batch_size picks, whose tokens are the returned total
      and within max_tokens; every item is picked, passed over because it would overflow the
      tokens of picks of at least its value, or unreached, and then worth no more than any
      pick and left because a budget was spent. */
  lemma SolutionIsGreedy(offers: seq<Offer>, b: Budget, size: nat)
    requires size > 0
    ensures var g := Solution(offers, b, size);
            && Sound(g, offers, b)
            && (g.queue == [] || Spent(g, b))
  {
    var before := (i, j) => WorthMore(offers, i, j);
    StableSortSorts(Range(|offers|), before);
    var sorted := ByOfferValue(offers);
    assert sorted == StableSort(Range(|offers|), before);
    forall i, j | 0 <= i < j < |sorted| ensures WorthMore(offers, sorted[i], sorted[j]) {
      assert before(sorted[i], sorted[j]);
    }
    var g := StartPick(offers, b);
    NoTail(sorted);
    assert g.picked + g.passed + g.queue == sorted;
    assert g.picked + g.queue == sorted;
    PickSound(g, offers, b, size);
  }

  /** The budgets. */

  function ComputeSum(items: seq<nat>, offers: seq<Offer>): real {
    if items == [] then 0.0 else ComputeSum(items[..|items| - 1], offers) + At(offers, items[|items| - 1]).compute
  }

  function BlockSum(items: seq<nat>, offers: seq<Offer>, size: nat): nat
    requires size > 0
  {
    if items == [] then 0
    else BlockSum(items[..|items| - 1], offers, size) + Blocks(At(offers, items[|items| - 1]).remaining, size)
  }

  // With these picked something of every budget is left.
  predicate SomethingLeft(items: seq<nat>, offers: seq<Offer>, b: Budget, size: nat)
    requires size > 0
  {
    && ComputeSum(items, offers) < b.compute
    && BlockSum(items, offers, size) < b.blocks
    && |items| < b.batch
    && Tokens(items, offers) < b.maxTokens
  }

  // The budgets are spent by the picks alone, and each was made with something of every one left.
  ghost predicate WithinBudgets(g: Greedy, offers: seq<Offer>, b: Budget, size: nat)
    requires size > 0
  {
    && g.compute == b.compute - ComputeSum(g.picked, offers)
    && g.blocks == b.blocks - BlockSum(g.picked, offers, size)
    && g.tokens == Tokens(g.picked, offers)
    && forall k: nat :: k < |g.picked| ==> SomethingLeft(g.picked[..k], offers, b, size)
  }

  lemma ConsiderKeepsBudgets(g: Greedy, offers: seq<Offer>, b: Budget, size: nat)
    requires size > 0
    requires g.queue != [] && !Spent(g, b)
    requires WithinBudgets(g, offers, b, size)
    ensures WithinBudgets(Consider(g, offers, b, size), offers, b, size)
  {
    var n := Consider(g, offers, b, size);
    if n.picked != g.picked {
      var i := g.queue[0];
      assert n.picked[..|g.picked|] == g.picked;
      TokensAppend(g.picked, i, offers);
      forall k: nat | k < |n.picked| ensures SomethingLeft(n.picked[..k], offers, b, size) {
        if k < |g.picked| { assert n.picked[..k] == g.picked[..k]; }
      }
    }
  }

  lemma {:induction false} PickKeepsBudgets(g: Greedy, offers: seq<Offer>, b: Budget, size: nat)
    requires size > 0
    requires WithinBudgets(g, offers, b, size)
    ensures WithinBudgets(Pick(g, offers, b, size), offers, b, size)
    decreases |g.queue|
  {
    if g.queue != [] && !Spent(g, b) {
      ConsiderKeepsBudgets(g, offers, b, size);
      PickKeepsBudgets(Consider(g, offers, b, size), offers, b, size);
    }
  }

  /** What the solver makes of the four budgets: each pick is made with something of every budget
      left by those before it, and it stops only with nothing to look at any more, or when the
      picks have spent one of them. */
  lemma SolutionKeepsBudgets(offers: seq<Offer>, b: Budget, size: nat)
    requires size > 0
    ensures var g := Solution(offers, b, size);
            && (forall k: nat :: k < |g.picked| ==> SomethingLeft(g.picked[..k], offers, b, size))
            && (g.queue == [] || !SomethingLeft(g.picked, offers, b, size))
            && g.compute == b.compute - ComputeSum(g.picked, offers)
  {
    PickKeepsBudgets(StartPick(offers, b), offers, b, size);
    SolutionIsGreedy(offers, b, size);
  }

  // The loop over the items in order of value.
  method PickItems(offers: seq<Offer>, b: Budget, size: nat, sorted: seq<nat>, frac: array<int>)
    returns (compute: real, tokens: nat)
    requires size > 0
    requires sorted == ByOfferValue(offers)
    requires frac.Length == |offers|
    requires forall i :: 0 <= i < |offers| ==> frac[i] == 0
    modifies frac
    ensures var g := Solution(offers, b, size);
            && tokens == g.tokens && compute == g.compute
            && forall i :: 0 <= i < |offers| ==> frac[i] == if i in g.picked then 1 else 0
  {
    PermutationMembers(sorted, Range(|offers|));
    ghost var g := StartPick(offers, b);
    tokens := 0;
    var prefills := 0;
    compute := b.compute;
    var blocks := b.blocks;
    var at := 0;
    while at < |sorted|
      invariant at <= |sorted|
      invariant g.queue == sorted[at..]
      invariant g.tokens == tokens && g.compute == compute && g.blocks == blocks && |g.picked| == prefills
      invariant Pick(g, offers, b, size) == Solution(offers, b, size)
      invariant forall i :: 0 <= i < |offers| ==> frac[i] == if i in g.picked then 1 else 0
    {
      if compute <= 0.0 || blocks <= 0 || prefills >= b.batch || tokens >= b.maxTokens {
        break;
      }
      var item := sorted[at];
      assert item in sorted;
      var o := offers[item];
      g := Consider(g, offers, b, size);
      at := at + 1;
      if tokens + o.remaining > b.maxTokens {
        continue;
      }
      frac[item] := 1;
      prefills := prefills + 1;
      compute := compute - o.compute;
      tokens := tokens + o.remaining;
      blocks := blocks - Blocks(o.remaining, size);
    }
  }

  /** solve: frac[i] is the frac field of item i; the returned list of items is in input order,
      which the scheduler relies on when it cuts it at the number of partial prefills. */
  method Solve(offers: seq<Offer>, b: Budget, size: nat)
    returns (items: seq<nat>, frac: array<int>, compute: real, tokens: nat)
    requires size > 0
    ensures fresh(frac) && frac.Length == |offers|
    ensures items == Range(|offers|)
    ensures var g := Solution(offers, b, size);
            && tokens == g.tokens && compute == g.compute
            && forall i :: 0 <= i < |offers| ==> frac[i] == if i in g.picked then 1 else 0
  {
    var sorted := ByOfferValue(offers);
    frac := new int[|offers|](_ => 0);
    compute, tokens := PickItems(offers, b, size, sorted, frac);
    SortIndicesRestores(sorted, |offers|);
    items := SortIndices(sorted);
  }
}
