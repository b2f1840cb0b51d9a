/** Whom the low-priority scheduler takes, and whom it hands over: the plan of a step told from the
    state before it, and the law of deadlines it keeps. */
module LowPriorityChoices {
  import opened Lists
  import opened Sequences
  import opened BlockPool
  import opened Reserve
  import opened EngineCore
  import opened DecodePhase
  import opened Deadline
  import opened Solver
  import opened LowPriority
  import PrefillFirst

  function Decodes(cfg: Config, e: Engine): Reservation
    requires cfg.Valid()
  {
    Decode(cfg, e, ByKept(cfg.maxSeqs))
  }

  // There is something to prefill, and blocks, places and tokens to do it with.
  predicate Prefills(cfg: Config, e: Engine)
    requires cfg.Valid()
  {
    var r := Decodes(cfg, e);
    e.waiting != [] && r.victims == [] && r.pool.free > 0 && |r.kept| < cfg.maxSeqs && |r.kept| < cfg.maxBatched
  }

  // The solver's picks among the waiting.
  function Picked(cfg: Config, e: Engine, input: LpInput): set<Id>
    requires cfg.Valid()
  {
    PickedIds(cfg, e.waiting, Decodes(cfg, e), e.seqs, input)
  }

  /** Placing, in closed form. */

  // The i-th is picked, within the limit, and fits above the watermark behind those before it.
  predicate Takes(cfg: Config, order: seq<Id>, i: nat, picked: set<Id>, seqs: SeqMap, free: int)
    requires cfg.Valid() && i < |order|
    decreases i, 1
  {
    var v := Look(seqs, order[i]);
    && order[i] in picked && v.Len() <= cfg.limit
    && free - NeedSum(Taken(cfg, order, i, picked, seqs, free), seqs, cfg.size) - v.Need(cfg.size) >= cfg.watermark
  }

  // Those taken of the first k.
  function Taken(cfg: Config, order: seq<Id>, k: nat, picked: set<Id>, seqs: SeqMap, free: int): seq<Id>
    requires cfg.Valid() && k <= |order|
    decreases k, 0
  {
    if k == 0 then []
    else Taken(cfg, order, k - 1, picked, seqs, free) + (if Takes(cfg, order, k - 1, picked, seqs, free) then [order[k - 1]] else [])
  }

  // The picked ones over the limit of the first k, and the rest.
  function Dropped(cfg: Config, order: seq<Id>, k: nat, picked: set<Id>, seqs: SeqMap): seq<Id>
    requires k <= |order|
  {
    if k == 0 then []
    else Dropped(cfg, order, k - 1, picked, seqs)
         + (if order[k - 1] in picked && Look(seqs, order[k - 1]).Len() > cfg.limit then [order[k - 1]] else [])
  }

  function Left(cfg: Config, order: seq<Id>, k: nat, picked: set<Id>, seqs: SeqMap, free: int): seq<Id>
    requires cfg.Valid() && k <= |order|
  {
    if k == 0 then []
    else Left(cfg, order, k - 1, picked, seqs, free)
         + (if Takes(cfg, order, k - 1, picked, seqs, free)
               || (order[k - 1] in picked && Look(seqs, order[k - 1]).Len() > cfg.limit) then [] else [order[k - 1]])
  }

  ghost predicate PlacedSoFar(cfg: Config, p: Placing, start: Placing, k: nat, picked: set<Id>, seqs: SeqMap)
    requires cfg.Valid() && k <= |start.queue|
  {
    var order, free := start.queue, start.pool.free;
    && p.queue == order[k..]
    && p.admitted == Taken(cfg, order, k, picked, seqs, free)
    && p.ignored == Dropped(cfg, order, k, picked, seqs)
    && p.waiting == Left(cfg, order, k, picked, seqs, free)
    && p.running == start.running + p.admitted
    && p.pool.free == free - NeedSum(p.admitted, seqs, cfg.size)
  }

  lemma PlacesOneMore(cfg: Config, p: Placing, start: Placing, k: nat, picked: set<Id>, seqs: SeqMap)
    requires cfg.Valid() && k < |start.queue|
    requires PlacedSoFar(cfg, p, start, k, picked, seqs)
    ensures PlacedSoFar(cfg, PlaceNext(cfg, p, picked, seqs), start, k + 1, picked, seqs)
  {
    var id := start.queue[k];
    assert p.queue[0] == id && p.queue[1..] == start.queue[k + 1..];
    if Takes(cfg, start.queue, k, picked, seqs, start.pool.free) {
      TakesOneMore(cfg, p, start, id, picked, seqs);
    } else {
      assert PlaceNext(cfg, p, picked, seqs).pool == p.pool && PlaceNext(cfg, p, picked, seqs).running == p.running;
    }
    NoTail(p.admitted);
    NoTail(p.ignored);
    NoTail(p.waiting);
  }

  lemma TakesOneMore(cfg: Config, p: Placing, start: Placing, id: Id, picked: set<Id>, seqs: SeqMap)
    requires cfg.Valid() && p.queue != [] && p.queue[0] == id
    requires id in picked && Look(seqs, id).Len() <= cfg.limit
    requires p.running == start.running + p.admitted && p.pool.free == start.pool.free - NeedSum(p.admitted, seqs, cfg.size)
    requires p.pool.free - Look(seqs, id).Need(cfg.size) >= cfg.watermark
    ensures var n := PlaceNext(cfg, p, picked, seqs);
            && n.admitted == p.admitted + [id] && n.waiting == p.waiting && n.ignored == p.ignored
            && n.running == start.running + n.admitted
            && n.pool.free == start.pool.free - NeedSum(n.admitted, seqs, cfg.size)
  {
    NeedSumSnoc(p.admitted, id, seqs, cfg.size);
    Regroup(start.running, p.admitted, [id]);
  }

  lemma {:induction false} PlacesAll(cfg: Config, p: Placing, start: Placing, k: nat, picked: set<Id>, seqs: SeqMap)
    requires cfg.Valid() && k <= |start.queue|
    requires PlacedSoFar(cfg, p, start, k, picked, seqs)
    ensures PlacedSoFar(cfg, Place(cfg, p, picked, seqs), start, |start.queue|, picked, seqs)
    decreases |start.queue| - k
  {
    if k < |start.queue| {
      PlacesOneMore(cfg, p, start, k, picked, seqs);
      PlacesAll(cfg, PlaceNext(cfg, p, picked, seqs), start, k + 1, picked, seqs);
    }
  }

  /** The plan: the decodes, and behind them, if there is something to prefill and room for it and
      nobody was preempted, of the solver's picks those that fit above the watermark one behind the
      other. Picks over the prompt limit are ignored, everyone else stays waiting in order. */
  lemma PlanInClosedForm(cfg: Config, e: Engine, input: LpInput)
    requires LpInv(cfg, e)
    ensures var p, r := LowPriority.Schedule(cfg, e, input), Decodes(cfg, e);
            if !Prefills(cfg, e) then
              && p.scheduled == r.slots && p.victims == r.victims && p.ignored == []
              && p.engine.running == r.kept && p.engine.waiting == e.waiting + r.victims
            else
              var picked, n := Picked(cfg, e, input), |e.waiting|;
              && p.scheduled == r.slots + Taken(cfg, e.waiting, n, picked, e.seqs, r.pool.free)
              && p.engine.running == r.kept + Taken(cfg, e.waiting, n, picked, e.seqs, r.pool.free)
              && p.ignored == Dropped(cfg, e.waiting, n, picked, e.seqs) && p.victims == []
              && p.engine.waiting == Left(cfg, e.waiting, n, picked, e.seqs, r.pool.free)
  {
    NoTail(e.waiting);
    if Prefills(cfg, e) { PlacesPicks(cfg, e, input); }
  }

  lemma PlacesPicks(cfg: Config, e: Engine, input: LpInput)
    requires cfg.Valid() && Prefills(cfg, e)
    ensures var r, p := Decodes(cfg, e), PlacingOf(cfg, e, input);
            var picked, n := Picked(cfg, e, input), |e.waiting|;
            && AfterDecode(e, r).waiting == e.waiting
            && p.admitted == Taken(cfg, e.waiting, n, picked, e.seqs, r.pool.free)
            && p.running == r.kept + p.admitted
            && p.ignored == Dropped(cfg, e.waiting, n, picked, e.seqs)
            && p.waiting == Left(cfg, e.waiting, n, picked, e.seqs, r.pool.free)
  {
    var r := Decodes(cfg, e);
    NoTail(e.waiting);
    NoTail(r.kept);
    assert e.waiting[0..] == e.waiting;
    PlacesFrom(cfg, Placing(e.waiting, [], r.kept, r.pool, [], []), Picked(cfg, e, input), e.seqs);
  }

  lemma PlacesFrom(cfg: Config, start: Placing, picked: set<Id>, seqs: SeqMap)
    requires cfg.Valid()
    requires start.waiting == [] && start.admitted == [] && start.ignored == []
    ensures PlacedSoFar(cfg, Place(cfg, start, picked, seqs), start, |start.queue|, picked, seqs)
  {
    assert start.queue[0..] == start.queue;
    NoTail(start.running);
    PlacesAll(cfg, start, start, 0, picked, seqs);
  }

  /** Placing leaves the watermark free. */
  lemma {:induction false} TakenLeavesWatermark(cfg: Config, order: seq<Id>, k: nat, picked: set<Id>, seqs: SeqMap, free: int)
    requires cfg.Valid() && k <= |order|
    ensures var taken := Taken(cfg, order, k, picked, seqs, free);
            taken != [] ==> free - NeedSum(taken, seqs, cfg.size) >= cfg.watermark
    decreases k
  {
    if k > 0 {
      var before := Taken(cfg, order, k - 1, picked, seqs, free);
      TakenLeavesWatermark(cfg, order, k - 1, picked, seqs, free);
      NoTail(before);
      NeedSumSnoc(before, order[k - 1], seqs, cfg.size);
    }
  }

  /** Deadlines. */

  function Latest(e: Engine, input: LpInput, id: Id): real { LatestStart(input.ttft, input.clock, id, Look(e.seqs, id)) }

  predicate Before(e: Engine, input: LpInput, a: Id, b: Id) {
    MoreUrgent(input.clock.now, Latest(e, input, a), Latest(e, input, b))
  }

  // The offers rank by urgency.
  lemma OffersRankUrgency(e: Engine, input: LpInput, i: nat, j: nat)
    requires i < |e.waiting| && j < |e.waiting|
    ensures WorthMore(Offers(e.waiting, e.seqs, input), i, j) <==> !Before(e, input, e.waiting[j], e.waiting[i])
  {
    var x, y := e.waiting[i], e.waiting[j];
    SlackIsTimeLeft(input.ttft, input.clock, x, Look(e.seqs, x));
    SlackIsTimeLeft(input.ttft, input.clock, y, Look(e.seqs, y));
    ValueRanksUrgency(input.clock.now, Latest(e, input, y), Latest(e, input, x));
  }

  // A batch with the decodes, some prompts that are at least as urgent, and this one, is too big.
  ghost predicate Overflowing(cfg: Config, e: Engine, input: LpInput, y: Id, ahead: seq<Id>)
    requires cfg.Valid()
  {
    && (forall z :: z in ahead ==> z in e.waiting && !Before(e, input, y, z))
    && |Decodes(cfg, e).kept| + BatchTokens(ahead, e.seqs) + |Look(e.seqs, y).prompt| > cfg.maxBatched
  }

  // It stands at the j-th place and does not fit above the watermark behind those taken before it.
  predicate Misfits(cfg: Config, order: seq<Id>, j: nat, picked: set<Id>, seqs: SeqMap, free: int, y: Id)
    requires cfg.Valid()
  {
    && j < |order| && order[j] == y
    && free - NeedSum(Taken(cfg, order, j, picked, seqs, free), seqs, cfg.size) - Look(seqs, y).Need(cfg.size) < cfg.watermark
  }

  // It is picked, but does not fit.
  ghost predicate Unplaceable(cfg: Config, e: Engine, input: LpInput, y: Id)
    requires cfg.Valid()
  {
    && y in Picked(cfg, e, input)
    && exists j: nat :: Misfits(cfg, e.waiting, j, Picked(cfg, e, input), e.seqs, Decodes(cfg, e).pool.free, y)
  }

  lemma PickedAt(cfg: Config, e: Engine, input: LpInput, x: Id) returns (i: nat)
    requires cfg.Valid() && x in Picked(cfg, e, input)
    ensures i < |e.waiting| && e.waiting[i] == x
    ensures i in Chosen(cfg, e, input).picked
  {
    i :| i in Chosen(cfg, e, input).picked && i < |e.waiting| && e.waiting[i] == x;
  }

  // Whom the solver leaves out, though more urgent than a pick, would have overflowed the tokens.
  lemma PassedOverflows(cfg: Config, e: Engine, input: LpInput, x: Id, y: Id) returns (ahead: seq<Id>)
    requires LpInv(cfg, e) && |Decodes(cfg, e).kept| < cfg.maxBatched
    requires x in Picked(cfg, e, input) && y in e.waiting && y !in Picked(cfg, e, input)
    requires Before(e, input, y, x)
    ensures Overflowing(cfg, e, input, y, ahead)
  {
    var i := PickedAt(cfg, e, input, x);
    var j := NotPickedAt(cfg, e, input, y);
    OffersRankUrgency(e, input, i, j);
    var items := PassedBehind(cfg, e, input, i, j);
    ahead := IdsOf(items, e.waiting);
    AheadIsUrgent(cfg, e, input, items, y, j);
  }

  function Chosen(cfg: Config, e: Engine, input: LpInput): Greedy
    requires cfg.Valid()
  {
    Solution(Offers(e.waiting, e.seqs, input), SolverBudget(cfg, Decodes(cfg, e), input), cfg.size)
  }

  lemma NotPickedAt(cfg: Config, e: Engine, input: LpInput, y: Id) returns (j: nat)
    requires cfg.Valid() && y in e.waiting && y !in Picked(cfg, e, input)
    ensures j < |e.waiting| && e.waiting[j] == y && j !in Chosen(cfg, e, input).picked
  {
    j :| 0 <= j < |e.waiting| && e.waiting[j] == y;
  }

  // The picks before the j-th was passed over.
  lemma PassedBehind(cfg: Config, e: Engine, input: LpInput, i: nat, j: nat) returns (items: seq<nat>)
    requires cfg.Valid()
    requires i in Chosen(cfg, e, input).picked && j < |e.waiting| && j !in Chosen(cfg, e, input).picked
    requires !WorthMore(Offers(e.waiting, e.seqs, input), i, j)
    ensures forall m: nat :: m in items ==> m < |e.waiting|
    ensures var offers := Offers(e.waiting, e.seqs, input);
            && (forall m :: 0 <= m < |items| ==> WorthMore(offers, items[m], j))
            && Tokens(items, offers) + Solver.At(offers, j).remaining > cfg.maxBatched - |Decodes(cfg, e).kept|
  {
    var offers, b := Offers(e.waiting, e.seqs, input), SolverBudget(cfg, Decodes(cfg, e), input);
    var g := Chosen(cfg, e, input);
    SolutionIsGreedy(offers, b, cfg.size);
    PickedInRange(g, offers, b);
    LeftOutIsPassed(g, offers, b, i, j);
    var k := OverflowAt(g, offers, b, j);
    items := g.picked[..k];
    forall m: nat | m in items ensures m < |e.waiting| { assert m in g.picked; }
  }

  lemma LeftOutIsPassed(g: Greedy, offers: seq<Offer>, b: Budget, i: nat, j: nat)
    requires Solver.Sound(g, offers, b)
    requires i in g.picked && j < |offers| && j !in g.picked
    requires !WorthMore(offers, i, j)
    ensures j in g.passed
  {
    PermutationMembers(g.picked + g.passed + g.queue, Range(|offers|));
    assert Range(|offers|)[j] == j && j in g.picked + g.passed + g.queue;
    if j in g.queue { UnreachedIsWorthLess(g, offers, b, i, j); }
  }

  lemma UnreachedIsWorthLess(g: Greedy, offers: seq<Offer>, b: Budget, i: nat, j: nat)
    requires Solver.Sound(g, offers, b)
    requires i in g.picked && j in g.queue
    ensures WorthMore(offers, i, j)
  {
    var s := g.picked + g.queue;
    var m :| 0 <= m < |g.picked| && g.picked[m] == i;
    var n :| 0 <= n < |g.queue| && g.queue[n] == j;
    assert s[m] == i && s[|g.picked| + n] == j;
  }

  lemma OverflowAt(g: Greedy, offers: seq<Offer>, b: Budget, j: nat) returns (k: nat)
    requires Solver.Sound(g, offers, b) && j in g.passed
    ensures k <= |g.picked|
    ensures Tokens(g.picked[..k], offers) + Solver.At(offers, j).remaining > b.maxTokens
    ensures forall m :: 0 <= m < k ==> WorthMore(offers, g.picked[m], j)
  {
    assert Overflows(j, g.picked, offers, b);
    k :| 0 <= k <= |g.picked|
         && Tokens(g.picked[..k], offers) + Solver.At(offers, j).remaining > b.maxTokens
         && forall m :: 0 <= m < k ==> WorthMore(offers, g.picked[m], j);
  }

  lemma AheadIsUrgent(cfg: Config, e: Engine, input: LpInput, items: seq<nat>, y: Id, j: nat)
    requires LpInv(cfg, e)
    requires j < |e.waiting| && e.waiting[j] == y
    requires forall i: nat :: i in items ==> i < |e.waiting|
    requires var offers := Offers(e.waiting, e.seqs, input);
             && (forall m :: 0 <= m < |items| ==> WorthMore(offers, items[m], j))
             && Tokens(items, offers) + Solver.At(offers, j).remaining > cfg.maxBatched - |Decodes(cfg, e).kept|
    ensures Overflowing(cfg, e, input, y, IdsOf(items, e.waiting))
  {
    forall id | id in e.waiting ensures Fresh(Look(e.seqs, id)) {}
    PickTokens(items, e.waiting, e.seqs, input);
    ItemsAreUrgent(e, input, items, y, j);
  }

  lemma ItemsAreUrgent(e: Engine, input: LpInput, items: seq<nat>, y: Id, j: nat)
    requires j < |e.waiting| && e.waiting[j] == y
    requires forall i: nat :: i in items ==> i < |e.waiting|
    requires forall m :: 0 <= m < |items| ==> WorthMore(Offers(e.waiting, e.seqs, input), items[m], j)
    ensures forall z :: z in IdsOf(items, e.waiting) ==> z in e.waiting && !Before(e, input, y, z)
  {
    forall z | z in IdsOf(items, e.waiting) ensures z in e.waiting && !Before(e, input, y, z) {
      var i := IdAt(items, e.waiting, z);
      OffersRankUrgency(e, input, i, j);
    }
  }

  lemma {:induction false} IdAt(items: seq<nat>, ids: seq<Id>, z: Id) returns (i: nat)
    requires forall i: nat :: i in items ==> i < |ids|
    requires z in IdsOf(items, ids)
    ensures i in items && i < |ids| && ids[i] == z
    decreases |items|
  {
    var rest := items[1..];
    assert items == [items[0]] + rest;
    assert items[0] in items;
    if ids[items[0]] == z {
      i := items[0];
    } else {
      forall k: nat | k in rest ensures k < |ids| { assert k in items; }
      i := IdAt(rest, ids, z);
    }
  }

  /** The other budgets, over the waiting list. */

  function ComputeOf(ids: seq<Id>, compute: map<Id, real>): real {
    if ids == [] then 0.0 else ComputeOf(ids[..|ids| - 1], compute) + Deadline.At(compute, ids[|ids| - 1])
  }

  lemma {:induction false} PrefixIds(items: seq<nat>, ids: seq<Id>, i: nat)
    requires i < |ids|
    ensures IdsOf(items + [i], ids) == IdsOf(items, ids) + [ids[i]]
  {
    if items == [] {
      assert [] + [i] == [i] && [i][1..] == [];
    } else {
      assert (items + [i])[1..] == items[1..] + [i];
      PrefixIds(items[1..], ids, i);
      Regroup(if items[0] < |ids| then [ids[items[0]]] else [], IdsOf(items[1..], ids), [ids[i]]);
    }
  }

  lemma {:induction false} SumsOverIds(e: Engine, input: LpInput, items: seq<nat>, size: nat)
    requires size > 0
    requires forall i: nat :: i in items ==> i < |e.waiting|
    requires forall id :: id in e.waiting ==> Fresh(Look(e.seqs, id))
    ensures var offers, ids := Offers(e.waiting, e.seqs, input), IdsOf(items, e.waiting);
            && ComputeSum(items, offers) == ComputeOf(ids, input.compute)
            && BlockSum(items, offers, size) == NeedSum(ids, e.seqs, size)
    decreases |items|
  {
    if items != [] {
      var front, i := items[..|items| - 1], items[|items| - 1];
      assert items == front + [i] && i in items;
      forall k: nat | k in front ensures k < |e.waiting| { assert k in items; }
      SumsOverIds(e, input, front, size);
      PrefixIds(front, e.waiting, i);
      assert e.waiting[i] in e.waiting;
      OneMoreSum(e, input, front, i, size);
      SumSnoc(IdsOf(front, e.waiting), e.waiting[i], input.compute, e.seqs, size);
    }
  }

  lemma OneMoreSum(e: Engine, input: LpInput, items: seq<nat>, i: nat, size: nat)
    requires size > 0 && i < |e.waiting| && Fresh(Look(e.seqs, e.waiting[i]))
    ensures var offers, id := Offers(e.waiting, e.seqs, input), e.waiting[i];
            && ComputeSum(items + [i], offers) == ComputeSum(items, offers) + Deadline.At(input.compute, id)
            && BlockSum(items + [i], offers, size) == BlockSum(items, offers, size) + Look(e.seqs, id).Need(size)
  {
    assert (items + [i])[..|items|] == items;
  }

  lemma SumSnoc(ids: seq<Id>, id: Id, compute: map<Id, real>, seqs: SeqMap, size: nat)
    requires size > 0
    ensures ComputeOf(ids + [id], compute) == ComputeOf(ids, compute) + Deadline.At(compute, id)
    ensures NeedSum(ids + [id], seqs, size) == NeedSum(ids, seqs, size) + Look(seqs, id).Need(size)
  {
    assert (ids + [id])[..|ids|] == ids;
    NeedSumSnoc(ids, id, seqs, size);
  }

  /** Each pick is made while the prompts picked before it leave some of the compute, of the free blocks
      and of the tokens and places of the batch: estimated compute, blocks and tokens, added up. */
  lemma PicksKeepBudgets(cfg: Config, e: Engine, input: LpInput, k: nat)
    requires LpInv(cfg, e) && k < |Chosen(cfg, e, input).picked|
    ensures var r, ahead := Decodes(cfg, e), IdsOf(Chosen(cfg, e, input).picked[..k], e.waiting);
            && ComputeOf(ahead, input.compute) < input.flops
            && NeedSum(ahead, e.seqs, cfg.size) < r.pool.free
            && |r.kept| + |ahead| < cfg.maxSeqs
            && |r.kept| + BatchTokens(ahead, e.seqs) < cfg.maxBatched
  {
    var offers, b := Offers(e.waiting, e.seqs, input), SolverBudget(cfg, Decodes(cfg, e), input);
    var g := Chosen(cfg, e, input);
    var items := g.picked[..k];
    SolutionIsGreedy(offers, b, cfg.size);
    SolutionKeepsBudgets(offers, b, cfg.size);
    PickedInRange(g, offers, b);
    forall i: nat | i in items ensures i < |e.waiting| { assert i in g.picked; }
    forall id | id in e.waiting ensures Fresh(Look(e.seqs, id)) {}
    SumsOverIds(e, input, items, cfg.size);
    PickTokens(items, e.waiting, e.seqs, input);
  }

  // Whom the placing leaves, though picked, does not fit.
  lemma {:induction false} LeftDoesNotFit(cfg: Config, order: seq<Id>, k: nat, picked: set<Id>, seqs: SeqMap, free: int, y: Id)
    requires cfg.Valid() && k <= |order|
    requires y in Left(cfg, order, k, picked, seqs, free) && y in picked
    ensures exists j: nat :: Misfits(cfg, order, j, picked, seqs, free, y)
    decreases k
  {
    if y in Left(cfg, order, k - 1, picked, seqs, free) {
      LeftDoesNotFit(cfg, order, k - 1, picked, seqs, free, y);
    } else {
      LastIsLeft(cfg, order, k, picked, seqs, free, y);
    }
  }

  lemma LastIsLeft(cfg: Config, order: seq<Id>, k: nat, picked: set<Id>, seqs: SeqMap, free: int, y: Id)
    requires cfg.Valid() && 0 < k <= |order|
    requires y in Left(cfg, order, k, picked, seqs, free) && y !in Left(cfg, order, k - 1, picked, seqs, free)
    requires y in picked
    ensures Misfits(cfg, order, k - 1, picked, seqs, free, y)
  {}

  lemma {:induction false} TakenIsPicked(cfg: Config, order: seq<Id>, k: nat, picked: set<Id>, seqs: SeqMap, free: int)
    requires cfg.Valid() && k <= |order|
    ensures forall id :: id in Taken(cfg, order, k, picked, seqs, free) ==> id in picked && id in order
    decreases k
  {
    if k > 0 { TakenIsPicked(cfg, order, k - 1, picked, seqs, free); }
  }

  lemma {:induction false} LeftIsWaiting(cfg: Config, order: seq<Id>, k: nat, picked: set<Id>, seqs: SeqMap, free: int)
    requires cfg.Valid() && k <= |order|
    ensures forall id :: id in Left(cfg, order, k, picked, seqs, free) ==> id in order
    decreases k
  {
    if k > 0 { LeftIsWaiting(cfg, order, k - 1, picked, seqs, free); }
  }

  /** The law of deadlines: if a step takes one request and leaves waiting another that is more
      urgent, the other would have overflowed the tokens of the batch, decodes and prompts at least as
      urgent taken into account, or it did not fit above the watermark. */
  lemma MoreUrgentIsLeftOnlyForRoom(cfg: Config, e: Engine, input: LpInput, x: Id, y: Id)
    requires LpInv(cfg, e)
    requires var p := LowPriority.Schedule(cfg, e, input);
             x in p.scheduled && x !in e.running && y in p.engine.waiting && y !in e.running
    requires Before(e, input, y, x)
    ensures (exists ahead :: Overflowing(cfg, e, input, y, ahead)) || Unplaceable(cfg, e, input, y)
  {
    var r := Decodes(cfg, e);
    PlanInClosedForm(cfg, e, input);
    DecodeLists(cfg, e);
    if Prefills(cfg, e) {
      var picked, n := Picked(cfg, e, input), |e.waiting|;
      TakenIsPicked(cfg, e.waiting, n, picked, e.seqs, r.pool.free);
      LeftIsWaiting(cfg, e.waiting, n, picked, e.seqs, r.pool.free);
      if y in picked {
        LeftDoesNotFit(cfg, e.waiting, n, picked, e.seqs, r.pool.free, y);
      } else {
        var ahead := PassedOverflows(cfg, e, input, x, y);
      }
    }
  }

  /** Promotion. */

  predicate Late(e: Engine, late: set<Id>, id: Id) { id in late && !Look(e.seqs, id).everScheduled }

  function LateOf(ids: seq<Id>, e: Engine, late: set<Id>): seq<Id> {
    if ids == [] then [] else (if Late(e, late, ids[0]) then [ids[0]] else []) + LateOf(ids[1..], e, late)
  }

  function OthersOf(ids: seq<Id>, e: Engine, late: set<Id>): seq<Id> {
    if ids == [] then [] else (if Late(e, late, ids[0]) then [] else [ids[0]]) + OthersOf(ids[1..], e, late)
  }

  lemma {:induction false} LateAreSplit(ids: seq<Id>, e: Engine, late: set<Id>)
    requires forall id :: id in ids ==> id in e.waiting
    ensures Within(ids, Promotable(e, late)) == LateOf(ids, e, late)
    ensures Without(ids, Promotable(e, late)) == OthersOf(ids, e, late)
  {
    if ids != [] {
      assert ids[0] in ids;
      forall id | id in ids[1..] ensures id in e.waiting { assert id in ids; }
      LateAreSplit(ids[1..], e, late);
    }
  }

  lemma {:induction false} LateMembers(ids: seq<Id>, e: Engine, late: set<Id>)
    ensures forall id :: id in LateOf(ids, e, late) <==> id in ids && Late(e, late, id)
  {
    if ids != [] {
      assert ids == [ids[0]] + ids[1..];
      LateMembers(ids[1..], e, late);
    }
  }

  /** Behind the schedule call, exactly the late ones that never ran are handed over, the last of the
      waiting list first, and the others wait in reverse. */
  lemma HandsOverLate(cfg: Config, e: Engine, input: LpInput)
    requires LpInv(cfg, e)
    ensures var p := LowPriority.Schedule(cfg, PrefillFirst.Abort(e, input.aborts), input);
            var o := Step(cfg, e, input);
            && o.promoted == Reverse(LateOf(p.engine.waiting, p.engine, input.late))
            && o.engine.waiting == Reverse(OthersOf(p.engine.waiting, p.engine, input.late))
  {
    var p := LowPriority.Schedule(cfg, PrefillFirst.Abort(e, input.aborts), input);
    LateAreSplit(p.engine.waiting, p.engine, input.late);
    StepHandsOver(cfg, e, input);
  }

  lemma StepHandsOver(cfg: Config, e: Engine, input: LpInput)
    requires cfg.Valid()
    ensures var p := LowPriority.Schedule(cfg, PrefillFirst.Abort(e, input.aborts), input);
            && Step(cfg, e, input).promoted == Promoted(p.engine, input.late)
            && Step(cfg, e, input).engine.waiting == Offload(p.engine, input.late).waiting
  {
    var p := LowPriority.Schedule(cfg, PrefillFirst.Abort(e, input.aborts), input);
    var f := Offload(p.engine, input.late);
    CompleteConserves(f, p.victims, p.scheduled, DefaultChunks(p.scheduled, f.seqs), input.samples);
  }

  // Whoever waits is taken, dropped or left.
  lemma {:induction false} NobodyVanishes(cfg: Config, order: seq<Id>, k: nat, picked: set<Id>, seqs: SeqMap, free: int)
    requires cfg.Valid() && k <= |order|
    ensures forall id :: id in order[..k] ==>
              id in Taken(cfg, order, k, picked, seqs, free) || id in Dropped(cfg, order, k, picked, seqs)
              || id in Left(cfg, order, k, picked, seqs, free)
    decreases k
  {
    if k > 0 {
      NobodyVanishes(cfg, order, k - 1, picked, seqs, free);
      assert order[..k] == order[..k - 1] + [order[k - 1]];
    }
  }

  lemma NobodyOfAllVanishes(cfg: Config, order: seq<Id>, picked: set<Id>, seqs: SeqMap, free: int)
    requires cfg.Valid()
    ensures forall id :: id in order ==>
              id in Taken(cfg, order, |order|, picked, seqs, free) || id in Dropped(cfg, order, |order|, picked, seqs)
              || id in Left(cfg, order, |order|, picked, seqs, free)
  {
    assert order[..|order|] == order;
    NobodyVanishes(cfg, order, |order|, picked, seqs, free);
  }

  lemma StaysWaitingUnlessTaken(cfg: Config, e: Engine, input: LpInput, id: Id)
    requires LpInv(cfg, e) && id in e.waiting
    ensures var p := LowPriority.Schedule(cfg, e, input);
            id in p.engine.waiting || id in p.scheduled || id in p.ignored
  {
    PlanInClosedForm(cfg, e, input);
    if Prefills(cfg, e) {
      NobodyOfAllVanishes(cfg, e.waiting, Picked(cfg, e, input), e.seqs, Decodes(cfg, e).pool.free);
    }
  }

  lemma WaitingIsNotTaken(cfg: Config, e: Engine, input: LpInput, id: Id)
    requires LpInv(cfg, e)
    requires id in LowPriority.Schedule(cfg, e, input).engine.waiting
    ensures var p := LowPriority.Schedule(cfg, e, input); id !in p.scheduled && id !in p.ignored
    ensures Look(LowPriority.Schedule(cfg, e, input).engine.seqs, id) == Look(e.seqs, id)
  {
    var r := Decodes(cfg, e);
    ScheduleOk(cfg, e, input);
    DistinctSum(LowPriority.Schedule(cfg, e, input).engine.waiting, LowPriority.Schedule(cfg, e, input).engine.running);
    PlanInClosedForm(cfg, e, input);
    DecodeFacts(cfg, e);
    if Prefills(cfg, e) {
      PlacedFacts(cfg, e, input);
      PrefillFirst.AdmittingMembers(cfg, AfterDecode(e, r), AsAdmission(PlacingOf(cfg, e, input)));
      NoTail(PlacingOf(cfg, e, input).waiting);
    }
  }

  /** So a request is handed over if and only if it is waiting, late, has never been scheduled, and is
      neither dropped nor, in this very step, taken or ignored. */
  lemma HandedOverExactly(cfg: Config, e: Engine, input: LpInput, id: Id)
    requires LpInv(cfg, e)
    ensures var p := LowPriority.Schedule(cfg, PrefillFirst.Abort(e, input.aborts), input);
            id in Step(cfg, e, input).promoted
            <==> id in e.waiting && id !in input.aborts && Late(e, input.late, id) && id !in p.scheduled && id !in p.ignored
  {
    var p := LowPriority.Schedule(cfg, PrefillFirst.Abort(e, input.aborts), input);
    HandsOverLate(cfg, e, input);
    LateMembers(p.engine.waiting, p.engine, input.late);
    PermutationMembers(Reverse(LateOf(p.engine.waiting, p.engine, input.late)), LateOf(p.engine.waiting, p.engine, input.late));
    LateIsLeft(cfg, e, input, id);
  }

  // Late behind the schedule call is late before it, and neither dropped, taken nor ignored.
  lemma LateIsLeft(cfg: Config, e: Engine, input: LpInput, id: Id)
    requires LpInv(cfg, e)
    ensures var p := LowPriority.Schedule(cfg, PrefillFirst.Abort(e, input.aborts), input);
            id in p.engine.waiting && Late(p.engine, input.late, id)
            <==> id in e.waiting && id !in input.aborts && Late(e, input.late, id) && id !in p.scheduled && id !in p.ignored
  {
    var b := PrefillFirst.Abort(e, input.aborts);
    var p := LowPriority.Schedule(cfg, b, input);
    PrefillFirst.AbortKeepsInv(cfg, e, input.aborts);
    AbortLeaves(e, input.aborts, id);
    if id in p.engine.waiting {
      WaitingIsNotTaken(cfg, b, input, id);
      if Late(p.engine, input.late, id) { NeverRanWaited(cfg, b, input, id); }
    } else if id in b.waiting {
      StaysWaitingUnlessTaken(cfg, b, input, id);
    }
  }

  lemma AbortLeaves(e: Engine, aborts: set<Id>, id: Id)
    ensures id in PrefillFirst.Abort(e, aborts).waiting <==> id in e.waiting && id !in aborts
    ensures Look(PrefillFirst.Abort(e, aborts).seqs, id).everScheduled == Look(e.seqs, id).everScheduled
  {
    WithoutWithin(e.waiting, aborts);
  }

  // What waits behind the schedule call and never ran was waiting before it.
  lemma NeverRanWaited(cfg: Config, e: Engine, input: LpInput, id: Id)
    requires LpInv(cfg, e)
    requires id in LowPriority.Schedule(cfg, e, input).engine.waiting && !Look(e.seqs, id).everScheduled
    ensures id in e.waiting
  {
    var r := Decodes(cfg, e);
    PlanInClosedForm(cfg, e, input);
    DecodeLists(cfg, e);
    if Prefills(cfg, e) { LeftIsWaiting(cfg, e.waiting, |e.waiting|, Picked(cfg, e, input), e.seqs, r.pool.free); }
  }

  /** An idle engine. */

  lemma OneOfferIsPicked(o: Offer, b: Budget, size: nat)
    requires size > 0
    ensures 0 in Solution([o], b, size).picked <==>
              b.compute > 0.0 && b.blocks > 0 && b.batch > 0 && b.maxTokens > 0 && o.remaining <= b.maxTokens
  {
    var s := StartPick([o], b);
    assert multiset(s.queue) == multiset(Range(1));
    PermutationMembers(s.queue, Range(1));
    assert Range(1) == [0] && |s.queue| == |multiset(s.queue)| == 1;
    assert s.queue[0] in s.queue;
    if !Spent(s, b) {
      var n := Consider(s, [o], b, size);
      assert n.queue == [];
      assert Pick(n, [o], b, size) == n;
    }
  }

  // Nothing runs, so nothing is decoded and all blocks are free.
  lemma IdleDecodes(cfg: Config, e: Engine)
    requires LpInv(cfg, e) && e.running == []
    ensures Decodes(cfg, e) == Start([], e.pool) && e.pool.free == cfg.numBlocks
  {
    PermutationMembers(ByArrival(e.running, e.seqs), []);
    assert ByArrival(e.running, e.seqs) == [];
    assert Total([], e.pool) == 0;
  }

  /** It takes its only request exactly when that is within the prompt limit and the tokens of a
      batch, fits above the watermark, and there is compute to spend at all. */
  lemma IdleTakesLoneExactly(cfg: Config, e: Engine, input: LpInput, id: Id)
    requires LpInv(cfg, e)
    requires e.running == [] && e.waiting == [id]
    ensures var v := Look(e.seqs, id);
            LowPriority.Schedule(cfg, e, input).scheduled == [id]
            <==> && input.flops > 0.0
                 && v.Len() <= cfg.limit && v.Len() <= cfg.maxBatched
                 && v.Need(cfg.size) + cfg.watermark <= cfg.numBlocks
  {
    var v := Look(e.seqs, id);
    assert id in e.waiting && Fresh(v);
    BlocksPositive(v.Len(), cfg.size);
    IdleDecodes(cfg, e);
    PlanInClosedForm(cfg, e, input);
    if Prefills(cfg, e) {
      LoneIsPicked(cfg, e, input, id);
      LoneIsTaken(cfg, id, Picked(cfg, e, input), e.seqs, e.pool.free);
    }
  }

  lemma LoneIsPicked(cfg: Config, e: Engine, input: LpInput, id: Id)
    requires LpInv(cfg, e)
    requires e.running == [] && e.waiting == [id]
    ensures id in Picked(cfg, e, input)
            <==> input.flops > 0.0 && cfg.numBlocks > 0 && cfg.maxBatched > 0 && Look(e.seqs, id).Len() <= cfg.maxBatched
  {
    assert id in e.waiting && Fresh(Look(e.seqs, id));
    IdleDecodes(cfg, e);
    var offers := Offers(e.waiting, e.seqs, input);
    assert offers == [OfferOf(id, Look(e.seqs, id), input)];
    OneOfferIsPicked(offers[0], SolverBudget(cfg, Decodes(cfg, e), input), cfg.size);
    if 0 in Chosen(cfg, e, input).picked { assert e.waiting[0] in Picked(cfg, e, input); }
  }

  lemma LoneIsTaken(cfg: Config, id: Id, picked: set<Id>, seqs: SeqMap, free: int)
    requires cfg.Valid()
    ensures var v := Look(seqs, id);
            Taken(cfg, [id], 1, picked, seqs, free)
            == if id in picked && v.Len() <= cfg.limit && free - v.Need(cfg.size) >= cfg.watermark then [id] else []
  {
    assert Taken(cfg, [id], 0, picked, seqs, free) == [];
  }
}
