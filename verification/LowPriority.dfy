/** The low-priority scheduler: decode first, then fill the rest of the batch with whole
    prompts chosen by the solver, then hand late, never scheduled requests over for promotion. */
module LowPriority {
  import opened Lists
  import opened Sequences
  import opened BlockPool
  import opened Reserve
  import opened EngineCore
  import opened DecodePhase
  import opened Deadline
  import opened Solver
  import PrefillFirst

  datatype LpInput = LpInput(
    aborts: set<Id>,
    clock: Clock,
    ttft: real,
    compute: map<Id, real>,   // estimated compute of each prompt
    flops: real,              // GPU_FLOPS
    late: set<Id>,            // would miss the first-token deadline here
    samples: map<Id, Sample>)

  function OfferOf(id: Id, v: SeqView, input: LpInput): Offer {
    Offer(id, DeadlineValue(Slack(input.ttft, input.clock, id, v)),
          if |v.prompt| > v.processed then |v.prompt| - v.processed else 0,
          Deadline.At(input.compute, id))
  }

  function Offers(ids: seq<Id>, seqs: SeqMap, input: LpInput): (r: seq<Offer>)
    ensures |r| == |ids|
    ensures forall i :: 0 <= i < |ids| ==> r[i] == OfferOf(ids[i], Look(seqs, ids[i]), input)
  {
    seq(|ids|, i requires 0 <= i < |ids| => OfferOf(ids[i], Look(seqs, ids[i]), input))
  }

  /** Placing the solver's picks. */

  datatype Placing = Placing(
    queue: seq<Id>,      // waiting sequences still to be looked at
    waiting: seq<Id>,    // tmp_waiting
    running: seq<Id>,
    pool: Pool,
    admitted: seq<Id>,
    ignored: seq<Id>)

  function PlaceNext(cfg: Config, p: Placing, picked: set<Id>, seqs: SeqMap): Placing
    requires cfg.Valid()
    requires p.queue != []
  {
    var id, rest := p.queue[0], p.queue[1..];
    var v := Look(seqs, id);
    if id !in picked then
      p.(queue := rest, waiting := p.waiting + [id])
    else if v.Len() > cfg.limit then
      p.(queue := rest, ignored := p.ignored + [id])
    else if p.pool.free - v.Need(cfg.size) < cfg.watermark then
      p.(queue := rest, waiting := p.waiting + [id])
    else
      Placing(rest, p.waiting, p.running + [id], p.pool.Allocate(id, v.Need(cfg.size)), p.admitted + [id], p.ignored)
  }

  function Place(cfg: Config, p: Placing, picked: set<Id>, seqs: SeqMap): Placing
    requires cfg.Valid()
    decreases |p.queue|
  {
    if p.queue == [] then p else Place(cfg, PlaceNext(cfg, p, picked, seqs), picked, seqs)
  }

  // What the loop may rely on: a waiting sequence has no table and was not ignored.
  ghost predicate Open(p: Placing) {
    && Distinct(p.queue)
    && forall id :: id in p.queue ==> id !in p.pool.held && id !in p.ignored
  }

  lemma PlaceNextOpen(cfg: Config, p: Placing, picked: set<Id>, seqs: SeqMap)
    requires cfg.Valid()
    requires p.queue != []
    requires Open(p)
    ensures Open(PlaceNext(cfg, p, picked, seqs))
  {
    DistinctTail(p.queue);
  }

  /** One schedule call. */

  datatype Plan = Plan(engine: Engine, victims: seq<Id>, scheduled: seq<Id>, ignored: seq<Id>)

  function SolverBudget(cfg: Config, r: Reservation, input: LpInput): Budget {
    Budget(input.flops, r.pool.free, cfg.maxSeqs - |r.kept|, cfg.maxBatched - |r.kept|)
  }

  function PickedIds(cfg: Config, waiting: seq<Id>, r: Reservation, seqs: SeqMap, input: LpInput): set<Id>
    requires cfg.Valid()
  {
    var g := Solution(Offers(waiting, seqs, input), SolverBudget(cfg, r, input), cfg.size);
    set i | i in g.picked && i < |waiting| :: waiting[i]
  }

  // Nothing to prefill, no memory, a preemption in this very step, or no room in the batch.
  predicate DecodeOnly(cfg: Config, waiting: seq<Id>, r: Reservation) {
    || waiting == []
    || r.pool.free == 0
    || r.victims != []
    || |r.kept| >= cfg.maxSeqs
    || |r.kept| >= cfg.maxBatched
  }

  // The placing of a step with prefills.
  function PlacingOf(cfg: Config, e: Engine, input: LpInput): Placing
    requires cfg.Valid()
  {
    var r := Decode(cfg, e, ByKept(cfg.maxSeqs));
    var f := AfterDecode(e, r);
    Place(cfg, Placing(f.waiting, [], f.running, f.pool, [], []), PickedIds(cfg, f.waiting, r, e.seqs, input), e.seqs)
  }

  function Schedule(cfg: Config, e: Engine, input: LpInput): Plan
    requires cfg.Valid()
  {
    var r := Decode(cfg, e, ByKept(cfg.maxSeqs));
    var f := AfterDecode(e, r);
    if DecodeOnly(cfg, f.waiting, r) then Plan(f, r.victims, r.slots, [])
    else
      var p := PlacingOf(cfg, e, input);
      Plan(Engine(p.waiting, p.running, Mark(e.seqs, p.ignored, FINISHED_IGNORED), p.pool),
           [], r.slots + p.admitted, p.ignored)
  }

  // _seq_offloading: late and never scheduled; the waiting list comes back reversed.
  function Promotable(e: Engine, late: set<Id>): set<Id> {
    set id | id in e.waiting && id in late && !Look(e.seqs, id).everScheduled
  }

  function Promoted(e: Engine, late: set<Id>): seq<Id> {
    Reverse(Within(e.waiting, Promotable(e, late)))
  }

  function Offload(e: Engine, late: set<Id>): Engine {
    e.(waiting := Reverse(Without(e.waiting, Promotable(e, late))))
  }

  // An empty batch is not run.
  function Dispatched(e: Engine, victims: seq<Id>, scheduled: seq<Id>, samples: map<Id, Sample>): Engine {
    if scheduled == [] then e
    else Complete(e, victims, scheduled, DefaultChunks(scheduled, e.seqs), samples)
  }

  datatype Outcome = Outcome(engine: Engine, promoted: seq<Id>)

  function Step(cfg: Config, e: Engine, input: LpInput): Outcome
    requires cfg.Valid()
  {
    var p := Schedule(cfg, PrefillFirst.Abort(e, input.aborts), input);
    var f := Offload(p.engine, input.late);
    Outcome(Dispatched(f, p.victims, p.scheduled, input.samples), Promoted(p.engine, input.late))
  }

  /** The invariant of the low-priority engine: no prompt is ever left half processed, so the
      list of partial prefills is empty between steps, and the running list fits a batch. */
  ghost predicate LpInv(cfg: Config, e: Engine) {
    && Inv(cfg, e) && NoPartials(e)
    && |e.running| <= cfg.maxSeqs
    && |e.running| <= cfg.maxBatched
  }

  // Tokens of a batch: one per decode, the whole prompt per prefill.
  function BatchTokens(scheduled: seq<Id>, seqs: SeqMap): nat {
    if scheduled == [] then 0
    else
      var v := Look(seqs, scheduled[0]);
      (if v.stageDone then 1 else |v.prompt|) + BatchTokens(scheduled[1..], seqs)
  }

  lemma {:induction false} BatchTokensAppend(a: seq<Id>, b: seq<Id>, seqs: SeqMap)
    ensures BatchTokens(a + b, seqs) == BatchTokens(a, seqs) + BatchTokens(b, seqs)
  {
    if a == [] {
      assert a + b == b;
    } else {
      assert (a + b)[1..] == a[1..] + b;
      BatchTokensAppend(a[1..], b, seqs);
    }
  }

  lemma {:induction false} DecodeTokens(ids: seq<Id>, seqs: SeqMap)
    requires forall id :: id in ids ==> Look(seqs, id).stageDone
    ensures BatchTokens(ids, seqs) == |ids|
  {
    if ids != [] { DecodeTokens(ids[1..], seqs); }
  }

  /** Placing keeps the pool in order; it is admission in the solver's order. */

  function AsAdmission(p: Placing): PrefillFirst.Admission {
    PrefillFirst.Admission(p.queue + p.waiting, p.running, p.pool, 0, p.admitted, p.ignored)
  }

  lemma PlaceNextKeeps(cfg: Config, e: Engine, p: Placing, picked: set<Id>)
    requires cfg.Valid() && Distinct(e.waiting + e.running)
    requires PrefillFirst.Admitting(cfg, e, AsAdmission(p))
    requires p.queue != []
    ensures PrefillFirst.Admitting(cfg, e, AsAdmission(PlaceNext(cfg, p, picked, e.seqs)))
  {
    var id, rest := p.queue[0], p.queue[1..];
    var n := PlaceNext(cfg, p, picked, e.seqs);
    var a, b := AsAdmission(p), AsAdmission(n);
    assert p.queue == [id] + rest;
    assert a.waiting == [id] + (rest + p.waiting);
    if n.admitted != p.admitted {
      PrefillFirst.TakeKeeps(cfg, e, a, b);
    } else {
      assert multiset(b.waiting) + multiset(b.ignored) == multiset(a.waiting) + multiset(a.ignored);
      forall x | x in b.admitted ensures PrefillFirst.Granted(cfg, e, b, x) {
        assert PrefillFirst.Granted(cfg, e, a, x);
      }
    }
  }

  lemma {:induction false} PlaceKeeps(cfg: Config, e: Engine, p: Placing, picked: set<Id>)
    requires cfg.Valid() && Distinct(e.waiting + e.running)
    requires PrefillFirst.Admitting(cfg, e, AsAdmission(p))
    ensures PrefillFirst.Admitting(cfg, e, AsAdmission(Place(cfg, p, picked, e.seqs)))
    ensures Place(cfg, p, picked, e.seqs).queue == []
    decreases |p.queue|
  {
    if p.queue != [] {
      PlaceNextKeeps(cfg, e, p, picked);
      PlaceKeeps(cfg, e, PlaceNext(cfg, p, picked, e.seqs), picked);
    }
  }

  // The prefills that join the decodes of a step.
  lemma PlaceSchedules(cfg: Config, e: Engine, slots: seq<Id>, a: PrefillFirst.Admission)
    requires Scheduled(cfg, e, [], slots, DefaultChunks(slots, e.seqs))
    requires PrefillFirst.Admitting(cfg, e, a)
    ensures var seqs := Mark(e.seqs, a.ignored, FINISHED_IGNORED);
            Scheduled(cfg, Engine(a.waiting, a.running, seqs, a.pool), [], slots + a.admitted,
                      DefaultChunks(slots + a.admitted, seqs))
  {
    var f := Engine(a.waiting, a.running, Mark(e.seqs, a.ignored, FINISHED_IGNORED), a.pool);
    var all := slots + a.admitted;
    PrefillFirst.AdmittingMembers(cfg, e, a);
    DistinctSum(e.waiting, e.running);
    forall id | id in f.waiting + f.running
      ensures Placed(cfg, f, [], all, DefaultChunks(all, f.seqs), id)
    {
      if id in a.admitted { assert PrefillFirst.Granted(cfg, e, a, id); }
      assert id in e.waiting + e.running;
      assert Placed(cfg, e, [], slots, DefaultChunks(slots, e.seqs), id);
      assert id !in a.ignored && f.seqs[id] == e.seqs[id];
    }
  }

  lemma OffloadKeepsScheduled(cfg: Config, e: Engine, late: set<Id>, victims: seq<Id>, scheduled: seq<Id>, chunks: map<Id, nat>)
    requires Scheduled(cfg, e, victims, scheduled, chunks)
    requires forall id :: id in victims ==> id in e.seqs && e.seqs[id].everScheduled
    ensures Scheduled(cfg, Offload(e, late), victims, scheduled, chunks)
    ensures multiset(e.waiting) == multiset(Offload(e, late).waiting) + multiset(Promoted(e, late))
    ensures forall id :: id in Promoted(e, late) ==>
              id in e.waiting && id in late && id !in victims && !Look(e.seqs, id).everScheduled && id !in e.running
  {
    var f := Offload(e, late);
    WithoutWithin(e.waiting, Promotable(e, late));
    PermutationMembers(f.waiting, Without(e.waiting, Promotable(e, late)));
    PermutationMembers(Promoted(e, late), Within(e.waiting, Promotable(e, late)));
    DistinctSum(e.waiting, e.running);
    forall id ensures multiset(f.waiting + f.running)[id] <= 1 {
      assert multiset(e.waiting + e.running)[id] <= 1;
    }
    forall id | id in f.waiting + f.running ensures Placed(cfg, f, victims, scheduled, chunks, id) {
      assert id in e.waiting + e.running;
      assert Placed(cfg, e, victims, scheduled, chunks, id);
    }
  }

  /** What a schedule call decides. */

  ghost predicate PlanOk(cfg: Config, p: Plan) {
    && Scheduled(cfg, p.engine, p.victims, p.scheduled, DefaultChunks(p.scheduled, p.engine.seqs))
    && (p.scheduled == [] ==> p.victims == [])
    && (forall id :: id in p.victims ==> id in p.engine.waiting && id !in p.engine.running && id in p.engine.seqs && Decoding(p.engine.seqs[id]))
    && (forall id :: id in p.engine.running ==>
          id in p.engine.seqs && (Decoding(p.engine.seqs[id]) || (id in p.scheduled && Fresh(p.engine.seqs[id]))))
    && |p.engine.running| <= cfg.maxSeqs
    && |p.engine.running| <= cfg.maxBatched
    && BatchTokens(p.scheduled, p.engine.seqs) <= cfg.maxBatched
  }

  lemma DecodeFacts(cfg: Config, e: Engine)
    requires LpInv(cfg, e)
    ensures var r := Decode(cfg, e, ByKept(cfg.maxSeqs));
            var f := AfterDecode(e, r);
            && r.slots == r.kept && |r.kept| <= |e.running|
            && PlanOk(cfg, Plan(f, r.victims, r.slots, []))
            && Distinct(f.waiting + f.running)
            && (r.victims == [] ==> f.waiting == e.waiting)
            && (forall id :: id in f.running ==> Decoding(Look(f.seqs, id)))
            && (r.victims == [] ==> forall id :: id in f.waiting ==> Fresh(Look(f.seqs, id)))
  {
    DecodeLists(cfg, e);
    DecodePlanOk(cfg, e);
    NoTail(e.waiting);
  }

  lemma DecodeLists(cfg: Config, e: Engine)
    requires LpInv(cfg, e)
    ensures var r := Decode(cfg, e, ByKept(cfg.maxSeqs));
            var f := AfterDecode(e, r);
            && r.slots == r.kept && |r.kept| <= |e.running|
            && Distinct(f.waiting + f.running)
            && (forall id :: id in f.running ==> id in e.running)
            && (forall id :: id in r.victims ==> id in e.running && id in f.waiting && id !in f.running)
  {
    var cap := ByKept(cfg.maxSeqs);
    var r := Decode(cfg, e, cap);
    DecodeOwns(cfg, e, cap);
    DecodeMoves(cfg, e, cap);
    assert |multiset(r.kept)| <= |multiset(e.running)|;
  }

  lemma DecodePlanOk(cfg: Config, e: Engine)
    requires LpInv(cfg, e)
    ensures var r := Decode(cfg, e, ByKept(cfg.maxSeqs));
            PlanOk(cfg, Plan(AfterDecode(e, r), r.victims, r.slots, []))
  {
    DecodeLists(cfg, e);
    DecodeBatch(cfg, e);
    DecodeSchedules(cfg, e, ByKept(cfg.maxSeqs));
  }

  // A decode batch holds a token per sequence, and is empty only with nothing running.
  lemma DecodeBatch(cfg: Config, e: Engine)
    requires LpInv(cfg, e)
    ensures var r := Decode(cfg, e, ByKept(cfg.maxSeqs));
            && BatchTokens(r.slots, e.seqs) == |r.slots|
            && (r.slots == [] ==> r.victims == [])
  {
    var cap := ByKept(cfg.maxSeqs);
    DecodeOwns(cfg, e, cap);
    DecodeMoves(cfg, e, cap);
    DecodeTokens(Decode(cfg, e, cap).slots, e.seqs);
    if e.running != [] { OldestIsSafe(cfg, e, cap); }
  }

  /** The solver's totals bound what is placed. */

  function IdsOf(items: seq<nat>, ids: seq<Id>): seq<Id> {
    if items == [] then []
    else (if items[0] < |ids| then [ids[items[0]]] else []) + IdsOf(items[1..], ids)
  }

  lemma TokensAt(ids: seq<Id>, i: nat, seqs: SeqMap)
    requires i < |ids|
    ensures BatchTokens(ids, seqs) == BatchTokens([ids[i]], seqs) + BatchTokens(ids[..i] + ids[i + 1..], seqs)
  {
    assert ids == ids[..i] + ([ids[i]] + ids[i + 1..]);
    BatchTokensAppend(ids[..i], [ids[i]] + ids[i + 1..], seqs);
    BatchTokensAppend([ids[i]], ids[i + 1..], seqs);
    BatchTokensAppend(ids[..i], ids[i + 1..], seqs);
  }

  lemma {:induction false} SubTokens(a: seq<Id>, b: seq<Id>, seqs: SeqMap)
    requires multiset(a) <= multiset(b)
    ensures BatchTokens(a, seqs) <= BatchTokens(b, seqs)
    ensures |a| <= |b|
    decreases |a|
  {
    if a != [] {
      var x, tail := a[0], a[1..];
      assert a == [x] + tail;
      assert multiset(a)[x] <= multiset(b)[x];
      assert x in b;
      var i :| 0 <= i < |b| && b[i] == x;
      var rest := b[..i] + b[i + 1..];
      assert b == b[..i] + [x] + b[i + 1..];
      assert multiset(b) == multiset(rest) + multiset{x};
      assert multiset(a) == multiset(tail) + multiset{x};
      forall y ensures multiset(tail)[y] <= multiset(rest)[y] {
        assert multiset(a)[y] <= multiset(b)[y];
      }
      SubTokens(tail, rest, seqs);
      TokensAt(b, i, seqs);
      BatchTokensAppend([x], tail, seqs);
    }
  }

  lemma {:induction false} PickTokens(items: seq<nat>, ids: seq<Id>, seqs: SeqMap, input: LpInput)
    requires forall i: nat :: i in items ==> i < |ids|
    requires forall id :: id in ids ==> Fresh(Look(seqs, id))
    ensures Tokens(items, Offers(ids, seqs, input)) == BatchTokens(IdsOf(items, ids), seqs)
    ensures |IdsOf(items, ids)| == |items|
    ensures forall i: nat :: i in items ==> ids[i] in IdsOf(items, ids)
  {
    if items != [] {
      var rest := items[1..];
      assert items == [items[0]] + rest;
      assert items[0] in items;
      forall i: nat | i in rest ensures i < |ids| { assert i in items; }
      PickTokens(rest, ids, seqs, input);
      var id := ids[items[0]];
      assert IdsOf(items, ids) == [id] + IdsOf(rest, ids);
      assert id in ids;
    }
  }

  lemma {:induction false} PlacedWerePicked(cfg: Config, p: Placing, picked: set<Id>, seqs: SeqMap)
    requires cfg.Valid()
    requires forall id :: id in p.admitted ==> id in picked
    ensures forall id :: id in Place(cfg, p, picked, seqs).admitted ==> id in picked
    decreases |p.queue|
  {
    if p.queue != [] { PlacedWerePicked(cfg, PlaceNext(cfg, p, picked, seqs), picked, seqs); }
  }

  lemma DistinctIsSub(a: seq<Id>, b: seq<Id>)
    requires Distinct(a)
    requires forall id :: id in a ==> id in b
    ensures multiset(a) <= multiset(b)
  {
    forall id ensures multiset(a)[id] <= multiset(b)[id] {
      assert id in a <==> id in multiset(a);
      assert id in b <==> id in multiset(b);
    }
  }

  // The admitted prompts respect both budgets the solver was given.
  lemma AdmittedWithinBudget(cfg: Config, waiting: seq<Id>, r: Reservation, seqs: SeqMap, input: LpInput, admitted: seq<Id>)
    requires cfg.Valid()
    requires forall id :: id in waiting ==> Fresh(Look(seqs, id))
    requires |r.kept| < cfg.maxSeqs && |r.kept| < cfg.maxBatched
    requires Distinct(admitted)
    requires forall id :: id in admitted ==> id in PickedIds(cfg, waiting, r, seqs, input)
    ensures |admitted| <= cfg.maxSeqs - |r.kept|
    ensures BatchTokens(admitted, seqs) <= cfg.maxBatched - |r.kept|
    ensures |admitted| <= BatchTokens(admitted, seqs)
  {
    var offers := Offers(waiting, seqs, input);
    var b := SolverBudget(cfg, r, input);
    var g := Solution(offers, b, cfg.size);
    SolutionIsGreedy(offers, b, cfg.size);
    PickedInRange(g, offers, b);
    PickTokens(g.picked, waiting, seqs, input);
    var ids := IdsOf(g.picked, waiting);
    forall id | id in admitted ensures id in ids && id in waiting {}
    DistinctIsSub(admitted, ids);
    SubTokens(admitted, ids, seqs);
    FreshTokens(admitted, seqs);
  }

  lemma PickedInRange(g: Greedy, offers: seq<Offer>, b: Budget)
    requires Sound(g, offers, b)
    ensures forall i: nat :: i in g.picked ==> i < |offers|
  {
    var all := g.picked + g.passed + g.queue;
    PermutationMembers(all, Range(|offers|));
    forall i: nat | i in g.picked ensures i < |offers| {
      assert i in all;
      assert i in Range(|offers|);
    }
  }

  lemma {:induction false} FreshTokens(ids: seq<Id>, seqs: SeqMap)
    requires forall id :: id in ids ==> Fresh(Look(seqs, id))
    ensures |ids| <= BatchTokens(ids, seqs)
  {
    if ids != [] { FreshTokens(ids[1..], seqs); }
  }

  /** The solver only ever sees prompts with something left to process. */
  lemma OffersAreNonEmpty(cfg: Config, e: Engine, input: LpInput)
    requires LpInv(cfg, e)
    ensures var r := Decode(cfg, e, ByKept(cfg.maxSeqs));
            var w := AfterDecode(e, r).waiting;
            !DecodeOnly(cfg, w, r) ==> forall i :: 0 <= i < |w| ==> Offers(w, e.seqs, input)[i].remaining > 0
  {
    DecodeFacts(cfg, e);
  }

  lemma PlacedFacts(cfg: Config, e: Engine, input: LpInput)
    requires LpInv(cfg, e)
    requires var r := Decode(cfg, e, ByKept(cfg.maxSeqs)); !DecodeOnly(cfg, AfterDecode(e, r).waiting, r)
    ensures var r := Decode(cfg, e, ByKept(cfg.maxSeqs));
            var p := PlacingOf(cfg, e, input);
            && p.queue == []
            && PrefillFirst.Admitting(cfg, AfterDecode(e, r), AsAdmission(p))
            && |p.admitted| <= cfg.maxSeqs - |r.kept|
            && BatchTokens(p.admitted, e.seqs) <= cfg.maxBatched - |r.kept|
            && |p.admitted| <= BatchTokens(p.admitted, e.seqs)
  {
    var r := Decode(cfg, e, ByKept(cfg.maxSeqs));
    var f := AfterDecode(e, r);
    DecodeFacts(cfg, e);
    var picked := PickedIds(cfg, f.waiting, r, e.seqs, input);
    var start := Placing(f.waiting, [], f.running, f.pool, [], []);
    NoTail(f.waiting);
    NoTail(f.running);
    PlaceKeeps(cfg, f, start, picked);
    PlacedWerePicked(cfg, start, picked, e.seqs);
    var p := PlacingOf(cfg, e, input);
    OwnsMeans(p.pool, p.running, cfg.numBlocks);
    DistinctSum(f.running, p.admitted);
    AdmittedWithinBudget(cfg, f.waiting, r, e.seqs, input, p.admitted);
  }

  // Prefills joining the decodes of a step: the running list and the batch stay in budget.
  lemma JoinOk(cfg: Config, e: Engine, slots: seq<Id>, a: PrefillFirst.Admission)
    requires Scheduled(cfg, e, [], slots, DefaultChunks(slots, e.seqs))
    requires PrefillFirst.Admitting(cfg, e, a)
    requires slots == e.running
    requires forall id :: id in e.running ==> Decoding(Look(e.seqs, id))
    requires forall id :: id in e.waiting ==> Fresh(Look(e.seqs, id))
    requires |a.admitted| <= cfg.maxSeqs - |slots|
    requires BatchTokens(a.admitted, e.seqs) <= cfg.maxBatched - |slots|
    requires |a.admitted| <= BatchTokens(a.admitted, e.seqs)
    ensures var seqs := Mark(e.seqs, a.ignored, FINISHED_IGNORED);
            PlanOk(cfg, Plan(Engine(a.waiting, a.running, seqs, a.pool), [], slots + a.admitted, a.ignored))
  {
    var seqs := Mark(e.seqs, a.ignored, FINISHED_IGNORED);
    PlaceSchedules(cfg, e, slots, a);
    PrefillFirst.AdmittingMembers(cfg, e, a);
    forall id | id in a.running
      ensures id in e.seqs && seqs[id] == e.seqs[id]
      ensures Decoding(seqs[id]) || (id in a.admitted && Fresh(seqs[id]))
    {
      if id in a.admitted {
        assert PrefillFirst.Granted(cfg, e, a, id);
        assert id in e.waiting + e.running;
      } else {
        assert id in e.waiting + e.running;
      }
      assert id !in a.ignored;
    }
    SameTokens(a.admitted, e.seqs, seqs);
    SameTokens(slots, e.seqs, seqs);
    BatchTokensAppend(slots, a.admitted, seqs);
    DecodeTokens(slots, e.seqs);
  }

  lemma PrefillPlanOk(cfg: Config, e: Engine, input: LpInput)
    requires LpInv(cfg, e)
    requires var r := Decode(cfg, e, ByKept(cfg.maxSeqs)); !DecodeOnly(cfg, AfterDecode(e, r).waiting, r)
    ensures PlanOk(cfg, Schedule(cfg, e, input))
  {
    var r := Decode(cfg, e, ByKept(cfg.maxSeqs));
    var f := AfterDecode(e, r);
    DecodeFacts(cfg, e);
    PlacedFacts(cfg, e, input);
    var p := PlacingOf(cfg, e, input);
    var a := AsAdmission(p);
    NoTail(p.waiting);
    assert a.waiting == p.waiting;
    JoinOk(cfg, f, r.slots, a);
  }

  lemma {:induction false} SameTokens(ids: seq<Id>, s: SeqMap, t: SeqMap)
    requires forall id :: id in ids ==> Look(s, id) == Look(t, id)
    ensures BatchTokens(ids, s) == BatchTokens(ids, t)
  {
    if ids != [] { SameTokens(ids[1..], s, t); }
  }

  lemma ScheduleOk(cfg: Config, e: Engine, input: LpInput)
    requires LpInv(cfg, e)
    ensures PlanOk(cfg, Schedule(cfg, e, input))
  {
    var r := Decode(cfg, e, ByKept(cfg.maxSeqs));
    DecodeFacts(cfg, e);
    if !DecodeOnly(cfg, AfterDecode(e, r).waiting, r) { PrefillPlanOk(cfg, e, input); }
  }

  // What the sequence manager is given: no sequence twice, and nobody it does not know.
  lemma PlanIsDistinct(cfg: Config, e: Engine, input: LpInput)
    requires LpInv(cfg, e)
    ensures var p := Schedule(cfg, e, input);
            && Distinct(p.victims) && Distinct(p.scheduled)
            && (forall id :: id in p.victims ==> id in p.engine.waiting + p.engine.running)
  {
    var r := Decode(cfg, e, ByKept(cfg.maxSeqs));
    var f := AfterDecode(e, r);
    DecodeFacts(cfg, e);
    DistinctSum(e.waiting + r.victims, r.kept);
    DistinctSum(e.waiting, r.victims);
    if !DecodeOnly(cfg, f.waiting, r) {
      PlacedFacts(cfg, e, input);
      var p := PlacingOf(cfg, e, input);
      OwnsMeans(p.pool, p.running, cfg.numBlocks);
    }
  }

  // Offloading leaves the preempted sequences where they are.
  lemma OffloadLeavesVictims(cfg: Config, p: Plan, late: set<Id>)
    requires PlanOk(cfg, p)
    ensures forall id :: id in p.victims ==> id in Offload(p.engine, late).waiting
  {
    var e := p.engine;
    WithoutWithin(e.waiting, Promotable(e, late));
    PermutationMembers(Offload(e, late).waiting, Without(e.waiting, Promotable(e, late)));
  }

  /** Every step keeps the invariant, and with it the running-list budgets. */
  lemma StepKeepsLpInv(cfg: Config, e: Engine, input: LpInput)
    requires LpInv(cfg, e)
    ensures LpInv(cfg, Step(cfg, e, input).engine)
  {
    var b := PrefillFirst.Abort(e, input.aborts);
    PrefillFirst.AbortKeepsInv(cfg, e, input.aborts);
    ScheduleOk(cfg, b, input);
    var p := Schedule(cfg, b, input);
    var chunks := DefaultChunks(p.scheduled, p.engine.seqs);
    OffloadKeepsScheduled(cfg, p.engine, input.late, p.victims, p.scheduled, chunks);
    var f := Offload(p.engine, input.late);
    if p.scheduled == [] {
      PrefillFirst.IdlePlanKeepsInv(cfg, f, chunks);
    } else {
      CompleteInv(cfg, f, p.victims, p.scheduled, chunks, input.samples);
      PrefillFirst.CompleteLeavesNoPartials(cfg, f, p.victims, p.scheduled, input.samples);
      CompleteShrinks(f, p.victims, p.scheduled, chunks, input.samples);
    }
  }

  /** A batch never exceeds max_num_batched_tokens. */
  lemma BatchWithinTokens(cfg: Config, e: Engine, input: LpInput)
    requires LpInv(cfg, e)
    ensures var p := Schedule(cfg, PrefillFirst.Abort(e, input.aborts), input);
            && BatchTokens(p.scheduled, p.engine.seqs) <= cfg.maxBatched
            && |p.engine.running| <= cfg.maxSeqs
  {
    PrefillFirst.AbortKeepsInv(cfg, e, input.aborts);
    ScheduleOk(cfg, PrefillFirst.Abort(e, input.aborts), input);
  }

  /** A promoted request never ran here, holds no blocks, and is handed over as it arrived. */
  lemma PromotedNeverRan(cfg: Config, e: Engine, input: LpInput, id: Id)
    requires LpInv(cfg, e)
    requires id in Step(cfg, e, input).promoted
    ensures id in e.waiting && Fresh(Look(e.seqs, id)) && !Look(e.seqs, id).everScheduled
    ensures id !in e.pool.held && id in input.late
    ensures var f := Step(cfg, e, input).engine; id !in f.waiting + f.running && id !in f.pool.held
  {
    var b := PrefillFirst.Abort(e, input.aborts);
    PrefillFirst.AbortKeepsInv(cfg, e, input.aborts);
    ScheduleOk(cfg, b, input);
    var p := Schedule(cfg, b, input);
    var chunks := DefaultChunks(p.scheduled, p.engine.seqs);
    OffloadKeepsScheduled(cfg, p.engine, input.late, p.victims, p.scheduled, chunks);
    var g := Offload(p.engine, input.late);
    var f := Step(cfg, e, input).engine;
    assert id !in g.waiting && id !in g.running by {
      assert multiset(p.engine.waiting + p.engine.running)[id] <= 1;
      assert id in multiset(Promoted(p.engine, input.late));
      assert id in g.waiting <==> id in multiset(g.waiting);
    }
    if p.scheduled != [] { CompleteConserves(g, p.victims, p.scheduled, chunks, input.samples); }
    StepKeepsLpInv(cfg, e, input);
    OwnsMeans(f.pool, f.running, cfg.numBlocks);
    OwnsMeans(e.pool, e.running, cfg.numBlocks);
    DistinctSum(e.waiting, e.running);
    WaitingStays(cfg, e, input, id);
  }

  // What is waiting after scheduling and has never run was waiting before.
  lemma WaitingStays(cfg: Config, e: Engine, input: LpInput, id: Id)
    requires LpInv(cfg, e)
    requires var p := Schedule(cfg, PrefillFirst.Abort(e, input.aborts), input);
             id in p.engine.waiting && !Look(p.engine.seqs, id).everScheduled
    ensures id in e.waiting && !Look(e.seqs, id).everScheduled
  {
    var b := PrefillFirst.Abort(e, input.aborts);
    PrefillFirst.AbortKeepsInv(cfg, e, input.aborts);
    WithoutWithin(e.waiting, input.aborts);
    DecodeFacts(cfg, b);
    var r := Decode(cfg, b, ByKept(cfg.maxSeqs));
    var f := AfterDecode(b, r);
    if !DecodeOnly(cfg, f.waiting, r) {
      PlacedFacts(cfg, b, input);
      PrefillFirst.AdmittingMembers(cfg, f, AsAdmission(PlacingOf(cfg, b, input)));
      NoTail(PlacingOf(cfg, b, input).waiting);
    }
  }

  /** Runs: any arrivals and steps. */

  datatype Event = Tick(input: LpInput) | Arrival(id: Id, view: SeqView)

  function Apply(cfg: Config, e: Engine, event: Event): Engine
    requires cfg.Valid()
  {
    match event
    case Tick(input) => Step(cfg, e, input).engine
    case Arrival(id, view) => PrefillFirst.Arrive(e, id, view)
  }

  function RunOf(cfg: Config, e: Engine, events: seq<Event>): Engine
    requires cfg.Valid()
    decreases |events|
  {
    if events == [] then e else RunOf(cfg, Apply(cfg, e, events[0]), events[1..])
  }

  // Every arrival is a request that is not in the engine, untouched, and one the pool can serve.
  ghost predicate ProperRun(cfg: Config, e: Engine, events: seq<Event>)
    requires cfg.Valid()
    decreases |events|
  {
    events != [] ==>
      && (events[0].Arrival? ==>
            events[0].id !in e.waiting + e.running && Fresh(events[0].view) && cfg.Fits(events[0].view))
      && ProperRun(cfg, Apply(cfg, e, events[0]), events[1..])
  }

  lemma ArriveKeepsLpInv(cfg: Config, e: Engine, id: Id, v: SeqView)
    requires LpInv(cfg, e)
    requires id !in e.waiting + e.running
    requires Fresh(v) && cfg.Fits(v)
    ensures LpInv(cfg, PrefillFirst.Arrive(e, id, v))
  {
    PrefillFirst.ArriveKeepsInv(cfg, e, id, v);
  }

  lemma {:induction false} RunKeepsLpInv(cfg: Config, e: Engine, events: seq<Event>)
    requires LpInv(cfg, e)
    requires ProperRun(cfg, e, events)
    ensures LpInv(cfg, RunOf(cfg, e, events))
    decreases |events|
  {
    if events != [] {
      if events[0].Tick? {
        StepKeepsLpInv(cfg, e, events[0].input);
      } else {
        ArriveKeepsLpInv(cfg, e, events[0].id, events[0].view);
      }
      RunKeepsLpInv(cfg, Apply(cfg, e, events[0]), events[1..]);
    }
  }

  /** Over every run from the idle engine: the running list stays within both limits and no
      prompt is half processed; the next batch stays within the token limit; and whoever it hands
      over for promotion holds no blocks and has never been scheduled. */
  lemma EveryRunIsInBudget(cfg: Config, events: seq<Event>, next: LpInput)
    requires cfg.Valid()
    requires ProperRun(cfg, PrefillFirst.Idle(cfg), events)
    ensures var e := RunOf(cfg, PrefillFirst.Idle(cfg), events);
            && NoPartials(e)
            && |e.running| <= cfg.maxSeqs && |e.running| <= cfg.maxBatched
            && e.pool.free + Total(e.running, e.pool) == cfg.numBlocks
    ensures var e := RunOf(cfg, PrefillFirst.Idle(cfg), events);
            var p := Schedule(cfg, PrefillFirst.Abort(e, next.aborts), next);
            BatchTokens(p.scheduled, p.engine.seqs) <= cfg.maxBatched
    ensures var e := RunOf(cfg, PrefillFirst.Idle(cfg), events);
            forall id :: id in Step(cfg, e, next).promoted ==>
              id !in e.pool.held && Fresh(Look(e.seqs, id)) && !Look(e.seqs, id).everScheduled
  {
    PrefillFirst.IdleInv(cfg);
    RunKeepsLpInv(cfg, PrefillFirst.Idle(cfg), events);
    NextIsInBudget(cfg, RunOf(cfg, PrefillFirst.Idle(cfg), events), next);
  }

  lemma NextIsInBudget(cfg: Config, e: Engine, input: LpInput)
    requires LpInv(cfg, e)
    ensures NoPartials(e) && |e.running| <= cfg.maxSeqs && |e.running| <= cfg.maxBatched
    ensures e.pool.free + Total(e.running, e.pool) == cfg.numBlocks
    ensures var p := Schedule(cfg, PrefillFirst.Abort(e, input.aborts), input);
            BatchTokens(p.scheduled, p.engine.seqs) <= cfg.maxBatched
    ensures forall id :: id in Step(cfg, e, input).promoted ==>
              id !in e.pool.held && Fresh(Look(e.seqs, id)) && !Look(e.seqs, id).everScheduled
  {
    LpInvMeans(cfg, e);
    BatchWithinTokens(cfg, e, input);
    PromotedWereFresh(cfg, e, input);
  }

  lemma LpInvMeans(cfg: Config, e: Engine)
    requires LpInv(cfg, e)
    ensures NoPartials(e) && |e.running| <= cfg.maxSeqs && |e.running| <= cfg.maxBatched
    ensures e.pool.free + Total(e.running, e.pool) == cfg.numBlocks
  {}

  lemma PromotedWereFresh(cfg: Config, e: Engine, input: LpInput)
    requires LpInv(cfg, e)
    ensures forall id :: id in Step(cfg, e, input).promoted ==>
              id !in e.pool.held && Fresh(Look(e.seqs, id)) && !Look(e.seqs, id).everScheduled
  {
    forall id | id in Step(cfg, e, input).promoted
      ensures id !in e.pool.held && Fresh(Look(e.seqs, id)) && !Look(e.seqs, id).everScheduled
    {
      PromotedNeverRan(cfg, e, input, id);
    }
  }
}
