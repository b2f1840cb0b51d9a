/** The worker keeps a block manager of its own and is never sent a block table: it replays what
    it is told was preempted, scheduled and finished. Its pool stays the scheduler's. */
module Worker {
  import opened Lists
  import opened Sequences
  import opened BlockPool
  import opened Reserve
  import opened EngineCore
  import opened DecodePhase
  import opened Deadline
  import opened PrefillFirst

  // _on_seq_scheduled: a slot for a sequence with a table, a table for one without.
  function ServeOne(w: Pool, id: Id, need: nat): Pool {
    if id in w.held then w.AppendSlot(id, need)
    else if need <= w.free then w.Allocate(id, need)
    else w
  }

  function Serve(w: Pool, ids: seq<Id>, seqs: SeqMap, size: nat): Pool
    requires size > 0
    decreases |ids|
  {
    if ids == [] then w
    else Serve(ServeOne(w, ids[0], Look(seqs, ids[0]).Need(size)), ids[1..], seqs, size)
  }

  // The worker's assertion that it can allocate holds, and its allocator never runs empty.
  ghost predicate CanServe(w: Pool, ids: seq<Id>, seqs: SeqMap, cfg: Config)
    requires cfg.Valid()
    decreases |ids|
  {
    ids != [] ==>
      var need := Look(seqs, ids[0]).Need(cfg.size);
      && (if ids[0] in w.held then w.Held(ids[0]) < need ==> w.free > 0 else w.free - need >= cfg.watermark)
      && CanServe(ServeOne(w, ids[0], need), ids[1..], seqs, cfg)
  }

  /** One step of the worker: a batch is replayed, a step without one is not sent. */
  function WorkerStep(kind: Kind, cfg: Config, w: Pool, e: Engine, input: Input): Pool
    requires cfg.Valid()
  {
    var p := Schedule(kind, cfg, Abort(e, input.aborts), input.clock);
    var f := Step(kind, cfg, e, input);
    if p.scheduled == [] then w
    else Serve(w.ReleaseAll(p.victims), p.scheduled, p.engine.seqs, cfg.size)
           .ReleaseAll(Within(p.scheduled, FinishedOf(p.scheduled, f.seqs)))
  }

  ghost predicate WorkerAccepts(kind: Kind, cfg: Config, w: Pool, e: Engine, input: Input)
    requires cfg.Valid()
  {
    var p := Schedule(kind, cfg, Abort(e, input.aborts), input.clock);
    CanServe(w.ReleaseAll(p.victims), p.scheduled, p.engine.seqs, cfg)
  }

  /** Admission is replayed allocation by allocation. */

  lemma {:induction false} ServeSnoc(w: Pool, ids: seq<Id>, x: Id, seqs: SeqMap, cfg: Config)
    requires cfg.Valid()
    ensures var v := Serve(w, ids, seqs, cfg.size);
            var need := Look(seqs, x).Need(cfg.size);
            && Serve(w, ids + [x], seqs, cfg.size) == ServeOne(v, x, need)
            && (CanServe(w, ids, seqs, cfg) && x !in v.held && v.free - need >= cfg.watermark
                ==> CanServe(w, ids + [x], seqs, cfg))
    decreases |ids|
  {
    if ids == [] {
      assert [] + [x] == [x] && [x][1..] == [];
    } else {
      assert (ids + [x])[1..] == ids[1..] + [x];
      ServeSnoc(ServeOne(w, ids[0], Look(seqs, ids[0]).Need(cfg.size)), ids[1..], x, seqs, cfg);
    }
  }

  ghost predicate Replayed(cfg: Config, w: Pool, a: Admission, seqs: SeqMap)
    requires cfg.Valid()
  {
    && Open(a)
    && Serve(w, a.admitted, seqs, cfg.size) == a.pool
    && CanServe(w, a.admitted, seqs, cfg)
  }

  lemma {:induction false} AdmissionReplays(kind: Kind, cfg: Config, w: Pool, a: Admission, seqs: SeqMap)
    requires cfg.Valid()
    requires Replayed(cfg, w, a, seqs)
    ensures Replayed(cfg, w, Admit(kind, cfg, a, seqs), seqs)
    decreases |a.waiting|
  {
    if !Stops(kind, cfg, a, seqs) {
      var n := AdmitNext(kind, cfg, a, seqs);
      AdmitNextOpen(kind, cfg, a, seqs);
      assert a.waiting[0] in a.waiting;
      ServeSnoc(w, a.admitted, a.waiting[0], seqs, cfg);
      assert Replayed(cfg, w, n, seqs);
      AdmissionReplays(kind, cfg, w, n, seqs);
    }
  }

  /** Decodes are replayed after all the preemptions, which the scheduler had interleaved. */

  // Blocks still missing from the tables of a list.
  function Missing(ids: seq<Id>, p: Pool, seqs: SeqMap, size: nat): int
    requires size > 0
  {
    if ids == [] then 0 else Look(seqs, ids[0]).Need(size) - p.Held(ids[0]) + Missing(ids[1..], p, seqs, size)
  }

  lemma {:induction false} MissingFrame(ids: seq<Id>, p: Pool, q: Pool, seqs: SeqMap, size: nat)
    requires size > 0
    requires forall id :: id in ids ==> p.Held(id) == q.Held(id)
    ensures Missing(ids, p, seqs, size) == Missing(ids, q, seqs, size)
  {
    if ids != [] { MissingFrame(ids[1..], p, q, seqs, size); }
  }

  lemma {:induction false} MissingIsNotNegative(ids: seq<Id>, p: Pool, seqs: SeqMap, size: nat)
    requires size > 0
    requires forall id :: id in ids ==> OneShort(id, seqs, p, size)
    ensures Missing(ids, p, seqs, size) >= 0
  {
    if ids != [] {
      assert ids[0] in ids;
      MissingIsNotNegative(ids[1..], p, seqs, size);
    }
  }

  // What is missing is what full tables would take more.
  lemma {:induction false} MissingFills(ids: seq<Id>, p: Pool, q: Pool, seqs: SeqMap, size: nat)
    requires size > 0
    requires forall id :: id in ids ==> q.Held(id) == Look(seqs, id).Need(size)
    ensures Total(ids, q) == Total(ids, p) + Missing(ids, p, seqs, size)
  {
    if ids != [] {
      assert ids[0] in ids;
      MissingFills(ids[1..], p, q, seqs, size);
    }
  }

  ghost predicate Filled(w: Pool, v: Pool, ids: seq<Id>, seqs: SeqMap, size: nat)
    requires size > 0
  {
    && v.held.Keys == w.held.Keys
    && v.free == w.free - Missing(ids, w, seqs, size)
    && (forall id :: id in ids ==> v.Held(id) == Look(seqs, id).Need(size))
    && (forall id :: id !in ids ==> v.Held(id) == w.Held(id))
  }

  lemma {:induction false} DecodesReplay(w: Pool, ids: seq<Id>, seqs: SeqMap, cfg: Config)
    requires cfg.Valid()
    requires Distinct(ids)
    requires forall id :: id in ids ==> OneShort(id, seqs, w, cfg.size)
    requires Missing(ids, w, seqs, cfg.size) <= w.free
    ensures CanServe(w, ids, seqs, cfg)
    ensures Filled(w, Serve(w, ids, seqs, cfg.size), ids, seqs, cfg.size)
    decreases |ids|
  {
    if ids != [] {
      var x, rest := ids[0], ids[1..];
      var v := ServeOne(w, x, Look(seqs, x).Need(cfg.size));
      DistinctTail(ids);
      assert OneShort(x, seqs, w, cfg.size);
      forall id | id in rest ensures OneShort(id, seqs, v, cfg.size) && v.Held(id) == w.Held(id) {
        assert id in ids;
        assert OneShort(id, seqs, w, cfg.size);
      }
      MissingIsNotNegative(rest, v, seqs, cfg.size);
      MissingFrame(rest, v, w, seqs, cfg.size);
      DecodesReplay(v, rest, seqs, cfg);
    }
  }

  lemma {:induction false} OwnsReleaseList(p: Pool, kept: seq<Id>, ids: seq<Id>, numBlocks: nat)
    requires Owns(p, kept + ids, numBlocks)
    ensures Owns(p.ReleaseAll(ids), kept, numBlocks)
    decreases |ids|
  {
    if ids == [] {
      NoTail(kept);
    } else {
      assert kept + ids == kept + [ids[0]] + ids[1..];
      OwnsRelease(p, kept, ids[0], ids[1..], numBlocks);
      OwnsReleaseList(p.Release(ids[0]), kept, ids[1..], numBlocks);
    }
  }

  // Two pools with the same owners and tables of the same lengths are the same.
  lemma SamePool(p: Pool, q: Pool, ids: seq<Id>, numBlocks: nat)
    requires Owns(p, ids, numBlocks) && Owns(q, ids, numBlocks)
    requires forall id :: id in ids ==> p.Held(id) == q.Held(id)
    ensures p == q
  {
    OwnsMeans(p, ids, numBlocks);
    OwnsMeans(q, ids, numBlocks);
    TotalFrame(ids, p, q);
    assert p.held == q.held;
  }

  lemma DecodeReplays(cfg: Config, e: Engine)
    requires Inv(cfg, e) && NoPartials(e)
    ensures var r := Decode(cfg, e, NoCap);
            var w := e.pool.ReleaseAll(r.victims);
            && CanServe(w, r.slots, e.seqs, cfg)
            && Serve(w, r.slots, e.seqs, cfg.size) == r.pool
  {
    var r := Decode(cfg, e, NoCap);
    var w := e.pool.ReleaseAll(r.victims);
    DecodeOwns(cfg, e, NoCap);
    DecodeStocks(cfg, e, NoCap);
    KeptKeepTables(cfg, e, r);
    ReleasedOwns(cfg, e, r);
    MissingFills(r.kept, w, r.pool, e.seqs, cfg.size);
    OwnsMeans(r.pool, r.kept, cfg.numBlocks);
    DecodesReplay(w, r.kept, e.seqs, cfg);
    FilledIsSame(w, Serve(w, r.kept, e.seqs, cfg.size), r.pool, r.kept, e.seqs, cfg);
  }

  lemma ReleasedOwns(cfg: Config, e: Engine, r: Reservation)
    requires Inv(cfg, e)
    requires multiset(r.kept) + multiset(r.victims) == multiset(e.running)
    ensures Owns(e.pool.ReleaseAll(r.victims), r.kept, cfg.numBlocks)
  {
    assert multiset(r.kept + r.victims) == multiset(e.running);
    OwnsPermutation(e.pool, e.running, r.kept + r.victims, cfg.numBlocks);
    OwnsReleaseList(e.pool, r.kept, r.victims, cfg.numBlocks);
  }

  lemma KeptKeepTables(cfg: Config, e: Engine, r: Reservation)
    requires Inv(cfg, e) && NoPartials(e)
    requires multiset(r.kept) + multiset(r.victims) == multiset(e.running)
    ensures forall id :: id in r.kept ==> OneShort(id, e.seqs, e.pool.ReleaseAll(r.victims), cfg.size)
  {
    RunningOneShort(cfg, e);
    ReleasedOwns(cfg, e, r);
    OwnsMeans(e.pool.ReleaseAll(r.victims), r.kept, cfg.numBlocks);
    OwnsMeans(e.pool, e.running, cfg.numBlocks);
    PermutationMembers(r.kept + r.victims, e.running);
    forall id | id in r.kept ensures OneShort(id, e.seqs, e.pool.ReleaseAll(r.victims), cfg.size) {
      KeptIsNoVictim(e, r, id);
      assert id in r.kept + r.victims;
      ReleaseAllFrame(e.pool, r.victims, id);
      assert OneShort(id, e.seqs, e.pool, cfg.size);
    }
  }

  lemma KeptIsNoVictim(e: Engine, r: Reservation, id: Id)
    requires Distinct(e.running)
    requires multiset(r.kept) + multiset(r.victims) == multiset(e.running)
    requires id in r.kept
    ensures id !in r.victims
  {
    assert multiset(e.running)[id] <= 1;
    assert id in multiset(r.kept);
    assert id in r.victims <==> id in multiset(r.victims);
  }

  lemma FilledIsSame(w: Pool, v: Pool, p: Pool, ids: seq<Id>, seqs: SeqMap, cfg: Config)
    requires cfg.Valid()
    requires Owns(w, ids, cfg.numBlocks) && Owns(p, ids, cfg.numBlocks)
    requires forall id :: id in ids ==> p.Held(id) == Look(seqs, id).Need(cfg.size)
    requires Filled(w, v, ids, seqs, cfg.size)
    ensures v == p
  {
    MissingFills(ids, w, v, seqs, cfg.size);
    SamePool(v, p, ids, cfg.numBlocks);
  }

  /** Finished sequences are freed in the order of the batch, not of the running list. */
  lemma SameRelease(p: Pool, running: seq<Id>, scheduled: seq<Id>, gone: set<Id>, also: set<Id>, numBlocks: nat)
    requires Owns(p, running, numBlocks)
    requires Distinct(scheduled)
    requires forall id :: id in running && id in gone <==> id in scheduled && id in also
    ensures p.ReleaseAll(Within(running, gone)) == p.ReleaseAll(Within(scheduled, also))
  {
    var kept, a, b := Without(running, gone), Within(running, gone), Within(scheduled, also);
    OwnsMeans(p, running, numBlocks);
    WithoutWithin(running, gone);
    WithoutWithin(scheduled, also);
    WithoutDistinct(running, gone);
    WithoutDistinct(scheduled, also);
    SameDistinct(a, b);
    OwnsPermutation(p, running, kept + a, numBlocks);
    OwnsPermutation(p, running, kept + b, numBlocks);
    OwnsReleaseList(p, kept, a, numBlocks);
    OwnsReleaseList(p, kept, b, numBlocks);
    forall id | id in kept ensures p.ReleaseAll(a).Held(id) == p.ReleaseAll(b).Held(id) {
      ReleaseAllFrame(p, a, id);
      ReleaseAllFrame(p, b, id);
    }
    SamePool(p.ReleaseAll(a), p.ReleaseAll(b), kept, numBlocks);
  }

  lemma SameDistinct(a: seq<Id>, b: seq<Id>)
    requires Distinct(a) && Distinct(b)
    requires forall id :: id in a <==> id in b
    ensures multiset(a) == multiset(b)
  {
    forall id ensures multiset(a)[id] == multiset(b)[id] {
      assert multiset(a)[id] <= 1 && multiset(b)[id] <= 1;
      assert id in a <==> id in multiset(a);
      assert id in b <==> id in multiset(b);
    }
  }

  /** The plan, replayed. */
  lemma PlanReplays(kind: Kind, cfg: Config, e: Engine, clock: Clock)
    requires Inv(cfg, e) && NoPartials(e)
    ensures var p := Schedule(kind, cfg, e, clock);
            && CanServe(e.pool.ReleaseAll(p.victims), p.scheduled, p.engine.seqs, cfg)
            && Serve(e.pool.ReleaseAll(p.victims), p.scheduled, p.engine.seqs, cfg.size) == p.engine.pool
  {
    var order := WaitingOrder(kind, e.waiting, e.seqs, clock);
    WaitingOrderPermutes(kind, e.waiting, e.seqs, clock);
    AdmissionOutcome(kind, cfg, e, order);
    var a := Admit(kind, cfg, StartAdmission(e, order), e.seqs);
    var f := e.(waiting := order);
    ReorderKeepsInv(cfg, e, order);
    if a.admitted != [] || a.ignored != [] {
      InvIsOpen(cfg, f);
      AdmissionReplays(kind, cfg, e.pool, StartAdmission(e, order), e.seqs);
      SameNeeds(e.pool, a.admitted, e.seqs, Mark(e.seqs, a.ignored, FINISHED_IGNORED), cfg);
    } else {
      DecodeReplays(cfg, f);
    }
  }

  // Only the lengths of the sequences matter.
  lemma {:induction false} SameNeeds(w: Pool, ids: seq<Id>, s: SeqMap, t: SeqMap, cfg: Config)
    requires cfg.Valid()
    requires forall id :: Look(s, id).Len() == Look(t, id).Len()
    ensures Serve(w, ids, s, cfg.size) == Serve(w, ids, t, cfg.size)
    ensures CanServe(w, ids, s, cfg) == CanServe(w, ids, t, cfg)
    decreases |ids|
  {
    if ids != [] { SameNeeds(ServeOne(w, ids[0], Look(s, ids[0]).Need(cfg.size)), ids[1..], s, t, cfg); }
  }

  // Whatever finishes was in the batch.
  lemma FinishedWereScheduled(cfg: Config, p: PrefillFirst.Plan, samples: map<Id, Sample>, id: Id)
    requires Scheduled(cfg, p.engine, p.victims, p.scheduled, DefaultChunks(p.scheduled, p.engine.seqs))
    requires p.scheduled != []
    requires id in p.engine.running && Look(Dispatch(p, samples).seqs, id).status.Finished()
    ensures id in p.scheduled
  {
    var chunks := DefaultChunks(p.scheduled, p.engine.seqs);
    assert id in p.engine.waiting + p.engine.running;
    assert Placed(cfg, p.engine, p.victims, p.scheduled, chunks, id);
    assert Dispatch(p, samples).seqs[id] == ExecutedView(id, p.engine.seqs[id], p.victims, p.scheduled, chunks, samples);
  }

  lemma ReleasesReplay(cfg: Config, p: PrefillFirst.Plan, samples: map<Id, Sample>)
    requires Scheduled(cfg, p.engine, p.victims, p.scheduled, DefaultChunks(p.scheduled, p.engine.seqs))
    requires Distinct(p.scheduled) && p.scheduled != []
    ensures var f := Dispatch(p, samples);
            f.pool == p.engine.pool.ReleaseAll(Within(p.scheduled, FinishedOf(p.scheduled, f.seqs)))
  {
    var f := Dispatch(p, samples);
    var gone, also := FinishedOf(p.engine.running, f.seqs), FinishedOf(p.scheduled, f.seqs);
    forall id ensures id in p.engine.running && id in gone <==> id in p.scheduled && id in also {
      if id in p.engine.running && id in gone { FinishedWereScheduled(cfg, p, samples, id); }
    }
    SameRelease(p.engine.pool, p.engine.running, p.scheduled, gone, also, cfg.numBlocks);
  }

  /** In sync: a worker whose pool is the scheduler's accepts the step and ends with the
      scheduler's pool again, without ever having been sent a table. */
  lemma WorkerStaysInSync(kind: Kind, cfg: Config, e: Engine, input: Input)
    requires Inv(cfg, e) && NoPartials(e)
    ensures WorkerAccepts(kind, cfg, e.pool, e, input)
    ensures WorkerStep(kind, cfg, e.pool, e, input) == Step(kind, cfg, e, input).pool
  {
    var b := Abort(e, input.aborts);
    var p := Schedule(kind, cfg, b, input.clock);
    AbortKeepsInv(cfg, e, input.aborts);
    PlanReplays(kind, cfg, b, input.clock);
    PlanIsDistinct(kind, cfg, b, input.clock);
    ScheduleIsSound(kind, cfg, b, input.clock);
    if p.scheduled != [] { ReleasesReplay(cfg, p, input.samples); }
  }

  // Both sides over a run; arrivals do not concern the pools.
  function WorkerRun(kind: Kind, cfg: Config, w: Pool, e: Engine, events: seq<Event>): Pool
    requires cfg.Valid()
    decreases |events|
  {
    if events == [] then w
    else WorkerRun(kind, cfg, if events[0].Tick? then WorkerStep(kind, cfg, w, e, events[0].input) else w,
                   Apply(kind, cfg, e, events[0]), events[1..])
  }

  lemma {:induction false} AlwaysInSync(kind: Kind, cfg: Config, e: Engine, events: seq<Event>)
    requires Inv(cfg, e) && NoPartials(e)
    requires ProperRun(kind, cfg, e, events)
    ensures WorkerRun(kind, cfg, e.pool, e, events) == RunOf(kind, cfg, e, events).pool
    decreases |events|
  {
    if events != [] {
      if events[0].Tick? {
        WorkerStaysInSync(kind, cfg, e, events[0].input);
        StepKeepsInv(kind, cfg, e, events[0].input);
      } else {
        ArriveKeepsInv(cfg, e, events[0].id, events[0].view);
      }
      AlwaysInSync(kind, cfg, Apply(kind, cfg, e, events[0]), events[1..]);
    }
  }
}
