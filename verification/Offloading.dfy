/** What one step of the low-priority engine means for the requests it hands over: none is lost or
    copied, and those handed over never ran and never held a block there. */
module Offloading {
  import opened Lists
  import opened Sequences
  import opened BlockPool
  import opened Reserve
  import opened EngineCore
  import opened DecodePhase
  import opened LowPriority
  import Conservation
  import PrefillFirst

  // The schedule call of a step.
  function PlanOf(cfg: Config, e: Engine, input: LpInput): Plan
    requires cfg.Valid()
  {
    Schedule(cfg, PrefillFirst.Abort(e, input.aborts), input)
  }

  // Whoever holds blocks at some time in the step, which includes the whole batch.
  function Holders(cfg: Config, e: Engine, input: LpInput): set<Id>
    requires cfg.Valid()
  {
    (set id | id in e.running) + (set id | id in PlanOf(cfg, e, input).engine.running)
  }

  // Who leaves the queues otherwise than by promotion.
  function Leavers(cfg: Config, e: Engine, input: LpInput): seq<Id>
    requires cfg.Valid()
  {
    var p := PlanOf(cfg, e, input);
    var f := Step(cfg, e, input).engine;
    Within(e.waiting, input.aborts) + p.ignored + Within(p.engine.running, FinishedOf(p.engine.running, f.seqs))
  }

  // Scheduling moves the sequences among the queues and the ignored list.
  ghost predicate Moved(e: Engine, p: Plan) {
    multiset(e.waiting) + multiset(e.running) == multiset(p.engine.waiting) + multiset(p.engine.running) + multiset(p.ignored)
  }

  lemma ScheduleMoves(cfg: Config, e: Engine, input: LpInput)
    requires LpInv(cfg, e)
    ensures Moved(e, Schedule(cfg, e, input))
  {
    var r := Decode(cfg, e, ByKept(cfg.maxSeqs));
    var f := AfterDecode(e, r);
    DecodeOwns(cfg, e, ByKept(cfg.maxSeqs));
    assert multiset(f.waiting) == multiset(e.waiting) + multiset(r.victims);
    if !DecodeOnly(cfg, f.waiting, r) {
      PlacedFacts(cfg, e, input);
      var p := PlacingOf(cfg, e, input);
      NoTail(p.waiting);
      assert AsAdmission(p).waiting == p.waiting;
    }
  }

  lemma OffloadMoves(e: Engine, late: set<Id>)
    ensures multiset(e.waiting) == multiset(Offload(e, late).waiting) + multiset(Promoted(e, late))
  {
    WithoutWithin(e.waiting, Promotable(e, late));
  }

  // Execution takes only finished sequences out of the running list.
  lemma EngineMoves(cfg: Config, e: Engine, input: LpInput)
    requires LpInv(cfg, e)
    ensures var p := PlanOf(cfg, e, input);
            var f := Step(cfg, e, input).engine;
            && f.waiting == Offload(p.engine, input.late).waiting
            && multiset(p.engine.running) == multiset(f.running) + multiset(Within(p.engine.running, FinishedOf(p.engine.running, f.seqs)))
  {
    var b := PrefillFirst.Abort(e, input.aborts);
    var p := PlanOf(cfg, e, input);
    PrefillFirst.AbortKeepsInv(cfg, e, input.aborts);
    ScheduleOk(cfg, b, input);
    var g := Offload(p.engine, input.late);
    if p.scheduled == [] {
      forall id | id in p.engine.running ensures !Look(p.engine.seqs, id).status.Finished() {}
      WithoutNone(p.engine.running, FinishedOf(p.engine.running, g.seqs));
    } else {
      CompleteConserves(g, p.victims, p.scheduled, DefaultChunks(p.scheduled, g.seqs), input.samples);
    }
  }

  lemma SumUp(e: Engine, b: Engine, p: Plan, f: Engine, dropped: seq<Id>, promoted: seq<Id>, ended: seq<Id>)
    requires b.running == e.running
    requires multiset(e.waiting) == multiset(b.waiting) + multiset(dropped)
    requires Moved(b, p)
    requires multiset(p.engine.waiting) == multiset(f.waiting) + multiset(promoted)
    requires multiset(p.engine.running) == multiset(f.running) + multiset(ended)
    ensures multiset(e.waiting) + multiset(e.running)
            == multiset(f.waiting) + multiset(f.running) + multiset(promoted) + multiset(dropped + p.ignored + ended)
  {
    assert multiset(dropped + p.ignored + ended) == multiset(dropped) + multiset(p.ignored) + multiset(ended);
    forall x ensures multiset(e.waiting)[x] + multiset(e.running)[x]
                     == multiset(f.waiting)[x] + multiset(f.running)[x] + multiset(promoted)[x] + multiset(dropped + p.ignored + ended)[x] {
      assert (multiset(b.waiting) + multiset(b.running))[x]
             == (multiset(p.engine.waiting) + multiset(p.engine.running) + multiset(p.ignored))[x];
    }
  }

  /** Conservation: the queues before the step are the queues after it, the promoted and the
      dropped, ignored and finished. */
  lemma StepConserves(cfg: Config, e: Engine, input: LpInput)
    requires LpInv(cfg, e)
    ensures var o := Step(cfg, e, input);
            multiset(e.waiting) + multiset(e.running)
            == multiset(o.engine.waiting) + multiset(o.engine.running) + multiset(o.promoted) + multiset(Leavers(cfg, e, input))
  {
    var b := PrefillFirst.Abort(e, input.aborts);
    var p := PlanOf(cfg, e, input);
    var o := Step(cfg, e, input);
    PrefillFirst.AbortKeepsInv(cfg, e, input.aborts);
    Conservation.AbortMoves(e, input.aborts);
    ScheduleMoves(cfg, b, input);
    OffloadMoves(p.engine, input.late);
    EngineMoves(cfg, e, input);
    SumUp(e, b, p, o.engine, Within(e.waiting, input.aborts), o.promoted,
          Within(p.engine.running, FinishedOf(p.engine.running, o.engine.seqs)));
  }

  /** A promoted request holds nothing at any time of the step, and has never been executed. */
  lemma PromotedHoldsNothing(cfg: Config, e: Engine, input: LpInput, id: Id)
    requires LpInv(cfg, e)
    requires id in Step(cfg, e, input).promoted
    ensures id in e.waiting && id !in Holders(cfg, e, input)
    ensures Fresh(Look(e.seqs, id)) && !Look(e.seqs, id).everScheduled
  {
    var b := PrefillFirst.Abort(e, input.aborts);
    var p := PlanOf(cfg, e, input);
    PromotedNeverRan(cfg, e, input, id);
    PrefillFirst.AbortKeepsInv(cfg, e, input.aborts);
    ScheduleOk(cfg, b, input);
    OffloadKeepsScheduled(cfg, p.engine, input.late, p.victims, p.scheduled, DefaultChunks(p.scheduled, p.engine.seqs));
    DistinctSum(e.waiting, e.running);
  }

  // The batch and everyone with a table after the step are among the holders.
  lemma BatchHolds(cfg: Config, e: Engine, input: LpInput)
    requires LpInv(cfg, e)
    ensures forall id :: id in PlanOf(cfg, e, input).scheduled ==> id in Holders(cfg, e, input)
    ensures forall id :: id in Step(cfg, e, input).engine.pool.held ==> id in Holders(cfg, e, input)
  {
    var p := PlanOf(cfg, e, input);
    var f := Step(cfg, e, input).engine;
    PrefillFirst.AbortKeepsInv(cfg, e, input.aborts);
    ScheduleOk(cfg, PrefillFirst.Abort(e, input.aborts), input);
    StepKeepsLpInv(cfg, e, input);
    EngineMoves(cfg, e, input);
    OwnsMeans(f.pool, f.running, cfg.numBlocks);
    forall id | id in f.pool.held ensures id in p.engine.running {
      assert id in multiset(f.running);
      assert id in multiset(p.engine.running);
    }
  }

  /** What waits after the step and has ever held blocks is marked as having been scheduled, so it
      will not be promoted later. */
  lemma WaitingHoldersAreMarked(cfg: Config, e: Engine, input: LpInput, id: Id)
    requires LpInv(cfg, e)
    requires id in Step(cfg, e, input).engine.waiting
    ensures id in Holders(cfg, e, input) ==> Look(Step(cfg, e, input).engine.seqs, id).everScheduled
    ensures id !in e.running ==> id in e.waiting && Look(Step(cfg, e, input).engine.seqs, id).everScheduled == Look(e.seqs, id).everScheduled
  {
    WaitingWasPlanned(cfg, e, input, id);
    MarkSurvives(cfg, e, input, id);
    if id in e.running {
      assert Settled(cfg, e.seqs[id], e.pool.Held(id));
    } else {
      PlanOrigin(cfg, e, input, id);
    }
  }

  // Whoever waits after a step was waiting after its schedule call, and not running.
  lemma WaitingWasPlanned(cfg: Config, e: Engine, input: LpInput, id: Id)
    requires LpInv(cfg, e)
    requires id in Step(cfg, e, input).engine.waiting
    ensures var p := PlanOf(cfg, e, input); id in p.engine.waiting && id !in p.engine.running
  {
    var p := PlanOf(cfg, e, input);
    var f := Step(cfg, e, input).engine;
    PrefillFirst.AbortKeepsInv(cfg, e, input.aborts);
    ScheduleOk(cfg, PrefillFirst.Abort(e, input.aborts), input);
    EngineMoves(cfg, e, input);
    OffloadMoves(p.engine, input.late);
    assert id in multiset(f.waiting);
    assert id in multiset(p.engine.waiting);
    DistinctSum(p.engine.waiting, p.engine.running);
  }

  // Outside the batch, only a reset can touch a sequence, and it leaves the mark.
  lemma MarkSurvives(cfg: Config, e: Engine, input: LpInput, id: Id)
    requires LpInv(cfg, e)
    requires var p := PlanOf(cfg, e, input); id in p.engine.waiting && id !in p.engine.running
    ensures Look(Step(cfg, e, input).engine.seqs, id).everScheduled == Look(e.seqs, id).everScheduled
  {
    var b := PrefillFirst.Abort(e, input.aborts);
    var p := PlanOf(cfg, e, input);
    PrefillFirst.AbortKeepsInv(cfg, e, input.aborts);
    BatchRuns(cfg, b, input);
    PlanKeepsMarks(cfg, b, input, id);
    FinishKeepsMark(cfg, p, input, id);
    AbortKeepsMark(e, input.aborts, id);
  }

  lemma AbortKeepsMark(e: Engine, aborts: set<Id>, id: Id)
    ensures Look(PrefillFirst.Abort(e, aborts).seqs, id).everScheduled == Look(e.seqs, id).everScheduled
  {}

  // The part of a step behind its schedule call.
  lemma FinishKeepsMark(cfg: Config, p: Plan, input: LpInput, id: Id)
    requires id !in p.scheduled
    ensures var f := Offload(p.engine, input.late);
            Look(Dispatched(f, p.victims, p.scheduled, input.samples).seqs, id).everScheduled == Look(p.engine.seqs, id).everScheduled
  {
    CompleteKeepsMark(Offload(p.engine, input.late), p.victims, p.scheduled,
                      DefaultChunks(p.scheduled, p.engine.seqs), input.samples, id);
  }

  lemma BatchRuns(cfg: Config, e: Engine, input: LpInput)
    requires LpInv(cfg, e)
    ensures var p := Schedule(cfg, e, input); forall id :: id in p.scheduled ==> id in p.engine.running
  {
    ScheduleOk(cfg, e, input);
  }

  lemma PlanKeepsMarks(cfg: Config, e: Engine, input: LpInput, id: Id)
    requires cfg.Valid()
    ensures Look(Schedule(cfg, e, input).engine.seqs, id).everScheduled == Look(e.seqs, id).everScheduled
  {}

  lemma CompleteKeepsMark(e: Engine, victims: seq<Id>, scheduled: seq<Id>, chunks: map<Id, nat>, samples: map<Id, Sample>, id: Id)
    requires id !in scheduled
    ensures Look(Complete(e, victims, scheduled, chunks, samples).seqs, id).everScheduled == Look(e.seqs, id).everScheduled
  {}

  // Scheduling brings nobody new.
  lemma PlanOrigin(cfg: Config, e: Engine, input: LpInput, id: Id)
    requires LpInv(cfg, e)
    requires var p := PlanOf(cfg, e, input); id in p.engine.waiting || id in p.engine.running
    ensures id in e.waiting || id in e.running
  {
    var b := PrefillFirst.Abort(e, input.aborts);
    PrefillFirst.AbortKeepsInv(cfg, e, input.aborts);
    Conservation.AbortMoves(e, input.aborts);
    ScheduleMoves(cfg, b, input);
    MovedOrigin(b, PlanOf(cfg, e, input), id);
    assert id in b.waiting ==> id in multiset(e.waiting);
  }

  lemma MovedOrigin(e: Engine, p: Plan, id: Id)
    requires Moved(e, p)
    requires id in p.engine.waiting || id in p.engine.running
    ensures id in e.waiting || id in e.running
  {
    assert id in multiset(p.engine.waiting) || id in multiset(p.engine.running);
    assert id in multiset(e.waiting) + multiset(e.running);
  }

  lemma HoldersAreQueued(cfg: Config, e: Engine, input: LpInput, id: Id)
    requires LpInv(cfg, e)
    requires id in Holders(cfg, e, input)
    ensures id in e.waiting || id in e.running
  {
    if id !in e.running { PlanOrigin(cfg, e, input, id); }
  }

  // Sequences keep their allowances, and none appears.
  ghost predicate SameCaps(s: SeqMap, t: SeqMap) {
    t.Keys == s.Keys && forall id :: id in s ==> t[id].maxTokens == s[id].maxTokens
  }

  lemma StepKeepsCaps(cfg: Config, e: Engine, input: LpInput)
    requires cfg.Valid()
    ensures SameCaps(e.seqs, Step(cfg, e, input).engine.seqs)
  {
    var b := PrefillFirst.Abort(e, input.aborts);
    var p := PlanOf(cfg, e, input);
    PlanKeepsCaps(cfg, b, input);
    CompleteKeepsCaps(Offload(p.engine, input.late), p.victims, p.scheduled,
                      DefaultChunks(p.scheduled, p.engine.seqs), input.samples);
    assert SameCaps(e.seqs, b.seqs);
  }

  lemma PlanKeepsCaps(cfg: Config, e: Engine, input: LpInput)
    requires cfg.Valid()
    ensures SameCaps(e.seqs, Schedule(cfg, e, input).engine.seqs)
  {}

  lemma CompleteKeepsCaps(e: Engine, victims: seq<Id>, scheduled: seq<Id>, chunks: map<Id, nat>, samples: map<Id, Sample>)
    ensures SameCaps(e.seqs, Complete(e, victims, scheduled, chunks, samples).seqs)
  {}
}
