/** The low-priority engine: the loops of its scheduler, the offloading of late requests, and the
    step that drives them, against the functions of module LowPriority. */
module LowPriorityEngine {
  import opened Lists
  import opened Sequences
  import opened BlockPool
  import opened BlockSpace
  import opened Reserve
  import opened EngineCore
  import opened DecodePhase
  import opened Solver
  import opened LowPriority
  import opened Scheduling
  import PrefillFirst
  import SequenceManager

  datatype Fate = Waits | Ignored | Runs

  class Engine {
    const base: BaseScheduler
    var partialPrefills: seq<Id>
    var hpRequests: seq<Id>   // hp_req_queue: handed over for promotion

    ghost function Repr(): set<object> { {this} + base.Repr() }

    ghost predicate Valid()
      reads this, base, base.blocks, base.blocks.allocator
    {
      base.Valid() && base.requeues && partialPrefills == []
    }

    function State(): EngineCore.Engine
      reads base, base.blocks, base.blocks.allocator
    {
      base.State()
    }

    constructor (cfg: Config, watermark: real)
      requires cfg.Valid()
      requires watermark >= 0.0 && cfg.watermark == (watermark * cfg.numBlocks as real).Floor
      ensures Valid() && fresh(Repr() - {this})
      ensures base.cfg == cfg && State() == PrefillFirst.Idle(cfg) && hpRequests == []
    {
      base := new BaseScheduler(cfg, watermark, true);
      partialPrefills, hpRequests := [], [];
    }

    // The placing loop has got to p; seqs is what it started with.
    ghost predicate Places(p: Placing, seqs: SeqMap)
      reads base, base.blocks, base.blocks.allocator
    {
      && p.running == base.running && p.pool == base.blocks.Counts()
      && base.seqs == Mark(seqs, p.ignored, FINISHED_IGNORED)
      && Open(p)
    }

    // One of the solver's items: taken into the batch, kept waiting or, too long, dropped.
    method PlaceFront(id: Id, frac: int, ghost p: Placing, ghost picked: set<Id>, ghost seqs: SeqMap)
      returns (fate: Fate, ghost n: Placing)
      requires Valid()
      requires Places(p, seqs)
      requires p.queue != [] && p.queue[0] == id
      requires frac != 0 <==> id in picked
      modifies base.Repr()
      ensures Valid() && base.waiting == old(base.waiting)
      ensures n == PlaceNext(base.cfg, p, picked, seqs)
      ensures Places(n, seqs)
      ensures n.waiting == if fate.Waits? then p.waiting + [id] else p.waiting
      ensures n.ignored == if fate.Ignored? then p.ignored + [id] else p.ignored
      ensures n.admitted == if fate.Runs? then p.admitted + [id] else p.admitted
    {
      assert id in p.queue;
      assert base.View(id) == Look(seqs, id);
      PlaceNextOpen(base.cfg, p, picked, seqs);
      n := PlaceNext(base.cfg, p, picked, seqs);
      if frac == 0 {
        return Waits, n;
      }
      var fits := base.CheckRequestPromptLength(id);
      if !fits {
        MarkMore(seqs, p.ignored, id, FINISHED_IGNORED);
        return Ignored, n;
      }
      var can := base.blocks.CanAllocate(base.View(id).Need(base.cfg.size));
      if !can {
        return Waits, n;
      }
      base.Allocate(id);
      base.running := base.running + [id];
      return Runs, n;
    }

    // The solver's picks among the waiting prompts.
    method PlacePicked(frac: array<int>, ghost picked: set<Id>) returns (admitted: seq<Id>, ignored: seq<Id>)
      requires Valid()
      requires Open(Placing(base.waiting, [], base.running, base.blocks.Counts(), [], []))
      requires frac.Length == |base.waiting| && frac !in base.Repr()
      requires forall i :: 0 <= i < frac.Length ==> (frac[i] != 0 <==> base.waiting[i] in picked)
      modifies base.Repr()
      ensures Valid()
      ensures var e := old(State());
              var p := Place(base.cfg, Placing(e.waiting, [], e.running, e.pool, [], []), picked, e.seqs);
              && admitted == p.admitted && ignored == p.ignored
              && State() == EngineCore.Engine(p.waiting, p.running, Mark(e.seqs, p.ignored, FINISHED_IGNORED), p.pool)
    {
      ghost var e := State();
      var queue := base.waiting;
      ghost var p := Placing(queue, [], e.running, e.pool, [], []);
      ghost var goal := Place(base.cfg, p, picked, e.seqs);
      MarkNone(e.seqs, FINISHED_IGNORED);
      var left: seq<Id> := [];
      admitted, ignored := [], [];
      for i := 0 to |queue|
        invariant Valid()
        invariant p.queue == queue[i..]
        invariant Places(p, e.seqs)
        invariant p.waiting == left && p.admitted == admitted && p.ignored == ignored
        invariant Place(base.cfg, p, picked, e.seqs) == goal
      {
        var id := queue[i];
        var fate;
        fate, p := PlaceFront(id, frac[i], p, picked, e.seqs);
        match fate {
          case Waits => left := left + [id];
          case Ignored => ignored := ignored + [id];
          case Runs => admitted := admitted + [id];
        }
        RestOfTail(queue, i);
      }
      base.waiting := left;
    }

    // Late requests that were never scheduled leave the queue; the rest comes back reversed.
    method SeqOffloading(late: set<Id>) returns (transfer: seq<Id>)
      requires Valid()
      modifies base
      ensures Valid()
      ensures State() == Offload(old(State()), late)
      ensures transfer == Promoted(old(State()), late)
    {
      ghost var e := State();
      ghost var all, gone := e.waiting, Promotable(e, late);
      var left: seq<Id> := [];
      transfer := [];
      var n := |base.waiting|;
      var i := n;
      while i > 0
        invariant 0 <= i <= n == |all|
        invariant base.waiting == all[..i]
        invariant Valid()
        invariant left == Reverse(Without(all[i..], gone))
        invariant transfer == Reverse(Within(all[i..], gone))
        modifies base`waiting
      {
        PopLast(all, i);
        i := i - 1;
        var id := base.waiting[i];
        base.waiting := base.waiting[..i];
        WithoutLast(id, all[i + 1..], gone);
        PromotableMeans(e, late, id);
        assert all[i] in all;
        if id in late && !base.View(id).everScheduled {
          transfer := transfer + [id];
        } else {
          left := left + [id];
        }
      }
      base.waiting := left;
    }

    // Nothing to prefill, or no room for it.
    method PrefillsNothing(victims: seq<Id>, ghost r: Reservation) returns (nothing: bool)
      requires r.kept == base.running && r.pool == base.blocks.Counts() && r.victims == victims
      requires partialPrefills == []
      ensures nothing <==> DecodeOnly(base.cfg, base.waiting, r)
    {
      nothing := || partialPrefills + base.waiting == []
                 || base.blocks.Counts().free == 0
                 || victims != []
                 || |base.running| >= base.cfg.maxSeqs
                 || |base.running| >= base.cfg.maxBatched;
    }

    // The solver's verdict on each waiting prompt.
    method Pick(ghost r: Reservation, input: LpInput) returns (frac: array<int>)
      requires Valid()
      requires Distinct(base.waiting)
      requires r.kept == base.running && r.pool == base.blocks.Counts()
      ensures fresh(frac) && frac.Length == |base.waiting|
      ensures forall i: nat :: i < frac.Length ==>
                (frac[i] != 0 <==> base.waiting[i] in PickedIds(base.cfg, base.waiting, r, base.seqs, input))
    {
      var prefills := partialPrefills + base.waiting;
      assert prefills == base.waiting;
      var budget := Budget(input.flops, base.blocks.Counts().free,
                           base.cfg.maxSeqs - |base.running|, base.cfg.maxBatched - |base.running|);
      assert budget == SolverBudget(base.cfg, r, input);
      var items, compute, tokens;
      items, frac, compute, tokens := Solve(Offers(prefills, base.seqs, input), budget, base.cfg.size);
      PickedByIndex(base.cfg, base.waiting, r, base.seqs, input);
    }

    // Adds the solver's picks to the decodes of this step.
    method AddPrefills(ghost r: Reservation, input: LpInput) returns (admitted: seq<Id>, ignored: seq<Id>)
      requires Valid()
      requires Open(Placing(base.waiting, [], base.running, base.blocks.Counts(), [], []))
      requires r.kept == base.running && r.pool == base.blocks.Counts()
      modifies base.Repr()
      ensures Valid()
      ensures var e := old(State());
              var p := Place(base.cfg, Placing(e.waiting, [], e.running, e.pool, [], []),
                             PickedIds(base.cfg, e.waiting, r, e.seqs, input), e.seqs);
              && admitted == p.admitted && ignored == p.ignored
              && State() == EngineCore.Engine(p.waiting, p.running, Mark(e.seqs, p.ignored, FINISHED_IGNORED), p.pool)
    {
      var frac := Pick(r, input);
      admitted, ignored := PlacePicked(frac, PickedIds(base.cfg, base.waiting, r, base.seqs, input));
    }

    method Decodes(ghost r: Reservation) returns (victims: seq<Id>, slots: seq<Id>)
      requires Valid()
      requires r == Decode(base.cfg, State(), ByKept(base.cfg.maxSeqs))
      requires CanDecode(base.cfg, State())
      modifies this, base.Repr()
      ensures Valid() && hpRequests == old(hpRequests)
      ensures State() == AfterDecode(old(State()), r)
      ensures victims == r.victims && slots == r.slots
      ensures Open(Placing(base.waiting, [], base.running, base.blocks.Counts(), [], []))
    {
      var partials;
      partials, victims, slots := base.ReserveSlots(ByKept(base.cfg.maxSeqs));
      partialPrefills := partialPrefills + partials;
    }

    method Schedule(input: LpInput) returns (victims: seq<Id>, scheduled: seq<Id>, ignored: seq<Id>)
      requires Valid()
      requires CanDecode(base.cfg, State())
      modifies this, base.Repr()
      ensures Valid() && hpRequests == old(hpRequests)
      ensures LowPriority.Plan(State(), victims, scheduled, ignored) == LowPriority.Schedule(base.cfg, old(State()), input)
    {
      ghost var r := Decode(base.cfg, State(), ByKept(base.cfg.maxSeqs));
      victims, scheduled := Decodes(r);
      ignored := [];
      var nothing := PrefillsNothing(victims, r);
      if !nothing {
        var admitted;
        admitted, ignored := AddPrefills(r, input);
        scheduled := scheduled + admitted;
      }
    }

    // process_scheduler_metadata
    method HandOver(transfer: seq<Id>)
      requires Valid()
      modifies this`hpRequests
      ensures Valid() && hpRequests == old(hpRequests) + transfer
    {
      var i := 0;
      while i < |transfer|
        invariant i <= |transfer|
        invariant hpRequests == old(hpRequests) + transfer[..i]
      {
        Regroup(old(hpRequests), transfer[..i], [transfer[i]]);
        assert transfer[..i + 1] == transfer[..i] + [transfer[i]];
        hpRequests := hpRequests + [transfer[i]];
        i := i + 1;
      }
      assert transfer[..|transfer|] == transfer;
    }

    // Schedules and offloads, and leaves a batch that can be executed, every token with a slot.
    method Prepare(input: LpInput) returns (victims: seq<Id>, scheduled: seq<Id>, transfer: seq<Id>)
      requires Valid()
      requires CanDecode(base.cfg, State()) && PlanRuns(base.cfg, State(), input)
      modifies this, base.Repr()
      ensures Valid() && hpRequests == old(hpRequests)
      ensures var p := LowPriority.Schedule(base.cfg, old(State()), input);
              && State() == Offload(p.engine, input.late)
              && victims == p.victims && scheduled == p.scheduled
              && transfer == Promoted(p.engine, input.late)
      ensures SequenceManager.Accepts(base.seqs, victims, scheduled, DefaultChunks(scheduled, base.seqs), true)
      ensures Isolated(base.blocks.blockTables, base.cfg.size, scheduled, base.seqs)
    {
      var ignored;
      victims, scheduled, ignored := Schedule(input);
      transfer := SeqOffloading(input.late);
      FullTablesAreIsolated(base.blocks.allocator.freeBlocks, base.blocks.blockTables, base.cfg.numBlocks,
                            base.cfg.size, scheduled, base.seqs);
    }

    // Runs what was scheduled; an empty batch is not sent to the workers.
    method Dispatch(victims: seq<Id>, scheduled: seq<Id>, samples: map<Id, Sample>)
      requires Valid()
      requires SequenceManager.Accepts(base.seqs, victims, scheduled, DefaultChunks(scheduled, base.seqs), true)
      modifies base.Repr()
      ensures Valid()
      ensures State() == Dispatched(old(State()), victims, scheduled, samples)
    {
      if scheduled != [] {
        base.ExecuteBatch(victims, scheduled, DefaultChunks(scheduled, base.seqs), samples);
      }
    }

    // _get_hp_request: a poll drains the queue into its answer, oldest first.
    method GetHpRequest() returns (result: seq<Id>)
      requires Valid()
      modifies this`hpRequests
      ensures Valid()
      ensures result == old(hpRequests) && hpRequests == []
    {
      result := [];
      while hpRequests != []
        invariant Valid()
        invariant result + hpRequests == old(hpRequests)
        decreases |hpRequests|
      {
        ShiftHead(result, hpRequests, []);
        NoTail(result + [hpRequests[0]] + hpRequests[1..]);
        NoTail(result + hpRequests);
        result := result + [hpRequests[0]];
        hpRequests := hpRequests[1..];
      }
      NoTail(result);
    }

    method Advance(input: LpInput)
      requires Valid()
      requires var b := PrefillFirst.Abort(State(), input.aborts); CanDecode(base.cfg, b) && PlanRuns(base.cfg, b, input)
      modifies this, base.Repr()
      ensures Valid()
      ensures var out := LowPriority.Step(base.cfg, old(State()), input);
              State() == out.engine && hpRequests == old(hpRequests) + out.promoted
    {
      var victims, scheduled := DropAndPlan(input);
      Dispatch(victims, scheduled, input.samples);
    }

    // The part of a step before running: drop, schedule and offload.
    method DropAndPlan(input: LpInput) returns (victims: seq<Id>, scheduled: seq<Id>)
      requires Valid()
      requires var b := PrefillFirst.Abort(State(), input.aborts); CanDecode(base.cfg, b) && PlanRuns(base.cfg, b, input)
      modifies this, base.Repr()
      ensures Valid()
      ensures var p := LowPriority.Schedule(base.cfg, PrefillFirst.Abort(old(State()), input.aborts), input);
              && State() == Offload(p.engine, input.late)
              && hpRequests == old(hpRequests) + Promoted(p.engine, input.late)
              && victims == p.victims && scheduled == p.scheduled
      ensures SequenceManager.Accepts(base.seqs, victims, scheduled, DefaultChunks(scheduled, base.seqs), true)
    {
      var aborted := base.AbortLongWaiting(input.aborts);
      var transfer;
      victims, scheduled, transfer := Prepare(input);
      HandOver(transfer);
    }

    /** One step of the engine: drop, schedule, offload, execute, free. */
    method Step(input: LpInput)
      requires Valid()
      requires LpInv(base.cfg, State())
      modifies this, base.Repr()
      ensures Valid() && LpInv(base.cfg, State())
      ensures var out := LowPriority.Step(base.cfg, old(State()), input);
              State() == out.engine && hpRequests == old(hpRequests) + out.promoted
    {
      StepKeepsLpInv(base.cfg, State(), input);
      AbortKeepsLpInv(base.cfg, State(), input.aborts);
      DecodeLeavesOpen(base.cfg, PrefillFirst.Abort(State(), input.aborts));
      OffloadedPlanRuns(base.cfg, PrefillFirst.Abort(State(), input.aborts), input);
      Advance(input);
    }
  }

  // The offloaded plan is one the sequence manager accepts, with full tables.
  ghost predicate PlanRuns(cfg: Config, e: EngineCore.Engine, input: LpInput)
    requires cfg.Valid()
  {
    var p := LowPriority.Schedule(cfg, e, input);
    var f := Offload(p.engine, input.late);
    && SequenceManager.Accepts(f.seqs, p.victims, p.scheduled, DefaultChunks(p.scheduled, f.seqs), true)
    && forall id :: id in p.scheduled ==> id in f.pool.held && f.pool.held[id] == Look(f.seqs, id).Need(cfg.size)
  }

  lemma OffloadedPlanRuns(cfg: Config, e: EngineCore.Engine, input: LpInput)
    requires LpInv(cfg, e)
    ensures PlanRuns(cfg, e, input)
  {
    var p := LowPriority.Schedule(cfg, e, input);
    var f := Offload(p.engine, input.late);
    var chunks := DefaultChunks(p.scheduled, f.seqs);
    ScheduleOk(cfg, e, input);
    PlanIsDistinct(cfg, e, input);
    OffloadKeepsScheduled(cfg, p.engine, input.late, p.victims, p.scheduled, chunks);
    OffloadLeavesVictims(cfg, p, input.late);
    SequenceManager.ScheduledIsAccepted(cfg, f, p.victims, p.scheduled, chunks);
    ScheduledIsCovered(cfg, f, p.victims, p.scheduled, chunks);
  }

  // The sequence at an index was picked when the index was.
  lemma PickedByIndex(cfg: Config, ids: seq<Id>, r: Reservation, seqs: SeqMap, input: LpInput)
    requires cfg.Valid()
    requires Distinct(ids)
    ensures var g := Solution(Offers(ids, seqs, input), SolverBudget(cfg, r, input), cfg.size);
            forall i: nat :: i < |ids| ==> (i in g.picked <==> ids[i] in PickedIds(cfg, ids, r, seqs, input))
  {
    var g := Solution(Offers(ids, seqs, input), SolverBudget(cfg, r, input), cfg.size);
    forall i: nat | i < |ids| ensures i in g.picked <==> ids[i] in PickedIds(cfg, ids, r, seqs, input) {
      if ids[i] in PickedIds(cfg, ids, r, seqs, input) {
        var j :| j in g.picked && j < |ids| && ids[j] == ids[i];
        DistinctAt(ids, i, j);
      }
    }
  }

  // After the decodes the waiting prompts have no tables, and no partial prefill turned up.
  ghost predicate CanDecode(cfg: Config, e: EngineCore.Engine)
    requires cfg.Valid()
  {
    var r := Decode(cfg, e, ByKept(cfg.maxSeqs));
    var f := AfterDecode(e, r);
    && Open(Placing(f.waiting, [], f.running, f.pool, [], []))
    && r.partials == []
    && Preemptable(Start(e.running, e.pool), e.seqs)
  }

  lemma DecodeLeavesOpen(cfg: Config, e: EngineCore.Engine)
    requires LpInv(cfg, e)
    ensures CanDecode(cfg, e)
  {
    var r := Decode(cfg, e, ByKept(cfg.maxSeqs));
    DecodeMoves(cfg, e, ByKept(cfg.maxSeqs));
    DecodeOwns(cfg, e, ByKept(cfg.maxSeqs));
    OwnersLeaveOpen(e.waiting + r.victims, r.kept, r.pool, cfg.numBlocks);
    RunningPreemptable(cfg, e);
  }

  lemma OwnersLeaveOpen(waiting: seq<Id>, running: seq<Id>, pool: Pool, numBlocks: nat)
    requires Distinct(waiting + running)
    requires Owns(pool, running, numBlocks)
    ensures Open(Placing(waiting, [], running, pool, [], []))
  {
    DistinctSum(waiting, running);
    OwnsMeans(pool, running, numBlocks);
  }

  lemma AbortKeepsLpInv(cfg: Config, e: EngineCore.Engine, aborts: set<Id>)
    requires LpInv(cfg, e)
    ensures LpInv(cfg, PrefillFirst.Abort(e, aborts))
  {
    PrefillFirst.AbortKeepsInv(cfg, e, aborts);
  }

  lemma PopLast(s: seq<Id>, k: nat)
    requires 0 < k <= |s|
    ensures s[..k][k - 1] == s[k - 1] && s[..k][..k - 1] == s[..k - 1]
    ensures s[k - 1..] == [s[k - 1]] + s[k..]
  {}

  lemma PromotableMeans(e: EngineCore.Engine, late: set<Id>, id: Id)
    ensures id in Promotable(e, late) <==> id in e.waiting && id in late && !Look(e.seqs, id).everScheduled
  {}
}
