/** The vLLM and high-priority engines: the loops of their schedulers, and the step that drives
    them, against the functions of module PrefillFirst. */
module PrefillFirstEngine {
  import opened Lists
  import opened Sequences
  import opened BlockSpace
  import opened Reserve
  import opened EngineCore
  import opened DecodePhase
  import opened Deadline
  import opened PrefillFirst
  import opened Scheduling
  import SequenceManager

  class Engine {
    const kind: Kind
    const base: BaseScheduler

    ghost function Repr(): set<object> { {this} + base.Repr() }

    ghost predicate Valid()
      reads this, base, base.blocks, base.blocks.allocator
    {
      base.Valid() && base.requeues
    }

    function State(): EngineCore.Engine
      reads base, base.blocks, base.blocks.allocator
    {
      base.State()
    }

    constructor (kind: Kind, cfg: Config, watermark: real)
      requires cfg.Valid()
      requires watermark >= 0.0 && cfg.watermark == (watermark * cfg.numBlocks as real).Floor
      ensures Valid() && fresh(Repr() - {this})
      ensures this.kind == kind && base.cfg == cfg && State() == PrefillFirst.Idle(cfg)
    {
      this.kind := kind;
      base := new BaseScheduler(cfg, watermark, true);
    }

    // The high-priority queue: deadlines that can still be met first, the nearest in front.
    method ReorderByDeadline(ttft: real, clock: Clock)
      requires Valid()
      modifies base
      ensures Valid()
      ensures State() == old(State()).(waiting := DeadlineOrder(old(base.waiting), Slacks(old(base.waiting), base.seqs, ttft, clock)))
    {
      var count := |base.waiting|;
      var slacks := Slacks(base.waiting, base.seqs, ttft, clock);
      var sorted := ByValue(base.waiting, slacks);
      var meetable: seq<Id>, violating: seq<Id> := [], [];
      var i := 0;
      while i < |sorted|
        invariant i <= |sorted|
        invariant meetable + OnlyMeetable(sorted[i..], slacks) == OnlyMeetable(sorted, slacks)
        invariant violating + OnlyLate(sorted[i..], slacks) == OnlyLate(sorted, slacks)
        modifies {}
      {
        assert sorted[i..][1..] == sorted[i + 1..] && sorted[i..][0] == sorted[i];
        SplitNext(meetable, violating, sorted[i..], slacks);
        if DeadlineValue(Deadline.At(slacks, sorted[i])) != Infinite {
          meetable := meetable + [sorted[i]];
        } else {
          violating := violating + [sorted[i]];
        }
        i := i + 1;
      }
      NoTail(meetable);
      NoTail(violating);
      assert base.waiting[count..] == [];
      base.waiting := meetable + base.waiting[count..] + violating;
    }

    method SortWaiting(clock: Clock)
      requires Valid()
      modifies base
      ensures Valid()
      ensures State() == old(State()).(waiting := WaitingOrder(kind, old(base.waiting), base.seqs, clock))
    {
      match kind
      case Vllm(fcfs) =>
        if fcfs {
          base.waiting := ByArrival(base.waiting, base.seqs);
        }
      case HighPriority(_, ttft) =>
        ReorderByDeadline(ttft, clock);
    }

    // The admission loop has got to a; seqs is what it started with.
    ghost predicate Admits(a: Admission, seqs: SeqMap)
      reads base, base.blocks, base.blocks.allocator
    {
      && a.waiting == base.waiting && a.running == base.running && a.pool == base.blocks.Counts()
      && base.seqs == Mark(seqs, a.ignored, FINISHED_IGNORED)
      && Open(a)
    }

    // The sequence in front leaves the queue for the running list or, too long, for good.
    method AdmitFront(ghost a: Admission, ghost seqs: SeqMap, tokens: nat)
      returns (done: bool, ignored: bool, len: nat, ghost n: Admission)
      requires Valid()
      requires Admits(a, seqs) && a.tokens == tokens
      requires a.waiting != []
      modifies base.Repr()
      ensures Valid()
      ensures Admits(n, seqs)
      ensures done <==> Stops(kind, base.cfg, a, seqs)
      ensures n == if done then a else AdmitNext(kind, base.cfg, a, seqs)
      ensures !done ==> (ignored <==> n.ignored != a.ignored) && len == Look(seqs, a.waiting[0]).Len()
    {
      var id := base.waiting[0];
      assert id in a.waiting;
      assert base.View(id) == Look(seqs, id);
      n := a;
      len := base.View(id).Len();
      var fits := base.CheckRequestPromptLength(id);
      if !fits {
        AdmitNextOpen(kind, base.cfg, a, seqs);
        MarkMore(seqs, a.ignored, id, FINISHED_IGNORED);
        base.waiting := base.waiting[1..];
        n := AdmitNext(kind, base.cfg, a, seqs);
        return false, true, len, n;
      }
      var can := base.blocks.CanAllocate(base.View(id).Need(base.cfg.size));
      if !can {
        return true, false, len, n;
      }
      if tokens + len > base.cfg.maxBatched {
        return true, false, len, n;
      }
      if |base.running| + 1 > base.cfg.maxSeqs {
        if kind.Vllm? || kind.enforce || base.blocks.Counts().free * 20 < base.cfg.numBlocks {
          return true, false, len, n;
        }
      }
      AdmitNextOpen(kind, base.cfg, a, seqs);
      base.waiting := base.waiting[1..];
      base.Allocate(id);
      base.running := base.running + [id];
      n := AdmitNext(kind, base.cfg, a, seqs);
      return false, false, len, n;
    }

    method AdmitWaiting() returns (admitted: seq<Id>, ignored: seq<Id>)
      requires Valid()
      requires Open(StartAdmission(State(), base.waiting))
      modifies base.Repr()
      ensures Valid()
      ensures var e := old(State());
              var a := Admit(kind, base.cfg, StartAdmission(e, e.waiting), e.seqs);
              && admitted == a.admitted && ignored == a.ignored
              && State() == EngineCore.Engine(a.waiting, a.running, Mark(e.seqs, a.ignored, FINISHED_IGNORED), a.pool)
    {
      ghost var e := State();
      ghost var a := StartAdmission(e, e.waiting);
      ghost var goal := Admit(kind, base.cfg, a, e.seqs);
      MarkNone(e.seqs, FINISHED_IGNORED);
      admitted, ignored := [], [];
      var tokens := 0;
      while base.waiting != []
        invariant Valid()
        invariant Admits(a, e.seqs)
        invariant a.tokens == tokens && a.admitted == admitted && a.ignored == ignored
        invariant Admit(kind, base.cfg, a, e.seqs) == goal
        decreases |base.waiting|
      {
        var id := base.waiting[0];
        var done, tooLong, len, n := AdmitFront(a, e.seqs, tokens);
        if done {
          break;
        }
        a := n;
        if tooLong {
          ignored := ignored + [id];
        } else {
          tokens := tokens + len;
          admitted := admitted + [id];
        }
      }
      assert a == goal;
    }

    method Schedule(clock: Clock) returns (victims: seq<Id>, scheduled: seq<Id>, ignored: seq<Id>)
      requires Valid()
      requires Inv(base.cfg, State()) && NoPartials(State())
      modifies base.Repr()
      ensures Valid()
      ensures PrefillFirst.Plan(State(), victims, scheduled, ignored) == PrefillFirst.Schedule(kind, base.cfg, old(State()), clock)
    {
      WaitingOrderPermutes(kind, base.waiting, base.seqs, clock);
      ReorderKeepsInv(base.cfg, State(), WaitingOrder(kind, base.waiting, base.seqs, clock));
      SortWaiting(clock);
      ghost var e := State();
      InvIsOpen(base.cfg, e);
      scheduled, ignored := AdmitWaiting();
      victims := [];
      if scheduled == [] && ignored == [] {
        NothingAdmitted(kind, base.cfg, StartAdmission(e, e.waiting), e.seqs);
        MarkNone(e.seqs, FINISHED_IGNORED);
        RunningPreemptable(base.cfg, State());
        var partials;
        partials, victims, scheduled := base.ReserveSlots(NoCap);
      }
    }

    // Each batch entry has its own slot for every one of its tokens.
    lemma BatchIsIsolated(victims: seq<Id>, scheduled: seq<Id>, chunks: map<Id, nat>)
      requires Valid()
      requires Scheduled(base.cfg, State(), victims, scheduled, chunks)
      ensures Isolated(base.blocks.blockTables, base.cfg.size, scheduled, base.seqs)
    {
      ScheduledIsCovered(base.cfg, State(), victims, scheduled, chunks);
      FullTablesAreIsolated(base.blocks.allocator.freeBlocks, base.blocks.blockTables, base.cfg.numBlocks,
                            base.cfg.size, scheduled, base.seqs);
    }

    // Schedules, and hands the batch over in a state in which it can be executed.
    method Prepare(clock: Clock) returns (victims: seq<Id>, scheduled: seq<Id>, ignored: seq<Id>)
      requires Valid()
      requires Inv(base.cfg, State()) && NoPartials(State())
      modifies base.Repr()
      ensures Valid()
      ensures PrefillFirst.Plan(State(), victims, scheduled, ignored) == PrefillFirst.Schedule(kind, base.cfg, old(State()), clock)
      ensures SequenceManager.Accepts(base.seqs, victims, scheduled, DefaultChunks(scheduled, base.seqs), true)
      ensures Isolated(base.blocks.blockTables, base.cfg.size, scheduled, base.seqs)
    {
      ScheduleIsSound(kind, base.cfg, State(), clock);
      PlanIsDistinct(kind, base.cfg, State(), clock);
      victims, scheduled, ignored := Schedule(clock);
      ghost var chunks := DefaultChunks(scheduled, base.seqs);
      SequenceManager.ScheduledIsAccepted(base.cfg, State(), victims, scheduled, chunks);
      BatchIsIsolated(victims, scheduled, chunks);
    }

    /** One step of the engine: drop, schedule, execute, free. Every assertion of the code it
        passes holds, no allocation fails, and the tokens of its batch have slots of their own. */
    method Step(input: Input)
      requires Valid()
      requires Inv(base.cfg, State()) && NoPartials(State())
      modifies base.Repr()
      ensures Valid()
      ensures State() == PrefillFirst.Step(kind, base.cfg, old(State()), input)
      ensures Inv(base.cfg, State()) && NoPartials(State())
    {
      StepKeepsInv(kind, base.cfg, State(), input);
      AbortKeepsInv(base.cfg, State(), input.aborts);
      var aborted := base.AbortLongWaiting(input.aborts);
      var victims, scheduled, ignored := Prepare(input.clock);
      if scheduled == [] {
        return;
      }
      var chunks := DefaultChunks(scheduled, base.seqs);
      base.ExecuteBatch(victims, scheduled, chunks, input.samples);
    }
  }

  /** Slot isolation over all runs: whatever physical tables stand behind the pool a reachable
      step schedules with, every token of its batch has a slot, and no slot serves two tokens. */
  lemma EveryBatchIsIsolated(kind: Kind, cfg: Config, events: seq<Event>, input: Input, free: seq<nat>, tables: Tables)
    requires cfg.Valid()
    requires ProperRun(kind, cfg, PrefillFirst.Idle(cfg), events)
    requires var e := RunOf(kind, cfg, PrefillFirst.Idle(cfg), events);
             var p := PrefillFirst.Schedule(kind, cfg, Abort(e, input.aborts), input.clock);
             Partitioned(free, tables, cfg.numBlocks) && CountsOf(free, tables) == p.engine.pool
    ensures var e := RunOf(kind, cfg, PrefillFirst.Idle(cfg), events);
            var p := PrefillFirst.Schedule(kind, cfg, Abort(e, input.aborts), input.clock);
            Isolated(tables, cfg.size, p.scheduled, p.engine.seqs)
  {
    var e := RunOf(kind, cfg, PrefillFirst.Idle(cfg), events);
    IdleInv(cfg);
    ReachableInv(kind, cfg, PrefillFirst.Idle(cfg), events);
    var b := Abort(e, input.aborts);
    AbortKeepsInv(cfg, e, input.aborts);
    ScheduleIsSound(kind, cfg, b, input.clock);
    var p := PrefillFirst.Schedule(kind, cfg, b, input.clock);
    ScheduledIsCovered(cfg, p.engine, p.victims, p.scheduled, DefaultChunks(p.scheduled, p.engine.seqs));
    FullTablesAreIsolated(free, tables, cfg.numBlocks, cfg.size, p.scheduled, p.engine.seqs);
  }
}
