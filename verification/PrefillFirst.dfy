/** The vLLM scheduler and the high-priority scheduler that inherits from it: admit waiting
    prompts while the budgets allow; when there was nothing to admit or ignore, decode. */
module PrefillFirst {
  import opened Lists
  import opened Sequences
  import opened BlockPool
  import opened Reserve
  import opened EngineCore
  import opened DecodePhase
  import opened Deadline

  datatype Kind =
    | Vllm(fcfs: bool)                          // waiting sorted first come, first served, or as it is
    | HighPriority(enforce: bool, ttft: real)   // waiting reordered by deadline

  function WaitingOrder(kind: Kind, waiting: seq<Id>, seqs: SeqMap, clock: Clock): seq<Id> {
    match kind
    case Vllm(fcfs) => if fcfs then ByArrival(waiting, seqs) else waiting
    case HighPriority(_, ttft) => DeadlineOrder(waiting, Slacks(waiting, seqs, ttft, clock))
  }

  lemma WaitingOrderPermutes(kind: Kind, waiting: seq<Id>, seqs: SeqMap, clock: Clock)
    ensures multiset(WaitingOrder(kind, waiting, seqs, clock)) == multiset(waiting)
  {
    if kind.HighPriority? {
      ReorderIsEarliestDeadlineFirst(waiting, Slacks(waiting, seqs, kind.ttft, clock));
    }
  }

  /** Admission. */

  datatype Admission = Admission(
    waiting: seq<Id>,
    running: seq<Id>,
    pool: Pool,
    tokens: nat,         // num_batched_tokens
    admitted: seq<Id>,
    ignored: seq<Id>)

  predicate TooLong(cfg: Config, v: SeqView) { v.Len() > cfg.limit }

  // The high-priority scheduler goes over max_num_seqs while a twentieth of the pool is free.
  predicate OverSeqs(kind: Kind, cfg: Config, a: Admission) {
    && |a.running| + 1 > cfg.maxSeqs
    && (kind.Vllm? || kind.enforce || a.pool.free * 20 < cfg.numBlocks)
  }

  predicate Fit(kind: Kind, cfg: Config, a: Admission, v: SeqView)
    requires cfg.Valid()
  {
    && a.pool.free - v.Need(cfg.size) >= cfg.watermark
    && a.tokens + v.Len() <= cfg.maxBatched
    && !OverSeqs(kind, cfg, a)
  }

  predicate Stops(kind: Kind, cfg: Config, a: Admission, seqs: SeqMap)
    requires cfg.Valid()
  {
    a.waiting == [] ||
    (var v := Look(seqs, a.waiting[0]); !TooLong(cfg, v) && !Fit(kind, cfg, a, v))
  }

  function AdmitNext(kind: Kind, cfg: Config, a: Admission, seqs: SeqMap): Admission
    requires cfg.Valid()
    requires !Stops(kind, cfg, a, seqs)
  {
    var id := a.waiting[0];
    var v := Look(seqs, id);
    if TooLong(cfg, v) then
      a.(waiting := a.waiting[1..], ignored := a.ignored + [id])
    else
      Admission(a.waiting[1..], a.running + [id], a.pool.Allocate(id, v.Need(cfg.size)),
                a.tokens + v.Len(), a.admitted + [id], a.ignored)
  }

  function Admit(kind: Kind, cfg: Config, a: Admission, seqs: SeqMap): Admission
    requires cfg.Valid()
    decreases |a.waiting|
  {
    if Stops(kind, cfg, a, seqs) then a
    else Admit(kind, cfg, AdmitNext(kind, cfg, a, seqs), seqs)
  }

  function StartAdmission(e: Engine, order: seq<Id>): Admission {
    Admission(order, e.running, e.pool, 0, [], [])
  }

  /** One engine step. */

  // Everything a step does not decide for itself.
  datatype Input = Input(
    aborts: set<Id>,            // waited past request_drop_threshold, when drops are allowed
    clock: Clock,
    samples: map<Id, Sample>)

  // What _schedule returns, with the queues and tables it leaves behind.
  datatype Plan = Plan(engine: Engine, victims: seq<Id>, scheduled: seq<Id>, ignored: seq<Id>)

  function AdmissionPlan(e: Engine, a: Admission): Plan {
    Plan(Engine(a.waiting, a.running, Mark(e.seqs, a.ignored, FINISHED_IGNORED), a.pool), [], a.admitted, a.ignored)
  }

  function Schedule(kind: Kind, cfg: Config, e: Engine, clock: Clock): Plan
    requires cfg.Valid()
  {
    var order := WaitingOrder(kind, e.waiting, e.seqs, clock);
    var a := Admit(kind, cfg, StartAdmission(e, order), e.seqs);
    if a.admitted != [] || a.ignored != [] then AdmissionPlan(e, a)
    else
      var r := Decode(cfg, e, NoCap);
      Plan(AfterDecode(e.(waiting := order), r), r.victims, r.slots, [])
  }

  // abort_long_waiting_seq
  function Abort(e: Engine, aborts: set<Id>): Engine {
    e.(waiting := Without(e.waiting, aborts),
       seqs := Mark(e.seqs, Within(e.waiting, aborts), FINISHED_ABORTED))
  }

  // step: an output without scheduled sequences is dropped, preemptions included.
  function Dispatch(p: Plan, samples: map<Id, Sample>): Engine {
    if p.scheduled == [] then p.engine
    else Complete(p.engine, p.victims, p.scheduled, DefaultChunks(p.scheduled, p.engine.seqs), samples)
  }

  function Step(kind: Kind, cfg: Config, e: Engine, input: Input): Engine
    requires cfg.Valid()
  {
    Dispatch(Schedule(kind, cfg, Abort(e, input.aborts), input.clock), input.samples)
  }

  // add_seq
  function Arrive(e: Engine, id: Id, v: SeqView): Engine {
    e.(waiting := e.waiting + [id], seqs := e.seqs[id := v])
  }

  lemma {:induction false} AdmitExtends(kind: Kind, cfg: Config, a: Admission, seqs: SeqMap)
    requires cfg.Valid()
    ensures var f := Admit(kind, cfg, a, seqs); |f.admitted| >= |a.admitted| && |f.ignored| >= |a.ignored|
    decreases |a.waiting|
  {
    if !Stops(kind, cfg, a, seqs) { AdmitExtends(kind, cfg, AdmitNext(kind, cfg, a, seqs), seqs); }
  }

  // What the loop may rely on: a waiting sequence has no table and was not ignored.
  ghost predicate Open(a: Admission) {
    && Distinct(a.waiting)
    && forall id :: id in a.waiting ==> id !in a.pool.held && id !in a.ignored
  }

  lemma AdmitNextOpen(kind: Kind, cfg: Config, a: Admission, seqs: SeqMap)
    requires cfg.Valid()
    requires Open(a) && !Stops(kind, cfg, a, seqs)
    ensures Open(AdmitNext(kind, cfg, a, seqs))
  {
    DistinctTail(a.waiting);
  }

  lemma InvIsOpen(cfg: Config, e: Engine)
    requires Inv(cfg, e)
    ensures Open(StartAdmission(e, e.waiting))
  {
    DistinctSum(e.waiting, e.running);
    OwnsMeans(e.pool, e.running, cfg.numBlocks);
  }

  lemma NothingAdmitted(kind: Kind, cfg: Config, a: Admission, seqs: SeqMap)
    requires cfg.Valid()
    requires var f := Admit(kind, cfg, a, seqs); |f.admitted| == |a.admitted| && |f.ignored| == |a.ignored|
    ensures Admit(kind, cfg, a, seqs) == a
  {
    if !Stops(kind, cfg, a, seqs) { AdmitExtends(kind, cfg, AdmitNext(kind, cfg, a, seqs), seqs); }
  }

  /** Admission keeps the pool in order and hands every admitted prompt all its blocks. */

  ghost predicate Granted(cfg: Config, e: Engine, a: Admission, id: Id)
    requires cfg.Valid()
  {
    var v := Look(e.seqs, id);
    id in e.waiting && v.Len() <= cfg.limit && a.pool.Held(id) == v.Need(cfg.size)
  }

  ghost predicate Admitting(cfg: Config, e: Engine, a: Admission)
    requires cfg.Valid()
  {
    && a.running == e.running + a.admitted
    && Owns(a.pool, a.running, cfg.numBlocks)
    && multiset(a.waiting) + multiset(a.running) + multiset(a.ignored) == multiset(e.waiting) + multiset(e.running)
    && (forall id :: id in e.running ==> a.pool.Held(id) == e.pool.Held(id))
    && (forall id :: id in a.admitted ==> Granted(cfg, e, a, id))
  }

  // Whatever is not yet running came from the waiting list.
  lemma AdmittingMembers(cfg: Config, e: Engine, a: Admission)
    requires cfg.Valid() && Distinct(e.waiting + e.running)
    requires Admitting(cfg, e, a)
    ensures forall id :: id in a.waiting || id in a.ignored ==> id in e.waiting && id !in a.running
    ensures forall id :: !(id in a.waiting && id in a.ignored)
    ensures Distinct(a.waiting + a.running)
  {
    forall id ensures !(id in a.waiting && id in a.ignored) {
      assert multiset(e.waiting + e.running)[id] <= 1;
      assert id in a.waiting ==> id in multiset(a.waiting);
      assert id in a.ignored ==> id in multiset(a.ignored);
    }
    forall id | id in a.waiting || id in a.ignored ensures id in e.waiting && id !in a.running {
      assert multiset(e.waiting + e.running)[id] <= 1;
      assert id in multiset(a.waiting) || id in multiset(a.ignored);
      assert id in a.running <==> id in multiset(a.running);
      assert id in e.running ==> id in multiset(a.running) by { assert id in e.running ==> id in a.running; }
      assert id in multiset(e.waiting) || id in multiset(e.running);
    }
    forall id ensures multiset(a.waiting + a.running)[id] <= 1 {
      assert multiset(e.waiting + e.running)[id] <= 1;
    }
  }

  lemma TakeKeeps(cfg: Config, e: Engine, a: Admission, n: Admission)
    requires cfg.Valid() && Distinct(e.waiting + e.running)
    requires Admitting(cfg, e, a)
    requires a.waiting != []
    requires var id := a.waiting[0]; var v := Look(e.seqs, id);
             && v.Len() <= cfg.limit && v.Need(cfg.size) <= a.pool.free
             && n.waiting == a.waiting[1..] && n.running == a.running + [id] && n.admitted == a.admitted + [id]
             && n.pool == a.pool.Allocate(id, v.Need(cfg.size)) && n.ignored == a.ignored
    ensures Admitting(cfg, e, n)
  {
    var id := a.waiting[0];
    AdmittingMembers(cfg, e, a);
    OwnsAllocate(a.pool, a.running, id, Look(e.seqs, id).Need(cfg.size), cfg.numBlocks);
    assert a.waiting == [id] + a.waiting[1..];
    assert n.running == e.running + n.admitted;
    forall x | x in n.admitted ensures Granted(cfg, e, n, x) {
      if x in a.admitted {
        assert Granted(cfg, e, a, x);
        assert x in a.running;
      }
    }
  }

  lemma AdmitNextKeeps(kind: Kind, cfg: Config, e: Engine, a: Admission)
    requires Inv(cfg, e)
    requires Admitting(cfg, e, a)
    requires !Stops(kind, cfg, a, e.seqs)
    ensures Admitting(cfg, e, AdmitNext(kind, cfg, a, e.seqs))
  {
    var n := AdmitNext(kind, cfg, a, e.seqs);
    if TooLong(cfg, Look(e.seqs, a.waiting[0])) {
      assert a.waiting == [a.waiting[0]] + a.waiting[1..];
      forall x | x in n.admitted ensures Granted(cfg, e, n, x) {
        assert Granted(cfg, e, a, x);
      }
    } else {
      TakeKeeps(cfg, e, a, n);
    }
  }

  lemma {:induction false} AdmitKeeps(kind: Kind, cfg: Config, e: Engine, a: Admission)
    requires Inv(cfg, e)
    requires Admitting(cfg, e, a)
    ensures Admitting(cfg, e, Admit(kind, cfg, a, e.seqs))
    decreases |a.waiting|
  {
    if !Stops(kind, cfg, a, e.seqs) {
      AdmitNextKeeps(kind, cfg, e, a);
      AdmitKeeps(kind, cfg, e, AdmitNext(kind, cfg, a, e.seqs));
    }
  }

  lemma AdmissionOutcome(kind: Kind, cfg: Config, e: Engine, order: seq<Id>)
    requires Inv(cfg, e)
    requires multiset(order) == multiset(e.waiting)
    ensures var a := Admit(kind, cfg, StartAdmission(e, order), e.seqs);
            && Admitting(cfg, e, a)
            && Distinct(a.waiting + a.running)
            && (forall id :: id in a.waiting || id in a.ignored ==> id in e.waiting && id !in a.running)
            && (forall id :: !(id in a.waiting && id in a.ignored))
  {
    var s := StartAdmission(e, order);
    NoTail(e.running);
    AdmitKeeps(kind, cfg, e, s);
    AdmittingMembers(cfg, e, Admit(kind, cfg, s, e.seqs));
  }

  // An admission with something in it hands execution a well-scheduled batch.
  lemma AdmissionSchedules(kind: Kind, cfg: Config, e: Engine, a: Admission)
    requires Inv(cfg, e)
    requires Admitting(cfg, e, a)
    ensures var p := AdmissionPlan(e, a);
            Scheduled(cfg, p.engine, [], p.scheduled, DefaultChunks(p.scheduled, p.engine.seqs))
  {
    var p := AdmissionPlan(e, a);
    AdmittingMembers(cfg, e, a);
    DistinctSum(e.waiting, e.running);
    forall id | id in p.engine.waiting + p.engine.running
      ensures Placed(cfg, p.engine, [], p.scheduled, DefaultChunks(p.scheduled, p.engine.seqs), id)
    {
      if id in p.scheduled { assert Granted(cfg, e, a, id); }
      assert id in e.waiting + e.running;
      assert id !in a.ignored;
    }
  }

  lemma AbortKeepsInv(cfg: Config, e: Engine, aborts: set<Id>)
    requires Inv(cfg, e)
    ensures Inv(cfg, Abort(e, aborts))
    ensures NoPartials(e) ==> NoPartials(Abort(e, aborts))
  {
    var f := Abort(e, aborts);
    WithoutWithin(e.waiting, aborts);
    DistinctSum(e.waiting, e.running);
    forall id ensures multiset(f.waiting + f.running)[id] <= 1 {
      assert multiset(e.waiting + e.running)[id] <= 1;
    }
    forall id | id in f.waiting + f.running ensures f.seqs[id] == e.seqs[id] && id in e.waiting + e.running {}
  }

  // The plan is either a well-scheduled batch or leaves the invariant as it is.
  lemma ScheduleIsSound(kind: Kind, cfg: Config, e: Engine, clock: Clock)
    requires Inv(cfg, e) && NoPartials(e)
    ensures var p := Schedule(kind, cfg, e, clock);
            && Scheduled(cfg, p.engine, p.victims, p.scheduled, DefaultChunks(p.scheduled, p.engine.seqs))
            && (p.scheduled == [] ==> p.victims == [])
  {
    var order := WaitingOrder(kind, e.waiting, e.seqs, clock);
    WaitingOrderPermutes(kind, e.waiting, e.seqs, clock);
    AdmissionOutcome(kind, cfg, e, order);
    var a := Admit(kind, cfg, StartAdmission(e, order), e.seqs);
    if a.admitted != [] || a.ignored != [] {
      AdmissionSchedules(kind, cfg, e, a);
    } else {
      var f := e.(waiting := order);
      ReorderKeepsInv(cfg, e, order);
      DecodeSchedules(cfg, f, NoCap);
      if e.running != [] {
        OldestIsSafe(cfg, f, NoCap);
      } else {
        DecodeOwns(cfg, f, NoCap);
      }
    }
  }

  lemma ReorderKeepsInv(cfg: Config, e: Engine, order: seq<Id>)
    requires Inv(cfg, e)
    requires multiset(order) == multiset(e.waiting)
    ensures Inv(cfg, e.(waiting := order))
    ensures NoPartials(e) ==> NoPartials(e.(waiting := order))
  {
    PermutationMembers(order, e.waiting);
    assert multiset(order + e.running) == multiset(e.waiting + e.running);
  }

  // A batch of whole prompts and decodes leaves no prompt half processed.
  lemma CompleteLeavesNoPartials(cfg: Config, e: Engine, victims: seq<Id>, scheduled: seq<Id>, samples: map<Id, Sample>)
    requires forall id :: id in e.running ==>
               id in e.seqs && id !in victims && (Decoding(e.seqs[id]) || (id in scheduled && Fresh(e.seqs[id])))
    requires Inv(cfg, Complete(e, victims, scheduled, DefaultChunks(scheduled, e.seqs), samples))
    ensures NoPartials(Complete(e, victims, scheduled, DefaultChunks(scheduled, e.seqs), samples))
  {
    var chunks := DefaultChunks(scheduled, e.seqs);
    var f := Complete(e, victims, scheduled, chunks, samples);
    CompleteConserves(e, victims, scheduled, chunks, samples);
    forall id | id in f.running ensures Decoding(Look(f.seqs, id)) {
      assert Live(f.seqs[id]);
      assert f.seqs[id] == ExecutedView(id, e.seqs[id], victims, scheduled, chunks, samples);
    }
  }

  /** Every step keeps the invariant, whatever arrives, is sampled or is dropped. */
  lemma StepKeepsInv(kind: Kind, cfg: Config, e: Engine, input: Input)
    requires Inv(cfg, e) && NoPartials(e)
    ensures Inv(cfg, Step(kind, cfg, e, input))
    ensures NoPartials(Step(kind, cfg, e, input))
  {
    var b := Abort(e, input.aborts);
    AbortKeepsInv(cfg, e, input.aborts);
    ScheduleIsSound(kind, cfg, b, input.clock);
    var p := Schedule(kind, cfg, b, input.clock);
    var chunks := DefaultChunks(p.scheduled, p.engine.seqs);
    ScheduledRunning(kind, cfg, b, input.clock);
    if p.scheduled == [] {
      IdlePlanKeepsInv(cfg, p.engine, chunks);
    } else {
      CompleteInv(cfg, p.engine, p.victims, p.scheduled, chunks, input.samples);
      CompleteLeavesNoPartials(cfg, p.engine, p.victims, p.scheduled, input.samples);
    }
  }

  // What the sequence manager is given: no sequence twice, and nobody it does not know.
  lemma PlanIsDistinct(kind: Kind, cfg: Config, e: Engine, clock: Clock)
    requires Inv(cfg, e) && NoPartials(e)
    ensures var p := Schedule(kind, cfg, e, clock);
            && Distinct(p.victims) && Distinct(p.scheduled)
            && (forall id :: id in p.victims ==> id in p.engine.waiting + p.engine.running)
  {
    var order := WaitingOrder(kind, e.waiting, e.seqs, clock);
    WaitingOrderPermutes(kind, e.waiting, e.seqs, clock);
    AdmissionOutcome(kind, cfg, e, order);
    var a := Admit(kind, cfg, StartAdmission(e, order), e.seqs);
    if a.admitted != [] || a.ignored != [] {
      DistinctSum(a.waiting, a.running);
      DistinctSum(e.running, a.admitted);
    } else {
      var f := e.(waiting := order);
      ReorderKeepsInv(cfg, e, order);
      DecodeOwns(cfg, f, NoCap);
      DecodeMoves(cfg, f, NoCap);
      var r := Decode(cfg, f, NoCap);
      DistinctSum(f.waiting + r.victims, r.kept);
      DistinctSum(f.waiting, r.victims);
    }
  }

  lemma IdlePlanKeepsInv(cfg: Config, e: Engine, chunks: map<Id, nat>)
    requires Scheduled(cfg, e, [], [], chunks)
    ensures Inv(cfg, e)
  {
    forall id | id in e.waiting ensures id in e.seqs && Fresh(e.seqs[id]) {
      assert id in e.waiting + e.running;
    }
    forall id | id in e.running ensures id in e.seqs && Settled(cfg, e.seqs[id], e.pool.Held(id)) {
      assert id in e.waiting + e.running;
    }
  }

  // What a plan leaves running is decoding, or was just admitted.
  lemma ScheduledRunning(kind: Kind, cfg: Config, e: Engine, clock: Clock)
    requires Inv(cfg, e) && NoPartials(e)
    ensures var p := Schedule(kind, cfg, e, clock);
            forall id :: id in p.engine.running ==>
              id in p.engine.seqs && id !in p.victims &&
              (Decoding(p.engine.seqs[id]) || (id in p.scheduled && Fresh(p.engine.seqs[id])))
  {
    var order := WaitingOrder(kind, e.waiting, e.seqs, clock);
    WaitingOrderPermutes(kind, e.waiting, e.seqs, clock);
    AdmissionOutcome(kind, cfg, e, order);
    var a := Admit(kind, cfg, StartAdmission(e, order), e.seqs);
    if a.admitted != [] || a.ignored != [] {
      forall id | id in a.running ensures id in e.seqs && id !in a.ignored && (Decoding(e.seqs[id]) || (id in a.admitted && Fresh(e.seqs[id]))) {
        if id in a.admitted { assert Granted(cfg, e, a, id); }
      }
    } else {
      ReorderKeepsInv(cfg, e, order);
      DecodeMoves(cfg, e.(waiting := order), NoCap);
    }
  }

  lemma ArriveDistinct(waiting: seq<Id>, running: seq<Id>, id: Id)
    requires Distinct(waiting + running) && id !in waiting + running
    ensures Distinct(waiting + [id] + running)
  {
    assert multiset(waiting + [id] + running) == multiset(waiting + running) + multiset{id};
    assert multiset(waiting + running)[id] == 0;
    forall x ensures multiset(waiting + [id] + running)[x] <= 1 {
      assert multiset(waiting + running)[x] <= 1;
    }
  }

  lemma ArriveKeepsInv(cfg: Config, e: Engine, id: Id, v: SeqView)
    requires Inv(cfg, e)
    requires id !in e.waiting + e.running
    requires Fresh(v) && cfg.Fits(v)
    ensures Inv(cfg, Arrive(e, id, v))
    ensures NoPartials(e) ==> NoPartials(Arrive(e, id, v))
  {
    var f := Arrive(e, id, v);
    ArriveDistinct(e.waiting, e.running, id);
    forall x | x in f.waiting + f.running ensures x in f.seqs && cfg.Fits(f.seqs[x]) {
      if x != id { assert x in e.waiting + e.running; }
    }
    forall x | x in f.running ensures f.seqs[x] == e.seqs[x] {
      assert x in e.waiting + e.running;
    }
    forall x | x in f.waiting ensures Fresh(f.seqs[x]) {
      if x != id { assert x in e.waiting; }
    }
  }

  /** Runs: any sequence of arrivals and steps. */

  datatype Event = Tick(input: Input) | Arrival(id: Id, view: SeqView)

  function Apply(kind: Kind, cfg: Config, e: Engine, event: Event): Engine
    requires cfg.Valid()
  {
    match event
    case Tick(input) => Step(kind, cfg, e, input)
    case Arrival(id, view) => Arrive(e, id, view)
  }

  // Distinct sequence ids, non-empty prompts, and allowances the pool can serve.
  ghost predicate Proper(cfg: Config, e: Engine, event: Event)
    requires cfg.Valid()
  {
    event.Arrival? ==> event.id !in e.waiting + e.running && Fresh(event.view) && cfg.Fits(event.view)
  }

  ghost predicate ProperRun(kind: Kind, cfg: Config, e: Engine, events: seq<Event>)
    requires cfg.Valid()
    decreases |events|
  {
    events != [] ==> Proper(cfg, e, events[0]) && ProperRun(kind, cfg, Apply(kind, cfg, e, events[0]), events[1..])
  }

  function RunOf(kind: Kind, cfg: Config, e: Engine, events: seq<Event>): Engine
    requires cfg.Valid()
    decreases |events|
  {
    if events == [] then e else RunOf(kind, cfg, Apply(kind, cfg, e, events[0]), events[1..])
  }

  function Idle(cfg: Config): Engine {
    Engine([], [], map[], Pool(cfg.numBlocks, map[]))
  }

  /** In every reachable state: each waiting sequence has no output, no processed prompt and no
      blocks; each running one is between two decodes and holds the blocks of its text but the
      last token; free and held blocks add up to the pool. */
  lemma {:induction false} ReachableInv(kind: Kind, cfg: Config, e: Engine, events: seq<Event>)
    requires Inv(cfg, e) && NoPartials(e)
    requires ProperRun(kind, cfg, e, events)
    ensures Inv(cfg, RunOf(kind, cfg, e, events)) && NoPartials(RunOf(kind, cfg, e, events))
    decreases |events|
  {
    if events != [] {
      if events[0].Tick? {
        StepKeepsInv(kind, cfg, e, events[0].input);
      } else {
        ArriveKeepsInv(cfg, e, events[0].id, events[0].view);
      }
      ReachableInv(kind, cfg, Apply(kind, cfg, e, events[0]), events[1..]);
    }
  }

  lemma IdleInv(cfg: Config)
    requires cfg.Valid()
    ensures Inv(cfg, Idle(cfg)) && NoPartials(Idle(cfg))
  {}
}
