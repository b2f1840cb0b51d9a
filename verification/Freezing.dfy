/** When the vLLM engine stops for good: with nobody running, a request that is within the prompt
    limit but too big for the empty pool above the watermark stays in front of the waiting list,
    and whoever comes later waits behind it. */
module Freezing {
  import opened Lists
  import opened Sequences
  import opened EngineCore
  import opened DecodePhase
  import opened PrefillFirst
  import opened Deadline
  import opened EmptySteps

  // The one the admission loop looks at first.
  ghost predicate Leads(fcfs: bool, e: Engine, id: Id) {
    && id in e.waiting
    && if fcfs then forall x :: x in e.waiting && x != id ==> Look(e.seqs, id).arrival < Look(e.seqs, x).arrival
       else e.waiting[0] == id
  }

  // Within the limit, so never ignored, but never admitted either.
  predicate Unservable(cfg: Config, v: SeqView)
    requires cfg.Valid()
  {
    !TooLong(cfg, v) && TooBig(cfg, v)
  }

  ghost predicate Frozen(fcfs: bool, cfg: Config, e: Engine, id: Id) {
    && cfg.Valid()
    && e.running == [] && e.pool.free <= cfg.numBlocks
    && (forall x :: x in e.waiting ==> Look(e.seqs, x).status.WAITING?)
    && Leads(fcfs, e, id)
    && Unservable(cfg, Look(e.seqs, id))
  }

  // The request is not dropped, and arrivals are later than it.
  ghost predicate Follows(fcfs: bool, e: Engine, id: Id, event: Event) {
    match event
    case Tick(input) => id !in input.aborts
    case Arrival(other, v) => other != id && v.status.WAITING? && (fcfs ==> Look(e.seqs, id).arrival < v.arrival)
  }

  ghost predicate FollowingRun(fcfs: bool, cfg: Config, e: Engine, id: Id, events: seq<Event>)
    requires cfg.Valid()
    decreases |events|
  {
    events != [] ==>
      && Follows(fcfs, e, id, events[0])
      && FollowingRun(fcfs, cfg, Apply(Vllm(fcfs), cfg, e, events[0]), id, events[1..])
  }

  // The step schedules nothing, ignores nothing and does not raise.
  ghost predicate Quiet(kind: Kind, cfg: Config, e: Engine, event: Event)
    requires cfg.Valid()
  {
    event.Tick? ==>
      var p := PrefillFirst.Schedule(kind, cfg, Abort(e, event.input.aborts), event.input.clock);
      p.scheduled == [] && p.ignored == [] && !Raises(kind, cfg, e, event.input)
  }

  ghost predicate QuietRun(kind: Kind, cfg: Config, e: Engine, events: seq<Event>)
    requires cfg.Valid()
    decreases |events|
  {
    events != [] ==>
      Quiet(kind, cfg, e, events[0]) && QuietRun(kind, cfg, Apply(kind, cfg, e, events[0]), events[1..])
  }

  lemma LeaderIsFirst(fcfs: bool, e: Engine, id: Id, clock: Clock)
    requires Leads(fcfs, e, id)
    ensures var order := WaitingOrder(Vllm(fcfs), e.waiting, e.seqs, clock); order != [] && order[0] == id
  {
    if fcfs {
      var sorted := ByArrival(e.waiting, e.seqs);
      PermutationMembers(sorted, e.waiting);
      ByArrivalSorts(e.waiting, e.seqs);
      var i :| 0 <= i < |sorted| && sorted[i] == id;
      assert sorted[0] in sorted;
    }
  }

  lemma AbortKeepsLeader(fcfs: bool, e: Engine, id: Id, aborts: set<Id>)
    requires Leads(fcfs, e, id) && id !in aborts
    ensures Leads(fcfs, Abort(e, aborts), id)
    ensures forall x :: x in Abort(e, aborts).waiting ==> x in e.waiting && Look(Abort(e, aborts).seqs, x) == Look(e.seqs, x)
  {
    var b := Abort(e, aborts);
    WithoutWithin(e.waiting, aborts);
    forall x | x in b.waiting ensures x in e.waiting && Look(b.seqs, x) == Look(e.seqs, x) {}
  }

  lemma FrozenStep(fcfs: bool, cfg: Config, e: Engine, id: Id, input: Input)
    requires Frozen(fcfs, cfg, e, id) && id !in input.aborts
    ensures Quiet(Vllm(fcfs), cfg, e, Tick(input))
    ensures Frozen(fcfs, cfg, Step(Vllm(fcfs), cfg, e, input), id)
    ensures Look(Step(Vllm(fcfs), cfg, e, input).seqs, id) == Look(e.seqs, id)
  {
    var b := Abort(e, input.aborts);
    var order := WaitingOrder(Vllm(fcfs), b.waiting, b.seqs, input.clock);
    AbortKeepsLeader(fcfs, e, id, input.aborts);
    LeaderIsFirst(fcfs, b, id, input.clock);
    WaitingOrderPermutes(Vllm(fcfs), b.waiting, b.seqs, input.clock);
    PermutationMembers(order, b.waiting);
    WaitingNeverRaises(Vllm(fcfs), cfg, e, input);
    assert Stops(Vllm(fcfs), cfg, StartAdmission(b, order), b.seqs);
    PermutationMembers(ByArrival([], b.seqs), []);
    NoTail(order);
    assert Step(Vllm(fcfs), cfg, e, input) == b.(waiting := order);
  }

  lemma FrozenArrival(fcfs: bool, cfg: Config, e: Engine, id: Id, other: Id, v: SeqView)
    requires Frozen(fcfs, cfg, e, id) && Follows(fcfs, e, id, Arrival(other, v))
    ensures Frozen(fcfs, cfg, Arrive(e, other, v), id)
    ensures Look(Arrive(e, other, v).seqs, id) == Look(e.seqs, id)
  {}

  /** Frozen for good: whatever arrives later, every step does nothing. */
  lemma {:induction false} FrozenForever(fcfs: bool, cfg: Config, e: Engine, id: Id, events: seq<Event>)
    requires Frozen(fcfs, cfg, e, id)
    requires FollowingRun(fcfs, cfg, e, id, events)
    ensures QuietRun(Vllm(fcfs), cfg, e, events)
    ensures var t := RunOf(Vllm(fcfs), cfg, e, events);
            Frozen(fcfs, cfg, t, id) && Look(t.seqs, id) == Look(e.seqs, id)
    decreases |events|
  {
    if events != [] {
      var t := Apply(Vllm(fcfs), cfg, e, events[0]);
      match events[0] {
        case Tick(input) => FrozenStep(fcfs, cfg, e, id, input);
        case Arrival(other, v) => FrozenArrival(fcfs, cfg, e, id, other, v);
      }
      FrozenForever(fcfs, cfg, t, id, events[1..]);
    }
  }

  /** With nobody running, the engine never does anything again, whatever arrives later, exactly
      when the request in front is within the limit and too big. */
  lemma FreezesExactly(fcfs: bool, cfg: Config, e: Engine, id: Id)
    requires Inv(cfg, e) && NoPartials(e)
    requires e.running == [] && Leads(fcfs, e, id)
    ensures Unservable(cfg, Look(e.seqs, id))
            <==> forall events :: FollowingRun(fcfs, cfg, e, id, events) ==> QuietRun(Vllm(fcfs), cfg, e, events)
  {
    if Unservable(cfg, Look(e.seqs, id)) {
      forall events | FollowingRun(fcfs, cfg, e, id, events) ensures QuietRun(Vllm(fcfs), cfg, e, events) {
        FrozenForever(fcfs, cfg, e, id, events);
      }
    } else {
      NextStepActs(fcfs, cfg, e, id);
    }
  }

  // Otherwise the very next step does something.
  lemma NextStepActs(fcfs: bool, cfg: Config, e: Engine, id: Id)
    requires Inv(cfg, e) && NoPartials(e)
    requires e.running == [] && Leads(fcfs, e, id)
    requires !Unservable(cfg, Look(e.seqs, id))
    ensures exists events :: FollowingRun(fcfs, cfg, e, id, events) && !QuietRun(Vllm(fcfs), cfg, e, events)
  {
    var clock := Clock(0.0, map[], map[], map[]);
    var events := [Tick(Input({}, clock, map[]))];
    NobodyAborts(e);
    LeaderIsFirst(fcfs, e, id, clock);
    ReachableIdlesExactly(Vllm(fcfs), cfg, e, clock);
    assert FollowingRun(fcfs, cfg, Apply(Vllm(fcfs), cfg, e, events[0]), id, events[1..]);
    assert !Quiet(Vllm(fcfs), cfg, e, events[0]);
    assert FollowingRun(fcfs, cfg, e, id, events) && !QuietRun(Vllm(fcfs), cfg, e, events);
  }

  /** Over runs. */

  // A step that leaves somebody waiting and does nothing.
  ghost predicate Stalls(kind: Kind, cfg: Config, e: Engine, event: Event)
    requires cfg.Valid()
  {
    && event.Tick?
    && Abort(e, event.input.aborts).waiting != []
    && Quiet(kind, cfg, e, event)
  }

  ghost predicate SomeTickStalls(kind: Kind, cfg: Config, e: Engine, events: seq<Event>)
    requires cfg.Valid()
    decreases |events|
  {
    events != [] &&
    (Stalls(kind, cfg, e, events[0]) || SomeTickStalls(kind, cfg, Apply(kind, cfg, e, events[0]), events[1..]))
  }

  // Nobody is running, and of those not dropped the first in the order is unservable.
  ghost predicate MeetsUnservable(kind: Kind, cfg: Config, e: Engine, event: Event)
    requires cfg.Valid()
  {
    event.Tick? && e.running == [] &&
    var b := Abort(e, event.input.aborts);
    var order := WaitingOrder(kind, b.waiting, b.seqs, event.input.clock);
    order != [] && Unservable(cfg, Look(b.seqs, order[0]))
  }

  ghost predicate SomeTickMeetsUnservable(kind: Kind, cfg: Config, e: Engine, events: seq<Event>)
    requires cfg.Valid()
    decreases |events|
  {
    events != [] &&
    (MeetsUnservable(kind, cfg, e, events[0])
     || SomeTickMeetsUnservable(kind, cfg, Apply(kind, cfg, e, events[0]), events[1..]))
  }

  lemma StallsExactly(kind: Kind, cfg: Config, e: Engine, event: Event)
    requires Inv(cfg, e) && NoPartials(e)
    ensures Stalls(kind, cfg, e, event) <==> MeetsUnservable(kind, cfg, e, event)
  {
    if event.Tick? {
      var b := Abort(e, event.input.aborts);
      AbortKeepsInv(cfg, e, event.input.aborts);
      WaitingOrderPermutes(kind, b.waiting, b.seqs, event.input.clock);
      PermutationMembers(WaitingOrder(kind, b.waiting, b.seqs, event.input.clock), b.waiting);
      ReachableIdlesExactly(kind, cfg, b, event.input.clock);
      WaitingNeverRaises(kind, cfg, e, event.input);
    }
  }

  /** A run of the vLLM or high-priority engine has a step that leaves somebody waiting and does
      nothing if and only if with nobody running an unservable request gets to the front. */
  lemma {:induction false} RunStallsExactly(kind: Kind, cfg: Config, e: Engine, events: seq<Event>)
    requires Inv(cfg, e) && NoPartials(e)
    requires ProperRun(kind, cfg, e, events)
    ensures SomeTickStalls(kind, cfg, e, events) <==> SomeTickMeetsUnservable(kind, cfg, e, events)
    decreases |events|
  {
    if events != [] {
      StallsExactly(kind, cfg, e, events[0]);
      match events[0] {
        case Tick(input) => StepKeepsInv(kind, cfg, e, input);
        case Arrival(id, v) => ArriveKeepsInv(cfg, e, id, v);
      }
      RunStallsExactly(kind, cfg, Apply(kind, cfg, e, events[0]), events[1..]);
    }
  }

  /** A request that does it. */

  /** What an engine makes sure of when it starts, and how its prompt limit is set: the pool can
      hold the longest prompt, which a batch can take, too. */
  predicate Started(cfg: Config) {
    cfg.Valid() && Blocks(cfg.limit, cfg.size) <= cfg.numBlocks && cfg.limit == cfg.maxBatched
  }

  /** Sent to an idle engine it is in front at once, and the engine is frozen. */
  lemma UnservableArrivalFreezes(fcfs: bool, cfg: Config, id: Id, v: SeqView, events: seq<Event>)
    requires cfg.Valid() && Fresh(v)
    requires Unservable(cfg, v)
    requires FollowingRun(fcfs, cfg, Arrive(PrefillFirst.Idle(cfg), id, v), id, events)
    ensures QuietRun(Vllm(fcfs), cfg, Arrive(PrefillFirst.Idle(cfg), id, v), events)
    ensures Frozen(fcfs, cfg, RunOf(Vllm(fcfs), cfg, Arrive(PrefillFirst.Idle(cfg), id, v), events), id)
  {
    FrozenForever(fcfs, cfg, Arrive(PrefillFirst.Idle(cfg), id, v), id, events);
  }

  // 199 of 200 blocks, with two of them kept free.
  function FreezingConfig(): Config { Config(16, 200, 2, 3183, 3183, 4) }

  function FreezingRequest(): SeqView {
    SeqView(0.0, seq(3183, _ => 7), [], 0, 0, false, false, 1, true, 0, WAITING, false)
  }

  lemma FreezingRequestIsProper()
    ensures var cfg, v := FreezingConfig(), FreezingRequest();
            Started(cfg) && Fresh(v) && cfg.Fits(v) && Unservable(cfg, v)
  {}
}
