/** What becomes of a sequence that an empty step has stranded. It is taken in again like any other,
    and stranded again, a token longer each time; once it is over-long the engine raises. */
module Stranding {
  import opened Lists
  import opened Sequences
  import opened BlockPool
  import opened EngineCore
  import opened DecodePhase
  import opened PrefillFirst
  import opened Deadline
  import opened EmptySteps
  import opened Freezing

  /** Runs, which a step that raises ends. */

  datatype History = Going(engine: Engine) | Ended

  ghost function Proceed(kind: Kind, cfg: Config, h: History, event: Event): History
    requires cfg.Valid()
  {
    if h.Ended? || (event.Tick? && Raises(kind, cfg, h.engine, event.input)) then Ended
    else Going(Apply(kind, cfg, h.engine, event))
  }

  ghost function HistoryOf(kind: Kind, cfg: Config, h: History, events: seq<Event>): History
    requires cfg.Valid()
    decreases |events|
  {
    if events == [] then h else HistoryOf(kind, cfg, Proceed(kind, cfg, h, events[0]), events[1..])
  }

  lemma {:induction false} EndedStays(kind: Kind, cfg: Config, events: seq<Event>)
    requires cfg.Valid()
    ensures HistoryOf(kind, cfg, Ended, events).Ended?
    decreases |events|
  {
    if events != [] { EndedStays(kind, cfg, events[1..]); }
  }

  ghost predicate SomeTickMeetsStranded(kind: Kind, cfg: Config, e: Engine, events: seq<Event>)
    requires cfg.Valid()
    decreases |events|
  {
    events != [] &&
    ((events[0].Tick? && MeetsStranded(kind, cfg, e, events[0].input))
     || SomeTickMeetsStranded(kind, cfg, Apply(kind, cfg, e, events[0]), events[1..]))
  }

  /** A run ends in an exception exactly when one of its steps drops a stranded sequence, or gets to
      an over-long one. */
  lemma {:induction false} RunEndsExactly(kind: Kind, cfg: Config, e: Engine, events: seq<Event>)
    requires cfg.Valid()
    ensures HistoryOf(kind, cfg, Going(e), events).Ended? <==> SomeTickMeetsStranded(kind, cfg, e, events)
    ensures var h := HistoryOf(kind, cfg, Going(e), events); h.Going? ==> h.engine == RunOf(kind, cfg, e, events)
    decreases |events|
  {
    if events != [] {
      if events[0].Tick? { RaisesExactly(kind, cfg, e, events[0].input); }
      if events[0].Tick? && Raises(kind, cfg, e, events[0].input) {
        EndedStays(kind, cfg, events[1..]);
      } else {
        RunEndsExactly(kind, cfg, Apply(kind, cfg, e, events[0]), events[1..]);
      }
    }
  }

  lemma ProperStepGoesOn(kind: Kind, cfg: Config, e: Engine, event: Event)
    requires Inv(cfg, e) && NoPartials(e)
    requires Proper(cfg, e, event)
    ensures Proceed(kind, cfg, Going(e), event) == Going(Apply(kind, cfg, e, event))
    ensures Inv(cfg, Apply(kind, cfg, e, event)) && NoPartials(Apply(kind, cfg, e, event))
  {
    match event
    case Tick(input) =>
      WaitingNeverRaises(kind, cfg, e, input);
      StepKeepsInv(kind, cfg, e, input);
    case Arrival(id, v) =>
      ArriveKeepsInv(cfg, e, id, v);
  }

  /** No run does in which nobody can come to need the whole pool. */
  lemma {:induction false} ProperRunGoesOn(kind: Kind, cfg: Config, e: Engine, events: seq<Event>)
    requires Inv(cfg, e) && NoPartials(e)
    requires ProperRun(kind, cfg, e, events)
    ensures HistoryOf(kind, cfg, Going(e), events) == Going(RunOf(kind, cfg, e, events))
    decreases |events|
  {
    if events != [] {
      ProperStepGoesOn(kind, cfg, e, events[0]);
      ProperRunGoesOn(kind, cfg, Apply(kind, cfg, e, events[0]), events[1..]);
    }
  }

  /** A lone sequence that needs the whole pool of an engine without a watermark. */

  // Waiting, whether it has just arrived or was stranded; and running.
  function Lone(cfg: Config, id: Id, v: SeqView): Engine {
    Engine([id], [], map[id := v], Pool(cfg.numBlocks, map[]))
  }

  function Holding(cfg: Config, id: Id, v: SeqView): Engine {
    Engine([], [id], map[id := v], Pool(0, map[id := cfg.numBlocks]))
  }

  ghost predicate FillsPool(cfg: Config, v: SeqView)
    requires cfg.Valid()
  {
    v.Need(cfg.size) == cfg.numBlocks && v.Len() <= cfg.limit && v.Len() <= cfg.maxBatched
  }

  // A token that neither completes a stop string nor ends the text.
  ghost predicate GoesOn(v: SeqView, s: Sample) {
    !s.stopString && (v.ignoreEos || s.token != v.eos)
  }

  function Served(v: SeqView, s: Sample): SeqView { v.Executed(DefaultChunk(v), s) }

  lemma ServedGoesOn(v: SeqView, s: Sample)
    requires Fresh(v) || Decoding(v)
    requires GoesOn(v, s) && |v.output| + 1 < v.maxTokens
    ensures Served(v, s) == v.(output := v.output + [s.token], processed := |v.prompt|, staged := |v.prompt|,
                               promptDone := true, stageDone := true, status := PAUSED, everScheduled := true)
    ensures Decoding(Served(v, s)) && Served(v, s).Len() == v.Len() + 1
  {}

  lemma OneInOrder(kind: Kind, id: Id, seqs: SeqMap, clock: Clock)
    ensures WaitingOrder(kind, [id], seqs, clock) == [id]
  {
    WaitingOrderPermutes(kind, [id], seqs, clock);
    var order := WaitingOrder(kind, [id], seqs, clock);
    PermutationMembers(order, [id]);
    assert order[0] in order;
  }

  lemma NobodyElseAborts(cfg: Config, id: Id, v: SeqView, aborts: set<Id>)
    requires id !in aborts
    ensures Abort(Lone(cfg, id, v), aborts) == Lone(cfg, id, v)
  {
    WithoutNone([id], aborts);
    MarkNone(map[id := v], FINISHED_ABORTED);
  }

  // The whole pool goes to it.
  lemma LoneIsAdmitted(kind: Kind, cfg: Config, id: Id, v: SeqView, clock: Clock)
    requires cfg.Valid() && cfg.watermark == 0
    requires FillsPool(cfg, v)
    ensures PrefillFirst.Schedule(kind, cfg, Lone(cfg, id, v), clock)
            == PrefillFirst.Plan(Holding(cfg, id, v), [], [id], [])
  {
    var e := Lone(cfg, id, v);
    OneInOrder(kind, id, e.seqs, clock);
    var a := StartAdmission(e, [id]);
    var n := AdmitNext(kind, cfg, a, e.seqs);
    assert n.waiting == [] && n.admitted == [id] && n.running == [id] && n.ignored == [];
    assert Admit(kind, cfg, n, e.seqs) == n;
    MarkNone(e.seqs, FINISHED_IGNORED);
  }

  lemma LoneIsExecuted(cfg: Config, id: Id, v: SeqView, samples: map<Id, Sample>)
    requires !Served(v, SampleOf(samples, id)).status.Finished()
    ensures var e := Holding(cfg, id, v);
            Complete(e, [], [id], DefaultChunks([id], e.seqs), samples)
            == Holding(cfg, id, Served(v, SampleOf(samples, id)))
  {
    var e := Holding(cfg, id, v);
    var w := Served(v, SampleOf(samples, id));
    var chunks := DefaultChunks([id], e.seqs);
    assert Chunk(chunks, id) == DefaultChunk(v);
    assert Execute(e.seqs, [], [id], chunks, samples) == map[id := w];
    WithoutNone([id], FinishedOf([id], map[id := w]));
  }

  lemma LoneIsServed(kind: Kind, cfg: Config, id: Id, v: SeqView, input: Input)
    requires cfg.Valid() && cfg.watermark == 0
    requires FillsPool(cfg, v)
    requires !Served(v, SampleOf(input.samples, id)).status.Finished() && id !in input.aborts
    ensures Step(kind, cfg, Lone(cfg, id, v), input) == Holding(cfg, id, Served(v, SampleOf(input.samples, id)))
    ensures !Raises(kind, cfg, Lone(cfg, id, v), input)
  {
    NobodyElseAborts(cfg, id, v, input.aborts);
    LoneIsAdmitted(kind, cfg, id, v, input.clock);
    LoneIsExecuted(cfg, id, v, input.samples);
  }

  lemma HoldingHoldsPool(cfg: Config, id: Id, w: SeqView)
    requires cfg.Valid() && Decoding(w)
    ensures PoolHeld(cfg, Holding(cfg, id, w))
  {
    var e := Holding(cfg, id, w);
    PermutationMembers(ByArrival([id], e.seqs), [id]);
    assert ByArrival([id], e.seqs)[0] in ByArrival([id], e.seqs);
    assert [] + [id] == [id] && [id][1..] == [];
    assert Total([id], e.pool) == cfg.numBlocks + Total([], e.pool);
    assert e.pool.held.Keys == {id};
  }

  // The next step strands it.
  lemma HoldingIsStranded(kind: Kind, cfg: Config, id: Id, w: SeqView, input: Input)
    requires cfg.Valid() && Decoding(w)
    ensures Step(kind, cfg, Holding(cfg, id, w), input) == Lone(cfg, id, w)
    ensures !Raises(kind, cfg, Holding(cfg, id, w), input)
  {
    var e := Holding(cfg, id, w);
    assert Abort(e, input.aborts) == e by { MarkNone(e.seqs, FINISHED_ABORTED); }
    WaitingNeverRaises(kind, cfg, e, input);
    HoldingHoldsPool(cfg, id, w);
    WaitingOrderPermutes(kind, [], e.seqs, input.clock);
    PermutationMembers(WaitingOrder(kind, [], e.seqs, input.clock), []);
    EmptyStepStrands(kind, cfg, e, input);
    var f := Step(kind, cfg, e, input);
    assert multiset(f.waiting) == multiset([id]);
    PermutationMembers(f.waiting, [id]);
    assert f.waiting[0] in f.waiting;
  }

  lemma TwoMore(kind: Kind, cfg: Config, h: History, x: Event, y: Event, rest: seq<Event>)
    requires cfg.Valid()
    ensures HistoryOf(kind, cfg, h, [x, y] + rest)
            == HistoryOf(kind, cfg, Proceed(kind, cfg, Proceed(kind, cfg, h, x), y), rest)
  {
    assert ([x, y] + rest)[1..] == [y] + rest && ([y] + rest)[1..] == rest;
  }

  // Served and stranded again, a token longer.
  lemma ServedAndStranded(kind: Kind, cfg: Config, id: Id, v: SeqView, first: Input, second: Input)
    requires cfg.Valid() && cfg.watermark == 0
    requires Fresh(v) || Decoding(v)
    requires FillsPool(cfg, v) && |v.output| + 1 < v.maxTokens
    requires GoesOn(v, SampleOf(first.samples, id)) && id !in first.aborts
    ensures var h := Proceed(kind, cfg, Going(Lone(cfg, id, v)), Tick(first));
            Proceed(kind, cfg, h, Tick(second)) == Going(Lone(cfg, id, Served(v, SampleOf(first.samples, id))))
  {
    var s := SampleOf(first.samples, id);
    ServedGoesOn(v, s);
    LoneIsServed(kind, cfg, id, v, first);
    HoldingIsStranded(kind, cfg, id, Served(v, s), second);
  }

  // A token more, two steps later.
  lemma ServedTwice(kind: Kind, cfg: Config, id: Id, v: SeqView, first: Input, second: Input, rest: seq<Event>)
    requires cfg.Valid() && cfg.watermark == 0
    requires Fresh(v) || Decoding(v)
    requires FillsPool(cfg, v) && |v.output| + 1 < v.maxTokens
    requires GoesOn(v, SampleOf(first.samples, id)) && id !in first.aborts
    ensures HistoryOf(kind, cfg, Going(Lone(cfg, id, v)), [Tick(first), Tick(second)] + rest)
            == HistoryOf(kind, cfg, Going(Lone(cfg, id, Served(v, SampleOf(first.samples, id)))), rest)
  {
    ServedAndStranded(kind, cfg, id, v, first, second);
    TwoMore(kind, cfg, Going(Lone(cfg, id, v)), Tick(first), Tick(second), rest);
  }

  /** The run that strands one: a prompt that fills the pool, sent to an idle engine, is prefilled
      in the first step and stranded by the second. */
  lemma PoolFillerIsStranded(kind: Kind, cfg: Config, id: Id, v: SeqView, first: Input, second: Input)
    requires cfg.Valid() && cfg.watermark == 0
    requires Fresh(v) && FillsPool(cfg, v) && v.maxTokens >= 2
    requires GoesOn(v, SampleOf(first.samples, id)) && id !in first.aborts
    ensures var w := Served(v, SampleOf(first.samples, id));
            && Decoding(w) && w.Len() == v.Len() + 1
            && HistoryOf(kind, cfg, Going(PrefillFirst.Idle(cfg)), [Arrival(id, v)] + [Tick(first), Tick(second)])
               == Going(Lone(cfg, id, w))
  {
    ServedGoesOn(v, SampleOf(first.samples, id));
    ArrivesAlone(kind, cfg, id, v, [Tick(first), Tick(second)]);
    ServedTwice(kind, cfg, id, v, first, second, []);
    NoTail([Tick(first), Tick(second)]);
  }

  lemma ArrivesAlone(kind: Kind, cfg: Config, id: Id, v: SeqView, events: seq<Event>)
    requires cfg.Valid()
    ensures HistoryOf(kind, cfg, Going(PrefillFirst.Idle(cfg)), [Arrival(id, v)] + events)
            == HistoryOf(kind, cfg, Going(Lone(cfg, id, v)), events)
  {
    assert Arrive(PrefillFirst.Idle(cfg), id, v) == Lone(cfg, id, v);
    assert ([Arrival(id, v)] + events)[1..] == events;
  }

  // Over-long or dropped, a stranded sequence ends the run.
  lemma StrandedRaises(kind: Kind, cfg: Config, id: Id, w: SeqView, input: Input)
    requires cfg.Valid() && Decoding(w)
    requires w.Len() > cfg.limit || id in input.aborts
    ensures Raises(kind, cfg, Lone(cfg, id, w), input)
  {
    var e := Lone(cfg, id, w);
    RaisesExactly(kind, cfg, e, input);
    if id in input.aborts {
      assert id in e.waiting && !Look(e.seqs, id).status.WAITING?;
    } else {
      NobodyElseAborts(cfg, id, w, input.aborts);
      OneInOrder(kind, id, e.seqs, input.clock);
      assert TooLong(cfg, Look(e.seqs, [id][0]));
    }
  }

  // Steps in which the lone sequence keeps generating.
  ghost predicate KeepsGoing(id: Id, v: SeqView, events: seq<Event>) {
    forall event :: event in events ==> event.Tick? && GoesOn(v, SampleOf(event.input.samples, id))
  }

  // The steps it takes to get over the limit, one to be served and one to be stranded a token.
  function StepsLeft(cfg: Config, v: SeqView): int { 2 * (cfg.limit + 1 - v.Len()) + 1 }

  lemma {:induction false} StrandedOutgrows(kind: Kind, cfg: Config, id: Id, w: SeqView, events: seq<Event>)
    requires Started(cfg) && cfg.watermark == 0
    requires Decoding(w) && (FillsPool(cfg, w) || w.Len() > cfg.limit)
    requires |w.prompt| + w.maxTokens > cfg.limit + 1
    requires KeepsGoing(id, w, events)
    requires |events| >= StepsLeft(cfg, w) && |events| >= 1
    ensures HistoryOf(kind, cfg, Going(Lone(cfg, id, w)), events).Ended?
    decreases |events|
  {
    assert events[0] in events;
    var input := events[0].input;
    if w.Len() > cfg.limit || id in input.aborts {
      StrandedRaises(kind, cfg, id, w, input);
      EndedStays(kind, cfg, events[1..]);
    } else {
      var s := SampleOf(input.samples, id);
      TwoTicks(id, w, events);
      ServedGoesOn(w, s);
      ServedTwice(kind, cfg, id, w, input, events[1].input, events[2..]);
      StillFills(cfg, w, Served(w, s));
      StillGoing(id, w, s, events);
      StrandedOutgrows(kind, cfg, id, Served(w, s), events[2..]);
    }
  }

  lemma TwoTicks(id: Id, v: SeqView, events: seq<Event>)
    requires |events| >= 2 && KeepsGoing(id, v, events)
    ensures events[0].Tick? && events[1].Tick?
    ensures events == [Tick(events[0].input), Tick(events[1].input)] + events[2..]
    ensures GoesOn(v, SampleOf(events[0].input.samples, id))
  {
    assert events[0] in events && events[1] in events;
  }

  lemma StillGoing(id: Id, v: SeqView, s: Sample, events: seq<Event>)
    requires |events| >= 2 && KeepsGoing(id, v, events)
    requires Fresh(v) || Decoding(v)
    requires GoesOn(v, s) && |v.output| + 1 < v.maxTokens
    ensures KeepsGoing(id, Served(v, s), events[2..])
  {
    ServedGoesOn(v, s);
    forall event | event in events[2..] ensures event in events {}
  }

  lemma StillFills(cfg: Config, v: SeqView, x: SeqView)
    requires Started(cfg)
    requires FillsPool(cfg, v) && x.Len() == v.Len() + 1
    ensures FillsPool(cfg, x) || x.Len() > cfg.limit
  {
    BlocksMonotone(v.Len(), x.Len(), cfg.size);
    if x.Len() <= cfg.limit { BlocksMonotone(x.Len(), cfg.limit, cfg.size); }
  }

  /** So a prompt that fills the pool of an idle engine and may grow past the limit brings the
      engine down, unless it comes to its end before: with tokens that go on, after a step to be
      served and one to be stranded for each token up to the first over the limit. */
  lemma PoolFillerRaises(kind: Kind, cfg: Config, id: Id, v: SeqView, events: seq<Event>)
    requires Started(cfg) && cfg.watermark == 0
    requires Fresh(v) && FillsPool(cfg, v)
    requires |v.prompt| + v.maxTokens > cfg.limit + 1
    requires KeepsGoing(id, v, events) && |events| >= StepsLeft(cfg, v)
    requires id !in events[0].input.aborts
    ensures HistoryOf(kind, cfg, Going(PrefillFirst.Idle(cfg)), [Arrival(id, v)] + events).Ended?
  {
    TwoTicks(id, v, events);
    var s := SampleOf(events[0].input.samples, id);
    ServedGoesOn(v, s);
    ServedTwice(kind, cfg, id, v, events[0].input, events[1].input, events[2..]);
    StillFills(cfg, v, Served(v, s));
    StillGoing(id, v, s, events);
    StrandedOutgrows(kind, cfg, id, Served(v, s), events[2..]);
    ArrivesAlone(kind, cfg, id, v, events);
  }

  // Such engines start: fifty blocks for eight hundred tokens.
  function FillerConfig(): Config { Config(16, 50, 0, 800, 800, 4) }

  function FillerRequest(): SeqView { SeqView(0.0, seq(800, _ => 7), [], 0, 0, false, false, 2, true, 0, WAITING, false) }

  lemma FillerIsServable()
    ensures var cfg, v := FillerConfig(), FillerRequest();
            && Started(cfg) && Fresh(v) && FillsPool(cfg, v) && |v.prompt| + v.maxTokens > cfg.limit + 1
  {}
}
