/** Prompts the low-priority scheduler never takes: with more tokens than a batch may have the solver
    passes a prompt over, and only picked prompts are looked at for the prompt limit. */
module OversizedPrompts {
  import opened Lists
  import opened Sequences
  import opened Reserve
  import opened EngineCore
  import opened DecodePhase
  import opened Solver
  import opened LowPriority
  import PrefillFirst

  lemma {:induction false} TokensMember(items: seq<nat>, offers: seq<Offer>, i: nat)
    requires i in items
    ensures Solver.At(offers, i).remaining <= Tokens(items, offers)
  {
    if items[0] != i { TokensMember(items[1..], offers, i); }
  }

  lemma NeverPicked(cfg: Config, waiting: seq<Id>, r: Reservation, seqs: SeqMap, input: LpInput, id: Id)
    requires cfg.Valid() && |r.kept| < cfg.maxBatched
    requires Fresh(Look(seqs, id)) && |Look(seqs, id).prompt| > cfg.maxBatched
    ensures id !in PickedIds(cfg, waiting, r, seqs, input)
  {
    var offers, b := Offers(waiting, seqs, input), SolverBudget(cfg, r, input);
    var g := Solution(offers, b, cfg.size);
    SolutionIsGreedy(offers, b, cfg.size);
    forall i | i in g.picked && i < |waiting| ensures waiting[i] != id {
      TokensMember(g.picked, offers, i);
    }
  }

  lemma {:induction false} UnpickedStays(cfg: Config, p: Placing, picked: set<Id>, seqs: SeqMap, id: Id)
    requires cfg.Valid()
    requires id in p.queue || id in p.waiting
    requires id !in picked
    ensures var f := Place(cfg, p, picked, seqs); id in f.queue || id in f.waiting
    decreases |p.queue|
  {
    if p.queue != [] {
      assert p.queue == [p.queue[0]] + p.queue[1..];
      UnpickedStays(cfg, PlaceNext(cfg, p, picked, seqs), picked, seqs, id);
    }
  }

  // Waiting for good: untouched, and too long for any batch.
  ghost predicate Oversized(cfg: Config, e: Engine, id: Id) {
    && id in e.waiting
    && Fresh(Look(e.seqs, id)) && |Look(e.seqs, id).prompt| > cfg.maxBatched
  }

  // A schedule call leaves it where it is.
  lemma ScheduleLeavesOversized(cfg: Config, e: Engine, input: LpInput, id: Id)
    requires LpInv(cfg, e) && Oversized(cfg, e, id)
    ensures var p := LowPriority.Schedule(cfg, e, input);
            && id in p.engine.waiting && id !in p.engine.running
            && id !in p.victims && id !in p.scheduled && id !in p.ignored
            && Look(p.engine.seqs, id) == Look(e.seqs, id)
  {
    var r := Decode(cfg, e, ByKept(cfg.maxSeqs));
    var f := AfterDecode(e, r);
    DecodeFacts(cfg, e);
    DistinctSum(e.waiting, e.running);
    DistinctSum(f.waiting, f.running);
    DecodeMoves(cfg, e, ByKept(cfg.maxSeqs));
    if !DecodeOnly(cfg, f.waiting, r) { PlacingLeavesOversized(cfg, e, input, id); }
  }

  lemma PlacingLeavesOversized(cfg: Config, e: Engine, input: LpInput, id: Id)
    requires LpInv(cfg, e) && Oversized(cfg, e, id)
    requires var r := Decode(cfg, e, ByKept(cfg.maxSeqs)); !DecodeOnly(cfg, AfterDecode(e, r).waiting, r)
    ensures var p := PlacingOf(cfg, e, input);
            id in p.waiting && id !in p.running && id !in p.ignored && id !in p.admitted
  {
    var r := Decode(cfg, e, ByKept(cfg.maxSeqs));
    var f := AfterDecode(e, r);
    var p := PlacingOf(cfg, e, input);
    DecodeFacts(cfg, e);
    PlacedFacts(cfg, e, input);
    NeverPicked(cfg, f.waiting, r, e.seqs, input, id);
    var start := Placing(f.waiting, [], f.running, f.pool, [], []);
    UnpickedStays(cfg, start, PickedIds(cfg, f.waiting, r, e.seqs, input), e.seqs, id);
    NoTail(p.waiting);
    PrefillFirst.AdmittingMembers(cfg, f, AsAdmission(p));
    assert p.running == f.running + p.admitted;
  }

  // It is neither dropped nor handed over for promotion.
  predicate Stays(e: Engine, input: LpInput, id: Id) {
    id !in input.aborts && (id !in input.late || Look(e.seqs, id).everScheduled)
  }

  /** A step leaves it where it is, too, unless it is dropped or promoted. */
  lemma OversizedStays(cfg: Config, e: Engine, input: LpInput, id: Id)
    requires LpInv(cfg, e) && Oversized(cfg, e, id)
    requires Stays(e, input, id)
    ensures var o := Step(cfg, e, input);
            && Oversized(cfg, o.engine, id) && Look(o.engine.seqs, id) == Look(e.seqs, id)
            && id !in o.promoted
  {
    var b := PrefillFirst.Abort(e, input.aborts);
    PrefillFirst.AbortKeepsInv(cfg, e, input.aborts);
    WithoutWithin(e.waiting, input.aborts);
    ScheduleLeavesOversized(cfg, b, input, id);
    var p := LowPriority.Schedule(cfg, b, input);
    OffloadLeavesOversized(p.engine, input.late, id);
    CompleteLeavesView(Offload(p.engine, input.late), p.victims, p.scheduled, input.samples, id);
  }

  lemma CompleteLeavesView(e: Engine, victims: seq<Id>, scheduled: seq<Id>, samples: map<Id, Sample>, id: Id)
    requires id !in victims && id !in scheduled
    ensures var f := Complete(e, victims, scheduled, DefaultChunks(scheduled, e.seqs), samples);
            f.waiting == e.waiting && Look(f.seqs, id) == Look(e.seqs, id)
  {}

  lemma OffloadLeavesOversized(e: Engine, late: set<Id>, id: Id)
    requires id in e.waiting && (id !in late || Look(e.seqs, id).everScheduled)
    ensures id in Offload(e, late).waiting && id !in Promoted(e, late)
  {
    var gone := Promotable(e, late);
    WithoutWithin(e.waiting, gone);
    PermutationMembers(Reverse(Without(e.waiting, gone)), Without(e.waiting, gone));
    PermutationMembers(Reverse(Within(e.waiting, gone)), Within(e.waiting, gone));
  }

  ghost predicate StaysThroughout(cfg: Config, e: Engine, id: Id, events: seq<Event>)
    requires cfg.Valid()
    decreases |events|
  {
    events != [] ==>
      && (events[0].Tick? ==> Stays(e, events[0].input, id))
      && StaysThroughout(cfg, Apply(cfg, e, events[0]), id, events[1..])
  }

  /** Over every run: a prompt that is longer than a batch waits for good, within the prompt limit
      or not, never scheduled and never ignored, unless it is dropped or promoted. One that has run
      before, and was preempted after growing, is not even promoted. */
  lemma {:induction false} OversizedWaits(cfg: Config, e: Engine, events: seq<Event>, id: Id)
    requires LpInv(cfg, e) && Oversized(cfg, e, id)
    requires ProperRun(cfg, e, events)
    requires StaysThroughout(cfg, e, id, events)
    ensures var t := RunOf(cfg, e, events);
            Oversized(cfg, t, id) && Look(t.seqs, id) == Look(e.seqs, id)
    decreases |events|
  {
    if events != [] {
      match events[0] {
        case Tick(input) =>
          StepKeepsLpInv(cfg, e, input);
          OversizedStays(cfg, e, input, id);
        case Arrival(other, v) =>
          ArriveKeepsLpInv(cfg, e, other, v);
          assert other != id;
      }
      OversizedWaits(cfg, Apply(cfg, e, events[0]), events[1..], id);
    }
  }
}
