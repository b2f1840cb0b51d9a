/** Without new arrivals the vLLM and high-priority engines drain: a bound on the number of
    steps, read off the state, after which every request has finished, been ignored or dropped. */
module Termination {
  import opened Lists
  import opened Sequences
  import opened BlockPool
  import opened Reserve
  import opened EngineCore
  import opened DecodePhase
  import opened PrefillFirst

  // Tokens a request may still generate under its current cap; recomputation restores it.
  function Allowance(v: SeqView): nat {
    if v.maxTokens > |v.output| then v.maxTokens - |v.output| else 0
  }

  function Left(e: Engine, id: Id): nat {
    if id in e.waiting + e.running then Allowance(Look(e.seqs, id)) else 0
  }

  // All requests of a run, oldest first; arrival times are distinct.
  ghost predicate Roster(e: Engine, order: seq<Id>) {
    && (forall id :: id in order ==> id in e.seqs)
    && (forall id :: id in e.waiting + e.running ==> id in order)
    && (forall i, j :: 0 <= i < j < |order| ==> Look(e.seqs, order[i]).arrival < Look(e.seqs, order[j]).arrival)
  }

  // Requests keep their arrival time and cap, and none appears.
  ghost predicate SameRequests(e: Engine, f: Engine) {
    && f.seqs.Keys == e.seqs.Keys
    && (forall id :: id in e.seqs ==> f.seqs[id].arrival == e.seqs[id].arrival && f.seqs[id].maxTokens == e.seqs[id].maxTokens)
    && (forall id :: id in f.waiting + f.running ==> id in e.waiting + e.running)
  }

  // The vector of allowances drops lexicographically, at place k.
  ghost predicate Drops(e: Engine, f: Engine, order: seq<Id>, k: nat) {
    && k < |order|
    && (forall j :: 0 <= j < k ==> Left(f, order[j]) <= Left(e, order[j]))
    && Left(f, order[k]) < Left(e, order[k])
  }

  ghost predicate Work(e: Engine) { e.waiting != [] || e.running != [] }

  lemma AllowancePositive(cfg: Config, e: Engine, id: Id)
    requires Inv(cfg, e)
    requires id in e.waiting + e.running
    ensures Left(e, id) >= 1
  {
    assert cfg.Fits(Look(e.seqs, id));
  }

  /** What execution does to the allowances. */

  lemma ExecutedLowersAllowance(v: SeqView, chunk: nat, sample: Sample)
    requires Decoding(v) || (Fresh(v) && chunk == |v.prompt|)
    requires v.maxTokens >= 1
    ensures Allowance(v.Executed(chunk, sample)) < Allowance(v)
  {}

  lemma ExecutedSame(id: Id, v: SeqView, victims: seq<Id>, scheduled: seq<Id>,
                     chunks: map<Id, nat>, samples: map<Id, Sample>)
    ensures var w := ExecutedView(id, v, victims, scheduled, chunks, samples);
            w.arrival == v.arrival && w.maxTokens == v.maxTokens
  {}

  lemma CompleteSame(e: Engine, victims: seq<Id>, scheduled: seq<Id>, chunks: map<Id, nat>, samples: map<Id, Sample>)
    ensures SameRequests(e, Complete(e, victims, scheduled, chunks, samples))
  {
    var f := Complete(e, victims, scheduled, chunks, samples);
    CompleteConserves(e, victims, scheduled, chunks, samples);
    assert f.seqs.Keys == e.seqs.Keys;
    forall id | id in e.seqs
      ensures f.seqs[id].arrival == e.seqs[id].arrival && f.seqs[id].maxTokens == e.seqs[id].maxTokens
    {
      ExecutedSame(id, e.seqs[id], victims, scheduled, chunks, samples);
    }
  }

  lemma CompleteLeft(e: Engine, victims: seq<Id>, scheduled: seq<Id>, chunks: map<Id, nat>, samples: map<Id, Sample>, id: Id)
    requires id !in victims
    requires id in scheduled ==> id in e.running && id in e.seqs && e.seqs[id].maxTokens >= 1 &&
                                 (Decoding(e.seqs[id]) || (Fresh(e.seqs[id]) && Chunk(chunks, id) == |e.seqs[id].prompt|))
    ensures var f := Complete(e, victims, scheduled, chunks, samples);
            && Left(f, id) <= Left(e, id)
            && (id in scheduled ==> Left(f, id) < Left(e, id))
  {
    CompleteConserves(e, victims, scheduled, chunks, samples);
    if id in scheduled {
      ExecutedLowersAllowance(e.seqs[id], Chunk(chunks, id), SampleOf(samples, id));
    }
  }

  /** The two kinds of step. */

  lemma AdmissionDrops(kind: Kind, cfg: Config, e: Engine, order: seq<Id>, roster: seq<Id>, samples: map<Id, Sample>)
    requires Inv(cfg, e) && NoPartials(e)
    requires multiset(order) == multiset(e.waiting)
    requires Roster(e, roster)
    requires var a := Admit(kind, cfg, StartAdmission(e, order), e.seqs); a.admitted != [] || a.ignored != []
    ensures var f := Dispatch(AdmissionPlan(e, Admit(kind, cfg, StartAdmission(e, order), e.seqs)), samples);
            && SameRequests(e, f)
            && exists k :: Drops(e, f, roster, k)
  {
    var a := Admit(kind, cfg, StartAdmission(e, order), e.seqs);
    AdmissionOutcome(kind, cfg, e, order);
    AdmissionSame(cfg, e, a, samples);
    AdmittedDrops(cfg, e, a, roster, samples);
  }

  lemma AdmissionSame(cfg: Config, e: Engine, a: Admission, samples: map<Id, Sample>)
    requires Inv(cfg, e)
    requires Admitting(cfg, e, a)
    ensures SameRequests(e, Dispatch(AdmissionPlan(e, a), samples))
  {
    var p := AdmissionPlan(e, a);
    AdmittingMembers(cfg, e, a);
    forall id | id in p.engine.waiting + p.engine.running
      ensures id in e.waiting + e.running
    {
      if id in a.admitted { assert Granted(cfg, e, a, id); }
    }
    CompleteSame(p.engine, [], a.admitted, DefaultChunks(a.admitted, p.engine.seqs), samples);
  }

  // Whoever was admitted or ignored first has less left than before, and nobody has more.
  lemma AdmittedDrops(cfg: Config, e: Engine, a: Admission, roster: seq<Id>, samples: map<Id, Sample>)
    requires Inv(cfg, e)
    requires Admitting(cfg, e, a)
    requires Roster(e, roster)
    requires a.admitted != [] || a.ignored != []
    ensures exists k :: Drops(e, Dispatch(AdmissionPlan(e, a), samples), roster, k)
  {
    var f := Dispatch(AdmissionPlan(e, a), samples);
    var moved := if a.admitted != [] then a.admitted[0] else a.ignored[0];
    AdmittingMembers(cfg, e, a);
    assert moved in e.waiting by { if a.admitted != [] { assert Granted(cfg, e, a, moved); } }
    assert moved in e.waiting + e.running;
    AllowancePositive(cfg, e, moved);
    forall id ensures Left(f, id) <= Left(e, id) && (id == moved ==> Left(f, id) < Left(e, id)) {
      AdmissionLeft(cfg, e, a, samples, id);
    }
    var k :| 0 <= k < |roster| && roster[k] == moved;
    assert Drops(e, f, roster, k);
  }

  lemma AdmissionLeft(cfg: Config, e: Engine, a: Admission, samples: map<Id, Sample>, id: Id)
    requires Inv(cfg, e)
    requires Admitting(cfg, e, a)
    ensures var f := Dispatch(AdmissionPlan(e, a), samples);
            && Left(f, id) <= Left(e, id)
            && (id in a.admitted ==> Left(f, id) < Left(e, id))
            && (id in a.ignored ==> Left(f, id) == 0)
  {
    var p := AdmissionPlan(e, a);
    var chunks := DefaultChunks(a.admitted, p.engine.seqs);
    AdmittingMembers(cfg, e, a);
    DistinctSum(e.waiting, e.running);
    if id in a.admitted {
      assert Granted(cfg, e, a, id);
      assert id in e.waiting + e.running;
    }
    assert Left(p.engine, id) <= Left(e, id);
    CompleteLeft(p.engine, [], a.admitted, chunks, samples, id);
    CompleteSame(p.engine, [], a.admitted, chunks, samples);
  }

  lemma DecodeDrops(cfg: Config, e: Engine, roster: seq<Id>, samples: map<Id, Sample>)
    requires Inv(cfg, e) && NoPartials(e)
    requires e.running != []
    requires Roster(e, roster)
    ensures var r := Decode(cfg, e, NoCap);
            var f := Dispatch(Plan(AfterDecode(e, r), r.victims, r.slots, []), samples);
            && SameRequests(e, f)
            && exists k :: Drops(e, f, roster, k)
  {
    var r := Decode(cfg, e, NoCap);
    var g := AfterDecode(e, r);
    var f := Dispatch(Plan(g, r.victims, r.slots, []), samples);
    var chunks := DefaultChunks(r.slots, e.seqs);
    OldestIsSafe(cfg, e, NoCap);
    DecodeOwns(cfg, e, NoCap);
    DecodeMoves(cfg, e, NoCap);
    CompleteSame(g, r.victims, r.slots, chunks, samples);
    assert SameRequests(e, f);
    var oldest := r.slots[0];
    assert oldest in g.waiting + g.running;
    assert oldest in e.waiting + e.running;
    CompleteLeft(g, r.victims, r.slots, chunks, samples, oldest);
    assert Left(g, oldest) == Left(e, oldest);
    var k :| 0 <= k < |roster| && roster[k] == oldest;
    forall j | 0 <= j < k ensures Left(f, roster[j]) <= Left(e, roster[j]) {
      var id := roster[j];
      assert id !in e.running by {
        assert Look(e.seqs, roster[j]).arrival < Look(e.seqs, roster[k]).arrival;
      }
      assert id !in r.slots && id !in r.victims;
      CompleteLeft(g, r.victims, r.slots, chunks, samples, id);
      assert Left(g, id) == Left(e, id);
    }
    assert Drops(e, f, roster, k);
  }

  /** Every step with work left schedules or ignores something. */

  // The pool can take any admissible prompt when nothing else is running.
  ghost predicate Admits(cfg: Config)
    requires cfg.Valid()
  {
    cfg.limit <= cfg.maxBatched && Blocks(cfg.limit, cfg.size) + cfg.watermark <= cfg.numBlocks
  }

  lemma EmptyEngineAdmits(kind: Kind, cfg: Config, e: Engine, order: seq<Id>)
    requires Inv(cfg, e) && Admits(cfg)
    requires e.running == []
    requires order != [] && multiset(order) == multiset(e.waiting)
    ensures var a := Admit(kind, cfg, StartAdmission(e, order), e.seqs); a.admitted != [] || a.ignored != []
  {
    var s := StartAdmission(e, order);
    var v := Look(e.seqs, order[0]);
    assert Total(e.running, e.pool) == 0;
    if !TooLong(cfg, v) { BlocksMonotone(v.Len(), cfg.limit, cfg.size); }
    assert !Stops(kind, cfg, s, e.seqs);
    AdmitExtends(kind, cfg, AdmitNext(kind, cfg, s, e.seqs), e.seqs);
  }

  // Reordering the waiting list changes no allowance.
  lemma ReorderedDecodeDrops(cfg: Config, e: Engine, order: seq<Id>, roster: seq<Id>, samples: map<Id, Sample>)
    requires Inv(cfg, e) && NoPartials(e)
    requires multiset(order) == multiset(e.waiting)
    requires e.running != []
    requires Roster(e, roster)
    ensures var r := Decode(cfg, e, NoCap);
            var f := Dispatch(Plan(AfterDecode(e.(waiting := order), r), r.victims, r.slots, []), samples);
            && SameRequests(e, f)
            && exists k :: Drops(e, f, roster, k)
  {
    var g := e.(waiting := order);
    PermutationMembers(order, e.waiting);
    ReorderKeepsInv(cfg, e, order);
    assert forall id :: id in g.waiting + g.running <==> id in e.waiting + e.running;
    DecodeDrops(cfg, g, roster, samples);
    var r := Decode(cfg, e, NoCap);
    var f := Dispatch(Plan(AfterDecode(g, r), r.victims, r.slots, []), samples);
    var k :| Drops(g, f, roster, k);
    forall id ensures Left(g, id) == Left(e, id) {}
    assert Drops(e, f, roster, k);
  }

  lemma ScheduleDrops(kind: Kind, cfg: Config, e: Engine, input: Input, roster: seq<Id>)
    requires Inv(cfg, e) && NoPartials(e) && Admits(cfg)
    requires Work(e)
    requires Roster(e, roster)
    ensures var f := Dispatch(Schedule(kind, cfg, e, input.clock), input.samples);
            && SameRequests(e, f)
            && exists k :: Drops(e, f, roster, k)
  {
    var order := WaitingOrder(kind, e.waiting, e.seqs, input.clock);
    WaitingOrderPermutes(kind, e.waiting, e.seqs, input.clock);
    PermutationMembers(order, e.waiting);
    var a := Admit(kind, cfg, StartAdmission(e, order), e.seqs);
    if a.admitted != [] || a.ignored != [] {
      AdmissionDrops(kind, cfg, e, order, roster, input.samples);
    } else if e.running == [] {
      EmptyEngineAdmits(kind, cfg, e, order);
    } else {
      ReorderedDecodeDrops(cfg, e, order, roster, input.samples);
    }
  }

  lemma StepDrops(kind: Kind, cfg: Config, e: Engine, input: Input, roster: seq<Id>)
    requires Inv(cfg, e) && NoPartials(e) && Admits(cfg)
    requires Work(e)
    requires Roster(e, roster)
    ensures var f := Step(kind, cfg, e, input);
            && SameRequests(e, f)
            && exists k :: Drops(e, f, roster, k)
  {
    var b := Abort(e, input.aborts);
    var f := Step(kind, cfg, e, input);
    AbortKeepsInv(cfg, e, input.aborts);
    AbortLowers(cfg, e, input.aborts);
    RosterAfter(e, b, roster);
    if Work(b) {
      ScheduleDrops(kind, cfg, b, input, roster);
      SameAfter(e, b, f);
      var k :| Drops(b, f, roster, k);
      DropsAfter(e, b, f, roster, k);
    } else {
      IdleStep(kind, cfg, b, input);
      AllDropped(cfg, e, f, roster);
    }
  }

  lemma AbortLowers(cfg: Config, e: Engine, aborts: set<Id>)
    requires Inv(cfg, e)
    ensures var b := Abort(e, aborts);
            && SameRequests(e, b)
            && forall id :: Left(b, id) <= Left(e, id)
  {
    var b := Abort(e, aborts);
    WithoutWithin(e.waiting, aborts);
    DistinctSum(e.waiting, e.running);
    forall id ensures Left(b, id) <= Left(e, id) {
      if id in b.waiting + b.running { assert b.seqs[id] == e.seqs[id]; }
    }
  }

  lemma AllDropped(cfg: Config, e: Engine, f: Engine, roster: seq<Id>)
    requires Inv(cfg, e) && Work(e) && Roster(e, roster)
    requires !Work(f)
    ensures exists k :: Drops(e, f, roster, k)
  {
    var id := if e.waiting != [] then e.waiting[0] else e.running[0];
    assert id in e.waiting + e.running;
    AllowancePositive(cfg, e, id);
    var k :| 0 <= k < |roster| && roster[k] == id;
    assert Drops(e, f, roster, k);
  }

  lemma RosterAfter(e: Engine, f: Engine, roster: seq<Id>)
    requires Roster(e, roster)
    requires SameRequests(e, f)
    ensures Roster(f, roster)
  {
    forall i, j | 0 <= i < j < |roster| ensures Look(f.seqs, roster[i]).arrival < Look(f.seqs, roster[j]).arrival {
      assert Look(e.seqs, roster[i]).arrival < Look(e.seqs, roster[j]).arrival;
      assert roster[i] in e.seqs && roster[j] in e.seqs;
    }
  }

  lemma SameAfter(e: Engine, f: Engine, g: Engine)
    requires SameRequests(e, f) && SameRequests(f, g)
    ensures SameRequests(e, g)
  {}

  lemma DropsAfter(e: Engine, b: Engine, f: Engine, roster: seq<Id>, k: nat)
    requires forall id :: Left(b, id) <= Left(e, id)
    requires Drops(b, f, roster, k)
    ensures Drops(e, f, roster, k)
  {
    forall j | 0 <= j < k ensures Left(f, roster[j]) <= Left(e, roster[j]) {
      assert Left(f, roster[j]) <= Left(b, roster[j]);
    }
  }

  lemma IdleStep(kind: Kind, cfg: Config, e: Engine, input: Input)
    requires Inv(cfg, e)
    requires !Work(e)
    ensures Dispatch(Schedule(kind, cfg, e, input.clock), input.samples) == e
  {
    WaitingOrderPermutes(kind, e.waiting, e.seqs, input.clock);
    PermutationMembers(WaitingOrder(kind, e.waiting, e.seqs, input.clock), e.waiting);
    PermutationMembers(ByArrival(e.running, e.seqs), e.running);
  }

  /** The bound. */

  // The number of allowance vectors for the requests of a list.
  function Weight(order: seq<Id>, seqs: SeqMap): nat {
    if order == [] then 1
    else
      var m := Look(seqs, order[0]).maxTokens;
      (if m > 0 then m + 1 else 1) * Weight(order[1..], seqs)
  }

  // The place of the current vector among them, in lexicographic order.
  function Rank(e: Engine, order: seq<Id>): nat {
    if order == [] then 0
    else Left(e, order[0]) * Weight(order[1..], e.seqs) + Rank(e, order[1..])
  }

  lemma {:induction false} WeightSame(order: seq<Id>, e: Engine, f: Engine)
    requires SameRequests(e, f)
    requires forall id :: id in order ==> id in e.seqs
    ensures Weight(order, f.seqs) == Weight(order, e.seqs)
  {
    if order != [] { WeightSame(order[1..], e, f); }
  }

  lemma {:induction false} RankBelowWeight(e: Engine, order: seq<Id>)
    ensures Rank(e, order) < Weight(order, e.seqs)
  {
    if order != [] {
      var rest := order[1..];
      RankBelowWeight(e, rest);
      var m := Look(e.seqs, order[0]).maxTokens;
      var top := if m > 0 then m else 0;
      var w := Weight(rest, e.seqs);
      MulMonotone(w, Left(e, order[0]), top);
      assert Weight(order, e.seqs) == (top + 1) * w;
      assert (top + 1) * w == w * top + w;
      assert Left(e, order[0]) * w == w * Left(e, order[0]);
    }
  }

  lemma LexicographicStep(x: nat, y: nat, w: nat, r: nat, s: nat)
    requires x < y
    requires r < w
    ensures x * w + r < y * w + s
  {
    MulMonotone(w, x + 1, y);
    assert w * (x + 1) == w * x + w;
  }

  // A lexicographic drop of the vector is a drop of its rank.
  lemma {:induction false} DropLowersRank(e: Engine, f: Engine, order: seq<Id>, k: nat)
    requires SameRequests(e, f)
    requires forall id :: id in order ==> id in e.seqs
    requires Drops(e, f, order, k)
    ensures Rank(f, order) < Rank(e, order)
    decreases |order|
  {
    var rest := order[1..];
    var w := Weight(rest, e.seqs);
    WeightSame(rest, e, f);
    var x, y := Left(f, order[0]), Left(e, order[0]);
    RankBelowWeight(f, rest);
    if x < y {
      LexicographicStep(x, y, w, Rank(f, rest), Rank(e, rest));
    } else {
      assert x == y && k > 0;
      forall j | 0 <= j < k - 1 ensures Left(f, rest[j]) <= Left(e, rest[j]) {
        assert Left(f, order[j + 1]) <= Left(e, order[j + 1]);
      }
      assert rest[k - 1] == order[k];
      DropLowersRank(e, f, rest, k - 1);
    }
  }

  /** The engine drains: after as many steps as the rank of the starting state, whatever is
      sampled and dropped on the way, nothing is waiting and nothing is running. */
  lemma {:induction false} Drains(kind: Kind, cfg: Config, e: Engine, inputs: seq<Input>, roster: seq<Id>)
    requires Inv(cfg, e) && NoPartials(e) && Admits(cfg)
    requires Roster(e, roster)
    requires |inputs| >= Rank(e, roster)
    ensures !Work(RunSteps(kind, cfg, e, inputs))
    decreases |inputs|
  {
    if !Work(e) {
      StaysIdle(kind, cfg, e, inputs);
    } else {
      RankPositive(cfg, e, roster);
      var f := Step(kind, cfg, e, inputs[0]);
      StepKeepsInv(kind, cfg, e, inputs[0]);
      StepDrops(kind, cfg, e, inputs[0], roster);
      var k :| Drops(e, f, roster, k);
      DropLowersRank(e, f, roster, k);
      RosterAfter(e, f, roster);
      Drains(kind, cfg, f, inputs[1..], roster);
    }
  }

  function RunSteps(kind: Kind, cfg: Config, e: Engine, inputs: seq<Input>): Engine
    requires cfg.Valid()
    decreases |inputs|
  {
    if inputs == [] then e else RunSteps(kind, cfg, Step(kind, cfg, e, inputs[0]), inputs[1..])
  }

  lemma RankPositive(cfg: Config, e: Engine, roster: seq<Id>)
    requires Inv(cfg, e) && Work(e) && Roster(e, roster)
    ensures Rank(e, roster) > 0
  {
    var none := e.(waiting := [], running := []);
    AllDropped(cfg, e, none, roster);
    var k :| Drops(e, none, roster, k);
    DropLowersRank(e, none, roster, k);
  }

  lemma {:induction false} StaysIdle(kind: Kind, cfg: Config, e: Engine, inputs: seq<Input>)
    requires Inv(cfg, e)
    requires !Work(e)
    ensures !Work(RunSteps(kind, cfg, e, inputs))
    decreases |inputs|
  {
    if inputs != [] {
      AbortKeepsInv(cfg, e, inputs[0].aborts);
      IdleStep(kind, cfg, Abort(e, inputs[0].aborts), inputs[0]);
      StaysIdle(kind, cfg, Step(kind, cfg, e, inputs[0]), inputs[1..]);
    }
  }
}
