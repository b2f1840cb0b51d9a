/** A step of the vLLM or high-priority engine is, for each of its sequences, one turn of a life in the
    sense of module LengthCap, or none; so a run is a life. */
module EngineLife {
  import opened Lists
  import opened Sequences
  import opened Reserve
  import opened EngineCore
  import opened DecodePhase
  import opened Deadline
  import opened PrefillFirst
  import opened Termination
  import LengthCap

  // The turns a sequence takes in one step.
  function TurnsIn(p: PrefillFirst.Plan, id: Id, samples: map<Id, Sample>): seq<LengthCap.Turn> {
    if p.scheduled == [] then []
    else if id in p.scheduled then [LengthCap.Generate(if id in samples then samples[id] else Sample(0, false))]
    else if id in p.victims then [LengthCap.Recompute]
    else []
  }

  function PlanOf(kind: Kind, cfg: Config, e: Engine, input: Input): PrefillFirst.Plan
    requires cfg.Valid()
  {
    PrefillFirst.Schedule(kind, cfg, Abort(e, input.aborts), input.clock)
  }

  predicate Dropped(kind: Kind, cfg: Config, e: Engine, input: Input, id: Id)
    requires cfg.Valid()
  {
    id in input.aborts || id in PlanOf(kind, cfg, e, input).ignored
  }

  lemma OneTurn(v: SeqView, turn: LengthCap.Turn)
    ensures LengthCap.Play(v, [turn]) == LengthCap.Take(v, turn)
  {
    assert [turn][1..] == [];
  }

  // What executing a plan does to one sequence.
  lemma DispatchIsTurns(cfg: Config, p: PrefillFirst.Plan, samples: map<Id, Sample>, id: Id)
    requires id in p.engine.seqs
    requires id in p.scheduled ==> id !in p.victims && !p.engine.seqs[id].status.Finished()
    requires id in p.victims ==> p.engine.seqs[id].status.PAUSED?
    ensures Look(Dispatch(p, samples).seqs, id) == LengthCap.Play(p.engine.seqs[id], TurnsIn(p, id, samples))
  {
    var v := p.engine.seqs[id];
    if p.scheduled != [] {
      if id in p.scheduled {
        OneTurn(v, LengthCap.Generate(SampleOf(samples, id)));
        assert Chunk(DefaultChunks(p.scheduled, p.engine.seqs), id) == DefaultChunk(v);
      } else if id in p.victims {
        OneTurn(v, LengthCap.Recompute);
      }
    }
  }

  lemma PlanLeavesView(kind: Kind, cfg: Config, e: Engine, clock: Clock, id: Id)
    requires Inv(cfg, e) && NoPartials(e)
    requires id in e.waiting + e.running
    ensures var p := PrefillFirst.Schedule(kind, cfg, e, clock);
            && id in p.engine.seqs
            && (id !in p.ignored ==> p.engine.seqs[id] == Look(e.seqs, id))
            && (id in p.scheduled ==> id !in p.victims && id !in p.ignored)
            && (id in p.victims ==> Decoding(Look(e.seqs, id)) && id !in p.ignored)
  {
    var order := WaitingOrder(kind, e.waiting, e.seqs, clock);
    var a := Admit(kind, cfg, StartAdmission(e, order), e.seqs);
    WaitingOrderPermutes(kind, e.waiting, e.seqs, clock);
    AdmissionOutcome(kind, cfg, e, order);
    if a.admitted == [] && a.ignored == [] {
      ReorderKeepsInv(cfg, e, order);
      DecodeMoves(cfg, e.(waiting := order), NoCap);
      DecodeOwns(cfg, e.(waiting := order), NoCap);
    } else {
      assert forall x :: x in a.admitted ==> x in a.running;
    }
  }

  /** Unless it is dropped or ignored, a step is for a sequence the turns it is given: the sample that is
      its own, a preemption that drops its cache, or nothing. */
  lemma StepIsTurns(kind: Kind, cfg: Config, e: Engine, input: Input, id: Id)
    requires Inv(cfg, e) && NoPartials(e)
    requires id in e.waiting + e.running && !Dropped(kind, cfg, e, input, id)
    ensures Look(Step(kind, cfg, e, input).seqs, id)
            == LengthCap.Play(Look(e.seqs, id), TurnsIn(PlanOf(kind, cfg, e, input), id, input.samples))
  {
    var b := Abort(e, input.aborts);
    AbortKeepsInv(cfg, e, input.aborts);
    WithoutWithin(e.waiting, input.aborts);
    assert id in b.waiting + b.running && Look(b.seqs, id) == Look(e.seqs, id);
    PlanLeavesView(kind, cfg, b, input.clock, id);
    QueuedIsUnfinished(cfg, b, id);
    DispatchIsTurns(cfg, PlanOf(kind, cfg, e, input), input.samples, id);
  }

  lemma QueuedIsUnfinished(cfg: Config, e: Engine, id: Id)
    requires Inv(cfg, e) && id in e.waiting + e.running
    ensures id in e.seqs && !e.seqs[id].status.Finished()
  {}

  // A sequence that is not queued, having finished, is left alone.
  lemma StepLeavesOthers(kind: Kind, cfg: Config, e: Engine, input: Input, id: Id)
    requires Inv(cfg, e) && NoPartials(e)
    requires id !in e.waiting + e.running
    ensures var f := Step(kind, cfg, e, input);
            && Look(f.seqs, id) == Look(e.seqs, id) && id !in f.waiting + f.running
            && TurnsIn(PlanOf(kind, cfg, e, input), id, input.samples) == []
            && (id !in input.aborts ==> !Dropped(kind, cfg, e, input, id))
  {
    var b := Abort(e, input.aborts);
    AbortKeepsInv(cfg, e, input.aborts);
    WithoutWithin(e.waiting, input.aborts);
    PlanComesFromQueues(kind, cfg, b, input.clock, id);
    var p := PlanOf(kind, cfg, e, input);
    CompleteConserves(p.engine, p.victims, p.scheduled, DefaultChunks(p.scheduled, p.engine.seqs), input.samples);
  }

  lemma PlanComesFromQueues(kind: Kind, cfg: Config, e: Engine, clock: Clock, id: Id)
    requires Inv(cfg, e) && NoPartials(e)
    requires id !in e.waiting + e.running
    ensures var p := PrefillFirst.Schedule(kind, cfg, e, clock);
            && id !in p.scheduled && id !in p.victims && id !in p.ignored
            && id !in p.engine.waiting + p.engine.running && Look(p.engine.seqs, id) == Look(e.seqs, id)
  {
    var order := WaitingOrder(kind, e.waiting, e.seqs, clock);
    var a := Admit(kind, cfg, StartAdmission(e, order), e.seqs);
    WaitingOrderPermutes(kind, e.waiting, e.seqs, clock);
    AdmissionOutcome(kind, cfg, e, order);
    if a.admitted == [] && a.ignored == [] {
      ReorderKeepsInv(cfg, e, order);
      DecodeMoves(cfg, e.(waiting := order), NoCap);
      DecodeOwns(cfg, e.(waiting := order), NoCap);
      PermutationMembers(order, e.waiting);
    } else {
      forall x | x in a.admitted ensures x in e.waiting { assert Granted(cfg, e, a, x); }
    }
  }

  /** Over runs. */

  function TurnsOver(kind: Kind, cfg: Config, e: Engine, inputs: seq<Input>, id: Id): seq<LengthCap.Turn>
    requires cfg.Valid()
    decreases |inputs|
  {
    if inputs == [] then []
    else TurnsIn(PlanOf(kind, cfg, e, inputs[0]), id, inputs[0].samples)
         + TurnsOver(kind, cfg, Step(kind, cfg, e, inputs[0]), inputs[1..], id)
  }

  ghost predicate NeverDropped(kind: Kind, cfg: Config, e: Engine, inputs: seq<Input>, id: Id)
    requires cfg.Valid()
    decreases |inputs|
  {
    inputs != [] ==>
      && !Dropped(kind, cfg, e, inputs[0], id)
      && NeverDropped(kind, cfg, Step(kind, cfg, e, inputs[0]), inputs[1..], id)
  }

  lemma {:induction false} PlaysFollow(v: SeqView, a: seq<LengthCap.Turn>, b: seq<LengthCap.Turn>)
    ensures LengthCap.Play(v, a + b) == LengthCap.Play(LengthCap.Play(v, a), b)
    decreases |a|
  {
    if a == [] {
      assert [] + b == b;
    } else {
      assert (a + b)[1..] == a[1..] + b;
      PlaysFollow(LengthCap.Take(v, a[0]), a[1..], b);
    }
  }

  /** Whatever is sampled, scheduled and preempted, a run is for each sequence that is not dropped the
      life its turns make. */
  lemma {:induction false} RunIsALife(kind: Kind, cfg: Config, e: Engine, inputs: seq<Input>, id: Id)
    requires Inv(cfg, e) && NoPartials(e)
    requires NeverDropped(kind, cfg, e, inputs, id)
    ensures Look(RunSteps(kind, cfg, e, inputs).seqs, id)
            == LengthCap.Play(Look(e.seqs, id), TurnsOver(kind, cfg, e, inputs, id))
    decreases |inputs|
  {
    if inputs != [] {
      var f := Step(kind, cfg, e, inputs[0]);
      var now := TurnsIn(PlanOf(kind, cfg, e, inputs[0]), id, inputs[0].samples);
      StepKeepsInv(kind, cfg, e, inputs[0]);
      if id in e.waiting + e.running {
        StepIsTurns(kind, cfg, e, inputs[0], id);
      } else {
        StepLeavesOthers(kind, cfg, e, inputs[0], id);
      }
      PlaysFollow(Look(e.seqs, id), now, TurnsOver(kind, cfg, f, inputs[1..], id));
      RunIsALife(kind, cfg, f, inputs[1..], id);
    }
  }

  /** So the length cap holds in the engine: the text is the prompt and what was sampled for it, never
      longer than the cap the request came with and what preemptions forgave. */
  lemma CapOverRun(kind: Kind, cfg: Config, e: Engine, inputs: seq<Input>, id: Id)
    requires Inv(cfg, e) && NoPartials(e) && id in e.waiting
    requires NeverDropped(kind, cfg, e, inputs, id)
    ensures var v, w := Look(e.seqs, id), Look(RunSteps(kind, cfg, e, inputs).seqs, id);
            var turns := TurnsOver(kind, cfg, e, inputs, id);
            && w.Text() == v.Text() + LengthCap.Generated(v, turns)
            && w.Len() <= LengthCap.Cap(v) + LengthCap.Forgiven(v, turns)
            && (w.status.FINISHED_LENGTH_CAPPED? ==> w.Len() == LengthCap.Cap(v) + LengthCap.Forgiven(v, turns))
  {
    assert id in e.waiting + e.running;
    RunIsALife(kind, cfg, e, inputs, id);
    LengthCap.CapOverLife(Look(e.seqs, id), TurnsOver(kind, cfg, e, inputs, id));
  }
}
