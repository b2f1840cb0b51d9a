/** What the vLLM and high-priority admission loops respect, and why they stop. */
module Budgets {
  import opened Lists
  import opened Sequences
  import opened Reserve
  import opened EngineCore
  import opened DecodePhase
  import opened PrefillFirst

  // Tokens of the prompts in a list.
  function PromptTokens(ids: seq<Id>, seqs: SeqMap): nat {
    if ids == [] then 0 else Look(seqs, ids[0]).Len() + PromptTokens(ids[1..], seqs)
  }

  lemma {:induction false} PromptTokensSnoc(ids: seq<Id>, x: Id, seqs: SeqMap)
    ensures PromptTokens(ids + [x], seqs) == PromptTokens(ids, seqs) + Look(seqs, x).Len()
  {
    if ids == [] {
      assert [] + [x] == [x] && [x][1..] == [];
    } else {
      assert (ids + [x])[1..] == ids[1..] + [x];
      PromptTokensSnoc(ids[1..], x, seqs);
    }
  }

  // The limit on running sequences is strict for vLLM, and for a high-priority instance that
  // enforces it.
  predicate Strict(kind: Kind) { kind.Vllm? || kind.enforce }

  function AtLeastAsMany(a: nat, b: nat): nat { if a >= b then a else b }

  ghost predicate Within(kind: Kind, cfg: Config, e: Engine, a: Admission) {
    && a.tokens == PromptTokens(a.admitted, e.seqs) && (a.admitted != [] ==> a.tokens <= cfg.maxBatched)
    && |a.running| == |e.running| + |a.admitted|
    && (Strict(kind) ==> |a.running| <= AtLeastAsMany(|e.running|, cfg.maxSeqs))
    && (a.admitted == [] ==> a.pool == e.pool)
    && (a.admitted != [] ==> a.pool.free >= cfg.watermark)
  }

  lemma {:induction false} AdmitWithin(kind: Kind, cfg: Config, e: Engine, a: Admission)
    requires cfg.Valid()
    requires Within(kind, cfg, e, a)
    ensures Within(kind, cfg, e, Admit(kind, cfg, a, e.seqs))
    ensures Stops(kind, cfg, Admit(kind, cfg, a, e.seqs), e.seqs)
    decreases |a.waiting|
  {
    if !Stops(kind, cfg, a, e.seqs) {
      PromptTokensSnoc(a.admitted, a.waiting[0], e.seqs);
      AdmitWithin(kind, cfg, e, AdmitNext(kind, cfg, a, e.seqs));
    }
  }

  /** The budgets of an admission: its prompts fit max_num_batched_tokens, leave the watermark
      free and, where the limit is strict, keep to max_num_seqs; and it stops only when nothing
      waits or the next prompt, not an over-long one, would break one of the budgets. */
  lemma AdmissionBudgets(kind: Kind, cfg: Config, e: Engine, order: seq<Id>)
    requires cfg.Valid()
    ensures var a := Admit(kind, cfg, StartAdmission(e, order), e.seqs);
            && Within(kind, cfg, e, a)
            && (a.waiting != [] ==>
                  var v := Look(e.seqs, a.waiting[0]);
                  && v.Len() <= cfg.limit
                  && (|| a.pool.free - v.Need(cfg.size) < cfg.watermark
                      || a.tokens + v.Len() > cfg.maxBatched
                      || (|a.running| >= cfg.maxSeqs && (Strict(kind) || a.pool.free * 20 < cfg.numBlocks))))
  {
    AdmitWithin(kind, cfg, e, StartAdmission(e, order));
  }

  /** Over every run, the running list keeps to max_num_seqs where the limit is strict. */
  lemma StepKeepsWidth(kind: Kind, cfg: Config, e: Engine, input: Input)
    requires Inv(cfg, e) && NoPartials(e)
    requires Strict(kind) && |e.running| <= cfg.maxSeqs
    ensures |Step(kind, cfg, e, input).running| <= cfg.maxSeqs
  {
    var b := Abort(e, input.aborts);
    AbortKeepsInv(cfg, e, input.aborts);
    var p := Schedule(kind, cfg, b, input.clock);
    var order := WaitingOrder(kind, b.waiting, b.seqs, input.clock);
    AdmissionBudgets(kind, cfg, b, order);
    WaitingOrderPermutes(kind, b.waiting, b.seqs, input.clock);
    ReorderKeepsInv(cfg, b, order);
    DecodeOwns(cfg, b.(waiting := order), NoCap);
    var r := Decode(cfg, b, NoCap);
    PermutationMembers(r.kept + r.victims, b.running);
    DispatchShrinks(p, input.samples);
  }

  lemma DispatchShrinks(p: PrefillFirst.Plan, samples: map<Id, Sample>)
    ensures |Dispatch(p, samples).running| <= |p.engine.running|
  {
    if p.scheduled != [] {
      var f := Dispatch(p, samples);
      CompleteConserves(p.engine, p.victims, p.scheduled, DefaultChunks(p.scheduled, p.engine.seqs), samples);
      assert |p.engine.running| == |multiset(p.engine.running)|;
      assert |f.running| == |multiset(f.running)|;
    }
  }

  lemma {:induction false} RunKeepsWidth(kind: Kind, cfg: Config, e: Engine, events: seq<Event>)
    requires Inv(cfg, e) && NoPartials(e)
    requires ProperRun(kind, cfg, e, events)
    requires Strict(kind) && |e.running| <= cfg.maxSeqs
    ensures |RunOf(kind, cfg, e, events).running| <= cfg.maxSeqs
    decreases |events|
  {
    if events != [] {
      if events[0].Tick? {
        StepKeepsWidth(kind, cfg, e, events[0].input);
        StepKeepsInv(kind, cfg, e, events[0].input);
      } else {
        ArriveKeepsInv(cfg, e, events[0].id, events[0].view);
      }
      RunKeepsWidth(kind, cfg, Apply(kind, cfg, e, events[0]), events[1..]);
    }
  }
}
