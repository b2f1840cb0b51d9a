// The decode phase of the vLLM, high-priority and low-priority schedulers, from a reachable
// engine state.
module DecodePhase {
  import opened Lists
  import opened Sequences
  import opened BlockPool
  import opened Reserve
  import opened EngineCore

  ghost predicate NoPartials(e: Engine) {
    forall id :: id in e.running ==> Decoding(Look(e.seqs, id))
  }

  function Decode(cfg: Config, e: Engine, cap: Cap): Reservation
    requires cfg.Valid()
  {
    Run(Start(ByArrival(e.running, e.seqs), e.pool), e.seqs, cap, cfg.size)
  }

  // The queues and tables the decode phase leaves behind.
  function AfterDecode(e: Engine, r: Reservation): Engine {
    Engine(e.waiting + r.victims, r.kept, e.seqs, r.pool)
  }

  ghost predicate Roomy(cap: Cap, n: nat) {
    cap.NoCap? || (cap.n >= n && cap.n >= 1)
  }

  lemma DecodeOwns(cfg: Config, e: Engine, cap: Cap)
    requires Inv(cfg, e) && NoPartials(e)
    requires Roomy(cap, |e.running|)
    ensures var r := Decode(cfg, e, cap);
            && r.partials == []
            && r.slots == r.kept
            && Owns(r.pool, r.kept, cfg.numBlocks)
            && multiset(r.kept) + multiset(r.victims) == multiset(e.running)
  {
    var sorted := ByArrival(e.running, e.seqs);
    var s := Start(sorted, e.pool);
    PermutationMembers(sorted, e.running);
    OwnsPermutation(e.pool, e.running, sorted, cfg.numBlocks);
    NoTail(sorted);
    RunOwns(s, e.seqs, cap, cfg.size, cfg.numBlocks);
    Split(s, e.seqs, cap, cfg.size);
    SlotsAreKept(s, e.seqs, cap, cfg.size);
    NoTail(Decode(cfg, e, cap).kept);
  }

  // A running list between steps may be decoded and preempted.
  lemma RunningPreemptable(cfg: Config, e: Engine)
    requires Inv(cfg, e)
    ensures Preemptable(Start(e.running, e.pool), e.seqs)
  {
    OwnsMeans(e.pool, e.running, cfg.numBlocks);
  }

  lemma RunningOneShort(cfg: Config, e: Engine)
    requires Inv(cfg, e) && NoPartials(e)
    ensures forall id :: id in e.running ==> OneShort(id, e.seqs, e.pool, cfg.size)
  {
    OwnsMeans(e.pool, e.running, cfg.numBlocks);
    forall id | id in e.running ensures OneShort(id, e.seqs, e.pool, cfg.size) {
      BlocksStep(Look(e.seqs, id).Len() - 1, cfg.size);
    }
  }

  lemma DecodeStocks(cfg: Config, e: Engine, cap: Cap)
    requires Inv(cfg, e) && NoPartials(e)
    requires Roomy(cap, |e.running|)
    ensures var r := Decode(cfg, e, cap);
            forall id :: id in r.slots ==> r.pool.Held(id) == Look(e.seqs, id).Need(cfg.size)
  {
    var sorted := ByArrival(e.running, e.seqs);
    var s := Start(sorted, e.pool);
    PermutationMembers(sorted, e.running);
    OwnsPermutation(e.pool, e.running, sorted, cfg.numBlocks);
    NoTail(sorted);
    RunningOneShort(cfg, e);
    RunStocked(s, e.seqs, cap, cfg.size, e.pool, cfg.numBlocks);
  }

  /** Oldest is safe: the earliest arrival in the running list is given its slot, so a decode
      phase with anything running always puts something in the batch. */
  lemma OldestIsSafe(cfg: Config, e: Engine, cap: Cap)
    requires Inv(cfg, e) && NoPartials(e)
    requires Roomy(cap, |e.running|)
    requires e.running != []
    ensures var r := Decode(cfg, e, cap);
            var oldest := ByArrival(e.running, e.seqs)[0];
            && r.slots != [] && r.slots[0] == oldest
            && oldest !in r.victims
            && forall id :: id in e.running ==> Look(e.seqs, oldest).arrival <= Look(e.seqs, id).arrival
  {
    var sorted := ByArrival(e.running, e.seqs);
    var s := Start(sorted, e.pool);
    var r := Decode(cfg, e, cap);
    PermutationMembers(sorted, e.running);
    OwnsPermutation(e.pool, e.running, sorted, cfg.numBlocks);
    var oldest := sorted[0];
    assert oldest in e.waiting + e.running;
    SettledBelowPool(cfg, Look(e.seqs, oldest), e.pool.Held(oldest));
    HeadGetsSlot(s, e.seqs, cap, cfg.size, cfg.numBlocks);
    DecodeOwns(cfg, e, cap);
    DistinctSum(e.waiting, e.running);
    assert oldest !in r.victims by {
      assert multiset(e.running)[oldest] <= 1;
      assert oldest in multiset(r.kept);
      assert oldest in r.victims <==> oldest in multiset(r.victims);
    }
    ByArrivalSorts(e.running, e.seqs);
    forall id | id in e.running ensures Look(e.seqs, oldest).arrival <= Look(e.seqs, id).arrival {
      var i :| 0 <= i < |sorted| && sorted[i] == id;
    }
  }

  // It moves sequences between the queues without losing or copying any.
  lemma DecodeMoves(cfg: Config, e: Engine, cap: Cap)
    requires Inv(cfg, e) && NoPartials(e)
    requires Roomy(cap, |e.running|)
    ensures var r := Decode(cfg, e, cap);
            var f := AfterDecode(e, r);
            && multiset(f.waiting + f.running) == multiset(e.waiting + e.running)
            && Distinct(f.waiting + f.running)
            && (forall id :: id in f.waiting + f.running <==> id in e.waiting + e.running)
            && (forall id :: id in r.victims ==> id in e.running && id !in r.kept)
            && (forall id :: id in r.kept ==> id in e.running)
  {
    var r := Decode(cfg, e, cap);
    var f := AfterDecode(e, r);
    DecodeOwns(cfg, e, cap);
    assert multiset(f.waiting + f.running) == multiset(e.waiting + e.running);
    PermutationMembers(f.waiting + f.running, e.waiting + e.running);
    PermutationMembers(r.kept + r.victims, e.running);
    forall x ensures multiset(f.waiting + f.running)[x] <= 1 {
      assert multiset(e.waiting + e.running)[x] <= 1;
    }
    DistinctSum(f.waiting, f.running);
    forall id | id in r.victims ensures id in e.running && id !in r.kept {
      assert id in r.kept + r.victims;
      assert id in f.waiting;
    }
    forall id | id in r.kept ensures id in e.running {
      assert id in r.kept + r.victims;
    }
  }

  // The decode phase hands execution a well-scheduled batch.
  lemma DecodeSchedules(cfg: Config, e: Engine, cap: Cap)
    requires Inv(cfg, e) && NoPartials(e)
    requires Roomy(cap, |e.running|)
    ensures var r := Decode(cfg, e, cap);
            Scheduled(cfg, AfterDecode(e, r), r.victims, r.slots, DefaultChunks(r.slots, e.seqs))
  {
    var r := Decode(cfg, e, cap);
    var f := AfterDecode(e, r);
    DecodeOwns(cfg, e, cap);
    DecodeStocks(cfg, e, cap);
    DecodeMoves(cfg, e, cap);
    forall id | id in f.waiting + f.running
      ensures Placed(cfg, f, r.victims, r.slots, DefaultChunks(r.slots, e.seqs), id)
    {
      assert id in e.waiting + e.running;
      if id in f.waiting && id !in r.victims { assert id in e.waiting; }
    }
  }
}
