/** The Sarathi engine: the loops of its scheduler and the step that drives them, against the
    functions of module Sarathi. */
module SarathiEngine {
  import opened Lists
  import opened Sequences
  import opened BlockPool
  import opened BlockSpace
  import opened Reserve
  import opened EngineCore
  import DecodePhase
  import opened Sarathi
  import opened Scheduling
  import PrefillFirst
  import SequenceManager
  import SarathiFailure

  // The batch a schedule call fills.
  datatype Batch = Batch(tokens: int, scheduled: seq<Id>, chunks: map<Id, nat>, negative: bool)

  function BatchOf(c: Chunking): Batch { Batch(c.tokens, c.scheduled, c.chunks, c.negative) }

  function AddTo(b: Batch, id: Id, n: int): Batch {
    Batch(b.tokens + n, b.scheduled + [id], b.chunks[id := if n > 0 then n else 0], b.negative || n < 0)
  }

  datatype Verdict = Full | Overlong | Taken

  class Engine {
    const base: BaseScheduler
    const chunkSize: nat

    ghost function Repr(): set<object> { {this} + base.Repr() }

    ghost predicate Valid()
      reads this, base, base.blocks, base.blocks.allocator
    {
      base.Valid() && base.requeues
    }

    function State(): EngineCore.Engine
      reads base, base.blocks, base.blocks.allocator
    {
      base.State()
    }

    constructor (cfg: Config, watermark: real, chunkSize: nat)
      requires cfg.Valid()
      requires watermark >= 0.0 && cfg.watermark == (watermark * cfg.numBlocks as real).Floor
      ensures Valid() && fresh(Repr() - {this})
      ensures base.cfg == cfg && this.chunkSize == chunkSize && State() == PrefillFirst.Idle(cfg)
    {
      base := new BaseScheduler(cfg, watermark, true);
      this.chunkSize := chunkSize;
    }

    // _get_seq_next_num_prefill_tokens
    method GetSeqNextNumPrefillTokens(id: Id, tokens: int) returns (n: int)
      requires !base.View(id).status.Finished()
      ensures n == NextTokens(base.View(id), chunkSize, tokens)
      ensures n <= chunkSize - tokens && n <= |base.View(id).prompt| - base.View(id).staged
    {
      n := |base.View(id).prompt| - base.View(id).staged;
      if chunkSize - tokens < n {
        n := chunkSize - tokens;
      }
    }

    // How far the schedule call has got.
    ghost predicate Builds(c: Chunking)
      reads base, base.blocks, base.blocks.allocator
    {
      && c.waiting == base.waiting && c.running == base.running && c.pool == base.blocks.Counts()
      && !c.overlong
    }

    // The prompts left half processed continue; their blocks are already there.
    method ContinuePartials(partials: seq<Id>, b: Batch, ghost c: Chunking) returns (d: Batch, ghost n: Chunking)
      requires Valid()
      requires Builds(c) && b == BatchOf(c)
      requires forall id :: id in partials ==> !base.View(id).stageDone && !base.View(id).status.Finished()
      modifies base`running
      ensures Valid()
      ensures n == TakePartials(c, partials, base.seqs, chunkSize)
      ensures Builds(n) && d == BatchOf(n)
    {
      d, n := b, c;
      for i := 0 to |partials|
        invariant Valid()
        invariant Builds(n) && d == BatchOf(n)
        invariant TakePartials(n, partials[i..], base.seqs, chunkSize) == TakePartials(c, partials, base.seqs, chunkSize)
      {
        var id := partials[i];
        assert partials[i..][1..] == partials[i + 1..];
        assert id in partials;
        assert !base.View(id).stageDone;
        var next := GetSeqNextNumPrefillTokens(id, d.tokens);
        base.running := base.running + [id];
        if next == 0 {
          n := n.(running := n.running + [id]);
        } else {
          n := Put(n, id, next);
          d := AddTo(d, id, next);
        }
      }
    }

    // The prompt in front of the waiting list.
    method AdmitFront(b: Batch, ghost c: Chunking) returns (verdict: Verdict, d: Batch, ghost n: Chunking)
      requires Valid()
      requires Builds(c) && b == BatchOf(c) && Open(c, base.seqs)
      requires base.waiting != []
      modifies base.Repr()
      ensures Valid()
      ensures verdict.Full? <==> Stops(base.cfg, c, old(base.seqs), chunkSize)
      ensures n == if verdict.Full? then c else AdmitNext(base.cfg, c, old(base.seqs), chunkSize)
      ensures verdict.Overlong? <==> n.overlong
      ensures !n.overlong ==> Builds(n) && d == BatchOf(n) && base.seqs == old(base.seqs) && Open(n, base.seqs)
    {
      var id := base.waiting[0];
      assert id in c.waiting;
      d, n := b, c;
      var fits := base.CheckRequestPromptLength(id);
      if !fits {
        n := AdmitNext(base.cfg, c, old(base.seqs), chunkSize);
        return Overlong, d, n;
      }
      var can := base.blocks.CanAllocate(base.View(id).Need(base.cfg.size));
      if !can {
        return Full, d, n;
      }
      if |base.running| >= base.cfg.maxSeqs {
        return Full, d, n;
      }
      var next := GetSeqNextNumPrefillTokens(id, d.tokens);
      if next == 0 {
        return Full, d, n;
      }
      AdmitNextOpen(base.cfg, c, base.seqs, chunkSize);
      base.waiting := base.waiting[1..];
      base.Allocate(id);
      base.running := base.running + [id];
      n := AdmitNext(base.cfg, c, base.seqs, chunkSize);
      return Taken, AddTo(d, id, next), n;
    }

    // ok is false where an over-long prompt makes the source raise.
    method AdmitWaiting(b: Batch, ghost c: Chunking) returns (ok: bool, d: Batch)
      requires Valid()
      requires Builds(c) && b == BatchOf(c) && Open(c, base.seqs)
      modifies base.Repr()
      ensures Valid()
      ensures var n := Admit(base.cfg, c, old(base.seqs), chunkSize);
              && (ok <==> !n.overlong)
              && (0 <= c.tokens <= chunkSize && SarathiFailure.Staged(c.waiting, old(base.seqs)) ==>
                    (ok <==> !SarathiFailure.OverlongReached(base.cfg, SarathiFailure.RoomAt(c), old(base.seqs), chunkSize)))
              && (ok ==> Builds(n) && d == BatchOf(n) && base.seqs == old(base.seqs))
    {
      ghost var goal := Admit(base.cfg, c, base.seqs, chunkSize);
      LoopCondition(base.cfg, c, base.seqs, chunkSize);
      ghost var n := c;
      d, ok := b, true;
      while base.waiting != []
        invariant Valid()
        invariant Builds(n) && d == BatchOf(n) && base.seqs == old(base.seqs)
        invariant Open(n, base.seqs)
        invariant Admit(base.cfg, n, base.seqs, chunkSize) == goal
        decreases |base.waiting|
      {
        var verdict;
        verdict, d, n := AdmitFront(d, n);
        if verdict.Full? {
          break;
        }
        if verdict.Overlong? {
          assert goal == n;
          return false, d;
        }
      }
      assert goal == n;
    }

    method Schedule() returns (ok: bool, victims: seq<Id>, scheduled: seq<Id>, chunks: map<Id, nat>)
      requires Valid()
      requires CanSchedule(base.cfg, State(), chunkSize)
      modifies base.Repr()
      ensures Valid()
      ensures var c := Sarathi.Schedule(base.cfg, old(State()), chunkSize);
              && (ok <==> !c.overlong && !c.negative)
              && (ok ==> && State() == AsEngine(old(State()), c)
                         && victims == Reserved(base.cfg, old(State())).victims
                         && scheduled == c.scheduled && chunks == c.chunks)
    {
      ghost var e := State();
      var partials, slots;
      partials, victims, slots := base.ReserveSlots(NoCap);
      ghost var r := Reserved(base.cfg, e);
      ghost var c := AfterDecodes(e, r);
      var batch := Batch(|slots|, slots, map id | id in slots :: 0, false);
      batch, c := ContinuePartials(partials, batch, c);
      ok, batch := AdmitWaiting(batch, c);
      ok := ok && !batch.negative;
      scheduled, chunks := batch.scheduled, batch.chunks;
    }

    /** One step of the engine. It raises exactly when its waiting loop gets to an over-long
        sequence; otherwise every assertion it passes holds and every token of its batch has a
        slot of its own. */
    method Step(aborts: set<Id>, samples: map<Id, Sample>) returns (ok: bool)
      requires Valid()
      requires SarathiInv(base.cfg, State(), chunkSize)
      modifies base.Repr()
      ensures Valid()
      ensures var o := Sarathi.Step(base.cfg, old(State()), chunkSize, aborts, samples);
              && (ok <==> o.Stepped?)
              && (ok ==> State() == o.engine && SarathiInv(base.cfg, State(), chunkSize))
      ensures var b := PrefillFirst.Abort(old(State()), aborts);
              ok <==> !SarathiFailure.OverlongReached(base.cfg, SarathiFailure.RoomOf(base.cfg, b), b.seqs, chunkSize)
    {
      StepKeepsSarathiInv(base.cfg, State(), chunkSize, aborts, samples);
      SarathiFailure.FailsExactly(base.cfg, State(), chunkSize, aborts, samples);
      AbortedCanStep(base.cfg, State(), chunkSize, aborts);
      ok := Advance(aborts, samples);
    }

    method Advance(aborts: set<Id>, samples: map<Id, Sample>) returns (ok: bool)
      requires Valid()
      requires var b := PrefillFirst.Abort(State(), aborts); CanSchedule(base.cfg, b, chunkSize) && BatchRuns(base.cfg, b, chunkSize)
      modifies base.Repr()
      ensures Valid()
      ensures var o := Sarathi.Step(base.cfg, old(State()), chunkSize, aborts, samples);
              && (ok <==> o.Stepped?)
              && (ok ==> State() == o.engine)
    {
      var aborted := base.AbortLongWaiting(aborts);
      var victims, scheduled, chunks;
      ok, victims, scheduled, chunks := Prepare();
      if ok && scheduled != [] {
        base.ExecuteBatch(victims, scheduled, chunks, samples);
      }
    }

    method Prepare() returns (ok: bool, victims: seq<Id>, scheduled: seq<Id>, chunks: map<Id, nat>)
      requires Valid()
      requires CanSchedule(base.cfg, State(), chunkSize) && BatchRuns(base.cfg, State(), chunkSize)
      modifies base.Repr()
      ensures Valid()
      ensures var c := Sarathi.Schedule(base.cfg, old(State()), chunkSize);
              && (ok <==> !c.overlong && !c.negative)
              && (ok ==> && State() == AsEngine(old(State()), c)
                         && victims == Reserved(base.cfg, old(State())).victims
                         && scheduled == c.scheduled && chunks == c.chunks)
      ensures ok ==> SequenceManager.Accepts(base.seqs, victims, scheduled, chunks, true)
      ensures ok ==> Isolated(base.blocks.blockTables, base.cfg.size, scheduled, base.seqs)
    {
      ok, victims, scheduled, chunks := Schedule();
      if ok {
        FullTablesAreIsolated(base.blocks.allocator.freeBlocks, base.blocks.blockTables, base.cfg.numBlocks,
                              base.cfg.size, scheduled, base.seqs);
      }
    }
  }

  // What the waiting loop may rely on: waiting sequences have no table and have not finished.
  ghost predicate Open(c: Chunking, seqs: SeqMap) {
    && Distinct(c.waiting)
    && forall id :: id in c.waiting ==> id !in c.pool.held && !Look(seqs, id).status.Finished()
  }

  lemma LoopCondition(cfg: Config, c: Chunking, seqs: SeqMap, chunkSize: nat)
    requires cfg.Valid() && !c.overlong
    ensures 0 <= c.tokens <= chunkSize && SarathiFailure.Staged(c.waiting, seqs) ==>
              (Admit(cfg, c, seqs, chunkSize).overlong
               <==> SarathiFailure.OverlongReached(cfg, SarathiFailure.RoomAt(c), seqs, chunkSize))
  {
    if 0 <= c.tokens <= chunkSize && SarathiFailure.Staged(c.waiting, seqs) {
      SarathiFailure.LoopFailsExactly(cfg, c, seqs, chunkSize);
    }
  }

  lemma AdmitNextOpen(cfg: Config, c: Chunking, seqs: SeqMap, chunkSize: nat)
    requires cfg.Valid()
    requires Open(c, seqs) && !Stops(cfg, c, seqs, chunkSize)
    ensures Open(AdmitNext(cfg, c, seqs, chunkSize), seqs)
  {
    DistinctTail(c.waiting);
  }

  ghost predicate CanSchedule(cfg: Config, e: EngineCore.Engine, chunkSize: nat)
    requires cfg.Valid()
  {
    var r := Reserved(cfg, e);
    && Preemptable(Start(e.running, e.pool), e.seqs)
    && (forall id :: id in r.partials ==> !Look(e.seqs, id).stageDone && !Look(e.seqs, id).status.Finished())
    && Open(AfterPartials(cfg, e, chunkSize), e.seqs)
  }

  // The batch is one the sequence manager accepts, with full tables.
  ghost predicate BatchRuns(cfg: Config, e: EngineCore.Engine, chunkSize: nat)
    requires cfg.Valid()
  {
    var c := Sarathi.Schedule(cfg, e, chunkSize);
    var f := AsEngine(e, c);
    && SequenceManager.Accepts(f.seqs, Reserved(cfg, e).victims, c.scheduled, c.chunks, true)
    && forall id :: id in c.scheduled ==> id in f.pool.held && f.pool.held[id] == Look(f.seqs, id).Need(cfg.size)
  }

  lemma AbortedCanStep(cfg: Config, e: EngineCore.Engine, chunkSize: nat, aborts: set<Id>)
    requires SarathiInv(cfg, e, chunkSize)
    ensures var b := PrefillFirst.Abort(e, aborts); CanSchedule(cfg, b, chunkSize) && BatchRuns(cfg, b, chunkSize)
  {
    PrefillFirst.AbortKeepsInv(cfg, e, aborts);
    InvCanSchedule(cfg, PrefillFirst.Abort(e, aborts), chunkSize);
    InvBatchRuns(cfg, PrefillFirst.Abort(e, aborts), chunkSize);
  }

  lemma InvCanSchedule(cfg: Config, e: EngineCore.Engine, chunkSize: nat)
    requires SarathiInv(cfg, e, chunkSize)
    ensures CanSchedule(cfg, e, chunkSize)
  {
    ReservedIsOk(cfg, e);
    ReservedMembers(cfg, e, Reserved(cfg, e));
    DecodePhase.RunningPreemptable(cfg, e);
    PartialsLeaveOpen(cfg, e, chunkSize);
  }

  lemma PartialsLeaveOpen(cfg: Config, e: EngineCore.Engine, chunkSize: nat)
    requires SarathiInv(cfg, e, chunkSize)
    ensures Open(AfterPartials(cfg, e, chunkSize), e.seqs)
  {
    var r := Reserved(cfg, e);
    var c := AfterPartials(cfg, e, chunkSize);
    ReservedIsOk(cfg, e);
    ReservedMembers(cfg, e, r);
    TakingLeavesWaiting(AfterDecodes(e, r), r.partials, e.seqs, chunkSize);
    DistinctSum(e.waiting + r.victims, r.kept + r.partials);
    OwnsMeans(r.pool, r.kept + r.partials, cfg.numBlocks);
    forall id | id in c.waiting ensures id !in c.pool.held && !Look(e.seqs, id).status.Finished() {
      assert id in e.waiting || id in r.victims;
    }
  }

  lemma InvBatchRuns(cfg: Config, e: EngineCore.Engine, chunkSize: nat)
    requires SarathiInv(cfg, e, chunkSize)
    ensures BatchRuns(cfg, e, chunkSize)
  {
    var c := Sarathi.Schedule(cfg, e, chunkSize);
    var victims := Reserved(cfg, e).victims;
    BatchIsFilled(cfg, e, chunkSize);
    PartialsFill(cfg, e, chunkSize);
    FilledIsScheduled(cfg, e, victims, chunkSize, c);
    DistinctSum(e.waiting, victims);
    OwnsMeans(c.pool, c.running, cfg.numBlocks);
    VictimsStay(e, c, victims);
    SequenceManager.ScheduledIsAccepted(cfg, AsEngine(e, c), victims, c.scheduled, c.chunks);
    ScheduledIsCovered(cfg, AsEngine(e, c), victims, c.scheduled, c.chunks);
  }

  lemma VictimsStay(e: EngineCore.Engine, c: Chunking, victims: seq<Id>)
    requires multiset(c.waiting) + multiset(c.running) == multiset(e.waiting) + multiset(e.running)
    requires forall id :: id in victims ==> id in e.running
    ensures forall id :: id in victims ==> id in c.waiting + c.running
  {
    PermutationMembers(c.waiting + c.running, e.waiting + e.running);
    forall id | id in victims ensures id in c.waiting + c.running {
      assert id in e.waiting + e.running;
    }
  }
}
