/** One engine's state, what executing a scheduled batch does to it, and the invariant that
    every scheduler's step keeps. Pipeline size is one: a step is scheduled, executed and
    completed before the next one starts. */
module EngineCore {
  import opened Lists
  import opened Sequences
  import opened BlockPool

  datatype Config = Config(
    size: nat,        // tokens per block
    numBlocks: nat,   // blocks in the pool
    watermark: nat,   // blocks kept free at admission
    limit: nat,       // prompt_limit: longer prompts are ignored
    maxBatched: nat,  // max_num_batched_tokens
    maxSeqs: nat)     // max_num_seqs
  {
    predicate Valid() { size > 0 && maxSeqs >= 1 }

    // No sequence admitted under the prompt limit can come to need the whole pool.
    predicate Fits(v: SeqView)
      requires Valid()
    {
      v.maxTokens >= 1 && Blocks(limit + v.maxTokens, size) < numBlocks
    }
  }

  datatype Engine = Engine(waiting: seq<Id>, running: seq<Id>, seqs: SeqMap, pool: Pool)

  function Chunk(chunks: map<Id, nat>, id: Id): nat {
    if id in chunks then chunks[id] else 0
  }

  function SampleOf(samples: map<Id, Sample>, id: Id): Sample {
    if id in samples then samples[id] else Sample(0, false)
  }

  // from_sequence without an explicit chunk: a decode, or the whole prompt.
  function DefaultChunk(v: SeqView): nat {
    if v.stageDone then 0 else |v.prompt|
  }

  function DefaultChunks(ids: seq<Id>, seqs: SeqMap): map<Id, nat> {
    map id | id in ids :: DefaultChunk(Look(seqs, id))
  }

  /** on_schedule followed by on_step_completed of the sequence manager: preempted sequences
      are reset for recomputation, then every scheduled one is resumed, executed and paused. */
  function ExecutedView(id: Id, v: SeqView, victims: seq<Id>, scheduled: seq<Id>,
                        chunks: map<Id, nat>, samples: map<Id, Sample>): SeqView
  {
    var w := if id in victims then v.ResetForRecompute() else v;
    if id in scheduled then w.Executed(Chunk(chunks, id), SampleOf(samples, id)) else w
  }

  function Execute(seqs: SeqMap, victims: seq<Id>, scheduled: seq<Id>,
                   chunks: map<Id, nat>, samples: map<Id, Sample>): SeqMap
  {
    map id | id in seqs :: ExecutedView(id, seqs[id], victims, scheduled, chunks, samples)
  }

  function Mark(seqs: SeqMap, ids: seq<Id>, status: Status): SeqMap {
    map id | id in seqs :: if id in ids then seqs[id].(status := status) else seqs[id]
  }

  lemma MarkNone(seqs: SeqMap, status: Status)
    ensures Mark(seqs, [], status) == seqs
  {}

  lemma MarkMore(seqs: SeqMap, ids: seq<Id>, id: Id, status: Status)
    ensures Mark(seqs, ids + [id], status) == Mark(Mark(seqs, ids, status), [id], status)
  {}

  function FinishedOf(ids: seq<Id>, seqs: SeqMap): set<Id> {
    set id | id in ids && Look(seqs, id).status.Finished()
  }

  // free_finished_seqs
  function FreeFinished(e: Engine): Engine {
    var gone := FinishedOf(e.running, e.seqs);
    e.(running := Without(e.running, gone), pool := e.pool.ReleaseAll(Within(e.running, gone)))
  }

  function Complete(e: Engine, victims: seq<Id>, scheduled: seq<Id>,
                    chunks: map<Id, nat>, samples: map<Id, Sample>): Engine
  {
    FreeFinished(e.(seqs := Execute(e.seqs, victims, scheduled, chunks, samples)))
  }

  /** The invariant. */

  // Waiting, with nothing of its prompt processed and nothing generated.
  ghost predicate Fresh(v: SeqView) {
    && v.status.WAITING?
    && |v.prompt| >= 1 && v.output == []
    && v.processed == v.staged == 0 && !v.promptDone && !v.stageDone
  }

  // Between two decodes.
  ghost predicate Decoding(v: SeqView) {
    && v.status.PAUSED?
    && v.promptDone && v.stageDone && v.processed == v.staged == |v.prompt|
    && 1 <= |v.output| < v.maxTokens
    && v.everScheduled
  }

  // Between two chunks of its prompt.
  ghost predicate Partial(v: SeqView) {
    && v.status.PAUSED?
    && v.output == []
    && 0 < v.processed == v.staged < |v.prompt|
    && !v.promptDone && !v.stageDone
    && v.everScheduled
  }

  ghost predicate Live(v: SeqView) { Decoding(v) || Partial(v) }

  // A running sequence and its table: the last generated token has no slot yet.
  ghost predicate Settled(cfg: Config, v: SeqView, held: nat)
    requires cfg.Valid()
  {
    && Live(v)
    && |v.prompt| <= cfg.limit
    && held == Blocks(if Decoding(v) then v.Len() - 1 else |v.prompt|, cfg.size)
  }

  ghost predicate Inv(cfg: Config, e: Engine) {
    && cfg.Valid()
    && Distinct(e.waiting + e.running)
    && (forall id :: id in e.waiting ==> id in e.seqs && Fresh(e.seqs[id]))
    && (forall id :: id in e.running ==> id in e.seqs && Settled(cfg, e.seqs[id], e.pool.Held(id)))
    && (forall id :: id in e.waiting + e.running ==> cfg.Fits(Look(e.seqs, id)))
    && Owns(e.pool, e.running, cfg.numBlocks)
  }

  /** Between steps a running sequence's table has a block for every logical block, or all but
      the last one. */
  lemma TableLengths(cfg: Config, e: Engine, id: Id)
    requires Inv(cfg, e)
    requires id in e.running
    ensures id in e.pool.held
    ensures e.pool.held[id] <= Look(e.seqs, id).Need(cfg.size) <= e.pool.held[id] + 1
  {
    OwnsMeans(e.pool, e.running, cfg.numBlocks);
    assert Settled(cfg, e.seqs[id], e.pool.Held(id));
    if Decoding(e.seqs[id]) { BlocksStep(e.seqs[id].Len() - 1, cfg.size); }
  }

  // A batch entry just before execution: it has a block for every token it will write.
  ghost predicate Ready(cfg: Config, v: SeqView, held: nat, chunk: nat)
    requires cfg.Valid()
  {
    && |v.prompt| <= cfg.limit
    && v.maxTokens >= 1
    && held == v.Need(cfg.size)
    && (Decoding(v) || ((Fresh(v) || Partial(v)) && 1 <= chunk <= |v.prompt| - v.processed))
  }

  lemma ExecutedIsSettled(cfg: Config, v: SeqView, held: nat, chunk: nat, sample: Sample)
    requires cfg.Valid()
    requires Ready(cfg, v, held, chunk)
    ensures var w := v.Executed(chunk, sample);
            w.status.Finished() || Settled(cfg, w, held)
  {}

  lemma ResetIsFresh(v: SeqView)
    requires Live(v)
    ensures Fresh(v.ResetForRecompute())
  {}

  // Settled sequences never hold the whole pool.
  lemma SettledBelowPool(cfg: Config, v: SeqView, held: nat)
    requires cfg.Valid()
    requires Settled(cfg, v, held)
    requires cfg.Fits(v)
    ensures held < cfg.numBlocks
  {
    BlocksMonotone(if Decoding(v) then v.Len() - 1 else |v.prompt|, cfg.limit + v.maxTokens, cfg.size);
  }

  // One sequence between scheduling and execution.
  ghost predicate Placed(cfg: Config, e: Engine, victims: seq<Id>, scheduled: seq<Id>, chunks: map<Id, nat>, id: Id)
    requires cfg.Valid()
  {
    && id in e.seqs
    && cfg.Fits(e.seqs[id])
    && (id in victims ==> Live(e.seqs[id]))
    && (id in e.waiting && id !in victims ==> Fresh(e.seqs[id]))
    && (id in e.running ==>
          if id in scheduled then
            Ready(cfg, if id in victims then e.seqs[id].ResetForRecompute() else e.seqs[id],
                  e.pool.Held(id), Chunk(chunks, id))
          else
            id !in victims && Settled(cfg, e.seqs[id], e.pool.Held(id)))
  }

  // Between scheduling and execution.
  ghost predicate Scheduled(cfg: Config, e: Engine, victims: seq<Id>, scheduled: seq<Id>, chunks: map<Id, nat>) {
    && cfg.Valid()
    && Distinct(e.waiting + e.running)
    && Owns(e.pool, e.running, cfg.numBlocks)
    && (forall id :: id in scheduled ==> id in e.running)
    && (forall id :: id in e.waiting + e.running ==> Placed(cfg, e, victims, scheduled, chunks, id))
  }

  // Every batch entry has a block for each of its logical blocks.
  lemma ScheduledIsCovered(cfg: Config, e: Engine, victims: seq<Id>, scheduled: seq<Id>, chunks: map<Id, nat>)
    requires Scheduled(cfg, e, victims, scheduled, chunks)
    ensures forall id :: id in scheduled ==>
              id in e.pool.held && e.pool.held[id] == Look(e.seqs, id).Need(cfg.size)
  {
    OwnsMeans(e.pool, e.running, cfg.numBlocks);
    forall id | id in scheduled ensures e.pool.Held(id) == Look(e.seqs, id).Need(cfg.size) {
      assert id in e.waiting + e.running;
      assert Placed(cfg, e, victims, scheduled, chunks, id);
    }
  }

  lemma ExecuteSettlesOne(cfg: Config, e: Engine, victims: seq<Id>, scheduled: seq<Id>,
                          chunks: map<Id, nat>, samples: map<Id, Sample>, id: Id)
    requires Scheduled(cfg, e, victims, scheduled, chunks)
    requires id in e.waiting + e.running
    ensures id in e.seqs
    ensures var w := ExecutedView(id, e.seqs[id], victims, scheduled, chunks, samples);
            && cfg.Fits(w)
            && (id in e.waiting ==> Fresh(w))
            && (id in e.running ==> w.status.Finished() || Settled(cfg, w, e.pool.Held(id)))
  {
    DistinctSum(e.waiting, e.running);
    var v := if id in victims then e.seqs[id].ResetForRecompute() else e.seqs[id];
    assert cfg.Fits(v);
    if id in scheduled {
      ExecutedIsSettled(cfg, v, e.pool.Held(id), Chunk(chunks, id), SampleOf(samples, id));
    } else if id in victims {
      ResetIsFresh(e.seqs[id]);
    }
  }

  lemma ExecuteSettles(cfg: Config, e: Engine, victims: seq<Id>, scheduled: seq<Id>,
                       chunks: map<Id, nat>, samples: map<Id, Sample>)
    requires Scheduled(cfg, e, victims, scheduled, chunks)
    ensures var s := Execute(e.seqs, victims, scheduled, chunks, samples);
            && (forall id :: id in e.waiting ==> id in s && Fresh(s[id]))
            && (forall id :: id in e.running ==> id in s && (s[id].status.Finished() || Settled(cfg, s[id], e.pool.Held(id))))
            && (forall id :: id in e.waiting + e.running ==> cfg.Fits(Look(s, id)))
  {
    forall id | id in e.waiting + e.running
      ensures id in e.seqs
      ensures var w := ExecutedView(id, e.seqs[id], victims, scheduled, chunks, samples);
              && cfg.Fits(w)
              && (id in e.waiting ==> Fresh(w))
              && (id in e.running ==> w.status.Finished() || Settled(cfg, w, e.pool.Held(id)))
    {
      ExecuteSettlesOne(cfg, e, victims, scheduled, chunks, samples, id);
    }
  }

  lemma FreeFinishedInv(cfg: Config, e: Engine)
    requires cfg.Valid()
    requires Distinct(e.waiting + e.running)
    requires forall id :: id in e.waiting ==> id in e.seqs && Fresh(e.seqs[id])
    requires forall id :: id in e.running ==>
               id in e.seqs && (e.seqs[id].status.Finished() || Settled(cfg, e.seqs[id], e.pool.Held(id)))
    requires forall id :: id in e.waiting + e.running ==> cfg.Fits(Look(e.seqs, id))
    requires Owns(e.pool, e.running, cfg.numBlocks)
    ensures Inv(cfg, FreeFinished(e))
  {
    var gone := FinishedOf(e.running, e.seqs);
    var f := FreeFinished(e);
    WithoutWithin(e.running, gone);
    NoTail(e.running);
    NoTail(Without(e.running, gone));
    OwnsReleaseAll(e.pool, [], e.running, gone, cfg.numBlocks);
    assert Distinct(f.waiting + f.running) by {
      forall x ensures multiset(f.waiting + f.running)[x] <= 1 {
        assert multiset(e.waiting + e.running)[x] <= 1;
      }
    }
    forall id | id in f.running ensures id in f.seqs && Settled(cfg, f.seqs[id], f.pool.Held(id)) {
      ReleaseAllFrame(e.pool, Within(e.running, gone), id);
    }
  }

  /** Executing a well-scheduled batch re-establishes the invariant. */
  lemma CompleteInv(cfg: Config, e: Engine, victims: seq<Id>, scheduled: seq<Id>,
                    chunks: map<Id, nat>, samples: map<Id, Sample>)
    requires Scheduled(cfg, e, victims, scheduled, chunks)
    ensures Inv(cfg, Complete(e, victims, scheduled, chunks, samples))
  {
    ExecuteSettles(cfg, e, victims, scheduled, chunks, samples);
    FreeFinishedInv(cfg, e.(seqs := Execute(e.seqs, victims, scheduled, chunks, samples)));
  }

  // Nothing is lost: what was running either still is or has finished.
  lemma CompleteConserves(e: Engine, victims: seq<Id>, scheduled: seq<Id>,
                          chunks: map<Id, nat>, samples: map<Id, Sample>)
    ensures var f := Complete(e, victims, scheduled, chunks, samples);
            && f.waiting == e.waiting
            && multiset(e.running) == multiset(f.running) + multiset(Within(e.running, FinishedOf(e.running, f.seqs)))
            && (forall id :: id in f.running ==> id in e.running && !Look(f.seqs, id).status.Finished())
  {
    var seqs := Execute(e.seqs, victims, scheduled, chunks, samples);
    WithoutWithin(e.running, FinishedOf(e.running, seqs));
  }

  lemma CompleteShrinks(e: Engine, victims: seq<Id>, scheduled: seq<Id>, chunks: map<Id, nat>, samples: map<Id, Sample>)
    ensures |Complete(e, victims, scheduled, chunks, samples).running| <= |e.running|
  {
    var f := Complete(e, victims, scheduled, chunks, samples);
    CompleteConserves(e, victims, scheduled, chunks, samples);
    assert |e.running| == |multiset(e.running)|;
    assert |f.running| == |multiset(f.running)|;
  }
}
