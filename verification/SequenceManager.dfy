/** The sequence manager: what happens to the sequences of a scheduled batch before and after the
    model runs. Its two loops compute the Execute functions the invariants are stated with. */
module SequenceManager {
  import opened Lists
  import opened Sequences
  import opened EngineCore
  import DecodeInstance

  function Reset(v: SeqView, recompute: bool): SeqView {
    if recompute then v.ResetForRecompute() else v.ResetButNotRecompute()
  }

  function Resumed(v: SeqView): SeqView {
    v.(status := RUNNING, everScheduled := true)
  }

  // One sequence after its forward pass.
  function Completed(v: SeqView, chunk: nat, sample: Sample): SeqView {
    var advanced := if v.promptDone then v else v.AdvancePrompt(chunk);
    var paused := advanced.(status := PAUSED);
    if paused.promptDone then paused.AppendToken(sample.token).CheckStop(sample.stopString) else paused
  }

  // What the manager asserts of a batch entry.
  predicate Runnable(v: SeqView, chunk: nat) {
    && (v.status.WAITING? || v.status.PAUSED?)
    && (!v.promptDone ==> chunk > 0 && !v.stageDone
                          && v.staged + chunk <= |v.prompt| && v.processed + chunk <= |v.prompt|)
  }

  // Views after the first so many preempted sequences have been reset.
  function AfterReset(v: SeqView, hit: bool, recompute: bool): SeqView {
    if hit then Reset(v, recompute) else v
  }

  function AfterResume(v: SeqView, hit: bool): SeqView {
    if hit then Resumed(v) else v
  }

  function AfterCompletion(v: SeqView, hit: bool, chunk: nat, sample: Sample): SeqView {
    if hit then Completed(v, chunk, sample) else v
  }

  lemma NotYet(ids: seq<Id>, i: nat)
    requires Distinct(ids)
    requires i < |ids|
    ensures ids[i] !in ids[..i]
    ensures ids[..i + 1] == ids[..i] + [ids[i]]
  {
    var x := ids[i];
    assert ids == ids[..i] + [x] + ids[i + 1..];
    DistinctSplit(ids[..i], x, ids[i + 1..]);
  }

  method ResetPreempted(seqs: SeqMap, preempted: seq<Id>, recompute: bool) returns (out: SeqMap)
    requires Distinct(preempted)
    requires forall id :: id in preempted ==> id in seqs && seqs[id].status.Executing()
    ensures out == map id | id in seqs :: AfterReset(seqs[id], id in preempted, recompute)
  {
    out := seqs;
    for i := 0 to |preempted|
      invariant out == map id | id in seqs :: AfterReset(seqs[id], id in preempted[..i], recompute)
    {
      var id := preempted[i];
      NotYet(preempted, i);
      assert out[id].status.Executing();
      out := out[id := Reset(out[id], recompute)];
    }
    assert preempted[..|preempted|] == preempted;
  }

  method ResumeScheduled(seqs: SeqMap, scheduled: seq<Id>) returns (out: SeqMap)
    requires Distinct(scheduled)
    requires forall id :: id in scheduled ==> id in seqs && (seqs[id].status.WAITING? || seqs[id].status.PAUSED?)
    ensures out == map id | id in seqs :: AfterResume(seqs[id], id in scheduled)
  {
    out := seqs;
    for i := 0 to |scheduled|
      invariant out == map id | id in seqs :: AfterResume(seqs[id], id in scheduled[..i])
    {
      var id := scheduled[i];
      NotYet(scheduled, i);
      assert out[id].status.WAITING? || out[id].status.PAUSED?;
      out := out[id := Resumed(out[id])];
    }
    assert scheduled[..|scheduled|] == scheduled;
  }

  // update_prompt_tokens_stage_processed and update_prompt_tokens_processed
  method UpdatePrompt(v: SeqView, chunk: nat) returns (w: SeqView)
    requires !v.promptDone && !v.stageDone && chunk > 0
    requires v.staged + chunk <= |v.prompt| && v.processed + chunk <= |v.prompt|
    ensures w == v.AdvancePrompt(chunk)
  {
    w := v.(staged := v.staged + chunk);
    if w.staged == |w.prompt| {
      w := w.(stageDone := true);
    }
    w := w.(processed := w.processed + chunk);
    if w.processed == |w.prompt| {
      w := w.(promptDone := true);
    }
  }

  method OnStepCompleted(seqs: SeqMap, scheduled: seq<Id>, chunks: map<Id, nat>, samples: map<Id, Sample>) returns (out: SeqMap)
    requires Distinct(scheduled)
    requires forall id :: id in scheduled ==>
               id in seqs && seqs[id].status.RUNNING? && Runnable(seqs[id].(status := PAUSED), Chunk(chunks, id))
    ensures out == map id | id in seqs :: AfterCompletion(seqs[id], id in scheduled, Chunk(chunks, id), SampleOf(samples, id))
  {
    out := seqs;
    for i := 0 to |scheduled|
      invariant out == map id | id in seqs ::
                         AfterCompletion(seqs[id], id in scheduled[..i], Chunk(chunks, id), SampleOf(samples, id))
    {
      var id := scheduled[i];
      NotYet(scheduled, i);
      var v := out[id];
      assert v == seqs[id];
      if v.status.WAITING? {
        continue;
      }
      if !v.promptDone {
        v := UpdatePrompt(v, Chunk(chunks, id));
      }
      assert v.status.RUNNING?;
      v := v.(status := PAUSED);
      if v.promptDone {
        var sample := SampleOf(samples, id);
        v := v.AppendToken(sample.token);
        v := v.CheckStop(sample.stopString);
      }
      out := out[id := v];
    }
    assert scheduled[..|scheduled|] == scheduled;
  }

  lemma CompletedIsExecuted(v: SeqView, chunk: nat, sample: Sample)
    ensures Completed(Resumed(v), chunk, sample) == v.Executed(chunk, sample)
  {}

  ghost predicate Accepts(seqs: SeqMap, preempted: seq<Id>, scheduled: seq<Id>, chunks: map<Id, nat>, recompute: bool) {
    && Distinct(preempted) && Distinct(scheduled)
    && (forall id :: id in preempted ==> id in seqs && seqs[id].status.Executing())
    && (forall id :: id in scheduled ==>
          id in seqs && Runnable(AfterReset(seqs[id], id in preempted, recompute), Chunk(chunks, id)))
  }

  // What a scheduler hands over is accepted.
  lemma ScheduledIsAccepted(cfg: Config, e: Engine, victims: seq<Id>, scheduled: seq<Id>, chunks: map<Id, nat>)
    requires Scheduled(cfg, e, victims, scheduled, chunks)
    requires Distinct(victims) && Distinct(scheduled)
    requires forall id :: id in victims ==> id in e.waiting + e.running
    ensures Accepts(e.seqs, victims, scheduled, chunks, true)
  {
    forall id | id in scheduled
      ensures id in e.seqs && Runnable(AfterReset(e.seqs[id], id in victims, true), Chunk(chunks, id))
    {
      assert id in e.waiting + e.running;
    }
  }

  /** A whole batch: preempted sequences are reset, scheduled ones resumed, executed and paused,
      and none of the manager's assertions fails. */
  method RunBatch(seqs: SeqMap, preempted: seq<Id>, scheduled: seq<Id>, chunks: map<Id, nat>,
                  samples: map<Id, Sample>, recompute: bool) returns (out: SeqMap)
    requires Accepts(seqs, preempted, scheduled, chunks, recompute)
    ensures out == map id | id in seqs :: ThreeLoops(id, seqs[id], preempted, scheduled, chunks, samples, recompute)
  {
    var s := ResetPreempted(seqs, preempted, recompute);
    var t := ResumeScheduled(s, scheduled);
    out := OnStepCompleted(t, scheduled, chunks, samples);
  }

  /** What the loops compute is what the invariants are stated with, for either preemption. */
  lemma BatchExecutes(seqs: SeqMap, preempted: seq<Id>, scheduled: seq<Id>, chunks: map<Id, nat>, samples: map<Id, Sample>)
    ensures (map id | id in seqs :: ThreeLoops(id, seqs[id], preempted, scheduled, chunks, samples, true))
            == Execute(seqs, preempted, scheduled, chunks, samples)
  {
    forall id | id in seqs
      ensures ThreeLoops(id, seqs[id], preempted, scheduled, chunks, samples, true)
              == ExecutedView(id, seqs[id], preempted, scheduled, chunks, samples)
    {
      LoopsExecute(id, seqs[id], preempted, scheduled, chunks, samples, true);
    }
  }

  lemma SwapBatchExecutes(seqs: SeqMap, preempted: seq<Id>, scheduled: seq<Id>, chunks: map<Id, nat>, samples: map<Id, Sample>)
    requires forall id :: id in scheduled ==> id in seqs && id !in preempted && seqs[id].promptDone
    ensures (map id | id in seqs :: ThreeLoops(id, seqs[id], preempted, scheduled, chunks, samples, false))
            == map id | id in seqs :: DecodeInstance.ExecutedView(id, seqs[id], preempted, scheduled, samples)
  {
    forall id | id in seqs
      ensures ThreeLoops(id, seqs[id], preempted, scheduled, chunks, samples, false)
              == DecodeInstance.ExecutedView(id, seqs[id], preempted, scheduled, samples)
    {
      LoopsExecute(id, seqs[id], preempted, scheduled, chunks, samples, false);
    }
  }

  function ThreeLoops(id: Id, v: SeqView, preempted: seq<Id>, scheduled: seq<Id>, chunks: map<Id, nat>,
                      samples: map<Id, Sample>, recompute: bool): SeqView
  {
    AfterCompletion(AfterResume(AfterReset(v, id in preempted, recompute), id in scheduled),
                    id in scheduled, Chunk(chunks, id), SampleOf(samples, id))
  }

  lemma LoopsExecute(id: Id, v: SeqView, preempted: seq<Id>, scheduled: seq<Id>, chunks: map<Id, nat>,
                     samples: map<Id, Sample>, recompute: bool)
    ensures var w := ThreeLoops(id, v, preempted, scheduled, chunks, samples, recompute);
            && (recompute ==> w == ExecutedView(id, v, preempted, scheduled, chunks, samples))
            && (!recompute && (id in scheduled ==> id !in preempted && v.promptDone)
                ==> w == DecodeInstance.ExecutedView(id, v, preempted, scheduled, samples))
  {
    CompletedIsExecuted(AfterReset(v, id in preempted, recompute), Chunk(chunks, id), SampleOf(samples, id));
  }
}
