/** What every scheduler is built on: the waiting and running lists, the block manager, and the
    loops all of them share. */
module Scheduling {
  import opened Lists
  import opened Sequences
  import opened BlockPool
  import opened BlockSpace
  import opened Reserve
  import opened EngineCore
  import PrefillFirst
  import SequenceManager

  class BaseScheduler {
    const cfg: Config
    const requeues: bool   // _preempt puts the sequence back into the waiting list
    const blocks: BlockSpaceManager
    var waiting: seq<Id>
    var running: seq<Id>
    var seqs: SeqMap       // the sequence objects the lists refer to
    var numAborted: nat

    ghost function Repr(): set<object> { {this, blocks, blocks.allocator} }

    ghost predicate Valid()
      reads this, blocks, blocks.allocator
    {
      && cfg.Valid()
      && blocks.Valid()
      && blocks.size == cfg.size && blocks.numBlocks == cfg.numBlocks && blocks.watermarkBlocks == cfg.watermark
    }

    function State(): Engine
      reads this, blocks, blocks.allocator
    {
      Engine(waiting, running, seqs, blocks.Counts())
    }

    constructor (cfg: Config, watermark: real, requeues: bool)
      requires cfg.Valid()
      requires watermark >= 0.0 && cfg.watermark == (watermark * cfg.numBlocks as real).Floor
      ensures Valid() && fresh(blocks) && fresh(blocks.allocator)
      ensures this.cfg == cfg && this.requeues == requeues
      ensures State() == PrefillFirst.Idle(cfg)
    {
      this.cfg := cfg;
      this.requeues := requeues;
      blocks := new BlockSpaceManager(cfg.size, cfg.numBlocks, watermark);
      waiting, running, seqs, numAborted := [], [], map[], 0;
    }

    method AddSeq(id: Id, view: SeqView)
      requires Valid()
      modifies this
      ensures Valid()
      ensures State() == PrefillFirst.Arrive(old(State()), id, view)
    {
      seqs := seqs[id := view];
      waiting := waiting + [id];
    }

    function View(id: Id): SeqView
      reads this
    {
      Look(seqs, id)
    }

    method SetStatus(id: Id, status: Status)
      requires Valid()
      modifies this`seqs
      ensures Valid()
      ensures seqs == Mark(old(seqs), [id], status)
    {
      if id in seqs {
        seqs := seqs[id := seqs[id].(status := status)];
      }
    }

    // The sequences that have waited for too long leave the queue.
    method AbortLongWaiting(overdue: set<Id>) returns (aborted: seq<Id>)
      requires Valid()
      modifies this
      ensures Valid()
      ensures State() == PrefillFirst.Abort(old(State()), overdue)
      ensures aborted == Within(old(waiting), overdue)
      ensures numAborted == old(numAborted) + |aborted|
    {
      var left: seq<Id> := [];
      aborted := [];
      MarkNone(seqs, FINISHED_ABORTED);
      while waiting != []
        invariant Valid() && running == old(running) && blocks.Counts() == old(blocks.Counts())
        invariant left + Without(waiting, overdue) == Without(old(waiting), overdue)
        invariant aborted + Within(waiting, overdue) == Within(old(waiting), overdue)
        invariant seqs == Mark(old(seqs), aborted, FINISHED_ABORTED)
        invariant numAborted == old(numAborted) + |aborted|
        decreases |waiting|
      {
        var id := waiting[0];
        WithoutNext(left, waiting, overdue);
        WithoutNext(aborted, waiting, overdue);
        waiting := waiting[1..];
        if id in overdue {
          MarkMore(old(seqs), aborted, id, FINISHED_ABORTED);
          aborted := aborted + [id];
          numAborted := numAborted + 1;
          SetStatus(id, FINISHED_ABORTED);
        } else {
          left := left + [id];
        }
      }
      waiting := left;
    }

    method CheckRequestPromptLength(id: Id) returns (fits: bool)
      requires Valid()
      modifies this`seqs
      ensures Valid()
      ensures fits <==> old(View(id)).Len() <= cfg.limit
      ensures seqs == if fits then old(seqs) else Mark(old(seqs), [id], FINISHED_IGNORED)
    {
      if View(id).Len() > cfg.limit {
        SetStatus(id, FINISHED_IGNORED);
        return false;
      }
      return true;
    }

    method Preempt(id: Id)
      requires Valid()
      requires View(id).status.Executing()
      modifies Repr()
      ensures Valid()
      ensures State() == old(State()).(waiting := if requeues then old(waiting) + [id] else old(waiting),
                                       pool := old(State()).pool.Release(id))
      ensures blocks.blockTables == old(blocks.blockTables) - {id}
    {
      blocks.Free(id);
      if requeues {
        waiting := waiting + [id];
      }
    }

    // A slot for the next token of a sequence that already has a table; some block is free.
    method AppendSlot(id: Id)
      requires Valid()
      requires View(id).status.Executing()
      requires id in blocks.blockTables && blocks.Counts().free > 0
      modifies Repr()
      ensures Valid()
      ensures State() == old(State()).(pool := old(State()).pool.AppendSlot(id, old(View(id)).Need(cfg.size)))
      ensures blocks.blockTables.Keys == old(blocks.blockTables).Keys
    {
      var ok := blocks.AppendSlot(id, View(id).Need(cfg.size));
      assert ok;
    }

    // A table for a sequence that was found to fit.
    method Allocate(id: Id)
      requires Valid()
      requires id !in blocks.blockTables
      requires View(id).Need(cfg.size) <= blocks.Counts().free
      modifies Repr()
      ensures Valid()
      ensures State() == old(State()).(pool := old(State()).pool.Allocate(id, old(View(id)).Need(cfg.size)))
    {
      var ok := blocks.Allocate(id, View(id).Need(cfg.size));
      assert ok;
    }

    method FreeFinishedSeqs()
      requires Valid()
      modifies Repr()
      ensures Valid()
      ensures State() == FreeFinished(old(State()))
    {
      ghost var gone := FinishedOf(running, seqs);
      ghost var freed: seq<Id> := [];
      var left: seq<Id> := [];
      var i := 0;
      assert running[..0] == [] && running[0..] == running;
      while i < |running|
        invariant i <= |running|
        invariant Valid() && seqs == old(seqs) && running == old(running) && waiting == old(waiting)
        invariant freed + Within(running[i..], gone) == Within(running, gone)
        invariant left + Without(running[i..], gone) == Without(running, gone)
        invariant blocks.Counts() == old(State()).pool.ReleaseAll(freed)
      {
        var id := running[i];
        assert running[i..][1..] == running[i + 1..] && running[i..][0] == id;
        assert id in gone <==> View(id).status.Finished();
        WithoutNext(freed, running[i..], gone);
        WithoutNext(left, running[i..], gone);
        if View(id).status.Finished() {
          ReleaseAllSnoc(old(State()).pool, freed, id);
          freed := freed + [id];
          blocks.Free(id);
        } else {
          left := left + [id];
        }
        i := i + 1;
      }
      NoTail(freed);
      NoTail(left);
      running := left;
    }

    // The batch runs, and what it finished gives its blocks back.
    method ExecuteBatch(victims: seq<Id>, scheduled: seq<Id>, chunks: map<Id, nat>, samples: map<Id, Sample>)
      requires Valid()
      requires SequenceManager.Accepts(seqs, victims, scheduled, chunks, true)
      modifies Repr()
      ensures Valid()
      ensures State() == Complete(old(State()), victims, scheduled, chunks, samples)
    {
      SequenceManager.BatchExecutes(seqs, victims, scheduled, chunks, samples);
      seqs := SequenceManager.RunBatch(seqs, victims, scheduled, chunks, samples, true);
      FreeFinishedSeqs();
    }

    // The loop has the first sequence of the queue in hand, and the manager has its tables.
    ghost predicate InHand(r: Reservation, id: Id)
      reads this, blocks, blocks.allocator
    {
      && r.queue != [] && r.queue[0] == id && r.queue[1..] == running
      && r.pool == blocks.Counts()
      && Preemptable(r, seqs)
    }

    // What a step of the loop has done to the queues besides the running list.
    ghost predicate Requeued(was: seq<Id>, victims: seq<Id>)
      reads this
    {
      waiting == if requeues then was + victims else was
    }

    // Preempts the sequence at the tail.
    method EvictTail(id: Id, ghost s: Reservation, ghost was: seq<Id>) returns (victim: Id, ghost n: Reservation)
      requires Valid()
      requires InHand(s, id) && running != []
      requires Requeued(was, s.victims)
      modifies Repr()
      ensures Valid()
      ensures seqs == old(seqs) && |running| == old(|running|) - 1
      ensures n == Evict(s) && n.victims == s.victims + [victim]
      ensures InHand(n, id)
      ensures Requeued(was, n.victims)
    {
      n := EvictInHand(s, id, was);
      victim := running[|running| - 1];
      running := running[..|running| - 1];
      Preempt(victim);
    }

    lemma EvictInHand(s: Reservation, id: Id, was: seq<Id>) returns (n: Reservation)
      requires InHand(s, id)
      requires running != []
      ensures n == Evict(s)
      ensures n.queue != [] && n.queue[0] == id && n.queue[1..] == running[..|running| - 1]
      ensures Preemptable(n, seqs)
      ensures var victim := running[|running| - 1];
              && victim in blocks.blockTables && View(victim).status.Executing()
              && n == s.(queue := n.queue, victims := s.victims + [victim], pool := s.pool.Release(victim))
              && (was + s.victims) + [victim] == was + n.victims
    {
      n := Evict(s);
      EvictPreemptable(s, seqs);
      Regroup(was, s.victims, [running[|running| - 1]]);
      assert s.queue[|s.queue| - 1] == running[|running| - 1];
      assert s.queue[|s.queue| - 1] in s.queue;
    }

    // Preempts from the tail until a block is free or only the sequence in hand is left.
    method MakeRoom(id: Id, ghost r: Reservation, cap: Cap, ghost was: seq<Id>) returns (evicted: seq<Id>, ghost s: Reservation)
      requires Valid()
      requires InHand(r, id) && WantsSlot(r, seqs, cap)
      requires Requeued(was, r.victims)
      modifies Repr()
      ensures Valid()
      ensures seqs == old(seqs)
      ensures InHand(s, id) && WantsSlot(s, seqs, cap)
      ensures s == r.(queue := s.queue, victims := r.victims + evicted, pool := s.pool)
      ensures |s.queue| <= |r.queue|
      ensures Run(s, seqs, cap, cfg.size) == Run(r, seqs, cap, cfg.size)
      ensures Requeued(was, s.victims)
      ensures s.pool.free > 0 || running == []
    {
      evicted := [];
      s := r;
      NoTail(r.victims);
      var can := blocks.CanAppendSlot();
      while !can && running != []
        invariant Valid()
        invariant seqs == old(seqs)
        invariant Requeued(was, s.victims)
        invariant InHand(s, id) && WantsSlot(s, seqs, cap)
        invariant s == r.(queue := s.queue, victims := r.victims + evicted, pool := s.pool)
        invariant |s.queue| <= |r.queue|
        invariant Run(s, seqs, cap, cfg.size) == Run(r, seqs, cap, cfg.size)
        invariant can <==> s.pool.free > 0
        decreases |running|
      {
        EvictionIsNext(s, seqs, cap, cfg.size);
        var victim;
        victim, s := EvictTail(id, s, was);
        Regroup(r.victims, evicted, [victim]);
        evicted := evicted + [victim];
        can := blocks.CanAppendSlot();
      }
    }

    // One decoding sequence: its slot, after as many preemptions as it takes, or its own preemption.
    method Serve(id: Id, ghost r: Reservation, cap: Cap, ghost was: seq<Id>)
      returns (evicted: seq<Id>, served: bool, ghost n: Reservation)
      requires Valid()
      requires InHand(r, id) && WantsSlot(r, seqs, cap)
      requires Requeued(was, r.victims)
      modifies Repr()
      ensures Valid()
      ensures seqs == old(seqs)
      ensures n == Reservation(running, if served then r.kept + [id] else r.kept, r.partials, r.victims + evicted,
                               if served then r.slots + [id] else r.slots, blocks.Counts())
      ensures Preemptable(n, seqs)
      ensures Requeued(was, n.victims)
      ensures |running| < |r.queue|
      ensures Run(n, seqs, cap, cfg.size) == Run(r, seqs, cap, cfg.size)
    {
      ghost var s;
      evicted, s := MakeRoom(id, r, cap, was);
      NextPreemptable(s, seqs, cap, cfg.size);
      assert id in s.queue;
      n := Next(s, seqs, cap, cfg.size);
      served := blocks.Counts().free > 0;
      if served {
        AppendSlot(id);
      } else {
        assert s.queue == [id];
        Regroup(was, s.victims, [id]);
        Regroup(r.victims, evicted, [id]);
        Preempt(id);
        evicted := evicted + [id];
      }
    }

    /** The loop over the running list, sorted by arrival, that every scheduler goes through. It
        computes the small steps of module Reserve; no allocation in it can fail, and what it
        preempts is executing. */
    method ReserveSlots(cap: Cap) returns (partials: seq<Id>, victims: seq<Id>, slots: seq<Id>)
      requires Valid()
      requires Preemptable(Start(running, State().pool), seqs)
      modifies Repr()
      ensures Valid()
      ensures seqs == old(seqs)
      ensures var r := Run(Start(ByArrival(old(running), seqs), old(State()).pool), seqs, cap, cfg.size);
              && r == Reservation([], running, partials, victims, slots, blocks.Counts())
              && Requeued(old(waiting), r.victims)
    {
      PermutationMembers(ByArrival(running, seqs), running);
      running := ByArrival(running, seqs);
      ghost var r := Start(running, State().pool);
      ghost var goal := Run(r, seqs, cap, cfg.size);
      var kept: seq<Id> := [];
      partials, victims, slots := [], [], [];
      NoTail(waiting);
      while running != []
        invariant Valid() && seqs == old(seqs)
        invariant Requeued(old(waiting), victims)
        invariant r == Reservation(running, kept, partials, victims, slots, blocks.Counts())
        invariant Preemptable(r, seqs)
        invariant Run(r, seqs, cap, cfg.size) == goal
        decreases |running|
      {
        if cap.BySlots? && |slots| >= cap.n {
          break;
        }
        var id := running[0];
        NextPreemptable(r, seqs, cap, cfg.size);
        if !View(id).status.PAUSED? {
          running := running[1..];
          kept := kept + [id];
          r := Next(r, seqs, cap, cfg.size);
        } else if !View(id).stageDone {
          running := running[1..];
          partials := partials + [id];
          r := Next(r, seqs, cap, cfg.size);
        } else if cap.ByKept? && |kept| >= cap.n {
          break;
        } else {
          running := running[1..];
          var evicted, served;
          evicted, served, r := Serve(id, r, cap, old(waiting));
          victims := victims + evicted;
          if served {
            kept := kept + [id];
            slots := slots + [id];
          }
        }
      }
      assert goal == r.(queue := [], kept := kept + running) by { NoTail(kept); }
      running := kept + running;
    }
  }

  // A preemption from the tail is a small step of the loop.
  lemma EvictionIsNext(r: Reservation, seqs: SeqMap, cap: Cap, size: nat)
    requires size > 0
    requires WantsSlot(r, seqs, cap) && r.pool.free == 0
    requires |r.queue| > 1
    ensures WantsSlot(Evict(r), seqs, cap)
    ensures Run(Evict(r), seqs, cap, size) == Run(r, seqs, cap, size)
  {
    assert Next(r, seqs, cap, size) == Evict(r);
  }
}
