/** Steps without a batch. The edge the other theorems exclude by their bound on sequence lengths: a
    sequence that holds the whole pool is preempted by its own step, and a step with an empty batch
    drops that. When a step does nothing, and when it raises, told from the state before it. */
module EmptySteps {
  import opened Lists
  import opened Sequences
  import opened BlockPool
  import opened Reserve
  import opened EngineCore
  import opened DecodePhase
  import opened PrefillFirst
  import opened Deadline
  import opened AdmissionFront
  import SequenceState

  /** The oldest sequence is safe, and the step has a batch, exactly when the oldest one does not
      hold the whole pool. */
  lemma OldestIsSafeExactly(cfg: Config, e: Engine)
    requires cfg.Valid() && NoPartials(e)
    requires Owns(e.pool, e.running, cfg.numBlocks)
    requires e.running != []
    ensures var r := Decode(cfg, e, NoCap);
            var oldest := ByArrival(e.running, e.seqs)[0];
            && (r.slots != [] <==> e.pool.Held(oldest) < cfg.numBlocks)
            && (r.slots != [] ==> r.slots[0] == oldest)
            && (r.slots == [] ==> r.kept == [])
  {
    var sorted := ByArrival(e.running, e.seqs);
    var s := Start(sorted, e.pool);
    PermutationMembers(sorted, e.running);
    OwnsPermutation(e.pool, e.running, sorted, cfg.numBlocks);
    TotalMember(sorted, sorted[0], e.pool);
    assert sorted[0] in sorted;
    if e.pool.Held(sorted[0]) < cfg.numBlocks {
      HeadGetsSlot(s, e.seqs, NoCap, cfg.size, cfg.numBlocks);
    } else {
      PoolHolderIsPreempted(s, e.seqs, NoCap, cfg.size, cfg.numBlocks);
    }
  }

  // Nobody is admitted while no block is free; over-long prompts are all that leaves the queue.
  lemma {:induction false} NothingFreeAdmitsNobody(kind: Kind, cfg: Config, a: Admission, seqs: SeqMap)
    requires cfg.Valid()
    requires a.pool.free == 0
    requires forall id :: id in a.waiting ==> Look(seqs, id).Len() >= 1
    ensures var f := Admit(kind, cfg, a, seqs);
            && f == a.(waiting := f.waiting, ignored := f.ignored)
            && |f.waiting| + |f.ignored| == |a.waiting| + |a.ignored|
            && |f.ignored| >= |a.ignored|
            && (f.ignored == a.ignored <==> a.waiting == [] || !TooLong(cfg, Look(seqs, a.waiting[0])))
    decreases |a.waiting|
  {
    if a.waiting != [] {
      assert a.waiting[0] in a.waiting;
      BlocksPositive(Look(seqs, a.waiting[0]).Len(), cfg.size);
      if TooLong(cfg, Look(seqs, a.waiting[0])) {
        NothingFreeAdmitsNobody(kind, cfg, AdmitNext(kind, cfg, a, seqs), seqs);
      }
    }
  }

  // Texts are not empty, running sequences are between two decodes, and no block is lost. It holds
  // with a stranded sequence waiting, too.
  ghost predicate Orderly(cfg: Config, e: Engine) {
    && cfg.Valid() && NoPartials(e)
    && (forall id :: id in e.waiting ==> Look(e.seqs, id).Len() >= 1)
    && Owns(e.pool, e.running, cfg.numBlocks)
  }

  // The oldest running sequence holds the whole pool.
  ghost predicate PoolHeld(cfg: Config, e: Engine) {
    && Orderly(cfg, e)
    && e.running != []
    && e.pool.Held(ByArrival(e.running, e.seqs)[0]) == cfg.numBlocks
  }

  lemma PoolHeldLeavesNothing(cfg: Config, e: Engine)
    requires PoolHeld(cfg, e)
    ensures e.pool.free == 0
  {
    var sorted := ByArrival(e.running, e.seqs);
    PermutationMembers(sorted, e.running);
    assert sorted[0] in sorted;
    HoldingAllLeavesNothing(e.pool, e.running, sorted[0], cfg.numBlocks);
  }

  // Its decode loop preempts everyone.
  lemma PoolHeldPreemptsAll(cfg: Config, e: Engine)
    requires PoolHeld(cfg, e)
    ensures var r := Decode(cfg, e, NoCap);
            && r.slots == [] && r.kept == []
            && multiset(r.victims) == multiset(e.running)
            && Owns(r.pool, [], cfg.numBlocks)
  {
    var r := Decode(cfg, e, NoCap);
    var s := Start(ByArrival(e.running, e.seqs), e.pool);
    OldestIsSafeExactly(cfg, e);
    PermutationMembers(s.queue, e.running);
    OwnsPermutation(e.pool, e.running, s.queue, cfg.numBlocks);
    NoTail(s.queue);
    Split(s, e.seqs, NoCap, cfg.size);
    RunOwns(s, e.seqs, NoCap, cfg.size, cfg.numBlocks);
    NoTail(r.victims);
    Everyone(r, s.queue);
  }

  /** Then the preemptions are dropped with the empty step, whoever else is waiting: the sequences
      are back in the waiting list, their blocks gone, but were never told. They still count as
      half way through generation, with their old outputs and status. Only an over-long prompt in
      front puts this off, by taking up the step. */
  lemma EmptyStepStrands(kind: Kind, cfg: Config, e: Engine, input: Input)
    requires var b := Abort(e, input.aborts);
             && PoolHeld(cfg, b)
             && var order := WaitingOrder(kind, b.waiting, b.seqs, input.clock);
                order == [] || !TooLong(cfg, Look(b.seqs, order[0]))
    ensures var b := Abort(e, input.aborts);
            var f := Step(kind, cfg, e, input);
            && f.running == [] && multiset(f.waiting) == multiset(b.waiting) + multiset(b.running)
            && f.seqs == b.seqs
            && f.pool == Pool(cfg.numBlocks, map[])
            && (forall id :: id in b.running ==> id in f.waiting && Decoding(Look(f.seqs, id)))
    ensures Raises(kind, cfg, e, input) <==> AbortRaises(e, input.aborts)
  {
    var b := Abort(e, input.aborts);
    var order := WaitingOrder(kind, b.waiting, b.seqs, input.clock);
    WaitingOrderPermutes(kind, b.waiting, b.seqs, input.clock);
    PermutationMembers(order, b.waiting);
    PoolHeldLeavesNothing(cfg, b);
    NothingFreeAdmitsNobody(kind, cfg, StartAdmission(b, order), b.seqs);
    PoolHeldPreemptsAll(cfg, b);
    var r := Decode(cfg, b, NoCap);
    OwnsNobody(r.pool, cfg.numBlocks);
    assert multiset(order + r.victims) == multiset(b.waiting) + multiset(b.running);
    PermutationMembers(r.victims, b.running);
  }

  lemma OwnsNobody(p: Pool, numBlocks: nat)
    requires Owns(p, [], numBlocks)
    ensures p == Pool(numBlocks, map[])
  {
    OwnsMeans(p, [], numBlocks);
    assert p.held == map[];
  }

  lemma Everyone(r: Reservation, all: seq<Id>)
    requires r.kept == [] && r.partials == []
    requires multiset(r.kept + r.partials) + multiset(r.victims) == multiset(all) + multiset{}
    ensures multiset(r.victims) == multiset(all)
  {
    assert r.kept + r.partials == [];
    forall id ensures multiset(r.victims)[id] == multiset(all)[id] {
      assert (multiset(r.kept + r.partials) + multiset(r.victims))[id] == (multiset(all) + multiset{})[id];
    }
  }

  /** A step that does nothing. */

  // Not even an empty pool and an empty batch have room for it.
  predicate TooBig(cfg: Config, v: SeqView)
    requires cfg.Valid()
  {
    v.Need(cfg.size) + cfg.watermark > cfg.numBlocks || v.Len() > cfg.maxBatched
  }

  // The first in the order, if any, is within the limit, and either nobody is running and it is
  // too big, or the oldest running sequence holds the whole pool.
  ghost predicate Idles(cfg: Config, e: Engine, order: seq<Id>)
    requires cfg.Valid()
  {
    && (order == [] || !TooLong(cfg, Look(e.seqs, order[0])))
    && if e.running == [] then order == [] || TooBig(cfg, Look(e.seqs, order[0])) else PoolHeld(cfg, e)
  }

  lemma HeadStopsExactly(kind: Kind, cfg: Config, e: Engine, order: seq<Id>)
    requires Orderly(cfg, e) && multiset(order) == multiset(e.waiting)
    requires order != [] && (e.running == [] || PoolHeld(cfg, e))
    ensures Stops(kind, cfg, StartAdmission(e, order), e.seqs)
            <==> !TooLong(cfg, Look(e.seqs, order[0])) && (e.running == [] ==> TooBig(cfg, Look(e.seqs, order[0])))
  {
    PermutationMembers(order, e.waiting);
    assert order[0] in order;
    BlocksPositive(Look(e.seqs, order[0]).Len(), cfg.size);
    if e.running != [] { PoolHeldLeavesNothing(cfg, e); }
  }

  lemma DecodesNobodyExactly(cfg: Config, e: Engine)
    requires Orderly(cfg, e)
    ensures Decode(cfg, e, NoCap).slots == [] <==> e.running == [] || PoolHeld(cfg, e)
  {
    PermutationMembers(ByArrival(e.running, e.seqs), e.running);
    if e.running != [] {
      var oldest := ByArrival(e.running, e.seqs)[0];
      OldestIsSafeExactly(cfg, e);
      assert oldest in ByArrival(e.running, e.seqs);
      TotalMember(e.running, oldest, e.pool);
    }
  }

  /** A step of the vLLM or high-priority engine schedules and ignores nothing exactly then. */
  lemma IdlesExactly(kind: Kind, cfg: Config, e: Engine, clock: Clock)
    requires Orderly(cfg, e)
    ensures var p := PrefillFirst.Schedule(kind, cfg, e, clock);
            p.scheduled == [] && p.ignored == [] <==> Idles(cfg, e, WaitingOrder(kind, e.waiting, e.seqs, clock))
  {
    var order := WaitingOrder(kind, e.waiting, e.seqs, clock);
    var s := StartAdmission(e, order);
    var a := Admit(kind, cfg, s, e.seqs);
    WaitingOrderPermutes(kind, e.waiting, e.seqs, clock);
    DecodesNobodyExactly(cfg, e);
    assert a.admitted == [] && a.ignored == [] <==> Stops(kind, cfg, s, e.seqs) by {
      if !Stops(kind, cfg, s, e.seqs) { AdmitExtends(kind, cfg, AdmitNext(kind, cfg, s, e.seqs), e.seqs); }
    }
    if order != [] && (e.running == [] || PoolHeld(cfg, e)) { HeadStopsExactly(kind, cfg, e, order); }
  }

  lemma InvIsOrderly(cfg: Config, e: Engine)
    requires Inv(cfg, e) && NoPartials(e)
    ensures Orderly(cfg, e) && !PoolHeld(cfg, e)
  {
    if e.running != [] {
      var oldest := ByArrival(e.running, e.seqs)[0];
      OldestIsSafe(cfg, e, NoCap);
      OldestIsSafeExactly(cfg, e);
    }
  }

  /** Where no sequence can come to need the whole pool: exactly when nobody is running, and
      either nobody is waiting or the first in the order is within the limit and too big. */
  lemma ReachableIdlesExactly(kind: Kind, cfg: Config, e: Engine, clock: Clock)
    requires Inv(cfg, e) && NoPartials(e)
    ensures var order := WaitingOrder(kind, e.waiting, e.seqs, clock);
            var p := PrefillFirst.Schedule(kind, cfg, e, clock);
            p.scheduled == [] && p.ignored == []
            <==> e.running == [] && (order == [] || (var v := Look(e.seqs, order[0]); !TooLong(cfg, v) && TooBig(cfg, v)))
  {
    InvIsOrderly(cfg, e);
    IdlesExactly(kind, cfg, e, clock);
  }

  lemma NobodyAborts(e: Engine)
    ensures Abort(e, {}) == e
  {
    WithoutNone(e.waiting, {});
    MarkNone(e.seqs, FINISHED_ABORTED);
  }

  /** A step that raises: a sequence it aborts or ignores must be waiting for the status machine
      too, which a stranded one is not. */

  predicate Droppable(seqs: SeqMap, id: Id, to: Status) { SequenceState.LegalMove(Look(seqs, id).status, to) }

  ghost predicate AbortRaises(e: Engine, aborts: set<Id>) {
    exists id :: id in e.waiting && id in aborts && !Droppable(e.seqs, id, FINISHED_ABORTED)
  }

  ghost predicate IgnoreRaises(e: Engine, ignored: seq<Id>) {
    exists id :: id in ignored && !Droppable(e.seqs, id, FINISHED_IGNORED)
  }

  ghost predicate Raises(kind: Kind, cfg: Config, e: Engine, input: Input)
    requires cfg.Valid()
  {
    var b := Abort(e, input.aborts);
    AbortRaises(e, input.aborts) || IgnoreRaises(b, PrefillFirst.Schedule(kind, cfg, b, input.clock).ignored)
  }

  // An over-long sequence that cannot be ignored, in the part of the order the step gets through.
  ghost predicate StrandedInFront(cfg: Config, e: Engine, order: seq<Id>, n: nat) {
    exists k :: 0 <= k < n && k < |order| && TooLong(cfg, Look(e.seqs, order[k])) && !Look(e.seqs, order[k]).status.WAITING?
  }

  lemma IgnoresFront(kind: Kind, cfg: Config, e: Engine, clock: Clock)
    requires cfg.Valid()
    ensures var order := WaitingOrder(kind, e.waiting, e.seqs, clock);
            PrefillFirst.Schedule(kind, cfg, e, clock).ignored == Overlong(cfg, order[..Front(kind, cfg, e, order)], e.seqs)
  {
    AdmitTakesFront(kind, cfg, e, WaitingOrder(kind, e.waiting, e.seqs, clock));
  }

  ghost predicate MeetsStranded(kind: Kind, cfg: Config, e: Engine, input: Input)
    requires cfg.Valid()
  {
    var b := Abort(e, input.aborts);
    var order := WaitingOrder(kind, b.waiting, b.seqs, input.clock);
    || (exists id :: id in e.waiting && id in input.aborts && !Look(e.seqs, id).status.WAITING?)
    || StrandedInFront(cfg, b, order, Front(kind, cfg, b, order))
  }

  /** A step raises exactly when a sequence that is paused, but waiting, is dropped or is over-long
      and the admission loop gets to it. */
  lemma RaisesExactly(kind: Kind, cfg: Config, e: Engine, input: Input)
    requires cfg.Valid()
    ensures Raises(kind, cfg, e, input) <==> MeetsStranded(kind, cfg, e, input)
  {
    var b := Abort(e, input.aborts);
    var order := WaitingOrder(kind, b.waiting, b.seqs, input.clock);
    var n := Front(kind, cfg, b, order);
    IgnoresFront(kind, cfg, b, input.clock);
    Parts(cfg, order[..n], b.seqs);
    IgnoredStranded(cfg, b, order, n);
    DroppedStranded(e, input.aborts);
  }

  lemma DroppedStranded(e: Engine, aborts: set<Id>)
    ensures AbortRaises(e, aborts) <==> exists id :: id in e.waiting && id in aborts && !Look(e.seqs, id).status.WAITING?
  {
    forall id ensures Droppable(e.seqs, id, FINISHED_ABORTED) <==> Look(e.seqs, id).status.WAITING? {}
    if AbortRaises(e, aborts) {
      var id :| id in e.waiting && id in aborts && !Droppable(e.seqs, id, FINISHED_ABORTED);
      assert !Look(e.seqs, id).status.WAITING?;
    }
    if id :| id in e.waiting && id in aborts && !Look(e.seqs, id).status.WAITING? {
      assert !Droppable(e.seqs, id, FINISHED_ABORTED);
    }
  }

  lemma IgnoredStranded(cfg: Config, e: Engine, order: seq<Id>, n: nat)
    requires n <= |order|
    ensures IgnoreRaises(e, Overlong(cfg, order[..n], e.seqs)) <==> StrandedInFront(cfg, e, order, n)
  {
    var ignored := Overlong(cfg, order[..n], e.seqs);
    if IgnoreRaises(e, ignored) {
      var id :| id in ignored && !Droppable(e.seqs, id, FINISHED_IGNORED);
      var k := PlaceInFront(cfg, e, order, n, id);
    }
    if StrandedInFront(cfg, e, order, n) { StrandedIsIgnored(cfg, e, order, n); }
  }

  lemma StrandedIsIgnored(cfg: Config, e: Engine, order: seq<Id>, n: nat)
    requires n <= |order|
    requires StrandedInFront(cfg, e, order, n)
    ensures IgnoreRaises(e, Overlong(cfg, order[..n], e.seqs))
  {
    var k :| 0 <= k < n && TooLong(cfg, Look(e.seqs, order[k])) && !Look(e.seqs, order[k]).status.WAITING?;
    Parts(cfg, order[..n], e.seqs);
    assert order[..n][k] in order[..n];
    assert !Droppable(e.seqs, order[k], FINISHED_IGNORED);
  }

  lemma PlaceInFront(cfg: Config, e: Engine, order: seq<Id>, n: nat, id: Id) returns (k: nat)
    requires n <= |order| && id in Overlong(cfg, order[..n], e.seqs)
    ensures k < n && order[k] == id && TooLong(cfg, Look(e.seqs, order[k]))
  {
    Parts(cfg, order[..n], e.seqs);
    k :| 0 <= k < n && order[..n][k] == id;
  }

  // With everyone waiting for the status machine too, no step raises.
  lemma WaitingNeverRaises(kind: Kind, cfg: Config, e: Engine, input: Input)
    requires cfg.Valid()
    requires forall id :: id in e.waiting ==> Look(e.seqs, id).status.WAITING?
    ensures !Raises(kind, cfg, e, input)
  {
    var b := Abort(e, input.aborts);
    var order := WaitingOrder(kind, b.waiting, b.seqs, input.clock);
    WithoutWithin(e.waiting, input.aborts);
    WaitingOrderPermutes(kind, b.waiting, b.seqs, input.clock);
    PermutationMembers(order, b.waiting);
    RaisesExactly(kind, cfg, e, input);
    forall k | 0 <= k < |order| ensures Look(b.seqs, order[k]).status.WAITING? {
      assert order[k] in order && order[k] in e.waiting;
    }
  }

  /** An over-long prompt in front of the order puts stranding off by a step, in which it is
      ignored and the running list stays; if it is itself stranded the step raises. */
  lemma OverlongComesFirst(kind: Kind, cfg: Config, e: Engine, input: Input)
    requires var b := Abort(e, input.aborts);
             && PoolHeld(cfg, b)
             && var order := WaitingOrder(kind, b.waiting, b.seqs, input.clock);
                order != [] && TooLong(cfg, Look(b.seqs, order[0]))
    ensures var b := Abort(e, input.aborts);
            var f := Step(kind, cfg, e, input);
            f.running == b.running && f.pool == b.pool && |f.waiting| < |b.waiting|
    ensures var b := Abort(e, input.aborts);
            !Look(b.seqs, WaitingOrder(kind, b.waiting, b.seqs, input.clock)[0]).status.WAITING? ==>
              Raises(kind, cfg, e, input)
  {
    var b := Abort(e, input.aborts);
    var order := WaitingOrder(kind, b.waiting, b.seqs, input.clock);
    WaitingOrderPermutes(kind, b.waiting, b.seqs, input.clock);
    PermutationMembers(order, b.waiting);
    PoolHeldLeavesNothing(cfg, b);
    NothingFreeAdmitsNobody(kind, cfg, StartAdmission(b, order), b.seqs);
    RaisesExactly(kind, cfg, e, input);
    assert GetsPast(kind, cfg, b, order, 0);
  }
}
