/** Sarathi's batch in closed form: whom it takes in, and the chunk each prompt is given. */
module SarathiChunks {
  import opened Lists
  import opened Sequences
  import opened BlockPool
  import opened Reserve
  import opened ReserveExactly
  import opened EngineCore
  import opened Sarathi
  import opened SarathiFailure

  // The first at or behind the j-th that the waiting loop does not get past.
  function FrontFrom(cfg: Config, room: Room, seqs: SeqMap, chunkSize: nat, j: nat): (k: nat)
    requires cfg.Valid() && j <= |room.queue|
    ensures j <= k <= |room.queue|
    ensures forall i: nat :: j <= i < k ==> Passes(cfg, room, seqs, chunkSize, i)
    ensures k < |room.queue| ==> !Passes(cfg, room, seqs, chunkSize, k)
    decreases |room.queue| - j
  {
    if j < |room.queue| && Passes(cfg, room, seqs, chunkSize, j) then FrontFrom(cfg, room, seqs, chunkSize, j + 1) else j
  }

  // What is left of the prompt, or of the chunk behind everyone before it, whichever is less.
  function ChunkAt(room: Room, seqs: SeqMap, chunkSize: nat, j: nat): int
    requires j < |room.queue|
  {
    Min(Remaining(Look(seqs, room.queue[j])), chunkSize - (room.tokens + RemainingSum(room.queue[..j], seqs)))
  }

  // The loop has taken the first j of the queue into the batch.
  ghost predicate TakenIn(c: Chunking, base: Chunking, room: Room, seqs: SeqMap, chunkSize: nat, j: nat)
    requires j <= |room.queue|
  {
    && c.running == base.running + room.queue[..j]
    && (forall i: nat :: i < j ==> Chunk(c.chunks, room.queue[i]) == ChunkAt(room, seqs, chunkSize, i))
    && (forall id :: id !in room.queue ==> Chunk(c.chunks, id) == Chunk(base.chunks, id))
  }

  lemma OneMoreTaken(cfg: Config, c: Chunking, base: Chunking, room: Room, seqs: SeqMap, chunkSize: nat, j: nat)
    requires cfg.Valid()
    requires Reached(cfg, c, room, seqs, chunkSize, j) && j < |room.queue|
    requires Staged(room.queue, seqs) && Distinct(room.queue)
    requires Passes(cfg, room, seqs, chunkSize, j) && !Stops(cfg, c, seqs, chunkSize)
    requires TakenIn(c, base, room, seqs, chunkSize, j)
    ensures TakenIn(AdmitNext(cfg, c, seqs, chunkSize), base, room, seqs, chunkSize, j + 1)
  {
    var id := room.queue[j];
    assert id in room.queue && c.waiting[0] == id;
    assert room.queue[..j + 1] == room.queue[..j] + [id];
    Regroup(base.running, room.queue[..j], [id]);
    DistinctPlaces(room.queue, j);
    assert c.tokens == room.tokens + RemainingSum(room.queue[..j], seqs);
  }

  lemma {:induction false} LoopTakesFront(cfg: Config, c: Chunking, base: Chunking, room: Room, seqs: SeqMap, chunkSize: nat, j: nat)
    requires cfg.Valid()
    requires Reached(cfg, c, room, seqs, chunkSize, j)
    requires Staged(room.queue, seqs) && Distinct(room.queue)
    requires TakenIn(c, base, room, seqs, chunkSize, j)
    requires !Admit(cfg, c, seqs, chunkSize).overlong
    ensures var k := FrontFrom(cfg, room, seqs, chunkSize, j);
            var f := Admit(cfg, c, seqs, chunkSize);
            f.waiting == room.queue[k..] && TakenIn(f, base, room, seqs, chunkSize, k)
    decreases |room.queue| - j
  {
    if j < |room.queue| {
      assert c.waiting[0] == room.queue[j];
      if Look(seqs, room.queue[j]).Len() > cfg.limit {
        assert false;
      } else {
        PassesIsGoingOn(cfg, c, room, seqs, chunkSize, j);
        if !Stops(cfg, c, seqs, chunkSize) {
          AdmitReaches(cfg, c, room, seqs, chunkSize, j);
          OneMoreTaken(cfg, c, base, room, seqs, chunkSize, j);
          LoopTakesFront(cfg, AdmitNext(cfg, c, seqs, chunkSize), base, room, seqs, chunkSize, j + 1);
        }
      }
    }
  }

  /** Before the waiting loop: the decodes, and behind them the prompt left half processed. */

  lemma PartialsTaken(cfg: Config, e: Engine, chunkSize: nat)
    requires SarathiInv(cfg, e, chunkSize)
    ensures var r := Reserved(cfg, e);
            var c := AfterPartials(cfg, e, chunkSize);
            && c.running == r.kept + r.partials
            && (forall id :: id in r.slots ==> Chunk(c.chunks, id) == 0)
            && (forall id :: id in r.partials ==> Chunk(c.chunks, id) == Min(Remaining(Look(e.seqs, id)), chunkSize - |r.slots|))
  {
    var r := Reserved(cfg, e);
    PartialsFill(cfg, e, chunkSize);
    OnePartialAtMost(cfg, e, chunkSize);
    ReservedIsOk(cfg, e);
    ReservedMembers(cfg, e, r);
    DistinctSum(e.waiting + r.victims, r.kept + r.partials);
    DistinctSum(r.kept, r.partials);
    if r.partials != [] {
      assert r.partials[0] in r.partials;
      OnePartialsChunk(AfterDecodes(e, r), r.partials[0], e.seqs, chunkSize);
    }
  }

  lemma OnePartialsChunk(c: Chunking, id: Id, seqs: SeqMap, chunkSize: nat)
    requires 0 <= c.tokens <= chunkSize
    requires id !in c.chunks && Look(seqs, id).staged <= |Look(seqs, id).prompt|
    ensures Chunk(TakePartials(c, [id], seqs, chunkSize).chunks, id) == Min(Remaining(Look(seqs, id)), chunkSize - c.tokens)
    ensures forall x :: x != id ==> Chunk(TakePartials(c, [id], seqs, chunkSize).chunks, x) == Chunk(c.chunks, x)
  {
    assert [id][1..] == [];
  }

  /** A step that does not raise: its batch is the decodes, the prompt left half processed, and the
      front of the waiting list with this step's victims behind it. Every prompt gets what is left
      of it, as far as the chunk goes, in that order. */
  lemma BatchInClosedForm(cfg: Config, e: Engine, chunkSize: nat)
    requires SarathiInv(cfg, e, chunkSize)
    requires !OverlongReached(cfg, RoomOf(cfg, e), e.seqs, chunkSize)
    ensures var r, room, c := Reserved(cfg, e), RoomOf(cfg, e), Schedule(cfg, e, chunkSize);
            var k := FrontFrom(cfg, room, e.seqs, chunkSize, 0);
            && c.scheduled == r.slots + r.partials + room.queue[..k] && c.running == c.scheduled
            && c.waiting == room.queue[k..]
            && (forall id :: id in r.slots ==> Chunk(c.chunks, id) == 0)
            && (forall id :: id in r.partials ==> Chunk(c.chunks, id) == Min(Remaining(Look(e.seqs, id)), chunkSize - |r.slots|))
            && (forall j: nat :: j < k ==> Chunk(c.chunks, room.queue[j]) == ChunkAt(room, e.seqs, chunkSize, j))
  {
    var r, room := Reserved(cfg, e), RoomOf(cfg, e);
    var base := AfterPartials(cfg, e, chunkSize);
    RoomIsReached(cfg, e, chunkSize);
    QueueIsStaged(cfg, e, chunkSize);
    PartialsTaken(cfg, e, chunkSize);
    PartialsFill(cfg, e, chunkSize);
    AdmitFailsExactly(cfg, base, room, e.seqs, chunkSize, 0);
    NoTail(base.running);
    assert room.queue[..0] == [];
    LoopTakesFront(cfg, base, base, room, e.seqs, chunkSize, 0);
    BatchIsFilled(cfg, e, chunkSize);
    BatchIsApart(cfg, e);
    KeptHaveSlots(cfg, e);
  }

  lemma BatchIsApart(cfg: Config, e: Engine)
    requires Inv(cfg, e)
    ensures var r, room := Reserved(cfg, e), RoomOf(cfg, e);
            forall id :: id in r.kept + r.partials ==> id !in room.queue
  {
    ReservedIsOk(cfg, e);
    ReservedMembers(cfg, e, Reserved(cfg, e));
    DistinctSum(e.waiting + Reserved(cfg, e).victims, Reserved(cfg, e).kept + Reserved(cfg, e).partials);
  }

  /** The decode loop of Sarathi in closed form, half-processed prompts among the list. */

  lemma RunningIsProper(cfg: Config, e: Engine)
    requires Inv(cfg, e)
    ensures ReserveExactly.Proper(ByArrival(e.running, e.seqs), e.seqs, e.pool, NoCap)
  {
    OwnsMeans(e.pool, e.running, cfg.numBlocks);
    SortedIsProper(e.running, e.seqs, e.pool, NoCap);
  }

  lemma ReservesMost(cfg: Config, e: Engine)
    requires Inv(cfg, e)
    ensures var q := ByArrival(e.running, e.seqs);
            var m := Most(q, |q|, e.seqs, e.pool, NoCap, cfg.size);
            EndsWith(Reserved(cfg, e), q, m, e.seqs, e.pool, NoCap, cfg.size)
    ensures var q := ByArrival(e.running, e.seqs);
            Reserved(cfg, e).victims == []
            <==> forall i: nat :: i < |q| && Asks(q, i, e.seqs, NoCap) ==> e.pool.free > Claims(q, i, e.seqs, e.pool, NoCap, cfg.size)
  {
    var q := ByArrival(e.running, e.seqs);
    RunningIsProper(cfg, e);
    KeepsMost(q, e.seqs, e.pool, NoCap, cfg.size);
    PreemptsNobodyExactly(q, e.seqs, e.pool, NoCap, cfg.size);
  }

  // Nobody is kept without a slot.
  lemma KeptHaveSlots(cfg: Config, e: Engine)
    requires Inv(cfg, e)
    ensures Reserved(cfg, e).kept == Reserved(cfg, e).slots
  {
    var q := ByArrival(e.running, e.seqs);
    var m := Most(q, |q|, e.seqs, e.pool, NoCap, cfg.size);
    ReservesMost(cfg, e);
    PermutationMembers(q, e.running);
    PausedStayForSlots(q, m, e.seqs);
  }

  lemma {:induction false} PausedStayForSlots(q: seq<Id>, i: nat, seqs: SeqMap)
    requires i <= |q| && forall id :: id in q ==> Look(seqs, id).status.PAUSED?
    ensures Staying(q, i, seqs) == Asking(q, i, seqs, NoCap)
  {
    if i > 0 {
      assert q[i - 1] in q;
      PausedStayForSlots(q, i - 1, seqs);
    }
  }
}
