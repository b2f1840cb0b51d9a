/** When a Sarathi step raises. An over-long sequence is not taken off the waiting list, so the
    step fails as soon as its loop gets to one; whether it does can be told beforehand. */
module SarathiFailure {
  import opened Lists
  import opened Sequences
  import opened BlockPool
  import opened Reserve
  import opened EngineCore
  import opened Sarathi
  import PrefillFirst

  // Tokens of the prompt that no batch has processed yet.
  function Remaining(v: SeqView): nat { if |v.prompt| > v.staged then |v.prompt| - v.staged else 0 }

  function RemainingSum(ids: seq<Id>, seqs: SeqMap): nat {
    if ids == [] then 0 else Remaining(Look(seqs, ids[0])) + RemainingSum(ids[1..], seqs)
  }

  // The queue the waiting loop goes through and what has been spent when it starts.
  datatype Room = Room(queue: seq<Id>, free: nat, width: nat, tokens: nat)

  // After the decodes and the prompt left half processed, which comes before anyone waiting.
  function RoomOf(cfg: Config, e: Engine): Room
    requires cfg.Valid()
  {
    var r := Reserved(cfg, e);
    Room(e.waiting + r.victims, r.pool.free, |r.kept| + |r.partials|, |r.slots| + RemainingSum(r.partials, e.seqs))
  }

  // The loop gets past the j-th sequence: the blocks of all up to it leave the watermark free,
  // there is room for one more, and those before it have left it tokens of the chunk.
  predicate Passes(cfg: Config, room: Room, seqs: SeqMap, chunkSize: nat, j: nat)
    requires cfg.Valid() && j < |room.queue|
  {
    var v := Look(seqs, room.queue[j]);
    && v.Len() <= cfg.limit
    && room.free - NeedSum(room.queue[..j + 1], seqs, cfg.size) >= cfg.watermark
    && room.width + j < cfg.maxSeqs
    && Remaining(v) > 0
    && room.tokens + RemainingSum(room.queue[..j], seqs) < chunkSize
  }

  ghost predicate Reaches(cfg: Config, room: Room, seqs: SeqMap, chunkSize: nat, j: nat, k: nat)
    requires cfg.Valid()
  {
    && j <= k < |room.queue|
    && Look(seqs, room.queue[k]).Len() > cfg.limit
    && forall i :: j <= i < k ==> Passes(cfg, room, seqs, chunkSize, i)
  }

  /** Some sequence in the queue is over-long, and the loop gets past all those before it. */
  ghost predicate OverlongReached(cfg: Config, room: Room, seqs: SeqMap, chunkSize: nat)
    requires cfg.Valid()
  {
    OverlongFrom(cfg, room, seqs, chunkSize, 0)
  }

  ghost predicate OverlongFrom(cfg: Config, room: Room, seqs: SeqMap, chunkSize: nat, j: nat)
    requires cfg.Valid()
  {
    exists k: nat :: Reaches(cfg, room, seqs, chunkSize, j, k)
  }

  lemma {:induction false} RemainingSumSnoc(ids: seq<Id>, x: Id, seqs: SeqMap)
    ensures RemainingSum(ids + [x], seqs) == RemainingSum(ids, seqs) + Remaining(Look(seqs, x))
  {
    if ids == [] {
      assert [] + [x] == [x] && [x][1..] == [];
    } else {
      assert (ids + [x])[1..] == ids[1..] + [x];
      RemainingSumSnoc(ids[1..], x, seqs);
    }
  }

  // The loop has admitted the first j of the queue.
  ghost predicate Reached(cfg: Config, c: Chunking, room: Room, seqs: SeqMap, chunkSize: nat, j: nat)
    requires cfg.Valid()
  {
    && j <= |room.queue|
    && c.waiting == room.queue[j..]
    && c.pool.free == room.free - NeedSum(room.queue[..j], seqs, cfg.size)
    && |c.running| == room.width + j
    && c.tokens == Min(room.tokens + RemainingSum(room.queue[..j], seqs), chunkSize)
    && !c.overlong
  }

  ghost predicate Staged(ids: seq<Id>, seqs: SeqMap) {
    forall id :: id in ids ==> Look(seqs, id).staged <= |Look(seqs, id).prompt|
  }

  lemma PrefixGrows(room: Room, j: nat, seqs: SeqMap, size: nat)
    requires size > 0 && j < |room.queue|
    ensures RemainingSum(room.queue[..j + 1], seqs) == RemainingSum(room.queue[..j], seqs) + Remaining(Look(seqs, room.queue[j]))
    ensures NeedSum(room.queue[..j + 1], seqs, size) == NeedSum(room.queue[..j], seqs, size) + Look(seqs, room.queue[j]).Need(size)
  {
    assert room.queue[..j + 1] == room.queue[..j] + [room.queue[j]];
    RemainingSumSnoc(room.queue[..j], room.queue[j], seqs);
    NeedSumSnoc(room.queue[..j], room.queue[j], seqs, size);
  }

  // The closed-form test is the loop's own.
  lemma PassesIsGoingOn(cfg: Config, c: Chunking, room: Room, seqs: SeqMap, chunkSize: nat, j: nat)
    requires cfg.Valid()
    requires Reached(cfg, c, room, seqs, chunkSize, j) && j < |room.queue|
    requires Staged(room.queue, seqs)
    requires Look(seqs, room.queue[j]).Len() <= cfg.limit
    ensures Passes(cfg, room, seqs, chunkSize, j) <==> !Stops(cfg, c, seqs, chunkSize)
  {
    assert room.queue[j] in room.queue && c.waiting[0] == room.queue[j];
    PrefixGrows(room, j, seqs, cfg.size);
  }

  lemma AdmitReaches(cfg: Config, c: Chunking, room: Room, seqs: SeqMap, chunkSize: nat, j: nat)
    requires cfg.Valid()
    requires Reached(cfg, c, room, seqs, chunkSize, j) && j < |room.queue|
    requires Staged(room.queue, seqs)
    requires Look(seqs, room.queue[j]).Len() <= cfg.limit
    requires !Stops(cfg, c, seqs, chunkSize)
    ensures Reached(cfg, AdmitNext(cfg, c, seqs, chunkSize), room, seqs, chunkSize, j + 1)
  {
    assert room.queue[j] in room.queue && c.waiting[0] == room.queue[j];
    assert room.queue[j..][1..] == room.queue[j + 1..];
    PrefixGrows(room, j, seqs, cfg.size);
  }

  lemma {:induction false} AdmitFailsExactly(cfg: Config, c: Chunking, room: Room, seqs: SeqMap, chunkSize: nat, j: nat)
    requires cfg.Valid()
    requires Reached(cfg, c, room, seqs, chunkSize, j)
    requires Staged(room.queue, seqs)
    ensures Admit(cfg, c, seqs, chunkSize).overlong <==> OverlongFrom(cfg, room, seqs, chunkSize, j)
    decreases |room.queue| - j
  {
    if j < |room.queue| {
      assert c.waiting[0] == room.queue[j];
      if Look(seqs, room.queue[j]).Len() > cfg.limit {
        assert Admit(cfg, c, seqs, chunkSize) == AdmitNext(cfg, c, seqs, chunkSize);
        assert Reaches(cfg, room, seqs, chunkSize, j, j);
      } else {
        PassesIsGoingOn(cfg, c, room, seqs, chunkSize, j);
        if !Stops(cfg, c, seqs, chunkSize) {
          AdmitReaches(cfg, c, room, seqs, chunkSize, j);
          AdmitFailsExactly(cfg, AdmitNext(cfg, c, seqs, chunkSize), room, seqs, chunkSize, j + 1);
          OneFurther(cfg, room, seqs, chunkSize, j);
        }
      }
    }
  }

  lemma OneFurther(cfg: Config, room: Room, seqs: SeqMap, chunkSize: nat, j: nat)
    requires cfg.Valid() && j < |room.queue|
    requires Passes(cfg, room, seqs, chunkSize, j)
    ensures OverlongFrom(cfg, room, seqs, chunkSize, j) <==> OverlongFrom(cfg, room, seqs, chunkSize, j + 1)
  {
    if OverlongFrom(cfg, room, seqs, chunkSize, j) {
      var k: nat :| Reaches(cfg, room, seqs, chunkSize, j, k);
      assert Reaches(cfg, room, seqs, chunkSize, j + 1, k);
    }
    if OverlongFrom(cfg, room, seqs, chunkSize, j + 1) {
      var k: nat :| Reaches(cfg, room, seqs, chunkSize, j + 1, k);
      assert Reaches(cfg, room, seqs, chunkSize, j, k);
    }
  }

  // The loop on its own, from any state it may start in.
  function RoomAt(c: Chunking): Room {
    Room(c.waiting, c.pool.free, |c.running|, if c.tokens > 0 then c.tokens else 0)
  }

  lemma LoopFailsExactly(cfg: Config, c: Chunking, seqs: SeqMap, chunkSize: nat)
    requires cfg.Valid()
    requires 0 <= c.tokens <= chunkSize && !c.overlong
    requires Staged(c.waiting, seqs)
    ensures Admit(cfg, c, seqs, chunkSize).overlong <==> OverlongReached(cfg, RoomAt(c), seqs, chunkSize)
  {
    AdmitFailsExactly(cfg, c, RoomAt(c), seqs, chunkSize, 0);
  }

  lemma RoomIsReached(cfg: Config, e: Engine, chunkSize: nat)
    requires SarathiInv(cfg, e, chunkSize)
    ensures Reached(cfg, AfterPartials(cfg, e, chunkSize), RoomOf(cfg, e), e.seqs, chunkSize, 0)
  {
    var r := Reserved(cfg, e);
    TakingLeavesWaiting(AfterDecodes(e, r), r.partials, e.seqs, chunkSize);
    PartialsRun(cfg, e, chunkSize);
    OnePartialAtMost(cfg, e, chunkSize);
    FewPartialsTake(AfterDecodes(e, r), |r.slots|, r.partials, e.seqs, chunkSize);
    StartReaches(cfg, AfterPartials(cfg, e, chunkSize), RoomOf(cfg, e), e.seqs, chunkSize);
  }

  lemma StartReaches(cfg: Config, c: Chunking, room: Room, seqs: SeqMap, chunkSize: nat)
    requires cfg.Valid()
    requires c.waiting == room.queue && c.pool.free == room.free && |c.running| == room.width
    requires c.tokens == Min(room.tokens, chunkSize) && !c.overlong
    ensures Reached(cfg, c, room, seqs, chunkSize, 0)
  {
    assert room.queue[..0] == [] && room.queue[0..] == room.queue;
  }

  lemma PartialsRun(cfg: Config, e: Engine, chunkSize: nat)
    requires SarathiInv(cfg, e, chunkSize)
    ensures var r := Reserved(cfg, e);
            var c := AfterPartials(cfg, e, chunkSize);
            |c.running| == |r.kept| + |r.partials| && !c.overlong
  {
    var r := Reserved(cfg, e);
    PartialsFill(cfg, e, chunkSize);
    TakingIsNotOverlong(AfterDecodes(e, r), r.partials, e.seqs, chunkSize);
  }

  lemma {:induction false} TakingIsNotOverlong(c: Chunking, partials: seq<Id>, seqs: SeqMap, chunkSize: nat)
    ensures TakePartials(c, partials, seqs, chunkSize).overlong == c.overlong
    decreases |partials|
  {
    if partials != [] {
      var id := partials[0];
      var n := NextTokens(Look(seqs, id), chunkSize, c.tokens);
      TakingIsNotOverlong(if n == 0 then c.(running := c.running + [id]) else Put(c, id, n), partials[1..], seqs, chunkSize);
    }
  }

  lemma FewPartialsTake(c: Chunking, spent: nat, partials: seq<Id>, seqs: SeqMap, chunkSize: nat)
    requires c.tokens == spent <= chunkSize
    requires partials != [] ==> partials == [partials[0]]
    requires Staged(partials, seqs)
    ensures TakePartials(c, partials, seqs, chunkSize).tokens == Min(spent + RemainingSum(partials, seqs), chunkSize)
  {
    if partials != [] {
      assert partials[0] in partials;
      OnePartialTakes(c, partials[0], seqs, chunkSize);
    }
  }

  lemma OnePartialAtMost(cfg: Config, e: Engine, chunkSize: nat)
    requires SarathiInv(cfg, e, chunkSize)
    ensures var r := Reserved(cfg, e);
            && |r.slots| <= chunkSize
            && (r.partials != [] ==> r.partials == [r.partials[0]])
            && Staged(r.partials, e.seqs)
  {
    var r := Reserved(cfg, e);
    ReservedIsOk(cfg, e);
    ReservedMembers(cfg, e, r);
    PartialsAtMostOne(cfg, e, r);
  }

  lemma OnePartialTakes(c: Chunking, id: Id, seqs: SeqMap, chunkSize: nat)
    requires Look(seqs, id).staged <= |Look(seqs, id).prompt|
    ensures TakePartials(c, [id], seqs, chunkSize).tokens == Min(c.tokens + Remaining(Look(seqs, id)), chunkSize)
    ensures RemainingSum([id], seqs) == Remaining(Look(seqs, id))
  {
    assert [id][1..] == [];
  }

  lemma QueueIsStaged(cfg: Config, e: Engine, chunkSize: nat)
    requires SarathiInv(cfg, e, chunkSize)
    ensures Staged(RoomOf(cfg, e).queue, e.seqs)
  {
    ReservedIsOk(cfg, e);
    ReservedMembers(cfg, e, Reserved(cfg, e));
  }

  /** A step raises exactly when an over-long sequence stands in the waiting list, or has just
      been preempted, and the waiting loop gets past everyone in front of it. */
  lemma FailsExactly(cfg: Config, e: Engine, chunkSize: nat, aborts: set<Id>, samples: map<Id, Sample>)
    requires SarathiInv(cfg, e, chunkSize)
    ensures var b := PrefillFirst.Abort(e, aborts);
            Step(cfg, e, chunkSize, aborts, samples).Failed? <==> OverlongReached(cfg, RoomOf(cfg, b), b.seqs, chunkSize)
  {
    var b := PrefillFirst.Abort(e, aborts);
    PrefillFirst.AbortKeepsInv(cfg, e, aborts);
    RoomIsReached(cfg, b, chunkSize);
    QueueIsStaged(cfg, b, chunkSize);
    AdmitFailsExactly(cfg, AfterPartials(cfg, b, chunkSize), RoomOf(cfg, b), b.seqs, chunkSize, 0);
    BatchIsFilled(cfg, b, chunkSize);
  }

  /** With nobody over-long, waiting or running, a step does not raise. The running ones matter:
      recomputation makes the text so far the prompt. */
  lemma NobodyOverlongSteps(cfg: Config, e: Engine, chunkSize: nat, aborts: set<Id>, samples: map<Id, Sample>)
    requires SarathiInv(cfg, e, chunkSize)
    requires forall id :: id in e.waiting + e.running ==> Look(e.seqs, id).Len() <= cfg.limit
    ensures Step(cfg, e, chunkSize, aborts, samples).Stepped?
  {
    var b := PrefillFirst.Abort(e, aborts);
    FailsExactly(cfg, e, chunkSize, aborts, samples);
    PrefillFirst.AbortKeepsInv(cfg, e, aborts);
    AbortKeepsShort(cfg, e, aborts);
    QueueIsShort(cfg, b, chunkSize);
  }

  lemma AbortKeepsShort(cfg: Config, e: Engine, aborts: set<Id>)
    requires forall id :: id in e.waiting + e.running ==> Look(e.seqs, id).Len() <= cfg.limit
    ensures var b := PrefillFirst.Abort(e, aborts);
            forall id :: id in b.waiting + b.running ==> Look(b.seqs, id).Len() <= cfg.limit
  {
    var b := PrefillFirst.Abort(e, aborts);
    WithoutWithin(e.waiting, aborts);
    forall id | id in b.waiting + b.running ensures Look(b.seqs, id).Len() <= cfg.limit {
      assert id in e.waiting + e.running;
    }
  }

  lemma QueueIsShort(cfg: Config, e: Engine, chunkSize: nat)
    requires SarathiInv(cfg, e, chunkSize)
    requires forall id :: id in e.waiting + e.running ==> Look(e.seqs, id).Len() <= cfg.limit
    ensures forall id :: id in RoomOf(cfg, e).queue ==> Look(e.seqs, id).Len() <= cfg.limit
  {
    ReservedIsOk(cfg, e);
    ReservedMembers(cfg, e, Reserved(cfg, e));
    forall id | id in RoomOf(cfg, e).queue ensures id in e.waiting + e.running {}
  }

  /** A sequence that has grown past the limit brings the step down in which it is the first to be
      preempted, when nobody is waiting. */
  lemma GrownVictimFails(cfg: Config, e: Engine, chunkSize: nat, samples: map<Id, Sample>)
    requires SarathiInv(cfg, e, chunkSize)
    requires e.waiting == []
    requires var victims := Reserved(cfg, e).victims; victims != [] && Look(e.seqs, victims[0]).Len() > cfg.limit
    ensures Step(cfg, e, chunkSize, {}, samples).Failed?
  {
    var b := PrefillFirst.Abort(e, {});
    MarkNone(e.seqs, FINISHED_ABORTED);
    assert b == e;
    FailsExactly(cfg, e, chunkSize, {}, samples);
    assert Reaches(cfg, RoomOf(cfg, e), e.seqs, chunkSize, 0, 0);
  }

  /** Any over-long request sent to an idle engine raises in its first step. */
  lemma OverlongArrivalFails(cfg: Config, chunkSize: nat, id: Id, view: SeqView, samples: map<Id, Sample>)
    requires cfg.Valid()
    requires Fresh(view) && cfg.Fits(view)
    requires view.Len() > cfg.limit
    ensures RunOf(cfg, Going(PrefillFirst.Idle(cfg), map[]), chunkSize, [Arrival(id, view), Tick({}, samples)]).Ended?
  {
    var idle := PrefillFirst.Idle(cfg);
    PrefillFirst.IdleInv(cfg);
    PrefillFirst.ArriveKeepsInv(cfg, idle, id, view);
    var e := PrefillFirst.Arrive(idle, id, view);
    assert e.waiting == [id];
    MarkNone(e.seqs, FINISHED_ABORTED);
    WithoutNone(e.waiting, {});
    assert PrefillFirst.Abort(e, {}) == e;
    FailsExactly(cfg, e, chunkSize, {}, samples);
    assert RoomOf(cfg, e).queue[0] == id;
    assert Reaches(cfg, RoomOf(cfg, e), e.seqs, chunkSize, 0, 0);
    var run := [Arrival(id, view), Tick({}, samples)];
    var arrived := Going(e, map[] - {id});
    assert run[1..] == [Tick({}, samples)];
    assert Apply(cfg, Going(idle, map[]), chunkSize, run[0]) == arrived;
    assert Apply(cfg, arrived, chunkSize, run[1]) == Ended;
    assert RunOf(cfg, arrived, chunkSize, run[1..]) == Ended;
  }

  /** Runs. */

  ghost predicate SomeTickReaches(cfg: Config, h: History, chunkSize: nat, events: seq<Event>)
    requires cfg.Valid()
    decreases |events|
  {
    h.Going? && events != [] &&
    (|| (events[0].Tick? &&
         var b := PrefillFirst.Abort(h.engine, events[0].aborts);
         OverlongReached(cfg, RoomOf(cfg, b), b.seqs, chunkSize))
     || SomeTickReaches(cfg, Apply(cfg, h, chunkSize, events[0]), chunkSize, events[1..]))
  }

  /** A run ends in an exception exactly when one of its steps gets to an over-long sequence. */
  lemma {:induction false} RunEndsExactly(cfg: Config, h: History, chunkSize: nat, events: seq<Event>)
    requires h.Going? && SarathiInv(cfg, h.engine, chunkSize) && Logged(h.engine, h.log)
    requires ProperRun(cfg, h, chunkSize, events)
    ensures RunOf(cfg, h, chunkSize, events).Ended? <==> SomeTickReaches(cfg, h, chunkSize, events)
    decreases |events|
  {
    if events != [] {
      var f := Apply(cfg, h, chunkSize, events[0]);
      ApplyKeeps(cfg, h, chunkSize, events[0]);
      if events[0].Tick? { FailsExactly(cfg, h.engine, chunkSize, events[0].aborts, events[0].samples); }
      if f.Going? { RunEndsExactly(cfg, f, chunkSize, events[1..]); }
    }
  }
}
