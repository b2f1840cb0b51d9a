/** The loop every scheduler runs over its arrival-sorted running list: give each decoding
    sequence a slot for its next token and, when no block is free, preempt from the tail.
    It is written as small steps; the head stays in the queue until it has its slot or is
    itself the last one left to preempt. */
module Reserve {
  import opened Lists
  import opened Sequences
  import opened BlockPool

  // When a scheduler stops handing out slots and keeps the rest of the queue as it is.
  datatype Cap =
    | NoCap            // vLLM, high priority, Sarathi
    | BySlots(n: nat)  // decode instance: tested before the head is taken
    | ByKept(n: nat)   // low priority: tested for a decoding head

  datatype Reservation = Reservation(
    queue: seq<Id>,     // still to be looked at
    kept: seq<Id>,      // the new running list so far
    partials: seq<Id>,  // prompts not yet fully processed, set aside
    victims: seq<Id>,   // preempted, in the order they were
    slots: seq<Id>,     // decoding sequences put in the batch
    pool: Pool)

  // Preempt the tail of the queue, the head itself when nothing else is left.
  function Evict(r: Reservation): Reservation
    requires r.queue != []
  {
    var last := r.queue[|r.queue| - 1];
    r.(queue := r.queue[..|r.queue| - 1], victims := r.victims + [last], pool := r.pool.Release(last))
  }

  function TakeSlot(r: Reservation, need: nat): Reservation
    requires r.queue != []
  {
    r.(queue := r.queue[1..], kept := r.kept + [r.queue[0]], slots := r.slots + [r.queue[0]],
       pool := r.pool.AppendSlot(r.queue[0], need))
  }

  function Next(r: Reservation, seqs: SeqMap, cap: Cap, size: nat): Reservation
    requires size > 0
    requires r.queue != []
  {
    var head := r.queue[0];
    var rest := r.queue[1..];
    var view := Look(seqs, head);
    if cap.BySlots? && |r.slots| >= cap.n then
      r.(queue := [], kept := r.kept + r.queue)
    else if !view.status.PAUSED? then
      r.(queue := rest, kept := r.kept + [head])
    else if !view.stageDone then
      r.(queue := rest, partials := r.partials + [head])
    else if cap.ByKept? && |r.kept| >= cap.n then
      r.(queue := [], kept := r.kept + r.queue)
    else if r.pool.free > 0 then
      TakeSlot(r, view.Need(size))
    else
      Evict(r)
  }

  function Run(r: Reservation, seqs: SeqMap, cap: Cap, size: nat): (e: Reservation)
    requires size > 0
    ensures e.queue == []
    decreases |r.queue|
  {
    if r.queue == [] then r else Run(Next(r, seqs, cap, size), seqs, cap, size)
  }

  // The head is to be decoded: it takes a slot or has something preempted for it.
  predicate WantsSlot(r: Reservation, seqs: SeqMap, cap: Cap) {
    && r.queue != []
    && !(cap.BySlots? && |r.slots| >= cap.n)
    && Look(seqs, r.queue[0]).status.PAUSED?
    && Look(seqs, r.queue[0]).stageDone
    && !(cap.ByKept? && |r.kept| >= cap.n)
  }

  function Start(running: seq<Id>, pool: Pool): Reservation {
    Reservation(running, [], [], [], [], pool)
  }

  // Nothing in the queue is mid-prompt or mid-execution.
  ghost predicate AllDecoding(ids: seq<Id>, seqs: SeqMap) {
    forall id :: id in ids ==> Look(seqs, id).status.PAUSED? && Look(seqs, id).stageDone
  }

  /** What the loop may rely on when it preempts or appends: the queue lists executing sequences
      with a table, each once. */
  ghost predicate Preemptable(r: Reservation, seqs: SeqMap) {
    && Distinct(r.queue)
    && forall id :: id in r.queue ==> id in r.pool.held && Look(seqs, id).status.Executing()
  }

  lemma EvictPreemptable(r: Reservation, seqs: SeqMap)
    requires r.queue != []
    requires Preemptable(r, seqs)
    ensures Preemptable(Evict(r), seqs)
  {
    DistinctInit(r.queue);
    forall id | id in r.queue[..|r.queue| - 1] ensures id in r.queue {}
  }

  lemma PopPreemptable(r: Reservation, n: Reservation, seqs: SeqMap)
    requires r.queue != []
    requires Preemptable(r, seqs)
    requires n.queue == r.queue[1..] && r.pool.held.Keys <= n.pool.held.Keys
    ensures Preemptable(n, seqs)
  {
    DistinctTail(r.queue);
    forall id | id in n.queue ensures id in r.queue {}
  }

  lemma NextPreemptable(r: Reservation, seqs: SeqMap, cap: Cap, size: nat)
    requires size > 0
    requires r.queue != []
    requires Preemptable(r, seqs)
    ensures Preemptable(Next(r, seqs, cap, size), seqs)
  {
    var n := Next(r, seqs, cap, size);
    if n == Evict(r) {
      EvictPreemptable(r, seqs);
    } else if n.queue == r.queue[1..] {
      PopPreemptable(r, n, seqs);
    }
  }

  /** Exact split. */

  lemma NextSplit(r: Reservation, seqs: SeqMap, cap: Cap, size: nat)
    requires size > 0
    requires r.queue != []
    requires AllDecoding(r.queue, seqs)
    ensures var n := Next(r, seqs, cap, size);
            && AllDecoding(n.queue, seqs)
            && n.partials == r.partials
            && n.kept + n.queue + Reverse(n.victims) == r.kept + r.queue + Reverse(r.victims)
  {
    var n := Next(r, seqs, cap, size);
    if n.victims != r.victims {
      ReverseAppend(r.victims, r.queue[|r.queue| - 1]);
      ShiftLast(r.kept, r.queue, Reverse(r.victims));
    } else if n.queue == r.queue[1..] && n.kept == r.kept + [r.queue[0]] {
      ShiftHead(r.kept, r.queue, Reverse(r.victims));
    } else {
      NoTail(r.kept + r.queue);
    }
  }

  lemma {:induction false} Split(r: Reservation, seqs: SeqMap, cap: Cap, size: nat)
    requires size > 0
    requires AllDecoding(r.queue, seqs)
    ensures var e := Run(r, seqs, cap, size);
            && e.partials == r.partials
            && e.kept + Reverse(e.victims) == r.kept + r.queue + Reverse(r.victims)
    decreases |r.queue|
  {
    if r.queue == [] {
      NoTail(r.kept);
    } else {
      NextSplit(r, seqs, cap, size);
      Split(Next(r, seqs, cap, size), seqs, cap, size);
    }
  }

  // Starting from a sorted running list, what is kept is its prefix and the victims are the
  // remaining suffix, youngest first.
  lemma ExactSplit(running: seq<Id>, pool: Pool, seqs: SeqMap, cap: Cap, size: nat)
    requires size > 0
    requires AllDecoding(running, seqs)
    ensures var e := Run(Start(ByArrival(running, seqs), pool), seqs, cap, size);
            && e.kept + Reverse(e.victims) == ByArrival(running, seqs)
            && forall k, v :: k in e.kept && v in e.victims ==> Look(seqs, k).arrival <= Look(seqs, v).arrival
  {
    var sorted := ByArrival(running, seqs);
    var e := Run(Start(sorted, pool), seqs, cap, size);
    PermutationMembers(sorted, running);
    Split(Start(sorted, pool), seqs, cap, size);
    NoTail(sorted);
    ByArrivalSorts(running, seqs);
    PermutationMembers(e.victims, Reverse(e.victims));
    SplitInOrder(e.kept, Reverse(e.victims), seqs);
  }

  lemma SplitInOrder(a: seq<Id>, b: seq<Id>, seqs: SeqMap)
    requires InArrivalOrder(a + b, seqs)
    ensures forall k, v :: k in a && v in b ==> Look(seqs, k).arrival <= Look(seqs, v).arrival
  {
    forall k, v | k in a && v in b ensures Look(seqs, k).arrival <= Look(seqs, v).arrival {
      var i :| 0 <= i < |a| && a[i] == k;
      var j :| 0 <= j < |b| && b[j] == v;
      assert (a + b)[i] == k && (a + b)[|a| + j] == v;
    }
  }

  /** Blocks. */

  // The sequences that still hold blocks in the middle of the loop.
  function Holders(r: Reservation): seq<Id> {
    r.kept + r.partials + r.queue
  }

  lemma EvictOwns(r: Reservation, numBlocks: nat)
    requires r.queue != []
    requires Owns(r.pool, Holders(r), numBlocks)
    ensures Owns(Evict(r).pool, Holders(Evict(r)), numBlocks)
    ensures var last := r.queue[|r.queue| - 1];
            && last !in Holders(Evict(r))
            && Holders(r) == Holders(Evict(r)) + [last]
    ensures forall id :: id in Holders(Evict(r)) ==> Evict(r).pool.Held(id) == r.pool.Held(id)
  {
    var others, last := r.kept + r.partials, r.queue[|r.queue| - 1];
    var left := others + r.queue[..|r.queue| - 1];
    ShiftLast(others, r.queue, []);
    NoTail([last]);
    NoTail(others + r.queue);
    assert Holders(r) == left + [last];
    NoTail(left + [last]);
    NoTail(left);
    OwnsRelease(r.pool, left, last, [], numBlocks);
  }

  lemma HeadHolds(r: Reservation)
    requires r.queue != []
    ensures r.queue[0] in Holders(r)
  {}

  lemma NextOwns(r: Reservation, seqs: SeqMap, cap: Cap, size: nat, numBlocks: nat)
    requires size > 0
    requires r.queue != []
    requires Owns(r.pool, Holders(r), numBlocks)
    ensures var n := Next(r, seqs, cap, size);
            && Owns(n.pool, Holders(n), numBlocks)
            && multiset(Holders(n)) + multiset(n.victims) == multiset(Holders(r)) + multiset(r.victims)
  {
    var n := Next(r, seqs, cap, size);
    if n.victims != r.victims {
      EvictOwns(r, numBlocks);
    } else {
      NextPermutes(r, seqs, cap, size);
      NextKeepsOwners(r, seqs, cap, size, numBlocks);
      OwnsPermutation(n.pool, Holders(r), Holders(n), numBlocks);
    }
  }

  // With nobody preempted the same sequences own tables.
  lemma NextKeepsOwners(r: Reservation, seqs: SeqMap, cap: Cap, size: nat, numBlocks: nat)
    requires size > 0
    requires r.queue != []
    requires Owns(r.pool, Holders(r), numBlocks)
    requires Next(r, seqs, cap, size).victims == r.victims
    ensures Owns(Next(r, seqs, cap, size).pool, Holders(r), numBlocks)
  {
    HeadHolds(r);
    OwnsAppendSlot(r.pool, Holders(r), r.queue[0], Look(seqs, r.queue[0]).Need(size), numBlocks);
  }

  lemma NextPermutes(r: Reservation, seqs: SeqMap, cap: Cap, size: nat)
    requires size > 0
    requires r.queue != []
    requires Next(r, seqs, cap, size).victims == r.victims
    ensures multiset(Holders(Next(r, seqs, cap, size))) == multiset(Holders(r))
  {
    var n := Next(r, seqs, cap, size);
    HoldersParts(r);
    HoldersParts(n);
    HeadMoves(r.kept, r.partials, r.queue, n.kept, n.partials, n.queue);
  }

  // The head of the queue, or all of it, joins one of the other lists.
  lemma HeadMoves(kept: seq<Id>, partials: seq<Id>, queue: seq<Id>, kept': seq<Id>, partials': seq<Id>, queue': seq<Id>)
    requires queue != []
    requires || (kept' == kept + queue && partials' == partials && queue' == [])
             || (kept' == kept + [queue[0]] && partials' == partials && queue' == queue[1..])
             || (kept' == kept && partials' == partials + [queue[0]] && queue' == queue[1..])
    ensures multiset(kept') + multiset(partials') + multiset(queue') == multiset(kept) + multiset(partials) + multiset(queue)
  {
    assert queue == [queue[0]] + queue[1..];
  }

  lemma HoldersParts(r: Reservation)
    ensures multiset(Holders(r)) == multiset(r.kept) + multiset(r.partials) + multiset(r.queue)
  {}

  lemma {:induction false} RunOwns(r: Reservation, seqs: SeqMap, cap: Cap, size: nat, numBlocks: nat)
    requires size > 0
    requires Owns(r.pool, Holders(r), numBlocks)
    ensures var e := Run(r, seqs, cap, size);
            && Owns(e.pool, e.kept + e.partials, numBlocks)
            && multiset(e.kept + e.partials) + multiset(e.victims) == multiset(Holders(r)) + multiset(r.victims)
    decreases |r.queue|
  {
    if r.queue == [] {
      assert Holders(r) == r.kept + r.partials;
    } else {
      NextOwns(r, seqs, cap, size, numBlocks);
      RunOwns(Next(r, seqs, cap, size), seqs, cap, size, numBlocks);
    }
  }

  /** What each sequence holds at the end. */

  // Every sequence handed a slot has a block for each of its logical blocks; a sequence that
  // has not been touched holds what it held before.
  ghost predicate Stocked(r: Reservation, seqs: SeqMap, size: nat, before: Pool)
    requires size > 0
  {
    && (forall id :: id in r.slots ==> id in r.kept && r.pool.Held(id) == Look(seqs, id).Need(size))
    && (forall id :: id in r.kept + r.partials + r.queue && id !in r.slots ==> r.pool.Held(id) == before.Held(id))
  }

  // The table is the logical blocks, or one short of them.
  ghost predicate OneShort(id: Id, seqs: SeqMap, p: Pool, size: nat)
    requires size > 0
  {
    id in p.held && p.held[id] <= Look(seqs, id).Need(size) <= p.held[id] + 1
  }

  lemma EvictStocked(r: Reservation, seqs: SeqMap, size: nat, before: Pool, numBlocks: nat)
    requires size > 0
    requires r.queue != []
    requires Owns(r.pool, Holders(r), numBlocks)
    requires Stocked(r, seqs, size, before)
    ensures Stocked(Evict(r), seqs, size, before)
  {
    EvictOwns(r, numBlocks);
    forall id | id in r.slots ensures id in Holders(Evict(r)) {}
    forall id | id in Holders(Evict(r)) ensures id in Holders(r) {}
  }

  lemma TakeSlotStocked(r: Reservation, seqs: SeqMap, size: nat, before: Pool, numBlocks: nat)
    requires size > 0
    requires r.queue != []
    requires Owns(r.pool, Holders(r), numBlocks)
    requires Stocked(r, seqs, size, before)
    requires OneShort(r.queue[0], seqs, before, size)
    requires r.pool.free > 0
    ensures Stocked(TakeSlot(r, Look(seqs, r.queue[0]).Need(size)), seqs, size, before)
  {
    var others, head, rest := r.kept + r.partials, r.queue[0], r.queue[1..];
    ShiftHead(others, r.queue, []);
    NoTail(others + r.queue);
    NoTail(others + [head] + rest);
    OwnsMeans(r.pool, Holders(r), numBlocks);
    DistinctSplit(others, head, rest);
    var need := Look(seqs, head).Need(size);
    var n := TakeSlot(r, need);
    assert head !in r.slots;
    assert r.pool.Held(head) == before.Held(head) by { HeadHolds(r); }
    assert head in r.pool.held by { HeadHolds(r); }
    assert n.pool.Held(head) == need;
    forall id | id in n.slots ensures id in n.kept && n.pool.Held(id) == Look(seqs, id).Need(size) {
      if id in r.slots { assert id != head; } else { assert id == head; }
    }
    forall id | id in n.kept + n.partials + n.queue && id !in n.slots ensures n.pool.Held(id) == before.Held(id) {
      assert id in Holders(r);
    }
  }

  lemma NextStocked(r: Reservation, seqs: SeqMap, cap: Cap, size: nat, before: Pool, numBlocks: nat)
    requires size > 0
    requires r.queue != []
    requires Owns(r.pool, Holders(r), numBlocks)
    requires Stocked(r, seqs, size, before)
    requires forall id :: id in r.queue && Look(seqs, id).stageDone ==> OneShort(id, seqs, before, size)
    ensures Stocked(Next(r, seqs, cap, size), seqs, size, before)
  {
    var n := Next(r, seqs, cap, size);
    if n == Evict(r) {
      EvictStocked(r, seqs, size, before, numBlocks);
    } else if n == TakeSlot(r, Look(seqs, r.queue[0]).Need(size)) {
      TakeSlotStocked(r, seqs, size, before, numBlocks);
    } else {
      NextPermutes(r, seqs, cap, size);
      PermutationMembers(Holders(r), Holders(n));
    }
  }

  lemma {:induction false} RunStocked(r: Reservation, seqs: SeqMap, cap: Cap, size: nat, before: Pool, numBlocks: nat)
    requires size > 0
    requires Owns(r.pool, Holders(r), numBlocks)
    requires Stocked(r, seqs, size, before)
    requires forall id :: id in r.queue && Look(seqs, id).stageDone ==> OneShort(id, seqs, before, size)
    ensures Stocked(Run(r, seqs, cap, size), seqs, size, before)
    decreases |r.queue|
  {
    if r.queue != [] {
      NextOwns(r, seqs, cap, size, numBlocks);
      NextStocked(r, seqs, cap, size, before, numBlocks);
      RunStocked(Next(r, seqs, cap, size), seqs, cap, size, before, numBlocks);
    }
  }

  /** Oldest is safe. */

  // The head of the queue gets its slot: to be preempted it would have to hold the whole pool.
  lemma {:induction false} HeadGetsSlot(r: Reservation, seqs: SeqMap, cap: Cap, size: nat, numBlocks: nat)
    requires size > 0
    requires r.queue != []
    requires r.kept == [] && r.partials == [] && r.slots == []
    requires Look(seqs, r.queue[0]).status.PAUSED? && Look(seqs, r.queue[0]).stageDone
    requires cap != BySlots(0) && cap != ByKept(0)
    requires Owns(r.pool, r.queue, numBlocks)
    requires r.pool.Held(r.queue[0]) < numBlocks
    ensures var e := Run(r, seqs, cap, size);
            && e.slots != [] && e.slots[0] == r.queue[0]
            && e.kept != [] && e.kept[0] == r.queue[0]
    decreases |r.queue|
  {
    if r.pool.free > 0 {
      var n := TakeSlot(r, Look(seqs, r.queue[0]).Need(size));
      assert Run(r, seqs, cap, size) == Run(n, seqs, cap, size);
      RunExtends(n, seqs, cap, size);
      assert n.slots[0] == r.queue[0] && n.kept[0] == r.queue[0];
    } else {
      var n := Evict(r);
      assert Run(r, seqs, cap, size) == Run(n, seqs, cap, size);
      HeadSurvivesEviction(r, numBlocks);
      HeadGetsSlot(n, seqs, cap, size, numBlocks);
    }
  }

  lemma HeadSurvivesEviction(r: Reservation, numBlocks: nat)
    requires r.queue != []
    requires r.kept == [] && r.partials == []
    requires Owns(r.pool, r.queue, numBlocks)
    requires r.pool.free == 0 && r.pool.Held(r.queue[0]) < numBlocks
    ensures var n := Evict(r);
            && n.queue != [] && n.queue[0] == r.queue[0]
            && Owns(n.pool, n.queue, numBlocks)
            && n.pool.Held(n.queue[0]) == r.pool.Held(r.queue[0])
  {
    var n := Evict(r);
    assert Total(r.queue, r.pool) == r.pool.Held(r.queue[0]) + Total(r.queue[1..], r.pool);
    NoTail(r.queue);
    EvictOwns(r, numBlocks);
    NoTail(n.queue);
    assert Holders(n) == n.queue;
    assert r.queue[0] in Holders(n);
  }

  lemma HoldingAllLeavesNothing(p: Pool, ids: seq<Id>, id: Id, numBlocks: nat)
    requires Owns(p, ids, numBlocks)
    requires id in ids && p.Held(id) == numBlocks
    ensures p.free == 0
  {
    TotalMember(ids, id, p);
  }

  // With the whole pool in the head's table, everyone is preempted, the head last.
  lemma {:induction false} PoolHolderIsPreempted(r: Reservation, seqs: SeqMap, cap: Cap, size: nat, numBlocks: nat)
    requires size > 0
    requires r.queue != []
    requires r.kept == [] && r.partials == [] && r.slots == []
    requires Look(seqs, r.queue[0]).status.PAUSED? && Look(seqs, r.queue[0]).stageDone
    requires cap != BySlots(0) && cap != ByKept(0)
    requires Owns(r.pool, r.queue, numBlocks)
    requires r.pool.Held(r.queue[0]) == numBlocks
    ensures var e := Run(r, seqs, cap, size);
            e.slots == [] && e.kept == [] && e.partials == [] && e.victims != []
    decreases |r.queue|
  {
    var n := Evict(r);
    HoldingAllLeavesNothing(r.pool, r.queue, r.queue[0], numBlocks);
    assert Next(r, seqs, cap, size) == n;
    if |r.queue| > 1 {
      NoTail(r.queue);
      EvictOwns(r, numBlocks);
      NoTail(n.queue);
      assert Holders(n) == n.queue && r.queue[0] in Holders(n);
      PoolHolderIsPreempted(n, seqs, cap, size, numBlocks);
    } else {
      assert Run(n, seqs, cap, size) == n;
    }
  }

  // Kept and slots only grow at their end.
  lemma {:induction false} RunExtends(r: Reservation, seqs: SeqMap, cap: Cap, size: nat)
    requires size > 0
    ensures var e := Run(r, seqs, cap, size); r.kept <= e.kept && r.slots <= e.slots && r.partials <= e.partials
    decreases |r.queue|
  {
    if r.queue != [] { RunExtends(Next(r, seqs, cap, size), seqs, cap, size); }
  }

  /** How many slots are handed out. */

  lemma {:induction false} SlotsAreKept(r: Reservation, seqs: SeqMap, cap: Cap, size: nat)
    requires size > 0
    requires cap.NoCap? || |r.kept| + |r.queue| <= cap.n
    requires AllDecoding(r.queue, seqs)
    requires r.slots == r.kept
    ensures var e := Run(r, seqs, cap, size); e.slots == e.kept
    decreases |r.queue|
  {
    if r.queue != [] { SlotsAreKept(Next(r, seqs, cap, size), seqs, cap, size); }
  }

  ghost predicate SlotsInKept(r: Reservation) {
    forall id :: id in r.slots ==> id in r.kept
  }

  lemma {:induction false} SlotsAmongKept(r: Reservation, seqs: SeqMap, cap: Cap, size: nat)
    requires size > 0
    requires SlotsInKept(r)
    ensures SlotsInKept(Run(r, seqs, cap, size))
    decreases |r.queue|
  {
    if r.queue != [] {
      var n := Next(r, seqs, cap, size);
      assert SlotsInKept(n);
      SlotsAmongKept(n, seqs, cap, size);
    }
  }
}
