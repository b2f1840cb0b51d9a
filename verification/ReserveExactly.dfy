/** What the decode loop with preemption does, told from the sorted running list and the pool it
    starts with: how many it keeps, and so when it preempts nobody. */
module ReserveExactly {
  import opened Lists
  import opened Sequences
  import opened BlockPool
  import opened Reserve

  // The i-th is to be decoded, and the scheduler has not stopped handing out slots before it.
  predicate Asks(q: seq<Id>, i: nat, seqs: SeqMap, cap: Cap)
    requires i < |q|
  {
    Look(seqs, q[i]).status.PAUSED? && Look(seqs, q[i]).stageDone && (cap.NoCap? || i < cap.n)
  }

  // Its table is short of a logical block.
  predicate Short(id: Id, seqs: SeqMap, p: Pool, size: nat)
    requires size > 0
  {
    p.Held(id) < Look(seqs, id).Need(size)
  }

  // The blocks that those asking among the first i take, one for each table that is short.
  function Claims(q: seq<Id>, i: nat, seqs: SeqMap, p: Pool, cap: Cap, size: nat): nat
    requires size > 0 && i <= |q|
  {
    if i == 0 then 0
    else Claims(q, i - 1, seqs, p, cap, size)
         + (if Asks(q, i - 1, seqs, cap) && Short(q[i - 1], seqs, p, size) then 1 else 0)
  }

  // With everyone behind the first k preempted, each of the k that asks finds a block free.
  predicate Enough(q: seq<Id>, k: nat, seqs: SeqMap, p: Pool, cap: Cap, size: nat)
    requires size > 0 && k <= |q|
  {
    forall i: nat :: i < k && Asks(q, i, seqs, cap) ==> p.free + Total(q[k..], p) > Claims(q, i, seqs, p, cap, size)
  }

  // The most, up to k, for which there is enough.
  function Most(q: seq<Id>, k: nat, seqs: SeqMap, p: Pool, cap: Cap, size: nat): (m: nat)
    requires size > 0 && k <= |q|
    ensures m <= k
    ensures m == 0 || Enough(q, m, seqs, p, cap, size)
    ensures TooFew(q, m, k, seqs, p, cap, size)
  {
    if k == 0 then 0
    else if Enough(q, k, seqs, p, cap, size) then k
    else
      var m := Most(q, k - 1, seqs, p, cap, size);
      TooFewFor(q, m, k, seqs, p, cap, size);
      m
  }

  // There is not enough for any number above m up to k.
  ghost predicate TooFew(q: seq<Id>, m: nat, k: nat, seqs: SeqMap, p: Pool, cap: Cap, size: nat)
    requires size > 0 && k <= |q|
  {
    forall j: nat :: m < j <= k ==> !Enough(q, j, seqs, p, cap, size)
  }

  lemma TooFewFor(q: seq<Id>, m: nat, k: nat, seqs: SeqMap, p: Pool, cap: Cap, size: nat)
    requires size > 0 && 0 < k <= |q|
    requires TooFew(q, m, k - 1, seqs, p, cap, size) && !Enough(q, k, seqs, p, cap, size)
    ensures TooFew(q, m, k, seqs, p, cap, size)
  {}

  lemma TooFewBehind(q: seq<Id>, m: nat, k: nat, seqs: SeqMap, p: Pool, cap: Cap, size: nat)
    requires size > 0 && 0 < m <= k <= |q|
    requires TooFew(q, m, k, seqs, p, cap, size) && !Enough(q, m, seqs, p, cap, size)
    ensures TooFew(q, m - 1, k, seqs, p, cap, size)
  {}

  // Half-processed prompts are set aside, the others go on running.
  predicate IsAside(v: SeqView) { v.status.PAUSED? && !v.stageDone }

  function Aside(q: seq<Id>, i: nat, seqs: SeqMap): seq<Id>
    requires i <= |q|
  {
    if i == 0 then [] else Aside(q, i - 1, seqs) + (if IsAside(Look(seqs, q[i - 1])) then [q[i - 1]] else [])
  }

  function Staying(q: seq<Id>, i: nat, seqs: SeqMap): seq<Id>
    requires i <= |q|
  {
    if i == 0 then [] else Staying(q, i - 1, seqs) + (if IsAside(Look(seqs, q[i - 1])) then [] else [q[i - 1]])
  }

  function Asking(q: seq<Id>, i: nat, seqs: SeqMap, cap: Cap): seq<Id>
    requires i <= |q|
  {
    if i == 0 then [] else Asking(q, i - 1, seqs, cap) + (if Asks(q, i - 1, seqs, cap) then [q[i - 1]] else [])
  }

  lemma PrefixSnoc(q: seq<Id>, i: nat)
    requires 0 < i <= |q|
    ensures q[..i] == q[..i - 1] + [q[i - 1]] && q[i - 1] in q
  {}

  lemma {:induction false} NobodyAside(q: seq<Id>, i: nat, seqs: SeqMap)
    requires i <= |q| && AllDecoding(q, seqs)
    ensures Aside(q, i, seqs) == [] && Staying(q, i, seqs) == q[..i]
  {
    if i > 0 {
      NobodyAside(q, i - 1, seqs);
      PrefixSnoc(q, i);
    }
  }

  lemma {:induction false} AllAsk(q: seq<Id>, i: nat, seqs: SeqMap, cap: Cap)
    requires i <= |q| && AllDecoding(q, seqs)
    ensures Asking(q, i, seqs, cap) == if cap.NoCap? || i <= cap.n then q[..i] else q[..cap.n]
  {
    if i > 0 {
      AllAsk(q, i - 1, seqs, cap);
      PrefixSnoc(q, i);
    }
  }

  /** The loop has dealt with the first i and preempted everyone from the j-th on. */
  ghost predicate Stands(r: Reservation, q: seq<Id>, i: nat, j: nat, seqs: SeqMap, p: Pool, cap: Cap, size: nat)
    requires size > 0
  {
    && i <= j <= |q|
    && r.queue == q[i..j] && r.victims == Reverse(q[j..])
    && Dealt(r, q, i, seqs, cap)
    && r.pool.free == p.free + Total(q[j..], p) - Claims(q, i, seqs, p, cap, size)
    && Tables(r, q, i, j, p)
  }

  predicate Dealt(r: Reservation, q: seq<Id>, i: nat, seqs: SeqMap, cap: Cap)
    requires i <= |q|
  {
    r.kept == Staying(q, i, seqs) && r.partials == Aside(q, i, seqs) && r.slots == Asking(q, i, seqs, cap)
  }

  // Nobody in the queue has lost or got a block.
  ghost predicate Tables(r: Reservation, q: seq<Id>, i: nat, j: nat, p: Pool)
    requires i <= j <= |q|
  {
    forall t: nat :: i <= t < j ==> q[t] in r.pool.held && r.pool.Held(q[t]) == p.Held(q[t])
  }

  // A list every scheduler may hand to the loop; with a cap nothing in it is half processed.
  ghost predicate Proper(q: seq<Id>, seqs: SeqMap, p: Pool, cap: Cap) {
    && Distinct(q)
    && (forall id :: id in q ==> id in p.held)
    && (cap.NoCap? || AllDecoding(q, seqs))
  }

  // Those that got a slot found a block free.
  ghost predicate Served(q: seq<Id>, i: nat, j: nat, seqs: SeqMap, p: Pool, cap: Cap, size: nat)
    requires size > 0 && i <= j <= |q|
  {
    forall t: nat :: t < i && Asks(q, t, seqs, cap) ==> p.free + Total(q[j..], p) > Claims(q, t, seqs, p, cap, size)
  }

  lemma MostIs(q: seq<Id>, m: nat, seqs: SeqMap, p: Pool, cap: Cap, size: nat)
    requires size > 0 && m <= |q|
    requires m == 0 || Enough(q, m, seqs, p, cap, size)
    requires TooFew(q, m, |q|, seqs, p, cap, size)
    ensures Most(q, |q|, seqs, p, cap, size) == m
  {}

  lemma DistinctPlaces(q: seq<Id>, i: nat)
    requires Distinct(q) && i < |q|
    ensures forall t: nat :: t < |q| && t != i ==> q[t] != q[i]
  {
    forall t: nat | t < |q| && t != i ensures q[t] != q[i] {
      if q[t] == q[i] { DistinctAt(q, t, i); }
    }
  }

  // With a cap, everyone dealt with is kept and has a slot.
  lemma CapCounts(r: Reservation, q: seq<Id>, i: nat, seqs: SeqMap, p: Pool, cap: Cap)
    requires i <= |q| && Proper(q, seqs, p, cap) && Dealt(r, q, i, seqs, cap)
    requires !cap.NoCap? && i <= cap.n
    ensures |r.kept| == i && |r.slots| == i
  {
    AllAsk(q, i, seqs, cap);
    NobodyAside(q, i, seqs);
  }

  // The head is set aside, goes on running, or gets its slot.
  lemma HeadIsDealtWith(r: Reservation, q: seq<Id>, i: nat, seqs: SeqMap, p: Pool, cap: Cap, size: nat)
    requires size > 0
    requires i < |q| && Proper(q, seqs, p, cap) && Dealt(r, q, i, seqs, cap)
    requires r.queue != [] && r.queue[0] == q[i]
    requires Asks(q, i, seqs, cap) ==> r.pool.free > 0
    requires cap.NoCap? || i < cap.n
    ensures var n := Next(r, seqs, cap, size);
            && n.queue == r.queue[1..] && n.victims == r.victims
            && Dealt(n, q, i + 1, seqs, cap)
            && n.pool == if Asks(q, i, seqs, cap) then r.pool.AppendSlot(q[i], Look(seqs, q[i]).Need(size)) else r.pool
  {
    if !cap.NoCap? { CapCounts(r, q, i, seqs, p, cap); }
    NoTail(r.kept);
    NoTail(r.partials);
    NoTail(r.slots);
  }

  lemma HeadLeaves(r: Reservation, q: seq<Id>, i: nat, j: nat, seqs: SeqMap, p: Pool, cap: Cap, size: nat)
    requires size > 0
    requires Proper(q, seqs, p, cap)
    requires Stands(r, q, i, j, seqs, p, cap, size) && i < j
    requires Asks(q, i, seqs, cap) ==> r.pool.free > 0
    requires cap.NoCap? || i < cap.n
    ensures Stands(Next(r, seqs, cap, size), q, i + 1, j, seqs, p, cap, size)
  {
    assert r.queue[0] == q[i] && r.queue[1..] == q[i + 1..j];
    HeadIsDealtWith(r, q, i, seqs, p, cap, size);
    SlotLeavesOthers(r, q, i, j, p, Look(seqs, q[i]).Need(size));
  }

  lemma SlotLeavesOthers(r: Reservation, q: seq<Id>, i: nat, j: nat, p: Pool, need: nat)
    requires i < j <= |q| && Distinct(q)
    requires Tables(r, q, i, j, p)
    ensures forall t: nat :: i < t < j ==>
              q[t] in r.pool.AppendSlot(q[i], need).held && r.pool.AppendSlot(q[i], need).Held(q[t]) == p.Held(q[t])
  {
    DistinctPlaces(q, i);
  }

  lemma TailIsEvicted(r: Reservation, q: seq<Id>, i: nat, j: nat, seqs: SeqMap, p: Pool, cap: Cap, size: nat)
    requires size > 0
    requires Proper(q, seqs, p, cap)
    requires Stands(r, q, i, j, seqs, p, cap, size) && i < j
    requires Asks(q, i, seqs, cap) && r.pool.free == 0
    ensures Next(r, seqs, cap, size) == Evict(r)
  {
    assert r.queue[0] == q[i];
    if !cap.NoCap? { CapCounts(r, q, i, seqs, p, cap); }
  }

  lemma HeadMisses(r: Reservation, q: seq<Id>, i: nat, j: nat, seqs: SeqMap, p: Pool, cap: Cap, size: nat)
    requires size > 0
    requires Stands(r, q, i, j, seqs, p, cap, size) && i < j
    requires Asks(q, i, seqs, cap) && r.pool.free == 0
    ensures !Enough(q, j, seqs, p, cap, size)
  {
    assert p.free + Total(q[j..], p) == Claims(q, i, seqs, p, cap, size);
  }

  // The tail of the queue is preempted.
  lemma TailLeaves(r: Reservation, q: seq<Id>, i: nat, j: nat, seqs: SeqMap, p: Pool, cap: Cap, size: nat)
    requires size > 0
    requires Distinct(q)
    requires Stands(r, q, i, j, seqs, p, cap, size) && i < j
    ensures Stands(Evict(r), q, i, j - 1, seqs, p, cap, size)
  {
    assert r.queue[|r.queue| - 1] == q[j - 1];
    assert r.queue[..|r.queue| - 1] == q[i..j - 1];
    assert q[j - 1..][0] == q[j - 1] && q[j - 1..][1..] == q[j..];
    ReleaseLeavesOthers(r, q, i, j, p);
  }

  lemma ReleaseLeavesOthers(r: Reservation, q: seq<Id>, i: nat, j: nat, p: Pool)
    requires i < j <= |q| && Distinct(q)
    requires Tables(r, q, i, j, p)
    ensures r.pool.Release(q[j - 1]).free == r.pool.free + p.Held(q[j - 1])
    ensures forall t: nat :: i <= t < j - 1 ==>
              q[t] in r.pool.Release(q[j - 1]).held && r.pool.Release(q[j - 1]).Held(q[t]) == p.Held(q[t])
  {
    DistinctPlaces(q, j - 1);
  }

  // The scheduler stops handing out slots and keeps the rest of the queue.
  lemma CapStops(r: Reservation, q: seq<Id>, i: nat, j: nat, seqs: SeqMap, p: Pool, cap: Cap, size: nat)
    requires size > 0
    requires Proper(q, seqs, p, cap)
    requires Stands(r, q, i, j, seqs, p, cap, size) && i < j
    requires !cap.NoCap? && i == cap.n
    ensures Stands(Next(r, seqs, cap, size), q, j, j, seqs, p, cap, size)
  {
    assert r.queue[0] == q[i] && q[i] in q;
    CapCounts(r, q, i, seqs, p, cap);
    RestIsDealtWith(r, q, i, j, seqs, cap);
    ClaimsStop(q, i, j, seqs, p, cap, size);
  }

  lemma RestIsDealtWith(r: Reservation, q: seq<Id>, i: nat, j: nat, seqs: SeqMap, cap: Cap)
    requires i <= j <= |q| && AllDecoding(q, seqs) && Dealt(r, q, i, seqs, cap)
    requires !cap.NoCap? && i == cap.n
    ensures Dealt(r.(kept := r.kept + q[i..j]), q, j, seqs, cap)
  {
    AllAsk(q, i, seqs, cap);
    AllAsk(q, j, seqs, cap);
    NobodyAside(q, i, seqs);
    NobodyAside(q, j, seqs);
    PrefixParts(q, i, j);
  }

  lemma PrefixParts(q: seq<Id>, i: nat, j: nat)
    requires i <= j <= |q|
    ensures q[..i] + q[i..j] == q[..j]
  {}

  lemma {:induction false} ClaimsStop(q: seq<Id>, i: nat, j: nat, seqs: SeqMap, p: Pool, cap: Cap, size: nat)
    requires size > 0 && i <= j <= |q|
    requires !cap.NoCap? && i >= cap.n
    ensures Claims(q, j, seqs, p, cap, size) == Claims(q, i, seqs, p, cap, size)
    decreases j
  {
    if j > i { ClaimsStop(q, i, j - 1, seqs, p, cap, size); }
  }

  // The end of the loop, with the first m kept.
  ghost predicate EndsWith(f: Reservation, q: seq<Id>, m: nat, seqs: SeqMap, p: Pool, cap: Cap, size: nat)
    requires size > 0 && m <= |q|
  {
    && f.victims == Reverse(q[m..])
    && Dealt(f, q, m, seqs, cap)
    && f.pool.free == p.free + Total(q[m..], p) - Claims(q, m, seqs, p, cap, size)
  }

  ghost predicate Underway(r: Reservation, q: seq<Id>, i: nat, j: nat, seqs: SeqMap, p: Pool, cap: Cap, size: nat)
    requires size > 0
  {
    && Proper(q, seqs, p, cap)
    && Stands(r, q, i, j, seqs, p, cap, size)
    && Served(q, i, j, seqs, p, cap, size) && TooFew(q, j, |q|, seqs, p, cap, size)
    && (cap.NoCap? || i <= cap.n || i == j)
  }

  lemma TailStep(r: Reservation, q: seq<Id>, i: nat, j: nat, seqs: SeqMap, p: Pool, cap: Cap, size: nat)
    requires size > 0
    requires Underway(r, q, i, j, seqs, p, cap, size) && i < j
    requires Asks(q, i, seqs, cap) && r.pool.free == 0
    ensures Next(r, seqs, cap, size) == Evict(r)
    ensures Underway(Evict(r), q, i, j - 1, seqs, p, cap, size)
  {
    TailIsEvicted(r, q, i, j, seqs, p, cap, size);
    HeadMisses(r, q, i, j, seqs, p, cap, size);
    TailLeaves(r, q, i, j, seqs, p, cap, size);
    ServedStill(q, i, j, seqs, p, cap, size);
    TooFewBehind(q, j, |q|, seqs, p, cap, size);
  }

  lemma HeadStep(r: Reservation, q: seq<Id>, i: nat, j: nat, seqs: SeqMap, p: Pool, cap: Cap, size: nat)
    requires size > 0
    requires Underway(r, q, i, j, seqs, p, cap, size) && i < j
    requires Asks(q, i, seqs, cap) ==> r.pool.free > 0
    requires cap.NoCap? || i < cap.n
    ensures Underway(Next(r, seqs, cap, size), q, i + 1, j, seqs, p, cap, size)
  {
    HeadLeaves(r, q, i, j, seqs, p, cap, size);
    ServedFurther(r, q, i, j, seqs, p, cap, size);
  }

  // The cap is reached.
  lemma CapStep(r: Reservation, q: seq<Id>, i: nat, j: nat, seqs: SeqMap, p: Pool, cap: Cap, size: nat)
    requires size > 0
    requires Underway(r, q, i, j, seqs, p, cap, size) && i < j
    requires !cap.NoCap? && i == cap.n
    ensures Underway(Next(r, seqs, cap, size), q, j, j, seqs, p, cap, size)
  {
    CapStops(r, q, i, j, seqs, p, cap, size);
  }

  ghost predicate Goes(r: Reservation, q: seq<Id>, seqs: SeqMap, p: Pool, cap: Cap, size: nat)
    requires size > 0
  {
    exists i: nat, j: nat :: Underway(r, q, i, j, seqs, p, cap, size)
  }

  lemma NextGoes(r: Reservation, n: Reservation, q: seq<Id>, seqs: SeqMap, p: Pool, cap: Cap, size: nat)
    requires size > 0
    requires Goes(r, q, seqs, p, cap, size) && r.queue != [] && n == Next(r, seqs, cap, size)
    ensures Goes(n, q, seqs, p, cap, size) && |n.queue| < |r.queue|
    ensures Run(r, seqs, cap, size) == Run(n, seqs, cap, size)
  {
    var i: nat, j: nat :| Underway(r, q, i, j, seqs, p, cap, size);
    if !cap.NoCap? && i == cap.n {
      CapStep(r, q, i, j, seqs, p, cap, size);
    } else if Asks(q, i, seqs, cap) && r.pool.free == 0 {
      TailStep(r, q, i, j, seqs, p, cap, size);
    } else {
      HeadStep(r, q, i, j, seqs, p, cap, size);
    }
  }

  // The loop may end like this, with the first m kept: the longest prefix there is enough for.
  ghost predicate Ends(f: Reservation, q: seq<Id>, seqs: SeqMap, p: Pool, cap: Cap, size: nat)
    requires size > 0
  {
    exists m: nat :: m <= |q|
      && EndsWith(f, q, m, seqs, p, cap, size)
      && Enough(q, m, seqs, p, cap, size) && TooFew(q, m, |q|, seqs, p, cap, size)
  }

  lemma {:induction false} LoopKeepsMost(r: Reservation, f: Reservation, q: seq<Id>, seqs: SeqMap, p: Pool, cap: Cap, size: nat)
    requires size > 0
    requires Goes(r, q, seqs, p, cap, size) && f == Run(r, seqs, cap, size)
    ensures Ends(f, q, seqs, p, cap, size)
    decreases |r.queue|
  {
    if r.queue == [] {
      LoopEnds(r, q, seqs, p, cap, size);
    } else {
      var n := Next(r, seqs, cap, size);
      NextGoes(r, n, q, seqs, p, cap, size);
      LoopKeepsMost(n, f, q, seqs, p, cap, size);
    }
  }

  lemma LoopEnds(r: Reservation, q: seq<Id>, seqs: SeqMap, p: Pool, cap: Cap, size: nat)
    requires size > 0
    requires Goes(r, q, seqs, p, cap, size) && r.queue == []
    ensures Ends(r, q, seqs, p, cap, size)
  {
    var i: nat, j: nat :| Underway(r, q, i, j, seqs, p, cap, size);
    assert Enough(q, j, seqs, p, cap, size);
    assert EndsWith(r, q, j, seqs, p, cap, size);
  }

  lemma ServedStill(q: seq<Id>, i: nat, j: nat, seqs: SeqMap, p: Pool, cap: Cap, size: nat)
    requires size > 0 && i < j <= |q|
    requires Served(q, i, j, seqs, p, cap, size)
    ensures Served(q, i, j - 1, seqs, p, cap, size)
  {
    assert q[j - 1..][1..] == q[j..];
    assert Total(q[j - 1..], p) >= Total(q[j..], p);
  }

  lemma ServedFurther(r: Reservation, q: seq<Id>, i: nat, j: nat, seqs: SeqMap, p: Pool, cap: Cap, size: nat)
    requires size > 0
    requires Stands(r, q, i, j, seqs, p, cap, size) && i < j
    requires Served(q, i, j, seqs, p, cap, size)
    requires Asks(q, i, seqs, cap) ==> r.pool.free > 0
    ensures Served(q, i + 1, j, seqs, p, cap, size)
  {}

  /** The loop in closed form: it keeps the longest prefix of the list in which everyone who asks
      finds a block free once the rest is preempted, and preempts that rest, the last first. */
  lemma KeepsMost(q: seq<Id>, seqs: SeqMap, p: Pool, cap: Cap, size: nat)
    requires size > 0
    requires Proper(q, seqs, p, cap)
    ensures var m := Most(q, |q|, seqs, p, cap, size);
            && EndsWith(Run(Start(q, p), seqs, cap, size), q, m, seqs, p, cap, size)
            && Enough(q, m, seqs, p, cap, size)
            && forall k: nat :: m < k <= |q| ==> !Enough(q, k, seqs, p, cap, size)
  {
    var f := Run(Start(q, p), seqs, cap, size);
    StartGoes(q, seqs, p, cap, size);
    LoopKeepsMost(Start(q, p), f, q, seqs, p, cap, size);
    var m: nat :| m <= |q| && EndsWith(f, q, m, seqs, p, cap, size)
                  && Enough(q, m, seqs, p, cap, size) && TooFew(q, m, |q|, seqs, p, cap, size);
    MostIs(q, m, seqs, p, cap, size);
  }

  lemma StartGoes(q: seq<Id>, seqs: SeqMap, p: Pool, cap: Cap, size: nat)
    requires size > 0
    requires Proper(q, seqs, p, cap)
    ensures Goes(Start(q, p), q, seqs, p, cap, size)
  {
    var n := |q|;
    assert q[0..n] == q && q[n..] == [];
    forall t: nat | t < n ensures q[t] in p.held { assert q[t] in q; }
    assert Underway(Start(q, p), q, 0, n, seqs, p, cap, size);
  }

  /** Nobody is preempted if and only if everyone who asks finds a block free: the free blocks are
      more than the short tables among those who ask before. */
  lemma PreemptsNobodyExactly(q: seq<Id>, seqs: SeqMap, p: Pool, cap: Cap, size: nat)
    requires size > 0
    requires Proper(q, seqs, p, cap)
    ensures Run(Start(q, p), seqs, cap, size).victims == []
            <==> forall i: nat :: i < |q| && Asks(q, i, seqs, cap) ==> p.free > Claims(q, i, seqs, p, cap, size)
  {
    var m := Most(q, |q|, seqs, p, cap, size);
    KeepsMost(q, seqs, p, cap, size);
    assert |Reverse(q[m..])| == |q| - m;
    EnoughForAll(q, seqs, p, cap, size);
  }

  lemma EnoughForAll(q: seq<Id>, seqs: SeqMap, p: Pool, cap: Cap, size: nat)
    requires size > 0
    ensures Enough(q, |q|, seqs, p, cap, size)
            <==> forall i: nat :: i < |q| && Asks(q, i, seqs, cap) ==> p.free > Claims(q, i, seqs, p, cap, size)
  {
    assert q[|q|..] == [];
  }

  /** Where everyone is decoding: the kept and the victims are the two parts of the list, and the
      slots go to the kept, as far as the cap allows. */
  lemma DecodingKeepsMost(q: seq<Id>, seqs: SeqMap, p: Pool, cap: Cap, size: nat)
    requires size > 0
    requires Proper(q, seqs, p, cap) && AllDecoding(q, seqs)
    ensures var m := Most(q, |q|, seqs, p, cap, size);
            var f := Run(Start(q, p), seqs, cap, size);
            && f.kept == q[..m] && f.victims == Reverse(q[m..]) && f.partials == []
            && f.slots == q[..if cap.NoCap? || m <= cap.n then m else cap.n]
  {
    var m := Most(q, |q|, seqs, p, cap, size);
    KeepsMost(q, seqs, p, cap, size);
    NobodyAside(q, m, seqs);
    AllAsk(q, m, seqs, cap);
  }

  // And then the claims are all that is taken.
  lemma PreemptingNobodyLeaves(q: seq<Id>, seqs: SeqMap, p: Pool, cap: Cap, size: nat)
    requires size > 0
    requires Proper(q, seqs, p, cap)
    requires Run(Start(q, p), seqs, cap, size).victims == []
    ensures Run(Start(q, p), seqs, cap, size).pool.free == p.free - Claims(q, |q|, seqs, p, cap, size)
  {
    var m := Most(q, |q|, seqs, p, cap, size);
    KeepsMost(q, seqs, p, cap, size);
    assert |Reverse(q[m..])| == |q| - m;
    assert q[m..] == [];
  }

  // A running list, sorted.
  lemma SortedIsProper(running: seq<Id>, seqs: SeqMap, p: Pool, cap: Cap)
    requires Distinct(running)
    requires forall id :: id in running ==> id in p.held
    requires cap.NoCap? || AllDecoding(running, seqs)
    ensures Proper(ByArrival(running, seqs), seqs, p, cap)
    ensures AllDecoding(running, seqs) ==> AllDecoding(ByArrival(running, seqs), seqs)
  {
    var q := ByArrival(running, seqs);
    PermutationMembers(q, running);
    forall x ensures multiset(q)[x] <= 1 { assert multiset(running)[x] <= 1; }
  }
}
