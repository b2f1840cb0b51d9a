/** The scheduler of a decode instance. New sequences arrive with their cache on another
    machine, preempted ones have theirs in host memory; two kinds of threads bring caches in
    while the scheduler runs. A sequence waits in a queue for each leg of that journey. */
module DecodeInstance {
  import opened Lists
  import opened Sequences
  import opened BlockPool
  import opened Reserve
  import opened EngineCore

  datatype State = State(
    meta: seq<Id>,        // kvmeta_queue: announced, no blocks yet
    transfer: seq<Id>,    // pending_kv_transfer
    flying: seq<Id>,      // taken by a transfer thread
    insert: seq<Id>,      // pending_kv_insert
    inserting: seq<Id>,   // taken by an insertion thread
    pending: seq<Id>,     // pending_decode
    running: seq<Id>,
    preempted: seq<Id>,   // decode_prempted_seqs
    done: seq<Id>,
    seqs: SeqMap,
    pool: Pool,
    flag: bool)           // preemption_this_step
  {
    // The places where a sequence owns a block table, running aside.
    function Elsewhere(): seq<Id> { transfer + flying + insert + inserting + pending }

    function Owners(): seq<Id> { Elsewhere() + running }

    // Everything that has not finished.
    function Live(): multiset<Id> {
      multiset(meta) + multiset(Owners()) + multiset(preempted)
    }

    function Everywhere(): multiset<Id> { Live() + multiset(done) }
  }

  /** The scheduling step. */

  function Drained(s: State): State {
    s.(running := s.running + s.pending, pending := [])
  }

  function Reserved(cfg: Config, s: State): Reservation
    requires cfg.Valid()
  {
    Run(Start(ByArrival(s.running, s.seqs), s.pool), s.seqs, BySlots(cfg.maxSeqs), cfg.size)
  }

  function AfterDecodes(s: State, r: Reservation): State {
    s.(running := r.kept, preempted := s.preempted + r.victims, pool := r.pool,
       flag := s.flag || r.victims != [])
  }

  predicate CanAllocate(cfg: Config, s: State, id: Id)
    requires cfg.Valid()
  {
    s.pool.free - Look(s.seqs, id).Need(cfg.size) >= cfg.watermark
  }

  function Allocated(cfg: Config, s: State, id: Id): Pool
    requires cfg.Valid()
    requires CanAllocate(cfg, s, id)
  {
    s.pool.Allocate(id, Look(s.seqs, id).Need(cfg.size))
  }

  // At most one preempted sequence is brought back per step, oldest preemption first.
  function BringBack(cfg: Config, s: State): State
    requires cfg.Valid()
  {
    if s.preempted != [] && !s.flag && CanAllocate(cfg, s, s.preempted[0]) then
      s.(preempted := s.preempted[1..], insert := s.insert + [s.preempted[0]],
         pool := Allocated(cfg, s, s.preempted[0]))
    else s
  }

  // New sequences are given blocks in the order they were announced.
  function TakeIn(cfg: Config, s: State): State
    requires cfg.Valid()
    decreases |s.meta|
  {
    if !s.flag && s.meta != [] && CanAllocate(cfg, s, s.meta[0]) then
      TakeIn(cfg, s.(meta := s.meta[1..], transfer := s.transfer + [s.meta[0]],
                     pool := Allocated(cfg, s, s.meta[0])))
    else s
  }

  function Scheduled(cfg: Config, s: State): State
    requires cfg.Valid()
  {
    var d := Drained(s);
    TakeIn(cfg, BringBack(cfg, AfterDecodes(d, Reserved(cfg, d))))
  }

  // The engine step around it: preempted sequences keep their progress, scheduled ones decode,
  // finished ones leave; an empty batch changes nothing and leaves the flag standing.
  function ExecutedView(id: Id, v: SeqView, victims: seq<Id>, slots: seq<Id>, samples: map<Id, Sample>): SeqView {
    if id in victims then v.ResetButNotRecompute()
    else if id in slots then v.Executed(0, SampleOf(samples, id))
    else v
  }

  function Execute(s: State, victims: seq<Id>, slots: seq<Id>, samples: map<Id, Sample>): State {
    var seqs := map id | id in s.seqs :: ExecutedView(id, s.seqs[id], victims, slots, samples);
    var gone := FinishedOf(s.running, seqs);
    s.(seqs := seqs, running := Without(s.running, gone), done := s.done + Within(s.running, gone),
       pool := s.pool.ReleaseAll(Within(s.running, gone)), flag := false)
  }

  function Step(cfg: Config, s: State, samples: map<Id, Sample>): State
    requires cfg.Valid()
  {
    var r := Reserved(cfg, Drained(s));
    var t := Scheduled(cfg, s);
    if r.slots == [] then t else Execute(t, r.victims, r.slots, samples)
  }

  /** All the ways the state moves. */

  datatype Event =
    | Announce(id: Id, view: SeqView)        // add_kvc_metadata
    | StartTransfer                          // a transfer thread takes the next request
    | FinishTransfer(i: nat)                 // an inserted cache becomes decodable, in any order
    | StartInsert                            // an insertion thread takes the next request
    | FinishInsert(i: nat)
    | Tick(samples: map<Id, Sample>)         // one engine step

  function Apply(cfg: Config, s: State, event: Event): State
    requires cfg.Valid()
  {
    match event
    case Announce(id, view) => s.(meta := s.meta + [id], seqs := s.seqs[id := view])
    case StartTransfer => TransferStarted(s)
    case FinishTransfer(i) => TransferFinished(s, i)
    case StartInsert => InsertStarted(s)
    case FinishInsert(i) => InsertFinished(s, i)
    case Tick(samples) => Step(cfg, s, samples)
  }

  function TransferStarted(s: State): State {
    if s.transfer == [] then s
    else s.(transfer := s.transfer[1..], flying := s.flying + [s.transfer[0]])
  }

  function TransferFinished(s: State, i: nat): State {
    if i >= |s.flying| then s
    else s.(flying := s.flying[..i] + s.flying[i + 1..], pending := s.pending + [s.flying[i]])
  }

  function InsertStarted(s: State): State {
    if s.insert == [] then s
    else s.(insert := s.insert[1..], inserting := s.inserting + [s.insert[0]])
  }

  function InsertFinished(s: State, i: nat): State {
    if i >= |s.inserting| then s
    else s.(inserting := s.inserting[..i] + s.inserting[i + 1..], pending := s.pending + [s.inserting[i]])
  }

  /** The invariant: every sequence is in exactly one place, and owns a block table exactly in
      the places on the way to, and in, the running list. */

  // A sequence past its prefill, between two decodes.
  ghost predicate Decodable(v: SeqView) {
    && v.status.PAUSED? && v.promptDone && v.stageDone
    && |v.prompt| >= 1 && |v.output| < v.maxTokens
  }

  // The table covers the text, or all of it but the last token.
  ghost predicate Covered(cfg: Config, s: State, id: Id)
    requires cfg.Valid()
  {
    s.pool.Held(id) <= Look(s.seqs, id).Need(cfg.size) <= s.pool.Held(id) + 1
  }

  ghost predicate Inv(cfg: Config, s: State) {
    && cfg.Valid()
    && (forall id :: s.Everywhere()[id] <= 1)
    && Owns(s.pool, s.Owners(), cfg.numBlocks)
    && (forall id :: id in s.Live() ==> id in s.seqs && Decodable(s.seqs[id]))
    && (forall id :: id in multiset(s.Owners()) ==> Covered(cfg, s, id))
  }

  /** The decode loop with other owners around it. */

  // Sequences in front of the kept list do not influence the loop.
  lemma {:induction false} KeptPrefix(x: seq<Id>, r: Reservation, seqs: SeqMap, cap: Cap, size: nat)
    requires size > 0
    requires !cap.ByKept?
    ensures var e := Run(r, seqs, cap, size);
            Run(r.(kept := x + r.kept), seqs, cap, size) == e.(kept := x + e.kept)
    decreases |r.queue|
  {
    if r.queue != [] {
      var n := Next(r, seqs, cap, size);
      var m := Next(r.(kept := x + r.kept), seqs, cap, size);
      assert x + (r.kept + [r.queue[0]]) == (x + r.kept) + [r.queue[0]];
      assert x + (r.kept + r.queue) == (x + r.kept) + r.queue;
      assert m == n.(kept := x + n.kept);
      KeptPrefix(x, n, seqs, cap, size);
    }
  }

  ghost predicate ReservedOk(cfg: Config, s: State, r: Reservation)
    requires cfg.Valid()
  {
    && r.partials == []
    && r.kept + Reverse(r.victims) == ByArrival(s.running, s.seqs)
    && Owns(r.pool, s.Elsewhere() + r.kept, cfg.numBlocks)
    && multiset(r.kept) + multiset(r.victims) == multiset(s.running)
    && (forall id :: id in r.slots ==> id in r.kept && r.pool.Held(id) == Look(s.seqs, id).Need(cfg.size))
    && (forall id :: id in s.Elsewhere() + r.kept && id !in r.slots ==> r.pool.Held(id) == s.pool.Held(id))
    && |r.slots| <= cfg.maxSeqs
  }

  lemma {:induction false} SlotsWithinCap(r: Reservation, seqs: SeqMap, cap: Cap, size: nat)
    requires size > 0
    requires cap.BySlots? && |r.slots| <= cap.n
    ensures |Run(r, seqs, cap, size).slots| <= cap.n
    decreases |r.queue|
  {
    if r.queue != [] { SlotsWithinCap(Next(r, seqs, cap, size), seqs, cap, size); }
  }

  lemma RunningIsLive(s: State, id: Id)
    requires id in s.running
    ensures id in s.Owners() && id in multiset(s.Owners()) && id in s.Live()
  {
    assert id in multiset(s.Owners());
  }

  // The loop as it is, and with the other owners listed in front.
  function Around(cfg: Config, s: State): Reservation {
    Start(ByArrival(s.running, s.seqs), s.pool).(kept := s.Elsewhere())
  }

  lemma AroundOwns(cfg: Config, s: State)
    requires Inv(cfg, s)
    ensures var b := Around(cfg, s);
            && Run(b, s.seqs, BySlots(cfg.maxSeqs), cfg.size) == Reserved(cfg, s).(kept := s.Elsewhere() + Reserved(cfg, s).kept)
            && Owns(b.pool, Holders(b), cfg.numBlocks)
  {
    var a := Start(ByArrival(s.running, s.seqs), s.pool);
    var b := Around(cfg, s);
    NoTail(s.Elsewhere());
    KeptPrefix(s.Elsewhere(), a, s.seqs, BySlots(cfg.maxSeqs), cfg.size);
    assert Holders(b) == s.Elsewhere() + a.queue;
    OwnsPermutation(s.pool, s.Owners(), Holders(b), cfg.numBlocks);
  }

  lemma ReservedSplits(cfg: Config, s: State)
    requires Inv(cfg, s)
    ensures var r := Reserved(cfg, s);
            && r.partials == []
            && r.kept + Reverse(r.victims) == ByArrival(s.running, s.seqs)
            && multiset(r.kept) + multiset(r.victims) == multiset(s.running)
            && |r.slots| <= cfg.maxSeqs
  {
    var sorted := ByArrival(s.running, s.seqs);
    var a := Start(sorted, s.pool);
    PermutationMembers(sorted, s.running);
    forall id | id in sorted ensures Decodable(Look(s.seqs, id)) { assert id in s.Live() by { RunningIsLive(s, id); } }
    Split(a, s.seqs, BySlots(cfg.maxSeqs), cfg.size);
    NoTail(sorted);
    SplitMultiset(Reserved(cfg, s).kept, Reserved(cfg, s).victims, sorted);
    SlotsWithinCap(a, s.seqs, BySlots(cfg.maxSeqs), cfg.size);
  }

  lemma ReservedHolds(cfg: Config, s: State)
    requires Inv(cfg, s)
    ensures var r := Reserved(cfg, s);
            && (forall id :: id in r.slots ==> id in r.kept && r.pool.Held(id) == Look(s.seqs, id).Need(cfg.size))
            && (forall id :: id in s.Elsewhere() + r.kept && id !in r.slots ==> r.pool.Held(id) == s.pool.Held(id))
  {
    var cap := BySlots(cfg.maxSeqs);
    var b := Around(cfg, s);
    var r := Reserved(cfg, s);
    var f := Run(b, s.seqs, cap, cfg.size);
    AroundOwns(cfg, s);
    PermutationMembers(b.queue, s.running);
    OwnsMeans(s.pool, s.Owners(), cfg.numBlocks);
    forall id | id in b.queue ensures OneShort(id, s.seqs, s.pool, cfg.size) {
      RunningIsLive(s, id);
      assert Covered(cfg, s, id);
    }
    RunStocked(b, s.seqs, cap, cfg.size, s.pool, cfg.numBlocks);
    SlotsAmongKept(Start(b.queue, s.pool), s.seqs, cap, cfg.size);
    ReservedSplits(cfg, s);
    NoTail(f.kept);
    assert f.kept + f.partials + f.queue == s.Elsewhere() + r.kept;
  }

  lemma ReservedIsOk(cfg: Config, s: State)
    requires Inv(cfg, s)
    ensures ReservedOk(cfg, s, Reserved(cfg, s))
  {
    var b := Around(cfg, s);
    var f := Run(b, s.seqs, BySlots(cfg.maxSeqs), cfg.size);
    AroundOwns(cfg, s);
    RunOwns(b, s.seqs, BySlots(cfg.maxSeqs), cfg.size, cfg.numBlocks);
    ReservedSplits(cfg, s);
    ReservedHolds(cfg, s);
    NoTail(f.kept);
  }

  lemma SplitMultiset(kept: seq<Id>, victims: seq<Id>, sorted: seq<Id>)
    requires kept + Reverse(victims) == sorted
    ensures multiset(kept) + multiset(victims) == multiset(sorted)
  {
    assert multiset(sorted) == multiset(kept) + multiset(Reverse(victims));
  }

  /** Every move keeps the invariant. */

  // A move that keeps every multiset, table and view.
  lemma MoveKeeps(cfg: Config, s: State, t: State)
    requires Inv(cfg, s)
    requires t.seqs == s.seqs && t.pool == s.pool
    requires multiset(t.Owners()) == multiset(s.Owners())
    requires t.Live() == s.Live() && t.done == s.done
    ensures Inv(cfg, t)
  {
    OwnsPermutation(s.pool, s.Owners(), t.Owners(), cfg.numBlocks);
    forall id | id in multiset(t.Owners()) ensures Covered(cfg, t, id) { assert Covered(cfg, s, id); }
  }

  lemma DrainKeeps(cfg: Config, s: State)
    requires Inv(cfg, s)
    ensures Inv(cfg, Drained(s))
    ensures Drained(s).Everywhere() == s.Everywhere()
  {
    var d := Drained(s);
    assert multiset(d.Owners()) == multiset(s.Owners());
    MoveKeeps(cfg, s, d);
  }

  lemma DecodesMove(s: State, r: Reservation)
    requires multiset(r.kept) + multiset(r.victims) == multiset(s.running)
    ensures var t := AfterDecodes(s, r);
            && t.Owners() == s.Elsewhere() + r.kept
            && t.Live() == s.Live()
            && t.Everywhere() == s.Everywhere()
  {
    var t := AfterDecodes(s, r);
    assert multiset(s.Owners()) == multiset(s.Elsewhere()) + multiset(s.running);
    assert multiset(t.Owners()) == multiset(s.Elsewhere()) + multiset(r.kept);
    assert multiset(t.preempted) == multiset(s.preempted) + multiset(r.victims);
  }

  lemma DecodesKeep(cfg: Config, s: State, r: Reservation)
    requires Inv(cfg, s)
    requires ReservedOk(cfg, s, r)
    ensures Inv(cfg, AfterDecodes(s, r))
    ensures AfterDecodes(s, r).Everywhere() == s.Everywhere()
  {
    var t := AfterDecodes(s, r);
    DecodesMove(s, r);
    forall id | id in multiset(t.Owners()) ensures Covered(cfg, t, id) {
      DecodesCover(cfg, s, r, id);
    }
  }

  lemma DecodesCover(cfg: Config, s: State, r: Reservation, id: Id)
    requires Inv(cfg, s)
    requires ReservedOk(cfg, s, r)
    requires id in s.Elsewhere() + r.kept
    ensures Covered(cfg, AfterDecodes(s, r), id)
  {
    assert id in multiset(s.Owners()) by {
      if id in r.kept { assert id in multiset(r.kept); } else { assert id in multiset(s.Elsewhere()); }
    }
    assert Covered(cfg, s, id);
  }

  // Blocks for a sequence that moves from a place without to a place with a table.
  lemma OutsiderOwnsNothing(cfg: Config, s: State, id: Id)
    requires Inv(cfg, s)
    requires id in s.meta || id in s.preempted
    ensures id !in s.Owners()
  {
    assert s.Everywhere()[id] <= 1;
    assert id in multiset(s.meta) || id in multiset(s.preempted);
    assert id in s.Owners() <==> id in multiset(s.Owners());
  }

  lemma AllocateKeeps(cfg: Config, s: State, t: State, id: Id)
    requires Inv(cfg, s)
    requires id in s.meta || id in s.preempted
    requires CanAllocate(cfg, s, id)
    requires t.seqs == s.seqs && t.pool == Allocated(cfg, s, id)
    requires multiset(t.Owners()) == multiset(s.Owners()) + multiset{id}
    requires t.Live() == s.Live() && t.done == s.done
    ensures Inv(cfg, t)
  {
    OwnsMeans(s.pool, s.Owners(), cfg.numBlocks);
    OutsiderOwnsNothing(cfg, s, id);
    OwnsAllocate(s.pool, s.Owners(), id, Look(s.seqs, id).Need(cfg.size), cfg.numBlocks);
    OwnsPermutation(t.pool, s.Owners() + [id], t.Owners(), cfg.numBlocks);
    AllocateCovers(cfg, s, t, id);
  }

  lemma AllocateCovers(cfg: Config, s: State, t: State, id: Id)
    requires Inv(cfg, s) && CanAllocate(cfg, s, id)
    requires t.seqs == s.seqs && t.pool == Allocated(cfg, s, id)
    requires multiset(t.Owners()) == multiset(s.Owners()) + multiset{id}
    ensures forall x :: x in multiset(t.Owners()) ==> Covered(cfg, t, x)
  {
    forall x | x in multiset(t.Owners()) ensures Covered(cfg, t, x) {
      if x != id { assert Covered(cfg, s, x); }
    }
  }

  lemma MoveOut(q: seq<Id>)
    requires q != []
    ensures multiset(q) == multiset(q[1..]) + multiset{q[0]}
  {
    assert q == [q[0]] + q[1..];
  }

  lemma BringBackKeeps(cfg: Config, s: State)
    requires Inv(cfg, s)
    ensures Inv(cfg, BringBack(cfg, s))
    ensures BringBack(cfg, s).Everywhere() == s.Everywhere()
  {
    var t := BringBack(cfg, s);
    if s.preempted != [] && !s.flag && CanAllocate(cfg, s, s.preempted[0]) {
      InsertOwner(s, t);
      AllocateKeeps(cfg, s, t, s.preempted[0]);
    }
  }

  lemma InsertOwner(s: State, t: State)
    requires s.preempted != []
    requires t == s.(preempted := s.preempted[1..], insert := s.insert + [s.preempted[0]], pool := t.pool)
    ensures multiset(t.Owners()) == multiset(s.Owners()) + multiset{s.preempted[0]}
    ensures t.Live() == s.Live()
  {
    MoveOut(s.preempted);
    ElsewhereParts(s);
    ElsewhereParts(t);
    OwnerParts(s);
    OwnerParts(t);
  }

  lemma TransferOwner(s: State, t: State)
    requires s.meta != []
    requires t == s.(meta := s.meta[1..], transfer := s.transfer + [s.meta[0]], pool := t.pool)
    ensures multiset(t.Owners()) == multiset(s.Owners()) + multiset{s.meta[0]}
    ensures t.Live() == s.Live()
  {
    MoveOut(s.meta);
    ElsewhereParts(s);
    ElsewhereParts(t);
    OwnerParts(s);
    OwnerParts(t);
  }

  lemma OwnerParts(s: State)
    ensures multiset(s.Owners()) == multiset(s.Elsewhere()) + multiset(s.running)
  {}

  lemma {:induction false} TakeInKeeps(cfg: Config, s: State)
    requires Inv(cfg, s)
    ensures Inv(cfg, TakeIn(cfg, s))
    ensures TakeIn(cfg, s).Everywhere() == s.Everywhere()
    decreases |s.meta|
  {
    if !s.flag && s.meta != [] && CanAllocate(cfg, s, s.meta[0]) {
      var id := s.meta[0];
      var t := s.(meta := s.meta[1..], transfer := s.transfer + [id], pool := Allocated(cfg, s, id));
      TransferOwner(s, t);
      AllocateKeeps(cfg, s, t, id);
      TakeInKeeps(cfg, t);
    }
  }

  lemma ScheduleKeeps(cfg: Config, s: State)
    requires Inv(cfg, s)
    ensures Inv(cfg, Scheduled(cfg, s))
    ensures Scheduled(cfg, s).Everywhere() == s.Everywhere()
  {
    var d := Drained(s);
    var r := Reserved(cfg, d);
    DrainKeeps(cfg, s);
    ReservedIsOk(cfg, d);
    DecodesKeep(cfg, d, r);
    BringBackKeeps(cfg, AfterDecodes(d, r));
    TakeInKeeps(cfg, BringBack(cfg, AfterDecodes(d, r)));
  }

  /** Execution: the batch decodes, finished sequences leave with their blocks. */

  function Leaving(s: State, victims: seq<Id>, slots: seq<Id>, samples: map<Id, Sample>): seq<Id> {
    Within(s.running, FinishedOf(s.running, Execute(s, victims, slots, samples).seqs))
  }

  // Taking some of the running list to the finished ones.
  lemma FinishMoves(s: State, t: State, out: seq<Id>)
    requires t.Elsewhere() == s.Elsewhere() && t.meta == s.meta && t.preempted == s.preempted
    requires t.done == s.done + out
    requires multiset(s.running) == multiset(t.running) + multiset(out)
    ensures multiset(s.Owners()) == multiset(t.Owners()) + multiset(out)
    ensures s.Live() == t.Live() + multiset(out)
    ensures t.Everywhere() == s.Everywhere()
  {
    assert multiset(s.Owners()) == multiset(s.Elsewhere()) + multiset(s.running);
    assert multiset(t.Owners()) == multiset(s.Elsewhere()) + multiset(t.running);
  }

  lemma ExecuteMoves(s: State, victims: seq<Id>, slots: seq<Id>, samples: map<Id, Sample>)
    ensures var t := Execute(s, victims, slots, samples);
            var out := Leaving(s, victims, slots, samples);
            && multiset(s.Owners()) == multiset(t.Owners()) + multiset(out)
            && s.Live() == t.Live() + multiset(out)
            && t.Everywhere() == s.Everywhere()
  {
    var t := Execute(s, victims, slots, samples);
    WithoutWithin(s.running, FinishedOf(s.running, t.seqs));
    FinishMoves(s, t, Leaving(s, victims, slots, samples));
  }

  lemma ExecuteOwns(cfg: Config, s: State, victims: seq<Id>, slots: seq<Id>, samples: map<Id, Sample>)
    requires Inv(cfg, s)
    ensures var t := Execute(s, victims, slots, samples); Owns(t.pool, t.Owners(), cfg.numBlocks)
  {
    var t := Execute(s, victims, slots, samples);
    OwnsReleaseAll(s.pool, s.Elsewhere(), s.running, FinishedOf(s.running, t.seqs), cfg.numBlocks);
    assert t.Owners() == s.Elsewhere() + t.running;
  }

  // A sequence that is still there has not finished.
  lemma StayingIsUnfinished(cfg: Config, s: State, victims: seq<Id>, slots: seq<Id>, samples: map<Id, Sample>, id: Id)
    requires Inv(cfg, s)
    requires id in Execute(s, victims, slots, samples).Live()
    ensures id in s.Live() && id !in Leaving(s, victims, slots, samples)
    ensures id in s.running ==> !Look(Execute(s, victims, slots, samples).seqs, id).status.Finished()
  {
    var t := Execute(s, victims, slots, samples);
    var out := Leaving(s, victims, slots, samples);
    ExecuteMoves(s, victims, slots, samples);
    WithoutWithin(s.running, FinishedOf(s.running, t.seqs));
    assert s.Everywhere()[id] <= 1;
    assert id !in multiset(out);
    assert id in s.Live();
  }

  lemma ExecutedDecodes(v: SeqView, id: Id, victims: seq<Id>, slots: seq<Id>, samples: map<Id, Sample>)
    requires Decodable(v)
    ensures var w := ExecutedView(id, v, victims, slots, samples);
            && w.Len() == v.Len() + (if id in slots && id !in victims then 1 else 0)
            && (w.status.Finished() ==> id in slots)
            && (!w.status.Finished() ==> Decodable(w))
  {}

  // A decoded sequence in the batch had a block for each of its tokens.
  lemma DecodeCovers(cfg: Config, v: SeqView, held: nat, id: Id, victims: seq<Id>, slots: seq<Id>, samples: map<Id, Sample>)
    requires cfg.Valid()
    requires Decodable(v)
    requires held <= v.Need(cfg.size) <= held + 1
    requires id in slots ==> held == v.Need(cfg.size)
    ensures held <= ExecutedView(id, v, victims, slots, samples).Need(cfg.size) <= held + 1
  {
    BlocksStep(v.Len(), cfg.size);
    ExecutedDecodes(v, id, victims, slots, samples);
  }

  lemma ExecuteCovers(cfg: Config, s: State, victims: seq<Id>, slots: seq<Id>, samples: map<Id, Sample>, id: Id)
    requires Inv(cfg, s)
    requires id in slots ==> s.pool.Held(id) == Look(s.seqs, id).Need(cfg.size)
    requires id in multiset(Execute(s, victims, slots, samples).Owners())
    ensures Covered(cfg, Execute(s, victims, slots, samples), id)
  {
    var t := Execute(s, victims, slots, samples);
    ExecuteMoves(s, victims, slots, samples);
    assert id in multiset(s.Owners());
    assert Covered(cfg, s, id);
    assert id in t.Live();
    StayingIsUnfinished(cfg, s, victims, slots, samples, id);
    ReleaseAllFrame(s.pool, Leaving(s, victims, slots, samples), id);
    DecodeCovers(cfg, s.seqs[id], s.pool.Held(id), id, victims, slots, samples);
  }

  lemma ExecuteKeeps(cfg: Config, s: State, victims: seq<Id>, slots: seq<Id>, samples: map<Id, Sample>)
    requires Inv(cfg, s)
    requires forall id :: id in slots ==> id in s.running && s.pool.Held(id) == Look(s.seqs, id).Need(cfg.size)
    ensures Inv(cfg, Execute(s, victims, slots, samples))
    ensures Execute(s, victims, slots, samples).Everywhere() == s.Everywhere()
  {
    var t := Execute(s, victims, slots, samples);
    ExecuteMoves(s, victims, slots, samples);
    ExecuteOwns(cfg, s, victims, slots, samples);
    forall id | id in t.Live() ensures id in t.seqs && Decodable(t.seqs[id]) {
      StayingIsUnfinished(cfg, s, victims, slots, samples, id);
      ExecutedDecodes(s.seqs[id], id, victims, slots, samples);
    }
    forall id | id in multiset(t.Owners()) ensures Covered(cfg, t, id) {
      ExecuteCovers(cfg, s, victims, slots, samples, id);
    }
  }

  // Preemption here keeps the progress: the text is unchanged, the allowance shrinks with it.
  lemma KeepsProgress(v: SeqView)
    requires Decodable(v)
    ensures var w := v.ResetButNotRecompute();
            && Decodable(w) && w.Text() == v.Text()
            && |w.prompt| + w.maxTokens == |v.prompt| + v.maxTokens
  {}

  lemma StepKeeps(cfg: Config, s: State, samples: map<Id, Sample>)
    requires Inv(cfg, s)
    ensures Inv(cfg, Step(cfg, s, samples))
    ensures Step(cfg, s, samples).Everywhere() == s.Everywhere()
  {
    var d := Drained(s);
    var r := Reserved(cfg, d);
    var t := Scheduled(cfg, s);
    ScheduleKeeps(cfg, s);
    if r.slots != [] {
      SlotsSurvive(cfg, s);
      ExecuteKeeps(cfg, t, r.victims, r.slots, samples);
    }
  }

  // The allocations that follow the decode loop leave the batch and its tables alone.
  lemma AllocationFrame(cfg: Config, a: State, id: Id)
    requires cfg.Valid()
    requires id !in a.meta && id !in a.preempted
    ensures TakeIn(cfg, BringBack(cfg, a)).pool.Held(id) == a.pool.Held(id)
  {
    var t := BringBack(cfg, a);
    if t != a { assert a.preempted[0] in a.preempted; }
    TakeInFrame(cfg, t, id);
  }

  lemma SlotsSurvive(cfg: Config, s: State)
    requires Inv(cfg, s)
    ensures var r := Reserved(cfg, Drained(s));
            var t := Scheduled(cfg, s);
            && t.running == r.kept
            && t.seqs == s.seqs
            && (forall id :: id in r.slots ==> id in t.running && t.pool.Held(id) == Look(t.seqs, id).Need(cfg.size))
  {
    var d := Drained(s);
    var r := Reserved(cfg, d);
    var a := AfterDecodes(d, r);
    DrainKeeps(cfg, s);
    ReservedIsOk(cfg, d);
    TakeInRunning(cfg, BringBack(cfg, a));
    forall id | id in r.slots ensures Scheduled(cfg, s).pool.Held(id) == r.pool.Held(id) {
      SlotIsKept(cfg, d, r, id);
    }
  }

  lemma SlotIsKept(cfg: Config, d: State, r: Reservation, id: Id)
    requires Inv(cfg, d)
    requires ReservedOk(cfg, d, r)
    requires id in r.kept
    ensures TakeIn(cfg, BringBack(cfg, AfterDecodes(d, r))).pool.Held(id) == r.pool.Held(id)
  {
    KeptOnce(cfg, d, r, id);
    AllocationFrame(cfg, AfterDecodes(d, r), id);
  }

  // A kept sequence is nowhere else.
  lemma KeptOnce(cfg: Config, s: State, r: Reservation, id: Id)
    requires Inv(cfg, s)
    requires ReservedOk(cfg, s, r)
    requires id in r.kept
    ensures id !in r.victims && id !in s.preempted && id !in s.meta
  {
    assert s.Everywhere()[id] <= 1;
    assert id in multiset(r.kept);
    assert multiset(s.running)[id] >= 1;
    assert multiset(s.Owners()) == multiset(s.Elsewhere()) + multiset(s.running);
    assert id in r.victims <==> id in multiset(r.victims);
    assert id in s.preempted <==> id in multiset(s.preempted);
    assert id in s.meta <==> id in multiset(s.meta);
  }

  lemma {:induction false} TakeInFrame(cfg: Config, s: State, id: Id)
    requires cfg.Valid()
    requires id !in s.meta
    ensures TakeIn(cfg, s).pool.Held(id) == s.pool.Held(id)
    decreases |s.meta|
  {
    if !s.flag && s.meta != [] && CanAllocate(cfg, s, s.meta[0]) {
      var t := s.(meta := s.meta[1..], transfer := s.transfer + [s.meta[0]], pool := Allocated(cfg, s, s.meta[0]));
      assert s.meta[0] in s.meta;
      TakeInFrame(cfg, t, id);
    }
  }

  lemma {:induction false} TakeInRunning(cfg: Config, s: State)
    requires cfg.Valid()
    ensures TakeIn(cfg, s).running == s.running && TakeIn(cfg, s).seqs == s.seqs
    decreases |s.meta|
  {
    if !s.flag && s.meta != [] && CanAllocate(cfg, s, s.meta[0]) {
      TakeInRunning(cfg, s.(meta := s.meta[1..], transfer := s.transfer + [s.meta[0]], pool := Allocated(cfg, s, s.meta[0])));
    }
  }

  /** While the flag stands, from this step's preemption or an earlier one, nothing is given a
      new table: the queues on the way in do not move and no sequence starts to own blocks. */
  lemma NoAllocationWhileFlagged(cfg: Config, s: State)
    requires Inv(cfg, s)
    requires s.flag || Reserved(cfg, Drained(s)).victims != []
    ensures var t := Scheduled(cfg, s);
            && t.flag
            && t.meta == s.meta && t.transfer == s.transfer && t.insert == s.insert
            && t.pool.held.Keys <= s.pool.held.Keys
  {
    var d := Drained(s);
    var a := AfterDecodes(d, Reserved(cfg, d));
    DrainKeeps(cfg, s);
    assert BringBack(cfg, a) == a && TakeIn(cfg, a) == a;
    DecodesOwnNothingNew(cfg, d);
  }

  lemma DecodesOwnNothingNew(cfg: Config, d: State)
    requires Inv(cfg, d)
    ensures Reserved(cfg, d).pool.held.Keys <= d.pool.held.Keys
  {
    var r := Reserved(cfg, d);
    ReservedIsOk(cfg, d);
    OwnsMeans(r.pool, d.Elsewhere() + r.kept, cfg.numBlocks);
    OwnsMeans(d.pool, d.Owners(), cfg.numBlocks);
    forall id | id in r.pool.held ensures id in d.pool.held {
      if id in r.kept { KeptWasRunning(r.kept, r.victims, d.running, id); }
    }
  }

  lemma KeptWasRunning(kept: seq<Id>, victims: seq<Id>, running: seq<Id>, id: Id)
    requires multiset(kept) + multiset(victims) == multiset(running)
    requires id in kept
    ensures id in running
  {
    assert id in multiset(kept);
    assert id in multiset(running);
  }

  /** Runs. */

  ghost predicate Proper(s: State, event: Event) {
    event.Announce? ==> s.Everywhere()[event.id] == 0 && Decodable(event.view)
  }

  ghost predicate ProperRun(cfg: Config, s: State, events: seq<Event>)
    requires cfg.Valid()
    decreases |events|
  {
    events != [] ==> Proper(s, events[0]) && ProperRun(cfg, Apply(cfg, s, events[0]), events[1..])
  }

  function RunOf(cfg: Config, s: State, events: seq<Event>): State
    requires cfg.Valid()
    decreases |events|
  {
    if events == [] then s else RunOf(cfg, Apply(cfg, s, events[0]), events[1..])
  }

  function Announced(events: seq<Event>): multiset<Id> {
    if events == [] then multiset{} else Newcomer(events[0]) + Announced(events[1..])
  }

  function Newcomer(event: Event): multiset<Id> {
    if event.Announce? then multiset{event.id} else multiset{}
  }

  lemma AnnounceKeeps(cfg: Config, s: State, id: Id, view: SeqView)
    requires Inv(cfg, s)
    requires s.Everywhere()[id] == 0 && Decodable(view)
    ensures var t := s.(meta := s.meta + [id], seqs := s.seqs[id := view]);
            Inv(cfg, t) && t.Everywhere() == s.Everywhere() + multiset{id}
  {
    var t := s.(meta := s.meta + [id], seqs := s.seqs[id := view]);
    AnnounceMoves(s, t, id);
    OneMorePlace(s.Everywhere(), id);
    AnnounceCovers(cfg, s, t, id);
  }

  lemma AnnounceCovers(cfg: Config, s: State, t: State, id: Id)
    requires Inv(cfg, s)
    requires s.Everywhere()[id] == 0
    requires t.Owners() == s.Owners() && t.pool == s.pool && t.seqs == s.seqs[id := Look(t.seqs, id)]
    ensures forall x :: x in multiset(t.Owners()) ==> Covered(cfg, t, x)
  {
    forall x | x in multiset(t.Owners()) ensures Covered(cfg, t, x) {
      assert Covered(cfg, s, x);
      assert x in s.Live();
    }
  }

  lemma OneMorePlace(m: multiset<Id>, id: Id)
    requires (forall x :: m[x] <= 1) && m[id] == 0
    ensures forall x :: (m + multiset{id})[x] <= 1
  {}

  lemma AnnounceMoves(s: State, t: State, id: Id)
    requires t == s.(meta := s.meta + [id], seqs := t.seqs)
    ensures t.Owners() == s.Owners()
    ensures t.Live() == s.Live() + multiset{id}
    ensures t.Everywhere() == s.Everywhere() + multiset{id}
  {}

  // Passing sequences along the queues of the threads.
  function QueuedBlocks(s: State): multiset<Id> {
    multiset(s.transfer) + multiset(s.flying) + multiset(s.insert) + multiset(s.inserting) + multiset(s.pending)
  }

  ghost predicate HandsOver(s: State, t: State) {
    && t == s.(transfer := t.transfer, flying := t.flying, insert := t.insert,
               inserting := t.inserting, pending := t.pending)
    && QueuedBlocks(t) == QueuedBlocks(s)
  }

  lemma ElsewhereParts(s: State)
    ensures multiset(s.Elsewhere()) == QueuedBlocks(s)
  {}

  lemma HandOver(cfg: Config, s: State, t: State)
    requires Inv(cfg, s)
    requires HandsOver(s, t)
    ensures Kept(cfg, s, t, multiset{})
  {
    ElsewhereParts(s);
    ElsewhereParts(t);
    assert multiset(s.Owners()) == multiset(s.Elsewhere()) + multiset(s.running);
    assert multiset(t.Owners()) == multiset(t.Elsewhere()) + multiset(t.running);
    MoveKeeps(cfg, s, t);
  }

  // One sequence leaves a queue and joins the end of another.
  lemma OneMoves(a: seq<Id>, b: seq<Id>, x: Id, c: seq<Id>, d: seq<Id>)
    requires multiset(a) == multiset(b) + multiset{x}
    requires d == c + [x]
    ensures multiset(a) + multiset(c) == multiset(b) + multiset(d)
  {}

  lemma TransferStartedHandsOver(s: State)
    ensures HandsOver(s, TransferStarted(s))
  {
    if s.transfer != [] {
      MoveOut(s.transfer);
      OneMoves(s.transfer, TransferStarted(s).transfer, s.transfer[0], s.flying, TransferStarted(s).flying);
    }
  }

  lemma TransferFinishedHandsOver(s: State, i: nat)
    ensures HandsOver(s, TransferFinished(s, i))
  {
    if i < |s.flying| {
      TakeAt(s.flying, i);
      OneMoves(s.flying, TransferFinished(s, i).flying, s.flying[i], s.pending, TransferFinished(s, i).pending);
    }
  }

  lemma InsertStartedHandsOver(s: State)
    ensures HandsOver(s, InsertStarted(s))
  {
    if s.insert != [] {
      MoveOut(s.insert);
      OneMoves(s.insert, InsertStarted(s).insert, s.insert[0], s.inserting, InsertStarted(s).inserting);
    }
  }

  lemma InsertFinishedHandsOver(s: State, i: nat)
    ensures HandsOver(s, InsertFinished(s, i))
  {
    if i < |s.inserting| {
      TakeAt(s.inserting, i);
      OneMoves(s.inserting, InsertFinished(s, i).inserting, s.inserting[i], s.pending, InsertFinished(s, i).pending);
    }
  }

  lemma TakeAt(q: seq<Id>, i: nat)
    requires i < |q|
    ensures multiset(q) == multiset(q[..i] + q[i + 1..]) + multiset{q[i]}
  {
    assert q == q[..i] + [q[i]] + q[i + 1..];
  }

  // The invariant holds after a move, and only the newcomers are new.
  ghost predicate Kept(cfg: Config, s: State, t: State, newcomers: multiset<Id>) {
    Inv(cfg, t) && t.Everywhere() == s.Everywhere() + newcomers
  }

  // What the threads do.
  lemma ThreadHandsOver(cfg: Config, s: State, event: Event)
    requires cfg.Valid()
    requires !event.Announce? && !event.Tick?
    ensures HandsOver(s, Apply(cfg, s, event))
  {
    match event
    case StartTransfer => TransferStartedHandsOver(s);
    case FinishTransfer(i) => TransferFinishedHandsOver(s, i);
    case StartInsert => InsertStartedHandsOver(s);
    case FinishInsert(i) => InsertFinishedHandsOver(s, i);
  }

  lemma ApplyKeeps(cfg: Config, s: State, event: Event)
    requires Inv(cfg, s)
    requires Proper(s, event)
    ensures Kept(cfg, s, Apply(cfg, s, event), Newcomer(event))
  {
    if event.Announce? {
      AnnounceKept(cfg, s, event, Apply(cfg, s, event));
    } else if event.Tick? {
      StepKept(cfg, s, event.samples, Apply(cfg, s, event));
    } else {
      ThreadHandsOver(cfg, s, event);
      HandOver(cfg, s, Apply(cfg, s, event));
    }
  }

  lemma AnnounceKept(cfg: Config, s: State, event: Event, t: State)
    requires Inv(cfg, s) && Proper(s, event)
    requires event.Announce? && t == Apply(cfg, s, event)
    ensures Kept(cfg, s, t, multiset{event.id})
  {
    AnnounceKeeps(cfg, s, event.id, event.view);
  }

  lemma StepKept(cfg: Config, s: State, samples: map<Id, Sample>, t: State)
    requires Inv(cfg, s)
    requires t == Step(cfg, s, samples)
    ensures Kept(cfg, s, t, multiset{})
  {
    StepKeeps(cfg, s, samples);
    KeptNothingNew(cfg, s, t);
  }

  lemma KeptNothingNew(cfg: Config, s: State, t: State)
    requires Inv(cfg, t) && t.Everywhere() == s.Everywhere()
    ensures Kept(cfg, s, t, multiset{})
  {
    assert s.Everywhere() + multiset{} == s.Everywhere();
  }

  lemma KeptOnwards(cfg: Config, s: State, t: State, u: State, a: multiset<Id>, b: multiset<Id>)
    requires Kept(cfg, s, t, a) && Kept(cfg, t, u, b)
    ensures Kept(cfg, s, u, a + b)
  {}

  lemma {:induction false} RunKeeps(cfg: Config, s: State, events: seq<Event>)
    requires Inv(cfg, s)
    requires ProperRun(cfg, s, events)
    ensures Kept(cfg, s, RunOf(cfg, s, events), Announced(events))
    decreases |events|
  {
    if events != [] {
      var t := Apply(cfg, s, events[0]);
      ApplyKeeps(cfg, s, events[0]);
      RunKeeps(cfg, t, events[1..]);
      KeptOnwards(cfg, s, t, RunOf(cfg, t, events[1..]), Newcomer(events[0]), Announced(events[1..]));
    }
  }

  /** Ownership over every interleaving of announcements, transfer and insertion threads and
      engine steps: each announced sequence is in exactly one place, and exactly the sequences
      on the way to the running list, or in it, own tables, which share out the pool. */
  lemma EveryInterleavingKeepsOwnership(cfg: Config, events: seq<Event>)
    requires cfg.Valid()
    requires ProperRun(cfg, Empty(cfg), events)
    ensures var t := RunOf(cfg, Empty(cfg), events);
            && t.Everywhere() == Announced(events)
            && (forall id :: t.Everywhere()[id] <= 1)
            && (forall id :: id in t.pool.held <==> id in t.Owners())
            && t.pool.free + Total(t.Owners(), t.pool) == cfg.numBlocks
            && (forall id :: id in t.Owners() ==> Covered(cfg, t, id))
  {
    var s := Empty(cfg);
    RunKeeps(cfg, s, events);
    var t := RunOf(cfg, s, events);
    OwnsMeans(t.pool, t.Owners(), cfg.numBlocks);
    forall id | id in t.Owners() ensures Covered(cfg, t, id) {
      assert id in multiset(t.Owners());
    }
  }

  function Empty(cfg: Config): State {
    State([], [], [], [], [], [], [], [], [], map[], Pool(cfg.numBlocks, map[]), false)
  }
}
