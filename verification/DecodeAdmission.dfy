/** What one schedule call of a decode instance lets in, told from the state before it, and how
    what it lets in reaches the running list. */
module DecodeAdmission {
  import opened Lists
  import opened Sequences
  import opened BlockPool
  import opened Reserve
  import opened ReserveExactly
  import opened DecodeInstance
  import opened DecodeLiveness

  // Those that can be decoded, oldest first, and the cap on how many are.
  function Oldest(s: State): seq<Id> { ByArrival(s.running + s.pending, s.seqs) }

  function DecodeCap(cfg: Config): Cap { BySlots(cfg.maxSeqs) }

  lemma OldestIsProper(cfg: Config, s: State)
    requires Inv(cfg, s)
    ensures ReserveExactly.Proper(Oldest(s), s.seqs, s.pool, DecodeCap(cfg)) && AllDecoding(Oldest(s), s.seqs)
  {
    var d := Drained(s);
    DrainKeeps(cfg, s);
    DrainedRuns(cfg, d);
    SortedIsProper(d.running, s.seqs, s.pool, DecodeCap(cfg));
  }

  lemma DrainedRuns(cfg: Config, d: State)
    requires Inv(cfg, d)
    ensures Distinct(d.running) && AllDecoding(d.running, d.seqs)
    ensures forall id :: id in d.running ==> id in d.pool.held
  {
    OwnsMeans(d.pool, d.Owners(), cfg.numBlocks);
    DistinctSum(d.Elsewhere(), d.running);
    forall id | id in d.running ensures id in d.pool.held && Decodable(Look(d.seqs, id)) { RunningIsLive(d, id); }
  }

  /** The decode loop: the most it can keep, of which as many get a slot as the cap allows. */
  lemma ReservesMost(cfg: Config, s: State)
    requires Inv(cfg, s)
    ensures var q, r := Oldest(s), Reserved(cfg, Drained(s));
            var m := Most(q, |q|, s.seqs, s.pool, DecodeCap(cfg), cfg.size);
            && EndsWith(r, q, m, s.seqs, s.pool, DecodeCap(cfg), cfg.size)
            && r.kept == q[..m] && r.victims == Reverse(q[m..])
            && r.slots == q[..if m <= cfg.maxSeqs then m else cfg.maxSeqs]
  {
    OldestIsProper(cfg, s);
    KeepsMost(Oldest(s), s.seqs, s.pool, DecodeCap(cfg), cfg.size);
    DecodingKeepsMost(Oldest(s), s.seqs, s.pool, DecodeCap(cfg), cfg.size);
  }

  // Whoever asks for a slot finds a block free.
  ghost predicate Roomy(cfg: Config, s: State)
    requires cfg.Valid()
  {
    var q := Oldest(s);
    forall i: nat :: i < |q| && Asks(q, i, s.seqs, DecodeCap(cfg)) ==>
      s.pool.free > Claims(q, i, s.seqs, s.pool, DecodeCap(cfg), cfg.size)
  }

  // The blocks the decodes leave when they preempt nobody.
  function LeftOver(cfg: Config, s: State): int
    requires cfg.Valid()
  {
    s.pool.free - Claims(Oldest(s), |Oldest(s)|, s.seqs, s.pool, DecodeCap(cfg), cfg.size)
  }

  lemma RoomyExactly(cfg: Config, s: State)
    requires Inv(cfg, s)
    ensures var r := Reserved(cfg, Drained(s));
            && (r.victims == [] <==> Roomy(cfg, s))
            && (r.victims == [] ==> r.pool.free == LeftOver(cfg, s))
  {
    var q := Oldest(s);
    OldestIsProper(cfg, s);
    PreemptsNobodyExactly(q, s.seqs, s.pool, DecodeCap(cfg), cfg.size);
    if Reserved(cfg, Drained(s)).victims == [] { PreemptingNobodyLeaves(q, s.seqs, s.pool, DecodeCap(cfg), cfg.size); }
  }

  /** Allocation. */

  // The first preempted sequence fits above the watermark once the decodes are served.
  ghost predicate ComesBack(cfg: Config, s: State)
    requires cfg.Valid()
  {
    && !s.flag && Roomy(cfg, s) && s.preempted != []
    && LeftOver(cfg, s) - Look(s.seqs, s.preempted[0]).Need(cfg.size) >= cfg.watermark
  }

  // And those it leaves in turn.
  ghost function LeftBehind(cfg: Config, s: State): int
    requires cfg.Valid()
  {
    LeftOver(cfg, s) - (if ComesBack(cfg, s) then Look(s.seqs, s.preempted[0]).Need(cfg.size) else 0)
  }

  // The first i + 1 of the announced fit above the watermark together.
  predicate Fits(cfg: Config, ids: seq<Id>, free: int, seqs: SeqMap, i: nat)
    requires cfg.Valid() && i < |ids|
  {
    free - NeedSum(ids[..i + 1], seqs, cfg.size) >= cfg.watermark
  }

  // The first at or behind the j-th that does not.
  function FittingFrom(cfg: Config, ids: seq<Id>, free: int, seqs: SeqMap, j: nat): (n: nat)
    requires cfg.Valid() && j <= |ids|
    ensures j <= n <= |ids|
    ensures forall i: nat :: j <= i < n ==> Fits(cfg, ids, free, seqs, i)
    ensures n < |ids| ==> !Fits(cfg, ids, free, seqs, n)
    decreases |ids| - j
  {
    if j < |ids| && Fits(cfg, ids, free, seqs, j) then FittingFrom(cfg, ids, free, seqs, j + 1) else j
  }

  lemma {:induction false} TakesFitting(cfg: Config, s: State, ids: seq<Id>, free: int, before: seq<Id>, j: nat)
    requires cfg.Valid() && !s.flag && j <= |ids|
    requires s.meta == ids[j..] && s.transfer == before + ids[..j]
    requires s.pool.free == free - NeedSum(ids[..j], s.seqs, cfg.size)
    ensures var n := FittingFrom(cfg, ids, free, s.seqs, j);
            var t := TakeIn(cfg, s);
            && t == s.(meta := t.meta, transfer := t.transfer, pool := t.pool)
            && t.meta == ids[n..] && t.transfer == before + ids[..n]
    decreases |ids| - j
  {
    if j < |ids| {
      var id := ids[j];
      assert ids[..j + 1] == ids[..j] + [id] && ids[j..][1..] == ids[j + 1..];
      NeedSumSnoc(ids[..j], id, s.seqs, cfg.size);
      if CanAllocate(cfg, s, id) {
        var u := s.(meta := s.meta[1..], transfer := s.transfer + [id], pool := Allocated(cfg, s, id));
        Regroup(before, ids[..j], [id]);
        TakesFitting(cfg, u, ids, free, before, j + 1);
      }
    }
  }

  lemma TakesAllFitting(cfg: Config, s: State)
    requires cfg.Valid() && !s.flag
    ensures var n := FittingFrom(cfg, s.meta, s.pool.free, s.seqs, 0);
            var t := TakeIn(cfg, s);
            && t == s.(meta := t.meta, transfer := t.transfer, pool := t.pool)
            && t.meta == s.meta[n..] && t.transfer == s.transfer + s.meta[..n]
  {
    NoTail(s.transfer);
    TakesFitting(cfg, s, s.meta, s.pool.free, s.transfer, 0);
  }

  /** The queues behind a schedule call: the first preempted sequence is brought back if and only if
      the flag is down, the decodes preempt nobody, and it fits above the watermark; then as many of
      the announced as still fit are taken in, in order; and under the flag, or with somebody
      preempted, neither. */
  lemma ScheduledInClosedForm(cfg: Config, s: State)
    requires Inv(cfg, s)
    ensures var t, r, back := Scheduled(cfg, s), Reserved(cfg, Drained(s)), ComesBack(cfg, s);
            var n := if s.flag || !Roomy(cfg, s) then 0 else FittingFrom(cfg, s.meta, LeftBehind(cfg, s), s.seqs, 0);
            && t.insert == s.insert + (if back then [s.preempted[0]] else [])
            && t.preempted == (if back then s.preempted[1..] else s.preempted) + r.victims
            && t.transfer == s.transfer + s.meta[..n] && t.meta == s.meta[n..]
            && t.running == r.kept && t.pending == []
            && t.flying == s.flying && t.inserting == s.inserting && t.done == s.done && t.seqs == s.seqs
            && (t.flag <==> s.flag || !Roomy(cfg, s))
  {
    if s.flag || !Roomy(cfg, s) {
      BlockedSchedule(cfg, s);
      NothingJoins(s.insert, s.transfer, s.meta);
    } else {
      OpenSchedule(cfg, s);
    }
  }

  lemma BlockedSchedule(cfg: Config, s: State)
    requires Inv(cfg, s)
    requires s.flag || !Roomy(cfg, s)
    ensures var r := Reserved(cfg, Drained(s)); Scheduled(cfg, s) == AfterDecodes(Drained(s), r).(flag := true)
  {
    RoomyExactly(cfg, s);
    FlaggedAllocatesNothing(cfg, AfterDecodes(Drained(s), Reserved(cfg, Drained(s))));
  }

  lemma OpenSchedule(cfg: Config, s: State)
    requires Inv(cfg, s)
    requires !s.flag && Roomy(cfg, s)
    ensures var t, r, back := Scheduled(cfg, s), Reserved(cfg, Drained(s)), ComesBack(cfg, s);
            var n := FittingFrom(cfg, s.meta, LeftBehind(cfg, s), s.seqs, 0);
            && r.victims == []
            && t.insert == s.insert + (if back then [s.preempted[0]] else [])
            && t.preempted == (if back then s.preempted[1..] else s.preempted) + []
            && t.transfer == s.transfer + s.meta[..n] && t.meta == s.meta[n..]
            && t == s.(running := r.kept, pending := [], insert := t.insert, preempted := t.preempted,
                       transfer := t.transfer, meta := t.meta, pool := t.pool)
  {
    OpenIsServed(cfg, s);
    ServedAllocates(cfg, s, Reserved(cfg, Drained(s)), LeftOver(cfg, s), LeftBehind(cfg, s), ComesBack(cfg, s), Scheduled(cfg, s));
  }

  lemma ServedAllocates(cfg: Config, s: State, r: Reservation, free: int, left: int, back: bool, t: State)
    requires cfg.Valid() && !s.flag
    requires free == r.pool.free
    requires back <==> s.preempted != [] && free - Look(s.seqs, s.preempted[0]).Need(cfg.size) >= cfg.watermark
    requires t == TakeIn(cfg, BringBack(cfg, s.(running := r.kept, pending := [], pool := r.pool)))
    requires left == free - (if back then Look(s.seqs, s.preempted[0]).Need(cfg.size) else 0)
    ensures var n := FittingFrom(cfg, s.meta, left, s.seqs, 0);
            && t.insert == s.insert + (if back then [s.preempted[0]] else [])
            && t.preempted == (if back then s.preempted[1..] else s.preempted) + []
            && t.transfer == s.transfer + s.meta[..n] && t.meta == s.meta[n..]
            && t == s.(running := r.kept, pending := [], insert := t.insert, preempted := t.preempted,
                       transfer := t.transfer, meta := t.meta, pool := t.pool)
  {
    AllocatesInTurn(cfg, s.(running := r.kept, pending := [], pool := r.pool));
    NoTail(if back then s.preempted[1..] else s.preempted);
  }

  // Behind decodes that preempt nobody.
  function Served(cfg: Config, s: State): State
    requires cfg.Valid()
  {
    var r := Reserved(cfg, Drained(s));
    s.(running := r.kept, pending := [], pool := r.pool)
  }

  lemma OpenIsServed(cfg: Config, s: State)
    requires Inv(cfg, s)
    requires !s.flag && Roomy(cfg, s)
    ensures var a := Served(cfg, s);
            && Reserved(cfg, Drained(s)).victims == []
            && Scheduled(cfg, s) == TakeIn(cfg, BringBack(cfg, a))
            && a.pool.free == LeftOver(cfg, s)
            && (ComesBack(cfg, s) <==> a.preempted != [] && CanAllocate(cfg, a, a.preempted[0]))
  {
    RoomyExactly(cfg, s);
    NoTail(s.preempted);
  }

  lemma NothingJoins(insert: seq<Id>, transfer: seq<Id>, meta: seq<Id>)
    ensures insert + [] == insert && transfer + meta[..0] == transfer && meta[0..] == meta
  {}

  lemma FlaggedAllocatesNothing(cfg: Config, a: State)
    requires cfg.Valid() && a.flag
    ensures TakeIn(cfg, BringBack(cfg, a)) == a
  {}

  // Behind decodes that preempted nobody.
  lemma AllocatesInTurn(cfg: Config, a: State)
    requires cfg.Valid() && !a.flag
    ensures var t := TakeIn(cfg, BringBack(cfg, a));
            var back := a.preempted != [] && CanAllocate(cfg, a, a.preempted[0]);
            var n := FittingFrom(cfg, a.meta, a.pool.free - (if back then Look(a.seqs, a.preempted[0]).Need(cfg.size) else 0), a.seqs, 0);
            && t.insert == a.insert + (if back then [a.preempted[0]] else [])
            && t.preempted == (if back then a.preempted[1..] else a.preempted)
            && t.transfer == a.transfer + a.meta[..n] && t.meta == a.meta[n..]
            && t == a.(insert := t.insert, preempted := t.preempted, transfer := t.transfer, meta := t.meta, pool := t.pool)
  {
    NoTail(a.insert);
    TakesAllFitting(cfg, BringBack(cfg, a));
  }

  /** Said for the preempted list alone. */
  lemma BringsBackExactly(cfg: Config, s: State)
    requires Inv(cfg, s)
    ensures ComesBack(cfg, s) ==>
              Scheduled(cfg, s).insert == s.insert + [s.preempted[0]] && Scheduled(cfg, s).preempted == s.preempted[1..]
    ensures !ComesBack(cfg, s) ==> Scheduled(cfg, s).insert == s.insert && s.preempted <= Scheduled(cfg, s).preempted
  {
    ScheduledInClosedForm(cfg, s);
    RoomyExactly(cfg, s);
  }

  /** An instance that has given all its tables back, with the flag down, brings the first preempted
      sequence back exactly when it is not too big. */
  lemma IdleInstanceBringsBackExactly(cfg: Config, s: State)
    requires Inv(cfg, s)
    requires s.Owners() == [] && !s.flag && s.preempted != []
    ensures Scheduled(cfg, s).insert != [] <==> !TooBig(cfg, Look(s.seqs, s.preempted[0]))
  {
    ScheduledInClosedForm(cfg, s);
    NothingOwned(cfg, s);
  }

  lemma NothingOwned(cfg: Config, s: State)
    requires Inv(cfg, s)
    requires s.Owners() == []
    ensures s.insert == [] && s.inserting == [] && s.pending == [] && s.running == []
    ensures Oldest(s) == [] && s.pool.free == cfg.numBlocks
  {
    assert |s.Owners()| == |s.Elsewhere()| + |s.running|;
    assert |s.Elsewhere()| == |s.transfer| + |s.flying| + |s.insert| + |s.inserting| + |s.pending|;
    PermutationMembers(Oldest(s), []);
    assert Total([], s.pool) == 0;
  }

  /** The way to the running list. */

  // So many steps of a thread.
  function Repeat(event: Event, n: nat): seq<Event> { if n == 0 then [] else [event] + Repeat(event, n - 1) }

  lemma {:induction false} TransfersStart(cfg: Config, s: State)
    requires cfg.Valid()
    ensures RunOf(cfg, s, Repeat(StartTransfer, |s.transfer|)) == s.(transfer := [], flying := s.flying + s.transfer)
    decreases |s.transfer|
  {
    if s.transfer == [] {
      NoTail(s.flying);
    } else {
      var t := Apply(cfg, s, StartTransfer);
      TransfersStart(cfg, t);
      assert Repeat(StartTransfer, |s.transfer|)[1..] == Repeat(StartTransfer, |t.transfer|);
      ShiftHead(s.flying, s.transfer, []);
      NoTail(s.flying + s.transfer);
      NoTail(t.flying + t.transfer);
    }
  }

  lemma {:induction false} InsertsStart(cfg: Config, s: State)
    requires cfg.Valid()
    ensures RunOf(cfg, s, Repeat(StartInsert, |s.insert|)) == s.(insert := [], inserting := s.inserting + s.insert)
    decreases |s.insert|
  {
    if s.insert == [] {
      NoTail(s.inserting);
    } else {
      var t := Apply(cfg, s, StartInsert);
      InsertsStart(cfg, t);
      assert Repeat(StartInsert, |s.insert|)[1..] == Repeat(StartInsert, |t.insert|);
      ShiftHead(s.inserting, s.insert, []);
      NoTail(s.inserting + s.insert);
      NoTail(t.inserting + t.insert);
    }
  }

  lemma {:induction false} TransfersFinish(cfg: Config, s: State)
    requires cfg.Valid()
    ensures RunOf(cfg, s, Repeat(FinishTransfer(0), |s.flying|)) == s.(flying := [], pending := s.pending + s.flying)
    decreases |s.flying|
  {
    if s.flying == [] {
      NoTail(s.pending);
    } else {
      var t := Apply(cfg, s, FinishTransfer(0));
      TransfersFinish(cfg, t);
      assert t.flying == s.flying[1..];
      assert Repeat(FinishTransfer(0), |s.flying|)[1..] == Repeat(FinishTransfer(0), |t.flying|);
      ShiftHead(s.pending, s.flying, []);
      NoTail(s.pending + s.flying);
      NoTail(t.pending + t.flying);
    }
  }

  lemma {:induction false} InsertsFinish(cfg: Config, s: State)
    requires cfg.Valid()
    ensures RunOf(cfg, s, Repeat(FinishInsert(0), |s.inserting|)) == s.(inserting := [], pending := s.pending + s.inserting)
    decreases |s.inserting|
  {
    if s.inserting == [] {
      NoTail(s.pending);
    } else {
      var t := Apply(cfg, s, FinishInsert(0));
      InsertsFinish(cfg, t);
      assert t.inserting == s.inserting[1..];
      assert Repeat(FinishInsert(0), |s.inserting|)[1..] == Repeat(FinishInsert(0), |t.inserting|);
      ShiftHead(s.pending, s.inserting, []);
      NoTail(s.pending + s.inserting);
      NoTail(t.pending + t.inserting);
    }
  }

  lemma {:induction false} RunsFollow(cfg: Config, s: State, a: seq<Event>, b: seq<Event>)
    requires cfg.Valid()
    ensures RunOf(cfg, s, a + b) == RunOf(cfg, RunOf(cfg, s, a), b)
    decreases |a|
  {
    if a == [] {
      assert [] + b == b;
    } else {
      assert (a + b)[1..] == a[1..] + b;
      RunsFollow(cfg, Apply(cfg, s, a[0]), a[1..], b);
    }
  }

  // The threads work their queues off.
  function TransferThreads(s: State): seq<Event> {
    Repeat(StartTransfer, |s.transfer|) + Repeat(FinishTransfer(0), |s.flying + s.transfer|)
  }

  function InsertThreads(s: State): seq<Event> {
    Repeat(StartInsert, |s.insert|) + Repeat(FinishInsert(0), |s.inserting + s.insert|)
  }

  function AllThreads(s: State): seq<Event> { TransferThreads(s) + InsertThreads(s) }

  lemma TransfersDeliver(cfg: Config, s: State)
    requires cfg.Valid()
    ensures RunOf(cfg, s, TransferThreads(s)) == s.(transfer := [], flying := [], pending := s.pending + (s.flying + s.transfer))
  {
    TransfersStart(cfg, s);
    TransfersFinish(cfg, s.(transfer := [], flying := s.flying + s.transfer));
    RunsFollow(cfg, s, Repeat(StartTransfer, |s.transfer|), Repeat(FinishTransfer(0), |s.flying + s.transfer|));
  }

  lemma InsertsDeliver(cfg: Config, s: State)
    requires cfg.Valid()
    ensures RunOf(cfg, s, InsertThreads(s)) == s.(insert := [], inserting := [], pending := s.pending + (s.inserting + s.insert))
  {
    InsertsStart(cfg, s);
    InsertsFinish(cfg, s.(insert := [], inserting := s.inserting + s.insert));
    RunsFollow(cfg, s, Repeat(StartInsert, |s.insert|), Repeat(FinishInsert(0), |s.inserting + s.insert|));
  }

  /** Once the threads have worked off their queues, every cache on its way is decodable: the
      transferred ones in order, then the brought back ones in order. */
  lemma ThreadsDeliver(cfg: Config, s: State)
    requires cfg.Valid()
    ensures RunOf(cfg, s, AllThreads(s))
            == s.(transfer := [], flying := [], insert := [], inserting := [],
                  pending := s.pending + (s.flying + s.transfer) + (s.inserting + s.insert))
  {
    TransfersDeliver(cfg, s);
    var u := s.(transfer := [], flying := [], pending := s.pending + (s.flying + s.transfer));
    InsertsDeliver(cfg, u);
    RunsFollow(cfg, s, TransferThreads(s), InsertThreads(s));
  }

  /** So a preempted sequence does come back: on an instance that has given all its tables back, with
      the flag down, the next step and the threads behind it make the first of them decodable. */
  lemma PreemptedComesBack(cfg: Config, s: State, samples: map<Id, Sample>)
    requires Inv(cfg, s)
    requires s.Owners() == [] && !s.flag && s.preempted != []
    requires !TooBig(cfg, Look(s.seqs, s.preempted[0]))
    ensures var t := Apply(cfg, s, Tick(samples));
            s.preempted[0] in RunOf(cfg, t, AllThreads(t)).pending
  {
    var t := Apply(cfg, s, Tick(samples));
    IdleTickSchedules(cfg, s, samples, t);
    IdleInstanceBringsBackExactly(cfg, s);
    BringsBackExactly(cfg, s);
    assert s.preempted[0] in t.insert;
    ThreadsDeliver(cfg, t);
  }

  // With nothing to decode a step is its schedule call.
  lemma IdleTickSchedules(cfg: Config, s: State, samples: map<Id, Sample>, t: State)
    requires Inv(cfg, s)
    requires s.Owners() == [] && t == Apply(cfg, s, Tick(samples))
    ensures t == Scheduled(cfg, s)
  {
    NothingOwned(cfg, s);
    ReservesMost(cfg, s);
    EmptyBatchSchedules(cfg, s, samples, t);
  }

  lemma EmptyBatchSchedules(cfg: Config, s: State, samples: map<Id, Sample>, t: State)
    requires cfg.Valid()
    requires Reserved(cfg, Drained(s)).slots == [] && t == Apply(cfg, s, Tick(samples))
    ensures t == Scheduled(cfg, s)
  {}
}
