/** The preemption flag of a decode instance comes down only in a step with a batch. When it can
    be left standing for good, and when it cannot. */
module DecodeLiveness {
  import opened Lists
  import opened Sequences
  import opened BlockPool
  import opened Reserve
  import opened DecodeInstance
  import EngineCore

  type Config = EngineCore.Config

  // The flag stands and nothing is left that could ever decode and take it down.
  ghost predicate Stuck(s: State) { s.flag && s.Owners() == [] }

  lemma StuckStep(cfg: Config, s: State, event: Event)
    requires cfg.Valid()
    requires Stuck(s)
    ensures var t := Apply(cfg, s, event);
            Stuck(t) && s.meta <= t.meta && t.preempted == s.preempted && t.done == s.done
  {
    if event.Tick? {
      var d := Drained(s);
      PermutationMembers(ByArrival(d.running, d.seqs), d.running);
      var r := Reserved(cfg, d);
      assert r == Start([], d.pool);
      NoTail(d.preempted);
      var a := AfterDecodes(d, r);
      assert BringBack(cfg, a) == a && TakeIn(cfg, a) == a;
    }
  }

  /** Once stuck, always stuck: whatever is announced and however the threads run, nothing is
      decoded, brought back or taken in again. */
  lemma {:induction false} StuckForever(cfg: Config, s: State, events: seq<Event>)
    requires cfg.Valid()
    requires Stuck(s)
    ensures var t := RunOf(cfg, s, events);
            Stuck(t) && s.meta <= t.meta && t.preempted == s.preempted && t.done == s.done
    decreases |events|
  {
    if events != [] {
      StuckStep(cfg, s, events[0]);
      StuckForever(cfg, Apply(cfg, s, events[0]), events[1..]);
    }
  }

  /** The step that gets an instance stuck: no cache is on its way in, and the oldest decoding
      sequence holds the whole pool. */
  ghost predicate FillsPool(cfg: Config, s: State)
    requires cfg.Valid()
  {
    var d := Drained(s);
    && d.Elsewhere() == []
    && d.running != []
    && d.pool.Held(ByArrival(d.running, d.seqs)[0]) == cfg.numBlocks
  }

  // The oldest sequence at the head of the decode loop, with no table elsewhere.
  lemma LoneQueue(cfg: Config, d: State)
    requires Inv(cfg, d)
    requires d.Elsewhere() == [] && d.running != []
    ensures var sorted := ByArrival(d.running, d.seqs);
            && sorted != [] && sorted[0] in d.running
            && Look(d.seqs, sorted[0]).status.PAUSED? && Look(d.seqs, sorted[0]).stageDone
            && Owns(d.pool, sorted, cfg.numBlocks)
            && d.pool.Held(sorted[0]) <= cfg.numBlocks
  {
    var sorted := ByArrival(d.running, d.seqs);
    PermutationMembers(sorted, d.running);
    assert d.Owners() == d.running by { NoTail(d.running); }
    OwnsPermutation(d.pool, d.Owners(), sorted, cfg.numBlocks);
    assert sorted[0] in sorted;
    RunningIsLive(d, sorted[0]);
    TotalMember(sorted, sorted[0], d.pool);
  }

  lemma DrainedAlready(d: State)
    requires d.pending == []
    ensures Drained(d) == d
  {
    NoTail(d.running);
  }

  lemma OthersStillOwn(d: State, r: Reservation)
    requires d.Elsewhere() != []
    ensures !Stuck(AfterDecodes(d, r))
  {
    assert AfterDecodes(d, r).Elsewhere() == d.Elsewhere();
  }

  // The decode loop of a drained instance has no slot to give, and leaves no owner, exactly then.
  lemma LoopSticksExactly(cfg: Config, d: State)
    requires Inv(cfg, d) && !Stuck(d)
    requires d.pending == []
    ensures var r := Reserved(cfg, d);
            r.slots == [] && Stuck(AfterDecodes(d, r)) <==> FillsPool(cfg, d)
  {
    DrainedAlready(d);
    if d.running == [] {
      NothingToPreempt(cfg, d);
    } else if d.Elsewhere() != [] {
      OthersStillOwn(d, Reserved(cfg, d));
    } else {
      LoneLoop(cfg, d);
    }
  }

  lemma LoneLoop(cfg: Config, d: State)
    requires Inv(cfg, d)
    requires d.Elsewhere() == [] && d.running != []
    ensures var r := Reserved(cfg, d);
            var filled := d.pool.Held(ByArrival(d.running, d.seqs)[0]) == cfg.numBlocks;
            && (!filled ==> r.slots != [])
            && (filled ==> r.slots == [] && r.victims != [] && AfterDecodes(d, r).Owners() == [])
  {
    var s := Start(ByArrival(d.running, d.seqs), d.pool);
    LoneQueue(cfg, d);
    if d.pool.Held(s.queue[0]) == cfg.numBlocks {
      PoolHolderIsPreempted(s, d.seqs, BySlots(cfg.maxSeqs), cfg.size, cfg.numBlocks);
      assert AfterDecodes(d, Reserved(cfg, d)).Elsewhere() == [];
    } else {
      HeadGetsSlot(s, d.seqs, BySlots(cfg.maxSeqs), cfg.size, cfg.numBlocks);
    }
  }

  // With nobody running nobody is preempted.
  lemma NothingToPreempt(cfg: Config, d: State)
    requires cfg.Valid()
    requires d.running == []
    ensures var a := AfterDecodes(d, Reserved(cfg, d)); a.flag == d.flag && a.Owners() == d.Owners()
  {
    PermutationMembers(ByArrival(d.running, d.seqs), d.running);
    assert Reserved(cfg, d) == Start([], d.pool);
  }

  /** A step gets an instance stuck exactly when the oldest of its decoding sequences holds the
      whole pool and no other table is on its way. */
  lemma SticksExactly(cfg: Config, s: State, samples: map<Id, Sample>)
    requires Inv(cfg, s) && !Stuck(s)
    ensures Stuck(Step(cfg, s, samples)) <==> FillsPool(cfg, s)
  {
    var d := Drained(s);
    var r := Reserved(cfg, d);
    var a := AfterDecodes(d, r);
    DrainKeeps(cfg, s);
    DrainedSame(s);
    DrainedAlready(d);
    LoopSticksExactly(cfg, d);
    if r.slots == [] { AllocationSticksExactly(cfg, a); }
  }

  // Without a batch the step ends with the allocations, which a stuck instance does not make.
  lemma AllocationSticksExactly(cfg: Config, a: State)
    requires cfg.Valid()
    ensures Stuck(TakeIn(cfg, BringBack(cfg, a))) <==> Stuck(a)
  {
    if Stuck(a) {
      assert BringBack(cfg, a) == a && TakeIn(cfg, a) == a;
    } else {
      AllocationMoves(cfg, a);
    }
  }

  lemma AllocationMoves(cfg: Config, a: State)
    requires cfg.Valid()
    requires !Stuck(a)
    ensures !Stuck(TakeIn(cfg, BringBack(cfg, a)))
  {
    if a.flag {
      assert BringBack(cfg, a) == a && TakeIn(cfg, a) == a;
    } else {
      FlagUnchanged(cfg, BringBack(cfg, a));
    }
  }

  lemma DrainedSame(s: State)
    ensures var d := Drained(s);
            && d.Live() == s.Live() && d.seqs == s.seqs
            && (d.Owners() == [] <==> s.Owners() == [])
  {
    var d := Drained(s);
    assert multiset(d.Owners()) == multiset(s.Owners());
    PermutationMembers(d.Owners(), s.Owners());
  }

  lemma {:induction false} FlagUnchanged(cfg: Config, s: State)
    requires cfg.Valid()
    ensures TakeIn(cfg, s).flag == s.flag
    decreases |s.meta|
  {
    if !s.flag && s.meta != [] && CanAllocate(cfg, s, s.meta[0]) {
      FlagUnchanged(cfg, s.(meta := s.meta[1..], transfer := s.transfer + [s.meta[0]], pool := Allocated(cfg, s, s.meta[0])));
    }
  }

  /** Over runs. */

  ghost predicate SomeTickFills(cfg: Config, s: State, events: seq<Event>)
    requires cfg.Valid()
    decreases |events|
  {
    events != [] &&
    ((events[0].Tick? && FillsPool(cfg, s)) || SomeTickFills(cfg, Apply(cfg, s, events[0]), events[1..]))
  }

  // Announcements and threads neither raise the flag nor take the last table away.
  lemma OthersDoNotStick(cfg: Config, s: State, event: Event)
    requires Inv(cfg, s) && !Stuck(s)
    requires !event.Tick?
    ensures !Stuck(Apply(cfg, s, event))
  {
    if event.Announce? {
      AnnounceMoves(s, Apply(cfg, s, event), event.id);
    } else {
      ThreadHandsOver(cfg, s, event);
      HandedOver(s, Apply(cfg, s, event));
    }
  }

  lemma ApplySticksExactly(cfg: Config, s: State, event: Event)
    requires Inv(cfg, s) && !Stuck(s)
    ensures Stuck(Apply(cfg, s, event)) <==> event.Tick? && FillsPool(cfg, s)
  {
    if event.Tick? {
      StepSticksExactly(cfg, s, event.samples, Apply(cfg, s, event));
    } else {
      OthersDoNotStick(cfg, s, event);
    }
  }

  lemma StepSticksExactly(cfg: Config, s: State, samples: map<Id, Sample>, t: State)
    requires Inv(cfg, s) && !Stuck(s)
    requires t == Step(cfg, s, samples)
    ensures Stuck(t) <==> FillsPool(cfg, s)
  {
    SticksExactly(cfg, s, samples);
  }

  /** An interleaving leaves the instance stuck exactly when one of its steps met that condition:
      before, it moves, and afterwards it never moves again. */
  lemma {:induction false} RunSticksExactly(cfg: Config, s: State, events: seq<Event>)
    requires Inv(cfg, s) && !Stuck(s)
    requires ProperRun(cfg, s, events)
    ensures Stuck(RunOf(cfg, s, events)) <==> SomeTickFills(cfg, s, events)
    decreases |events|
  {
    if events != [] {
      var t := Apply(cfg, s, events[0]);
      ApplySticksExactly(cfg, s, events[0]);
      if Stuck(t) {
        StuckForever(cfg, t, events[1..]);
      } else {
        ApplyKeeps(cfg, s, events[0]);
        RunSticksExactly(cfg, t, events[1..]);
      }
    }
  }

  lemma EmptyMoves(cfg: Config)
    requires cfg.Valid()
    ensures Inv(cfg, Empty(cfg)) && !Stuck(Empty(cfg))
  {}

  /** Sequences that can never come to need the whole pool. */
  ghost predicate Small(cfg: Config, v: SeqView)
    requires cfg.Valid()
  {
    v.maxTokens >= 0 && Blocks(|v.prompt| + v.maxTokens, cfg.size) < cfg.numBlocks
  }

  ghost predicate AllSmall(cfg: Config, s: State)
    requires cfg.Valid()
  {
    forall id :: id in s.Live() ==> Small(cfg, Look(s.seqs, id))
  }

  lemma SmallDoNotFill(cfg: Config, s: State)
    requires Inv(cfg, s) && AllSmall(cfg, s)
    ensures !FillsPool(cfg, s)
  {
    var d := Drained(s);
    DrainKeeps(cfg, s);
    DrainedSame(s);
    if d.Elsewhere() == [] && d.running != [] {
      LoneQueue(cfg, d);
      SmallHoldsLess(cfg, d, ByArrival(d.running, d.seqs)[0]);
    }
  }

  lemma SmallHoldsLess(cfg: Config, s: State, id: Id)
    requires Inv(cfg, s)
    requires id in s.running && Small(cfg, Look(s.seqs, id))
    ensures s.pool.Held(id) < cfg.numBlocks
  {
    RunningIsLive(s, id);
    assert Covered(cfg, s, id);
    SmallNeedsLess(cfg, s.seqs[id]);
  }

  lemma SmallNeedsLess(cfg: Config, v: SeqView)
    requires cfg.Valid()
    requires Decodable(v) && Small(cfg, v)
    ensures v.Need(cfg.size) < cfg.numBlocks
  {
    BlocksMonotone(v.Len(), |v.prompt| + v.maxTokens, cfg.size);
  }

  /** Decoding and preempting leave the bound on a sequence's length as it is. */
  lemma ExecutedSmall(cfg: Config, v: SeqView, id: Id, victims: seq<Id>, slots: seq<Id>, samples: map<Id, Sample>)
    requires cfg.Valid()
    requires Decodable(v) && Small(cfg, v)
    ensures Small(cfg, ExecutedView(id, v, victims, slots, samples))
  {}

  lemma ScheduledSame(cfg: Config, s: State)
    requires Inv(cfg, s)
    ensures var t := Scheduled(cfg, s);
            && Inv(cfg, t) && t.Live() == s.Live()
            && t.seqs == s.seqs && t.running == Reserved(cfg, Drained(s)).kept
  {
    var d := Drained(s);
    var r := Reserved(cfg, d);
    var t := Scheduled(cfg, s);
    ScheduleKeeps(cfg, s);
    SlotsSurvive(cfg, s);
    DoneSame(cfg, BringBack(cfg, AfterDecodes(d, r)));
    LiveByDone(s, t);
  }

  lemma {:induction false} DoneSame(cfg: Config, s: State)
    requires cfg.Valid()
    ensures TakeIn(cfg, s).done == s.done
    decreases |s.meta|
  {
    if !s.flag && s.meta != [] && CanAllocate(cfg, s, s.meta[0]) {
      DoneSame(cfg, s.(meta := s.meta[1..], transfer := s.transfer + [s.meta[0]], pool := Allocated(cfg, s, s.meta[0])));
    }
  }

  lemma LiveByDone(s: State, t: State)
    requires s.Everywhere() == t.Everywhere() && s.done == t.done
    ensures s.Live() == t.Live()
  {
    forall id ensures s.Live()[id] == t.Live()[id] {
      assert s.Everywhere()[id] == t.Everywhere()[id];
    }
  }

  lemma TickStaysSmall(cfg: Config, s: State, samples: map<Id, Sample>)
    requires Inv(cfg, s) && AllSmall(cfg, s)
    ensures AllSmall(cfg, Step(cfg, s, samples))
  {
    var r := Reserved(cfg, Drained(s));
    var t := Scheduled(cfg, s);
    ScheduledSame(cfg, s);
    if r.slots != [] {
      var u := Execute(t, r.victims, r.slots, samples);
      forall id | id in u.Live() ensures Small(cfg, Look(u.seqs, id)) {
        ExecutedLive(t, r.victims, r.slots, samples, id);
        assert id in s.Live();
        ExecutedSmall(cfg, s.seqs[id], id, r.victims, r.slots, samples);
      }
    }
  }

  lemma ExecutedLive(s: State, victims: seq<Id>, slots: seq<Id>, samples: map<Id, Sample>, id: Id)
    requires id in Execute(s, victims, slots, samples).Live()
    ensures id in s.Live()
  {
    ExecuteMoves(s, victims, slots, samples);
  }

  lemma AnnounceStaysSmall(cfg: Config, s: State, id: Id, view: SeqView)
    requires Inv(cfg, s) && AllSmall(cfg, s)
    requires Small(cfg, view)
    ensures AllSmall(cfg, s.(meta := s.meta + [id], seqs := s.seqs[id := view]))
  {
    var t := s.(meta := s.meta + [id], seqs := s.seqs[id := view]);
    AnnounceMoves(s, t, id);
    forall x | x in t.Live() ensures Small(cfg, Look(t.seqs, x)) {
      if x != id { assert x in s.Live(); }
    }
  }

  lemma ApplyStaysSmall(cfg: Config, s: State, event: Event)
    requires Inv(cfg, s) && AllSmall(cfg, s)
    requires event.Announce? ==> Small(cfg, event.view)
    ensures AllSmall(cfg, Apply(cfg, s, event))
  {
    if event.Announce? {
      AnnounceStaysSmall(cfg, s, event.id, event.view);
    } else if event.Tick? {
      StepStaysSmall(cfg, s, event.samples, Apply(cfg, s, event));
    } else {
      ThreadHandsOver(cfg, s, event);
      HandedOverStaysSmall(cfg, s, Apply(cfg, s, event));
    }
  }

  lemma HandedOverStaysSmall(cfg: Config, s: State, t: State)
    requires Inv(cfg, s) && AllSmall(cfg, s)
    requires HandsOver(s, t)
    ensures AllSmall(cfg, t)
  {
    HandedOver(s, t);
  }

  lemma StepStaysSmall(cfg: Config, s: State, samples: map<Id, Sample>, t: State)
    requires Inv(cfg, s) && AllSmall(cfg, s)
    requires t == Step(cfg, s, samples)
    ensures AllSmall(cfg, t)
  {
    TickStaysSmall(cfg, s, samples);
  }

  lemma HandedOver(s: State, t: State)
    requires HandsOver(s, t)
    ensures t.Live() == s.Live()
    ensures t.Owners() == [] <==> s.Owners() == []
  {
    ElsewhereParts(s);
    ElsewhereParts(t);
    assert multiset(s.Owners()) == multiset(s.Elsewhere()) + multiset(s.running);
    assert multiset(t.Owners()) == multiset(t.Elsewhere()) + multiset(t.running);
    PermutationMembers(t.Owners(), s.Owners());
  }

  /** So no interleaving gets stuck when every announced sequence is too small to fill the pool. */
  lemma SmallSequencesNeverStick(cfg: Config, s: State, events: seq<Event>)
    requires Inv(cfg, s) && AllSmall(cfg, s) && !Stuck(s)
    requires ProperRun(cfg, s, events)
    requires forall e :: e in events && e.Announce? ==> Small(cfg, e.view)
    ensures !Stuck(RunOf(cfg, s, events))
  {
    SmallNeverFill(cfg, s, events);
    RunSticksExactly(cfg, s, events);
  }

  lemma {:induction false} SmallNeverFill(cfg: Config, s: State, events: seq<Event>)
    requires Inv(cfg, s) && AllSmall(cfg, s)
    requires ProperRun(cfg, s, events)
    requires forall e :: e in events && e.Announce? ==> Small(cfg, e.view)
    ensures !SomeTickFills(cfg, s, events)
    decreases |events|
  {
    if events != [] {
      assert events[0] in events;
      SmallDoNotFill(cfg, s);
      ApplyKeeps(cfg, s, events[0]);
      ApplyStaysSmall(cfg, s, events[0]);
      forall e | e in events[1..] ensures e in events {}
      SmallNeverFill(cfg, Apply(cfg, s, events[0]), events[1..]);
    }
  }

  /** And a run that does: a sequence that fills the pool, sent to an idle instance without a
      watermark. */
  lemma PoolFillingSequenceSticks(cfg: Config, id: Id, view: SeqView, x: map<Id, Sample>, y: map<Id, Sample>)
    requires cfg.Valid() && cfg.watermark == 0
    requires Decodable(view) && view.Need(cfg.size) == cfg.numBlocks
    ensures Stuck(RunOf(cfg, Empty(cfg), [Announce(id, view), Tick(x)] + ([StartTransfer, FinishTransfer(0)] + [Tick(y)])))
  {
    var s := Empty(cfg);
    var announced := Apply(cfg, s, Announce(id, view));
    FirstTick(cfg, announced, id, x);
    var given := announced.(meta := [], transfer := [id], pool := Pool(0, map[id := cfg.numBlocks]));
    var arrived := given.(transfer := [], pending := [id]);
    TransferOne(cfg, given, id);
    SecondTick(cfg, arrived, id, y);
    RunTwo(cfg, s, Announce(id, view), Tick(x), [StartTransfer, FinishTransfer(0)] + [Tick(y)]);
    RunTwo(cfg, given, StartTransfer, FinishTransfer(0), [Tick(y)]);
    RunOne(cfg, arrived, Tick(y));
  }

  lemma TransferOne(cfg: Config, s: State, id: Id)
    requires cfg.Valid()
    requires s.transfer == [id] && s.flying == [] && s.pending == []
    ensures Apply(cfg, Apply(cfg, s, StartTransfer), FinishTransfer(0)) == s.(transfer := [], pending := [id])
  {
    var t := Apply(cfg, s, StartTransfer);
    assert t == s.(transfer := [], flying := [id]);
  }

  lemma RunOne(cfg: Config, s: State, e: Event)
    requires cfg.Valid()
    ensures RunOf(cfg, s, [e]) == Apply(cfg, s, e)
  {
    assert [e][1..] == [];
  }

  lemma RunTwo(cfg: Config, s: State, e: Event, f: Event, rest: seq<Event>)
    requires cfg.Valid()
    ensures RunOf(cfg, s, [e, f] + rest) == RunOf(cfg, Apply(cfg, Apply(cfg, s, e), f), rest)
  {
    assert ([e, f] + rest)[1..] == [f] + rest;
    assert ([f] + rest)[1..] == rest;
  }

  // The announced sequence is given the whole pool.
  lemma FirstTick(cfg: Config, s: State, id: Id, x: map<Id, Sample>)
    requires cfg.Valid() && cfg.watermark == 0
    requires s == Empty(cfg).(meta := [id], seqs := s.seqs)
    requires Look(s.seqs, id).Need(cfg.size) == cfg.numBlocks
    ensures Apply(cfg, s, Tick(x)) == s.(meta := [], transfer := [id], pool := Pool(0, map[id := cfg.numBlocks]))
  {
    var d := Drained(s);
    assert d == s;
    PermutationMembers(ByArrival(d.running, d.seqs), d.running);
    var r := Reserved(cfg, d);
    assert r == Start([], d.pool);
    var a := AfterDecodes(d, r);
    assert a == s;
    assert BringBack(cfg, a) == a;
    var t := a.(meta := a.meta[1..], transfer := a.transfer + [id], pool := Allocated(cfg, a, id));
    assert TakeIn(cfg, a) == TakeIn(cfg, t);
    assert TakeIn(cfg, t) == t;
  }

  // It finds no block for its next token and nobody else to preempt.
  lemma SecondTick(cfg: Config, s: State, id: Id, y: map<Id, Sample>)
    requires cfg.Valid()
    requires s == Empty(cfg).(pending := [id], seqs := s.seqs, pool := s.pool)
    requires s.pool.free == 0
    requires Decodable(Look(s.seqs, id))
    ensures Stuck(Apply(cfg, s, Tick(y)))
  {
    var d := Drained(s);
    assert d == s.(running := [id], pending := []);
    LoneSequencePreemptsItself(cfg, d, id);
    var a := AfterDecodes(d, Reserved(cfg, d));
    assert BringBack(cfg, a) == a && TakeIn(cfg, a) == a;
    assert a.Owners() == [];
  }

  lemma LoneSequencePreemptsItself(cfg: Config, d: State, id: Id)
    requires cfg.Valid()
    requires d.running == [id] && d.pool.free == 0
    requires Decodable(Look(d.seqs, id))
    ensures var r := Reserved(cfg, d); r.slots == [] && r.victims == [id] && r.kept == []
  {
    PermutationMembers(ByArrival(d.running, d.seqs), [id]);
    assert ByArrival(d.running, d.seqs) == [id];
    var b := Start([id], d.pool);
    assert Next(b, d.seqs, BySlots(cfg.maxSeqs), cfg.size) == Evict(b);
    assert Evict(b).queue == [];
    assert Run(Evict(b), d.seqs, BySlots(cfg.maxSeqs), cfg.size) == Evict(b);
  }

  /** A sequence that can never be given its blocks starves at the head of its queue, and keeps
      everyone behind it waiting, though the instance itself goes on. */

  ghost predicate TooBig(cfg: Config, v: SeqView)
    requires cfg.Valid()
  {
    v.Need(cfg.size) + cfg.watermark > cfg.numBlocks
  }

  ghost predicate BigHead(cfg: Config, s: State, id: Id)
    requires cfg.Valid()
  {
    && TooBig(cfg, Look(s.seqs, id))
    && ((s.meta != [] && s.meta[0] == id) || (s.preempted != [] && s.preempted[0] == id))
  }

  ghost predicate StaysHead(s: State, t: State, id: Id) {
    && (s.meta != [] && s.meta[0] == id ==> t.meta != [] && t.meta[0] == id)
    && (s.preempted != [] && s.preempted[0] == id ==> t.preempted != [] && t.preempted[0] == id)
    && Look(t.seqs, id) == Look(s.seqs, id)
  }

  lemma FreeIsWithinPool(cfg: Config, s: State)
    requires Inv(cfg, s)
    ensures s.pool.free <= cfg.numBlocks
  {}

  // Neither kind of allocation takes it.
  lemma AllocationsLeaveHead(cfg: Config, a: State, id: Id)
    requires Inv(cfg, a)
    requires BigHead(cfg, a, id)
    ensures StaysHead(a, TakeIn(cfg, BringBack(cfg, a)), id)
  {
    var b := BringBack(cfg, a);
    FreeIsWithinPool(cfg, a);
    BringBackKeeps(cfg, a);
    FreeIsWithinPool(cfg, b);
    if a.preempted != [] && a.preempted[0] == id { assert b == a; }
    TakeInLeaves(cfg, b, id);
  }

  lemma {:induction false} TakeInLeaves(cfg: Config, b: State, id: Id)
    requires cfg.Valid()
    requires b.pool.free <= cfg.numBlocks && TooBig(cfg, Look(b.seqs, id))
    ensures StaysHead(b, TakeIn(cfg, b), id)
    decreases |b.meta|
  {
    if !b.flag && b.meta != [] && CanAllocate(cfg, b, b.meta[0]) {
      assert b.meta[0] != id;
      TakeInLeaves(cfg, b.(meta := b.meta[1..], transfer := b.transfer + [b.meta[0]], pool := Allocated(cfg, b, b.meta[0])), id);
    }
  }

  lemma HeadDoesNotRun(cfg: Config, s: State, id: Id)
    requires Inv(cfg, s)
    requires BigHead(cfg, s, id)
    ensures id !in s.running
  {
    assert s.Everywhere()[id] <= 1;
    assert id in multiset(s.meta) || id in multiset(s.preempted);
    assert multiset(s.Owners()) == multiset(s.Elsewhere()) + multiset(s.running);
    assert id in s.running <==> id in multiset(s.running);
  }

  lemma ScheduleLeavesHead(cfg: Config, s: State, id: Id)
    requires Inv(cfg, s)
    requires BigHead(cfg, s, id)
    ensures StaysHead(s, Scheduled(cfg, s), id)
  {
    var d := Drained(s);
    var r := Reserved(cfg, d);
    var a := AfterDecodes(d, r);
    DrainKeeps(cfg, s);
    ReservedIsOk(cfg, d);
    DecodesKeep(cfg, d, r);
    assert StaysHead(s, a, id);
    AllocationsLeaveHead(cfg, a, id);
  }

  lemma ExecuteLeavesHead(t: State, victims: seq<Id>, slots: seq<Id>, samples: map<Id, Sample>, id: Id)
    requires id !in victims && id !in slots
    ensures StaysHead(t, Execute(t, victims, slots, samples), id)
  {}

  lemma TickLeavesHead(cfg: Config, s: State, id: Id, samples: map<Id, Sample>)
    requires Inv(cfg, s)
    requires BigHead(cfg, s, id)
    ensures StaysHead(s, Step(cfg, s, samples), id)
  {
    var r := Reserved(cfg, Drained(s));
    ScheduleLeavesHead(cfg, s, id);
    HeadNotInBatch(cfg, s, id);
    ExecuteLeavesHead(Scheduled(cfg, s), r.victims, r.slots, samples, id);
  }

  lemma VictimRan(d: State, r: Reservation, id: Id)
    requires multiset(r.kept) + multiset(r.victims) == multiset(d.running)
    requires id in r.victims
    ensures id in d.running
  {
    assert id in multiset(r.victims);
    assert id in multiset(d.running);
  }

  lemma HeadNotInBatch(cfg: Config, s: State, id: Id)
    requires Inv(cfg, s)
    requires BigHead(cfg, s, id)
    ensures var r := Reserved(cfg, Drained(s)); id !in r.slots && id !in r.victims
  {
    var d := Drained(s);
    var r := Reserved(cfg, d);
    DrainKeeps(cfg, s);
    ReservedIsOk(cfg, d);
    HeadDoesNotRun(cfg, d, id);
    if id in r.slots { KeptWasRunning(r.kept, r.victims, d.running, id); }
    if id in r.victims { VictimRan(d, r, id); }
  }

  lemma AnnounceLeavesHead(cfg: Config, s: State, id: Id, other: Id, view: SeqView)
    requires cfg.Valid() && BigHead(cfg, s, id)
    requires s.Everywhere()[other] == 0
    ensures StaysHead(s, s.(meta := s.meta + [other], seqs := s.seqs[other := view]), id)
  {
    assert id in multiset(s.meta) || id in multiset(s.preempted);
    assert s.Everywhere()[id] >= 1;
  }

  lemma ThreadsLeaveHead(cfg: Config, s: State, id: Id, event: Event)
    requires cfg.Valid()
    requires !event.Tick? && !event.Announce?
    ensures StaysHead(s, Apply(cfg, s, event), id)
  {}

  lemma ApplyLeavesHead(cfg: Config, s: State, id: Id, event: Event)
    requires Inv(cfg, s) && Proper(s, event)
    requires BigHead(cfg, s, id)
    ensures StaysHead(s, Apply(cfg, s, event), id)
  {
    match event
    case Tick(samples) => TickLeavesHead(cfg, s, id, samples);
    case Announce(other, view) => AnnounceLeavesHead(cfg, s, id, other, view);
    case _ => ThreadsLeaveHead(cfg, s, id, event);
  }

  lemma {:induction false} BigHeadStarves(cfg: Config, s: State, id: Id, events: seq<Event>)
    requires Inv(cfg, s)
    requires BigHead(cfg, s, id)
    requires ProperRun(cfg, s, events)
    ensures BigHead(cfg, RunOf(cfg, s, events), id) && StaysHead(s, RunOf(cfg, s, events), id)
    decreases |events|
  {
    if events != [] {
      ApplyKeeps(cfg, s, events[0]);
      ApplyLeavesHead(cfg, s, id, events[0]);
      BigHeadStarves(cfg, Apply(cfg, s, events[0]), id, events[1..]);
    }
  }

  /** And only such a sequence does: an instance that has given all its tables back, with the flag
      down and nobody preempted, takes the first in its queue exactly when it is not too big. */
  lemma IdleInstanceTakesHeadExactly(cfg: Config, s: State)
    requires Inv(cfg, s)
    requires s.Owners() == [] && !s.flag && s.preempted == [] && s.meta != []
    ensures Scheduled(cfg, s).transfer != [] <==> !TooBig(cfg, Look(s.seqs, s.meta[0]))
  {
    var d := Drained(s);
    assert s.pending == [] && s.transfer == [] && s.running == [] by { EmptyParts(s); }
    NothingToPreempt(cfg, d);
    PermutationMembers(ByArrival(d.running, d.seqs), d.running);
    var a := AfterDecodes(d, Reserved(cfg, d));
    assert a == s;
    assert Total([], s.pool) == 0;
    if CanAllocate(cfg, a, a.meta[0]) {
      TakeInGrows(cfg, a.(meta := a.meta[1..], transfer := a.transfer + [a.meta[0]], pool := Allocated(cfg, a, a.meta[0])));
    }
  }

  lemma EmptyParts(s: State)
    requires s.Owners() == []
    ensures s.transfer == [] && s.pending == [] && s.running == []
  {
    assert |s.Owners()| == |s.Elsewhere()| + |s.running|;
    assert |s.Elsewhere()| == |s.transfer| + |s.flying| + |s.insert| + |s.inserting| + |s.pending|;
  }

  lemma {:induction false} TakeInGrows(cfg: Config, s: State)
    requires cfg.Valid()
    ensures s.transfer <= TakeIn(cfg, s).transfer
    decreases |s.meta|
  {
    if !s.flag && s.meta != [] && CanAllocate(cfg, s, s.meta[0]) {
      TakeInGrows(cfg, s.(meta := s.meta[1..], transfer := s.transfer + [s.meta[0]], pool := Allocated(cfg, s, s.meta[0])));
    }
  }
}
