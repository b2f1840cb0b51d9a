/** The decode engine: the loops of its scheduler over the queues it shares with the transfer and
    insertion threads, and the step that drives them, against the functions of DecodeInstance. */
module DecodeEngine {
  import opened Lists
  import opened Sequences
  import opened BlockPool
  import opened Reserve
  import opened DecodeInstance
  import opened Scheduling
  import opened BlockSpace
  import EngineCore
  import SequenceManager

  class Engine {
    const base: BaseScheduler
    var kvmetaQueue: seq<Id>
    var pendingKvTransfer: seq<Id>
    var transferring: seq<Id>      // with a transfer thread
    var pendingKvInsert: seq<Id>
    var inserting: seq<Id>         // with an insertion thread
    var pendingDecode: seq<Id>
    var decodePreempted: seq<Id>
    var finished: seq<Id>
    var preemptionThisStep: bool

    ghost function Repr(): set<object> { {this} + base.Repr() }

    ghost predicate Valid()
      reads this, base, base.blocks, base.blocks.allocator
    {
      base.Valid() && !base.requeues
    }

    function State(): DecodeInstance.State
      reads this, base, base.blocks, base.blocks.allocator
    {
      DecodeInstance.State(kvmetaQueue, pendingKvTransfer, transferring, pendingKvInsert, inserting, pendingDecode,
                           base.running, decodePreempted, finished, base.seqs, base.blocks.Counts(), preemptionThisStep)
    }

    constructor (cfg: EngineCore.Config, watermark: real)
      requires cfg.Valid()
      requires watermark >= 0.0 && cfg.watermark == (watermark * cfg.numBlocks as real).Floor
      ensures Valid() && fresh(Repr() - {this})
      ensures base.cfg == cfg && State() == Empty(cfg)
    {
      base := new BaseScheduler(cfg, watermark, false);
      kvmetaQueue, pendingKvTransfer, transferring, pendingKvInsert, inserting := [], [], [], [], [];
      pendingDecode, decodePreempted, finished, preemptionThisStep := [], [], [], false;
    }

    method AddKvcMetadata(id: Id, view: SeqView)
      requires Valid()
      modifies this`kvmetaQueue, base`seqs
      ensures Valid()
      ensures State() == Apply(base.cfg, old(State()), Announce(id, view))
      ensures kvmetaQueue == old(kvmetaQueue) + [id] && base.seqs == old(base.seqs)[id := view]
    {
      base.seqs := base.seqs[id := view];
      kvmetaQueue := kvmetaQueue + [id];
    }

    // A transfer thread takes the next request; an insertion thread likewise.
    method StartTransfer()
      requires Valid()
      modifies this`pendingKvTransfer, this`transferring
      ensures Valid()
      ensures State() == Apply(base.cfg, old(State()), DecodeInstance.StartTransfer)
      ensures transferring + pendingKvTransfer == old(transferring + pendingKvTransfer)
      ensures |transferring| == old(|transferring|) + (if old(pendingKvTransfer) == [] then 0 else 1)
    {
      if pendingKvTransfer != [] {
        ShiftHead(transferring, pendingKvTransfer, []);
        NoTail(transferring + pendingKvTransfer);
        NoTail(transferring + [pendingKvTransfer[0]] + pendingKvTransfer[1..]);
        transferring := transferring + [pendingKvTransfer[0]];
        pendingKvTransfer := pendingKvTransfer[1..];
      }
    }

    method FinishTransfer(i: nat)
      requires Valid()
      modifies this`transferring, this`pendingDecode
      ensures Valid()
      ensures State() == Apply(base.cfg, old(State()), DecodeInstance.FinishTransfer(i))
      ensures i < old(|transferring|) ==>
                && pendingDecode == old(pendingDecode) + [old(transferring)[i]]
                && old(transferring) == transferring[..i] + [old(transferring)[i]] + transferring[i..]
    {
      if i < |transferring| {
        pendingDecode := pendingDecode + [transferring[i]];
        transferring := transferring[..i] + transferring[i + 1..];
      }
    }

    method StartInsert()
      requires Valid()
      modifies this`pendingKvInsert, this`inserting
      ensures Valid()
      ensures State() == Apply(base.cfg, old(State()), DecodeInstance.StartInsert)
      ensures inserting + pendingKvInsert == old(inserting + pendingKvInsert)
      ensures |inserting| == old(|inserting|) + (if old(pendingKvInsert) == [] then 0 else 1)
    {
      if pendingKvInsert != [] {
        ShiftHead(inserting, pendingKvInsert, []);
        NoTail(inserting + pendingKvInsert);
        NoTail(inserting + [pendingKvInsert[0]] + pendingKvInsert[1..]);
        inserting := inserting + [pendingKvInsert[0]];
        pendingKvInsert := pendingKvInsert[1..];
      }
    }

    method FinishInsert(i: nat)
      requires Valid()
      modifies this`inserting, this`pendingDecode
      ensures Valid()
      ensures State() == Apply(base.cfg, old(State()), DecodeInstance.FinishInsert(i))
      ensures i < old(|inserting|) ==>
                && pendingDecode == old(pendingDecode) + [old(inserting)[i]]
                && old(inserting) == inserting[..i] + [old(inserting)[i]] + inserting[i..]
    {
      if i < |inserting| {
        pendingDecode := pendingDecode + [inserting[i]];
        inserting := inserting[..i] + inserting[i + 1..];
      }
    }

    method DrainPendingDecode()
      requires Valid()
      modifies this`pendingDecode, base`running
      ensures Valid()
      ensures State() == Drained(old(State()))
    {
      ghost var all := base.running + pendingDecode;
      while pendingDecode != []
        invariant Valid()
        invariant base.running + pendingDecode == all
        decreases |pendingDecode|
      {
        ShiftHead(base.running, pendingDecode, []);
        NoTail(base.running + [pendingDecode[0]] + pendingDecode[1..]);
        NoTail(base.running + pendingDecode);
        base.running := base.running + [pendingDecode[0]];
        pendingDecode := pendingDecode[1..];
      }
      NoTail(base.running);
    }

    // The decodes of this step; what is preempted goes to a list of its own.
    method ReserveDecodes() returns (victims: seq<Id>, slots: seq<Id>)
      requires Valid()
      requires Preemptable(Start(base.running, State().pool), base.seqs)
      requires Reserved(base.cfg, State()).partials == []
      modifies this, base.Repr()
      ensures Valid()
      ensures var r := Reserved(base.cfg, old(State()));
              State() == AfterDecodes(old(State()), r) && victims == r.victims && slots == r.slots
    {
      var partials;
      partials, victims, slots := base.ReserveSlots(BySlots(base.cfg.maxSeqs));
      decodePreempted := decodePreempted + victims;
      if victims != [] {
        preemptionThisStep := true;
      }
    }

    // allocate_for_kvcache
    method AllocateForKvCache(id: Id) returns (can: bool)
      requires Valid()
      requires id !in base.blocks.blockTables
      modifies base.Repr()
      ensures Valid()
      ensures can <==> CanAllocate(base.cfg, old(State()), id)
      ensures State() == if can then old(State()).(pool := Allocated(base.cfg, old(State()), id)) else old(State())
    {
      can := base.blocks.CanAllocate(base.View(id).Need(base.cfg.size));
      if can {
        base.Allocate(id);
      }
    }

    method BringBackOne()
      requires Valid()
      requires decodePreempted != [] ==> decodePreempted[0] !in base.blocks.blockTables
      modifies this, base.Repr()
      ensures Valid()
      ensures State() == BringBack(base.cfg, old(State()))
      ensures var back := old(decodePreempted) != [] && !old(preemptionThisStep)
                && old(base.blocks.Counts()).free - old(base.View(decodePreempted[0])).Need(base.cfg.size) >= base.cfg.watermark;
              && pendingKvInsert == old(pendingKvInsert) + (if back then [old(decodePreempted)[0]] else [])
              && decodePreempted == if back then old(decodePreempted)[1..] else old(decodePreempted)
    {
      if decodePreempted != [] && !preemptionThisStep {
        var id := decodePreempted[0];
        var can := AllocateForKvCache(id);
        if can {
          decodePreempted := decodePreempted[1..];
          pendingKvInsert := pendingKvInsert + [id];
        }
      }
    }

    method TakeInNew()
      requires Valid()
      requires Unowned(kvmetaQueue, base.blocks.Counts())
      modifies this, base.Repr()
      ensures Valid()
      ensures State() == TakeIn(base.cfg, old(State()))
    {
      ghost var goal := TakeIn(base.cfg, State());
      while !preemptionThisStep && kvmetaQueue != []
        invariant Valid()
        invariant Unowned(kvmetaQueue, base.blocks.Counts())
        invariant TakeIn(base.cfg, State()) == goal
        decreases |kvmetaQueue|
      {
        var id := kvmetaQueue[0];
        UnownedTail(kvmetaQueue, base.blocks.Counts(), base.View(id).Need(base.cfg.size));
        var can := AllocateForKvCache(id);
        if !can {
          break;
        }
        kvmetaQueue := kvmetaQueue[1..];
        pendingKvTransfer := pendingKvTransfer + [id];
      }
    }

    method Schedule() returns (victims: seq<Id>, slots: seq<Id>)
      requires Valid()
      requires CanSchedule(base.cfg, State())
      modifies this, base.Repr()
      ensures Valid()
      ensures var r := Reserved(base.cfg, Drained(old(State())));
              && State() == Scheduled(base.cfg, old(State()))
              && victims == r.victims && slots == r.slots
    {
      DrainPendingDecode();
      victims, slots := ReserveDecodes();
      BringBackOne();
      TakeInNew();
    }

    // The batch runs, the flag comes down, and finished sequences give their blocks back.
    method ExecuteBatch(victims: seq<Id>, slots: seq<Id>, samples: map<Id, Sample>)
      requires Valid()
      requires SequenceManager.Accepts(base.seqs, victims, slots, map[], false)
      requires forall id :: id in slots ==> id !in victims && base.seqs[id].promptDone
      modifies this, base.Repr()
      ensures Valid()
      ensures State() == Execute(old(State()), victims, slots, samples)
    {
      SequenceManager.SwapBatchExecutes(base.seqs, victims, slots, map[], samples);
      base.seqs := SequenceManager.RunBatch(base.seqs, victims, slots, map[], samples, false);
      preemptionThisStep := false;
      finished := finished + Within(base.running, EngineCore.FinishedOf(base.running, base.seqs));
      base.FreeFinishedSeqs();
    }

    // Schedules, and leaves a batch every token of which has a slot of its own.
    method Prepare() returns (victims: seq<Id>, slots: seq<Id>)
      requires Valid()
      requires CanSchedule(base.cfg, State()) && BatchRuns(base.cfg, State())
      modifies this, base.Repr()
      ensures Valid()
      ensures var r := Reserved(base.cfg, Drained(old(State())));
              && State() == Scheduled(base.cfg, old(State()))
              && victims == r.victims && slots == r.slots
      ensures BatchAccepted(base.seqs, Reserved(base.cfg, Drained(old(State()))))
      ensures Isolated(base.blocks.blockTables, base.cfg.size, slots, base.seqs)
    {
      victims, slots := Schedule();
      FullTablesAreIsolated(base.blocks.allocator.freeBlocks, base.blocks.blockTables, base.cfg.numBlocks,
                            base.cfg.size, slots, base.seqs);
    }

    method Advance(samples: map<Id, Sample>)
      requires Valid()
      requires CanSchedule(base.cfg, State()) && BatchRuns(base.cfg, State())
      modifies this, base.Repr()
      ensures Valid()
      ensures State() == DecodeInstance.Step(base.cfg, old(State()), samples)
    {
      var victims, slots := Prepare();
      if slots != [] {
        ExecuteBatch(victims, slots, samples);
      }
    }

    /** One step of the engine, against the state machine of module DecodeInstance. */
    method Step(samples: map<Id, Sample>)
      requires Valid()
      requires Inv(base.cfg, State())
      modifies this, base.Repr()
      ensures Valid()
      ensures State() == DecodeInstance.Step(base.cfg, old(State()), samples)
    {
      InvSteps(base.cfg, State(), samples);
      Advance(samples);
    }
  }

  lemma InvSteps(cfg: EngineCore.Config, s: State, samples: map<Id, Sample>)
    requires Inv(cfg, s)
    ensures CanSchedule(cfg, s) && BatchRuns(cfg, s)
    ensures Inv(cfg, DecodeInstance.Step(cfg, s, samples))
  {
    StepKeeps(cfg, s, samples);
    InvCanSchedule(cfg, s);
    InvBatchRuns(cfg, s);
  }

  // Queued sequences without a table, each once.
  ghost predicate Unowned(ids: seq<Id>, p: Pool) {
    && Distinct(ids)
    && forall id :: id in ids ==> id !in p.held
  }

  lemma UnownedTail(ids: seq<Id>, p: Pool, n: nat)
    requires ids != [] && Unowned(ids, p)
    ensures n <= p.free ==> Unowned(ids[1..], p.Allocate(ids[0], n))
    ensures ids[0] !in p.held
  {
    DistinctTail(ids);
  }

  // What the loops of a schedule call rely on.
  ghost predicate CanSchedule(cfg: EngineCore.Config, s: State)
    requires cfg.Valid()
  {
    var d := Drained(s);
    var r := Reserved(cfg, d);
    var a := AfterDecodes(d, r);
    && Preemptable(Start(d.running, d.pool), d.seqs)
    && r.partials == []
    && (a.preempted != [] ==> a.preempted[0] !in a.pool.held)
    && Unowned(a.meta, BringBack(cfg, a).pool)
  }

  ghost predicate BatchRuns(cfg: EngineCore.Config, s: State)
    requires cfg.Valid()
  {
    var r := Reserved(cfg, Drained(s));
    var t := Scheduled(cfg, s);
    BatchAccepted(t.seqs, r) && FullTables(cfg, t, r.slots)
  }

  ghost predicate FullTables(cfg: EngineCore.Config, t: State, slots: seq<Id>)
    requires cfg.Valid()
  {
    forall id :: id in slots ==> id in t.pool.held && t.pool.held[id] == Look(t.seqs, id).Need(cfg.size)
  }

  lemma SlotsAreFull(cfg: EngineCore.Config, s: State)
    requires Inv(cfg, s)
    ensures FullTables(cfg, Scheduled(cfg, s), Reserved(cfg, Drained(s)).slots)
  {
    var t := Scheduled(cfg, s);
    SlotsSurvive(cfg, s);
    ScheduleKeeps(cfg, s);
    OwnsMeans(t.pool, t.Owners(), cfg.numBlocks);
    forall id | id in t.running ensures id in t.pool.held {
      RunningIsLive(t, id);
    }
  }

  lemma MetaUnowned(cfg: EngineCore.Config, s: State)
    requires Inv(cfg, s)
    ensures Unowned(s.meta, s.pool)
    ensures forall id :: id in s.preempted ==> id !in s.pool.held
  {
    OwnsMeans(s.pool, s.Owners(), cfg.numBlocks);
    forall id ensures multiset(s.meta)[id] <= 1
              ensures id in s.meta || id in s.preempted ==> id !in s.Owners() {
      assert s.Everywhere()[id] <= 1;
      assert id in s.meta <==> id in multiset(s.meta);
      assert id in s.preempted <==> id in multiset(s.preempted);
      assert id in s.Owners() <==> id in multiset(s.Owners());
    }
  }

  lemma RunningOnce(cfg: EngineCore.Config, s: State)
    requires Inv(cfg, s)
    ensures Preemptable(Start(s.running, s.pool), s.seqs)
  {
    OwnsMeans(s.pool, s.Owners(), cfg.numBlocks);
    forall id ensures multiset(s.running)[id] <= 1 {
      assert multiset(s.Owners())[id] <= 1;
      assert multiset(s.Owners()) == multiset(s.Elsewhere()) + multiset(s.running);
    }
    forall id | id in s.running ensures id in s.pool.held && Look(s.seqs, id).status.Executing() {
      RunningIsLive(s, id);
    }
  }

  lemma InvCanSchedule(cfg: EngineCore.Config, s: State)
    requires Inv(cfg, s)
    ensures CanSchedule(cfg, s)
  {
    var d := Drained(s);
    var r := Reserved(cfg, d);
    var a := AfterDecodes(d, r);
    DrainKeeps(cfg, s);
    RunningOnce(cfg, d);
    ReservedIsOk(cfg, d);
    DecodesKeep(cfg, d, r);
    MetaUnowned(cfg, a);
    BringBackKeeps(cfg, a);
    MetaUnowned(cfg, BringBack(cfg, a));
  }

  lemma InvBatchRuns(cfg: EngineCore.Config, s: State)
    requires Inv(cfg, s)
    ensures BatchRuns(cfg, s)
  {
    DrainKeeps(cfg, s);
    DrainedBatch(cfg, Drained(s));
    SlotsSurvive(cfg, s);
    SlotsAreFull(cfg, s);
  }

  ghost predicate BatchAccepted(seqs: SeqMap, r: Reservation) {
    && SequenceManager.Accepts(seqs, r.victims, r.slots, map[], false)
    && forall id :: id in r.slots ==> id !in r.victims && seqs[id].promptDone
  }

  lemma DrainedBatch(cfg: EngineCore.Config, d: State)
    requires Inv(cfg, d)
    ensures BatchAccepted(d.seqs, Reserved(cfg, d))
  {
    var r := Reserved(cfg, d);
    ReservedIsOk(cfg, d);
    RunningOnce(cfg, d);
    ReservedDistinct(d, r, cfg);
    forall id | id in r.slots || id in r.victims
      ensures Entry(d.seqs, id) && (id in r.slots ==> id !in r.victims)
    {
      BatchMember(cfg, d, r, id);
    }
    EntriesAccepted(d.seqs, r);
  }

  ghost predicate Entry(seqs: SeqMap, id: Id) {
    id in seqs && seqs[id].status.PAUSED? && seqs[id].promptDone
  }

  lemma EntriesAccepted(seqs: SeqMap, r: Reservation)
    requires Distinct(r.slots) && Distinct(r.victims)
    requires forall id :: id in r.slots || id in r.victims ==> Entry(seqs, id) && (id in r.slots ==> id !in r.victims)
    ensures BatchAccepted(seqs, r)
  {}

  lemma BatchMember(cfg: EngineCore.Config, d: State, r: Reservation, id: Id)
    requires Inv(cfg, d)
    requires ReservedOk(cfg, d, r)
    requires id in r.slots || id in r.victims
    ensures Entry(d.seqs, id)
    ensures id in r.slots ==> id !in r.victims
  {
    SplitMembers(d, r, id);
    RunningIsLive(d, id);
    if id in r.slots { KeptOnce(cfg, d, r, id); }
  }

  lemma SplitMembers(s: State, r: Reservation, id: Id)
    requires multiset(r.kept) + multiset(r.victims) == multiset(s.running)
    requires id in r.kept || id in r.victims
    ensures id in s.running
  {
    assert id in multiset(r.kept) || id in multiset(r.victims);
    assert id in multiset(s.running);
  }

  lemma ReservedDistinct(s: State, r: Reservation, cfg: EngineCore.Config)
    requires cfg.Valid()
    requires Distinct(s.running)
    requires ReservedOk(cfg, s, r)
    requires r == Reserved(cfg, s)
    ensures Distinct(r.slots) && Distinct(r.victims)
  {
    forall id ensures multiset(r.victims)[id] <= 1 && multiset(r.kept)[id] <= 1 {
      assert multiset(s.running)[id] <= 1;
    }
    SlotsSubKept(Start(ByArrival(s.running, s.seqs), s.pool), s.seqs, BySlots(cfg.maxSeqs), cfg.size);
    forall id ensures multiset(r.slots)[id] <= 1 {
      assert multiset(r.slots)[id] <= multiset(r.kept)[id];
    }
  }

  lemma {:induction false} SlotsSubKept(r: Reservation, seqs: SeqMap, cap: Cap, size: nat)
    requires size > 0
    requires multiset(r.slots) <= multiset(r.kept)
    ensures var e := Run(r, seqs, cap, size); multiset(e.slots) <= multiset(e.kept)
    decreases |r.queue|
  {
    if r.queue != [] {
      var n := Next(r, seqs, cap, size);
      assert multiset(n.slots) <= multiset(n.kept);
      SlotsSubKept(n, seqs, cap, size);
    }
  }
}
