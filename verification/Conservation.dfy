/** No request is lost or copied, and none is finished and still queued: what leaves the queues
    of an engine has been aborted, ignored, promoted or has finished. Admission is fair. */
module Conservation {
  import opened Lists
  import opened Sequences
  import opened Reserve
  import opened EngineCore
  import opened DecodePhase
  import opened Deadline
  import opened PrefillFirst
  import opened AdmissionFront
  import opened Termination

  // Who leaves the queues in one step.
  function Leavers(kind: Kind, cfg: Config, e: Engine, input: Input): seq<Id>
    requires cfg.Valid()
  {
    var p := Schedule(kind, cfg, Abort(e, input.aborts), input.clock);
    var f := Step(kind, cfg, e, input);
    Within(e.waiting, input.aborts) + p.ignored + Within(p.engine.running, FinishedOf(p.engine.running, f.seqs))
  }

  // Every sequence the engine has seen is queued or has finished.
  ghost predicate Accounted(e: Engine) {
    forall id :: id in e.seqs && !e.seqs[id].status.Finished() ==> id in e.waiting + e.running
  }

  ghost predicate Untouched(e: Engine, f: Engine, id: Id) {
    Look(f.seqs, id) == Look(e.seqs, id)
  }

  lemma AbortMoves(e: Engine, aborts: set<Id>)
    ensures var b := Abort(e, aborts);
            && b.running == e.running
            && multiset(e.waiting) == multiset(b.waiting) + multiset(Within(e.waiting, aborts))
            && (forall id :: id !in e.waiting ==> Untouched(e, b, id))
            && (forall id :: id in Within(e.waiting, aborts) && id in e.seqs ==> b.seqs[id].status == FINISHED_ABORTED)
  {
    WithoutWithin(e.waiting, aborts);
  }

  // Scheduling moves the unfinished sequences among the queues and the ignored list.
  ghost predicate Moved(e: Engine, p: PrefillFirst.Plan) {
    && multiset(e.waiting) + multiset(e.running) == multiset(p.engine.waiting) + multiset(p.engine.running) + multiset(p.ignored)
    && (forall id :: id in p.ignored ==> id in e.waiting && Look(p.engine.seqs, id).status == FINISHED_IGNORED)
    && (forall id :: id !in e.waiting ==> Untouched(e, p.engine, id))
    && (forall id :: id in p.victims || id in p.scheduled ==> id in p.engine.waiting + p.engine.running)
    && p.engine.seqs.Keys == e.seqs.Keys
  }

  lemma AdmissionMoves(cfg: Config, e: Engine, a: Admission)
    requires Inv(cfg, e)
    requires Admitting(cfg, e, a)
    ensures Moved(e, AdmissionPlan(e, a))
  {
    AdmittingMembers(cfg, e, a);
    var p := AdmissionPlan(e, a);
    forall id | id in p.ignored ensures id in e.waiting && Look(p.engine.seqs, id).status == FINISHED_IGNORED {}
  }

  lemma DecodeMovesAll(cfg: Config, e: Engine, order: seq<Id>)
    requires Inv(cfg, e) && NoPartials(e)
    requires multiset(order) == multiset(e.waiting)
    ensures var r := Decode(cfg, e, NoCap);
            Moved(e, Plan(AfterDecode(e.(waiting := order), r), r.victims, r.slots, []))
  {
    var f := e.(waiting := order);
    var r := Decode(cfg, e, NoCap);
    ReorderKeepsInv(cfg, e, order);
    DecodeOwns(cfg, f, NoCap);
    DecodedMoves(e, order, r);
  }

  lemma DecodedMoves(e: Engine, order: seq<Id>, r: Reservation)
    requires multiset(order) == multiset(e.waiting)
    requires r.slots == r.kept
    requires multiset(r.kept) + multiset(r.victims) == multiset(e.running)
    ensures Moved(e, Plan(AfterDecode(e.(waiting := order), r), r.victims, r.slots, []))
  {
    assert multiset(order + r.victims) == multiset(order) + multiset(r.victims);
  }

  lemma ScheduleMoves(kind: Kind, cfg: Config, e: Engine, clock: Clock)
    requires Inv(cfg, e) && NoPartials(e)
    ensures Moved(e, Schedule(kind, cfg, e, clock))
  {
    var order := WaitingOrder(kind, e.waiting, e.seqs, clock);
    WaitingOrderPermutes(kind, e.waiting, e.seqs, clock);
    AdmissionOutcome(kind, cfg, e, order);
    var a := Admit(kind, cfg, StartAdmission(e, order), e.seqs);
    if a.admitted == [] && a.ignored == [] {
      DecodeMovesAll(cfg, e, order);
    } else {
      AdmissionMoves(cfg, e, a);
    }
  }

  // Execution touches the batch and the preempted only, and what it finishes leaves.
  ghost predicate Executed(p: PrefillFirst.Plan, f: Engine) {
    && f.waiting == p.engine.waiting
    && multiset(p.engine.running) == multiset(f.running) + multiset(Within(p.engine.running, FinishedOf(p.engine.running, f.seqs)))
    && (forall id :: id in Within(p.engine.running, FinishedOf(p.engine.running, f.seqs)) ==> Look(f.seqs, id).status.Finished())
    && (forall id :: id !in p.engine.waiting + p.engine.running ==> Untouched(p.engine, f, id))
    && f.seqs.Keys == p.engine.seqs.Keys
  }

  lemma DispatchMoves(p: PrefillFirst.Plan, samples: map<Id, Sample>)
    requires forall id :: id in p.victims || id in p.scheduled ==> id in p.engine.waiting + p.engine.running
    requires forall id :: id in p.engine.running ==> !Look(p.engine.seqs, id).status.Finished()
    ensures Executed(p, Dispatch(p, samples))
  {
    var f := Dispatch(p, samples);
    WithoutWithin(p.engine.running, FinishedOf(p.engine.running, f.seqs));
    if p.scheduled == [] {
      WithoutNone(f.running, FinishedOf(f.running, f.seqs));
    } else {
      CompleteConserves(p.engine, p.victims, p.scheduled, DefaultChunks(p.scheduled, p.engine.seqs), samples);
    }
  }

  lemma ScheduledUnfinished(kind: Kind, cfg: Config, e: Engine, clock: Clock)
    requires Inv(cfg, e) && NoPartials(e)
    ensures var p := Schedule(kind, cfg, e, clock);
            forall id :: id in p.engine.running ==> !Look(p.engine.seqs, id).status.Finished()
  {
    ScheduledRunning(kind, cfg, e, clock);
  }

  // The three parts of a step.
  lemma StepParts(kind: Kind, cfg: Config, e: Engine, input: Input)
    requires Inv(cfg, e) && NoPartials(e)
    ensures var b := Abort(e, input.aborts);
            var p := Schedule(kind, cfg, b, input.clock);
            && Inv(cfg, b) && Moved(b, p)
            && Executed(p, Step(kind, cfg, e, input))
  {
    var b := Abort(e, input.aborts);
    AbortKeepsInv(cfg, e, input.aborts);
    ScheduleMoves(kind, cfg, b, input.clock);
    ScheduledUnfinished(kind, cfg, b, input.clock);
    DispatchMoves(Schedule(kind, cfg, b, input.clock), input.samples);
  }

  lemma SumParts(e: Engine, b: Engine, p: PrefillFirst.Plan, f: Engine, dropped: seq<Id>, ended: seq<Id>)
    requires b.running == e.running
    requires multiset(e.waiting) == multiset(b.waiting) + multiset(dropped)
    requires Moved(b, p)
    requires f.waiting == p.engine.waiting
    requires multiset(p.engine.running) == multiset(f.running) + multiset(ended)
    ensures multiset(e.waiting) + multiset(e.running)
            == multiset(f.waiting) + multiset(f.running) + multiset(dropped + p.ignored + ended)
  {
    assert multiset(dropped + p.ignored + ended) == multiset(dropped) + multiset(p.ignored) + multiset(ended);
    forall x ensures multiset(e.waiting)[x] + multiset(e.running)[x]
                     == multiset(f.waiting)[x] + multiset(f.running)[x] + multiset(dropped + p.ignored + ended)[x] {
      assert (multiset(b.waiting) + multiset(b.running))[x]
             == (multiset(p.engine.waiting) + multiset(p.engine.running) + multiset(p.ignored))[x];
    }
  }

  /** Conservation: the queues of one step are those of the next and the leavers, each sequence
      once; every leaver has a finished status, and nobody who stays has one. */
  lemma StepConserves(kind: Kind, cfg: Config, e: Engine, input: Input)
    requires Inv(cfg, e) && NoPartials(e)
    ensures var f := Step(kind, cfg, e, input);
            var out := Leavers(kind, cfg, e, input);
            && multiset(e.waiting) + multiset(e.running) == multiset(f.waiting) + multiset(f.running) + multiset(out)
            && (forall id :: id in out ==> Look(f.seqs, id).status.Finished())
            && (forall id :: id in f.waiting + f.running ==> !Look(f.seqs, id).status.Finished())
  {
    var b := Abort(e, input.aborts);
    var p := Schedule(kind, cfg, b, input.clock);
    var f := Step(kind, cfg, e, input);
    AbortMoves(e, input.aborts);
    StepParts(kind, cfg, e, input);
    StepKeepsInv(kind, cfg, e, input);
    SumParts(e, b, p, f, Within(e.waiting, input.aborts), Within(p.engine.running, FinishedOf(p.engine.running, f.seqs)));
    forall id | id in Leavers(kind, cfg, e, input) ensures Look(f.seqs, id).status.Finished() {
      LeaverFinished(kind, cfg, e, input, id);
    }
  }

  lemma LeaverFinished(kind: Kind, cfg: Config, e: Engine, input: Input, id: Id)
    requires Inv(cfg, e) && NoPartials(e)
    requires id in Leavers(kind, cfg, e, input)
    ensures Look(Step(kind, cfg, e, input).seqs, id).status.Finished()
  {
    var b := Abort(e, input.aborts);
    var p := Schedule(kind, cfg, b, input.clock);
    var f := Step(kind, cfg, e, input);
    AbortMoves(e, input.aborts);
    StepParts(kind, cfg, e, input);
    WithoutWithin(e.waiting, input.aborts);
    DistinctSum(e.waiting, e.running);
    if id in Within(e.waiting, input.aborts) {
      assert id !in b.waiting && id !in b.running;
      GoneStaysGone(b, p, id);
      assert Untouched(b, p.engine, id) && Untouched(p.engine, f, id);
    } else if id in p.ignored {
      IgnoredGone(cfg, b, p, id);
      assert Untouched(p.engine, f, id);
    }
  }

  lemma GoneStaysGone(b: Engine, p: PrefillFirst.Plan, id: Id)
    requires multiset(b.waiting) + multiset(b.running) == multiset(p.engine.waiting) + multiset(p.engine.running) + multiset(p.ignored)
    requires id !in b.waiting && id !in b.running
    ensures id !in p.engine.waiting + p.engine.running
  {
    assert id !in multiset(b.waiting) + multiset(b.running);
    assert id !in multiset(p.engine.waiting) && id !in multiset(p.engine.running);
  }

  lemma IgnoredGone(cfg: Config, b: Engine, p: PrefillFirst.Plan, id: Id)
    requires Inv(cfg, b)
    requires multiset(b.waiting) + multiset(b.running) == multiset(p.engine.waiting) + multiset(p.engine.running) + multiset(p.ignored)
    requires id in p.ignored
    ensures id !in p.engine.waiting + p.engine.running
  {
    assert multiset(b.waiting + b.running)[id] <= 1;
    assert id in multiset(p.ignored);
    assert id !in multiset(p.engine.waiting) && id !in multiset(p.engine.running);
  }

  lemma StepKeepsAccounted(kind: Kind, cfg: Config, e: Engine, input: Input)
    requires Inv(cfg, e) && NoPartials(e) && Accounted(e)
    ensures Accounted(Step(kind, cfg, e, input))
  {
    var f := Step(kind, cfg, e, input);
    forall id | id in f.seqs && !f.seqs[id].status.Finished() ensures id in f.waiting + f.running {
      if id in e.waiting + e.running {
        StaysOrLeaves(kind, cfg, e, input, id);
      } else {
        OutsideUntouched(kind, cfg, e, input, id);
      }
    }
  }

  lemma StaysOrLeaves(kind: Kind, cfg: Config, e: Engine, input: Input, id: Id)
    requires Inv(cfg, e) && NoPartials(e)
    requires id in e.waiting + e.running
    ensures var f := Step(kind, cfg, e, input);
            id in f.waiting + f.running || Look(f.seqs, id).status.Finished()
  {
    var f := Step(kind, cfg, e, input);
    var out := Leavers(kind, cfg, e, input);
    StepConserves(kind, cfg, e, input);
    assert id in multiset(e.waiting) + multiset(e.running);
    assert id in multiset(f.waiting) || id in multiset(f.running) || id in multiset(out);
  }

  // Sequences outside the queues are left alone.
  lemma OutsideUntouched(kind: Kind, cfg: Config, e: Engine, input: Input, id: Id)
    requires Inv(cfg, e) && NoPartials(e)
    requires id !in e.waiting + e.running
    ensures Untouched(e, Step(kind, cfg, e, input), id)
    ensures id in Step(kind, cfg, e, input).seqs <==> id in e.seqs
  {
    var b := Abort(e, input.aborts);
    var p := Schedule(kind, cfg, b, input.clock);
    AbortMoves(e, input.aborts);
    WithoutWithin(e.waiting, input.aborts);
    StepParts(kind, cfg, e, input);
    GoneStaysGone(b, p, id);
  }

  /** Every request of a run without new arrivals gets a finished status, after at most as many
      steps as the rank of the state it starts from. */
  lemma {:induction false} EveryRequestFinishes(kind: Kind, cfg: Config, e: Engine, inputs: seq<Input>, roster: seq<Id>)
    requires Inv(cfg, e) && NoPartials(e) && Admits(cfg)
    requires Roster(e, roster) && Accounted(e)
    requires |inputs| >= Rank(e, roster)
    ensures var f := RunSteps(kind, cfg, e, inputs);
            forall id :: id in f.seqs ==> f.seqs[id].status.Finished()
  {
    Drains(kind, cfg, e, inputs, roster);
    RunKeepsAccounted(kind, cfg, e, inputs);
  }

  lemma {:induction false} RunKeepsAccounted(kind: Kind, cfg: Config, e: Engine, inputs: seq<Input>)
    requires Inv(cfg, e) && NoPartials(e) && Accounted(e)
    ensures Accounted(RunSteps(kind, cfg, e, inputs))
    decreases |inputs|
  {
    if inputs != [] {
      StepKeepsInv(kind, cfg, e, inputs[0]);
      StepKeepsAccounted(kind, cfg, e, inputs[0]);
      RunKeepsAccounted(kind, cfg, Step(kind, cfg, e, inputs[0]), inputs[1..]);
    }
  }

  /** Fairness. */

  // The step takes or ignores x from the waiting list, and leaves y in it.
  predicate Passes(p: PrefillFirst.Plan, e: Engine, x: Id, y: Id) {
    && (x in p.ignored || (x in p.scheduled && x !in e.running))
    && y in p.engine.waiting && y !in e.running
  }

  /** A step passes y over for x exactly when x stands in the front of the order and y behind it. */
  lemma PassesExactly(kind: Kind, cfg: Config, e: Engine, clock: Clock, x: Id, y: Id)
    requires Inv(cfg, e) && NoPartials(e)
    ensures var order := WaitingOrder(kind, e.waiting, e.seqs, clock);
            var n := Front(kind, cfg, e, order);
            Passes(Schedule(kind, cfg, e, clock), e, x, y) <==> x in order[..n] && y in order[n..]
  {
    var order := WaitingOrder(kind, e.waiting, e.seqs, clock);
    var n := Front(kind, cfg, e, order);
    var a := Admit(kind, cfg, StartAdmission(e, order), e.seqs);
    WaitingOrderPermutes(kind, e.waiting, e.seqs, clock);
    PermutationMembers(order, e.waiting);
    DistinctSum(e.waiting, e.running);
    AdmitTakesFront(kind, cfg, e, order);
    Parts(cfg, order[..n], e.seqs);
    forall id | id in order[..n] || id in order[n..] ensures id !in e.running { assert id in order; }
    if a.admitted == [] && a.ignored == [] { DecodeTakesNobody(cfg, e, order); }
  }

  // A decode phase takes nobody out of the waiting list.
  lemma DecodeTakesNobody(cfg: Config, e: Engine, order: seq<Id>)
    requires Inv(cfg, e) && NoPartials(e)
    requires multiset(order) == multiset(e.waiting)
    ensures forall id :: id in Decode(cfg, e, NoCap).slots ==> id in e.running
  {
    ReorderKeepsInv(cfg, e, order);
    DecodeMoves(cfg, e.(waiting := order), NoCap);
    DecodeOwns(cfg, e.(waiting := order), NoCap);
  }

  // Whoever is taken or ignored stands in the order before whoever is left.
  lemma TakenStandsFirst(kind: Kind, cfg: Config, e: Engine, clock: Clock, x: Id, y: Id) returns (i: nat, j: nat)
    requires Inv(cfg, e) && NoPartials(e)
    requires Passes(Schedule(kind, cfg, e, clock), e, x, y)
    ensures var order := WaitingOrder(kind, e.waiting, e.seqs, clock);
            i < j < |order| && order[i] == x && order[j] == y
  {
    var order := WaitingOrder(kind, e.waiting, e.seqs, clock);
    var n := Front(kind, cfg, e, order);
    PassesExactly(kind, cfg, e, clock, x, y);
    i :| 0 <= i < n && order[..n][i] == x;
    var k: nat :| 0 <= k < |order| - n && order[n..][k] == y;
    j := n + k;
  }

  // No later arrival is taken or ignored while an earlier one is left waiting.
  ghost predicate FirstComeFirstServed(p: PrefillFirst.Plan, e: Engine) {
    forall x, y :: Passes(p, e, x, y) ==> Look(e.seqs, x).arrival <= Look(e.seqs, y).arrival
  }

  // Nobody in the first n of the order arrived after anybody behind them.
  ghost predicate FrontArrivedFirst(order: seq<Id>, n: nat, seqs: SeqMap) {
    forall i, j :: 0 <= i < n <= j < |order| ==> Look(seqs, order[i]).arrival <= Look(seqs, order[j]).arrival
  }

  /** Under every policy a step serves first come, first served if and only if nobody in the part
      of the order it gets through arrived after anybody behind that part. */
  lemma FirstComeFirstServedExactly(kind: Kind, cfg: Config, e: Engine, clock: Clock)
    requires Inv(cfg, e) && NoPartials(e)
    ensures var order := WaitingOrder(kind, e.waiting, e.seqs, clock);
            FirstComeFirstServed(Schedule(kind, cfg, e, clock), e)
            <==> FrontArrivedFirst(order, Front(kind, cfg, e, order), e.seqs)
  {
    var order := WaitingOrder(kind, e.waiting, e.seqs, clock);
    if FirstComeFirstServed(Schedule(kind, cfg, e, clock), e) { ServedFrontFirst(kind, cfg, e, clock); }
    if FrontArrivedFirst(order, Front(kind, cfg, e, order), e.seqs) { FrontFirstServes(kind, cfg, e, clock); }
  }

  lemma ServedFrontFirst(kind: Kind, cfg: Config, e: Engine, clock: Clock)
    requires Inv(cfg, e) && NoPartials(e)
    requires FirstComeFirstServed(Schedule(kind, cfg, e, clock), e)
    ensures var order := WaitingOrder(kind, e.waiting, e.seqs, clock);
            FrontArrivedFirst(order, Front(kind, cfg, e, order), e.seqs)
  {
    var order := WaitingOrder(kind, e.waiting, e.seqs, clock);
    var n := Front(kind, cfg, e, order);
    FrontByPairs(order, n, e.seqs);
    forall x, y | x in order[..n] && y in order[n..] ensures Look(e.seqs, x).arrival <= Look(e.seqs, y).arrival {
      PassesExactly(kind, cfg, e, clock, x, y);
    }
  }

  lemma FrontFirstServes(kind: Kind, cfg: Config, e: Engine, clock: Clock)
    requires Inv(cfg, e) && NoPartials(e)
    requires var order := WaitingOrder(kind, e.waiting, e.seqs, clock);
             FrontArrivedFirst(order, Front(kind, cfg, e, order), e.seqs)
    ensures FirstComeFirstServed(Schedule(kind, cfg, e, clock), e)
  {
    var order := WaitingOrder(kind, e.waiting, e.seqs, clock);
    var p := Schedule(kind, cfg, e, clock);
    FrontByPairs(order, Front(kind, cfg, e, order), e.seqs);
    forall x, y | Passes(p, e, x, y) ensures Look(e.seqs, x).arrival <= Look(e.seqs, y).arrival {
      PassesExactly(kind, cfg, e, clock, x, y);
    }
  }

  lemma FrontByPairs(order: seq<Id>, n: nat, seqs: SeqMap)
    requires n <= |order|
    ensures FrontArrivedFirst(order, n, seqs)
            <==> forall x, y :: x in order[..n] && y in order[n..] ==> Look(seqs, x).arrival <= Look(seqs, y).arrival
  {
    if FrontArrivedFirst(order, n, seqs) {
      forall x, y | x in order[..n] && y in order[n..] ensures Look(seqs, x).arrival <= Look(seqs, y).arrival {
        var i :| 0 <= i < n && order[..n][i] == x;
        var k :| 0 <= k < |order| - n && order[n..][k] == y;
        assert order[i] == x && order[n + k] == y;
      }
    } else {
      var i, j :| 0 <= i < n <= j < |order| && Look(seqs, order[i]).arrival > Look(seqs, order[j]).arrival;
      assert order[..n][i] == order[i] && order[n..][j - n] == order[j];
    }
  }

  /** So vLLM serves first come, first served always with the sorting policy, and without it
      whenever the list is in arrival order as it stands. */
  lemma AdmissionIsFirstComeFirstServed(fcfs: bool, cfg: Config, e: Engine, clock: Clock)
    requires Inv(cfg, e) && NoPartials(e)
    requires fcfs || InArrivalOrder(e.waiting, e.seqs)
    ensures FirstComeFirstServed(Schedule(Vllm(fcfs), cfg, e, clock), e)
  {
    ByArrivalSorts(e.waiting, e.seqs);
    FirstComeFirstServedExactly(Vllm(fcfs), cfg, e, clock);
  }

  /** And without it not always: of two requests for the one place of an idle engine the first in
      the list is taken and the other left, however late the first came. */
  lemma UnsortedServesTheFront(cfg: Config, x: Id, y: Id, vx: SeqView, vy: SeqView, clock: Clock)
    requires cfg.Valid() && cfg.maxSeqs == 1
    requires x != y && Fresh(vx) && Fresh(vy)
    requires vx.Len() <= cfg.limit && vx.Len() <= cfg.maxBatched
    requires vx.Need(cfg.size) + cfg.watermark <= cfg.numBlocks
    requires vy.Len() <= cfg.limit
    ensures var e := Arrive(Arrive(PrefillFirst.Idle(cfg), x, vx), y, vy);
            var p := Schedule(Vllm(false), cfg, e, clock);
            Passes(p, e, x, y) && (vx.arrival > vy.arrival ==> !FirstComeFirstServed(p, e))
  {
    var e := Arrive(Arrive(PrefillFirst.Idle(cfg), x, vx), y, vy);
    assert e.waiting == [x, y];
    var a := StartAdmission(e, [x, y]);
    var n := AdmitNext(Vllm(false), cfg, a, e.seqs);
    assert n.waiting == [y] && n.admitted == [x] && n.running == [x];
    assert Admit(Vllm(false), cfg, n, e.seqs) == n;
    assert Passes(Schedule(Vllm(false), cfg, e, clock), e, x, y);
  }

  /** The high-priority scheduler never takes a request and leaves one waiting whose deadline
      can still be met and is nearer. */
  lemma AdmissionIsEarliestDeadlineFirst(kind: Kind, cfg: Config, e: Engine, clock: Clock, x: Id, y: Id)
    requires kind.HighPriority?
    requires Inv(cfg, e) && NoPartials(e)
    requires Passes(Schedule(kind, cfg, e, clock), e, x, y)
    ensures var latest := (id: Id) => LatestStart(kind.ttft, clock, id, Look(e.seqs, id));
            clock.now < latest(y) ==> clock.now < latest(x) <= latest(y)
  {
    var slacks := Slacks(e.waiting, e.seqs, kind.ttft, clock);
    var order := DeadlineOrder(e.waiting, slacks);
    var i, j := TakenStandsFirst(kind, cfg, e, clock, x, y);
    WaitingOrderPermutes(kind, e.waiting, e.seqs, clock);
    PermutationMembers(order, e.waiting);
    assert x in e.waiting && y in e.waiting;
    EarlierIsTighter(e.waiting, slacks, i, j);
    SlackIsTimeLeft(kind.ttft, clock, x, Look(e.seqs, x));
    SlackIsTimeLeft(kind.ttft, clock, y, Look(e.seqs, y));
  }

  lemma EarlierIsTighter(ids: seq<Id>, slacks: map<Id, real>, i: nat, j: nat)
    requires i < j < |DeadlineOrder(ids, slacks)|
    ensures var r := DeadlineOrder(ids, slacks);
            Meetable(slacks, r[j]) ==> Meetable(slacks, r[i]) && At(slacks, r[i]) <= At(slacks, r[j])
  {
    var r := DeadlineOrder(ids, slacks);
    var late := Filter(ids, x => !Meetable(slacks, x));
    var k := |ids| - |late|;
    ReorderIsEarliestDeadlineFirst(ids, slacks);
    if Meetable(slacks, r[j]) {
      LateFollow(r, k, j);
      assert r[..k][i] == r[i] && r[..k][j] == r[j];
      assert r[i] in r[..k];
    }
  }

  lemma LateFollow(r: seq<Id>, k: nat, j: nat)
    requires k <= |r| && j < |r|
    requires r[j] !in r[k..]
    ensures j < k
  {
    forall i | k <= i < |r| ensures r[i] in r[k..] {
      assert r[k..][i - k] == r[i];
    }
  }
}
