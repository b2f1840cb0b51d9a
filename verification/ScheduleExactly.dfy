/** The schedule call of the vLLM and high-priority engines in closed form: whom it admits, and
    when it admits nobody, whom it decodes and whom it preempts. */
module ScheduleExactly {
  import opened Lists
  import opened Sequences
  import opened BlockPool
  import opened Reserve
  import opened ReserveExactly
  import opened EngineCore
  import opened DecodePhase
  import opened Deadline
  import opened PrefillFirst
  import opened AdmissionFront

  // The running list, oldest first, and how many of it the decode loop keeps.
  function Oldest(e: Engine): seq<Id> { ByArrival(e.running, e.seqs) }

  function Decoded(cfg: Config, e: Engine, cap: Cap): (m: nat)
    requires cfg.Valid()
    ensures m <= |Oldest(e)|
  {
    Most(Oldest(e), |Oldest(e)|, e.seqs, e.pool, cap, cfg.size)
  }

  lemma RunningIsProper(cfg: Config, e: Engine, cap: Cap)
    requires Inv(cfg, e) && NoPartials(e)
    ensures ReserveExactly.Proper(Oldest(e), e.seqs, e.pool, cap) && AllDecoding(Oldest(e), e.seqs)
  {
    OwnsMeans(e.pool, e.running, cfg.numBlocks);
    SortedIsProper(e.running, e.seqs, e.pool, cap);
  }

  /** The decode phase keeps the most it can, oldest first, and preempts the rest, youngest first. */
  lemma DecodesMost(cfg: Config, e: Engine, cap: Cap)
    requires Inv(cfg, e) && NoPartials(e)
    requires cap.NoCap? || |e.running| <= cap.n
    ensures var q, m, r := Oldest(e), Decoded(cfg, e, cap), Decode(cfg, e, cap);
            r.kept == q[..m] && r.slots == q[..m] && r.victims == Reverse(q[m..]) && r.partials == []
  {
    RunningIsProper(cfg, e, cap);
    DecodingKeepsMost(Oldest(e), e.seqs, e.pool, cap, cfg.size);
    assert |Oldest(e)| == |multiset(Oldest(e))| == |multiset(e.running)| == |e.running|;
  }

  /** It preempts nobody if and only if for everyone running the free blocks are more than the
      tables that are short among those who arrived before. */
  lemma DecodePreemptsNobodyExactly(cfg: Config, e: Engine, cap: Cap)
    requires Inv(cfg, e) && NoPartials(e)
    ensures Decode(cfg, e, cap).victims == []
            <==> forall i: nat :: i < |Oldest(e)| && Asks(Oldest(e), i, e.seqs, cap) ==>
                   e.pool.free > Claims(Oldest(e), i, e.seqs, e.pool, cap, cfg.size)
  {
    RunningIsProper(cfg, e, cap);
    PreemptsNobodyExactly(Oldest(e), e.seqs, e.pool, cap, cfg.size);
  }

  /** The plan: the front of the waiting order where there is one, and otherwise the decodes. */
  lemma PlanInClosedForm(kind: Kind, cfg: Config, e: Engine, clock: Clock)
    requires Inv(cfg, e) && NoPartials(e)
    ensures var order := WaitingOrder(kind, e.waiting, e.seqs, clock);
            var n, q, m := Front(kind, cfg, e, order), Oldest(e), Decoded(cfg, e, NoCap);
            var p := PrefillFirst.Schedule(kind, cfg, e, clock);
            if n > 0 then
              && p.scheduled == Fitting(cfg, order[..n], e.seqs) && p.ignored == Overlong(cfg, order[..n], e.seqs)
              && p.victims == []
              && p.engine.waiting == order[n..] && p.engine.running == e.running + p.scheduled
            else
              && p.scheduled == q[..m] && p.ignored == []
              && p.victims == Reverse(q[m..])
              && p.engine.waiting == order + p.victims && p.engine.running == q[..m]
  {
    var order := WaitingOrder(kind, e.waiting, e.seqs, clock);
    var n := Front(kind, cfg, e, order);
    AdmitTakesFront(kind, cfg, e, order);
    Parts(cfg, order[..n], e.seqs);
    if n == 0 { DecodesMost(cfg, e, NoCap); }
  }
}
