/** How far the admission loop of the vLLM and high-priority schedulers gets, told from the list it
    goes through: it takes or ignores the front of the list and leaves the rest. */
module AdmissionFront {
  import opened Lists
  import opened Sequences
  import opened EngineCore
  import opened PrefillFirst

  // The prompts within the limit, and the others.
  function Fitting(cfg: Config, ids: seq<Id>, seqs: SeqMap): seq<Id> {
    if ids == [] then []
    else (if TooLong(cfg, Look(seqs, ids[0])) then [] else [ids[0]]) + Fitting(cfg, ids[1..], seqs)
  }

  function Overlong(cfg: Config, ids: seq<Id>, seqs: SeqMap): seq<Id> {
    if ids == [] then []
    else (if TooLong(cfg, Look(seqs, ids[0])) then [ids[0]] else []) + Overlong(cfg, ids[1..], seqs)
  }

  // The loop gets past the k-th: it is over-long, or fits behind all the fitting ones before it,
  // within the watermark, the tokens of a batch and the width of the running list.
  predicate GetsPast(kind: Kind, cfg: Config, e: Engine, order: seq<Id>, k: nat)
    requires cfg.Valid() && k < |order|
  {
    var v := Look(e.seqs, order[k]);
    var before := Fitting(cfg, order[..k], e.seqs);
    var free := e.pool.free - NeedSum(before, e.seqs, cfg.size);
    TooLong(cfg, v) ||
    (&& free - v.Need(cfg.size) >= cfg.watermark
     && LenSum(before, e.seqs) + v.Len() <= cfg.maxBatched
     && (|e.running| + |before| + 1 <= cfg.maxSeqs
         || (kind.HighPriority? && !kind.enforce && free * 20 >= cfg.numBlocks)))
  }

  // The first at or behind the k-th that it does not get past.
  function FrontFrom(kind: Kind, cfg: Config, e: Engine, order: seq<Id>, k: nat): (n: nat)
    requires cfg.Valid() && k <= |order|
    ensures k <= n <= |order|
    ensures forall i: nat :: k <= i < n ==> GetsPast(kind, cfg, e, order, i)
    ensures n < |order| ==> !GetsPast(kind, cfg, e, order, n)
    decreases |order| - k
  {
    if k < |order| && GetsPast(kind, cfg, e, order, k) then FrontFrom(kind, cfg, e, order, k + 1) else k
  }

  // The length of the front, and what the step does with its waiting list.
  function Front(kind: Kind, cfg: Config, e: Engine, order: seq<Id>): (n: nat)
    requires cfg.Valid()
    ensures n <= |order|
    ensures forall i: nat :: i < n ==> GetsPast(kind, cfg, e, order, i)
    ensures n < |order| ==> !GetsPast(kind, cfg, e, order, n)
  {
    FrontFrom(kind, cfg, e, order, 0)
  }

  lemma {:induction false} FittingSnoc(cfg: Config, ids: seq<Id>, x: Id, seqs: SeqMap)
    ensures Fitting(cfg, ids + [x], seqs) == Fitting(cfg, ids, seqs) + (if TooLong(cfg, Look(seqs, x)) then [] else [x])
  {
    if ids == [] {
      assert [] + [x] == [x] && [x][1..] == [];
    } else {
      assert (ids + [x])[1..] == ids[1..] + [x];
      FittingSnoc(cfg, ids[1..], x, seqs);
    }
  }

  lemma {:induction false} OverlongSnoc(cfg: Config, ids: seq<Id>, x: Id, seqs: SeqMap)
    ensures Overlong(cfg, ids + [x], seqs) == Overlong(cfg, ids, seqs) + (if TooLong(cfg, Look(seqs, x)) then [x] else [])
  {
    if ids == [] {
      assert [] + [x] == [x] && [x][1..] == [];
    } else {
      assert (ids + [x])[1..] == ids[1..] + [x];
      OverlongSnoc(cfg, ids[1..], x, seqs);
    }
  }

  lemma {:induction false} Parts(cfg: Config, ids: seq<Id>, seqs: SeqMap)
    ensures forall x :: x in Fitting(cfg, ids, seqs) <==> x in ids && !TooLong(cfg, Look(seqs, x))
    ensures forall x :: x in Overlong(cfg, ids, seqs) <==> x in ids && TooLong(cfg, Look(seqs, x))
    ensures |Fitting(cfg, ids, seqs)| + |Overlong(cfg, ids, seqs)| == |ids|
  {
    if ids != [] {
      Parts(cfg, ids[1..], seqs);
      assert ids == [ids[0]] + ids[1..];
    }
  }

  // The loop has dealt with the first k of the list.
  ghost predicate DealtWith(cfg: Config, e: Engine, order: seq<Id>, k: nat, a: Admission)
    requires cfg.Valid()
  {
    && k <= |order|
    && var before := Fitting(cfg, order[..k], e.seqs);
       && a.waiting == order[k..]
       && a.running == e.running + before
       && a.pool.free == e.pool.free - NeedSum(before, e.seqs, cfg.size)
       && a.tokens == LenSum(before, e.seqs)
       && a.admitted == before
       && a.ignored == Overlong(cfg, order[..k], e.seqs)
  }

  lemma StopsExactly(kind: Kind, cfg: Config, e: Engine, order: seq<Id>, k: nat, a: Admission)
    requires cfg.Valid()
    requires DealtWith(cfg, e, order, k, a) && k < |order|
    ensures Stops(kind, cfg, a, e.seqs) <==> !GetsPast(kind, cfg, e, order, k)
  {
    assert a.waiting[0] == order[k];
  }

  lemma OneMore(kind: Kind, cfg: Config, e: Engine, order: seq<Id>, k: nat, a: Admission)
    requires cfg.Valid()
    requires DealtWith(cfg, e, order, k, a) && k < |order|
    requires !Stops(kind, cfg, a, e.seqs)
    ensures DealtWith(cfg, e, order, k + 1, AdmitNext(kind, cfg, a, e.seqs))
  {
    var id := order[k];
    var before := Fitting(cfg, order[..k], e.seqs);
    assert a.waiting[0] == id && a.waiting[1..] == order[k + 1..];
    assert order[..k + 1] == order[..k] + [id];
    FittingSnoc(cfg, order[..k], id, e.seqs);
    OverlongSnoc(cfg, order[..k], id, e.seqs);
    if !TooLong(cfg, Look(e.seqs, id)) {
      NeedSumSnoc(before, id, e.seqs, cfg.size);
      LenSumSnoc(before, id, e.seqs);
      Regroup(e.running, before, [id]);
    } else {
      NoTail(before);
    }
  }

  lemma {:induction false} LoopTakesFront(kind: Kind, cfg: Config, e: Engine, order: seq<Id>, k: nat, a: Admission)
    requires cfg.Valid()
    requires DealtWith(cfg, e, order, k, a)
    ensures DealtWith(cfg, e, order, FrontFrom(kind, cfg, e, order, k), Admit(kind, cfg, a, e.seqs))
    decreases |order| - k
  {
    if k < |order| {
      StopsExactly(kind, cfg, e, order, k, a);
      if !Stops(kind, cfg, a, e.seqs) {
        OneMore(kind, cfg, e, order, k, a);
        LoopTakesFront(kind, cfg, e, order, k + 1, AdmitNext(kind, cfg, a, e.seqs));
      }
    }
  }

  /** The loop in closed form: of the front it admits the prompts within the limit and ignores the
      others, both in order; the rest stays waiting. */
  lemma AdmitTakesFront(kind: Kind, cfg: Config, e: Engine, order: seq<Id>)
    requires cfg.Valid()
    ensures DealtWith(cfg, e, order, Front(kind, cfg, e, order), Admit(kind, cfg, StartAdmission(e, order), e.seqs))
  {
    NoTail(e.running);
    assert order[..0] == [] && order[0..] == order;
    LoopTakesFront(kind, cfg, e, order, 0, StartAdmission(e, order));
  }
}
