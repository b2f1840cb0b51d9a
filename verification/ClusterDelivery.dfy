/** What is sent does arrive: the way of a request from its submission to the waiting list of an
    engine, and of a promoted sequence from one engine to the other. */
module ClusterDelivery {
  import opened Sequences
  import opened Cluster

  lemma {:induction false} RunsFollow(su: Setup, c: State, a: seq<Event>, b: seq<Event>)
    requires su.Valid() && c.lps != [] && c.hps != []
    ensures var d := RunOf(su, c, a);
            d.lps != [] && d.hps != [] && RunOf(su, c, a + b) == RunOf(su, d, b)
    decreases |a|
  {
    if a == [] {
      assert [] + b == b;
    } else {
      assert (a + b)[1..] == a[1..] + b;
      RunsFollow(su, Apply(su, c, a[0]), a[1..], b);
    }
  }

  lemma TwoEvents(su: Setup, c: State, x: Event, y: Event)
    requires su.Valid() && c.lps != [] && c.hps != []
    ensures RunOf(su, c, [x, y]) == Apply(su, Apply(su, c, x), y)
  {
    var d := Apply(su, c, x);
    assert [x, y][1..] == [y] && [y][1..] == [];
    assert RunOf(su, d, [y]) == Apply(su, d, y);
  }

  // The controller has nothing else to route.
  predicate Idle(c: State) { c.lps != [] && c.hps != [] && c.toSchedule == [] && c.highQueue == [] }

  function Low(c: State): nat
    requires c.lps != []
  {
    c.lowIdx % |c.lps|
  }

  function High(c: State): nat
    requires c.hps != []
  {
    c.highIdx % |c.hps|
  }

  /** Submitted and routed, a request is on its way to the instance whose turn it is. */
  lemma SubmittedIsSent(su: Setup, c: State, id: Id, ticket: bool)
    requires su.Valid() && Idle(c)
    ensures RunOf(su, c, [Submit(id), Route(ticket)]) ==
            if ticket then c.(hps := c.hps[High(c) := c.hps[High(c)].(mail := c.hps[High(c)].mail + [id])], highIdx := c.highIdx + 1)
            else c.(lps := c.lps[Low(c) := c.lps[Low(c)].(mail := c.lps[Low(c)].mail + [id])], lowIdx := c.lowIdx + 1)
  {
    TwoEvents(su, c, Submit(id), Route(ticket));
    assert (c.toSchedule + [id])[1..] == [];
  }

  /** Delivered and turned into a sequence, it waits in the engine; the instance had nothing else to
      turn into one. */
  lemma SentToLowWaits(su: Setup, c: State, k: nat, i: nat, view: SeqView)
    requires su.Valid() && c.lps != [] && c.hps != []
    requires k < |c.lps| && i < |c.lps[k].mail| && c.lps[k].inbox == []
    ensures var x, t := c.lps[k], RunOf(su, c, [LpDeliver(k, i), LpIngest(k, view)]);
            && t.lps[k].engine.waiting == x.engine.waiting + [x.mail[i]]
            && t.lps[k].engine.seqs == x.engine.seqs[x.mail[i] := view]
            && t.lps[k].mail == x.mail[..i] + x.mail[i + 1..] && t.lps[k].inbox == []
  {
    TwoEvents(su, c, LpDeliver(k, i), LpIngest(k, view));
    var x := c.lps[k];
    assert (x.inbox + [x.mail[i]])[0] == x.mail[i] && (x.inbox + [x.mail[i]])[1..] == [];
  }

  lemma SentToHighWaits(su: Setup, c: State, k: nat, i: nat, view: SeqView)
    requires su.Valid() && c.lps != [] && c.hps != []
    requires k < |c.hps| && i < |c.hps[k].mail| && c.hps[k].inbox == []
    ensures var x, t := c.hps[k], RunOf(su, c, [HpDeliver(k, i), HpIngest(k, view)]);
            && t.hps[k].engine.waiting == x.engine.waiting + [x.mail[i]]
            && t.hps[k].engine.seqs == x.engine.seqs[x.mail[i] := view]
            && t.hps[k].mail == x.mail[..i] + x.mail[i + 1..] && t.hps[k].inbox == []
  {
    TwoEvents(su, c, HpDeliver(k, i), HpIngest(k, view));
    var x := c.hps[k];
    assert (x.inbox + [x.mail[i]])[0] == x.mail[i] && (x.inbox + [x.mail[i]])[1..] == [];
  }

  /** A poll and its answer bring whatever an instance has to hand over to the controller, in order. */
  lemma PolledIsQueued(su: Setup, c: State, k: nat)
    requires su.Valid() && c.lps != [] && c.hps != []
    requires k < |c.lps|
    ensures RunOf(su, c, [Poll(k), Reply(k, |c.lps[k].replies|)])
            == c.(lps := c.lps[k := c.lps[k].(offload := [])], highQueue := c.highQueue + c.lps[k].offload)
  {
    var x := c.lps[k];
    TwoEvents(su, c, Poll(k), Reply(k, |x.replies|));
    PollIsPolled(su, c, k);
    ReplyIsAnswered(su, WithLp(c, k, Polled(x)), k, |x.replies|);
    PollIsAnswered(x);
    UpdatedTwice(c.lps, k, Polled(x), x.(offload := []));
  }

  lemma PollIsPolled(su: Setup, c: State, k: nat)
    requires su.Valid() && c.lps != [] && c.hps != []
    requires k < |c.lps|
    ensures Apply(su, c, Poll(k)) == WithLp(c, k, Polled(c.lps[k]))
  {}

  lemma UpdatedTwice(lps: seq<Lp>, k: nat, x: Lp, y: Lp)
    requires k < |lps|
    ensures lps[k := x][k := y] == lps[k := y] && lps[k := x][k] == x
  {}

  lemma ReplyIsAnswered(su: Setup, c: State, k: nat, i: nat)
    requires su.Valid() && c.lps != [] && c.hps != []
    requires k < |c.lps| && i < |c.lps[k].replies|
    ensures Apply(su, c, Reply(k, i)) == c.(lps := c.lps[k := Answered(c.lps[k], i)], highQueue := c.highQueue + c.lps[k].replies[i])
  {}

  lemma PollIsAnswered(x: Lp)
    ensures Answered(Polled(x), |x.replies|) == x.(offload := [])
    ensures Polled(x).replies[|x.replies|] == x.offload
  {
    LastDrops(x.replies, x.offload);
  }

  lemma LastDrops(q: seq<seq<Id>>, last: seq<Id>)
    ensures (q + [last])[..|q|] + (q + [last])[|q| + 1..] == q
  {}

  /** Received and installed, a promoted sequence waits in the engine as it was handed over; the
      instance had nothing else to install. */
  lemma PromotedWaits(su: Setup, c: State, k: nat, i: nat)
    requires su.Valid() && c.lps != [] && c.hps != []
    requires k < |c.hps| && i < |c.hps[k].parcels| && c.hps[k].pending == []
    ensures var x, t := c.hps[k], RunOf(su, c, [HpReceive(k, i), HpInstall(k)]);
            && t.hps[k].engine.waiting == x.engine.waiting + [x.parcels[i]]
            && t.hps[k].engine.seqs == x.engine.seqs[x.parcels[i] := Look(c.objects, x.parcels[i])]
            && t.hps[k].parcels == x.parcels[..i] + x.parcels[i + 1..] && t.hps[k].pending == []
  {
    TwoEvents(su, c, HpReceive(k, i), HpInstall(k));
    var x := c.hps[k];
    assert (x.pending + [x.parcels[i]])[0] == x.parcels[i] && (x.pending + [x.parcels[i]])[1..] == [];
  }

  /** The whole way of a promoted sequence, the only one an instance has to hand over: polled,
      answered, routed, received and installed, it waits in a high-priority engine with the very
      state it was handed over with. */
  lemma PromotedArrives(su: Setup, c: State, k: nat, id: Id, ticket: bool)
    requires su.Valid() && Idle(c)
    requires k < |c.lps| && c.lps[k].offload == [id]
    requires c.hps[High(c)].pending == []
    ensures var h := High(c);
            var t := RunOf(su, c, [Poll(k), Reply(k, |c.lps[k].replies|)]
                                  + ([Route(ticket)] + [HpReceive(h, |c.hps[h].parcels|), HpInstall(h)]));
            && t.hps[h].engine.waiting == c.hps[h].engine.waiting + [id]
            && Look(t.hps[h].engine.seqs, id) == Look(c.objects, id)
  {
    var h := High(c);
    var a, b := [Poll(k), Reply(k, |c.lps[k].replies|)], [HpReceive(h, |c.hps[h].parcels|), HpInstall(h)];
    PolledIsQueued(su, c, k);
    var d := RunOf(su, c, a);
    RunsFollow(su, c, a, [Route(ticket)] + b);
    RunsFollow(su, d, [Route(ticket)], b);
    RouteIsOne(su, d, ticket);
    var e := Routed(d, ticket);
    assert e.hps[h].parcels == c.hps[h].parcels + [id];
    PromotedWaits(su, e, h, |c.hps[h].parcels|);
  }

  lemma RouteIsOne(su: Setup, c: State, ticket: bool)
    requires su.Valid() && c.lps != [] && c.hps != []
    ensures RunOf(su, c, [Route(ticket)]) == Routed(c, ticket)
  {
    assert [Route(ticket)][1..] == [];
  }
}
