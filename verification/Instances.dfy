/** The loops at the two ends of the messages: the controller that routes, and the high-priority
    instance that installs what it is sent, against the moves of module Cluster. */
module Instances {
  import opened Lists
  import opened Sequences
  import opened EngineCore
  import PrefillFirstEngine
  import opened Cluster
  import PrefillFirst

  // The routing loop: one turn per request or promoted sequence, each with its own ticket.
  function Routing(c: State, tickets: seq<bool>): (t: State)
    requires c.lps != [] && c.hps != []
    ensures |t.lps| == |c.lps| && |t.hps| == |c.hps|
    decreases |tickets|
  {
    if tickets == [] then c else Routing(Routed(c, tickets[0]), tickets[1..])
  }

  // The queues of the controller and the calls it has on their way.
  class Controller {
    var requestToSchedule: seq<Id>
    var highPriorityQueue: seq<Id>
    var lowIdx: nat
    var highIdx: nat
    var lpCalls: seq<seq<Id>>      // _add_request, one list per low-priority instance
    var hpCalls: seq<seq<Id>>      // _add_request to the high-priority instances
    var hpSequences: seq<seq<Id>>  // _add_sequence

    ghost predicate Valid()
      reads this
    {
      |lpCalls| > 0 && |hpCalls| == |hpSequences| > 0
    }

    // The controller's part of a cluster.
    ghost predicate Shows(c: State)
      reads this
    {
      && c.toSchedule == requestToSchedule && c.highQueue == highPriorityQueue
      && c.lowIdx == lowIdx && c.highIdx == highIdx
      && |c.lps| == |lpCalls| && |c.hps| == |hpCalls| == |hpSequences|
      && (forall k :: 0 <= k < |c.lps| ==> c.lps[k].mail == lpCalls[k])
      && (forall k :: 0 <= k < |c.hps| ==> c.hps[k].mail == hpCalls[k] && c.hps[k].parcels == hpSequences[k])
    }

    // One turn of the loop.
    method RouteOne(ticket: bool, ghost c: State) returns (ghost t: State)
      requires Valid() && Shows(c)
      requires requestToSchedule != [] || highPriorityQueue != []
      modifies this
      ensures Valid()
      ensures t == Routed(c, ticket) && Shows(t)
      ensures |requestToSchedule| + |highPriorityQueue| == old(|requestToSchedule| + |highPriorityQueue|) - 1
      ensures var h, l := old(highIdx) % old(|hpCalls|), old(lowIdx) % old(|lpCalls|);
              if old(highPriorityQueue) != [] then
                && hpSequences == old(hpSequences)[h := old(hpSequences)[h] + [old(highPriorityQueue)[0]]]
                && highPriorityQueue == old(highPriorityQueue)[1..] && requestToSchedule == old(requestToSchedule)
                && hpCalls == old(hpCalls) && lpCalls == old(lpCalls)
                && highIdx == old(highIdx) + 1 && lowIdx == old(lowIdx)
              else if ticket then
                && hpCalls == old(hpCalls)[h := old(hpCalls)[h] + [old(requestToSchedule)[0]]]
                && requestToSchedule == old(requestToSchedule)[1..] && highPriorityQueue == []
                && hpSequences == old(hpSequences) && lpCalls == old(lpCalls)
                && highIdx == old(highIdx) + 1 && lowIdx == old(lowIdx)
              else
                && lpCalls == old(lpCalls)[l := old(lpCalls)[l] + [old(requestToSchedule)[0]]]
                && requestToSchedule == old(requestToSchedule)[1..] && highPriorityQueue == []
                && hpSequences == old(hpSequences) && hpCalls == old(hpCalls)
                && highIdx == old(highIdx) && lowIdx == old(lowIdx) + 1
    {
      t := Routed(c, ticket);
      var h := highIdx % |hpCalls|;
      if highPriorityQueue != [] {
        hpSequences := hpSequences[h := hpSequences[h] + [highPriorityQueue[0]]];
        highPriorityQueue := highPriorityQueue[1..];
        highIdx := highIdx + 1;
      } else if ticket {
        hpCalls := hpCalls[h := hpCalls[h] + [requestToSchedule[0]]];
        requestToSchedule := requestToSchedule[1..];
        highIdx := highIdx + 1;
      } else {
        var l := lowIdx % |lpCalls|;
        lpCalls := lpCalls[l := lpCalls[l] + [requestToSchedule[0]]];
        requestToSchedule := requestToSchedule[1..];
        lowIdx := lowIdx + 1;
      }
    }

    /** _schedule: runs until both queues are empty, promoted sequences before new requests. */
    method ScheduleAll(tickets: seq<bool>, ghost c: State) returns (ghost t: State)
      requires Valid() && Shows(c)
      requires |tickets| == |requestToSchedule| + |highPriorityQueue|
      modifies this
      ensures Valid()
      ensures t == Routing(c, tickets) && Shows(t)
      ensures requestToSchedule == [] && highPriorityQueue == []
    {
      t := c;
      var n := 0;
      while requestToSchedule != [] || highPriorityQueue != []
        invariant Valid() && Shows(t)
        invariant n <= |tickets| && |tickets| - n == |requestToSchedule| + |highPriorityQueue|
        invariant Routing(t, tickets[n..]) == Routing(c, tickets)
        decreases |tickets| - n
      {
        assert tickets[n..][1..] == tickets[n + 1..] && tickets[n..][0] == tickets[n];
        t := RouteOne(tickets[n], t);
        n := n + 1;
      }
    }

    // _get_high_priority_request: what a poll brought back joins the queue.
    method TakeReply(seqs: seq<Id>)
      requires Valid()
      modifies this`highPriorityQueue
      ensures Valid()
      ensures highPriorityQueue == old(highPriorityQueue) + seqs
    {
      for i := 0 to |seqs|
        invariant highPriorityQueue == old(highPriorityQueue) + seqs[..i]
      {
        Regroup(old(highPriorityQueue), seqs[..i], [seqs[i]]);
        assert seqs[..i + 1] == seqs[..i] + [seqs[i]];
        highPriorityQueue := highPriorityQueue + [seqs[i]];
      }
      assert seqs[..|seqs|] == seqs;
    }
  }

  /** Routing loses nothing and keeps the cluster's invariant. */
  lemma {:induction false} RoutingKeeps(su: Setup, c: State, tickets: seq<bool>)
    requires ClusterInv(su, c)
    ensures ClusterInv(su, Routing(c, tickets))
    ensures TallyOf(Routing(c, tickets)).All() == TallyOf(c).All()
    decreases |tickets|
  {
    if tickets != [] {
      RouteKeeps(su, c, tickets[0]);
      RoutingKeeps(su, Routed(c, tickets[0]), tickets[1..]);
    }
  }

  // Installing the pending sequences of an instance, oldest first.
  function Installing(x: Hp, objects: SeqMap, n: nat): Hp
    requires n <= |x.pending|
    decreases n
  {
    if n == 0 then x else Installing(HpInstalled(x, objects), objects, n - 1)
  }

  class HpInstance {
    const engine: PrefillFirstEngine.Engine
    var pendingSequences: seq<Id>
    var transfer: nat

    ghost predicate Valid()
      reads this, engine, engine.base, engine.base.blocks, engine.base.blocks.allocator
    {
      engine.Valid()
    }

    // The instance's part of a cluster.
    ghost predicate Shows(x: Hp)
      reads this, engine.base, engine.base.blocks, engine.base.blocks.allocator
    {
      x.pending == pendingSequences && x.engine == engine.State()
    }

    constructor (kind: PrefillFirst.Kind, cfg: Config, watermark: real)
      requires cfg.Valid()
      requires watermark >= 0.0 && cfg.watermark == (watermark * cfg.numBlocks as real).Floor
      ensures Valid() && Shows(Hp([], [], [], [], PrefillFirst.Idle(cfg)))
    {
      engine := new PrefillFirstEngine.Engine(kind, cfg, watermark);
      pendingSequences, transfer := [], 0;
    }

    // _add_sequence only queues: the engine is not touched from outside its own loop.
    method AddSequence(id: Id, ghost x: Hp)
      requires Valid() && Shows(x)
      modifies this`pendingSequences
      ensures Valid() && Shows(x.(pending := x.pending + [id]))
    {
      pendingSequences := pendingSequences + [id];
    }

    method ProcessPendingSequences(objects: SeqMap, ghost x: Hp) returns (ghost y: Hp)
      requires Valid() && Shows(x)
      modifies this, engine.base
      ensures Valid()
      ensures y == Installing(x, objects, |x.pending|) && Shows(y)
      ensures pendingSequences == []
      ensures transfer == old(transfer) + old(|pendingSequences|)
    {
      y := x;
      var n := |pendingSequences|;
      ghost var k := n;
      while n > 0
        invariant Valid() && Shows(y)
        invariant |pendingSequences| == n
        invariant Installing(y, objects, n) == Installing(x, objects, k)
        invariant transfer == old(transfer) + (k - n)
      {
        var id := pendingSequences[0];
        pendingSequences := pendingSequences[1..];
        engine.base.AddSeq(id, Look(objects, id));
        transfer := transfer + 1;
        y := HpInstalled(y, objects);
        n := n - 1;
      }
    }
  }
}
