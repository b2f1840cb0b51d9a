/** Where the routing loop sends what it is given: promoted sequences first, then requests by
    ticket, each kind of call dealt round robin over the instances it goes to. */
module RoundRobin {
  import opened Lists
  import opened Sequences
  import opened Cluster
  import opened Instances

  // What the i-th of n instances gets when items are dealt out in turn from the at-th on.
  function Dealt(items: seq<Id>, at: nat, n: nat, i: nat): seq<Id>
    requires n > 0
  {
    if items == [] then []
    else (if at % n == i then [items[0]] else []) + Dealt(items[1..], at + 1, n, i)
  }

  // The requests whose ticket is as wanted.
  function ByTicket(requests: seq<Id>, tickets: seq<bool>, wanted: bool): seq<Id>
    requires |tickets| <= |requests|
  {
    if tickets == [] then []
    else (if tickets[0] == wanted then [requests[0]] else []) + ByTicket(requests[1..], tickets[1..], wanted)
  }

  function Count(tickets: seq<bool>, wanted: bool): nat {
    if tickets == [] then 0 else (if tickets[0] == wanted then 1 else 0) + Count(tickets[1..], wanted)
  }

  /** Promoted sequences. */

  // All turns go to them while there are any, whatever the tickets.
  lemma {:induction false} PromotedAreDealt(c: State, tickets: seq<bool>)
    requires c.lps != [] && c.hps != []
    requires |tickets| <= |c.highQueue|
    ensures var t, n := Routing(c, tickets), |tickets|;
            && |t.hps| == |c.hps|
            && t == c.(highQueue := c.highQueue[n..], highIdx := c.highIdx + n, hps := t.hps)
            && forall i: nat :: i < |c.hps| ==>
                 t.hps[i] == c.hps[i].(parcels := c.hps[i].parcels + Dealt(c.highQueue[..n], c.highIdx, |c.hps|, i))
    decreases |tickets|
  {
    var n := |tickets|;
    if n == 0 {
      assert c.highQueue[..0] == [];
      forall i: nat | i < |c.hps| ensures c.hps[i] == c.hps[i].(parcels := c.hps[i].parcels + []) { NoTail(c.hps[i].parcels); }
    } else {
      var d := Routed(c, tickets[0]);
      PromotedAreDealt(d, tickets[1..]);
      assert c.highQueue[..n][1..] == d.highQueue[..n - 1];
      forall i: nat | i < |c.hps|
        ensures d.hps[i].parcels + Dealt(d.highQueue[..n - 1], d.highIdx, |c.hps|, i)
                == c.hps[i].parcels + Dealt(c.highQueue[..n], c.highIdx, |c.hps|, i)
      {
        Regroup(c.hps[i].parcels, [c.highQueue[0]], Dealt(d.highQueue[..n - 1], d.highIdx, |c.hps|, i));
      }
    }
  }

  /** Requests. */

  // The calls the instances have been given on top of those they had.
  ghost predicate HighGiven(c: State, t: State, items: seq<Id>) {
    && |t.hps| == |c.hps|
    && forall i: nat :: i < |c.hps| ==>
         t.hps[i] == c.hps[i].(mail := c.hps[i].mail + Dealt(items, c.highIdx, |c.hps|, i))
  }

  ghost predicate LowGiven(c: State, t: State, items: seq<Id>) {
    && |t.lps| == |c.lps|
    && forall i: nat :: i < |c.lps| ==>
         t.lps[i] == c.lps[i].(mail := c.lps[i].mail + Dealt(items, c.lowIdx, |c.lps|, i))
  }

  lemma NothingGiven(c: State)
    ensures HighGiven(c, c, []) && LowGiven(c, c, [])
  {
    forall i: nat | i < |c.hps| ensures c.hps[i].mail + [] == c.hps[i].mail { NoTail(c.hps[i].mail); }
    forall i: nat | i < |c.lps| ensures c.lps[i].mail + [] == c.lps[i].mail { NoTail(c.lps[i].mail); }
  }

  // One request, with a ticket, goes to the instance whose turn it is.
  lemma TicketGiven(c: State, t: State, rest: seq<Id>)
    requires c.lps != [] && c.hps != [] && c.highQueue == [] && c.toSchedule != []
    requires HighGiven(Routed(c, true), t, rest)
    ensures HighGiven(c, t, [c.toSchedule[0]] + rest)
  {
    var d, head := Routed(c, true), [c.toSchedule[0]];
    assert (head + rest)[1..] == rest;
    forall i: nat | i < |c.hps|
      ensures t.hps[i] == c.hps[i].(mail := c.hps[i].mail + Dealt(head + rest, c.highIdx, |c.hps|, i))
    {
      Regroup(c.hps[i].mail, head, Dealt(rest, d.highIdx, |c.hps|, i));
      assert t.hps[i] == d.hps[i].(mail := d.hps[i].mail + Dealt(rest, d.highIdx, |c.hps|, i));
    }
  }

  lemma NoTicketGiven(c: State, t: State, rest: seq<Id>)
    requires c.lps != [] && c.hps != [] && c.highQueue == [] && c.toSchedule != []
    requires LowGiven(Routed(c, false), t, rest)
    ensures LowGiven(c, t, [c.toSchedule[0]] + rest)
  {
    var d, head := Routed(c, false), [c.toSchedule[0]];
    assert (head + rest)[1..] == rest;
    forall i: nat | i < |c.lps|
      ensures t.lps[i] == c.lps[i].(mail := c.lps[i].mail + Dealt(head + rest, c.lowIdx, |c.lps|, i))
    {
      Regroup(c.lps[i].mail, head, Dealt(rest, d.lowIdx, |c.lps|, i));
      assert t.lps[i] == d.lps[i].(mail := d.lps[i].mail + Dealt(rest, d.lowIdx, |c.lps|, i));
    }
  }

  lemma {:induction false} RequestsAreDealt(c: State, tickets: seq<bool>)
    requires c.lps != [] && c.hps != [] && c.highQueue == []
    requires |tickets| <= |c.toSchedule|
    ensures var t := Routing(c, tickets);
            t == c.(toSchedule := c.toSchedule[|tickets|..], hps := t.hps, lps := t.lps,
                    highIdx := c.highIdx + Count(tickets, true), lowIdx := c.lowIdx + Count(tickets, false))
    ensures HighGiven(c, Routing(c, tickets), ByTicket(c.toSchedule, tickets, true))
    ensures LowGiven(c, Routing(c, tickets), ByTicket(c.toSchedule, tickets, false))
    decreases |tickets|
  {
    if tickets == [] {
      NothingGiven(c);
    } else {
      var d, t := Routed(c, tickets[0]), Routing(c, tickets);
      RequestsAreDealt(d, tickets[1..]);
      assert c.toSchedule[|tickets|..] == d.toSchedule[|tickets| - 1..];
      FirstIsGiven(c, t, tickets);
    }
  }

  lemma FirstIsGiven(c: State, t: State, tickets: seq<bool>)
    requires c.lps != [] && c.hps != [] && c.highQueue == []
    requires 0 < |tickets| <= |c.toSchedule|
    requires HighGiven(Routed(c, tickets[0]), t, ByTicket(c.toSchedule[1..], tickets[1..], true))
    requires LowGiven(Routed(c, tickets[0]), t, ByTicket(c.toSchedule[1..], tickets[1..], false))
    ensures HighGiven(c, t, ByTicket(c.toSchedule, tickets, true))
    ensures LowGiven(c, t, ByTicket(c.toSchedule, tickets, false))
  {
    var highs, lows := ByTicket(c.toSchedule[1..], tickets[1..], true), ByTicket(c.toSchedule[1..], tickets[1..], false);
    NoTail(highs);
    NoTail(lows);
    if tickets[0] { TicketGiven(c, t, highs); } else { NoTicketGiven(c, t, lows); }
  }

  lemma {:induction false} RoutingFollows(c: State, a: seq<bool>, b: seq<bool>)
    requires c.lps != [] && c.hps != []
    ensures Routing(c, a + b) == Routing(Routing(c, a), b)
    decreases |a|
  {
    if a == [] {
      assert [] + b == b;
    } else {
      assert (a + b)[1..] == a[1..] + b;
      RoutingFollows(Routed(c, a[0]), a[1..], b);
    }
  }

  /** A whole routing loop: the promoted sequences are dealt over the high-priority instances from
      where the last loop stopped, then the requests with a ticket from there, and those without
      over the low-priority instances. Nothing else changes, and both queues are empty. */
  lemma RoutingInClosedForm(c: State, tickets: seq<bool>)
    requires c.lps != [] && c.hps != []
    requires |tickets| == |c.highQueue| + |c.toSchedule|
    ensures var t, n := Routing(c, tickets), |c.highQueue|;
            var asked := tickets[n..];
            && t == c.(highQueue := [], toSchedule := [], hps := t.hps, lps := t.lps,
                       highIdx := c.highIdx + n + Count(asked, true), lowIdx := c.lowIdx + Count(asked, false))
            && (forall i: nat :: i < |c.hps| ==>
                  t.hps[i] == c.hps[i].(parcels := c.hps[i].parcels + Dealt(c.highQueue, c.highIdx, |c.hps|, i),
                                        mail := c.hps[i].mail + Dealt(ByTicket(c.toSchedule, asked, true), c.highIdx + n, |c.hps|, i)))
            && (forall i: nat :: i < |c.lps| ==>
                  t.lps[i] == c.lps[i].(mail := c.lps[i].mail + Dealt(ByTicket(c.toSchedule, asked, false), c.lowIdx, |c.lps|, i)))
  {
    var n := |c.highQueue|;
    assert tickets == tickets[..n] + tickets[n..];
    RoutingFollows(c, tickets[..n], tickets[n..]);
    AllPromotedAreDealt(c, tickets[..n]);
    RequestsBehind(c, Routing(c, tickets[..n]), tickets[n..]);
  }

  lemma AllPromotedAreDealt(c: State, tickets: seq<bool>)
    requires c.lps != [] && c.hps != []
    requires |tickets| == |c.highQueue|
    ensures PromotedGiven(c, Routing(c, tickets))
  {
    PromotedAreDealt(c, tickets);
    WholeQueue(c.highQueue);
  }

  ghost predicate PromotedGiven(c: State, d: State) {
    && d == c.(highQueue := [], highIdx := c.highIdx + |c.highQueue|, hps := d.hps)
    && |d.hps| == |c.hps|
    && forall i: nat :: i < |c.hps| ==>
         d.hps[i] == c.hps[i].(parcels := c.hps[i].parcels + Dealt(c.highQueue, c.highIdx, |c.hps|, i))
  }

  lemma RequestsBehind(c: State, d: State, asked: seq<bool>)
    requires c.lps != [] && c.hps != []
    requires |asked| == |c.toSchedule| && PromotedGiven(c, d)
    ensures var t, n := Routing(d, asked), |c.highQueue|;
            && t == c.(highQueue := [], toSchedule := [], hps := t.hps, lps := t.lps,
                       highIdx := c.highIdx + n + Count(asked, true), lowIdx := c.lowIdx + Count(asked, false))
            && (forall i: nat :: i < |c.hps| ==>
                  t.hps[i] == c.hps[i].(parcels := c.hps[i].parcels + Dealt(c.highQueue, c.highIdx, |c.hps|, i),
                                        mail := c.hps[i].mail + Dealt(ByTicket(c.toSchedule, asked, true), c.highIdx + n, |c.hps|, i)))
            && (forall i: nat :: i < |c.lps| ==>
                  t.lps[i] == c.lps[i].(mail := c.lps[i].mail + Dealt(ByTicket(c.toSchedule, asked, false), c.lowIdx, |c.lps|, i)))
  {
    WholeQueue(c.toSchedule);
    RequestsAreDealt(d, asked);
    GivenBehind(c, d, Routing(d, asked), ByTicket(c.toSchedule, asked, true));
  }

  lemma WholeQueue(q: seq<Id>)
    ensures q[..|q|] == q && q[|q|..] == []
  {}

  // Requests behind the promoted sequences.
  lemma GivenBehind(c: State, d: State, t: State, items: seq<Id>)
    requires |d.hps| == |c.hps| > 0
    requires HighGiven(d, t, items)
    requires forall i: nat :: i < |c.hps| ==>
               d.hps[i] == c.hps[i].(parcels := c.hps[i].parcels + Dealt(c.highQueue, c.highIdx, |c.hps|, i))
    ensures forall i: nat :: i < |c.hps| ==>
              t.hps[i] == c.hps[i].(parcels := c.hps[i].parcels + Dealt(c.highQueue, c.highIdx, |c.hps|, i),
                                    mail := c.hps[i].mail + Dealt(items, d.highIdx, |c.hps|, i))
  {
    forall i: nat | i < |c.hps|
      ensures t.hps[i] == c.hps[i].(parcels := c.hps[i].parcels + Dealt(c.highQueue, c.highIdx, |c.hps|, i),
                                    mail := c.hps[i].mail + Dealt(items, d.highIdx, |c.hps|, i))
    {
      assert d.hps[i] == c.hps[i].(parcels := c.hps[i].parcels + Dealt(c.highQueue, c.highIdx, |c.hps|, i));
    }
  }

  // Nobody is passed over: the j-th item is dealt to the instance j turns on.
  lemma {:induction false} DealtAt(items: seq<Id>, at: nat, n: nat, j: nat)
    requires n > 0 && j < |items|
    ensures items[j] in Dealt(items, at, n, (at + j) % n)
    decreases |items|
  {
    if j > 0 { DealtAt(items[1..], at + 1, n, j - 1); }
  }
}
