// Earliest deadline first: the value function and the reordering of the high-priority queue.
module Deadline {
  import opened Lists
  import opened Sequences

  // The clock reading of one scheduling step and what is estimated or recorded per sequence.
  datatype Clock = Clock(
    now: real,
    estimate: map<Id, real>,   // estimated prefill time
    interval: map<Id, real>,   // _request_reschedule_interval
    arrivedAt: map<Id, real>)  // _seq_arrive_at

  function At(m: map<Id, real>, id: Id): real {
    if id in m then m[id] else 0.0
  }

  // A rescheduled sequence keeps the waiting time it brought along.
  function Idle(c: Clock, id: Id, v: SeqView): real {
    if At(c.interval, id) != 0.0 then At(c.interval, id) + (c.now - At(c.arrivedAt, id))
    else c.now - v.arrival
  }

  function Slack(ttft: real, c: Clock, id: Id, v: SeqView): real {
    ttft - (Idle(c, id, v) + At(c.estimate, id))
  }

  /** The last moment at which the prefill could start and still meet the deadline: for a request
      served where it arrived, its arrival plus what the deadline allows, less the estimate; for a
      rescheduled one, its second arrival plus what the first wait has left of that. */
  function LatestStart(ttft: real, c: Clock, id: Id, v: SeqView): real {
    (if At(c.interval, id) != 0.0 then At(c.arrivedAt, id) + (ttft - At(c.interval, id)) else v.arrival + ttft)
    - At(c.estimate, id)
  }

  lemma SlackIsTimeLeft(ttft: real, c: Clock, id: Id, v: SeqView)
    ensures Slack(ttft, c, id, v) == LatestStart(ttft, c, id, v) - c.now
  {}

  datatype Value = Finite(r: real) | Infinite

  function DeadlineValue(slack: real): Value {
    if slack > 0.0 then Finite(1.0 / slack) else Infinite
  }

  predicate AtLeast(a: Value, b: Value) {
    a.Infinite? || (b.Finite? && a.r >= b.r)
  }

  // The deadline of a cannot be met any more, and that of b can; or both can, and it is nearer.
  predicate MoreUrgent(now: real, a: real, b: real) { now < b && (a <= now || a < b) }

  /** By value the requests whose deadline cannot be met come first, then the others, the nearest
      deadline first. */
  lemma ValueRanksUrgency(now: real, a: real, b: real)
    ensures AtLeast(DeadlineValue(b - now), DeadlineValue(a - now)) <==> !MoreUrgent(now, a, b)
  {
    var s, t := a - now, b - now;
    if s > 0.0 && t > 0.0 {
      if s > t { ReciprocalDecreases(s, t); }
      if t > s { ReciprocalDecreases(t, s); }
    }
  }

  // The value the solver and the high-priority queue sort by.
  class EarliestDeadlineFirstValue {
    const id: Id
    const view: SeqView
    var value: Value

    constructor (id: Id, view: SeqView)
      ensures this.id == id && this.view == view
    {
      this.id := id;
      this.view := view;
      value := Finite(0.0);
    }

    method ValueFunc(clock: Clock, ttft: real)
      modifies this
      ensures value == DeadlineValue(Slack(ttft, clock, id, view))
    {
      var idle;
      if At(clock.interval, id) != 0.0 {
        idle := At(clock.interval, id) + (clock.now - At(clock.arrivedAt, id));
      } else {
        idle := clock.now - view.arrival;
      }
      var slack := ttft - (idle + At(clock.estimate, id));
      if slack > 0.0 {
        value := Finite(1.0 / slack);
      } else {
        value := Infinite;
      }
    }
  }

  // The slack of every sequence in the list, all read at one time.
  function Slacks(ids: seq<Id>, seqs: SeqMap, ttft: real, c: Clock): map<Id, real> {
    map id | id in ids :: Slack(ttft, c, id, Look(seqs, id))
  }

  predicate Meetable(slacks: map<Id, real>, id: Id) { At(slacks, id) > 0.0 }

  predicate Precedes(slacks: map<Id, real>, a: Id, b: Id) {
    AtLeast(DeadlineValue(At(slacks, a)), DeadlineValue(At(slacks, b)))
  }

  // sorted(items, key=value, reverse=True)
  function ByValue(ids: seq<Id>, slacks: map<Id, real>): (r: seq<Id>)
    ensures multiset(r) == multiset(ids)
  {
    StableSort(ids, (a, b) => Precedes(slacks, a, b))
  }

  function OnlyMeetable(ids: seq<Id>, slacks: map<Id, real>): seq<Id> {
    if ids == [] then []
    else if DeadlineValue(At(slacks, ids[0])) != Infinite then [ids[0]] + OnlyMeetable(ids[1..], slacks)
    else OnlyMeetable(ids[1..], slacks)
  }

  function OnlyLate(ids: seq<Id>, slacks: map<Id, real>): seq<Id> {
    if ids == [] then []
    else if DeadlineValue(At(slacks, ids[0])) != Infinite then OnlyLate(ids[1..], slacks)
    else [ids[0]] + OnlyLate(ids[1..], slacks)
  }

  // The reordered waiting list.
  function DeadlineOrder(ids: seq<Id>, slacks: map<Id, real>): seq<Id> {
    var sorted := ByValue(ids, slacks);
    OnlyMeetable(sorted, slacks) + OnlyLate(sorted, slacks)
  }

  // One step of the loop that splits a list.
  lemma SplitNext(meet: seq<Id>, late: seq<Id>, ids: seq<Id>, slacks: map<Id, real>)
    requires ids != []
    ensures var can := DeadlineValue(At(slacks, ids[0])) != Infinite;
            && (if can then meet + [ids[0]] else meet) + OnlyMeetable(ids[1..], slacks) == meet + OnlyMeetable(ids, slacks)
            && (if can then late else late + [ids[0]]) + OnlyLate(ids[1..], slacks) == late + OnlyLate(ids, slacks)
  {
    Regroup(meet, [ids[0]], OnlyMeetable(ids[1..], slacks));
    Regroup(late, [ids[0]], OnlyLate(ids[1..], slacks));
  }

  lemma {:induction false} SplitByMeetable(ids: seq<Id>, slacks: map<Id, real>)
    ensures multiset(ids) == multiset(OnlyMeetable(ids, slacks)) + multiset(OnlyLate(ids, slacks))
    ensures forall x :: x in OnlyMeetable(ids, slacks) <==> x in ids && Meetable(slacks, x)
    ensures forall x :: x in OnlyLate(ids, slacks) <==> x in ids && !Meetable(slacks, x)
  {
    if ids != [] {
      SplitByMeetable(ids[1..], slacks);
      assert ids == [ids[0]] + ids[1..];
    }
  }

  lemma {:induction false} LateIsFilter(ids: seq<Id>, slacks: map<Id, real>)
    ensures OnlyLate(ids, slacks) == Filter(ids, x => !Meetable(slacks, x))
  {
    if ids != [] { LateIsFilter(ids[1..], slacks); }
  }

  lemma ReciprocalDecreases(s: real, t: real)
    requires s > t > 0.0
    ensures 1.0 / s < 1.0 / t
  {
    assert (1.0 / s) * s == 1.0;
    assert (1.0 / t) * t == 1.0;
    if 1.0 / s >= 1.0 / t {
      ProductGrows(1.0 / t, 1.0 / s, t, s);
    }
  }

  lemma ProductGrows(a: real, b: real, t: real, s: real)
    requires 0.0 < a <= b
    requires 0.0 < t < s
    ensures a * t < b * s
  {
    assert a * t < a * s;
    assert a * s <= b * s;
  }

  lemma ValueOrdersSlack(slacks: map<Id, real>, a: Id, b: Id)
    requires Meetable(slacks, a) && Meetable(slacks, b)
    requires Precedes(slacks, a, b)
    ensures At(slacks, a) <= At(slacks, b)
  {
    if At(slacks, a) > At(slacks, b) { ReciprocalDecreases(At(slacks, a), At(slacks, b)); }
  }

  ghost predicate InSlackOrder(ids: seq<Id>, slacks: map<Id, real>) {
    forall i, j :: 0 <= i < j < |ids| ==> At(slacks, ids[i]) <= At(slacks, ids[j])
  }

  lemma HeadIsTightest(ids: seq<Id>, slacks: map<Id, real>, x: Id)
    requires forall i, j :: 0 <= i < j < |ids| ==> Precedes(slacks, ids[i], ids[j])
    requires ids != [] && x in ids[1..]
    requires Meetable(slacks, ids[0]) && Meetable(slacks, x)
    ensures At(slacks, ids[0]) <= At(slacks, x)
  {
    var k :| 0 <= k < |ids| - 1 && ids[1..][k] == x;
    assert ids[k + 1] == x;
    ValueOrdersSlack(slacks, ids[0], x);
  }

  // The meetable part of a list in value order is in slack order.
  lemma {:induction false} MeetableInSlackOrder(ids: seq<Id>, slacks: map<Id, real>)
    requires forall i, j :: 0 <= i < j < |ids| ==> Precedes(slacks, ids[i], ids[j])
    ensures InSlackOrder(OnlyMeetable(ids, slacks), slacks)
  {
    if ids != [] {
      var rest := ids[1..];
      MeetableInSlackOrder(rest, slacks);
      SplitByMeetable(rest, slacks);
      if Meetable(slacks, ids[0]) {
        forall x | x in OnlyMeetable(rest, slacks) ensures At(slacks, ids[0]) <= At(slacks, x) {
          HeadIsTightest(ids, slacks, x);
        }
      }
    }
  }

  /** What the reordering guarantees: a permutation of the waiting list in which every request
      whose deadline can still be met comes first, tightest slack first, and the others follow
      in the order they were already in. */
  lemma ReorderIsEarliestDeadlineFirst(ids: seq<Id>, slacks: map<Id, real>)
    ensures var r := DeadlineOrder(ids, slacks);
            var late := Filter(ids, x => !Meetable(slacks, x));
            var k := |ids| - |late|;
            && multiset(r) == multiset(ids)
            && |r| == |ids|
            && (forall x :: x in r[..k] <==> x in ids && Meetable(slacks, x))
            && InSlackOrder(r[..k], slacks)
            && r[k..] == late
  {
    var sorted := ByValue(ids, slacks);
    var meet, late := OnlyMeetable(sorted, slacks), OnlyLate(sorted, slacks);
    SplitByMeetable(sorted, slacks);
    SortedMeetable(ids, slacks);
    SortedLate(ids, slacks);
    PermutationMembers(sorted, ids);
    PermutationMembers(meet + late, ids);
    assert (meet + late)[..|meet|] == meet && (meet + late)[|meet|..] == late;
  }

  lemma SortedMeetable(ids: seq<Id>, slacks: map<Id, real>)
    ensures InSlackOrder(OnlyMeetable(ByValue(ids, slacks), slacks), slacks)
  {
    var sorted := ByValue(ids, slacks);
    var before := (a, b) => Precedes(slacks, a, b);
    StableSortSorts(ids, before);
    assert sorted == StableSort(ids, before);
    forall i, j | 0 <= i < j < |sorted| ensures Precedes(slacks, sorted[i], sorted[j]) {
      assert before(sorted[i], sorted[j]);
    }
    MeetableInSlackOrder(sorted, slacks);
  }

  lemma SortedLate(ids: seq<Id>, slacks: map<Id, real>)
    ensures OnlyLate(ByValue(ids, slacks), slacks) == Filter(ids, x => !Meetable(slacks, x))
  {
    LateIsFilter(ByValue(ids, slacks), slacks);
    StableSortStable(ids, (a, b) => Precedes(slacks, a, b), x => !Meetable(slacks, x));
  }
}
