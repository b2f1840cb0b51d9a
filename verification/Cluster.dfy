/** The cluster: a controller, low-priority instances that hand late requests back, and
    high-priority instances that take them over, all exchanging messages that arrive late and in
    any order, each exactly once. */
module Cluster {
  import opened Sequences
  import opened EngineCore
  import opened DecodePhase
  import PrefillFirst
  import LowPriority
  import Offloading
  import Conservation

  datatype Lp = Lp(
    mail: seq<Id>,            // _add_request calls on their way
    inbox: seq<Id>,           // requests
    engine: Engine,
    offload: seq<Id>,         // hp_req_queue
    replies: seq<seq<Id>>)    // answers to _get_hp_request on their way

  datatype Hp = Hp(
    mail: seq<Id>,
    inbox: seq<Id>,
    parcels: seq<Id>,         // _add_sequence calls on their way
    pending: seq<Id>,         // _pending_sequences
    engine: Engine)

  datatype State = State(
    toSchedule: seq<Id>,      // _request_to_schedule
    highQueue: seq<Id>,       // high_priority_queue
    lps: seq<Lp>,
    hps: seq<Hp>,
    lowIdx: nat,
    highIdx: nat,
    objects: SeqMap,          // sequences that travel between instances
    done: seq<Id>,            // finished, ignored or dropped by some engine
    promotions: seq<Id>,      // every promotion so far
    ran: set<Id>)             // whoever has held a block on a low-priority instance

  datatype Setup = Setup(lp: Config, hp: Config, enforce: bool, ttft: real)
  {
    predicate Valid() { lp.Valid() && hp.Valid() }

    // A request either kind of instance can serve.
    predicate Serves(v: SeqView)
      requires Valid()
    {
      lp.Fits(v) && hp.Fits(v)
    }
  }

  datatype Event =
    | Submit(id: Id)
    | Route(ticket: bool)                    // one turn of the controller's loop
    | LpDeliver(lp: nat, i: nat)             // any message on its way may arrive next
    | LpIngest(lp: nat, view: SeqView)       // the instance turns a request into a sequence
    | LpTick(lp: nat, lpInput: LowPriority.LpInput)
    | Poll(lp: nat)                          // _get_hp_request runs on the instance
    | Reply(lp: nat, i: nat)                 // its answer reaches the controller
    | HpDeliver(hp: nat, i: nat)
    | HpIngest(hp: nat, view: SeqView)
    | HpReceive(hp: nat, i: nat)             // _add_sequence runs on the instance
    | HpInstall(hp: nat)                     // _process_pending_sequences
    | HpTick(hp: nat, input: PrefillFirst.Input)

  function DropAt(q: seq<Id>, i: nat): seq<Id>
    requires i < |q|
  {
    q[..i] + q[i + 1..]
  }

  function WithLp(c: State, k: nat, x: Lp): (t: State)
    requires k < |c.lps|
    ensures |t.lps| == |c.lps| && |t.hps| == |c.hps|
  {
    c.(lps := c.lps[k := x])
  }

  function WithHp(c: State, k: nat, x: Hp): (t: State)
    requires k < |c.hps|
    ensures |t.lps| == |c.lps| && |t.hps| == |c.hps|
  {
    c.(hps := c.hps[k := x])
  }

  // A promoted sequence goes first; otherwise a request goes where the ticket says.
  function Routed(c: State, ticket: bool): (t: State)
    requires c.lps != [] && c.hps != []
    ensures |t.lps| == |c.lps| && |t.hps| == |c.hps|
  {
    var h := c.highIdx % |c.hps|;
    var l := c.lowIdx % |c.lps|;
    if c.highQueue != [] then
      WithHp(c, h, c.hps[h].(parcels := c.hps[h].parcels + [c.highQueue[0]])).(highQueue := c.highQueue[1..], highIdx := c.highIdx + 1)
    else if c.toSchedule == [] then c
    else if ticket then
      WithHp(c, h, c.hps[h].(mail := c.hps[h].mail + [c.toSchedule[0]])).(toSchedule := c.toSchedule[1..], highIdx := c.highIdx + 1)
    else
      WithLp(c, l, c.lps[l].(mail := c.lps[l].mail + [c.toSchedule[0]])).(toSchedule := c.toSchedule[1..], lowIdx := c.lowIdx + 1)
  }

  function LpTicked(su: Setup, c: State, k: nat, input: LowPriority.LpInput): (t: State)
    requires su.Valid() && k < |c.lps|
    ensures |t.lps| == |c.lps| && |t.hps| == |c.hps|
  {
    var lp := c.lps[k];
    var o := LowPriority.Step(su.lp, lp.engine, input);
    WithLp(c, k, lp.(engine := o.engine, offload := lp.offload + o.promoted)).(
      objects := map id | id in c.objects.Keys + (set x | x in o.promoted) ::
                   if id in o.promoted then Look(lp.engine.seqs, id) else c.objects[id],
      done := c.done + Offloading.Leavers(su.lp, lp.engine, input),
      promotions := c.promotions + o.promoted,
      ran := c.ran + Offloading.Holders(su.lp, lp.engine, input))
  }

  function HpTicked(su: Setup, c: State, k: nat, input: PrefillFirst.Input): (t: State)
    requires su.Valid() && k < |c.hps|
    ensures |t.lps| == |c.lps| && |t.hps| == |c.hps|
  {
    var kind := PrefillFirst.HighPriority(su.enforce, su.ttft);
    var hp := c.hps[k];
    WithHp(c, k, hp.(engine := PrefillFirst.Step(kind, su.hp, hp.engine, input))).(
      done := c.done + Conservation.Leavers(kind, su.hp, hp.engine, input))
  }

  function Apply(su: Setup, c: State, event: Event): (t: State)
    requires su.Valid() && c.lps != [] && c.hps != []
    ensures |t.lps| == |c.lps| && |t.hps| == |c.hps|
  {
    match event
    case Submit(id) => c.(toSchedule := c.toSchedule + [id])
    case Route(ticket) => Routed(c, ticket)
    case LpDeliver(k, i) =>
      if k >= |c.lps| || i >= |c.lps[k].mail| then c
      else WithLp(c, k, LpDelivered(c.lps[k], i))
    case LpIngest(k, view) =>
      if k >= |c.lps| || c.lps[k].inbox == [] then c
      else WithLp(c, k, LpIngested(c.lps[k], view))
    case LpTick(k, input) =>
      if k >= |c.lps| then c else LpTicked(su, c, k, input)
    case Poll(k) =>
      if k >= |c.lps| then c
      else WithLp(c, k, Polled(c.lps[k]))
    case Reply(k, i) =>
      if k >= |c.lps| || i >= |c.lps[k].replies| then c
      else WithLp(c, k, Answered(c.lps[k], i)).(highQueue := c.highQueue + c.lps[k].replies[i])
    case HpDeliver(k, i) =>
      if k >= |c.hps| || i >= |c.hps[k].mail| then c
      else WithHp(c, k, HpDelivered(c.hps[k], i))
    case HpIngest(k, view) =>
      if k >= |c.hps| || c.hps[k].inbox == [] then c
      else WithHp(c, k, HpIngested(c.hps[k], view))
    case HpReceive(k, i) =>
      if k >= |c.hps| || i >= |c.hps[k].parcels| then c
      else WithHp(c, k, HpReceived(c.hps[k], i))
    case HpInstall(k) =>
      if k >= |c.hps| || c.hps[k].pending == [] then c
      else WithHp(c, k, HpInstalled(c.hps[k], c.objects))
    case HpTick(k, input) =>
      if k >= |c.hps| then c else HpTicked(su, c, k, input)
  }

  function LpDelivered(x: Lp, i: nat): Lp
    requires i < |x.mail|
  {
    x.(mail := DropAt(x.mail, i), inbox := x.inbox + [x.mail[i]])
  }

  function LpIngested(x: Lp, view: SeqView): Lp
    requires x.inbox != []
  {
    x.(inbox := x.inbox[1..], engine := PrefillFirst.Arrive(x.engine, x.inbox[0], view))
  }

  // _get_hp_request drains the queue into its answer.
  function Polled(x: Lp): Lp {
    x.(offload := [], replies := x.replies + [x.offload])
  }

  function Answered(x: Lp, i: nat): Lp
    requires i < |x.replies|
  {
    x.(replies := x.replies[..i] + x.replies[i + 1..])
  }

  function HpDelivered(x: Hp, i: nat): Hp
    requires i < |x.mail|
  {
    x.(mail := DropAt(x.mail, i), inbox := x.inbox + [x.mail[i]])
  }

  function HpIngested(x: Hp, view: SeqView): Hp
    requires x.inbox != []
  {
    x.(inbox := x.inbox[1..], engine := PrefillFirst.Arrive(x.engine, x.inbox[0], view))
  }

  function HpReceived(x: Hp, i: nat): Hp
    requires i < |x.parcels|
  {
    x.(parcels := DropAt(x.parcels, i), pending := x.pending + [x.parcels[i]])
  }

  function HpInstalled(x: Hp, objects: SeqMap): Hp
    requires x.pending != []
  {
    x.(pending := x.pending[1..], engine := PrefillFirst.Arrive(x.engine, x.pending[0], Look(objects, x.pending[0])))
  }

  /** Where the requests are. */

  function Flat(qs: seq<seq<Id>>): multiset<Id> {
    if qs == [] then multiset{} else multiset(qs[0]) + Flat(qs[1..])
  }

  function SumOf<T>(s: seq<T>, f: T -> multiset<Id>): multiset<Id> {
    if s == [] then multiset{} else f(s[0]) + SumOf(s[1..], f)
  }

  function LpUnseen(x: Lp): multiset<Id> { multiset(x.mail) + multiset(x.inbox) }
  function LpQueued(x: Lp): multiset<Id> { multiset(x.engine.waiting) + multiset(x.engine.running) }
  function LpPipe(x: Lp): multiset<Id> { multiset(x.offload) + Flat(x.replies) }
  function HpDirect(x: Hp): multiset<Id> { multiset(x.mail) + multiset(x.inbox) }
  function HpPipe(x: Hp): multiset<Id> { multiset(x.parcels) + multiset(x.pending) }
  function HpQueued(x: Hp): multiset<Id> { multiset(x.engine.waiting) + multiset(x.engine.running) }

  datatype Tally = Tally(
    unseen: multiset<Id>,   // on the way to a low-priority engine
    queued: multiset<Id>,   // in one
    direct: multiset<Id>,   // on the way to a high-priority engine by ticket
    pipe: multiset<Id>,     // being promoted: between the two kinds of engine
    late: multiset<Id>)     // in a high-priority engine, or done
  {
    function All(): multiset<Id> { unseen + queued + direct + pipe + late }

    // Where a request can still be before any promotion.
    function Early(): multiset<Id> { unseen + queued + direct }
  }

  function TallyOf(c: State): Tally {
    Tally(multiset(c.toSchedule) + SumOf(c.lps, LpUnseen),
          SumOf(c.lps, LpQueued),
          SumOf(c.hps, HpDirect),
          multiset(c.highQueue) + SumOf(c.lps, LpPipe) + SumOf(c.hps, HpPipe),
          SumOf(c.hps, HpQueued) + multiset(c.done))
  }

  // Adding the same to both sides of an exchange.
  lemma Behind(m: multiset<Id>, r: multiset<Id>, y: multiset<Id>, s: multiset<Id>, x: multiset<Id>)
    requires r + y == s + x
    ensures (m + r) + y == (m + s) + x
  {
    forall id ensures ((m + r) + y)[id] == ((m + s) + x)[id] { assert (r + y)[id] == (s + x)[id]; }
  }

  lemma Before(r: multiset<Id>, n: multiset<Id>, y: multiset<Id>, s: multiset<Id>, x: multiset<Id>)
    requires r + y == s + x
    ensures (r + n) + y == (s + n) + x
  {
    forall id ensures ((r + n) + y)[id] == ((s + n) + x)[id] { assert (r + y)[id] == (s + x)[id]; }
  }

  lemma {:induction false} SumUpdate<T>(s: seq<T>, k: nat, x: T, f: T -> multiset<Id>)
    requires k < |s|
    ensures SumOf(s[k := x], f) + f(s[k]) == SumOf(s, f) + f(x)
  {
    if k == 0 {
      assert s[0 := x][1..] == s[1..];
    } else {
      var rest := s[1..];
      assert s[k := x][1..] == rest[k - 1 := x] && rest[k - 1] == s[k];
      SumUpdate(rest, k - 1, x, f);
      Behind(f(s[0]), SumOf(rest[k - 1 := x], f), f(s[k]), SumOf(rest, f), f(x));
      assert SumOf(s[k := x], f) == f(s[0]) + SumOf(rest[k - 1 := x], f);
      assert SumOf(s, f) == f(s[0]) + SumOf(rest, f);
    }
  }

  lemma {:induction false} SumMember<T>(s: seq<T>, k: nat, f: T -> multiset<Id>, id: Id)
    requires k < |s|
    ensures SumOf(s, f)[id] >= f(s[k])[id]
  {
    if k > 0 { SumMember(s[1..], k - 1, f, id); }
  }

  lemma {:induction false} SumTwo<T>(s: seq<T>, j: nat, k: nat, f: T -> multiset<Id>, id: Id)
    requires j < k < |s|
    ensures SumOf(s, f)[id] >= f(s[j])[id] + f(s[k])[id]
  {
    if j > 0 { SumTwo(s[1..], j - 1, k - 1, f, id); } else { SumMember(s[1..], k - 1, f, id); }
  }

  lemma ReplaceLp(c: State, k: nat, x: Lp)
    requires k < |c.lps|
    ensures var a, b, was := TallyOf(c), TallyOf(WithLp(c, k, x)), c.lps[k];
            && b.unseen + LpUnseen(was) == a.unseen + LpUnseen(x)
            && b.queued + LpQueued(was) == a.queued + LpQueued(x)
            && b.pipe + LpPipe(was) == a.pipe + LpPipe(x)
            && b.direct == a.direct && b.late == a.late
  {
    SumUpdate(c.lps, k, x, LpQueued);
    ReplaceLpUnseen(c, k, x);
    ReplaceLpPipe(c, k, x);
  }

  lemma ReplaceLpUnseen(c: State, k: nat, x: Lp)
    requires k < |c.lps|
    ensures TallyOf(WithLp(c, k, x)).unseen + LpUnseen(c.lps[k]) == TallyOf(c).unseen + LpUnseen(x)
  {
    SumUpdate(c.lps, k, x, LpUnseen);
    Behind(multiset(c.toSchedule), SumOf(c.lps[k := x], LpUnseen), LpUnseen(c.lps[k]), SumOf(c.lps, LpUnseen), LpUnseen(x));
  }

  lemma ReplaceLpPipe(c: State, k: nat, x: Lp)
    requires k < |c.lps|
    ensures TallyOf(WithLp(c, k, x)).pipe + LpPipe(c.lps[k]) == TallyOf(c).pipe + LpPipe(x)
  {
    var r, s := SumOf(c.lps[k := x], LpPipe), SumOf(c.lps, LpPipe);
    SumUpdate(c.lps, k, x, LpPipe);
    Behind(multiset(c.highQueue), r, LpPipe(c.lps[k]), s, LpPipe(x));
    Before(multiset(c.highQueue) + r, SumOf(c.hps, HpPipe), LpPipe(c.lps[k]), multiset(c.highQueue) + s, LpPipe(x));
  }

  lemma ReplaceHp(c: State, k: nat, x: Hp)
    requires k < |c.hps|
    ensures var a, b, was := TallyOf(c), TallyOf(WithHp(c, k, x)), c.hps[k];
            && b.direct + HpDirect(was) == a.direct + HpDirect(x)
            && b.pipe + HpPipe(was) == a.pipe + HpPipe(x)
            && b.late + HpQueued(was) == a.late + HpQueued(x)
            && b.unseen == a.unseen && b.queued == a.queued
  {
    SumUpdate(c.hps, k, x, HpDirect);
    ReplaceHpPipe(c, k, x);
    ReplaceHpLate(c, k, x);
  }

  lemma ReplaceHpPipe(c: State, k: nat, x: Hp)
    requires k < |c.hps|
    ensures TallyOf(WithHp(c, k, x)).pipe + HpPipe(c.hps[k]) == TallyOf(c).pipe + HpPipe(x)
  {
    SumUpdate(c.hps, k, x, HpPipe);
    Behind(multiset(c.highQueue) + SumOf(c.lps, LpPipe), SumOf(c.hps[k := x], HpPipe), HpPipe(c.hps[k]),
           SumOf(c.hps, HpPipe), HpPipe(x));
  }

  lemma ReplaceHpLate(c: State, k: nat, x: Hp)
    requires k < |c.hps|
    ensures TallyOf(WithHp(c, k, x)).late + HpQueued(c.hps[k]) == TallyOf(c).late + HpQueued(x)
  {
    SumUpdate(c.hps, k, x, HpQueued);
    Before(SumOf(c.hps[k := x], HpQueued), multiset(c.done), HpQueued(c.hps[k]), SumOf(c.hps, HpQueued), HpQueued(x));
  }

  /** The invariant. */

  // A sequence on its way is as it arrived, and the other kind of instance can serve it.
  ghost predicate Parcel(su: Setup, objects: SeqMap, id: Id)
    requires su.Valid()
  {
    id in objects && Fresh(objects[id]) && su.hp.Fits(objects[id])
  }

  ghost predicate Ledger(su: Setup, t: Tally, objects: SeqMap, promotions: seq<Id>, ran: set<Id>)
    requires su.Valid()
  {
    && (forall id :: t.All()[id] <= 1)
    && (forall id :: multiset(promotions)[id] <= 1)
    && (forall id :: id in t.pipe ==> Parcel(su, objects, id) && id in promotions)
    && (forall id :: id in promotions ==> id !in ran && id !in t.Early() && id in t.All())
    && (forall id :: id in ran ==> id !in t.unseen && id in t.All())
  }

  ghost predicate LpOk(su: Setup, x: Lp, ran: set<Id>)
    requires su.Valid()
  {
    && LowPriority.LpInv(su.lp, x.engine)
    && Served(su, x.engine)
    && Marked(x.engine, ran)
  }

  ghost predicate Served(su: Setup, e: Engine)
    requires su.Valid()
  {
    forall id :: id in e.seqs ==> su.hp.Fits(e.seqs[id])
  }

  // Whoever waits and has held blocks is marked as scheduled.
  ghost predicate Marked(e: Engine, ran: set<Id>) {
    forall id :: id in e.waiting && id in ran ==> Look(e.seqs, id).everScheduled
  }

  ghost predicate HpOk(su: Setup, x: Hp)
    requires su.Valid()
  {
    Inv(su.hp, x.engine) && NoPartials(x.engine)
  }

  ghost predicate ClusterInv(su: Setup, c: State) {
    && su.Valid() && c.lps != [] && c.hps != []
    && (forall k :: 0 <= k < |c.lps| ==> LpOk(su, c.lps[k], c.ran))
    && (forall k :: 0 <= k < |c.hps| ==> HpOk(su, c.hps[k]))
    && Ledger(su, TallyOf(c), c.objects, c.promotions, c.ran)
  }

  /** Moves that promote nobody. */

  ghost predicate Eases(a: Tally, b: Tally) {
    && b.All() == a.All()
    && b.unseen <= a.unseen
    && b.pipe <= a.pipe
    && b.Early() <= a.Early()
  }

  lemma EasesLedger(su: Setup, a: Tally, b: Tally, objects: SeqMap, promotions: seq<Id>, ran: set<Id>)
    requires su.Valid()
    requires Ledger(su, a, objects, promotions, ran)
    requires Eases(a, b)
    ensures Ledger(su, b, objects, promotions, ran)
  {
    forall id | id in b.pipe ensures Parcel(su, objects, id) && id in promotions { assert id in a.pipe; }
    forall id | id in promotions ensures id !in b.Early() && id in b.All() { assert id !in a.Early(); }
    forall id | id in ran ensures id !in b.unseen && id in b.All() { assert id !in a.unseen; }
  }

  lemma MoveKeeps(su: Setup, c: State, t: State)
    requires ClusterInv(su, c)
    requires t.objects == c.objects && t.promotions == c.promotions && t.ran == c.ran
    requires t.lps != [] && t.hps != []
    requires forall k :: 0 <= k < |t.lps| ==> LpOk(su, t.lps[k], t.ran)
    requires forall k :: 0 <= k < |t.hps| ==> HpOk(su, t.hps[k])
    requires Eases(TallyOf(c), TallyOf(t))
    ensures ClusterInv(su, t)
  {
    EasesLedger(su, TallyOf(c), TallyOf(t), c.objects, c.promotions, c.ran);
  }

  lemma Cancel(a: multiset<Id>, b: multiset<Id>, m: multiset<Id>)
    requires a + m == b + m
    ensures a == b
  {
    forall id ensures a[id] == b[id] { assert (a + m)[id] == (b + m)[id]; }
  }

  lemma Dropped(q: seq<Id>, i: nat)
    requires i < |q|
    ensures multiset(q) == multiset(DropAt(q, i)) + multiset{q[i]}
  {
    assert q == q[..i] + [q[i]] + q[i + 1..];
  }

  lemma HeadOff(q: seq<Id>)
    requires q != []
    ensures multiset(q) == multiset(q[1..]) + multiset{q[0]}
  {
    assert q == [q[0]] + q[1..];
  }

  /** What each move does to the tally. */

  // m leaves one place for another.
  ghost predicate Passes(a: multiset<Id>, b: multiset<Id>, m: multiset<Id>) {
    b + m == a
  }

  // x + m on one side of an exchange, x on the other.
  lemma Exchange(b: multiset<Id>, was: multiset<Id>, a: multiset<Id>, now: multiset<Id>, m: multiset<Id>)
    requires b + was == a + now
    ensures was == now + m ==> Passes(a, b, m)
    ensures now == was + m ==> Passes(b, a, m)
    ensures was == now ==> a == b
  {
    forall id ensures (was == now + m ==> b[id] + m[id] == a[id]) && (now == was + m ==> a[id] + m[id] == b[id])
                      && (was == now ==> a[id] == b[id]) {
      assert (b + was)[id] == (a + now)[id];
    }
    assert was == now + m ==> b + m == a by {
      if was == now + m { forall id ensures (b + m)[id] == a[id] {} }
    }
    assert now == was + m ==> a + m == b by {
      if now == was + m { forall id ensures (a + m)[id] == b[id] {} }
    }
    assert was == now ==> a == b by {
      if was == now { forall id ensures a[id] == b[id] {} }
    }
  }

  lemma UnseenToQueued(a: Tally, b: Tally, m: multiset<Id>)
    requires Passes(a.unseen, b.unseen, m) && Passes(b.queued, a.queued, m)
    requires b.direct == a.direct && b.pipe == a.pipe && b.late == a.late
    ensures Eases(a, b)
  {
    forall id ensures b.All()[id] == a.All()[id] && b.Early()[id] <= a.Early()[id] && b.unseen[id] <= a.unseen[id] {
      assert (b.unseen + m)[id] == a.unseen[id] && (a.queued + m)[id] == b.queued[id];
    }
  }

  lemma UnseenToDirect(a: Tally, b: Tally, m: multiset<Id>)
    requires Passes(a.unseen, b.unseen, m) && Passes(b.direct, a.direct, m)
    requires b.queued == a.queued && b.pipe == a.pipe && b.late == a.late
    ensures Eases(a, b)
  {
    forall id ensures b.All()[id] == a.All()[id] && b.Early()[id] <= a.Early()[id] && b.unseen[id] <= a.unseen[id] {
      assert (b.unseen + m)[id] == a.unseen[id] && (a.direct + m)[id] == b.direct[id];
    }
  }

  lemma DirectToLate(a: Tally, b: Tally, m: multiset<Id>)
    requires Passes(a.direct, b.direct, m) && Passes(b.late, a.late, m)
    requires b.unseen == a.unseen && b.queued == a.queued && b.pipe == a.pipe
    ensures Eases(a, b)
  {
    forall id ensures b.All()[id] == a.All()[id] && b.Early()[id] <= a.Early()[id] {
      assert (b.direct + m)[id] == a.direct[id] && (a.late + m)[id] == b.late[id];
    }
  }

  lemma PipeToLate(a: Tally, b: Tally, m: multiset<Id>)
    requires Passes(a.pipe, b.pipe, m) && Passes(b.late, a.late, m)
    requires b.unseen == a.unseen && b.queued == a.queued && b.direct == a.direct
    ensures Eases(a, b)
  {
    forall id ensures b.All()[id] == a.All()[id] && b.pipe[id] <= a.pipe[id] {
      assert (b.pipe + m)[id] == a.pipe[id] && (a.late + m)[id] == b.late[id];
    }
  }

  lemma LpDeliverTally(c: State, k: nat, i: nat)
    requires k < |c.lps| && i < |c.lps[k].mail|
    ensures TallyOf(WithLp(c, k, LpDelivered(c.lps[k], i))) == TallyOf(c)
  {
    var lp := c.lps[k];
    var x := LpDelivered(lp, i);
    Dropped(lp.mail, i);
    assert LpUnseen(x) == LpUnseen(lp);
    ReplaceLp(c, k, x);
    SameLp(TallyOf(c), TallyOf(WithLp(c, k, x)), lp, x);
  }

  lemma SameLp(a: Tally, b: Tally, was: Lp, x: Lp)
    requires LpUnseen(x) == LpUnseen(was) && LpQueued(x) == LpQueued(was) && LpPipe(x) == LpPipe(was)
    requires b.unseen + LpUnseen(was) == a.unseen + LpUnseen(x)
    requires b.queued + LpQueued(was) == a.queued + LpQueued(x)
    requires b.pipe + LpPipe(was) == a.pipe + LpPipe(x)
    requires b.direct == a.direct && b.late == a.late
    ensures a == b
  {
    Cancel(a.unseen, b.unseen, LpUnseen(x));
    Cancel(a.queued, b.queued, LpQueued(x));
    Cancel(a.pipe, b.pipe, LpPipe(x));
  }

  lemma SameHp(a: Tally, b: Tally, was: Hp, x: Hp)
    requires HpDirect(x) == HpDirect(was) && HpPipe(x) == HpPipe(was) && HpQueued(x) == HpQueued(was)
    requires b.direct + HpDirect(was) == a.direct + HpDirect(x)
    requires b.pipe + HpPipe(was) == a.pipe + HpPipe(x)
    requires b.late + HpQueued(was) == a.late + HpQueued(x)
    requires b.unseen == a.unseen && b.queued == a.queued
    ensures a == b
  {
    Cancel(a.direct, b.direct, HpDirect(x));
    Cancel(a.pipe, b.pipe, HpPipe(x));
    Cancel(a.late, b.late, HpQueued(x));
  }

  lemma LpIngestMoves(lp: Lp, view: SeqView)
    requires lp.inbox != []
    ensures var x, m := LpIngested(lp, view), multiset{lp.inbox[0]};
            LpUnseen(lp) == LpUnseen(x) + m && LpQueued(x) == LpQueued(lp) + m && LpPipe(x) == LpPipe(lp)
  {
    HeadOff(lp.inbox);
  }

  lemma LpIngestTally(c: State, k: nat, view: SeqView)
    requires k < |c.lps| && c.lps[k].inbox != []
    ensures Eases(TallyOf(c), TallyOf(WithLp(c, k, LpIngested(c.lps[k], view))))
  {
    var lp := c.lps[k];
    var x := LpIngested(lp, view);
    var a, b, m := TallyOf(c), TallyOf(WithLp(c, k, x)), multiset{lp.inbox[0]};
    LpIngestMoves(lp, view);
    ReplaceLp(c, k, x);
    Exchange(b.unseen, LpUnseen(lp), a.unseen, LpUnseen(x), m);
    Exchange(b.queued, LpQueued(lp), a.queued, LpQueued(x), m);
    Exchange(b.pipe, LpPipe(lp), a.pipe, LpPipe(x), m);
    UnseenToQueued(a, b, m);
  }

  lemma {:induction false} FlatAppend(qs: seq<seq<Id>>, rs: seq<seq<Id>>)
    ensures Flat(qs + rs) == Flat(qs) + Flat(rs)
  {
    if qs == [] {
      assert qs + rs == rs;
    } else {
      assert (qs + rs)[1..] == qs[1..] + rs;
      FlatAppend(qs[1..], rs);
    }
  }

  lemma PollTally(c: State, k: nat)
    requires k < |c.lps|
    ensures TallyOf(WithLp(c, k, Polled(c.lps[k]))) == TallyOf(c)
  {
    var lp := c.lps[k];
    var x := Polled(lp);
    FlatAppend(lp.replies, [lp.offload]);
    assert Flat([lp.offload]) == multiset(lp.offload) + Flat([lp.offload][1..]);
    assert LpPipe(x) == LpPipe(lp);
    ReplaceLp(c, k, x);
    SameLp(TallyOf(c), TallyOf(WithLp(c, k, x)), lp, x);
  }

  lemma {:induction false} FlatAt(qs: seq<seq<Id>>, i: nat)
    requires i < |qs|
    ensures Flat(qs) == Flat(qs[..i] + qs[i + 1..]) + multiset(qs[i])
  {
    if i == 0 {
      assert qs[..0] + qs[1..] == qs[1..];
    } else {
      var rest := qs[1..];
      FlatAt(rest, i - 1);
      assert qs[..i] + qs[i + 1..] == [qs[0]] + (rest[..i - 1] + rest[i..]);
      FlatFront(qs[0], rest[..i - 1] + rest[i..]);
    }
  }

  lemma FlatFront(q: seq<Id>, qs: seq<seq<Id>>)
    ensures Flat([q] + qs) == multiset(q) + Flat(qs)
  {
    assert ([q] + qs)[1..] == qs;
  }

  lemma ReplyTally(c: State, k: nat, i: nat)
    requires k < |c.lps| && i < |c.lps[k].replies|
    ensures TallyOf(WithLp(c, k, Answered(c.lps[k], i)).(highQueue := c.highQueue + c.lps[k].replies[i])) == TallyOf(c)
  {
    var lp := c.lps[k];
    var x := Answered(lp, i);
    var m := multiset(lp.replies[i]);
    var w := WithLp(c, k, x);
    var t := w.(highQueue := c.highQueue + lp.replies[i]);
    FlatAt(lp.replies, i);
    assert LpPipe(lp) == LpPipe(x) + m;
    ReplaceLp(c, k, x);
    var a, b := TallyOf(c), TallyOf(w);
    Exchange(b.unseen, LpUnseen(lp), a.unseen, LpUnseen(x), m);
    Exchange(b.queued, LpQueued(lp), a.queued, LpQueued(x), m);
    Exchange(b.pipe, LpPipe(lp), a.pipe, LpPipe(x), m);
    HighGains(w, t, m);
    assert TallyOf(t).pipe == a.pipe;
  }

  lemma HighGains(w: State, t: State, m: multiset<Id>)
    requires t == w.(highQueue := t.highQueue, highIdx := t.highIdx)
    requires multiset(t.highQueue) == multiset(w.highQueue) + m
    ensures TallyOf(t) == TallyOf(w).(pipe := TallyOf(w).pipe + m)
  {
    forall id ensures TallyOf(t).pipe[id] == (TallyOf(w).pipe + m)[id] {}
    assert TallyOf(t).pipe == TallyOf(w).pipe + m;
  }

  lemma ScheduleGains(w: State, t: State, m: multiset<Id>)
    requires t == w.(toSchedule := t.toSchedule, lowIdx := t.lowIdx, highIdx := t.highIdx)
    requires multiset(t.toSchedule) == multiset(w.toSchedule) + m
    ensures TallyOf(t) == TallyOf(w).(unseen := TallyOf(w).unseen + m)
  {
    forall id ensures TallyOf(t).unseen[id] == (TallyOf(w).unseen + m)[id] {}
    assert TallyOf(t).unseen == TallyOf(w).unseen + m;
  }

  lemma HpDeliverTally(c: State, k: nat, i: nat)
    requires k < |c.hps| && i < |c.hps[k].mail|
    ensures TallyOf(WithHp(c, k, HpDelivered(c.hps[k], i))) == TallyOf(c)
  {
    var hp := c.hps[k];
    var x := HpDelivered(hp, i);
    Dropped(hp.mail, i);
    assert HpDirect(x) == HpDirect(hp);
    ReplaceHp(c, k, x);
    SameHp(TallyOf(c), TallyOf(WithHp(c, k, x)), hp, x);
  }

  lemma HpReceiveTally(c: State, k: nat, i: nat)
    requires k < |c.hps| && i < |c.hps[k].parcels|
    ensures TallyOf(WithHp(c, k, HpReceived(c.hps[k], i))) == TallyOf(c)
  {
    var hp := c.hps[k];
    var x := HpReceived(hp, i);
    Dropped(hp.parcels, i);
    assert HpPipe(x) == HpPipe(hp);
    ReplaceHp(c, k, x);
    SameHp(TallyOf(c), TallyOf(WithHp(c, k, x)), hp, x);
  }

  lemma HpIngestTally(c: State, k: nat, view: SeqView)
    requires k < |c.hps| && c.hps[k].inbox != []
    ensures Eases(TallyOf(c), TallyOf(WithHp(c, k, HpIngested(c.hps[k], view))))
  {
    var hp := c.hps[k];
    var x := HpIngested(hp, view);
    var a, b, m := TallyOf(c), TallyOf(WithHp(c, k, x)), multiset{hp.inbox[0]};
    HeadOff(hp.inbox);
    assert HpDirect(hp) == HpDirect(x) + m && HpQueued(x) == HpQueued(hp) + m;
    ReplaceHp(c, k, x);
    Exchange(b.direct, HpDirect(hp), a.direct, HpDirect(x), m);
    Exchange(b.pipe, HpPipe(hp), a.pipe, HpPipe(x), m);
    Exchange(b.late, HpQueued(hp), a.late, HpQueued(x), m);
    DirectToLate(a, b, m);
  }

  lemma HpInstallTally(c: State, k: nat)
    requires k < |c.hps| && c.hps[k].pending != []
    ensures Eases(TallyOf(c), TallyOf(WithHp(c, k, HpInstalled(c.hps[k], c.objects))))
  {
    var hp := c.hps[k];
    var x := HpInstalled(hp, c.objects);
    var a, b, m := TallyOf(c), TallyOf(WithHp(c, k, x)), multiset{hp.pending[0]};
    InstallMoves(hp, c.objects);
    ReplaceHp(c, k, x);
    InstallEases(a, b, hp, x, m);
  }

  lemma InstallMoves(was: Hp, objects: SeqMap)
    requires was.pending != []
    ensures var x, m := HpInstalled(was, objects), multiset{was.pending[0]};
            && HpPipe(was) == HpPipe(x) + m
            && HpQueued(x) == HpQueued(was) + m
            && HpDirect(x) == HpDirect(was)
  {
    var id, x := was.pending[0], HpInstalled(was, objects);
    HeadOff(was.pending);
    assert multiset(x.engine.waiting) == multiset(was.engine.waiting) + multiset{id};
  }

  lemma InstallEases(a: Tally, b: Tally, was: Hp, x: Hp, m: multiset<Id>)
    requires HpPipe(was) == HpPipe(x) + m && HpQueued(x) == HpQueued(was) + m && HpDirect(x) == HpDirect(was)
    requires b.direct + HpDirect(was) == a.direct + HpDirect(x)
    requires b.pipe + HpPipe(was) == a.pipe + HpPipe(x)
    requires b.late + HpQueued(was) == a.late + HpQueued(x)
    requires b.unseen == a.unseen && b.queued == a.queued
    ensures Eases(a, b)
  {
    Exchange(b.direct, HpDirect(was), a.direct, HpDirect(x), m);
    Exchange(b.pipe, HpPipe(was), a.pipe, HpPipe(x), m);
    Exchange(b.late, HpQueued(was), a.late, HpQueued(x), m);
    PipeToLate(a, b, m);
  }

  lemma RoutedHighTally(c: State)
    requires c.lps != [] && c.hps != [] && c.highQueue != []
    ensures TallyOf(Routed(c, true)) == TallyOf(c) == TallyOf(Routed(c, false))
  {
    var h := c.highIdx % |c.hps|;
    var hp, m := c.hps[h], multiset{c.highQueue[0]};
    var x := hp.(parcels := hp.parcels + [c.highQueue[0]]);
    var w := WithHp(c, h, x);
    var t := Routed(c, true);
    var a, b := TallyOf(c), TallyOf(w);
    assert HpPipe(x) == HpPipe(hp) + m;
    ReplaceHp(c, h, x);
    Exchange(b.direct, HpDirect(hp), a.direct, HpDirect(x), m);
    Exchange(b.pipe, HpPipe(hp), a.pipe, HpPipe(x), m);
    Exchange(b.late, HpQueued(hp), a.late, HpQueued(x), m);
    HeadOff(c.highQueue);
    HighGains(t, w.(highIdx := t.highIdx), m);
    assert TallyOf(w.(highIdx := t.highIdx)) == b;
    Cancel(TallyOf(t).pipe, a.pipe, m);
  }

  lemma RoutedTicketTally(c: State)
    requires c.lps != [] && c.hps != [] && c.highQueue == [] && c.toSchedule != []
    ensures Eases(TallyOf(c), TallyOf(Routed(c, true)))
  {
    var h := c.highIdx % |c.hps|;
    var hp, m := c.hps[h], multiset{c.toSchedule[0]};
    var x := hp.(mail := hp.mail + [c.toSchedule[0]]);
    var w := WithHp(c, h, x);
    var t := Routed(c, true);
    var a, b := TallyOf(c), TallyOf(w);
    assert HpDirect(x) == HpDirect(hp) + m;
    ReplaceHp(c, h, x);
    Exchange(b.direct, HpDirect(hp), a.direct, HpDirect(x), m);
    Exchange(b.pipe, HpPipe(hp), a.pipe, HpPipe(x), m);
    Exchange(b.late, HpQueued(hp), a.late, HpQueued(x), m);
    HeadOff(c.toSchedule);
    ScheduleGains(t, w.(highIdx := t.highIdx), m);
    assert TallyOf(w.(highIdx := t.highIdx)) == b;
    UnseenToDirect(a, TallyOf(t), m);
  }

  lemma RoutedLowTally(c: State)
    requires c.lps != [] && c.hps != [] && c.highQueue == [] && c.toSchedule != []
    ensures TallyOf(Routed(c, false)) == TallyOf(c)
  {
    var l := c.lowIdx % |c.lps|;
    var lp, m := c.lps[l], multiset{c.toSchedule[0]};
    var x := lp.(mail := lp.mail + [c.toSchedule[0]]);
    var w := WithLp(c, l, x);
    var t := Routed(c, false);
    var a, b := TallyOf(c), TallyOf(w);
    assert LpUnseen(x) == LpUnseen(lp) + m;
    ReplaceLp(c, l, x);
    Exchange(b.unseen, LpUnseen(lp), a.unseen, LpUnseen(x), m);
    Exchange(b.queued, LpQueued(lp), a.queued, LpQueued(x), m);
    Exchange(b.pipe, LpPipe(lp), a.pipe, LpPipe(x), m);
    HeadOff(c.toSchedule);
    ScheduleGains(t, w.(lowIdx := t.lowIdx), m);
    assert TallyOf(w.(lowIdx := t.lowIdx)) == b;
    Cancel(TallyOf(t).unseen, a.unseen, m);
  }

  /** Nobody is in two places. */

  lemma QueuedAt(c: State, k: nat, id: Id)
    requires k < |c.lps| && (id in c.lps[k].engine.waiting || id in c.lps[k].engine.running)
    ensures TallyOf(c).queued[id] >= 1
  {
    SumMember(c.lps, k, LpQueued, id);
    assert id in multiset(c.lps[k].engine.waiting) || id in multiset(c.lps[k].engine.running);
  }

  lemma UnseenAt(c: State, k: nat, id: Id)
    requires k < |c.lps| && id in c.lps[k].inbox
    ensures TallyOf(c).unseen[id] >= 1
  {
    SumMember(c.lps, k, LpUnseen, id);
    assert id in multiset(c.lps[k].inbox);
  }

  lemma DirectAt(c: State, k: nat, id: Id)
    requires k < |c.hps| && id in c.hps[k].inbox
    ensures TallyOf(c).direct[id] >= 1
  {
    SumMember(c.hps, k, HpDirect, id);
    assert id in multiset(c.hps[k].inbox);
  }

  lemma PipeAt(c: State, k: nat, id: Id)
    requires k < |c.hps| && id in c.hps[k].pending
    ensures TallyOf(c).pipe[id] >= 1
  {
    SumMember(c.hps, k, HpPipe, id);
    assert id in multiset(c.hps[k].pending);
  }

  lemma LateAt(c: State, k: nat, id: Id)
    requires k < |c.hps| && id in c.hps[k].engine.waiting + c.hps[k].engine.running
    ensures TallyOf(c).late[id] >= 1
  {
    SumMember(c.hps, k, HpQueued, id);
    assert id in multiset(c.hps[k].engine.waiting) || id in multiset(c.hps[k].engine.running);
  }

  lemma OnePlace(su: Setup, c: State, id: Id)
    requires ClusterInv(su, c)
    ensures var t := TallyOf(c); t.unseen[id] + t.queued[id] + t.direct[id] + t.pipe[id] + t.late[id] <= 1
  {
    assert TallyOf(c).All()[id] <= 1;
  }

  /** Every move keeps the invariant. */

  // The engines after one low-priority instance has changed without running.
  lemma OthersOk(su: Setup, c: State, k: nat, x: Lp)
    requires ClusterInv(su, c) && k < |c.lps|
    requires LpOk(su, x, c.ran)
    ensures var t := WithLp(c, k, x);
            && (forall j :: 0 <= j < |t.lps| ==> LpOk(su, t.lps[j], t.ran))
            && (forall j :: 0 <= j < |t.hps| ==> HpOk(su, t.hps[j]))
  {
    var t := WithLp(c, k, x);
    assert t.hps == c.hps && t.ran == c.ran;
    forall j | 0 <= j < |t.lps| ensures LpOk(su, t.lps[j], t.ran) {
      if j != k { assert t.lps[j] == c.lps[j]; }
    }
  }

  lemma OtherHpsOk(su: Setup, c: State, k: nat, x: Hp)
    requires ClusterInv(su, c) && k < |c.hps|
    requires HpOk(su, x)
    ensures var t := WithHp(c, k, x);
            && (forall j :: 0 <= j < |t.lps| ==> LpOk(su, t.lps[j], t.ran))
            && (forall j :: 0 <= j < |t.hps| ==> HpOk(su, t.hps[j]))
  {
    var t := WithHp(c, k, x);
    assert t.lps == c.lps && t.ran == c.ran;
    forall j | 0 <= j < |t.hps| ensures HpOk(su, t.hps[j]) {
      if j != k { assert t.hps[j] == c.hps[j]; }
    }
  }

  lemma RouteHighKeeps(su: Setup, c: State, ticket: bool)
    requires ClusterInv(su, c) && c.highQueue != []
    ensures ClusterInv(su, Routed(c, ticket)) && TallyOf(Routed(c, ticket)) == TallyOf(c)
  {
    var h := c.highIdx % |c.hps|;
    assert HpOk(su, c.hps[h]);
    OtherHpsOk(su, c, h, c.hps[h].(parcels := c.hps[h].parcels + [c.highQueue[0]]));
    RoutedHighTally(c);
    MoveKeeps(su, c, Routed(c, ticket));
  }

  lemma RouteTicketKeeps(su: Setup, c: State)
    requires ClusterInv(su, c) && c.highQueue == [] && c.toSchedule != []
    ensures ClusterInv(su, Routed(c, true)) && TallyOf(Routed(c, true)).All() == TallyOf(c).All()
  {
    var h := c.highIdx % |c.hps|;
    assert HpOk(su, c.hps[h]);
    OtherHpsOk(su, c, h, c.hps[h].(mail := c.hps[h].mail + [c.toSchedule[0]]));
    RoutedTicketTally(c);
    MoveKeeps(su, c, Routed(c, true));
  }

  lemma RouteLowKeeps(su: Setup, c: State)
    requires ClusterInv(su, c) && c.highQueue == [] && c.toSchedule != []
    ensures ClusterInv(su, Routed(c, false)) && TallyOf(Routed(c, false)) == TallyOf(c)
  {
    var l := c.lowIdx % |c.lps|;
    assert LpOk(su, c.lps[l], c.ran);
    OthersOk(su, c, l, c.lps[l].(mail := c.lps[l].mail + [c.toSchedule[0]]));
    RoutedLowTally(c);
    MoveKeeps(su, c, Routed(c, false));
  }

  lemma RouteKeeps(su: Setup, c: State, ticket: bool)
    requires ClusterInv(su, c)
    ensures ClusterInv(su, Routed(c, ticket))
    ensures TallyOf(Routed(c, ticket)).All() == TallyOf(c).All()
  {
    if c.highQueue != [] {
      RouteHighKeeps(su, c, ticket);
    } else if c.toSchedule != [] && ticket {
      RouteTicketKeeps(su, c);
    } else if c.toSchedule != [] {
      RouteLowKeeps(su, c);
    }
  }

  // A low-priority instance passes messages on.
  lemma LpMessageKeeps(su: Setup, c: State, k: nat, x: Lp)
    requires ClusterInv(su, c) && k < |c.lps|
    requires x.engine == c.lps[k].engine
    requires TallyOf(WithLp(c, k, x)) == TallyOf(c)
    ensures ClusterInv(su, WithLp(c, k, x))
  {
    assert LpOk(su, x, c.ran) by { assert LpOk(su, c.lps[k], c.ran); }
    OthersOk(su, c, k, x);
    MoveKeeps(su, c, WithLp(c, k, x));
  }

  lemma HpMessageKeeps(su: Setup, c: State, k: nat, x: Hp)
    requires ClusterInv(su, c) && k < |c.hps|
    requires x.engine == c.hps[k].engine
    requires TallyOf(WithHp(c, k, x)) == TallyOf(c)
    ensures ClusterInv(su, WithHp(c, k, x))
  {
    assert HpOk(su, x) by { assert HpOk(su, c.hps[k]); }
    OtherHpsOk(su, c, k, x);
    MoveKeeps(su, c, WithHp(c, k, x));
  }

  lemma ReplyKeeps(su: Setup, c: State, k: nat, i: nat)
    requires ClusterInv(su, c) && k < |c.lps| && i < |c.lps[k].replies|
    ensures var t := WithLp(c, k, Answered(c.lps[k], i)).(highQueue := c.highQueue + c.lps[k].replies[i]);
            ClusterInv(su, t) && TallyOf(t) == TallyOf(c)
  {
    var x := Answered(c.lps[k], i);
    assert LpOk(su, x, c.ran) by { assert LpOk(su, c.lps[k], c.ran); }
    OthersOk(su, c, k, x);
    ReplyTally(c, k, i);
    MoveKeeps(su, c, WithLp(c, k, x).(highQueue := c.highQueue + c.lps[k].replies[i]));
  }

  lemma IngestedLpOk(su: Setup, x: Lp, view: SeqView, ran: set<Id>)
    requires su.Valid() && LpOk(su, x, ran)
    requires x.inbox != [] && x.inbox[0] !in x.engine.waiting + x.engine.running && x.inbox[0] !in ran
    requires Fresh(view) && su.Serves(view)
    ensures LpOk(su, LpIngested(x, view), ran)
  {
    LowPriority.ArriveKeepsLpInv(su.lp, x.engine, x.inbox[0], view);
    var e, f, id := x.engine, LpIngested(x, view).engine, x.inbox[0];
    forall y | y in f.waiting && y in ran ensures Look(f.seqs, y).everScheduled {
      assert y != id && y in e.waiting;
    }
  }

  lemma LpIngestKeeps(su: Setup, c: State, k: nat, view: SeqView)
    requires ClusterInv(su, c) && k < |c.lps| && c.lps[k].inbox != []
    requires Fresh(view) && su.Serves(view)
    ensures ClusterInv(su, WithLp(c, k, LpIngested(c.lps[k], view)))
    ensures TallyOf(WithLp(c, k, LpIngested(c.lps[k], view))).All() == TallyOf(c).All()
  {
    var lp := c.lps[k];
    var id := lp.inbox[0];
    UnseenAt(c, k, id);
    OnePlace(su, c, id);
    if id in lp.engine.waiting + lp.engine.running { QueuedAt(c, k, id); }
    assert id in TallyOf(c).unseen;
    IngestedLpOk(su, lp, view, c.ran);
    OthersOk(su, c, k, LpIngested(lp, view));
    LpIngestTally(c, k, view);
    MoveKeeps(su, c, WithLp(c, k, LpIngested(lp, view)));
  }

  lemma HpIngestKeeps(su: Setup, c: State, k: nat, view: SeqView)
    requires ClusterInv(su, c) && k < |c.hps| && c.hps[k].inbox != []
    requires Fresh(view) && su.Serves(view)
    ensures ClusterInv(su, WithHp(c, k, HpIngested(c.hps[k], view)))
    ensures TallyOf(WithHp(c, k, HpIngested(c.hps[k], view))).All() == TallyOf(c).All()
  {
    var hp := c.hps[k];
    var id := hp.inbox[0];
    DirectAt(c, k, id);
    OnePlace(su, c, id);
    if id in hp.engine.waiting + hp.engine.running { LateAt(c, k, id); }
    PrefillFirst.ArriveKeepsInv(su.hp, hp.engine, id, view);
    OtherHpsOk(su, c, k, HpIngested(hp, view));
    HpIngestTally(c, k, view);
    MoveKeeps(su, c, WithHp(c, k, HpIngested(hp, view)));
  }

  lemma HpInstallKeeps(su: Setup, c: State, k: nat)
    requires ClusterInv(su, c) && k < |c.hps| && c.hps[k].pending != []
    ensures ClusterInv(su, WithHp(c, k, HpInstalled(c.hps[k], c.objects)))
    ensures TallyOf(WithHp(c, k, HpInstalled(c.hps[k], c.objects))).All() == TallyOf(c).All()
  {
    var hp := c.hps[k];
    var id := hp.pending[0];
    PipeAt(c, k, id);
    OnePlace(su, c, id);
    if id in hp.engine.waiting + hp.engine.running { LateAt(c, k, id); }
    assert id in TallyOf(c).pipe;
    assert Parcel(su, c.objects, id);
    PrefillFirst.ArriveKeepsInv(su.hp, hp.engine, id, c.objects[id]);
    OtherHpsOk(su, c, k, HpInstalled(hp, c.objects));
    HpInstallTally(c, k);
    MoveKeeps(su, c, WithHp(c, k, HpInstalled(hp, c.objects)));
  }

  lemma DoneGains(w: State, t: State, gone: seq<Id>)
    requires t == w.(done := w.done + gone, objects := t.objects, promotions := t.promotions, ran := t.ran)
    ensures TallyOf(t) == TallyOf(w).(late := TallyOf(w).late + multiset(gone))
  {
    forall id ensures TallyOf(t).late[id] == (TallyOf(w).late + multiset(gone))[id] {}
    assert TallyOf(t).late == TallyOf(w).late + multiset(gone);
  }

  lemma HpTickKeeps(su: Setup, c: State, k: nat, input: PrefillFirst.Input)
    requires ClusterInv(su, c) && k < |c.hps|
    ensures ClusterInv(su, HpTicked(su, c, k, input))
    ensures TallyOf(HpTicked(su, c, k, input)) == TallyOf(c)
  {
    var kind := PrefillFirst.HighPriority(su.enforce, su.ttft);
    var hp := c.hps[k];
    var x := hp.(engine := PrefillFirst.Step(kind, su.hp, hp.engine, input));
    var gone := Conservation.Leavers(kind, su.hp, hp.engine, input);
    var w := WithHp(c, k, x);
    var t := HpTicked(su, c, k, input);
    assert HpOk(su, hp);
    PrefillFirst.StepKeepsInv(kind, su.hp, hp.engine, input);
    Conservation.StepConserves(kind, su.hp, hp.engine, input);
    assert HpQueued(hp) == HpQueued(x) + multiset(gone);
    OtherHpsOk(su, c, k, x);
    ReplaceHp(c, k, x);
    var a, b, m := TallyOf(c), TallyOf(w), multiset(gone);
    Exchange(b.direct, HpDirect(hp), a.direct, HpDirect(x), m);
    Exchange(b.pipe, HpPipe(hp), a.pipe, HpPipe(x), m);
    Exchange(b.late, HpQueued(hp), a.late, HpQueued(x), m);
    DoneGains(w, t, gone);
    assert TallyOf(t) == a;
    MoveKeeps(su, c, t);
  }

  /** The step of a low-priority instance, where promotions are made. */

  // Requests leave the queues for the pipe and for good.
  ghost predicate Promotes(a: Tally, b: Tally, promoted: seq<Id>, gone: seq<Id>) {
    && b.unseen == a.unseen && b.direct == a.direct
    && a.queued == b.queued + multiset(promoted) + multiset(gone)
    && b.pipe == a.pipe + multiset(promoted)
    && b.late == a.late + multiset(gone)
  }

  lemma ReplacedPromotes(a: Tally, b: Tally, was: Lp, x: Lp, promoted: seq<Id>, gone: seq<Id>)
    requires b.unseen + LpUnseen(was) == a.unseen + LpUnseen(x)
    requires b.queued + LpQueued(was) == a.queued + LpQueued(x)
    requires b.pipe + LpPipe(was) == a.pipe + LpPipe(x)
    requires b.direct == a.direct && b.late == a.late
    requires LpUnseen(x) == LpUnseen(was)
    requires LpQueued(was) == LpQueued(x) + (multiset(promoted) + multiset(gone))
    requires LpPipe(x) == LpPipe(was) + multiset(promoted)
    ensures Promotes(a, b.(late := b.late + multiset(gone)), promoted, gone)
  {
    var m := multiset(promoted) + multiset(gone);
    Exchange(b.unseen, LpUnseen(was), a.unseen, LpUnseen(x), m);
    Exchange(b.queued, LpQueued(was), a.queued, LpQueued(x), m);
    Exchange(b.pipe, LpPipe(was), a.pipe, LpPipe(x), multiset(promoted));
  }

  lemma LpTickTally(su: Setup, c: State, k: nat, input: LowPriority.LpInput)
    requires su.Valid() && k < |c.lps| && LpOk(su, c.lps[k], c.ran)
    ensures Promotes(TallyOf(c), TallyOf(LpTicked(su, c, k, input)),
                     LowPriority.Step(su.lp, c.lps[k].engine, input).promoted,
                     Offloading.Leavers(su.lp, c.lps[k].engine, input))
  {
    var lp := c.lps[k];
    var o := LowPriority.Step(su.lp, lp.engine, input);
    var gone := Offloading.Leavers(su.lp, lp.engine, input);
    var x := lp.(engine := o.engine, offload := lp.offload + o.promoted);
    var w := WithLp(c, k, x);
    StepQueues(su, lp, x, input, o.promoted, gone);
    ReplaceLp(c, k, x);
    ReplacedPromotes(TallyOf(c), TallyOf(w), lp, x, o.promoted, gone);
    DoneGains(w, LpTicked(su, c, k, input), gone);
  }

  lemma StepQueues(su: Setup, was: Lp, x: Lp, input: LowPriority.LpInput, promoted: seq<Id>, gone: seq<Id>)
    requires su.Valid() && LowPriority.LpInv(su.lp, was.engine)
    requires var o := LowPriority.Step(su.lp, was.engine, input);
             x == was.(engine := o.engine, offload := was.offload + promoted) && promoted == o.promoted
    requires gone == Offloading.Leavers(su.lp, was.engine, input)
    ensures LpUnseen(x) == LpUnseen(was)
    ensures LpQueued(was) == LpQueued(x) + (multiset(promoted) + multiset(gone))
    ensures LpPipe(x) == LpPipe(was) + multiset(promoted)
  {
    Offloading.StepConserves(su.lp, was.engine, input);
  }

  // What the step says of each promoted request and of each holder, in terms of the ledger.
  ghost predicate FirstTime(a: Tally, ran: set<Id>, holders: set<Id>, promoted: seq<Id>) {
    && (forall id :: id in promoted ==> id in a.queued && id !in holders && id !in ran)
    && (forall id :: id in holders ==> id in a.queued)
  }

  // The ledger's entry for one request.
  ghost predicate Entry(su: Setup, t: Tally, objects: SeqMap, promotions: seq<Id>, ran: set<Id>, id: Id)
    requires su.Valid()
  {
    && t.All()[id] <= 1
    && multiset(promotions)[id] <= 1
    && (id in t.pipe ==> Parcel(su, objects, id) && id in promotions)
    && (id in promotions ==> id !in ran && id !in t.Early() && id in t.All())
    && (id in ran ==> id !in t.unseen && id in t.All())
  }

  lemma EntriesMakeLedger(su: Setup, t: Tally, objects: SeqMap, promotions: seq<Id>, ran: set<Id>)
    requires su.Valid()
    requires forall id :: Entry(su, t, objects, promotions, ran, id)
    ensures Ledger(su, t, objects, promotions, ran)
  {
    forall id
      ensures t.All()[id] <= 1 && multiset(promotions)[id] <= 1
      ensures id in t.pipe ==> Parcel(su, objects, id) && id in promotions
      ensures id in promotions ==> id !in ran && id !in t.Early() && id in t.All()
      ensures id in ran ==> id !in t.unseen && id in t.All()
    {
      assert Entry(su, t, objects, promotions, ran, id);
    }
  }

  lemma PromotesLedger(su: Setup, a: Tally, b: Tally, objects: SeqMap, now: SeqMap, promotions: seq<Id>,
                       ran: set<Id>, holders: set<Id>, promoted: seq<Id>, gone: seq<Id>)
    requires su.Valid()
    requires Ledger(su, a, objects, promotions, ran)
    requires Promotes(a, b, promoted, gone)
    requires FirstTime(a, ran, holders, promoted)
    requires forall id :: id in promoted ==> Parcel(su, now, id)
    requires forall id :: id in objects && id !in promoted ==> id in now && now[id] == objects[id]
    ensures Ledger(su, b, now, promotions + promoted, ran + holders)
  {
    forall id ensures Entry(su, b, now, promotions + promoted, ran + holders, id) {
      LedgerEntry(su, a, objects, promotions, ran, id);
      PromotesOne(su, a, b, objects, now, promotions, ran, holders, promoted, gone, id);
    }
    EntriesMakeLedger(su, b, now, promotions + promoted, ran + holders);
  }

  lemma LedgerEntry(su: Setup, t: Tally, objects: SeqMap, promotions: seq<Id>, ran: set<Id>, id: Id)
    requires su.Valid() && Ledger(su, t, objects, promotions, ran)
    ensures Entry(su, t, objects, promotions, ran, id)
  {}

  lemma PromotesOne(su: Setup, a: Tally, b: Tally, objects: SeqMap, now: SeqMap, promotions: seq<Id>,
                    ran: set<Id>, holders: set<Id>, promoted: seq<Id>, gone: seq<Id>, id: Id)
    requires su.Valid()
    requires Entry(su, a, objects, promotions, ran, id)
    requires Promotes(a, b, promoted, gone)
    requires FirstTime(a, ran, holders, promoted)
    requires id in promoted ==> Parcel(su, now, id)
    requires id in objects && id !in promoted ==> id in now && now[id] == objects[id]
    ensures Entry(su, b, now, promotions + promoted, ran + holders, id)
  {
    assert a.queued[id] == b.queued[id] + multiset(promoted)[id] + multiset(gone)[id];
    assert id in promoted <==> id in multiset(promoted);
    assert id in promotions <==> id in multiset(promotions);
    assert id in promotions + promoted <==> id in promotions || id in promoted;
  }

  lemma StepFirstTime(su: Setup, c: State, k: nat, input: LowPriority.LpInput)
    requires ClusterInv(su, c) && k < |c.lps|
    ensures FirstTime(TallyOf(c), c.ran, Offloading.Holders(su.lp, c.lps[k].engine, input),
                      LowPriority.Step(su.lp, c.lps[k].engine, input).promoted)
  {
    var e := c.lps[k].engine;
    assert LpOk(su, c.lps[k], c.ran);
    forall id | id in LowPriority.Step(su.lp, e, input).promoted
      ensures id in TallyOf(c).queued && id !in Offloading.Holders(su.lp, e, input) && id !in c.ran
    {
      Offloading.PromotedHoldsNothing(su.lp, e, input, id);
      QueuedAt(c, k, id);
    }
    forall id | id in Offloading.Holders(su.lp, e, input) ensures id in TallyOf(c).queued {
      Offloading.HoldersAreQueued(su.lp, e, input, id);
      QueuedAt(c, k, id);
    }
  }

  // The instance that stepped.
  lemma TickedLpOk(su: Setup, x: Lp, y: Lp, ran: set<Id>, input: LowPriority.LpInput)
    requires su.Valid() && LpOk(su, x, ran)
    requires y.engine == LowPriority.Step(su.lp, x.engine, input).engine
    ensures LpOk(su, y, ran + Offloading.Holders(su.lp, x.engine, input))
  {
    LowPriority.StepKeepsLpInv(su.lp, x.engine, input);
    TickedServed(su, x, input);
    TickedMarked(su, x, ran, input);
  }

  lemma TickedServed(su: Setup, x: Lp, input: LowPriority.LpInput)
    requires su.Valid() && Served(su, x.engine)
    ensures Served(su, LowPriority.Step(su.lp, x.engine, input).engine)
  {
    var f := LowPriority.Step(su.lp, x.engine, input).engine;
    Offloading.StepKeepsCaps(su.lp, x.engine, input);
    CapsServe(su, x.engine.seqs, f.seqs);
  }

  lemma CapsServe(su: Setup, s: SeqMap, t: SeqMap)
    requires su.Valid()
    requires Offloading.SameCaps(s, t)
    requires forall id :: id in s ==> su.hp.Fits(s[id])
    ensures forall id :: id in t ==> su.hp.Fits(t[id])
  {}

  lemma TickedMarked(su: Setup, x: Lp, ran: set<Id>, input: LowPriority.LpInput)
    requires su.Valid() && LpOk(su, x, ran)
    ensures Marked(LowPriority.Step(su.lp, x.engine, input).engine, ran + Offloading.Holders(su.lp, x.engine, input))
  {
    var f := LowPriority.Step(su.lp, x.engine, input).engine;
    forall id | id in f.waiting && id in ran + Offloading.Holders(su.lp, x.engine, input)
      ensures Look(f.seqs, id).everScheduled
    {
      TickedMarks(su, x, ran, input, id);
    }
  }

  lemma TickedMarks(su: Setup, x: Lp, ran: set<Id>, input: LowPriority.LpInput, id: Id)
    requires su.Valid() && LpOk(su, x, ran)
    requires id in LowPriority.Step(su.lp, x.engine, input).engine.waiting
    requires id in ran + Offloading.Holders(su.lp, x.engine, input)
    ensures Look(LowPriority.Step(su.lp, x.engine, input).engine.seqs, id).everScheduled
  {
    Offloading.WaitingHoldersAreMarked(su.lp, x.engine, input, id);
  }

  // The others: nobody waiting there held blocks here.
  lemma OtherLpOk(su: Setup, c: State, j: nat, k: nat, holders: set<Id>)
    requires ClusterInv(su, c)
    requires j < |c.lps| && k < |c.lps| && j != k
    requires forall id :: id in holders ==> id in c.lps[k].engine.waiting || id in c.lps[k].engine.running
    ensures LpOk(su, c.lps[j], c.ran + holders)
  {
    assert LpOk(su, c.lps[j], c.ran);
    var e := c.lps[j].engine;
    forall id | id in holders ensures id !in e.waiting {
      NotQueuedTwice(su, c, j, k, id);
    }
  }

  lemma NotQueuedTwice(su: Setup, c: State, j: nat, k: nat, id: Id)
    requires ClusterInv(su, c)
    requires j < |c.lps| && k < |c.lps| && j != k
    requires id in c.lps[k].engine.waiting || id in c.lps[k].engine.running
    ensures id !in c.lps[j].engine.waiting
  {
    assert id in c.lps[j].engine.waiting <==> id in multiset(c.lps[j].engine.waiting);
    assert id in multiset(c.lps[k].engine.waiting) || id in multiset(c.lps[k].engine.running);
    if j < k { SumTwo(c.lps, j, k, LpQueued, id); } else { SumTwo(c.lps, k, j, LpQueued, id); }
    OnePlace(su, c, id);
  }

  lemma LpTickKeeps(su: Setup, c: State, k: nat, input: LowPriority.LpInput)
    requires ClusterInv(su, c) && k < |c.lps|
    ensures ClusterInv(su, LpTicked(su, c, k, input))
    ensures TallyOf(LpTicked(su, c, k, input)).All() == TallyOf(c).All()
  {
    var lp := c.lps[k];
    var e := lp.engine;
    var o := LowPriority.Step(su.lp, e, input);
    var holders := Offloading.Holders(su.lp, e, input);
    var gone := Offloading.Leavers(su.lp, e, input);
    var t := LpTicked(su, c, k, input);
    assert LpOk(su, lp, c.ran);
    LpTickTally(su, c, k, input);
    StepFirstTime(su, c, k, input);
    forall id | id in o.promoted ensures Parcel(su, t.objects, id) {
      PromotedIsParcel(su, lp, c.ran, input, id);
    }
    PromotesLedger(su, TallyOf(c), TallyOf(t), c.objects, t.objects, c.promotions, c.ran, holders, o.promoted, gone);
    PromotesAll(TallyOf(c), TallyOf(t), o.promoted, gone);
    LpTickEngines(su, c, k, input);
  }

  lemma PromotesAll(a: Tally, b: Tally, promoted: seq<Id>, gone: seq<Id>)
    requires Promotes(a, b, promoted, gone)
    ensures b.All() == a.All()
  {
    forall id ensures b.All()[id] == a.All()[id] {
      assert a.queued[id] == b.queued[id] + multiset(promoted)[id] + multiset(gone)[id];
    }
  }

  lemma PromotedIsParcel(su: Setup, x: Lp, ran: set<Id>, input: LowPriority.LpInput, id: Id)
    requires su.Valid() && LpOk(su, x, ran)
    requires id in LowPriority.Step(su.lp, x.engine, input).promoted
    ensures Fresh(Look(x.engine.seqs, id)) && su.hp.Fits(Look(x.engine.seqs, id))
  {
    Offloading.PromotedHoldsNothing(su.lp, x.engine, input, id);
    assert id in x.engine.seqs;
  }

  lemma LpTickEngines(su: Setup, c: State, k: nat, input: LowPriority.LpInput)
    requires ClusterInv(su, c) && k < |c.lps|
    ensures var t := LpTicked(su, c, k, input);
            && (forall j :: 0 <= j < |t.lps| ==> LpOk(su, t.lps[j], t.ran))
            && (forall j :: 0 <= j < |t.hps| ==> HpOk(su, t.hps[j]))
  {
    var t := LpTicked(su, c, k, input);
    var holders := Offloading.Holders(su.lp, c.lps[k].engine, input);
    assert LpOk(su, c.lps[k], c.ran);
    TickedLpOk(su, c.lps[k], t.lps[k], c.ran, input);
    forall id | id in holders ensures id in c.lps[k].engine.waiting || id in c.lps[k].engine.running {
      Offloading.HoldersAreQueued(su.lp, c.lps[k].engine, input, id);
    }
    forall j | 0 <= j < |t.lps| ensures LpOk(su, t.lps[j], t.ran) {
      if j != k { OtherLpOk(su, c, j, k, holders); }
    }
  }

  lemma SubmitKeeps(su: Setup, c: State, id: Id)
    requires ClusterInv(su, c)
    requires TallyOf(c).All()[id] == 0
    ensures var t := c.(toSchedule := c.toSchedule + [id]);
            ClusterInv(su, t) && TallyOf(t).All() == TallyOf(c).All() + multiset{id}
  {
    var t := c.(toSchedule := c.toSchedule + [id]);
    ScheduleGains(c, t, multiset{id});
    UnseenGains(TallyOf(c), TallyOf(t), multiset{id});
    SubmitLedger(su, TallyOf(c), TallyOf(t), c.objects, c.promotions, c.ran, id);
  }

  lemma UnseenGains(a: Tally, b: Tally, m: multiset<Id>)
    requires b == a.(unseen := a.unseen + m)
    ensures b.All() == a.All() + m
  {
    forall x ensures b.All()[x] == (a.All() + m)[x] {}
  }

  lemma SubmitLedger(su: Setup, a: Tally, b: Tally, objects: SeqMap, promotions: seq<Id>, ran: set<Id>, id: Id)
    requires su.Valid()
    requires Ledger(su, a, objects, promotions, ran)
    requires a.All()[id] == 0
    requires b == a.(unseen := a.unseen + multiset{id})
    ensures Ledger(su, b, objects, promotions, ran)
  {
    forall x ensures b.All()[x] <= 1 { assert a.All()[x] <= 1; }
    assert id !in promotions && id !in ran;
    forall x | x in promotions ensures x !in b.Early() && x in b.All() { assert x !in a.Early() && x in a.All(); }
    forall x | x in ran ensures x !in b.unseen && x in b.All() { assert x !in a.unseen && x in a.All(); }
  }

  /** Runs. */

  ghost predicate Proper(su: Setup, c: State, event: Event)
    requires su.Valid()
  {
    && (event.Submit? ==> TallyOf(c).All()[event.id] == 0)
    && (event.LpIngest? || event.HpIngest? ==> Fresh(event.view) && su.Serves(event.view))
  }

  function Newcomer(event: Event): multiset<Id> {
    if event.Submit? then multiset{event.id} else multiset{}
  }

  ghost predicate Kept(su: Setup, c: State, t: State, newcomers: multiset<Id>) {
    ClusterInv(su, t) && TallyOf(t).All() == TallyOf(c).All() + newcomers
  }

  lemma KeptNothingNew(su: Setup, c: State, t: State)
    requires ClusterInv(su, t)
    requires TallyOf(t).All() == TallyOf(c).All()
    ensures Kept(su, c, t, multiset{})
  {
    assert TallyOf(c).All() + multiset{} == TallyOf(c).All();
  }

  lemma LpRequestKeeps(su: Setup, c: State, k: nat, i: nat, view: SeqView)
    requires ClusterInv(su, c) && k < |c.lps|
    ensures i < |c.lps[k].mail| ==> Kept(su, c, WithLp(c, k, LpDelivered(c.lps[k], i)), multiset{})
    ensures c.lps[k].inbox != [] && Fresh(view) && su.Serves(view)
            ==> Kept(su, c, WithLp(c, k, LpIngested(c.lps[k], view)), multiset{})
  {
    if i < |c.lps[k].mail| {
      LpDeliverTally(c, k, i);
      LpMessageKeeps(su, c, k, LpDelivered(c.lps[k], i));
      KeptNothingNew(su, c, WithLp(c, k, LpDelivered(c.lps[k], i)));
    }
    if c.lps[k].inbox != [] && Fresh(view) && su.Serves(view) {
      LpIngestKeeps(su, c, k, view);
      KeptNothingNew(su, c, WithLp(c, k, LpIngested(c.lps[k], view)));
    }
  }

  lemma LpAnswerKeeps(su: Setup, c: State, k: nat, i: nat)
    requires ClusterInv(su, c) && k < |c.lps|
    ensures Kept(su, c, WithLp(c, k, Polled(c.lps[k])), multiset{})
    ensures i < |c.lps[k].replies| ==>
              Kept(su, c, WithLp(c, k, Answered(c.lps[k], i)).(highQueue := c.highQueue + c.lps[k].replies[i]), multiset{})
  {
    PollTally(c, k);
    LpMessageKeeps(su, c, k, Polled(c.lps[k]));
    KeptNothingNew(su, c, WithLp(c, k, Polled(c.lps[k])));
    if i < |c.lps[k].replies| {
      ReplyKeeps(su, c, k, i);
      KeptNothingNew(su, c, WithLp(c, k, Answered(c.lps[k], i)).(highQueue := c.highQueue + c.lps[k].replies[i]));
    }
  }

  lemma HpMessagesKeep(su: Setup, c: State, k: nat, i: nat)
    requires ClusterInv(su, c) && k < |c.hps|
    ensures i < |c.hps[k].mail| ==> Kept(su, c, WithHp(c, k, HpDelivered(c.hps[k], i)), multiset{})
    ensures i < |c.hps[k].parcels| ==> Kept(su, c, WithHp(c, k, HpReceived(c.hps[k], i)), multiset{})
  {
    if i < |c.hps[k].mail| {
      HpDeliverTally(c, k, i);
      HpMessageKeeps(su, c, k, HpDelivered(c.hps[k], i));
      KeptNothingNew(su, c, WithHp(c, k, HpDelivered(c.hps[k], i)));
    }
    if i < |c.hps[k].parcels| {
      HpReceiveTally(c, k, i);
      HpMessageKeeps(su, c, k, HpReceived(c.hps[k], i));
      KeptNothingNew(su, c, WithHp(c, k, HpReceived(c.hps[k], i)));
    }
  }

  lemma HpArrivalsKeep(su: Setup, c: State, k: nat, view: SeqView)
    requires ClusterInv(su, c) && k < |c.hps|
    ensures c.hps[k].inbox != [] && Fresh(view) && su.Serves(view)
            ==> Kept(su, c, WithHp(c, k, HpIngested(c.hps[k], view)), multiset{})
    ensures c.hps[k].pending != [] ==> Kept(su, c, WithHp(c, k, HpInstalled(c.hps[k], c.objects)), multiset{})
  {
    if c.hps[k].inbox != [] && Fresh(view) && su.Serves(view) {
      HpIngestKeeps(su, c, k, view);
      KeptNothingNew(su, c, WithHp(c, k, HpIngested(c.hps[k], view)));
    }
    if c.hps[k].pending != [] {
      HpInstallKeeps(su, c, k);
      KeptNothingNew(su, c, WithHp(c, k, HpInstalled(c.hps[k], c.objects)));
    }
  }

  lemma LpDeliverKeeps(su: Setup, c: State, k: nat, i: nat, t: State)
    requires ClusterInv(su, c)
    requires t == if k < |c.lps| && i < |c.lps[k].mail| then WithLp(c, k, LpDelivered(c.lps[k], i)) else c
    ensures Kept(su, c, t, multiset{})
  {
    if k < |c.lps| && i < |c.lps[k].mail| { LpRequestKeeps(su, c, k, i, NO_SEQUENCE); } else { KeptNothingNew(su, c, c); }
  }

  lemma LpIngestEventKeeps(su: Setup, c: State, k: nat, view: SeqView, t: State)
    requires ClusterInv(su, c) && Fresh(view) && su.Serves(view)
    requires t == if k < |c.lps| && c.lps[k].inbox != [] then WithLp(c, k, LpIngested(c.lps[k], view)) else c
    ensures Kept(su, c, t, multiset{})
  {
    if k < |c.lps| && c.lps[k].inbox != [] { LpRequestKeeps(su, c, k, 0, view); } else { KeptNothingNew(su, c, c); }
  }

  lemma PollEventKeeps(su: Setup, c: State, k: nat, t: State)
    requires ClusterInv(su, c)
    requires t == if k < |c.lps| then WithLp(c, k, Polled(c.lps[k])) else c
    ensures Kept(su, c, t, multiset{})
  {
    if k < |c.lps| { LpAnswerKeeps(su, c, k, 0); } else { KeptNothingNew(su, c, c); }
  }

  lemma ReplyEventKeeps(su: Setup, c: State, k: nat, i: nat, t: State)
    requires ClusterInv(su, c)
    requires t == if k < |c.lps| && i < |c.lps[k].replies| then WithLp(c, k, Answered(c.lps[k], i)).(highQueue := c.highQueue + c.lps[k].replies[i]) else c
    ensures Kept(su, c, t, multiset{})
  {
    if k < |c.lps| && i < |c.lps[k].replies| { LpAnswerKeeps(su, c, k, i); } else { KeptNothingNew(su, c, c); }
  }

  lemma HpDeliverKeeps(su: Setup, c: State, k: nat, i: nat, t: State)
    requires ClusterInv(su, c)
    requires t == if k < |c.hps| && i < |c.hps[k].mail| then WithHp(c, k, HpDelivered(c.hps[k], i)) else c
    ensures Kept(su, c, t, multiset{})
  {
    if k < |c.hps| && i < |c.hps[k].mail| { HpMessagesKeep(su, c, k, i); } else { KeptNothingNew(su, c, c); }
  }

  lemma HpReceiveKeeps(su: Setup, c: State, k: nat, i: nat, t: State)
    requires ClusterInv(su, c)
    requires t == if k < |c.hps| && i < |c.hps[k].parcels| then WithHp(c, k, HpReceived(c.hps[k], i)) else c
    ensures Kept(su, c, t, multiset{})
  {
    if k < |c.hps| && i < |c.hps[k].parcels| { HpMessagesKeep(su, c, k, i); } else { KeptNothingNew(su, c, c); }
  }

  lemma HpIngestEventKeeps(su: Setup, c: State, k: nat, view: SeqView, t: State)
    requires ClusterInv(su, c) && Fresh(view) && su.Serves(view)
    requires t == if k < |c.hps| && c.hps[k].inbox != [] then WithHp(c, k, HpIngested(c.hps[k], view)) else c
    ensures Kept(su, c, t, multiset{})
  {
    if k < |c.hps| && c.hps[k].inbox != [] { HpArrivalsKeep(su, c, k, view); } else { KeptNothingNew(su, c, c); }
  }

  lemma HpInstallEventKeeps(su: Setup, c: State, k: nat, t: State)
    requires ClusterInv(su, c)
    requires t == if k < |c.hps| && c.hps[k].pending != [] then WithHp(c, k, HpInstalled(c.hps[k], c.objects)) else c
    ensures Kept(su, c, t, multiset{})
  {
    if k < |c.hps| && c.hps[k].pending != [] { HpArrivalsKeep(su, c, k, NO_SEQUENCE); } else { KeptNothingNew(su, c, c); }
  }

  lemma LpTickEventKeeps(su: Setup, c: State, k: nat, input: LowPriority.LpInput, t: State)
    requires ClusterInv(su, c)
    requires t == if k < |c.lps| then LpTicked(su, c, k, input) else c
    ensures Kept(su, c, t, multiset{})
  {
    if k < |c.lps| { LpTickKeeps(su, c, k, input); }
    KeptNothingNew(su, c, t);
  }

  lemma HpTickEventKeeps(su: Setup, c: State, k: nat, input: PrefillFirst.Input, t: State)
    requires ClusterInv(su, c)
    requires t == if k < |c.hps| then HpTicked(su, c, k, input) else c
    ensures Kept(su, c, t, multiset{})
  {
    if k < |c.hps| { HpTickKeeps(su, c, k, input); }
    KeptNothingNew(su, c, t);
  }

  predicate AtLp(event: Event) { event.LpDeliver? || event.LpIngest? || event.LpTick? || event.Poll? || event.Reply? }

  lemma LpEventKeeps(su: Setup, c: State, event: Event)
    requires ClusterInv(su, c) && Proper(su, c, event)
    requires AtLp(event)
    ensures Kept(su, c, Apply(su, c, event), multiset{})
  {
    var t := Apply(su, c, event);
    match event
    case LpDeliver(k, i) => LpDeliverKeeps(su, c, k, i, t);
    case LpIngest(k, view) => LpIngestEventKeeps(su, c, k, view, t);
    case LpTick(k, input) => LpTickEventKeeps(su, c, k, input, t);
    case Poll(k) => PollEventKeeps(su, c, k, t);
    case Reply(k, i) => ReplyEventKeeps(su, c, k, i, t);
  }

  // What the events at a high-priority instance are, away from the invariant.
  lemma HpEventIs(su: Setup, c: State, event: Event)
    requires su.Valid() && c.lps != [] && c.hps != []
    ensures event.HpDeliver? ==>
              Apply(su, c, event) == if event.hp < |c.hps| && event.i < |c.hps[event.hp].mail|
                                     then WithHp(c, event.hp, HpDelivered(c.hps[event.hp], event.i)) else c
    ensures event.HpReceive? ==>
              Apply(su, c, event) == if event.hp < |c.hps| && event.i < |c.hps[event.hp].parcels|
                                     then WithHp(c, event.hp, HpReceived(c.hps[event.hp], event.i)) else c
    ensures event.HpIngest? ==>
              Apply(su, c, event) == if event.hp < |c.hps| && c.hps[event.hp].inbox != []
                                     then WithHp(c, event.hp, HpIngested(c.hps[event.hp], event.view)) else c
    ensures event.HpInstall? ==>
              Apply(su, c, event) == if event.hp < |c.hps| && c.hps[event.hp].pending != []
                                     then WithHp(c, event.hp, HpInstalled(c.hps[event.hp], c.objects)) else c
  {}

  predicate AtHp(event: Event) { event.HpDeliver? || event.HpReceive? || event.HpIngest? || event.HpInstall? }

  lemma HpEventKeeps(su: Setup, c: State, event: Event, t: State)
    requires ClusterInv(su, c) && Proper(su, c, event)
    requires AtHp(event) && t == Apply(su, c, event)
    ensures Kept(su, c, t, multiset{})
  {
    HpEventIs(su, c, event);
    if event.HpDeliver? {
      HpDeliverKeeps(su, c, event.hp, event.i, t);
    } else if event.HpReceive? {
      HpReceiveKeeps(su, c, event.hp, event.i, t);
    } else if event.HpIngest? {
      HpIngestEventKeeps(su, c, event.hp, event.view, t);
    } else {
      HpInstallEventKeeps(su, c, event.hp, t);
    }
  }

  lemma ApplyKeeps(su: Setup, c: State, event: Event)
    requires ClusterInv(su, c) && Proper(su, c, event)
    ensures Kept(su, c, Apply(su, c, event), Newcomer(event))
  {
    if AtLp(event) {
      LpEventKeeps(su, c, event);
    } else if AtHp(event) {
      HpEventKeeps(su, c, event, Apply(su, c, event));
    } else if event.HpTick? {
      HpTickEventKeeps(su, c, event.hp, event.input, Apply(su, c, event));
    } else if event.Submit? {
      SubmitKeeps(su, c, event.id);
    } else {
      RouteKeeps(su, c, event.ticket);
      KeptNothingNew(su, c, Apply(su, c, event));
    }
  }

  lemma KeptOnwards(su: Setup, c: State, t: State, u: State, a: multiset<Id>, b: multiset<Id>)
    requires Kept(su, c, t, a) && Kept(su, t, u, b)
    ensures Kept(su, c, u, a + b)
  {}

  ghost predicate ProperRun(su: Setup, c: State, events: seq<Event>)
    requires su.Valid() && c.lps != [] && c.hps != []
    decreases |events|
  {
    events != [] ==> Proper(su, c, events[0]) && ProperRun(su, Apply(su, c, events[0]), events[1..])
  }

  function RunOf(su: Setup, c: State, events: seq<Event>): (t: State)
    requires su.Valid() && c.lps != [] && c.hps != []
    ensures |t.lps| == |c.lps| && |t.hps| == |c.hps|
    decreases |events|
  {
    if events == [] then c else RunOf(su, Apply(su, c, events[0]), events[1..])
  }

  function Submitted(events: seq<Event>): multiset<Id> {
    if events == [] then multiset{} else Newcomer(events[0]) + Submitted(events[1..])
  }

  lemma {:induction false} RunKeeps(su: Setup, c: State, events: seq<Event>)
    requires ClusterInv(su, c)
    requires ProperRun(su, c, events)
    ensures Kept(su, c, RunOf(su, c, events), Submitted(events))
    decreases |events|
  {
    if events != [] {
      var t := Apply(su, c, events[0]);
      ApplyKeeps(su, c, events[0]);
      RunKeeps(su, t, events[1..]);
      KeptOnwards(su, c, t, RunOf(su, t, events[1..]), Newcomer(events[0]), Submitted(events[1..]));
    }
  }

  // An idle cluster of n low-priority and m high-priority instances.
  function Start(su: Setup, n: nat, m: nat): State {
    State([], [], seq(n, _ => Lp([], [], PrefillFirst.Idle(su.lp), [], [])),
          seq(m, _ => Hp([], [], [], [], PrefillFirst.Idle(su.hp))), 0, 0, map[], [], [], {})
  }

  lemma {:induction false} SumOfEmpty<T>(s: seq<T>, f: T -> multiset<Id>)
    requires forall k :: 0 <= k < |s| ==> f(s[k]) == multiset{}
    ensures SumOf(s, f) == multiset{}
  {
    if s != [] {
      assert f(s[0]) == multiset{};
      forall k | 0 <= k < |s| - 1 ensures f(s[1..][k]) == multiset{} { assert s[1..][k] == s[k + 1]; }
      SumOfEmpty(s[1..], f);
    }
  }

  lemma StartTally(su: Setup, n: nat, m: nat)
    ensures TallyOf(Start(su, n, m)) == Tally(multiset{}, multiset{}, multiset{}, multiset{}, multiset{})
  {
    var c := Start(su, n, m);
    SumOfEmpty(c.lps, LpUnseen);
    SumOfEmpty(c.lps, LpQueued);
    SumOfEmpty(c.lps, LpPipe);
    SumOfEmpty(c.hps, HpDirect);
    SumOfEmpty(c.hps, HpPipe);
    SumOfEmpty(c.hps, HpQueued);
  }

  lemma StartEngines(su: Setup, n: nat, m: nat)
    requires su.Valid()
    ensures var c := Start(su, n, m);
            && (forall k :: 0 <= k < n ==> LpOk(su, c.lps[k], {}))
            && (forall k :: 0 <= k < m ==> HpOk(su, c.hps[k]))
  {
    PrefillFirst.IdleInv(su.lp);
    PrefillFirst.IdleInv(su.hp);
  }

  lemma StartIsFine(su: Setup, n: nat, m: nat)
    requires su.Valid() && n > 0 && m > 0
    ensures ClusterInv(su, Start(su, n, m)) && TallyOf(Start(su, n, m)).All() == multiset{}
  {
    StartTally(su, n, m);
    StartEngines(su, n, m);
  }

  /** The promotion protocol, over every interleaving: each submitted request is in exactly one
      place; none is promoted twice; and whoever has been promoted never held a block on a
      low-priority instance, which every scheduled request does, and never comes back there. */
  lemma PromotionProtocol(su: Setup, n: nat, m: nat, events: seq<Event>)
    requires su.Valid() && n > 0 && m > 0
    requires ProperRun(su, Start(su, n, m), events)
    ensures var t := RunOf(su, Start(su, n, m), events);
            && TallyOf(t).All() == Submitted(events)
            && (forall id :: Submitted(events)[id] <= 1)
            && (forall id :: multiset(t.promotions)[id] <= 1)
            && (forall id :: id in TallyOf(t).pipe ==> id in t.promotions)
            && (forall id :: id in t.promotions ==> id !in t.ran && id !in TallyOf(t).Early())
  {
    var c := Start(su, n, m);
    StartIsFine(su, n, m);
    RunKeeps(su, c, events);
    var t := RunOf(su, c, events);
    assert multiset{} + Submitted(events) == Submitted(events);
    assert TallyOf(t).All() == Submitted(events);
    LedgerSays(su, t);
  }

  lemma LedgerSays(su: Setup, t: State)
    requires ClusterInv(su, t)
    ensures forall id :: TallyOf(t).All()[id] <= 1
    ensures forall id :: multiset(t.promotions)[id] <= 1
    ensures forall id :: id in TallyOf(t).pipe ==> id in t.promotions
    ensures forall id :: id in t.promotions ==> id !in t.ran && id !in TallyOf(t).Early()
  {}
}
