/** The Sarathi scheduler with a static chunk size: decodes first, then the prompt left half
    processed, then new prompts, all under one token budget. */
module Sarathi {
  import opened Lists
  import opened Sequences
  import opened BlockPool
  import opened Reserve
  import opened EngineCore
  import PrefillFirst

  function Min(a: int, b: int): int { if a <= b then a else b }

  // _get_seq_next_num_prefill_tokens
  function NextTokens(v: SeqView, chunkSize: nat, tokens: int): int {
    Min(|v.prompt| - v.staged, chunkSize - tokens)
  }

  datatype Chunking = Chunking(
    waiting: seq<Id>,
    running: seq<Id>,
    pool: Pool,
    tokens: int,              // num_batched_tokens
    scheduled: seq<Id>,
    chunks: map<Id, nat>,     // prompt_chunk_len of each batch entry
    negative: bool,           // some prompt_chunk_len is below zero, which executing it rejects
    overlong: bool)           // the head of waiting is longer than the prompt limit

  function Put(c: Chunking, id: Id, n: int): Chunking {
    c.(running := c.running + [id], tokens := c.tokens + n, scheduled := c.scheduled + [id],
       chunks := c.chunks[id := if n > 0 then n else 0], negative := c.negative || n < 0)
  }

  // The half-processed prompts of the running list; they already own their blocks.
  function TakePartials(c: Chunking, partials: seq<Id>, seqs: SeqMap, chunkSize: nat): Chunking
    decreases |partials|
  {
    if partials == [] then c
    else
      var id := partials[0];
      var n := NextTokens(Look(seqs, id), chunkSize, c.tokens);
      var d := if n == 0 then c.(running := c.running + [id]) else Put(c, id, n);
      TakePartials(d, partials[1..], seqs, chunkSize)
  }

  // The waiting loop. An over-long head is not removed: its second rejection is an illegal
  // status change, which ends the step with an exception.
  predicate Stops(cfg: Config, c: Chunking, seqs: SeqMap, chunkSize: nat)
    requires cfg.Valid()
  {
    c.waiting == [] || c.overlong ||
    (var v := Look(seqs, c.waiting[0]);
     && v.Len() <= cfg.limit
     && (|| c.pool.free - v.Need(cfg.size) < cfg.watermark
         || |c.running| >= cfg.maxSeqs
         || NextTokens(v, chunkSize, c.tokens) == 0))
  }

  function AdmitNext(cfg: Config, c: Chunking, seqs: SeqMap, chunkSize: nat): Chunking
    requires cfg.Valid()
    requires !Stops(cfg, c, seqs, chunkSize)
  {
    var id := c.waiting[0];
    var v := Look(seqs, id);
    if v.Len() > cfg.limit then c.(overlong := true)
    else
      Put(c.(waiting := c.waiting[1..], pool := c.pool.Allocate(id, v.Need(cfg.size))), id,
          NextTokens(v, chunkSize, c.tokens))
  }

  function Admit(cfg: Config, c: Chunking, seqs: SeqMap, chunkSize: nat): Chunking
    requires cfg.Valid()
    decreases |c.waiting|, if c.overlong then 0 else 1
  {
    if Stops(cfg, c, seqs, chunkSize) then c
    else Admit(cfg, AdmitNext(cfg, c, seqs, chunkSize), seqs, chunkSize)
  }

  /** One schedule call. */

  function Reserved(cfg: Config, e: Engine): Reservation
    requires cfg.Valid()
  {
    Run(Start(ByArrival(e.running, e.seqs), e.pool), e.seqs, NoCap, cfg.size)
  }

  function AfterDecodes(e: Engine, r: Reservation): Chunking {
    Chunking(e.waiting + r.victims, r.kept, r.pool, |r.slots|, r.slots, map id | id in r.slots :: 0, false, false)
  }

  function AfterPartials(cfg: Config, e: Engine, chunkSize: nat): Chunking
    requires cfg.Valid()
  {
    var r := Reserved(cfg, e);
    TakePartials(AfterDecodes(e, r), r.partials, e.seqs, chunkSize)
  }

  function Schedule(cfg: Config, e: Engine, chunkSize: nat): Chunking
    requires cfg.Valid()
  {
    Admit(cfg, AfterPartials(cfg, e, chunkSize), e.seqs, chunkSize)
  }

  function AsEngine(e: Engine, c: Chunking): Engine {
    Engine(c.waiting, c.running, e.seqs, c.pool)
  }

  datatype Outcome = Failed | Stepped(engine: Engine)

  function Step(cfg: Config, e: Engine, chunkSize: nat, aborts: set<Id>, samples: map<Id, Sample>): Outcome
    requires cfg.Valid()
  {
    var b := PrefillFirst.Abort(e, aborts);
    var c := Schedule(cfg, b, chunkSize);
    if c.overlong || c.negative then Failed
    else if c.scheduled == [] then Stepped(AsEngine(b, c))
    else Stepped(Complete(AsEngine(b, c), Reserved(cfg, b).victims, c.scheduled, c.chunks, samples))
  }

  /** The invariant. */

  ghost predicate OnePartial(e: Engine) {
    forall x, y :: x in e.running && y in e.running && Partial(Look(e.seqs, x)) && Partial(Look(e.seqs, y)) ==> x == y
  }

  ghost predicate SarathiInv(cfg: Config, e: Engine, chunkSize: nat) {
    && Inv(cfg, e)
    && OnePartial(e)
    && |e.running| <= cfg.maxSeqs
    && |e.running| <= chunkSize
  }

  /** The first pass over the running list. */

  // Decoding sequences are kept with a slot, half-processed prompts are set aside.
  ghost predicate Sorted(r: Reservation, seqs: SeqMap) {
    && r.slots == r.kept
    && (forall id :: id in r.kept ==> Look(seqs, id).stageDone)
    && (forall id :: id in r.partials ==> !Look(seqs, id).stageDone)
  }

  lemma {:induction false} RunSorts(r: Reservation, seqs: SeqMap, size: nat)
    requires size > 0
    requires Sorted(r, seqs)
    requires forall id :: id in r.queue ==> Look(seqs, id).status.PAUSED?
    ensures Sorted(Run(r, seqs, NoCap, size), seqs)
    decreases |r.queue|
  {
    if r.queue != [] {
      var n := Next(r, seqs, NoCap, size);
      assert r.queue == [r.queue[0]] + r.queue[1..];
      RunSorts(n, seqs, size);
    }
  }

  ghost predicate ReservedOk(cfg: Config, e: Engine, r: Reservation)
    requires cfg.Valid()
  {
    && Sorted(r, e.seqs)
    && Owns(r.pool, r.kept + r.partials, cfg.numBlocks)
    && multiset(r.kept + r.partials) + multiset(r.victims) == multiset(e.running)
    && (forall id :: id in r.kept ==> r.pool.Held(id) == Look(e.seqs, id).Need(cfg.size))
    && (forall id :: id in r.partials ==> r.pool.Held(id) == e.pool.Held(id))
  }

  lemma SettledIsOneShort(cfg: Config, e: Engine, ids: seq<Id>)
    requires Inv(cfg, e)
    requires multiset(ids) == multiset(e.running)
    ensures forall id :: id in ids && Look(e.seqs, id).stageDone ==> OneShort(id, e.seqs, e.pool, cfg.size)
    ensures forall id :: id in ids ==> Look(e.seqs, id).status.PAUSED?
  {
    PermutationMembers(ids, e.running);
    OwnsMeans(e.pool, e.running, cfg.numBlocks);
    forall id | id in ids && Look(e.seqs, id).stageDone ensures OneShort(id, e.seqs, e.pool, cfg.size) {
      BlocksStep(Look(e.seqs, id).Len() - 1, cfg.size);
    }
  }

  lemma ReservedIsOk(cfg: Config, e: Engine)
    requires Inv(cfg, e)
    ensures ReservedOk(cfg, e, Reserved(cfg, e))
  {
    var sorted := ByArrival(e.running, e.seqs);
    var s := Start(sorted, e.pool);
    var r := Reserved(cfg, e);
    OwnsPermutation(e.pool, e.running, sorted, cfg.numBlocks);
    NoTail(sorted);
    SettledIsOneShort(cfg, e, sorted);
    RunSorts(s, e.seqs, cfg.size);
    RunOwns(s, e.seqs, NoCap, cfg.size, cfg.numBlocks);
    RunStocked(s, e.seqs, NoCap, cfg.size, e.pool, cfg.numBlocks);
    ReservedStock(cfg, e, r);
  }

  lemma ReservedStock(cfg: Config, e: Engine, r: Reservation)
    requires cfg.Valid()
    requires Sorted(r, e.seqs)
    requires Stocked(r, e.seqs, cfg.size, e.pool)
    ensures forall id :: id in r.kept ==> r.pool.Held(id) == Look(e.seqs, id).Need(cfg.size)
    ensures forall id :: id in r.partials ==> r.pool.Held(id) == e.pool.Held(id)
  {
    forall id | id in r.partials ensures r.pool.Held(id) == e.pool.Held(id) {
      assert id !in r.slots;
      assert id in r.kept + r.partials + r.queue;
    }
  }

  // Where every sequence is after the first pass.
  lemma ReservedMembers(cfg: Config, e: Engine, r: Reservation)
    requires Inv(cfg, e)
    requires ReservedOk(cfg, e, r)
    ensures forall id :: id in r.kept ==> id in e.running && Decoding(e.seqs[id])
    ensures forall id :: id in r.partials ==> id in e.running && Partial(e.seqs[id])
    ensures forall id :: id in r.victims ==> id in e.running && id !in r.kept && id !in r.partials
    ensures Distinct(e.waiting + r.victims + (r.kept + r.partials))
    ensures |r.kept| + |r.partials| + |r.victims| == |e.running|
  {
    var all := r.kept + r.partials + r.victims;
    assert multiset(all) == multiset(e.running);
    PermutationMembers(all, e.running);
    DistinctSum(e.waiting, e.running);
    forall x ensures multiset(all)[x] <= 1 { assert multiset(e.running)[x] <= 1; }
    DistinctSum(r.kept + r.partials, r.victims);
    forall id | id in all ensures id in e.running {}
    forall x ensures multiset(e.waiting + r.victims + (r.kept + r.partials))[x] <= 1 {
      assert multiset(e.waiting + e.running)[x] <= 1;
    }
  }

  /** The batch while it is being filled. */

  // A batch entry as execution will find it.
  function EntryView(id: Id, seqs: SeqMap, victims: seq<Id>): SeqView {
    if id in victims then Look(seqs, id).ResetForRecompute() else Look(seqs, id)
  }

  // The chunk leaves part of the prompt for later.
  predicate Incomplete(id: Id, c: Chunking, seqs: SeqMap, victims: seq<Id>) {
    var v := EntryView(id, seqs, victims);
    !v.stageDone && Chunk(c.chunks, id) < |v.prompt| - v.processed
  }

  // One token per decode, the chunk per prefill.
  function BatchTokens(scheduled: seq<Id>, chunks: map<Id, nat>): nat {
    if scheduled == [] then 0
    else (if Chunk(chunks, scheduled[0]) > 0 then Chunk(chunks, scheduled[0]) else 1) + BatchTokens(scheduled[1..], chunks)
  }

  ghost predicate OneIncomplete(c: Chunking, seqs: SeqMap, victims: seq<Id>) {
    forall x, y :: x in c.running && y in c.running && Incomplete(x, c, seqs, victims) && Incomplete(y, c, seqs, victims) ==> x == y
  }

  // After an incomplete chunk nothing else can get a token.
  ghost predicate Exhausted(c: Chunking, seqs: SeqMap, victims: seq<Id>, chunkSize: nat) {
    c.tokens == chunkSize || (forall id :: id in c.waiting ==> id in victims && Decoding(Look(seqs, id)))
  }

  ghost predicate Suffix(s: seq<Id>, all: seq<Id>) {
    exists i :: 0 <= i <= |all| && s == all[i..]
  }

  ghost predicate EntryOk(cfg: Config, seqs: SeqMap, victims: seq<Id>, c: Chunking, id: Id)
    requires cfg.Valid()
  {
    id in c.chunks && Ready(cfg, EntryView(id, seqs, victims), c.pool.Held(id), Chunk(c.chunks, id))
  }

  ghost predicate Filling(cfg: Config, e: Engine, victims: seq<Id>, chunkSize: nat, c: Chunking)
    requires cfg.Valid()
  {
    && c.scheduled == c.running
    && Owns(c.pool, c.running, cfg.numBlocks)
    && |c.running| <= cfg.maxSeqs
    && 0 <= c.tokens <= chunkSize
    && !c.negative
    && Suffix(c.waiting, e.waiting + victims)
    && multiset(c.waiting) + multiset(c.running) == multiset(e.waiting) + multiset(e.running)
    && (forall id :: id in c.running ==> EntryOk(cfg, e.seqs, victims, c, id))
  }

  ghost predicate Budgeted(cfg: Config, e: Engine, victims: seq<Id>, chunkSize: nat, c: Chunking) {
    && OneIncomplete(c, e.seqs, victims)
    && (forall id :: id in c.running && Incomplete(id, c, e.seqs, victims) ==> Exhausted(c, e.seqs, victims, chunkSize))
    && c.tokens == BatchTokens(c.scheduled, c.chunks)
  }

  lemma {:induction false} BatchTokensPut(scheduled: seq<Id>, chunks: map<Id, nat>, id: Id, n: nat)
    requires id !in scheduled
    ensures BatchTokens(scheduled + [id], chunks[id := n]) == BatchTokens(scheduled, chunks) + (if n > 0 then n else 1)
  {
    if scheduled == [] {
      assert scheduled + [id] == [id];
      assert BatchTokens([id][1..], chunks[id := n]) == 0;
    } else {
      assert (scheduled + [id])[1..] == scheduled[1..] + [id];
      BatchTokensPut(scheduled[1..], chunks, id, n);
    }
  }

  // The sequence at the head of the waiting list is fresh, or was preempted in this step and
  // is then followed by preempted sequences only.
  lemma HeadIsFreshOrVictim(e: Engine, victims: seq<Id>, c: Chunking)
    requires Distinct(e.waiting + victims)
    requires Suffix(c.waiting, e.waiting + victims)
    requires c.waiting != []
    ensures c.waiting[0] in e.waiting || c.waiting[0] in victims
    ensures c.waiting[0] in victims ==> c.waiting[0] !in e.waiting && forall id :: id in c.waiting ==> id in victims
    ensures c.waiting[0] !in c.waiting[1..]
  {
    var all := e.waiting + victims;
    var i :| 0 <= i <= |all| && c.waiting == all[i..];
    SuffixDistinct(all, i);
    DistinctTail(c.waiting);
    HeadOfSuffix(e.waiting, victims, i);
  }

  lemma HeadOfSuffix(a: seq<Id>, b: seq<Id>, i: nat)
    requires Distinct(a + b) && i < |a + b|
    ensures var s := (a + b)[i..];
            && (s[0] in a || s[0] in b)
            && (s[0] in b ==> s[0] !in a && forall id :: id in s ==> id in b)
  {
    DistinctSum(a, b);
    assert (a + b)[i..][0] == (a + b)[i];
    if i >= |a| { assert (a + b)[i..] == b[i - |a|..]; }
  }

  lemma SuffixDistinct(all: seq<Id>, i: nat)
    requires Distinct(all) && i <= |all|
    ensures Distinct(all[i..])
  {
    assert all == all[..i] + all[i..];
    DistinctSum(all[..i], all[i..]);
  }

  // Putting one more entry in the batch.
  lemma PutBudgeted(cfg: Config, e: Engine, victims: seq<Id>, chunkSize: nat, c: Chunking, d: Chunking, id: Id, n: nat)
    requires cfg.Valid()
    requires Filling(cfg, e, victims, chunkSize, c) && Budgeted(cfg, e, victims, chunkSize, c)
    requires id !in c.running && n >= 1
    requires forall x :: x in c.running ==> !Incomplete(x, c, e.seqs, victims)
    requires d == Put(c.(waiting := d.waiting, pool := d.pool), id, n)
    requires Incomplete(id, d, e.seqs, victims) ==> Exhausted(d, e.seqs, victims, chunkSize)
    ensures Budgeted(cfg, e, victims, chunkSize, d)
    ensures forall x :: x in c.running ==> Chunk(d.chunks, x) == Chunk(c.chunks, x)
  {
    forall x | x in c.running ensures Chunk(d.chunks, x) == Chunk(c.chunks, x) {}
    forall x | x in c.running ensures !Incomplete(x, d, e.seqs, victims) {
      assert !Incomplete(x, c, e.seqs, victims);
    }
    BatchTokensPut(c.scheduled, c.chunks, id, n);
  }

  lemma PutFilling(cfg: Config, e: Engine, victims: seq<Id>, chunkSize: nat, c: Chunking, id: Id, n: nat)
    requires cfg.Valid()
    requires Distinct(e.waiting + victims)
    requires Filling(cfg, e, victims, chunkSize, c)
    requires c.waiting != [] && id == c.waiting[0] && id !in c.running
    requires 1 <= n <= chunkSize - c.tokens
    requires |c.running| < cfg.maxSeqs
    requires Look(e.seqs, id).Need(cfg.size) <= c.pool.free
    requires Ready(cfg, EntryView(id, e.seqs, victims), Look(e.seqs, id).Need(cfg.size), n)
    ensures Filling(cfg, e, victims, chunkSize,
                    Put(c.(waiting := c.waiting[1..], pool := c.pool.Allocate(id, Look(e.seqs, id).Need(cfg.size))), id, n))
  {
    var need := Look(e.seqs, id).Need(cfg.size);
    var d := Put(c.(waiting := c.waiting[1..], pool := c.pool.Allocate(id, need)), id, n);
    OwnsAllocate(c.pool, c.running, id, need, cfg.numBlocks);
    assert c.waiting == [id] + c.waiting[1..];
    assert multiset(d.waiting) + multiset(d.running) == multiset(c.waiting) + multiset(c.running);
    SuffixTail(c.waiting, e.waiting + victims);
    forall x | x in d.running ensures EntryOk(cfg, e.seqs, victims, d, x) {
      assert x != id ==> EntryOk(cfg, e.seqs, victims, c, x);
    }
  }

  lemma SuffixTail(s: seq<Id>, all: seq<Id>)
    requires Suffix(s, all) && s != []
    ensures Suffix(s[1..], all)
  {
    var i :| 0 <= i <= |all| && s == all[i..];
    assert s[1..] == all[i + 1..];
  }

  // What the head of the waiting list looks like when it is admitted.
  lemma HeadReady(cfg: Config, e: Engine, victims: seq<Id>, chunkSize: nat, c: Chunking)
    requires Inv(cfg, e)
    requires Distinct(e.waiting + victims)
    requires forall id :: id in victims ==> id in e.running
    requires Filling(cfg, e, victims, chunkSize, c)
    requires !Stops(cfg, c, e.seqs, chunkSize)
    requires Look(e.seqs, c.waiting[0]).Len() <= cfg.limit
    ensures var id := c.waiting[0]; var v := Look(e.seqs, id); var n := NextTokens(v, chunkSize, c.tokens);
            && 1 <= n <= chunkSize - c.tokens
            && id !in c.running
            && Ready(cfg, EntryView(id, e.seqs, victims), v.Need(cfg.size), n)
            && (id !in victims && n < |v.prompt| ==> n == chunkSize - c.tokens)
            && (id in victims ==> Partial(v))
  {
    var id := c.waiting[0];
    var v := Look(e.seqs, id);
    HeadIsFreshOrVictim(e, victims, c);
    assert id in e.waiting + e.running;
    assert id in e.seqs;
    assert id !in c.running by {
      assert multiset(e.waiting + e.running)[id] <= 1;
      assert id in multiset(c.waiting);
      assert id in c.running <==> id in multiset(c.running);
    }
    if id in victims { assert Live(v); }
  }

  lemma NothingIncomplete(cfg: Config, e: Engine, victims: seq<Id>, chunkSize: nat, c: Chunking)
    requires Inv(cfg, e)
    requires Filling(cfg, e, victims, chunkSize, c) && Budgeted(cfg, e, victims, chunkSize, c)
    requires !Stops(cfg, c, e.seqs, chunkSize)
    requires Look(e.seqs, c.waiting[0]).Len() <= cfg.limit
    requires NextTokens(Look(e.seqs, c.waiting[0]), chunkSize, c.tokens) >= 1
    ensures forall x :: x in c.running ==> !Incomplete(x, c, e.seqs, victims)
  {
    forall x | x in c.running ensures !Incomplete(x, c, e.seqs, victims) {
      assert c.waiting[0] in c.waiting;
      assert !Exhausted(c, e.seqs, victims, chunkSize);
    }
  }

  lemma AdmitNextKeeps(cfg: Config, e: Engine, victims: seq<Id>, chunkSize: nat, c: Chunking)
    requires Inv(cfg, e) && OnePartial(e)
    requires Distinct(e.waiting + victims)
    requires forall id :: id in victims ==> id in e.running
    requires Filling(cfg, e, victims, chunkSize, c) && Budgeted(cfg, e, victims, chunkSize, c)
    requires !Stops(cfg, c, e.seqs, chunkSize)
    requires Look(e.seqs, c.waiting[0]).Len() <= cfg.limit
    ensures var d := AdmitNext(cfg, c, e.seqs, chunkSize);
            Filling(cfg, e, victims, chunkSize, d) && Budgeted(cfg, e, victims, chunkSize, d)
  {
    var id := c.waiting[0];
    var v := Look(e.seqs, id);
    var n := NextTokens(v, chunkSize, c.tokens);
    var d := AdmitNext(cfg, c, e.seqs, chunkSize);
    HeadReady(cfg, e, victims, chunkSize, c);
    NothingIncomplete(cfg, e, victims, chunkSize, c);
    PutFilling(cfg, e, victims, chunkSize, c, id, n);
    HeadIsFreshOrVictim(e, victims, c);
    assert Incomplete(id, d, e.seqs, victims) ==> Exhausted(d, e.seqs, victims, chunkSize) by {
      if id in victims {
        forall x | x in d.waiting ensures x in victims && Decoding(Look(e.seqs, x)) {
          assert x in c.waiting && x != id;
          assert Live(Look(e.seqs, x));
        }
      }
    }
    PutBudgeted(cfg, e, victims, chunkSize, c, d, id, n);
  }

  lemma OverlongKeeps(cfg: Config, e: Engine, victims: seq<Id>, chunkSize: nat, c: Chunking)
    requires cfg.Valid()
    requires Filling(cfg, e, victims, chunkSize, c) && Budgeted(cfg, e, victims, chunkSize, c)
    ensures var d := c.(overlong := true);
            Filling(cfg, e, victims, chunkSize, d) && Budgeted(cfg, e, victims, chunkSize, d)
  {
    var d := c.(overlong := true);
    forall x | x in c.running ensures EntryOk(cfg, e.seqs, victims, d, x) {
      assert EntryOk(cfg, e.seqs, victims, c, x);
    }
    assert forall x :: Incomplete(x, d, e.seqs, victims) == Incomplete(x, c, e.seqs, victims);
  }

  lemma {:induction false} AdmitKeeps(cfg: Config, e: Engine, victims: seq<Id>, chunkSize: nat, c: Chunking)
    requires Inv(cfg, e) && OnePartial(e)
    requires Distinct(e.waiting + victims)
    requires forall id :: id in victims ==> id in e.running
    requires Filling(cfg, e, victims, chunkSize, c) && Budgeted(cfg, e, victims, chunkSize, c)
    ensures var d := Admit(cfg, c, e.seqs, chunkSize);
            Filling(cfg, e, victims, chunkSize, d) && Budgeted(cfg, e, victims, chunkSize, d)
    decreases |c.waiting|, if c.overlong then 0 else 1
  {
    if !Stops(cfg, c, e.seqs, chunkSize) {
      var d := AdmitNext(cfg, c, e.seqs, chunkSize);
      if Look(e.seqs, c.waiting[0]).Len() > cfg.limit {
        OverlongKeeps(cfg, e, victims, chunkSize, c);
      } else {
        AdmitNextKeeps(cfg, e, victims, chunkSize, c);
      }
      AdmitKeeps(cfg, e, victims, chunkSize, d);
    }
  }

  /** The half-processed prompt gets its share. */

  lemma PartialsAtMostOne(cfg: Config, e: Engine, r: Reservation)
    requires Inv(cfg, e) && OnePartial(e)
    requires ReservedOk(cfg, e, r)
    ensures r.partials == [] || r.partials == [r.partials[0]]
  {
    ReservedMembers(cfg, e, r);
    if |r.partials| >= 2 {
      OwnsMeans(r.pool, r.kept + r.partials, cfg.numBlocks);
      DistinctSum(r.kept, r.partials);
      assert r.partials[0] in r.partials && r.partials[1] in r.partials;
      OccursTwice(r.partials, 0, 1);
    }
  }

  lemma DecodesFill(cfg: Config, e: Engine, chunkSize: nat)
    requires SarathiInv(cfg, e, chunkSize)
    ensures var r := Reserved(cfg, e);
            var c := AfterDecodes(e, r);
            && c.tokens == |r.kept| == |c.running|
            && |c.running| + |r.partials| <= |e.running|
            && BatchTokens(c.scheduled, c.chunks) == c.tokens
            && (forall id :: id in c.running ==> id in e.running && id !in r.victims && Decoding(Look(e.seqs, id)))
            && (forall id :: id in c.running ==> EntryOk(cfg, e.seqs, r.victims, c, id))
  {
    var r := Reserved(cfg, e);
    var c := AfterDecodes(e, r);
    ReservedIsOk(cfg, e);
    ReservedMembers(cfg, e, r);
    DecodeBatch(r.slots, c.chunks);
  }

  lemma {:induction false} DecodeBatch(ids: seq<Id>, chunks: map<Id, nat>)
    requires forall id :: id in ids ==> Chunk(chunks, id) == 0
    ensures BatchTokens(ids, chunks) == |ids|
  {
    if ids != [] { DecodeBatch(ids[1..], chunks); }
  }

  lemma {:induction false} TakingLeavesWaiting(c: Chunking, partials: seq<Id>, seqs: SeqMap, chunkSize: nat)
    ensures var n := TakePartials(c, partials, seqs, chunkSize); n.waiting == c.waiting && n.pool == c.pool
    decreases |partials|
  {
    if partials != [] {
      var id := partials[0];
      var n := NextTokens(Look(seqs, id), chunkSize, c.tokens);
      TakingLeavesWaiting(if n == 0 then c.(running := c.running + [id]) else Put(c, id, n), partials[1..], seqs, chunkSize);
    }
  }

  lemma TakeOnePartial(c: Chunking, id: Id, seqs: SeqMap, chunkSize: nat)
    ensures var n := NextTokens(Look(seqs, id), chunkSize, c.tokens);
            n != 0 ==> TakePartials(c, [id], seqs, chunkSize) == Put(c, id, n)
  {
    assert [id][1..] == [];
  }

  // The batch before the waiting list is looked at.
  lemma PartialsFill(cfg: Config, e: Engine, chunkSize: nat)
    requires SarathiInv(cfg, e, chunkSize)
    ensures var r := Reserved(cfg, e);
            var c := AfterPartials(cfg, e, chunkSize);
            && Filling(cfg, e, r.victims, chunkSize, c)
            && Budgeted(cfg, e, r.victims, chunkSize, c)
            && Distinct(e.waiting + r.victims)
            && (forall id :: id in r.victims ==> id in e.running)
            && c.running == r.kept + r.partials
  {
    var r := Reserved(cfg, e);
    ReservedIsOk(cfg, e);
    ReservedMembers(cfg, e, r);
    PartialsAtMostOne(cfg, e, r);
    DistinctSum(e.waiting + r.victims, r.kept + r.partials);
    if r.partials == [] {
      NoPartialFills(cfg, e, chunkSize);
      NoTail(r.kept);
    } else {
      FirstPartialFills(cfg, e, chunkSize);
    }
  }

  lemma AllWaiting(e: Engine, r: Reservation)
    ensures Suffix(AfterDecodes(e, r).waiting, e.waiting + r.victims)
  {
    var all := e.waiting + r.victims;
    assert AfterDecodes(e, r).waiting == all[0..];
  }

  lemma NoPartialFills(cfg: Config, e: Engine, chunkSize: nat)
    requires SarathiInv(cfg, e, chunkSize)
    requires Reserved(cfg, e).partials == []
    ensures var r := Reserved(cfg, e);
            var c := AfterDecodes(e, r);
            && AfterPartials(cfg, e, chunkSize) == c
            && Filling(cfg, e, r.victims, chunkSize, c)
            && Budgeted(cfg, e, r.victims, chunkSize, c)
  {
    var r := Reserved(cfg, e);
    var c := AfterDecodes(e, r);
    ReservedIsOk(cfg, e);
    DecodesFill(cfg, e, chunkSize);
    AllWaiting(e, r);
    NoTail(r.kept);
    DecodesAddUp(e, r);
    CompleteBatch(cfg, e, r.victims, chunkSize, c);
  }

  lemma DecodesAddUp(e: Engine, r: Reservation)
    requires multiset(r.kept) + multiset(r.victims) == multiset(e.running)
    ensures multiset(AfterDecodes(e, r).waiting) + multiset(r.kept) == multiset(e.waiting) + multiset(e.running)
  {
    assert multiset(e.waiting + r.victims) == multiset(e.waiting) + multiset(r.victims);
  }

  // A batch with no prompt left half processed.
  lemma CompleteBatch(cfg: Config, e: Engine, victims: seq<Id>, chunkSize: nat, c: Chunking)
    requires cfg.Valid()
    requires c.scheduled == c.running && |c.running| <= cfg.maxSeqs
    requires Owns(c.pool, c.running, cfg.numBlocks)
    requires 0 <= c.tokens <= chunkSize && !c.negative
    requires Suffix(c.waiting, e.waiting + victims)
    requires multiset(c.waiting) + multiset(c.running) == multiset(e.waiting) + multiset(e.running)
    requires forall x :: x in c.running ==> EntryOk(cfg, e.seqs, victims, c, x) && Look(e.seqs, x).stageDone && x !in victims
    requires c.tokens == BatchTokens(c.scheduled, c.chunks)
    ensures Filling(cfg, e, victims, chunkSize, c)
    ensures Budgeted(cfg, e, victims, chunkSize, c)
  {
    forall x | x in c.running ensures !Incomplete(x, c, e.seqs, victims) {}
  }

  lemma FirstPartialFills(cfg: Config, e: Engine, chunkSize: nat)
    requires SarathiInv(cfg, e, chunkSize)
    requires var p := Reserved(cfg, e).partials; p != [] && p == [p[0]]
    ensures var r := Reserved(cfg, e);
            var c := AfterPartials(cfg, e, chunkSize);
            && Filling(cfg, e, r.victims, chunkSize, c)
            && Budgeted(cfg, e, r.victims, chunkSize, c)
            && c.running == r.kept + r.partials
  {
    var r := Reserved(cfg, e);
    var c := AfterDecodes(e, r);
    ReservedIsOk(cfg, e);
    DecodesFill(cfg, e, chunkSize);
    AllWaiting(e, r);
    OnePartialFills(cfg, e, chunkSize, r, c, r.partials[0]);
    TakeOnePartial(c, r.partials[0], e.seqs, chunkSize);
  }

  lemma PartialIsReady(cfg: Config, e: Engine, r: Reservation, id: Id)
    requires Inv(cfg, e)
    requires ReservedOk(cfg, e, r)
    requires r.partials == [id]
    ensures var v := Look(e.seqs, id);
            && Partial(v) && id !in r.victims && id !in r.kept
            && forall n :: 1 <= n <= |v.prompt| - v.processed ==> Ready(cfg, v, r.pool.Held(id), n)
    ensures multiset(e.waiting + r.victims) + multiset(r.kept) + multiset{id} == multiset(e.waiting) + multiset(e.running)
  {
    ReservedMembers(cfg, e, r);
    assert id in r.partials;
    var v := Look(e.seqs, id);
    assert cfg.Fits(v) by { assert id in e.waiting + e.running; }
    assert Settled(cfg, v, e.pool.Held(id));
    assert v.Len() == |v.prompt|;
    OwnsMeans(r.pool, r.kept + r.partials, cfg.numBlocks);
    DistinctSum(r.kept, r.partials);
  }

  lemma OnePartialFills(cfg: Config, e: Engine, chunkSize: nat, r: Reservation, c: Chunking, id: Id)
    requires SarathiInv(cfg, e, chunkSize)
    requires ReservedOk(cfg, e, r) && r.partials == [id]
    requires c == AfterDecodes(e, r)
    requires c.tokens == |c.running| && |c.running| + 1 <= |e.running|
    requires BatchTokens(c.scheduled, c.chunks) == c.tokens
    requires Suffix(c.waiting, e.waiting + r.victims)
    requires forall x :: x in c.running ==> EntryOk(cfg, e.seqs, r.victims, c, x) && !Incomplete(x, c, e.seqs, r.victims)
    ensures var n := NextTokens(Look(e.seqs, id), chunkSize, c.tokens);
            && n >= 1
            && Filling(cfg, e, r.victims, chunkSize, Put(c, id, n))
            && Budgeted(cfg, e, r.victims, chunkSize, Put(c, id, n))
  {
    var v := Look(e.seqs, id);
    var n := NextTokens(v, chunkSize, c.tokens);
    PartialIsReady(cfg, e, r, id);
    PutPartial(cfg, e, r.victims, chunkSize, c, id, n);
  }

  lemma PutPartial(cfg: Config, e: Engine, victims: seq<Id>, chunkSize: nat, c: Chunking, id: Id, n: nat)
    requires cfg.Valid()
    requires c.scheduled == c.running && |c.running| + 1 <= cfg.maxSeqs
    requires Owns(c.pool, c.running + [id], cfg.numBlocks)
    requires 0 <= c.tokens && 1 <= n <= chunkSize - c.tokens && !c.negative
    requires id !in victims && id !in c.running
    requires n < |Look(e.seqs, id).prompt| - Look(e.seqs, id).processed ==> n == chunkSize - c.tokens
    requires Suffix(c.waiting, e.waiting + victims)
    requires multiset(c.waiting) + multiset(c.running) + multiset{id} == multiset(e.waiting) + multiset(e.running)
    requires forall x :: x in c.running ==> EntryOk(cfg, e.seqs, victims, c, x) && !Incomplete(x, c, e.seqs, victims)
    requires Ready(cfg, Look(e.seqs, id), c.pool.Held(id), n)
    requires c.tokens == BatchTokens(c.scheduled, c.chunks)
    ensures Filling(cfg, e, victims, chunkSize, Put(c, id, n))
    ensures Budgeted(cfg, e, victims, chunkSize, Put(c, id, n))
  {
    var d := Put(c, id, n);
    forall x | x in d.running ensures EntryOk(cfg, e.seqs, victims, d, x) {
      assert x != id ==> EntryOk(cfg, e.seqs, victims, c, x);
    }
    BatchTokensPut(c.scheduled, c.chunks, id, n);
    forall x | x in c.running ensures !Incomplete(x, d, e.seqs, victims) {
      assert !Incomplete(x, c, e.seqs, victims);
    }
  }

  // A running list that is not empty gives a batch that is not empty.
  lemma RunningGivesBatch(cfg: Config, e: Engine)
    requires Inv(cfg, e)
    requires e.running != []
    ensures var r := Reserved(cfg, e); r.kept + r.partials != []
  {
    var sorted := ByArrival(e.running, e.seqs);
    var s := Start(sorted, e.pool);
    PermutationMembers(sorted, e.running);
    OwnsPermutation(e.pool, e.running, sorted, cfg.numBlocks);
    var oldest := sorted[0];
    assert oldest in e.waiting + e.running;
    if Look(e.seqs, oldest).stageDone {
      SettledBelowPool(cfg, Look(e.seqs, oldest), e.pool.Held(oldest));
      HeadGetsSlot(s, e.seqs, NoCap, cfg.size, cfg.numBlocks);
    } else {
      RunExtends(Next(s, e.seqs, NoCap, cfg.size), e.seqs, NoCap, cfg.size);
    }
  }

  /** The batch of a step that did not fail. */
  lemma BatchIsFilled(cfg: Config, e: Engine, chunkSize: nat)
    requires SarathiInv(cfg, e, chunkSize)
    ensures var c := Schedule(cfg, e, chunkSize);
            var victims := Reserved(cfg, e).victims;
            && Filling(cfg, e, victims, chunkSize, c)
            && Budgeted(cfg, e, victims, chunkSize, c)
            && (c.scheduled == [] ==> victims == [])
  {
    PartialsFill(cfg, e, chunkSize);
    var victims := Reserved(cfg, e).victims;
    AdmitKeeps(cfg, e, victims, chunkSize, AfterPartials(cfg, e, chunkSize));
    if e.running != [] {
      RunningGivesBatch(cfg, e);
      AdmitExtends(cfg, AfterPartials(cfg, e, chunkSize), e.seqs, chunkSize);
    } else {
      ReservedIsOk(cfg, e);
      ReservedMembers(cfg, e, Reserved(cfg, e));
    }
  }

  lemma {:induction false} AdmitExtends(cfg: Config, c: Chunking, seqs: SeqMap, chunkSize: nat)
    requires cfg.Valid()
    ensures c.running <= Admit(cfg, c, seqs, chunkSize).running
    decreases |c.waiting|, if c.overlong then 0 else 1
  {
    if !Stops(cfg, c, seqs, chunkSize) { AdmitExtends(cfg, AdmitNext(cfg, c, seqs, chunkSize), seqs, chunkSize); }
  }

  /** A batch never has more tokens than the chunk size. */
  lemma BatchWithinChunk(cfg: Config, e: Engine, chunkSize: nat)
    requires SarathiInv(cfg, e, chunkSize)
    ensures var c := Schedule(cfg, e, chunkSize); BatchTokens(c.scheduled, c.chunks) <= chunkSize
  {
    BatchIsFilled(cfg, e, chunkSize);
  }

  // The filled batch is well scheduled.
  lemma FilledIsScheduled(cfg: Config, e: Engine, victims: seq<Id>, chunkSize: nat, c: Chunking)
    requires Inv(cfg, e)
    requires forall id :: id in victims ==> id in e.running
    requires Distinct(e.waiting + victims)
    requires Filling(cfg, e, victims, chunkSize, c)
    ensures Scheduled(cfg, AsEngine(e, c), victims, c.scheduled, c.chunks)
  {
    var f := AsEngine(e, c);
    PermutationMembers(c.waiting + c.running, e.waiting + e.running);
    forall x ensures multiset(f.waiting + f.running)[x] <= 1 {
      assert multiset(e.waiting + e.running)[x] <= 1;
    }
    DistinctSum(f.waiting, f.running);
    forall id | id in f.waiting + f.running ensures Placed(cfg, f, victims, c.scheduled, c.chunks, id) {
      assert id in e.waiting + e.running;
      if id in f.running { assert EntryOk(cfg, e.seqs, victims, c, id); }
      if id in f.waiting { assert id in e.waiting || id in victims by { WaitingOrigin(e, victims, c, id); } }
    }
  }

  lemma WaitingOrigin(e: Engine, victims: seq<Id>, c: Chunking, id: Id)
    requires Suffix(c.waiting, e.waiting + victims)
    requires id in c.waiting
    ensures id in e.waiting || id in victims
  {
    var all := e.waiting + victims;
    var i :| 0 <= i <= |all| && c.waiting == all[i..];
    assert id in all;
  }

  // Execution leaves at most the incomplete entry half processed.
  lemma CompleteLeavesOnePartial(cfg: Config, e: Engine, victims: seq<Id>, chunkSize: nat, c: Chunking, samples: map<Id, Sample>)
    requires Inv(cfg, e)
    requires Filling(cfg, e, victims, chunkSize, c)
    requires OneIncomplete(c, e.seqs, victims)
    ensures OnePartial(Complete(AsEngine(e, c), victims, c.scheduled, c.chunks, samples))
  {
    var f := AsEngine(e, c);
    var g := Complete(f, victims, c.scheduled, c.chunks, samples);
    CompleteConserves(f, victims, c.scheduled, c.chunks, samples);
    forall id | id in g.running && Partial(Look(g.seqs, id)) ensures Incomplete(id, c, e.seqs, victims) {
      assert EntryOk(cfg, e.seqs, victims, c, id);
      PartialWasIncomplete(cfg, EntryView(id, e.seqs, victims), c.pool.Held(id), Chunk(c.chunks, id), SampleOf(samples, id));
    }
  }

  lemma PartialWasIncomplete(cfg: Config, v: SeqView, held: nat, chunk: nat, sample: Sample)
    requires cfg.Valid()
    requires Ready(cfg, v, held, chunk)
    requires Partial(v.Executed(chunk, sample))
    ensures !v.stageDone && chunk < |v.prompt| - v.processed
  {}

  /** Sarathi's invariant over a step: whatever was preempted and even re-admitted, at most one
      prompt is half processed. No relation between max_num_seqs and the chunk size is assumed: each
      entry takes a token of the chunk, so there are never more running than it has tokens. */
  lemma StepKeepsSarathiInv(cfg: Config, e: Engine, chunkSize: nat, aborts: set<Id>, samples: map<Id, Sample>)
    requires SarathiInv(cfg, e, chunkSize)
    ensures var o := Step(cfg, e, chunkSize, aborts, samples);
            o.Stepped? ==> SarathiInv(cfg, o.engine, chunkSize)
  {
    var b := PrefillFirst.Abort(e, aborts);
    PrefillFirst.AbortKeepsInv(cfg, e, aborts);
    var c := Schedule(cfg, b, chunkSize);
    var victims := Reserved(cfg, b).victims;
    BatchIsFilled(cfg, b, chunkSize);
    PartialsFill(cfg, b, chunkSize);
    FilledIsScheduled(cfg, b, victims, chunkSize, c);
    BatchIsNoLongerThanTokens(c.scheduled, c.chunks);
    if c.scheduled == [] {
      PrefillFirst.IdlePlanKeepsInv(cfg, AsEngine(b, c), c.chunks);
    } else {
      FilledCompletes(cfg, b, victims, chunkSize, c, samples);
    }
  }

  lemma FilledCompletes(cfg: Config, e: Engine, victims: seq<Id>, chunkSize: nat, c: Chunking, samples: map<Id, Sample>)
    requires Inv(cfg, e)
    requires Filling(cfg, e, victims, chunkSize, c) && OneIncomplete(c, e.seqs, victims)
    requires Scheduled(cfg, AsEngine(e, c), victims, c.scheduled, c.chunks)
    ensures var f := Complete(AsEngine(e, c), victims, c.scheduled, c.chunks, samples);
            Inv(cfg, f) && OnePartial(f) && |f.running| <= |c.running|
  {
    var f := AsEngine(e, c);
    CompleteInv(cfg, f, victims, c.scheduled, c.chunks, samples);
    CompleteLeavesOnePartial(cfg, e, victims, chunkSize, c, samples);
    CompleteShrinks(f, victims, c.scheduled, c.chunks, samples);
  }

  // Every entry of a batch takes a token, so a filled batch has at most chunk_size entries.
  lemma {:induction false} BatchIsNoLongerThanTokens(scheduled: seq<Id>, chunks: map<Id, nat>)
    ensures |scheduled| <= BatchTokens(scheduled, chunks)
  {
    if scheduled != [] { BatchIsNoLongerThanTokens(scheduled[1..], chunks); }
  }

  lemma {:induction false} AdmitFrame(cfg: Config, c: Chunking, seqs: SeqMap, chunkSize: nat, id: Id)
    requires cfg.Valid()
    requires id !in c.waiting
    ensures Chunk(Admit(cfg, c, seqs, chunkSize).chunks, id) == Chunk(c.chunks, id)
    ensures c.running <= Admit(cfg, c, seqs, chunkSize).running
    decreases |c.waiting|, if c.overlong then 0 else 1
  {
    if !Stops(cfg, c, seqs, chunkSize) {
      assert c.waiting[0] in c.waiting;
      AdmitFrame(cfg, AdmitNext(cfg, c, seqs, chunkSize), seqs, chunkSize, id);
    }
  }

  /** Sarathi's comment: the prompt left half processed is either preempted or gets at least one
      token of the next batch, whatever decodes run before it. */
  lemma PartialAdvances(cfg: Config, e: Engine, chunkSize: nat, id: Id)
    requires SarathiInv(cfg, e, chunkSize)
    requires id in e.running && Partial(Look(e.seqs, id))
    ensures var c := Schedule(cfg, e, chunkSize);
            var v := Look(e.seqs, id);
            id in Reserved(cfg, e).victims ||
            (id in c.scheduled && 1 <= Chunk(c.chunks, id) <= |v.prompt| - v.staged)
  {
    var r := Reserved(cfg, e);
    ReservedIsOk(cfg, e);
    ReservedMembers(cfg, e, r);
    assert id in r.kept + r.partials + r.victims by {
      PermutationMembers(r.kept + r.partials + r.victims, e.running);
    }
    if id !in r.victims {
      var c := AfterPartials(cfg, e, chunkSize);
      PartialsFill(cfg, e, chunkSize);
      assert EntryOk(cfg, e.seqs, r.victims, c, id);
      assert id !in c.waiting by {
        assert multiset(e.waiting + e.running)[id] <= 1;
        assert id in multiset(c.running);
        assert id in c.waiting <==> id in multiset(c.waiting);
      }
      AdmitFrame(cfg, c, e.seqs, chunkSize, id);
      BatchIsFilled(cfg, e, chunkSize);
    }
  }

  /** In a state with more running than the chunk has tokens, which no run gets to, the promise
      fails exactly when the decodes of the step use the chunk up; when they overdraw it, the
      prompt is handed a negative chunk. */
  lemma PartialAdvancesExactly(cfg: Config, e: Engine, chunkSize: nat, id: Id)
    requires Inv(cfg, e) && OnePartial(e)
    requires id in Reserved(cfg, e).partials
    ensures Chunk(AfterPartials(cfg, e, chunkSize).chunks, id) >= 1 <==> |Reserved(cfg, e).slots| < chunkSize
    ensures AfterPartials(cfg, e, chunkSize).negative <==> |Reserved(cfg, e).slots| > chunkSize
  {
    var r := Reserved(cfg, e);
    ReservedIsOk(cfg, e);
    PartialsAtMostOne(cfg, e, r);
    assert r.partials == [id];
    PartialIsReady(cfg, e, r, id);
    OnePartialChunk(AfterDecodes(e, r), id, e.seqs, chunkSize);
  }

  // A decode and a half-processed prompt, under a chunk of one token or of none.
  function StarvedConfig(): Config { Config(16, 4, 0, 16, 16, 2) }

  function Decoder(): SeqView { SeqView(0.0, [7], [7], 1, 1, true, true, 2, true, 0, PAUSED, true) }

  function HalfPrompt(): SeqView { SeqView(1.0, [7, 7], [], 1, 1, false, false, 2, true, 0, PAUSED, true) }

  function StarvedEngine(): Engine {
    Engine([], [0, 1], map[0 := Decoder(), 1 := HalfPrompt()], Pool(2, map[0 := 1, 1 := 1]))
  }

  lemma StarvedPartial()
    ensures var cfg, e := StarvedConfig(), StarvedEngine();
            && Inv(cfg, e) && OnePartial(e)
            && Reserved(cfg, e).partials == [1] && Reserved(cfg, e).slots == [0]
            && Chunk(AfterPartials(cfg, e, 1).chunks, 1) == 0 && !AfterPartials(cfg, e, 1).negative
            && AfterPartials(cfg, e, 0).negative
  {
    StarvedInv();
    StarvedReserved();
    PartialAdvancesExactly(StarvedConfig(), StarvedEngine(), 1, 1);
    PartialAdvancesExactly(StarvedConfig(), StarvedEngine(), 0, 1);
  }

  lemma StarvedViews()
    ensures var cfg := StarvedConfig();
            && Settled(cfg, Decoder(), 1) && cfg.Fits(Decoder())
            && Settled(cfg, HalfPrompt(), 1) && cfg.Fits(HalfPrompt())
            && Partial(HalfPrompt()) && !Partial(Decoder())
  {
    assert Blocks(1, 16) == 1 && Blocks(2, 16) == 1 && Blocks(18, 16) == 2;
  }

  lemma StarvedInv()
    ensures Inv(StarvedConfig(), StarvedEngine()) && OnePartial(StarvedEngine())
  {
    StarvedViews();
    StarvedOwns(StarvedEngine().pool);
    TwoRunning(StarvedConfig(), StarvedEngine(), Decoder(), HalfPrompt());
  }

  lemma TwoRunning(cfg: Config, e: Engine, v: SeqView, w: SeqView)
    requires cfg.Valid()
    requires e.waiting == [] && e.running == [0, 1]
    requires 0 in e.seqs && e.seqs[0] == v && 1 in e.seqs && e.seqs[1] == w
    requires Settled(cfg, v, e.pool.Held(0)) && cfg.Fits(v) && !Partial(v)
    requires Settled(cfg, w, e.pool.Held(1)) && cfg.Fits(w)
    requires Owns(e.pool, e.running, cfg.numBlocks)
    ensures Inv(cfg, e) && OnePartial(e)
  {
    OwnsMeans(e.pool, e.running, cfg.numBlocks);
    NoTail(e.running);
    forall id | id in e.running ensures id == 0 || id == 1 {}
  }

  lemma StarvedOwns(p: Pool)
    requires p == Pool(2, map[0 := 1, 1 := 1])
    ensures Owns(p, [0, 1], 4)
  {
    assert [0, 1][1..] == [1] && [1][1..] == [];
    assert Total([0, 1], p) == 1 + Total([1], p);
    assert Total([1], p) == 1 + Total([], p);
    assert p.held.Keys == {0, 1};
  }

  lemma StarvedReserved()
    ensures var r := Reserved(StarvedConfig(), StarvedEngine()); r.partials == [1] && r.slots == [0]
  {
    var e := StarvedEngine();
    StarvedOrder(e.seqs);
    var s := Start([0, 1], e.pool);
    var t := Next(s, e.seqs, NoCap, 16);
    assert t.queue == [1] && t.slots == [0] && t.partials == [];
    var u := Next(t, e.seqs, NoCap, 16);
    assert u.queue == [] && u.slots == [0] && u.partials == [1];
    assert Run(u, e.seqs, NoCap, 16) == u;
    assert Run(t, e.seqs, NoCap, 16) == u;
  }

  lemma StarvedOrder(seqs: SeqMap)
    requires seqs == map[0 := Decoder(), 1 := HalfPrompt()]
    ensures ByArrival([0, 1], seqs) == [0, 1]
  {
    var before := (a, b) => Look(seqs, a).arrival <= Look(seqs, b).arrival;
    assert SortedBy([0, 1], before);
    SortOfSorted([0, 1], before);
  }

  lemma OnePartialChunk(c: Chunking, id: Id, seqs: SeqMap, chunkSize: nat)
    requires c.tokens == |c.scheduled|
    requires Chunk(c.chunks, id) == 0
    requires Partial(Look(seqs, id))
    requires !c.negative
    ensures Chunk(TakePartials(c, [id], seqs, chunkSize).chunks, id) >= 1 <==> |c.scheduled| < chunkSize
    ensures TakePartials(c, [id], seqs, chunkSize).negative <==> |c.scheduled| > chunkSize
  {
    var n := NextTokens(Look(seqs, id), chunkSize, c.tokens);
    if n != 0 {
      TakeOnePartial(c, id, seqs, chunkSize);
    } else {
      var d := c.(running := c.running + [id]);
      assert [id][1..] == [];
      assert TakePartials(c, [id], seqs, chunkSize) == d;
    }
  }

  /** The chunks of a sequence tile its prompt. */

  datatype Span = Span(start: nat, len: nat)

  // Spans follow one another from 0 to n, none of them empty.
  ghost predicate Tiles(spans: seq<Span>, n: nat) {
    if spans == [] then n == 0
    else
      var last := spans[|spans| - 1];
      last.len >= 1 && last.start + last.len == n && Tiles(spans[..|spans| - 1], last.start)
  }

  type Log = map<Id, seq<Span>>

  function SpansOf(log: Log, id: Id): seq<Span> {
    if id in log then log[id] else []
  }

  // The chunks executed since the sequence arrived or was last reset.
  function LogBatch(log: Log, e: Engine, victims: seq<Id>, c: Chunking): Log {
    map id | id in e.seqs ::
      var kept := if id in victims then [] else SpansOf(log, id);
      if id in c.scheduled && !EntryView(id, e.seqs, victims).promptDone
      then kept + [Span(EntryView(id, e.seqs, victims).staged, Chunk(c.chunks, id))]
      else kept
  }

  ghost predicate Logged(e: Engine, log: Log) {
    forall id :: id in e.waiting + e.running ==> Tiles(SpansOf(log, id), Look(e.seqs, id).staged)
  }

  datatype Event = Tick(aborts: set<Id>, samples: map<Id, Sample>) | Arrival(id: Id, view: SeqView)

  datatype History = Going(engine: Engine, log: Log) | Ended

  // A step that fails ends the run: it has left queues, tables and statuses half changed.
  function Apply(cfg: Config, h: History, chunkSize: nat, event: Event): History
    requires cfg.Valid()
    requires h.Going?
  {
    match event
    case Arrival(id, view) => Going(PrefillFirst.Arrive(h.engine, id, view), h.log - {id})
    case Tick(aborts, samples) =>
      var b := PrefillFirst.Abort(h.engine, aborts);
      var c := Schedule(cfg, b, chunkSize);
      var o := Step(cfg, h.engine, chunkSize, aborts, samples);
      if o.Failed? then Ended else Going(o.engine, LogBatch(h.log, b, Reserved(cfg, b).victims, c))
  }

  function RunOf(cfg: Config, h: History, chunkSize: nat, events: seq<Event>): History
    requires cfg.Valid()
    decreases |events|
  {
    if events == [] || h.Ended? then h
    else RunOf(cfg, Apply(cfg, h, chunkSize, events[0]), chunkSize, events[1..])
  }

  ghost predicate Proper(cfg: Config, e: Engine, event: Event)
    requires cfg.Valid()
  {
    event.Arrival? ==> event.id !in e.waiting + e.running && Fresh(event.view) && cfg.Fits(event.view)
  }

  ghost predicate ProperRun(cfg: Config, h: History, chunkSize: nat, events: seq<Event>)
    requires cfg.Valid()
    decreases |events|
  {
    events != [] && h.Going? ==>
      && Proper(cfg, h.engine, events[0])
      && ProperRun(cfg, Apply(cfg, h, chunkSize, events[0]), chunkSize, events[1..])
  }

  lemma TilesAppend(spans: seq<Span>, n: nat, len: nat)
    requires Tiles(spans, n)
    requires len >= 1
    ensures Tiles(spans + [Span(n, len)], n + len)
  {
    assert (spans + [Span(n, len)])[..|spans|] == spans;
  }

  lemma TickLogs(cfg: Config, e: Engine, log: Log, chunkSize: nat, samples: map<Id, Sample>, id: Id)
    requires SarathiInv(cfg, e, chunkSize)
    requires Logged(e, log)
    requires var c := Schedule(cfg, e, chunkSize); c.scheduled != [] && id in c.waiting + c.running
    ensures var c := Schedule(cfg, e, chunkSize);
            var victims := Reserved(cfg, e).victims;
            var seqs := Execute(e.seqs, victims, c.scheduled, c.chunks, samples);
            Tiles(SpansOf(LogBatch(log, e, victims, c), id), Look(seqs, id).staged)
  {
    var c := Schedule(cfg, e, chunkSize);
    var victims := Reserved(cfg, e).victims;
    BatchIsFilled(cfg, e, chunkSize);
    PartialsFill(cfg, e, chunkSize);
    FilledIsScheduled(cfg, e, victims, chunkSize, c);
    PermutationMembers(c.waiting + c.running, e.waiting + e.running);
    assert id in e.waiting + e.running;
    assert Placed(cfg, AsEngine(e, c), victims, c.scheduled, c.chunks, id);
    if id in c.scheduled {
      DistinctSum(c.waiting, c.running);
      assert EntryOk(cfg, e.seqs, victims, c, id);
    }
    EntryLogs(cfg, e, log, victims, c, samples, id);
  }

  lemma EntryLogs(cfg: Config, e: Engine, log: Log, victims: seq<Id>, c: Chunking, samples: map<Id, Sample>, id: Id)
    requires cfg.Valid()
    requires id in e.seqs
    requires Tiles(SpansOf(log, id), e.seqs[id].staged)
    requires id in c.scheduled ==> EntryOk(cfg, e.seqs, victims, c, id)
    ensures var seqs := Execute(e.seqs, victims, c.scheduled, c.chunks, samples);
            Tiles(SpansOf(LogBatch(log, e, victims, c), id), Look(seqs, id).staged)
  {
    var v := EntryView(id, e.seqs, victims);
    var kept := if id in victims then [] else SpansOf(log, id);
    assert Tiles(kept, v.staged);
    if id in c.scheduled {
      ExecutedStages(v, Chunk(c.chunks, id), SampleOf(samples, id));
      if !v.promptDone { TilesAppend(kept, v.staged, Chunk(c.chunks, id)); }
    }
  }

  lemma ExecutedStages(v: SeqView, chunk: nat, sample: Sample)
    ensures v.Executed(chunk, sample).staged == if v.promptDone then v.staged else v.staged + chunk
  {}

  ghost predicate HistoryInv(cfg: Config, h: History, chunkSize: nat) {
    h.Going? ==> SarathiInv(cfg, h.engine, chunkSize) && Logged(h.engine, h.log)
  }

  lemma {:induction false} RunKeeps(cfg: Config, h: History, chunkSize: nat, events: seq<Event>)
    requires cfg.Valid() && HistoryInv(cfg, h, chunkSize)
    requires ProperRun(cfg, h, chunkSize, events)
    ensures HistoryInv(cfg, RunOf(cfg, h, chunkSize, events), chunkSize)
    decreases |events|
  {
    if events != [] && h.Going? {
      ApplyKeeps(cfg, h, chunkSize, events[0]);
      RunKeeps(cfg, Apply(cfg, h, chunkSize, events[0]), chunkSize, events[1..]);
    }
  }

  /** In every reachable state of a run: the invariant holds, and for every queued sequence the
      chunks executed so far tile exactly the part of the prompt counted as processed; for a
      decoding sequence that is the whole prompt. */
  lemma ChunksTilePrompts(cfg: Config, h: History, chunkSize: nat, events: seq<Event>)
    requires cfg.Valid() && HistoryInv(cfg, h, chunkSize)
    requires ProperRun(cfg, h, chunkSize, events)
    ensures var f := RunOf(cfg, h, chunkSize, events);
            f.Going? ==>
              && SarathiInv(cfg, f.engine, chunkSize) && Logged(f.engine, f.log)
              && forall id :: id in f.engine.running && Decoding(Look(f.engine.seqs, id)) ==>
                   Tiles(SpansOf(f.log, id), |Look(f.engine.seqs, id).prompt|)
  {
    RunKeeps(cfg, h, chunkSize, events);
    var f := RunOf(cfg, h, chunkSize, events);
    if f.Going? {
      forall id | id in f.engine.running ensures Tiles(SpansOf(f.log, id), Look(f.engine.seqs, id).staged) {
        assert id in f.engine.waiting + f.engine.running;
      }
    }
  }

  lemma ApplyKeeps(cfg: Config, h: History, chunkSize: nat, event: Event)
    requires h.Going? && SarathiInv(cfg, h.engine, chunkSize) && Logged(h.engine, h.log)
    requires Proper(cfg, h.engine, event)
    ensures HistoryInv(cfg, Apply(cfg, h, chunkSize, event), chunkSize)
  {
    match event
    case Arrival(id, view) => ArrivalKeeps(cfg, h.engine, h.log, chunkSize, id, view);
    case Tick(aborts, samples) =>
      StepKeepsSarathiInv(cfg, h.engine, chunkSize, aborts, samples);
      TickKeepsLog(cfg, h, chunkSize, aborts, samples);
  }

  lemma ArrivalKeeps(cfg: Config, e: Engine, log: Log, chunkSize: nat, id: Id, view: SeqView)
    requires SarathiInv(cfg, e, chunkSize) && Logged(e, log)
    requires id !in e.waiting + e.running && Fresh(view) && cfg.Fits(view)
    ensures var f := PrefillFirst.Arrive(e, id, view);
            SarathiInv(cfg, f, chunkSize) && Logged(f, log - {id})
  {
    var f := PrefillFirst.Arrive(e, id, view);
    PrefillFirst.ArriveKeepsInv(cfg, e, id, view);
    forall x | x in f.waiting + f.running ensures Tiles(SpansOf(log - {id}, x), Look(f.seqs, x).staged) {
      if x != id { assert x in e.waiting + e.running; }
    }
  }

  lemma TickKeepsLog(cfg: Config, h: History, chunkSize: nat, aborts: set<Id>, samples: map<Id, Sample>)
    requires h.Going? && SarathiInv(cfg, h.engine, chunkSize) && Logged(h.engine, h.log)
    ensures var f := Apply(cfg, h, chunkSize, Tick(aborts, samples)); f.Going? ==> Logged(f.engine, f.log)
  {
    var b := PrefillFirst.Abort(h.engine, aborts);
    PrefillFirst.AbortKeepsInv(cfg, h.engine, aborts);
    AbortKeepsLog(h.engine, h.log, aborts);
    BatchKeepsLog(cfg, b, h.log, chunkSize, samples);
  }

  // The queues and the log after the batch of a schedule call.
  lemma BatchKeepsLog(cfg: Config, b: Engine, log: Log, chunkSize: nat, samples: map<Id, Sample>)
    requires SarathiInv(cfg, b, chunkSize) && Logged(b, log)
    ensures var c := Schedule(cfg, b, chunkSize);
            var victims := Reserved(cfg, b).victims;
            Logged(if c.scheduled == [] then AsEngine(b, c)
                   else Complete(AsEngine(b, c), victims, c.scheduled, c.chunks, samples),
                   LogBatch(log, b, victims, c))
  {
    var c := Schedule(cfg, b, chunkSize);
    var victims := Reserved(cfg, b).victims;
    var g := LogBatch(log, b, victims, c);
    if c.scheduled == [] {
      BatchIsFilled(cfg, b, chunkSize);
      PermutationMembers(c.waiting + c.running, b.waiting + b.running);
      forall id | id in c.waiting + c.running
        ensures SpansOf(g, id) == SpansOf(log, id) && id in b.waiting + b.running {}
    } else {
      var f := Complete(AsEngine(b, c), victims, c.scheduled, c.chunks, samples);
      CompleteConserves(AsEngine(b, c), victims, c.scheduled, c.chunks, samples);
      forall id | id in f.waiting + f.running ensures Tiles(SpansOf(g, id), Look(f.seqs, id).staged) {
        assert id in c.waiting + c.running;
        TickLogs(cfg, b, log, chunkSize, samples, id);
      }
    }
  }

  lemma AbortKeepsLog(e: Engine, log: Log, aborts: set<Id>)
    requires Logged(e, log)
    ensures Logged(PrefillFirst.Abort(e, aborts), log)
  {
    var b := PrefillFirst.Abort(e, aborts);
    WithoutWithin(e.waiting, aborts);
    forall id | id in b.waiting + b.running ensures Tiles(SpansOf(log, id), Look(b.seqs, id).staged) {
      assert id in e.waiting + e.running;
    }
  }
}
