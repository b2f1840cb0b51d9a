// A request as the schedulers and the sequence manager see it.
module Sequences {
  import opened Lists

  type Id = nat      // sequence ids
  type Token = int   // token ids

  datatype Status =
    | WAITING
    | RUNNING
    | PAUSED
    | FINISHED_STOPPED
    | FINISHED_LENGTH_CAPPED
    | FINISHED_IGNORED
    | FINISHED_ABORTED
  {
    predicate Finished() {
      FINISHED_STOPPED? || FINISHED_LENGTH_CAPPED? || FINISHED_IGNORED? || FINISHED_ABORTED?
    }

    predicate Executing() { RUNNING? || PAUSED? }
  }

  // The number of blocks of the given size that hold n tokens.
  function Blocks(n: nat, size: nat): nat
    requires size > 0
  {
    (n + size - 1) / size
  }

  lemma DivBounds(x: nat, d: nat)
    requires d > 0
    ensures d * (x / d) <= x < d * (x / d) + d
  {
    assert x == d * (x / d) + x % d;
  }

  lemma MulMonotone(c: nat, a: nat, b: nat)
    requires a <= b
    ensures c * a <= c * b
  {
    assert c * b == c * a + c * (b - a);
  }

  lemma DivUnique(x: nat, d: nat, q: nat)
    requires d > 0
    requires d * q <= x < d * q + d
    ensures x / d == q
  {
    DivBounds(x, d);
    var r := x / d;
    assert d * (q + 1) == d * q + d;
    assert d * (r + 1) == d * r + d;
    if r < q { MulMonotone(d, r + 1, q); }
    if q < r { MulMonotone(d, q + 1, r); }
  }

  lemma DivMonotone(x: nat, y: nat, d: nat)
    requires d > 0
    requires x <= y
    ensures x / d <= y / d
  {
    DivBounds(x, d);
    DivBounds(y, d);
    var q, r := x / d, y / d;
    assert d * (r + 1) == d * r + d;
    if r < q { MulMonotone(d, r + 1, q); }
  }

  lemma BlocksMonotone(a: nat, b: nat, size: nat)
    requires size > 0
    requires a <= b
    ensures Blocks(a, size) <= Blocks(b, size)
  {
    DivMonotone(a + size - 1, b + size - 1, size);
  }

  // One more token needs at most one more block.
  lemma BlocksStep(n: nat, size: nat)
    requires size > 0
    ensures Blocks(n, size) <= Blocks(n + 1, size) <= Blocks(n, size) + 1
  {
    var x := n + size - 1;
    var q := x / size;
    DivMonotone(x, x + 1, size);
    DivMonotone(x + 1, x + size, size);
    DivBounds(x, size);
    assert size * (q + 1) == size * q + size;
    DivUnique(x + size, size, q + 1);
  }

  lemma BlocksPositive(n: nat, size: nat)
    requires size > 0
    requires n > 0
    ensures Blocks(n, size) >= 1
  {
    DivMonotone(size, n + size - 1, size);
    DivUnique(size, size, 1);
  }

  // What the sampler hands back for a scheduled sequence: the token, and whether the
  // detokenized text now ends with one of the stop strings.
  datatype Sample = Sample(token: Token, stopString: bool)

  /** The scheduling-relevant state of one sequence. Its logical blocks hold exactly
      prompt + output (module Pages), so their number is Need(). */
  datatype SeqView = SeqView(
    arrival: real,
    prompt: seq<Token>,
    output: seq<Token>,
    processed: nat,
    staged: nat,
    promptDone: bool,
    stageDone: bool,
    maxTokens: int,
    ignoreEos: bool,
    eos: Token,
    status: Status,
    everScheduled: bool)
  {
    function Len(): nat { |prompt| + |output| }

    function Text(): seq<Token> { prompt + output }

    function Need(size: nat): nat
      requires size > 0
    {
      Blocks(Len(), size)
    }

    function LastToken(): Token
      requires Len() > 0
    {
      if output == [] then prompt[|prompt| - 1] else output[|output| - 1]
    }

    // Both prompt counters advance by the chunk the batch processed.
    function AdvancePrompt(chunk: nat): SeqView {
      var p := processed + chunk;
      var s := staged + chunk;
      this.(processed := p, staged := s,
            promptDone := promptDone || p == |prompt|,
            stageDone := stageDone || s == |prompt|)
    }

    function AppendToken(t: Token): SeqView {
      this.(output := output + [t])
    }

    function CheckStop(stopString: bool): (r: SeqView)
      ensures r == this.(status := r.status)
      ensures r.status == status || r.status.Finished()
    {
      if stopString then this.(status := FINISHED_STOPPED)
      else if |output| == maxTokens then this.(status := FINISHED_LENGTH_CAPPED)
      else if !ignoreEos && Len() > 0 && LastToken() == eos then this.(status := FINISHED_STOPPED)
      else this
    }

    // Preemption that throws the cache away: the generated tokens become prompt.
    function ResetForRecompute(): SeqView {
      this.(status := WAITING, processed := 0, staged := 0, promptDone := false, stageDone := false,
            prompt := prompt + output, output := [])
    }

    // Preemption that keeps the cache elsewhere: the tokens become prompt, and the
    // remaining allowance shrinks by as many.
    function ResetButNotRecompute(): SeqView {
      this.(prompt := prompt + output, processed := Len(), staged := Len(),
            maxTokens := maxTokens - |output|, output := [])
    }

    // One executed batch entry: resume, advance the prompt, pause, append and check.
    function Executed(chunk: nat, sample: Sample): (r: SeqView)
      ensures r.arrival == arrival && r.prompt == prompt && r.maxTokens == maxTokens
      ensures r.everScheduled
      ensures r.output == output || r.output == output + [sample.token]
    {
      var resumed := this.(status := RUNNING, everScheduled := true);
      var advanced := if resumed.promptDone then resumed else resumed.AdvancePrompt(chunk);
      var paused := advanced.(status := PAUSED);
      if paused.promptDone then paused.AppendToken(sample.token).CheckStop(sample.stopString) else paused
    }
  }

  // Neither preemption touches the text; only its division into prompt and output moves.
  lemma ResetsKeepText(v: SeqView)
    ensures v.ResetForRecompute().Text() == v.Text()
    ensures v.ResetButNotRecompute().Text() == v.Text()
  {}

  lemma LastTokenEnds(v: SeqView)
    ensures v.Len() > 0 ==> v.LastToken() == v.Text()[|v.Text()| - 1]
  {}

  type SeqMap = map<Id, SeqView>

  // What an unknown id reads as; every lookup the schedulers make is of a known id.
  const NO_SEQUENCE: SeqView :=
    SeqView(0.0, [], [], 0, 0, false, false, 1, false, 0, WAITING, false)

  function Look(seqs: SeqMap, id: Id): SeqView {
    if id in seqs then seqs[id] else NO_SEQUENCE
  }

  /** Blocks and tokens of the texts of several sequences. */

  function NeedSum(ids: seq<Id>, seqs: SeqMap, size: nat): nat
    requires size > 0
  {
    if ids == [] then 0 else Look(seqs, ids[0]).Need(size) + NeedSum(ids[1..], seqs, size)
  }

  function LenSum(ids: seq<Id>, seqs: SeqMap): nat {
    if ids == [] then 0 else Look(seqs, ids[0]).Len() + LenSum(ids[1..], seqs)
  }

  lemma {:induction false} NeedSumSnoc(ids: seq<Id>, x: Id, seqs: SeqMap, size: nat)
    requires size > 0
    ensures NeedSum(ids + [x], seqs, size) == NeedSum(ids, seqs, size) + Look(seqs, x).Need(size)
  {
    if ids == [] {
      assert [] + [x] == [x] && NeedSum([x][1..], seqs, size) == 0;
    } else {
      assert (ids + [x])[1..] == ids[1..] + [x];
      NeedSumSnoc(ids[1..], x, seqs, size);
    }
  }

  lemma {:induction false} LenSumSnoc(ids: seq<Id>, x: Id, seqs: SeqMap)
    ensures LenSum(ids + [x], seqs) == LenSum(ids, seqs) + Look(seqs, x).Len()
  {
    if ids == [] {
      assert [] + [x] == [x] && LenSum([x][1..], seqs) == 0;
    } else {
      assert (ids + [x])[1..] == ids[1..] + [x];
      LenSumSnoc(ids[1..], x, seqs);
    }
  }

  // First come, first served: now - arrival, largest first, is arrival, smallest first.
  function ByArrival(ids: seq<Id>, seqs: SeqMap): (r: seq<Id>)
    ensures multiset(r) == multiset(ids)
  {
    StableSort(ids, (a, b) => Look(seqs, a).arrival <= Look(seqs, b).arrival)
  }

  ghost predicate InArrivalOrder(ids: seq<Id>, seqs: SeqMap) {
    forall i, j :: 0 <= i < j < |ids| ==> Look(seqs, ids[i]).arrival <= Look(seqs, ids[j]).arrival
  }

  lemma ByArrivalSorts(ids: seq<Id>, seqs: SeqMap)
    ensures InArrivalOrder(ByArrival(ids, seqs), seqs)
  {
    var before := (a, b) => Look(seqs, a).arrival <= Look(seqs, b).arrival;
    StableSortSorts(ids, before);
    var r := ByArrival(ids, seqs);
    assert r == StableSort(ids, before);
    forall i, j | 0 <= i < j < |r| ensures Look(seqs, r[i]).arrival <= Look(seqs, r[j]).arrival {
      assert before(r[i], r[j]);
    }
  }
}
