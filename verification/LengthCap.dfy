/** When a request is cut off for length, over its whole life: decodes, preemptions that swap its
    cache out, and preemptions that throw it away. */
module LengthCap {
  import opened Lists
  import opened Sequences
  import EngineCore
  import DecodeInstance

  datatype Turn =
    | Generate(sample: Sample)   // scheduled: its prompt if that is not in the cache, then one token
    | SwapOut                    // preempted, the cache kept in host memory
    | Recompute                  // preempted, the cache dropped

  // Finished sequences are not touched again; waiting ones cannot be preempted.
  function Take(v: SeqView, turn: Turn): SeqView {
    if v.status.Finished() then v
    else match turn
      case Generate(sample) => v.Executed(EngineCore.DefaultChunk(v), sample)
      case SwapOut => if v.status.Executing() then v.ResetButNotRecompute() else v
      case Recompute => if v.status.Executing() then v.ResetForRecompute() else v
  }

  function Play(v: SeqView, turns: seq<Turn>): SeqView
    decreases |turns|
  {
    if turns == [] then v else Play(Take(v, turns[0]), turns[1..])
  }

  // The length at which the sequence is cut off, as things stand.
  function Cap(v: SeqView): int { |v.prompt| + v.maxTokens }

  // Tokens generated before the preemptions that dropped the cache.
  function Forgiven(v: SeqView, turns: seq<Turn>): nat
    decreases |turns|
  {
    if turns == [] then 0
    else (if turns[0].Recompute? && v.status.Executing() then |v.output| else 0) + Forgiven(Take(v, turns[0]), turns[1..])
  }

  // The tokens the turns generate.
  function Generated(v: SeqView, turns: seq<Turn>): seq<Token>
    decreases |turns|
  {
    if turns == [] then []
    else (if turns[0].Generate? && !v.status.Finished() then [turns[0].sample.token] else [])
         + Generated(Take(v, turns[0]), turns[1..])
  }

  ghost predicate Alive(v: SeqView) {
    (EngineCore.Fresh(v) && v.maxTokens >= 1) || DecodeInstance.Decodable(v)
  }

  // Alive, or finished within the cap.
  ghost predicate Sound(v: SeqView) {
    && (!v.status.Finished() ==> Alive(v))
    && v.Len() <= Cap(v)
    && (v.status.FINISHED_LENGTH_CAPPED? ==> v.Len() == Cap(v))
  }

  lemma TakeKeeps(v: SeqView, turn: Turn)
    requires Sound(v)
    ensures var w := Take(v, turn);
            && Sound(w)
            && Cap(w) == Cap(v) + (if turn.Recompute? && v.status.Executing() then |v.output| else 0)
            && w.Text() == v.Text() + (if turn.Generate? && !v.status.Finished() then [turn.sample.token] else [])
  {
    var w := Take(v, turn);
    if !v.status.Finished() && turn.Generate? {
      assert w.Text() == v.prompt + (v.output + [turn.sample.token]);
    }
  }

  /** A turn that generates cuts the sequence off for length exactly when its token is the one
      that reaches the cap and it does not complete a stop string. */
  lemma CutOffExactly(v: SeqView, sample: Sample)
    requires Alive(v)
    ensures Take(v, Generate(sample)).status.FINISHED_LENGTH_CAPPED? <==> !sample.stopString && v.Len() + 1 == Cap(v)
  {}

  /** And stops it exactly when its token completes a stop string, or is the end token, that counts,
      and not the one that reaches the cap. Otherwise it goes on, and is paused. */
  lemma StoppedExactly(v: SeqView, sample: Sample)
    requires Alive(v)
    ensures var w := Take(v, Generate(sample));
            && (w.status.FINISHED_STOPPED? <==>
                  sample.stopString || (v.Len() + 1 != Cap(v) && !v.ignoreEos && sample.token == v.eos))
            && (!w.status.Finished() ==> w.status.PAUSED?)
  {}

  lemma {:induction false} LifeKeeps(v: SeqView, turns: seq<Turn>)
    requires Sound(v)
    ensures Sound(Play(v, turns))
    ensures Cap(Play(v, turns)) == Cap(v) + Forgiven(v, turns)
    ensures Play(v, turns).Text() == v.Text() + Generated(v, turns)
    decreases |turns|
  {
    if turns == [] {
      assert v.Text() + [] == v.Text();
    } else {
      var w := Take(v, turns[0]);
      TakeKeeps(v, turns[0]);
      LifeKeeps(w, turns[1..]);
      var now := if turns[0].Generate? && !v.status.Finished() then [turns[0].sample.token] else [];
      Regroup(v.Text(), now, Generated(w, turns[1..]));
    }
  }

  /** The cap over any life: the first cap, plus whatever was generated before the cache was
      dropped, since max_tokens is not lowered then. An unfinished sequence is below it. */
  lemma CapOverLife(v: SeqView, turns: seq<Turn>)
    requires Sound(v)
    ensures var w := Play(v, turns);
            && Cap(w) == Cap(v) + Forgiven(v, turns)
            && w.Text() == v.Text() + Generated(v, turns)
            && w.Len() <= Cap(w)
            && (!w.status.Finished() ==> w.Len() < Cap(w) && |w.output| < w.maxTokens)
            && (w.status.FINISHED_LENGTH_CAPPED? ==> w.Len() == Cap(v) + Forgiven(v, turns))
  {
    LifeKeeps(v, turns);
  }

  /** With swapping preemptions only, however many, the cap is the first one. */
  lemma {:induction false} SwappingForgivesNothing(v: SeqView, turns: seq<Turn>)
    requires forall t :: t in turns ==> !t.Recompute?
    ensures Forgiven(v, turns) == 0
    decreases |turns|
  {
    if turns != [] {
      assert turns[0] in turns;
      forall t | t in turns[1..] ensures !t.Recompute? { assert t in turns; }
      SwappingForgivesNothing(Take(v, turns[0]), turns[1..]);
    }
  }

  lemma SwappingKeepsTheCap(v: SeqView, turns: seq<Turn>)
    requires Sound(v)
    requires forall t :: t in turns ==> !t.Recompute?
    ensures var w := Play(v, turns);
            && Cap(w) == Cap(v)
            && w.Len() <= Cap(v)
            && (!w.status.Finished() ==> |w.output| < w.maxTokens)
            && (w.status.FINISHED_LENGTH_CAPPED? ==> |w.Text()| == |v.prompt| + v.maxTokens)
  {
    CapOverLife(v, turns);
    SwappingForgivesNothing(v, turns);
  }

  // Whenever the cache is dropped, nothing has been generated since the prompt was last fixed.
  predicate DropsPromptsOnly(v: SeqView, turns: seq<Turn>)
    decreases |turns|
  {
    turns == [] || (!DropsOutput(v, turns[0]) && DropsPromptsOnly(Take(v, turns[0]), turns[1..]))
  }

  predicate DropsOutput(v: SeqView, turn: Turn) {
    turn.Recompute? && v.status.Executing() && v.output != []
  }

  lemma {:induction false} ForgivesExactly(v: SeqView, turns: seq<Turn>)
    ensures Forgiven(v, turns) == 0 <==> DropsPromptsOnly(v, turns)
    decreases |turns|
  {
    if turns != [] { ForgivesExactly(Take(v, turns[0]), turns[1..]); }
  }

  /** A request keeps its first cap over its life if and only if it is never preempted by dropping
      its cache while it has output: one such preemption, and it may grow past what was asked for. */
  lemma CapKeptExactly(v: SeqView, turns: seq<Turn>)
    requires Sound(v)
    ensures Cap(Play(v, turns)) == Cap(v) <==> DropsPromptsOnly(v, turns)
    ensures !DropsPromptsOnly(v, turns) ==> Cap(Play(v, turns)) > Cap(v)
  {
    CapOverLife(v, turns);
    ForgivesExactly(v, turns);
  }

  // A prompt of one token and an allowance of two ends with four tokens instead of three.
  lemma RecomputeOvershoots(a: Sample, b: Sample, c: Sample)
    requires !a.stopString && !b.stopString && !c.stopString
    ensures var v := SeqView(0.0, [1], [], 0, 0, false, false, 2, true, 0, WAITING, false);
            var w := Play(v, [Generate(a), Recompute] + [Generate(b), Generate(c)]);
            Cap(v) == 3 && w.status.FINISHED_LENGTH_CAPPED? && w.Len() == 4
  {
    var v := SeqView(0.0, [1], [], 0, 0, false, false, 2, true, 0, WAITING, false);
    var v1 := Take(v, Generate(a));
    assert v1 == v.(output := [a.token], processed := 1, staged := 1, promptDone := true, stageDone := true, status := PAUSED, everScheduled := true);
    var v2 := Take(v1, Recompute);
    assert v2 == v.(prompt := [1, a.token], everScheduled := true);
    PlayTwo(v, Generate(a), Recompute, [Generate(b), Generate(c)]);
    RecomputedTwice(v2, a, b, c);
  }

  lemma PlayTwo(v: SeqView, x: Turn, y: Turn, rest: seq<Turn>)
    ensures Play(v, [x, y] + rest) == Play(Take(Take(v, x), y), rest)
  {
    assert ([x, y] + rest)[1..] == [y] + rest;
    assert ([y] + rest)[1..] == rest;
  }

  lemma RecomputedTwice(v: SeqView, a: Sample, b: Sample, c: Sample)
    requires !b.stopString && !c.stopString
    requires v == SeqView(0.0, [1, a.token], [], 0, 0, false, false, 2, true, 0, WAITING, true)
    ensures var w := Play(v, [Generate(b), Generate(c)]);
            w.status.FINISHED_LENGTH_CAPPED? && w.Len() == 4
  {
    var v1 := Take(v, Generate(b));
    assert v1.output == [b.token] && v1.status.PAUSED? && v1.promptDone && v1.prompt == v.prompt && v1.maxTokens == 2;
    var v2 := Take(v1, Generate(c));
    assert v2.output == [b.token, c.token];
    PlayTwo(v, Generate(b), Generate(c), []);
    assert [Generate(b), Generate(c)] + [] == [Generate(b), Generate(c)];
  }
}
