/** A request as the source keeps it: token lists, prompt counters, and the token stream once more
    in logical blocks of fixed size. */
module PagedSequence {
  import opened Sequences
  import opened Pages

  const BLANK_TOKEN_ID: Token := -1

  class LogicalTokenBlock {
    const blockNumber: nat
    const blockSize: nat
    const tokenIds: array<Token>
    var numTokens: nat

    ghost predicate Valid()
      reads this
    {
      tokenIds.Length == blockSize && numTokens <= blockSize
    }

    function Tokens(): seq<Token>
      requires Valid()
      reads this, tokenIds
    {
      tokenIds[..numTokens]
    }

    constructor (blockNumber: nat, blockSize: nat)
      ensures Valid() && fresh(tokenIds)
      ensures this.blockNumber == blockNumber && this.blockSize == blockSize
      ensures Tokens() == []
    {
      this.blockNumber := blockNumber;
      this.blockSize := blockSize;
      tokenIds := new Token[blockSize](_ => BLANK_TOKEN_ID);
      numTokens := 0;
    }

    predicate IsFull()
      reads this
    {
      numTokens == blockSize
    }

    method AppendTokens(ts: seq<Token>)
      requires Valid()
      requires |ts| <= blockSize - numTokens
      modifies this, tokenIds
      ensures Valid()
      ensures Tokens() == old(Tokens()) + ts
    {
      var from := numTokens;
      for i := 0 to |ts|
        invariant numTokens == from
        invariant tokenIds[..from] == old(tokenIds[..from])
        invariant tokenIds[from..from + i] == ts[..i]
      {
        tokenIds[from + i] := ts[i];
        assert tokenIds[from..from + i + 1] == tokenIds[from..from + i] + [ts[i]];
      }
      numTokens := from + |ts|;
      assert tokenIds[..from + |ts|] == tokenIds[..from] + tokenIds[from..from + |ts|];
    }
  }

  class Sequence {
    const blockSize: nat
    const arrival: real
    const eos: Token
    const ignoreEos: bool
    var blocks: seq<LogicalTokenBlock>
    var prompt: seq<Token>
    var output: seq<Token>
    var processed: nat
    var staged: nat
    var promptDone: bool
    var stageDone: bool
    var maxTokens: int
    var status: Status
    var everScheduled: bool

    ghost function Footprint(): set<object>
      reads this
    {
      (set b | b in blocks :: b as object) + (set b | b in blocks :: b.tokenIds as object)
    }

    // The blocks hold the given pages, each its own array.
    ghost predicate Shows(pages: seq<seq<Token>>)
      reads this, Footprint()
    {
      && |blocks| == |pages|
      && (forall i :: 0 <= i < |blocks| ==> blocks[i] in blocks && Holds(blocks[i], i, pages[i]))
      && (forall i, j :: 0 <= i < j < |blocks| ==> blocks[i] != blocks[j] && blocks[i].tokenIds != blocks[j].tokenIds)
    }

    ghost predicate Holds(b: LogicalTokenBlock, i: nat, page: seq<Token>)
      reads b, b.tokenIds
    {
      b.Valid() && b.blockNumber == i && b.blockSize == blockSize && b.Tokens() == page
    }

    // The logical blocks are the pages of the text.
    ghost predicate Valid()
      reads this, Footprint()
    {
      blockSize > 0 && Shows(PagesOf(View().Text(), blockSize))
    }

    function View(): SeqView
      reads this
    {
      SeqView(arrival, prompt, output, processed, staged, promptDone, stageDone, maxTokens, ignoreEos, eos, status, everScheduled)
    }

    constructor (prompt: seq<Token>, blockSize: nat, eos: Token, arrival: real, maxTokens: int, ignoreEos: bool)
      requires blockSize > 0
      ensures Valid() && fresh(Footprint())
      ensures this.blockSize == blockSize
      ensures View() == SeqView(arrival, prompt, [], 0, 0, false, false, maxTokens, ignoreEos, eos, WAITING, false)
    {
      this.blockSize := blockSize;
      this.eos := eos;
      this.arrival := arrival;
      this.ignoreEos := ignoreEos;
      this.maxTokens := maxTokens;
      this.prompt, output := prompt, [];
      processed, staged, promptDone, stageDone := 0, 0, false, false;
      status, everScheduled := WAITING, false;
      blocks := [];
      new;
      AppendTokensToBlocks([], prompt);
      assert [] + prompt == prompt && prompt + [] == prompt;
    }

    method AppendLogicalBlock(ghost pages: seq<seq<Token>>)
      requires Shows(pages)
      modifies this`blocks
      ensures Shows(pages + [[]])
      ensures fresh(Footprint() - old(Footprint()))
    {
      var b := new LogicalTokenBlock(|blocks|, blockSize);
      blocks := blocks + [b];
    }

    method AppendToLastBlock(ts: seq<Token>, ghost pages: seq<seq<Token>>)
      requires pages != [] && Shows(pages)
      requires |pages[|pages| - 1]| + |ts| <= blockSize
      modifies Footprint()
      ensures Shows(pages[|pages| - 1 := pages[|pages| - 1] + ts])
    {
      var b := blocks[|blocks| - 1];
      assert Holds(b, |blocks| - 1, pages[|pages| - 1]);
      b.AppendTokens(ts);
      forall i | 0 <= i < |blocks| - 1 ensures Holds(blocks[i], i, pages[i]) {
        assert old(Holds(blocks[i], i, pages[i]));
      }
    }

    // As many tokens as fit into a new block.
    method StartBlock(ts: seq<Token>, ghost text: seq<Token>) returns (n: nat)
      requires blockSize > 0
      requires Shows(PagesOf(text, blockSize))
      requires text == [] || var pages := PagesOf(text, blockSize); pages != [] && |pages[|pages| - 1]| == blockSize
      requires ts != []
      modifies this`blocks, Footprint()
      ensures 1 <= n <= |ts|
      ensures Shows(PagesOf(text + ts[..n], blockSize))
      ensures fresh(Footprint() - old(Footprint()))
    {
      ghost var pages := PagesOf(text, blockSize);
      AppendLogicalBlock(pages);
      n := if |ts| < blockSize then |ts| else blockSize;
      StartPage(text, ts[..n], blockSize);
      assert (pages + [[]])[|pages|] == [] && [] + ts[..n] == ts[..n];
      AppendToLastBlock(ts[..n], pages + [[]]);
      assert (pages + [[]])[|pages| := ts[..n]] == pages + [ts[..n]];
    }

    // As many tokens as the last block has room for.
    method FillBlock(ts: seq<Token>, ghost text: seq<Token>) returns (n: nat)
      requires blockSize > 0
      requires Shows(PagesOf(text, blockSize))
      requires blocks != [] && !blocks[|blocks| - 1].IsFull()
      requires ts != []
      modifies this`blocks, Footprint()
      ensures 1 <= n <= |ts|
      ensures Shows(PagesOf(text + ts[..n], blockSize))
      ensures fresh(Footprint() - old(Footprint()))
    {
      ghost var pages := PagesOf(text, blockSize);
      assert Holds(blocks[|blocks| - 1], |pages| - 1, pages[|pages| - 1]);
      var room := blockSize - blocks[|blocks| - 1].numTokens;
      n := if |ts| < room then |ts| else room;
      FillLastPage(text, ts[..n], blockSize);
      AppendToLastBlock(ts[..n], pages);
    }

    // One turn of the loop: the last block is filled up, or a new one is started behind it.
    method AppendChunk(ts: seq<Token>, ghost text: seq<Token>) returns (n: nat)
      requires blockSize > 0
      requires Shows(PagesOf(text, blockSize))
      requires ts != []
      modifies this`blocks, Footprint()
      ensures 1 <= n <= |ts|
      ensures Shows(PagesOf(text + ts[..n], blockSize))
      ensures fresh(Footprint() - old(Footprint()))
    {
      ghost var pages := PagesOf(text, blockSize);
      if blocks == [] || blocks[|blocks| - 1].IsFull() {
        assert pages != [] ==> Holds(blocks[|blocks| - 1], |pages| - 1, pages[|pages| - 1]);
        n := StartBlock(ts, text);
      } else {
        n := FillBlock(ts, text);
      }
    }

    method AppendTokensToBlocks(ghost text: seq<Token>, ts: seq<Token>)
      requires blockSize > 0
      requires Shows(PagesOf(text, blockSize))
      modifies this`blocks, Footprint()
      ensures Shows(PagesOf(text + ts, blockSize))
      ensures fresh(Footprint() - old(Footprint()))
    {
      var cursor := 0;
      assert text + ts[..0] == text;
      while cursor < |ts|
        invariant cursor <= |ts|
        invariant Shows(PagesOf(text + ts[..cursor], blockSize))
        invariant fresh(Footprint() - old(Footprint()))
      {
        var n := AppendChunk(ts[cursor..], text + ts[..cursor]);
        assert text + ts[..cursor + n] == text + ts[..cursor] + ts[cursor..][..n];
        cursor := cursor + n;
      }
      assert ts[..|ts|] == ts;
    }

    method UpdatePromptTokensProcessed(numTokens: nat)
      requires Valid()
      requires !promptDone && numTokens > 0 && processed + numTokens <= |prompt|
      modifies this`processed, this`promptDone
      ensures Valid()
      ensures View() == old(View()).(processed := old(processed) + numTokens, promptDone := processed == |prompt|)
    {
      processed := processed + numTokens;
      if processed == |prompt| {
        promptDone := true;
      }
    }

    method UpdatePromptTokensStageProcessed(numTokens: nat)
      requires Valid()
      requires !promptDone && !stageDone && numTokens > 0 && staged + numTokens <= |prompt|
      modifies this`staged, this`stageDone
      ensures Valid()
      ensures View() == old(View()).(staged := old(staged) + numTokens, stageDone := staged == |prompt|)
    {
      staged := staged + numTokens;
      if staged == |prompt| {
        stageDone := true;
      }
    }

    method AppendTokenId(t: Token)
      requires Valid()
      requires promptDone
      modifies this`output, this`blocks, Footprint()
      ensures Valid() && fresh(Footprint() - old(Footprint()))
      ensures View() == old(View()).AppendToken(t)
    {
      ghost var text := View().Text();
      output := output + [t];
      AppendTokensToBlocks(text, [t]);
      assert text + [t] == View().Text();
    }

    method CheckStop(stopString: bool)
      requires Valid()
      requires stopString || |output| == maxTokens || ignoreEos || View().Len() > 0
      modifies this`status
      ensures Valid()
      ensures View() == old(View()).CheckStop(stopString)
      ensures var text := View().Text();
              var ended := !ignoreEos && text != [] && text[|text| - 1] == eos;
              status == if stopString then FINISHED_STOPPED
                        else if |output| == maxTokens then FINISHED_LENGTH_CAPPED
                        else if ended then FINISHED_STOPPED else old(status)
    {
      LastTokenEnds(View());
      if stopString {
        status := FINISHED_STOPPED;
        return;
      }
      if |output| == maxTokens {
        status := FINISHED_LENGTH_CAPPED;
        return;
      }
      if !ignoreEos && View().LastToken() == eos {
        status := FINISHED_STOPPED;
        return;
      }
    }

    method ResetForRecompute()
      requires Valid()
      modifies this
      ensures Valid() && blocks == old(blocks)
      ensures View() == old(View()).ResetForRecompute()
    {
      ghost var text := View().Text();
      status := WAITING;
      processed, staged := 0, 0;
      promptDone, stageDone := false, false;
      prompt := prompt + output;
      output := [];
      assert View().Text() == text;
    }

    method ResetButNotRecompute()
      requires Valid()
      modifies this
      ensures Valid() && blocks == old(blocks)
      ensures View() == old(View()).ResetButNotRecompute()
    {
      ghost var text := View().Text();
      prompt := prompt + output;
      processed := |prompt|;
      staged := processed;
      maxTokens := maxTokens - |output|;
      output := [];
      assert View().Text() == text;
    }
  }
}
