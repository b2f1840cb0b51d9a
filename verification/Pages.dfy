// The paged form of a token list: what the logical blocks of a sequence should hold.
module Pages {
  import opened Sequences

  function PagesOf(text: seq<Token>, size: nat): (pages: seq<seq<Token>>)
    requires size > 0
    decreases |text|
  {
    if text == [] then []
    else if |text| <= size then [text]
    else [text[..size]] + PagesOf(text[size..], size)
  }

  function Concat(pages: seq<seq<Token>>): seq<Token> {
    if pages == [] then [] else pages[0] + Concat(pages[1..])
  }

  /** Paging is exact: the pages concatenate to the text, all but the last are full, none is
      empty, and there are as many as the text needs blocks. */
  lemma {:induction false} PagesAreExact(text: seq<Token>, size: nat)
    requires size > 0
    ensures var pages := PagesOf(text, size);
            && Concat(pages) == text
            && |pages| == Blocks(|text|, size)
            && (forall i :: 0 <= i < |pages| ==> 1 <= |pages[i]| <= size)
            && (forall i :: 0 <= i < |pages| - 1 ==> |pages[i]| == size)
    decreases |text|
  {
    var pages := PagesOf(text, size);
    if text == [] {
      DivUnique(size - 1, size, 0);
    } else if |text| <= size {
      assert Concat([text]) == text + Concat([]) by { assert [text][1..] == []; }
      DivUnique(|text| + size - 1, size, 1);
    } else {
      var rest := text[size..];
      PagesAreExact(rest, size);
      assert pages[1..] == PagesOf(rest, size);
      assert text == text[..size] + rest;
      var q := Blocks(|rest|, size);
      DivBounds(|rest| + size - 1, size);
      assert size * (q + 1) == size * q + size;
      DivUnique(|text| + size - 1, size, q + 1);
    }
  }

  /** And it is the only such paging. */
  lemma {:induction false} PagingIsUnique(pages: seq<seq<Token>>, size: nat)
    requires size > 0
    requires forall i :: 0 <= i < |pages| ==> 1 <= |pages[i]| <= size
    requires forall i :: 0 <= i < |pages| - 1 ==> |pages[i]| == size
    ensures pages == PagesOf(Concat(pages), size)
  {
    if pages != [] {
      var rest := pages[1..];
      PagingIsUnique(rest, size);
      var text := Concat(pages);
      if rest == [] {
        assert Concat(rest) == [];
        assert text == pages[0];
      } else {
        assert |Concat(rest)| >= |rest[0]| >= 1;
        assert text[..size] == pages[0] && text[size..] == Concat(rest);
      }
    }
  }

  // More tokens for a last page with room.
  lemma {:induction false} FillLastPage(text: seq<Token>, chunk: seq<Token>, size: nat)
    requires size > 0
    requires text != [] && var pages := PagesOf(text, size); pages != [] && |pages[|pages| - 1]| + |chunk| <= size
    ensures var pages := PagesOf(text, size);
            var last := |pages| - 1;
            PagesOf(text + chunk, size) == pages[last := pages[last] + chunk]
    decreases |text|
  {
    var pages := PagesOf(text, size);
    if |text| > size {
      var rest := text[size..];
      assert pages[1..] == PagesOf(rest, size);
      FillLastPage(rest, chunk, size);
      assert (text + chunk)[..size] == text[..size] && (text + chunk)[size..] == rest + chunk;
    }
  }

  // A new page once the last one is full.
  lemma {:induction false} StartPage(text: seq<Token>, chunk: seq<Token>, size: nat)
    requires size > 0
    requires chunk != [] && |chunk| <= size
    requires text == [] || var pages := PagesOf(text, size); pages != [] && |pages[|pages| - 1]| == size
    ensures PagesOf(text + chunk, size) == PagesOf(text, size) + [chunk]
    decreases |text|
  {
    var pages := PagesOf(text, size);
    if text == [] {
      assert text + chunk == chunk;
    } else if |text| <= size {
      assert (text + chunk)[..size] == text && (text + chunk)[size..] == chunk;
    } else {
      var rest := text[size..];
      assert pages[1..] == PagesOf(rest, size);
      StartPage(rest, chunk, size);
      assert (text + chunk)[..size] == text[..size] && (text + chunk)[size..] == rest + chunk;
    }
  }
}
