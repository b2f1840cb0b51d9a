// The block manager as a scheduler sees it: how many blocks are free and how many each
// sequence holds. Module BlockSpace refines this with the blocks themselves.
module BlockPool {
  import opened Lists
  import opened Sequences

  datatype Pool = Pool(free: nat, held: map<Id, nat>) {

    function Held(id: Id): nat {
      if id in held then held[id] else 0
    }

    // allocate: the sequence's table becomes n fresh blocks.
    function Allocate(id: Id, n: nat): Pool
      requires n <= free
    {
      Pool(free - n, held[id := n])
    }

    // append_slot: one more block when the table is shorter than the logical blocks.
    function AppendSlot(id: Id, need: nat): Pool {
      if id in held && held[id] < need && free > 0
      then Pool(free - 1, held[id := held[id] + 1])
      else this
    }

    // free: every block of the table returns to the free list.
    function Release(id: Id): Pool {
      if id in held then Pool(free + held[id], held - {id}) else this
    }

    function ReleaseAll(ids: seq<Id>): Pool
      decreases |ids|
    {
      if ids == [] then this else Release(ids[0]).ReleaseAll(ids[1..])
    }
  }

  function Total(ids: seq<Id>, p: Pool): nat {
    if ids == [] then 0 else p.Held(ids[0]) + Total(ids[1..], p)
  }

  lemma {:induction false} TotalAppend(a: seq<Id>, b: seq<Id>, p: Pool)
    ensures Total(a + b, p) == Total(a, p) + Total(b, p)
  {
    if a == [] {
      assert a + b == b;
    } else {
      assert (a + b)[1..] == a[1..] + b;
      TotalAppend(a[1..], b, p);
    }
  }

  // Tables that do not change keep their total.
  lemma {:induction false} TotalFrame(ids: seq<Id>, p: Pool, q: Pool)
    requires forall id :: id in ids ==> p.Held(id) == q.Held(id)
    ensures Total(ids, p) == Total(ids, q)
  {
    if ids != [] { TotalFrame(ids[1..], p, q); }
  }

  lemma TotalAt(ids: seq<Id>, i: nat, p: Pool)
    requires i < |ids|
    ensures Total(ids, p) == Total(ids[..i], p) + p.Held(ids[i]) + Total(ids[i + 1..], p)
  {
    assert ids == ids[..i] + ([ids[i]] + ids[i + 1..]);
    TotalAppend(ids[..i], [ids[i]] + ids[i + 1..], p);
    assert ([ids[i]] + ids[i + 1..])[1..] == ids[i + 1..];
  }

  lemma LessOne(a: seq<Id>, b: seq<Id>, i: nat)
    requires multiset(a) == multiset(b)
    requires a != [] && i < |b| && b[i] == a[0]
    ensures multiset(a[1..]) == multiset(b[..i] + b[i + 1..])
  {
    assert a == [a[0]] + a[1..];
    assert b == b[..i] + [b[i]] + b[i + 1..];
    assert multiset(b[..i] + b[i + 1..]) == multiset(b) - multiset{b[i]};
    assert multiset(a[1..]) == multiset(a) - multiset{a[0]};
  }

  lemma {:induction false} TotalPermutation(a: seq<Id>, b: seq<Id>, p: Pool)
    requires multiset(a) == multiset(b)
    ensures Total(a, p) == Total(b, p)
    decreases |a|
  {
    if a == [] {
      PermutationMembers(a, b);
    } else {
      assert a[0] in multiset(b);
      var i :| 0 <= i < |b| && b[i] == a[0];
      var rest := b[..i] + b[i + 1..];
      LessOne(a, b, i);
      TotalPermutation(a[1..], rest, p);
      TotalAt(b, i, p);
      TotalAppend(b[..i], b[i + 1..], p);
    }
  }

  lemma {:induction false} TotalMember(ids: seq<Id>, id: Id, p: Pool)
    requires id in ids
    ensures p.Held(id) <= Total(ids, p)
  {
    if ids[0] != id { TotalMember(ids[1..], id, p); }
  }

  /** The sequences in ids, each listed once, and no others own tables; with the free list
      they account for every block of the pool. */
  ghost predicate Owns(p: Pool, ids: seq<Id>, numBlocks: nat) {
    && multiset(p.held.Keys) == multiset(ids)
    && p.free + Total(ids, p) == numBlocks
  }

  lemma OwnsMeans(p: Pool, ids: seq<Id>, numBlocks: nat)
    requires Owns(p, ids, numBlocks)
    ensures Distinct(ids)
    ensures forall id :: id in p.held <==> id in ids
  {
    forall id ensures multiset(ids)[id] <= 1 && (id in p.held <==> id in ids) {
      assert multiset(ids)[id] == multiset(p.held.Keys)[id];
      assert id in ids <==> id in multiset(ids);
    }
  }

  lemma OwnsIntro(p: Pool, ids: seq<Id>, numBlocks: nat)
    requires Distinct(ids)
    requires forall id :: id in p.held <==> id in ids
    requires p.free + Total(ids, p) == numBlocks
    ensures Owns(p, ids, numBlocks)
  {
    forall id ensures multiset(ids)[id] == multiset(p.held.Keys)[id] {
      assert id in ids <==> id in multiset(ids);
      assert multiset(ids)[id] <= 1;
    }
  }

  lemma OwnsPermutation(p: Pool, a: seq<Id>, b: seq<Id>, numBlocks: nat)
    requires Owns(p, a, numBlocks)
    requires multiset(a) == multiset(b)
    ensures Owns(p, b, numBlocks)
  {
    TotalPermutation(a, b, p);
  }

  lemma OwnsAllocate(p: Pool, ids: seq<Id>, id: Id, n: nat, numBlocks: nat)
    requires Owns(p, ids, numBlocks)
    requires id !in ids
    requires n <= p.free
    ensures Owns(p.Allocate(id, n), ids + [id], numBlocks)
  {
    OwnsMeans(p, ids, numBlocks);
    var q := p.Allocate(id, n);
    TotalAppend(ids, [id], q);
    TotalFrame(ids, p, q);
    assert Total([id], q) == n + Total([id][1..], q);
    assert q.held.Keys == p.held.Keys + {id};
    assert multiset(q.held.Keys) == multiset(p.held.Keys) + multiset{id};
  }

  lemma OwnsAppendSlot(p: Pool, ids: seq<Id>, id: Id, need: nat, numBlocks: nat)
    requires Owns(p, ids, numBlocks)
    requires id in ids
    ensures Owns(p.AppendSlot(id, need), ids, numBlocks)
  {
    OwnsMeans(p, ids, numBlocks);
    var q := p.AppendSlot(id, need);
    var i :| 0 <= i < |ids| && ids[i] == id;
    TotalAt(ids, i, p);
    TotalAt(ids, i, q);
    assert ids == ids[..i] + [id] + ids[i + 1..];
    DistinctSplit(ids[..i], id, ids[i + 1..]);
    TotalFrame(ids[..i], p, q);
    TotalFrame(ids[i + 1..], p, q);
    assert q.held.Keys == p.held.Keys;
  }

  lemma OwnsRelease(p: Pool, a: seq<Id>, id: Id, b: seq<Id>, numBlocks: nat)
    requires Owns(p, a + [id] + b, numBlocks)
    ensures Owns(p.Release(id), a + b, numBlocks)
    ensures id !in a + b
  {
    var ids := a + [id] + b;
    OwnsMeans(p, ids, numBlocks);
    DistinctSplit(a, id, b);
    var q := p.Release(id);
    assert ids[|a|] == id && ids[..|a|] == a && ids[|a| + 1..] == b;
    TotalAt(ids, |a|, p);
    TotalAppend(a, b, q);
    TotalFrame(a, p, q);
    TotalFrame(b, p, q);
    assert q.held.Keys == p.held.Keys - {id};
    LessKey(p.held.Keys, a, id, b);
  }

  lemma LessKey(keys: set<Id>, a: seq<Id>, id: Id, b: seq<Id>)
    requires multiset(keys) == multiset(a + [id] + b)
    ensures multiset(keys - {id}) == multiset(a + b)
  {
    assert multiset(a + [id] + b) == multiset(a + b) + multiset{id};
    forall x ensures multiset(keys - {id})[x] == multiset(a + b)[x] {
      assert multiset(keys)[x] == multiset(a + b)[x] + multiset{id}[x];
    }
  }

  lemma {:induction false} ReleaseAllFrame(p: Pool, ids: seq<Id>, id: Id)
    requires id !in ids
    ensures p.ReleaseAll(ids).Held(id) == p.Held(id)
    decreases |ids|
  {
    if ids != [] { ReleaseAllFrame(p.Release(ids[0]), ids[1..], id); }
  }

  // Releasing every id in gone leaves the others as the owners.
  lemma {:induction false} OwnsReleaseAll(p: Pool, kept: seq<Id>, ids: seq<Id>, gone: set<Id>, numBlocks: nat)
    requires Owns(p, kept + ids, numBlocks)
    ensures Owns(p.ReleaseAll(Within(ids, gone)), kept + Without(ids, gone), numBlocks)
    decreases |ids|
  {
    if ids != [] {
      var x, rest := ids[0], ids[1..];
      assert kept + ids == kept + [x] + rest;
      if x in gone {
        OwnsRelease(p, kept, x, rest, numBlocks);
        OwnsReleaseAll(p.Release(x), kept, rest, gone, numBlocks);
        ReleaseAllCons(p, x, Within(rest, gone));
      } else {
        OwnsReleaseAll(p, kept + [x], rest, gone, numBlocks);
        Regroup(kept, [x], Without(rest, gone));
      }
    }
  }

  lemma ReleaseAllCons(p: Pool, x: Id, rest: seq<Id>)
    ensures p.ReleaseAll([x] + rest) == p.Release(x).ReleaseAll(rest)
  {
    assert ([x] + rest)[1..] == rest;
  }

  lemma {:induction false} ReleaseAllSnoc(p: Pool, ids: seq<Id>, x: Id)
    ensures p.ReleaseAll(ids + [x]) == p.ReleaseAll(ids).Release(x)
    decreases |ids|
  {
    if ids == [] {
      assert [] + [x] == [x];
      assert [x][1..] == [];
    } else {
      assert (ids + [x])[1..] == ids[1..] + [x];
      ReleaseAllSnoc(p.Release(ids[0]), ids[1..], x);
    }
  }
}
