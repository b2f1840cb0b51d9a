/** The paged memory itself: an allocator that hands out physical blocks and a manager that
    keeps one block table per sequence. Module BlockPool is what a scheduler can tell of it. */
module BlockSpace {
  import opened Lists
  import opened Sequences
  import opened BlockPool

  type Tables = map<Id, seq<nat>>

  /** The partition: free list and tables are free of duplicates, pairwise disjoint, and together
      exactly the blocks 0 to numBlocks - 1. */
  ghost predicate Partitioned(free: seq<nat>, tables: Tables, numBlocks: nat) {
    && Distinct(free)
    && (forall id :: id in tables ==> Distinct(tables[id]))
    && (forall id, b :: id in tables && b in tables[id] ==> b !in free)
    && (forall i, j, b :: i in tables && j in tables && b in tables[i] && b in tables[j] ==> i == j)
    && (forall b: nat :: Known(free, tables, b) <==> b < numBlocks)
  }

  ghost predicate Known(free: seq<nat>, tables: Tables, b: nat) {
    b in free || exists id :: id in tables && b in tables[id]
  }

  function CountsOf(free: seq<nat>, tables: Tables): Pool {
    Pool(|free|, map id | id in tables :: |tables[id]|)
  }

  // All the blocks in the tables of a list of sequences.
  function Flat(ids: seq<Id>, tables: Tables): seq<nat> {
    if ids == [] then []
    else (if ids[0] in tables then tables[ids[0]] else []) + Flat(ids[1..], tables)
  }

  lemma {:induction false} FlatFacts(ids: seq<Id>, free: seq<nat>, tables: Tables, numBlocks: nat)
    requires Partitioned(free, tables, numBlocks)
    requires Distinct(ids)
    requires forall id :: id in ids ==> id in tables
    ensures forall b :: b in Flat(ids, tables) <==> exists id :: id in ids && id in tables && b in tables[id]
    ensures Distinct(Flat(ids, tables))
    ensures |Flat(ids, tables)| == Total(ids, CountsOf(free, tables))
  {
    if ids != [] {
      var x, rest := ids[0], ids[1..];
      assert ids == [] + [x] + rest;
      DistinctSplit([], x, rest);
      NoTail(rest);
      assert x in ids;
      forall id | id in rest ensures id in tables { assert id in ids; }
      FlatFacts(rest, free, tables, numBlocks);
      forall b ensures multiset(Flat(ids, tables))[b] <= 1 {
        assert multiset(tables[x])[b] <= 1 && multiset(Flat(rest, tables))[b] <= 1;
        assert b in tables[x] <==> b in multiset(tables[x]);
        assert b in Flat(rest, tables) <==> b in multiset(Flat(rest, tables));
        assert !(b in tables[x] && b in Flat(rest, tables));
      }
    }
  }

  lemma DistinctCovers(s: seq<nat>, n: nat)
    requires Distinct(s)
    requires forall b: nat :: b in s <==> b < n
    ensures |s| == n
  {
    assert forall b: nat :: b in Range(n) <==> b < n by {
      forall b: nat | b < n ensures b in Range(n) { assert Range(n)[b] == b; }
    }
    forall b: nat ensures multiset(s)[b] == multiset(Range(n))[b] {
      assert multiset(s)[b] <= 1;
      assert b in s <==> b in multiset(s);
      assert b in Range(n) <==> b in multiset(Range(n));
      RangeOnce(n, b);
    }
    assert multiset(s) == multiset(Range(n));
    PermutationMembers(s, Range(n));
  }

  lemma {:induction false} RangeOnce(n: nat, b: nat)
    ensures multiset(Range(n))[b] == if b < n then 1 else 0
  {
    if n > 0 {
      RangeOnce(n - 1, b);
      assert Range(n) == Range(n - 1) + [n - 1];
    }
  }

  /** No block is lost: the free ones and the lengths of the tables add up to the pool. */
  lemma PartitionCounts(free: seq<nat>, tables: Tables, ids: seq<Id>, numBlocks: nat)
    requires Partitioned(free, tables, numBlocks)
    requires Distinct(ids)
    requires forall id :: id in ids <==> id in tables
    ensures Owns(CountsOf(free, tables), ids, numBlocks)
  {
    FlatFacts(ids, free, tables, numBlocks);
    var all := free + Flat(ids, tables);
    forall b ensures multiset(all)[b] <= 1 {
      assert multiset(free)[b] <= 1 && multiset(Flat(ids, tables))[b] <= 1;
      assert b in free <==> b in multiset(free);
      assert b in Flat(ids, tables) <==> b in multiset(Flat(ids, tables));
    }
    forall b: nat ensures b in all <==> b < numBlocks {
      assert Known(free, tables, b) <==> b in all;
    }
    DistinctCovers(all, numBlocks);
    OwnsIntro(CountsOf(free, tables), ids, numBlocks);
  }

  /** Slots. */

  // The physical slot of a token position.
  datatype Slot = Slot(block: nat, offset: nat)

  predicate HasSlot(tables: Tables, size: nat, id: Id, p: nat)
    requires size > 0
  {
    id in tables && p / size < |tables[id]|
  }

  function SlotOf(tables: Tables, size: nat, id: Id, p: nat): Slot
    requires size > 0
    requires HasSlot(tables, size, id, p)
  {
    Slot(tables[id][p / size], p % size)
  }

  predicate SameSlot(tables: Tables, size: nat, i: Id, p: nat, j: Id, q: nat)
    requires size > 0
  {
    && HasSlot(tables, size, i, p) && HasSlot(tables, size, j, q)
    && SlotOf(tables, size, i, p) == SlotOf(tables, size, j, q)
  }

  lemma PositionHasSlot(tables: Tables, size: nat, id: Id, len: nat, p: nat)
    requires size > 0
    requires id in tables && |tables[id]| == Blocks(len, size)
    requires p < len
    ensures HasSlot(tables, size, id, p)
  {
    DivMonotone(p + size, len + size - 1, size);
    DivBounds(p, size);
    assert size * (p / size + 1) == size * (p / size) + size;
    DivUnique(p + size, size, p / size + 1);
  }

  // One more token shares its block with the ones before it or starts the next block.
  lemma SameBlockSameOffset(p: nat, q: nat, size: nat)
    requires size > 0
    requires p / size == q / size && p % size == q % size
    ensures p == q
  {
    assert p == size * (p / size) + p % size;
    assert q == size * (q / size) + q % size;
  }

  /** No two positions, of one sequence or of two, share a slot. */
  lemma SlotIsolation(free: seq<nat>, tables: Tables, numBlocks: nat, size: nat, i: Id, p: nat, j: Id, q: nat)
    requires size > 0
    requires Partitioned(free, tables, numBlocks)
    requires SameSlot(tables, size, i, p, j, q)
    ensures i == j && p == q
    ensures SlotOf(tables, size, i, p).block < numBlocks
  {
    var b := tables[i][p / size];
    assert b in tables[i] && b in tables[j];
    assert Known(free, tables, b);
    DistinctAt(tables[i], p / size, q / size);
    SameBlockSameOffset(p, q, size);
  }

  /** Every position of every listed sequence has a slot, and no slot serves two of them. */
  ghost predicate Isolated(tables: Tables, size: nat, ids: seq<Id>, seqs: SeqMap)
    requires size > 0
  {
    && (forall id, p: nat :: id in ids && p < Look(seqs, id).Len() ==> HasSlot(tables, size, id, p))
    && (forall i, p: nat, j, q: nat :: SameSlot(tables, size, i, p, j, q) ==> i == j && p == q)
  }

  lemma FullTablesAreIsolated(free: seq<nat>, tables: Tables, numBlocks: nat, size: nat, ids: seq<Id>, seqs: SeqMap)
    requires size > 0
    requires Partitioned(free, tables, numBlocks)
    requires forall id :: id in ids ==> id in tables && |tables[id]| == Look(seqs, id).Need(size)
    ensures Isolated(tables, size, ids, seqs)
  {
    forall id, p: nat | id in ids && p < Look(seqs, id).Len() ensures HasSlot(tables, size, id, p) {
      PositionHasSlot(tables, size, id, Look(seqs, id).Len(), p);
    }
    forall i, p: nat, j, q: nat | SameSlot(tables, size, i, p, j, q) ensures i == j && p == q {
      SlotIsolation(free, tables, numBlocks, size, i, p, j, q);
    }
  }

  /** Taking and returning blocks. */

  // What is left of the pool while a table is being built.
  ghost predicate Taking(was: seq<nat>, free: seq<nat>, table: seq<nat>) {
    was == free + Reverse(table)
  }

  lemma TakingStep(was: seq<nat>, free: seq<nat>, table: seq<nat>)
    requires Taking(was, free, table)
    requires free != []
    ensures Taking(was, free[..|free| - 1], table + [free[|free| - 1]])
  {
    ReverseAppend(table, free[|free| - 1]);
    ShiftLast([], free, Reverse(table));
    NoTail(free);
    NoTail(free[..|free| - 1]);
  }

  lemma TakingMembers(was: seq<nat>, free: seq<nat>, taken: seq<nat>, b: nat)
    requires Taking(was, free, taken)
    ensures b in was <==> b in free || b in taken
  {
    PermutationMembers(taken, Reverse(taken));
  }

  lemma TakingKnown(was: seq<nat>, tables: Tables, free: seq<nat>, taken: seq<nat>, id: Id, before: seq<nat>, b: nat)
    requires Taking(was, free, taken)
    requires before == if id in tables then tables[id] else []
    ensures Known(free, tables[id := before + taken], b) <==> Known(was, tables, b)
  {
    var after := tables[id := before + taken];
    TakingMembers(was, free, taken, b);
    if Known(was, tables, b) {
      if b in taken { assert b in after[id]; }
      else if b !in free { var i :| i in tables && b in tables[i]; assert i in after && b in after[i]; }
    }
    if Known(free, after, b) && b !in free {
      var i :| i in after && b in after[i];
      if i != id { assert i in tables && b in tables[i]; }
      else if b in before { assert id in tables && b in tables[id]; }
    }
  }

  lemma TakingDistinct(was: seq<nat>, free: seq<nat>, taken: seq<nat>, before: seq<nat>)
    requires Distinct(was) && Distinct(before)
    requires Taking(was, free, taken)
    requires forall b :: b in before ==> b !in was
    ensures Distinct(free) && Distinct(before + taken)
    ensures forall b :: b in before + taken ==> b !in free
  {
    assert multiset(was) == multiset(free) + multiset(taken);
    forall b ensures multiset(free)[b] <= 1 && multiset(before + taken)[b] <= 1 && !(b in free && b in before + taken) {
      assert multiset(was)[b] <= 1 && multiset(before)[b] <= 1;
      assert b in free <==> b in multiset(free);
      assert b in taken <==> b in multiset(taken);
      assert b in before <==> b in multiset(before);
      assert b in was <==> b in multiset(was);
    }
  }

  lemma TakingDisjoint(was: seq<nat>, tables: Tables, free: seq<nat>, taken: seq<nat>, id: Id, before: seq<nat>, numBlocks: nat)
    requires Partitioned(was, tables, numBlocks)
    requires Taking(was, free, taken)
    requires before == if id in tables then tables[id] else []
    ensures var after := tables[id := before + taken];
            forall i, j, b :: i in after && j in after && b in after[i] && b in after[j] ==> i == j
    ensures forall i, b :: i in tables && i != id && b in tables[i] ==> b !in free
  {
    forall b ensures b in taken ==> b in was { if b in taken { TakingMembers(was, free, taken, b); } }
    forall b ensures b in free ==> b in was {}
  }

  // Part of the free list becomes, or extends, a table.
  lemma TakingPartitions(was: seq<nat>, tables: Tables, free: seq<nat>, taken: seq<nat>, id: Id, before: seq<nat>, numBlocks: nat)
    requires Partitioned(was, tables, numBlocks)
    requires Taking(was, free, taken)
    requires before == if id in tables then tables[id] else []
    ensures Partitioned(free, tables[id := before + taken], numBlocks)
  {
    var after := tables[id := before + taken];
    TakingDistinct(was, free, taken, before);
    TakingDisjoint(was, tables, free, taken, id, before, numBlocks);
    forall b: nat ensures Known(free, after, b) <==> b < numBlocks {
      TakingKnown(was, tables, free, taken, id, before, b);
    }
  }

  // The last free block joins a table.
  lemma TakingOnePartitions(was: seq<nat>, tables: Tables, free: seq<nat>, block: nat, id: Id, numBlocks: nat)
    requires Partitioned(was, tables, numBlocks)
    requires was == free + [block]
    requires id in tables
    ensures Partitioned(free, tables[id := tables[id] + [block]], numBlocks)
  {
    assert Reverse([block]) == [block];
    TakingPartitions(was, tables, free, [block], id, tables[id], numBlocks);
  }

  lemma ReturningPartitions(free: seq<nat>, tables: Tables, id: Id, now: seq<nat>, numBlocks: nat)
    requires Partitioned(free, tables, numBlocks)
    requires id in tables
    requires multiset(now) == multiset(free) + multiset(tables[id])
    ensures Partitioned(now, tables - {id}, numBlocks)
  {
    var after := tables - {id};
    PermutationMembers(now, free + tables[id]);
    forall b ensures multiset(now)[b] <= 1 {
      assert multiset(free)[b] <= 1 && multiset(tables[id])[b] <= 1;
      assert b in free <==> b in multiset(free);
      assert b in tables[id] <==> b in multiset(tables[id]);
    }
    forall b: nat ensures Known(now, after, b) <==> Known(free, tables, b) {
      if Known(free, tables, b) && b !in now {
        var i :| i in tables && b in tables[i];
        assert i in after && b in after[i];
      }
    }
  }

  lemma AllFree(numBlocks: nat)
    ensures Partitioned(Range(numBlocks), map[], numBlocks)
  {
    forall b: nat ensures Known(Range(numBlocks), map[], b) <==> b < numBlocks {
      if b < numBlocks { assert Range(numBlocks)[b] == b; }
    }
    forall b: nat ensures multiset(Range(numBlocks))[b] <= 1 { RangeOnce(numBlocks, b); }
  }

  /** BlockAllocator: a stack of free blocks. */
  class BlockAllocator {
    const numBlocks: nat
    var freeBlocks: seq<nat>

    constructor (numBlocks: nat)
      ensures this.numBlocks == numBlocks
      ensures freeBlocks == Range(numBlocks)
    {
      this.numBlocks := numBlocks;
      freeBlocks := [];
      new;
      var i := 0;
      while i < numBlocks
        invariant i <= numBlocks
        invariant freeBlocks == Range(i)
      {
        freeBlocks := freeBlocks + [i];
        i := i + 1;
      }
    }

    // ok is false where the source raises "Out of memory".
    method Allocate() returns (ok: bool, block: nat)
      modifies this
      ensures ok <==> old(freeBlocks) != []
      ensures ok ==> old(freeBlocks) == freeBlocks + [block]
      ensures !ok ==> freeBlocks == old(freeBlocks)
    {
      if freeBlocks == [] {
        return false, 0;
      }
      block := freeBlocks[|freeBlocks| - 1];
      freeBlocks := freeBlocks[..|freeBlocks| - 1];
      return true, block;
    }

    method Free(block: nat)
      modifies this
      ensures freeBlocks == old(freeBlocks) + [block]
    {
      freeBlocks := freeBlocks + [block];
    }

    function NumFree(): nat
      reads this
    {
      |freeBlocks|
    }
  }

  /** BaseBlockSpaceManager. */
  class BlockSpaceManager {
    const size: nat
    const numBlocks: nat
    const watermarkBlocks: nat
    const allocator: BlockAllocator
    var blockTables: Tables

    ghost predicate Valid()
      reads this, allocator
    {
      size > 0 && Partitioned(allocator.freeBlocks, blockTables, numBlocks)
    }

    function Counts(): Pool
      reads this, allocator
    {
      CountsOf(allocator.freeBlocks, blockTables)
    }

    constructor (size: nat, numBlocks: nat, watermark: real)
      requires size > 0
      requires watermark >= 0.0
      ensures Valid() && fresh(allocator)
      ensures this.size == size && this.numBlocks == numBlocks
      ensures watermarkBlocks as real <= watermark * numBlocks as real < watermarkBlocks as real + 1.0
      ensures Counts() == Pool(numBlocks, map[])
    {
      this.size := size;
      this.numBlocks := numBlocks;
      watermarkBlocks := (watermark * numBlocks as real).Floor;
      allocator := new BlockAllocator(numBlocks);
      blockTables := map[];
      new;
      AllFree(numBlocks);
    }

    method CanAllocate(need: nat) returns (can: bool)
      ensures can <==> Counts().free - need >= watermarkBlocks
    {
      can := allocator.NumFree() - need >= watermarkBlocks;
    }

    /** Gives the sequence a table of `need` blocks. It raises when the blocks run out, and then
        those already taken are in no table; and a table the sequence had before is overwritten.
        Both break the partition, unless there was nothing to lose. */
    method Allocate(id: Id, need: nat) returns (ok: bool)
      requires Valid()
      modifies this, allocator
      ensures ok <==> need <= old(Counts()).free
      ensures ok ==> Counts() == old(Counts()).Allocate(id, need)
      ensures !ok ==> allocator.freeBlocks == [] && blockTables == old(blockTables)
      ensures Valid() <==> if ok then id in old(blockTables) ==> old(blockTables)[id] == []
                           else old(Counts()).free == 0
    {
      var table: seq<nat> := [];
      ghost var was := allocator.freeBlocks;
      var i := 0;
      while i < need
        invariant i <= need && |table| == i
        invariant Taking(was, allocator.freeBlocks, table)
        invariant blockTables == old(blockTables)
      {
        var got, block := allocator.Allocate();
        if !got {
          NoTail(table);
          LostBlocks(was, blockTables, numBlocks);
          return false;
        }
        TakingStep(was, allocator.freeBlocks + [block], table);
        assert (allocator.freeBlocks + [block])[..|allocator.freeBlocks|] == allocator.freeBlocks;
        table := table + [block];
        i := i + 1;
      }
      Overwritten(was, blockTables, allocator.freeBlocks, table, id, numBlocks);
      blockTables := blockTables[id := table];
      return true;
    }

    method CanAppendSlot() returns (can: bool)
      ensures can <==> Counts().free > 0
    {
      can := allocator.NumFree() > 0;
    }

    // The next free block joins a table; ok is false where there is none.
    method ExtendTable(id: Id) returns (ok: bool)
      requires Valid()
      requires id in blockTables
      modifies this, allocator
      ensures Valid()
      ensures ok <==> old(Counts()).free > 0
      ensures !ok ==> Counts() == old(Counts()) && blockTables == old(blockTables)
      ensures ok ==> Counts() == Pool(old(Counts()).free - 1, old(Counts()).held[id := |old(blockTables)[id]| + 1])
      ensures ok ==> exists b :: blockTables == old(blockTables)[id := old(blockTables)[id] + [b]]
    {
      ghost var was := allocator.freeBlocks;
      var table := blockTables[id];
      var block;
      ok, block := allocator.Allocate();
      if !ok {
        return;
      }
      TakingOnePartitions(was, blockTables, allocator.freeBlocks, block, id, numBlocks);
      blockTables := blockTables[id := table + [block]];
    }

    /** One more block when the table is shorter than the logical blocks; blocks already in the
        table stay where they are. */
    method AppendSlot(id: Id, need: nat) returns (ok: bool)
      requires Valid()
      requires id in blockTables
      modifies this, allocator
      ensures Valid()
      ensures ok <==> |old(blockTables)[id]| >= need || old(Counts()).free > 0
      ensures Counts() == old(Counts()).AppendSlot(id, need)
      ensures id in blockTables && old(blockTables)[id] <= blockTables[id]
      ensures blockTables == old(blockTables)[id := blockTables[id]]
    {
      ok := true;
      if |blockTables[id]| < need {
        ok := ExtendTable(id);
      }
    }

    // The blocks go back in the order a Python set happens to yield them.
    method FreeBlockTable(table: seq<nat>)
      requires Distinct(table)
      modifies allocator
      ensures multiset(allocator.freeBlocks) == multiset(old(allocator.freeBlocks)) + multiset(table)
    {
      var rest := set b | b in table;
      SetOfDistinct(table);
      while rest != {}
        invariant multiset(allocator.freeBlocks) + multiset(rest) == multiset(old(allocator.freeBlocks)) + multiset(table)
        decreases |rest|
      {
        var block :| block in rest;
        allocator.Free(block);
        rest := rest - {block};
      }
    }

    method Free(id: Id)
      requires Valid()
      modifies this, allocator
      ensures Valid()
      ensures Counts() == old(Counts()).Release(id)
      ensures blockTables == old(blockTables) - {id}
    {
      if id !in blockTables {
        return;
      }
      ghost var was := allocator.freeBlocks;
      FreeBlockTable(blockTables[id]);
      ReturningPartitions(was, blockTables, id, allocator.freeBlocks, numBlocks);
      PermutationMembers(allocator.freeBlocks, was + blockTables[id]);
      blockTables := blockTables - {id};
    }

    method Reset()
      requires Valid()
      modifies this, allocator
      ensures Valid()
      ensures Counts() == Pool(numBlocks, map[])
    {
      ghost var left := blockTables;
      var ids := blockTables.Keys;
      while ids != {}
        invariant left.Keys == ids
        invariant forall id :: id in left ==> id in blockTables && left[id] == blockTables[id]
        invariant blockTables == old(blockTables)
        invariant Partitioned(allocator.freeBlocks, left, numBlocks)
        decreases |ids|
      {
        var id :| id in ids;
        ghost var was := allocator.freeBlocks;
        FreeBlockTable(blockTables[id]);
        ReturningPartitions(was, left, id, allocator.freeBlocks, numBlocks);
        left := left - {id};
        ids := ids - {id};
      }
      blockTables := map[];
      assert left == blockTables;
      PartitionCounts(allocator.freeBlocks, blockTables, [], numBlocks);
    }
  }

  lemma {:induction false} SetOfDistinct(s: seq<nat>)
    requires Distinct(s)
    ensures multiset(set b | b in s) == multiset(s)
  {
    forall b ensures multiset(set b | b in s)[b] == multiset(s)[b] {
      assert multiset(s)[b] <= 1;
      assert b in s <==> b in multiset(s);
    }
  }

  // Blocks taken and put in no table are lost.
  lemma LostBlocks(was: seq<nat>, tables: Tables, numBlocks: nat)
    requires Partitioned(was, tables, numBlocks)
    ensures Partitioned([], tables, numBlocks) <==> was == []
  {
    if was != [] {
      var b := was[0];
      assert Known(was, tables, b);
      assert !Known([], tables, b);
    }
  }

  // A new table under an id that had one loses the blocks of the old table.
  lemma Overwritten(was: seq<nat>, tables: Tables, free: seq<nat>, table: seq<nat>, id: Id, numBlocks: nat)
    requires Partitioned(was, tables, numBlocks)
    requires Taking(was, free, table)
    ensures Partitioned(free, tables[id := table], numBlocks) <==> (id in tables ==> tables[id] == [])
  {
    if id in tables && tables[id] != [] {
      var b := tables[id][0];
      var after := tables[id := table];
      assert Known(was, tables, b);
      TakingMembers(was, free, table, b);
      assert b in tables[id];
      assert !Known(free, after, b);
    } else {
      NoTail(table);
      TakingPartitions(was, tables, free, table, id, [], numBlocks);
    }
  }
}
