/** The pool of fixed-size request blocks, and the buffer that owns one block. */
module MemoryPool {

  const MAX_BLOCK: nat := 12288       // kMaxHttpBlockSize
  const MIN_BLOCK: nat := 1024
  const DEFAULT_POOL: nat := 5000

  /** The counter is a size_t. */
  function OneFewer(n: nat): nat { if n == 0 then 0xFFFF_FFFF_FFFF_FFFF else n - 1 }

  class MemoryBlock {
    const data: array<char>
    const capacity: nat
    var isUsed: bool
    /** The buffer that owns the block, if any: one block, one owner. */
    ghost var holder: PooledBuffer?

    constructor (capacity: nat)
      requires capacity <= MAX_BLOCK
      ensures this.capacity == capacity && data.Length == MAX_BLOCK && fresh(data)
      ensures !isUsed && holder == null
    {
      data := new char[MAX_BLOCK];
      this.capacity := capacity;
      isUsed := false;
      holder := null;
    }
  }

  class HttpMemoryPool {
    const blocks: seq<MemoryBlock>
    var freeBlocks: seq<MemoryBlock>
    var usedBlocks: nat
    const blockSize: nat

    /** The blocks marked used. */
    ghost function Used(): set<MemoryBlock>
      reads blocks`isUsed
    {
      set b | b in blocks && b.isUsed
    }

    /** The free queue holds, without duplicates, exactly the blocks not marked used, and the
        counter counts the others; no two blocks share their bytes. */
    ghost predicate Valid()
      reads this, blocks`isUsed
    {
      && (forall i, j :: 0 <= i < j < |blocks| ==> blocks[i] != blocks[j])
      && (forall b :: b in blocks ==> b.capacity == blockSize <= b.data.Length)
      && (forall b, c :: b in blocks && c in blocks && b != c ==> b.data != c.data)
      && (forall i, j :: 0 <= i < j < |freeBlocks| ==> freeBlocks[i] != freeBlocks[j])
      && (forall b :: b in freeBlocks ==> b in blocks && !b.isUsed)
      && (forall b :: b in blocks && !b.isUsed ==> b in freeBlocks)
      && usedBlocks == |Used()|
    }

    /** HttpMemoryPool and initializePool: the sizes are clamped. */
    constructor (poolSize: nat, blockSize: nat)
      ensures Valid() && fresh(blocks)
      ensures |blocks| == (if poolSize == 0 then DEFAULT_POOL else poolSize) && freeBlocks == blocks && usedBlocks == 0
      ensures MIN_BLOCK <= this.blockSize <= MAX_BLOCK
      ensures MIN_BLOCK <= blockSize <= MAX_BLOCK ==> this.blockSize == blockSize
      ensures forall b :: b in blocks ==> b.holder == null
    {
      var n := if poolSize == 0 then DEFAULT_POOL else poolSize;
      var size := if blockSize < MIN_BLOCK then MIN_BLOCK else if blockSize > MAX_BLOCK then MAX_BLOCK else blockSize;
      var made: seq<MemoryBlock> := [];
      for i := 0 to n
        invariant |made| == i && fresh(made)
        invariant forall b :: b in made ==> fresh(b.data) && !b.isUsed && b.holder == null && b.capacity == size <= b.data.Length
        invariant forall j, k :: 0 <= j < k < |made| ==> made[j] != made[k] && made[j].data != made[k].data
      {
        var block := new MemoryBlock(size);
        made := made + [block];
      }
      this.blockSize := size;
      blocks, freeBlocks, usedBlocks := made, made, 0;
      new;
      assert Used() == {};
    }

    /** First free block, or null when the pool is exhausted. */
    method Allocate() returns (block: MemoryBlock?)
      requires Valid()
      modifies this`freeBlocks, this`usedBlocks, blocks`isUsed
      ensures Valid()
      ensures block == null <==> old(freeBlocks) == []
      ensures block == null ==> freeBlocks == old(freeBlocks) && usedBlocks == old(usedBlocks)
      ensures block != null ==> block == old(freeBlocks)[0] && freeBlocks == old(freeBlocks)[1..] && block.isUsed && !old(block.isUsed)
      ensures forall b :: b in blocks && b != block ==> b.isUsed == old(b.isUsed)
    {
      if freeBlocks == [] { return null; }
      block := freeBlocks[0];
      assert block in freeBlocks;
      ghost var used, before := Used(), freeBlocks;
      freeBlocks := freeBlocks[1..];
      assert forall b :: b in before <==> b == block || b in freeBlocks;
      block.isUsed := true;
      usedBlocks := usedBlocks + 1;
      assert Used() == used + {block};
    }

    /** Returns a block; a null or an unused one changes nothing. Nobody asks whose block it
        is: a used block of another pool is queued and counted here all the same, and after
        that the pool is no longer in order. */
    method Deallocate(block: MemoryBlock?)
      requires Valid()
      modifies this`freeBlocks, this`usedBlocks, Own(block)`isUsed
      ensures Valid() <==> block == null || block in blocks || !old(block.isUsed)
      ensures block == null || !old(block.isUsed) ==> freeBlocks == old(freeBlocks) && usedBlocks == old(usedBlocks)
      ensures block != null && old(block.isUsed) ==> freeBlocks == old(freeBlocks) + [block] && usedBlocks == OneFewer(old(usedBlocks))
      ensures block != null ==> !block.isUsed
    {
      if block == null { return; }
      if !block.isUsed { return; }
      ghost var used := Used();
      assert block !in freeBlocks;
      block.isUsed := false;
      freeBlocks := freeBlocks + [block];
      usedBlocks := OneFewer(usedBlocks);
      if block in blocks {
        assert block in used && Used() == used - {block};
      } else {
        assert freeBlocks[|freeBlocks| - 1] !in blocks;
      }
    }

    /** Frees every block, in the order of creation. */
    method Reset()
      requires Valid()
      modifies this`freeBlocks, this`usedBlocks, blocks`isUsed
      ensures Valid() && freeBlocks == blocks && usedBlocks == 0
    {
      freeBlocks := [];
      for i := 0 to |blocks|
        invariant freeBlocks == blocks[..i]
        invariant forall k :: 0 <= k < i ==> !blocks[k].isUsed
      {
        blocks[i].isUsed := false;
        freeBlocks := freeBlocks + [blocks[i]];
      }
      usedBlocks := 0;
      assert Used() == {};
    }

    /** Used plus free is total. */
    lemma BlocksAccounted()
      requires Valid()
      ensures usedBlocks + |freeBlocks| == |blocks|
    {
      var free := set b | b in freeBlocks;
      var all := set b | b in blocks;
      DistinctCount(freeBlocks, free);
      DistinctCount(blocks, all);
      assert all == Used() + free && Used() !! free;
    }
  }

  lemma {:induction false} DistinctCount(s: seq<MemoryBlock>, t: set<MemoryBlock>)
    requires forall i, j :: 0 <= i < j < |s| ==> s[i] != s[j]
    requires t == set b | b in s
    ensures |t| == |s|
  {
    if s != [] {
      var n := |s| - 1;
      DistinctCount(s[..n], t - {s[n]});
    }
  }

  ghost function Own(block: MemoryBlock?): set<MemoryBlock> {
    if block == null then {} else {block}
  }

  /** No free block has an owner. */
  ghost predicate Orderly(pool: HttpMemoryPool)
    reads pool.blocks
  {
    forall b :: b in pool.blocks && !b.isUsed ==> b.holder == null
  }

  /** Allocation on behalf of a buffer. */
  method AllocateFor(pool: HttpMemoryPool, ghost owner: PooledBuffer) returns (block: MemoryBlock?)
    requires pool.Valid() && Orderly(pool)
    modifies pool`freeBlocks, pool`usedBlocks, pool.blocks`isUsed, pool.blocks`holder
    ensures pool.Valid() && Orderly(pool)
    ensures block == null <==> old(pool.freeBlocks) == []
    ensures block != null ==> block == old(pool.freeBlocks)[0] && block in pool.blocks && block.isUsed && !old(block.isUsed)
    ensures block != null ==> block.holder == owner && old(block.holder) == null && block.capacity <= block.data.Length
    ensures forall b :: b in pool.blocks && b != block ==> b.isUsed == old(b.isUsed) && b.holder == old(b.holder)
  {
    assert pool.freeBlocks != [] ==> pool.freeBlocks[0] in pool.freeBlocks;
    block := pool.Allocate();
    if block != null { block.holder := owner; }
  }

  /** A buffer gives its block back. */
  method Release(pool: HttpMemoryPool, block: MemoryBlock)
    requires pool.Valid() && Orderly(pool) && block in pool.blocks && block.isUsed
    modifies pool`freeBlocks, pool`usedBlocks, block`isUsed, block`holder
    ensures pool.Valid() && Orderly(pool)
    ensures !block.isUsed && block.holder == null && pool.freeBlocks == old(pool.freeBlocks) + [block]
  {
    block.holder := null;
    pool.Deallocate(block);
  }

  /** A buffer over one pool block; moved-from buffers hold none. */
  class PooledBuffer {
    var pool: HttpMemoryPool?
    var block: MemoryBlock?
    var usedSize: nat

    ghost predicate Valid()
      reads this, block
    {
      && (block == null ==> usedSize == 0)
      && (block != null ==> pool != null && block in pool.blocks && block.isUsed && block.holder == this
                            && usedSize <= block.capacity <= block.data.Length)
    }

    ghost function Contents(): string
      requires Valid()
      reads this, block, if block == null then {} else {block.data}
    {
      if block == null then "" else block.data[..usedSize]
    }

    /** Takes a block from the pool; without one, the buffer stays empty for ever.
        Every other live buffer keeps its block. */
    constructor (pool: HttpMemoryPool)
      requires pool.Valid() && Orderly(pool)
      modifies pool`freeBlocks, pool`usedBlocks, pool.blocks`isUsed, pool.blocks`holder
      ensures Valid() && pool.Valid() && Orderly(pool) && this.pool == pool
      ensures block == null <==> old(pool.freeBlocks) == []
      ensures block != null ==> block == old(pool.freeBlocks)[0]
      ensures usedSize == 0
      ensures forall o: PooledBuffer :: old(allocated(o)) && old(o.Valid()) ==> o.Valid() && o.block == old(o.block)
    {
      this.pool, usedSize, block := pool, 0, null;
      new;
      block := AllocateFor(pool, this);
    }

    /** The move constructor. */
    constructor Move(other: PooledBuffer)
      requires other.Valid()
      modifies other, Own(other.block)`holder
      ensures Valid() && other.Valid() && other.block == null
      ensures pool == old(other.pool) && block == old(other.block) && usedSize == old(other.usedSize)
      ensures forall o: PooledBuffer :: old(allocated(o)) && old(o.Valid()) && o != other ==> o.Valid() && o.block == old(o.block)
    {
      pool, block, usedSize := other.pool, other.block, other.usedSize;
      new;
      other.pool, other.block, other.usedSize := null, null, 0;
      if block != null { block.holder := this; }
    }

    /** The destructor: the block goes back to the end of the free queue. */
    method Destroy()
      requires Valid() && (pool != null ==> pool.Valid() && Orderly(pool))
      modifies this, if pool == null then {} else {pool}
      modifies Own(block)`isUsed, Own(block)`holder
      ensures Valid() && block == null
      ensures old(pool) != null ==> old(pool).Valid() && Orderly(old(pool))
      ensures old(block) != null ==> old(pool).freeBlocks == old(pool.freeBlocks) + [old(block)]
      ensures forall o: PooledBuffer :: old(allocated(o)) && old(o.Valid()) && o != this ==> o.Valid() && o.block == old(o.block)
    {
      if block != null {
        Release(pool, block);
        block := null;
      }
      usedSize := 0;
    }

    /** Move assignment: gives the own block back first. */
    method MoveAssign(other: PooledBuffer)
      requires Valid() && other.Valid()
      requires pool != null ==> pool.Valid() && Orderly(pool)
      modifies this, other, if pool == null then {} else {pool}
      modifies Own(block)`isUsed, Own(block)`holder, Own(other.block)`holder
      ensures Valid() && other.Valid()
      ensures old(pool) != null ==> old(pool).Valid() && Orderly(old(pool))
      ensures this == other ==> block == old(block) && usedSize == old(usedSize)
      ensures this != other ==> block == old(other.block) && usedSize == old(other.usedSize) && other.block == null
      ensures forall o: PooledBuffer :: old(allocated(o)) && old(o.Valid()) && o != this && o != other ==> o.Valid() && o.block == old(o.block)
    {
      if this != other {
        Destroy();
        TakeFrom(other);
      }
    }

    /** Takes over the other buffer's block and empties the other buffer. */
    method TakeFrom(other: PooledBuffer)
      requires Valid() && block == null && other.Valid() && other != this
      modifies this, other, Own(other.block)`holder
      ensures Valid() && other.Valid() && other.block == null
      ensures pool == old(other.pool) && block == old(other.block) && usedSize == old(other.usedSize)
      ensures forall o: PooledBuffer :: old(allocated(o)) && old(o.Valid()) && o != this && o != other ==> o.Valid() && o.block == old(o.block)
    {
      pool, block, usedSize := other.pool, other.block, other.usedSize;
      other.pool, other.block, other.usedSize := null, null, 0;
      if block != null { block.holder := this; }
    }

    /** Copies as much as fits behind the used part. */
    method Write(src: string) returns (written: nat)
      requires Valid()
      modifies this`usedSize, if block == null then {} else {block.data}
      ensures Valid()
      ensures block == null ==> written == 0 && Contents() == ""
      ensures block != null ==> written == (if |src| <= block.capacity - old(usedSize) then |src| else block.capacity - old(usedSize))
      ensures written <= |src| && Contents() == old(Contents()) + src[..written]
    {
      if block == null { return 0; }
      var availableSpace := block.capacity - usedSize;
      written := if |src| < availableSpace then |src| else availableSpace;
      forall i | 0 <= i < written { block.data[usedSize + i] := src[i]; }
      usedSize := usedSize + written;
    }

    method Clear()
      requires Valid()
      modifies this`usedSize
      ensures Valid() && Contents() == ""
    {
      if block != null { usedSize := 0; }
    }

    /** Moves the rest of the data to the front of the block. */
    method Consume(n: nat)
      requires Valid()
      modifies this`usedSize, if block == null then {} else {block.data}
      ensures Valid()
      ensures Contents() == if n >= |old(Contents())| then "" else old(Contents())[n..]
    {
      if block == null || n == 0 { return; }
      if n >= usedSize {
        Clear();
        return;
      }
      var remaining := usedSize - n;
      forall i | 0 <= i < remaining { block.data[i] := block.data[n + i]; }
      usedSize := remaining;
    }
  }

  /** Two live buffers never hold the same block, nor, of one pool, the same bytes. */
  lemma BlocksAreExclusive(a: PooledBuffer, b: PooledBuffer)
    requires a.Valid() && b.Valid() && a != b
    ensures a.block == null || b.block == null || a.block != b.block
    ensures a.block != null && b.block != null && a.pool == b.pool && a.pool.Valid() ==> a.block.data != b.block.data
  {}
}
