/** The request buffer of a connection: a string with a read cursor, or a pool block
    with a read cursor. Both must behave like a queue of bytes. */
module ReadBuffer {
  import opened Text
  import opened MemoryPool

  ghost function OwnBuffer(b: PooledBuffer?): set<PooledBuffer> {
    if b == null then {} else {b}
  }

  /** HttpContext, as far as its request buffer goes; the mode is fixed. */
  class HttpContext {
    const useMemoryPool: bool
    const pool: HttpMemoryPool
    const maxRequestBytes: nat
    var buffer: string
    var requestBuffer: PooledBuffer?
    var readPos: nat
    var truncated: bool
    var allocationFailed: bool
    var requestTooLarge: bool

    ghost predicate Valid()
      reads this, requestBuffer, if requestBuffer == null then {} else Own(requestBuffer.block)
    {
      && (!useMemoryPool ==> readPos <= |buffer|)
      && (useMemoryPool && requestBuffer == null ==> readPos == 0)
      && (useMemoryPool && requestBuffer != null ==>
            requestBuffer.Valid() && requestBuffer.pool == pool && readPos <= requestBuffer.usedSize)
    }

    /** The unread bytes: what peekData shows. */
    ghost function Unread(): string
      requires Valid()
      reads this, requestBuffer, if requestBuffer == null then {} else Own(requestBuffer.block)
      reads if requestBuffer == null || requestBuffer.block == null then {} else {requestBuffer.block.data}
    {
      if !useMemoryPool then buffer[readPos..]
      else if requestBuffer == null then ""
      else requestBuffer.Contents()[readPos..]
    }

    ghost function State(): Block
      requires Valid()
      reads this, requestBuffer, if requestBuffer == null then {} else Own(requestBuffer.block)
      reads if requestBuffer == null || requestBuffer.block == null then {} else {requestBuffer.block.data}
    {
      Block(Unread(), truncated)
    }

    /** Block mode, with a block in hand. */
    ghost predicate HasBlock()
      reads this, requestBuffer
    {
      useMemoryPool && requestBuffer != null && requestBuffer.block != null
    }

    constructor (useMemoryPool: bool, pool: HttpMemoryPool, maxRequestBytes: nat)
      ensures Valid() && Unread() == "" && !truncated && !allocationFailed && !requestTooLarge
      ensures this.useMemoryPool == useMemoryPool && this.pool == pool && requestBuffer == null
      ensures this.maxRequestBytes == if maxRequestBytes > 0 then maxRequestBytes else 1
    {
      this.useMemoryPool, this.pool := useMemoryPool, pool;
      this.maxRequestBytes := if maxRequestBytes > 0 then maxRequestBytes else 1;
      buffer, requestBuffer, readPos := "", null, 0;
      truncated, allocationFailed, requestTooLarge := false, false, false;
    }

    /** appendData in string mode: drop what was read, then append. */
    method AppendToString(data: string)
      requires Valid() && !useMemoryPool
      modifies this`buffer, this`readPos, this`requestTooLarge
      ensures Valid() && Unread() == QueueStep(old(Unread()), Append(data))
      ensures requestTooLarge == (old(requestTooLarge) || (data != "" && |old(Unread()) + data| > maxRequestBytes))
    {
      if data == "" { return; }
      if readPos > 0 {
        buffer := buffer[readPos..];
        readPos := 0;
      }
      buffer := buffer + data;
      if |buffer| > maxRequestBytes { requestTooLarge := true; }
    }

    /** appendData in block mode, once a block is there: compact, then write. The
        data is cut exactly when it does not fit behind the unread bytes. */
    method AppendToBlock(data: string)
      requires Valid() && HasBlock()
      modifies this`readPos, this`truncated, requestBuffer`usedSize, requestBuffer.block.data
      ensures Valid() && HasBlock()
      ensures State() == BlockStep(old(State()), requestBuffer.block.capacity, Append(data))
    {
      ghost var before := Unread();
      if data == "" { return; }
      if readPos > 0 {
        requestBuffer.Consume(readPos);
        readPos := 0;
      }
      assert requestBuffer.Contents() == before;
      var written := requestBuffer.Write(data);
      assert before + data[..written] == (before + data)[..|before| + written];
      if written < |data| { truncated := true; }
    }

    /** The buffer object is created on first use; it may find the pool exhausted. */
    method EnsureBuffer()
      requires Valid() && useMemoryPool && pool.Valid() && Orderly(pool)
      modifies this`requestBuffer, pool`freeBlocks, pool`usedBlocks, pool.blocks`isUsed, pool.blocks`holder
      ensures Valid() && pool.Valid() && Orderly(pool) && requestBuffer != null
      ensures old(requestBuffer) != null ==> requestBuffer == old(requestBuffer) && requestBuffer.block == old(requestBuffer.block)
      ensures old(requestBuffer) == null ==> fresh(requestBuffer)
      ensures old(requestBuffer) == null ==> (requestBuffer.block == null <==> old(pool.freeBlocks) == [])
      ensures old(requestBuffer) == null && requestBuffer.block != null ==> requestBuffer.block == old(pool.freeBlocks)[0]
      ensures requestBuffer.block != null ==> requestBuffer.block.capacity == pool.blockSize
      ensures State() == old(State())
    {
      if requestBuffer == null { requestBuffer := new PooledBuffer(pool); }
    }

    /** appendData in block mode: the block is taken at the first append. */
    method AppendPooled(data: string)
      requires Valid() && useMemoryPool && pool.Valid() && Orderly(pool)
      modifies this`requestBuffer, this`readPos, this`truncated, this`allocationFailed, OwnBuffer(requestBuffer)`usedSize
      modifies pool`freeBlocks, pool`usedBlocks, pool.blocks`isUsed, pool.blocks`holder
      modifies set b | b in pool.blocks :: b.data
      ensures Valid() && pool.Valid() && Orderly(pool)
      ensures requestBuffer == old(requestBuffer) || (old(requestBuffer) == null && requestBuffer != null && fresh(requestBuffer))
      ensures old(requestBuffer) == null && data == "" ==> requestBuffer == null && pool.freeBlocks == old(pool.freeBlocks)
      ensures data != "" ==> requestBuffer != null
      ensures data != "" ==> (HasBlock() <==> old(HasBlock() || (requestBuffer == null && pool.freeBlocks != [])))
      ensures old(HasBlock()) ==> HasBlock()
      ensures HasBlock() || data == "" ==> allocationFailed == old(allocationFailed)
      ensures HasBlock() || data == "" ==> State() == BlockStep(old(State()), pool.blockSize, Append(data))
      ensures !HasBlock() && data != "" ==> allocationFailed && State() == Block("", old(truncated))
    {
      if data == "" { return; }
      AppendBytes(data);
    }

    method AppendBytes(data: string)
      requires Valid() && useMemoryPool && pool.Valid() && Orderly(pool) && data != ""
      modifies this`requestBuffer, this`readPos, this`truncated, this`allocationFailed, OwnBuffer(requestBuffer)`usedSize
      modifies pool`freeBlocks, pool`usedBlocks, pool.blocks`isUsed, pool.blocks`holder
      modifies set b | b in pool.blocks :: b.data
      ensures Valid() && pool.Valid() && Orderly(pool) && requestBuffer != null
      ensures requestBuffer == old(requestBuffer) || (old(requestBuffer) == null && fresh(requestBuffer))
      ensures HasBlock() <==> old(HasBlock() || (requestBuffer == null && pool.freeBlocks != []))
      ensures HasBlock() ==> allocationFailed == old(allocationFailed)
      ensures HasBlock() ==> State() == BlockStep(old(State()), pool.blockSize, Append(data))
      ensures !HasBlock() ==> allocationFailed && State() == Block("", old(truncated))
    {
      hide BlockStep, Unread, State, HttpMemoryPool.Valid, Orderly;
      EnsureBuffer();
      AppendOrFail(data);
    }

    /** With a buffer object: append to its block, or note that it has none. */
    method AppendOrFail(data: string)
      requires Valid() && useMemoryPool && requestBuffer != null && data != ""
      modifies this`readPos, this`truncated, this`allocationFailed, requestBuffer`usedSize
      modifies if requestBuffer.block == null then {} else {requestBuffer.block.data}
      ensures Valid() && HasBlock() == old(HasBlock())
      ensures HasBlock() ==> allocationFailed == old(allocationFailed)
      ensures HasBlock() ==> State() == BlockStep(old(State()), requestBuffer.block.capacity, Append(data))
      ensures !HasBlock() ==> allocationFailed && State() == Block("", old(truncated))
    {
      if requestBuffer.block == null {
        allocationFailed := true;
        return;
      }
      AppendToBlock(data);
    }

    /** consumeData: moves the cursor, or clears when everything is read; block and flags
        stay. */
    method ConsumeData(n: nat)
      requires Valid()
      modifies this`buffer, this`readPos, OwnBuffer(requestBuffer)`usedSize
      ensures Valid() && HasBlock() == old(HasBlock())
      ensures Unread() == QueueStep(old(Unread()), Consume(n))
      ensures State() == BlockStep(old(State()), pool.blockSize, Consume(n))
    {
      var size := PeekSize();
      if n >= size {
        if useMemoryPool {
          if requestBuffer != null { requestBuffer.Clear(); }
        } else {
          buffer := "";
        }
        readPos := 0;
        return;
      }
      readPos := readPos + n;
    }

    method PeekSize() returns (size: nat)
      requires Valid()
      ensures size == |Unread()|
    {
      if useMemoryPool {
        size := if requestBuffer == null then 0 else requestBuffer.usedSize - readPos;
      } else {
        size := |buffer| - readPos;
      }
    }

    /** Between two requests of a connection the unread bytes stay. */
    method ResetForNextRequest()
      requires Valid()
      modifies this`truncated, this`allocationFailed, this`requestTooLarge
      ensures Valid() && Unread() == old(Unread())
      ensures !truncated && !allocationFailed && !requestTooLarge
    {
      truncated, allocationFailed, requestTooLarge := false, false, false;
    }
  }

  // ---------- Runs ----------

  datatype Op = Append(data: string) | Consume(n: nat)

  function Dequeue(q: string, n: nat): string { if n >= |q| then "" else q[n..] }

  /** The byte queue: what string mode does, operation by operation. */
  function QueueStep(q: string, op: Op): string {
    match op
    case Append(data) => q + data
    case Consume(n) => Dequeue(q, n)
  }

  datatype Block = Block(unread: string, truncated: bool)

  /** What block mode does, operation by operation. */
  function BlockStep(b: Block, cap: nat, op: Op): Block {
    match op
    case Append(data) =>
      if data == "" then b
      else if |b.unread + data| <= cap then b.(unread := b.unread + data)
      else Block((b.unread + data)[..cap], true)
    case Consume(n) => b.(unread := Dequeue(b.unread, n))
  }

  /** Appending in pieces is appending at once. */
  lemma {:induction false} BlockPieces(b: Block, cap: nat, first: string, second: string)
    requires |b.unread| <= cap
    ensures BlockStep(BlockStep(b, cap, Append(first)), cap, Append(second)) == BlockStep(b, cap, Append(first + second))
  {
    var whole := b.unread + (first + second);
    assert b.unread + first + second == whole;
    if |b.unread + first| > cap {
      assert (b.unread + first)[..cap] == whole[..cap];
      assert ((b.unread + first)[..cap] + second)[..cap] == whole[..cap];
    } else if first == "" {
      assert first + second == second;
    } else if second == "" {
      assert first + second == first;
    }
  }

  function QueueRun(q: string, ops: seq<Op>): string
    decreases |ops|
  {
    if ops == [] then q else QueueRun(QueueStep(q, ops[0]), ops[1..])
  }

  function BlockRun(b: Block, cap: nat, ops: seq<Op>): Block
    decreases |ops|
  {
    if ops == [] then b else BlockRun(BlockStep(b, cap, ops[0]), cap, ops[1..])
  }

  /** At some point of the run the queue holds more than the block could. */
  ghost predicate Overflows(q: string, cap: nat, ops: seq<Op>)
    decreases |ops|
  {
    ops != [] && (|QueueStep(q, ops[0])| > cap || Overflows(QueueStep(q, ops[0]), cap, ops[1..]))
  }

  /** The block buffer reports truncation in exactly the runs in which the byte queue
      would exceed the block; in all other runs it holds the same bytes. */
  lemma {:induction false} BlockAgreesUntilOverflow(q: string, cap: nat, ops: seq<Op>)
    requires |q| <= cap
    ensures BlockRun(Block(q, false), cap, ops).truncated <==> Overflows(q, cap, ops)
    ensures !Overflows(q, cap, ops) ==> BlockRun(Block(q, false), cap, ops).unread == QueueRun(q, ops)
    decreases |ops|
  {
    if ops != [] {
      var q' := QueueStep(q, ops[0]);
      if ops[0] == Append("") { assert q + "" == q; }
      if |q'| <= cap {
        BlockAgreesUntilOverflow(q', cap, ops[1..]);
      } else {
        TruncationSticks(BlockStep(Block(q, false), cap, ops[0]), cap, ops[1..]);
      }
    }
  }

  lemma {:induction false} TruncationSticks(b: Block, cap: nat, ops: seq<Op>)
    requires b.truncated
    ensures BlockRun(b, cap, ops).truncated
    decreases |ops|
  {
    if ops != [] { TruncationSticks(BlockStep(b, cap, ops[0]), cap, ops[1..]); }
  }

  // ---------- The object through whole runs ----------

  /** String mode is the byte queue. */
  method RunString(c: HttpContext, ops: seq<Op>)
    requires c.Valid() && !c.useMemoryPool
    modifies c`buffer, c`readPos, c`requestTooLarge, OwnBuffer(c.requestBuffer)`usedSize
    ensures c.Valid() && c.Unread() == QueueRun(old(c.Unread()), ops)
  {
    ghost var q := c.Unread();
    assert ops[0..] == ops;
    for i := 0 to |ops|
      invariant c.Valid() && QueueRun(c.Unread(), ops[i..]) == QueueRun(q, ops)
    {
      assert ops[i..][0] == ops[i] && ops[i..][1..] == ops[i + 1..];
      match ops[i] {
        case Append(data) => c.AppendToString(data);
        case Consume(n) => c.ConsumeData(n);
      }
    }
  }

  /** Block mode, when the context has its block or can still get one: it is the block
      model, so it reports truncation in exactly the runs in which a byte queue would exceed
      the block, and in all others it holds the queue's bytes. */
  method RunPooled(c: HttpContext, ops: seq<Op>)
    requires c.Valid() && c.useMemoryPool && c.pool.Valid() && Orderly(c.pool)
    requires c.HasBlock() || (c.requestBuffer == null && c.pool.freeBlocks != [])
    modifies c`buffer, c`requestBuffer, c`readPos, c`truncated, c`allocationFailed, OwnBuffer(c.requestBuffer)`usedSize
    modifies c.pool`freeBlocks, c.pool`usedBlocks, c.pool.blocks`isUsed, c.pool.blocks`holder
    modifies set b | b in c.pool.blocks :: b.data
    ensures c.Valid() && c.State() == BlockRun(old(c.State()), c.pool.blockSize, ops)
    ensures c.allocationFailed == old(c.allocationFailed)
    ensures !old(c.truncated) && |old(c.Unread())| <= c.pool.blockSize ==>
              && (c.truncated <==> Overflows(old(c.Unread()), c.pool.blockSize, ops))
              && (!c.truncated ==> c.Unread() == QueueRun(old(c.Unread()), ops))
  {
    ghost var s, cap := c.State(), c.pool.blockSize;
    assert ops[0..] == ops;
    for i := 0 to |ops|
      invariant c.Valid() && c.pool.Valid() && Orderly(c.pool)
      invariant c.HasBlock() || (c.requestBuffer == null && c.pool.freeBlocks != [])
      invariant c.requestBuffer == old(c.requestBuffer) || fresh(c.requestBuffer)
      invariant BlockRun(c.State(), cap, ops[i..]) == BlockRun(s, cap, ops)
      invariant c.allocationFailed == old(c.allocationFailed)
    {
      RunStep(c.State(), cap, ops, i);
      hide BlockStep, BlockRun;
      match ops[i] {
        case Append(data) => c.AppendPooled(data);
        case Consume(n) => c.ConsumeData(n);
      }
    }
    if !s.truncated && |s.unread| <= cap { BlockAgreesUntilOverflow(s.unread, cap, ops); }
  }

  lemma RunStep(b: Block, cap: nat, ops: seq<Op>, i: nat)
    requires i < |ops|
    ensures BlockRun(b, cap, ops[i..]) == BlockRun(BlockStep(b, cap, ops[i]), cap, ops[i + 1..])
  {
    assert ops[i..][0] == ops[i] && ops[i..][1..] == ops[i + 1..];
  }

  /** Nothing is lost, duplicated or reordered: the bytes read plus the bytes still
      unread are the bytes appended, in order. */
  function Appended(ops: seq<Op>): string {
    if ops == [] then "" else (if ops[0].Append? then ops[0].data else "") + Appended(ops[1..])
  }

  function ReadOut(q: string, ops: seq<Op>): string
    decreases |ops|
  {
    if ops == [] then ""
    else
      (match ops[0]
       case Append(_) => ""
       case Consume(n) => if n >= |q| then q else q[..n])
      + ReadOut(QueueStep(q, ops[0]), ops[1..])
  }

  lemma {:induction false} QueueConserves(q: string, ops: seq<Op>)
    ensures ReadOut(q, ops) + QueueRun(q, ops) == q + Appended(ops)
    decreases |ops|
  {
    if ops == [] {
      assert q + "" == q && "" + q == q;
    } else {
      var q', rest := QueueStep(q, ops[0]), ops[1..];
      QueueConserves(q', rest);
      match ops[0]
      case Append(data) =>
        assert "" + ReadOut(q', rest) == ReadOut(q', rest);
        Assoc(q, data, Appended(rest));
      case Consume(n) =>
        var out := if n >= |q| then q else q[..n];
        assert q == out + q' && "" + Appended(rest) == Appended(rest);
        Assoc(out, ReadOut(q', rest), QueueRun(q', rest));
        Assoc(out, q', Appended(rest));
    }
  }
}
