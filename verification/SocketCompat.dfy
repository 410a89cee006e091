/** Connection identities: a generation and a descriptor packed into one word, and the
    process-wide counter that hands out generations. */
module SocketCompat {
  // ---------- Packing ----------

  function MakeConnId(fd: bv32, generation: bv32): bv64 { ((generation as bv64) << 32) | fd as bv64 }

  function ConnIdGeneration(id: bv64): bv32 { ((id >> 32) & 0xFFFF_FFFF) as bv32 }

  function ConnIdFd(id: bv64): bv32 { (id & 0xFFFF_FFFF) as bv32 }

  /** Packing loses nothing, for every bit pattern of the descriptor and the generation. */
  lemma PackedPartsComeBack(fd: bv32, generation: bv32)
    ensures ConnIdFd(MakeConnId(fd, generation)) == fd
    ensures ConnIdGeneration(MakeConnId(fd, generation)) == generation
  {}

  /** Every word is the packing of its own parts, so identities and pairs are the same thing. */
  lemma PartsPackBack(id: bv64)
    ensures MakeConnId(ConnIdFd(id), ConnIdGeneration(id)) == id
  {}

  /** A word without a generation belongs to no connection; 0 is the answer for "none". */
  lemma OnlyGenerationZeroPacksToNone(fd: bv32, generation: bv32)
    ensures generation != 0 ==> MakeConnId(fd, generation) != 0
  {
    PackedPartsComeBack(fd, generation);
  }

  // ---------- Generations ----------

  const WORD: nat := 0x1_0000_0000
  const PERIOD: nat := 0xFFFF_FFFF

  /** The counter after one fetch_add. */
  function Advance(counter: nat): nat { (counter + 1) % WORD }

  /** What is handed out at a counter value, and the counter left behind. */
  function Issue(counter: nat): (nat, nat) {
    if counter == 0 then (Advance(0), Advance(Advance(0))) else (counter, Advance(counter))
  }

  function CounterAfter(n: nat): nat {
    if n == 0 then 1 else Issue(CounterAfter(n - 1)).1
  }

  /** The generation of the connection registered after n others. */
  function Generation(n: nat): nat { Issue(CounterAfter(n)).0 }

  lemma {:induction false} CounterValue(n: nat)
    ensures CounterAfter(n) == if n > 0 && n % PERIOD == 0 then 0 else n % PERIOD + 1
  {
    if n > 0 {
      CounterValue(n - 1);
      if (n - 1) % PERIOD == PERIOD - 1 {
        assert n % PERIOD == 0;
      } else {
        assert n % PERIOD == (n - 1) % PERIOD + 1;
      }
    }
  }

  /** Generations run through 1 .. 2^32 - 1 in turn: never 0, and two connections share one
      exactly when a multiple of 2^32 - 1 registrations lies between them. */
  lemma GenerationsRepeatAfterPeriod(m: nat, n: nat)
    ensures 1 <= Generation(n) < WORD
    ensures Generation(m) == Generation(n) <==> m % PERIOD == n % PERIOD
  {
    CounterValue(m);
    CounterValue(n);
  }

  lemma GenerationsDiffer(m: nat, n: nat)
    requires m < PERIOD && n < PERIOD
    ensures Generation(m) == Generation(n) <==> m == n
  {
    GenerationsRepeatAfterPeriod(m, n);
  }

  class GenerationCounter {
    var counter: nat
    ghost var issued: nat

    ghost predicate Valid()
      reads this
    {
      counter == CounterAfter(issued)
    }

    constructor ()
      ensures Valid() && issued == 0
    {
      counter, issued := 1, 0;
    }

    method NextConnectionGeneration() returns (g: nat)
      requires Valid()
      modifies this
      ensures Valid() && issued == old(issued) + 1
      ensures g == Generation(old(issued)) && 1 <= g < WORD
    {
      CounterValue(issued);
      g := counter;
      counter := Advance(counter);
      if g == 0 {
        g := counter;
        counter := Advance(counter);
      }
      issued := issued + 1;
    }
  }
}
