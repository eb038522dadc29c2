// Allocator over a fixed pool: an intrusive free list threaded through the free
// blocks, and fresh slots taken from the front of the pool.

module PoolAllocator {
  import opened Options
  const LINK_SIZE: nat := 8
  const UINT32: nat := 0x1_0000_0000

  function BlockSize(size: nat): (b: nat)
    ensures b >= LINK_SIZE && b >= size && (b == LINK_SIZE || b == size)
  {
    if size < LINK_SIZE then LINK_SIZE else size
  }

  // ---------------------------------------------------------------------------
  // Slots and addresses
  // ---------------------------------------------------------------------------

  function Slot(pool: int, blockSize: nat, i: nat): int {
    pool + i * blockSize
  }

  // Two slots are at least a block apart.
  lemma SlotsApart(pool: int, blockSize: nat, i: nat, j: nat)
    requires i < j
    ensures Slot(pool, blockSize, i) + blockSize <= Slot(pool, blockSize, j)
  {
    assert j * blockSize == i * blockSize + (j - i) * blockSize;
    AtLeastOnce(j - i, blockSize);
  }

  lemma AtLeastOnce(n: nat, b: nat)
    requires n > 0
    ensures n * b >= b
  {}

  lemma SlotInRange(pool: int, blockSize: nat, i: nat, n: nat)
    requires i < n
    ensures pool <= Slot(pool, blockSize, i) && Slot(pool, blockSize, i) + blockSize <= pool + n * blockSize
  {
    SlotsApart(pool, blockSize, i, n);
  }

  lemma SlotAligned(pool: int, blockSize: nat, i: nat)
    requires blockSize > 0
    ensures (Slot(pool, blockSize, i) - pool) % blockSize == 0
  {
    MultipleAligned(i, blockSize);
  }

  lemma MultipleAligned(i: nat, b: nat)
    requires b > 0
    ensures (i * b) % b == 0
  {
    var q, r := (i * b) / b, (i * b) % b;
    Quotient(i, q, r, b);
  }

  lemma Quotient(i: nat, q: nat, r: nat, b: nat)
    requires i * b == q * b + r && r < b
    ensures r == 0
  {
    if i > q {
      assert (i - q) * b == r;
      AtLeastOnce(i - q, b);
    } else if i < q {
      assert (q - i) * b == -r;
      AtLeastOnce(q - i, b);
    }
  }

  // ---------------------------------------------------------------------------
  // Free and outstanding slots
  // ---------------------------------------------------------------------------

  // free and out partition the slots below index.
  ghost predicate Partition(free: seq<nat>, out: set<nat>, index: nat) {
    && (forall i, j | 0 <= i < j < |free| :: free[i] != free[j])
    && (forall s | s in free :: s !in out)
    && (forall s: nat :: s < index <==> s in free || s in out)
  }

  lemma TakeFree(free: seq<nat>, out: set<nat>, index: nat)
    requires Partition(free, out, index) && free != []
    ensures Partition(free[1..], out + {free[0]}, index) && free[0] !in out
  {
    assert forall s :: s in free <==> s == free[0] || s in free[1..];
  }

  lemma TakeFresh(free: seq<nat>, out: set<nat>, index: nat)
    requires Partition(free, out, index)
    ensures Partition(free, out + {index}, index + 1) && index !in out
  {}

  lemma GiveBack(free: seq<nat>, out: set<nat>, index: nat, s: nat)
    requires Partition(free, out, index) && s in out
    ensures Partition([s] + free, out - {s}, index)
  {}

  // The links from head run through the free slots in order, and end.
  ghost predicate Linked(head: int, mem: map<int, int>, free: seq<nat>, pool: int, blockSize: nat)
    decreases free
  {
    if free == [] then head == 0
    else
      && head == Slot(pool, blockSize, free[0]) && head in mem
      && Linked(mem[head], mem, free[1..], pool, blockSize)
  }

  // The list only depends on the memory of the free slots.
  lemma {:induction false} LinkedFrame(head: int, mem: map<int, int>, mem': map<int, int>, free: seq<nat>,
                                       pool: int, blockSize: nat)
    requires Linked(head, mem, free, pool, blockSize)
    requires forall s | s in free ::
      var a := Slot(pool, blockSize, s); a in mem ==> a in mem' && mem'[a] == mem[a]
    ensures Linked(head, mem', free, pool, blockSize)
    decreases free
  {
    if free != [] {
      assert free[0] in free;
      hide Slot;
      LinkedFrame(mem[head], mem, mem', free[1..], pool, blockSize);
    }
  }

  // No slot's first word lies inside another slot.
  lemma WriteElsewhere(pool: int, blockSize: nat, s: nat, t: nat, offset: nat)
    requires s != t && offset < blockSize
    ensures Slot(pool, blockSize, t) != Slot(pool, blockSize, s) + offset
  {
    if s < t {
      SlotsApart(pool, blockSize, s, t);
    } else {
      SlotsApart(pool, blockSize, t, s);
    }
  }

  class Allocator {
    const objectSize: nat
    const blockSize: nat
    const maxObjects: nat
    const pool: int
    var mem: map<int, int>
    var head: int
    var poolIndex: nat
    var blocksInUse: nat
    var allocations: nat
    var deallocations: nat
    ghost var free: seq<nat>
    ghost var out: set<nat>
    ghost var granted: nat
    ghost var released: nat

    ghost predicate Counted()
      reads this
    {
      && |out| == granted - released
      && blocksInUse == |out| % UINT32
      && allocations == granted % UINT32 && deallocations == released % UINT32
    }

    ghost predicate Valid()
      reads this
    {
      && pool > 0 && maxObjects > 0 && blockSize == BlockSize(objectSize)
      && poolIndex <= maxObjects
      && Partition(free, out, poolIndex)
      && Linked(head, mem, free, pool, blockSize)
      && Counted()
    }

    // The blocks the callers hold.
    ghost function Outstanding(): set<int>
      reads this
    {
      set s | s in out :: Slot(pool, blockSize, s)
    }

    // memory is a pool of objects blocks, from the caller or from the heap.
    constructor (size: nat, objects: nat, memory: int)
      requires objects > 0 && memory > 0
      ensures Valid() && objectSize == size && maxObjects == objects && pool == memory
      ensures out == {} && free == [] && poolIndex == 0
    {
      objectSize, blockSize, maxObjects, pool := size, BlockSize(size), objects, memory;
      mem, head, poolIndex := map[], 0, 0;
      blocksInUse, allocations, deallocations := 0, 0, 0;
      free, out, granted, released := [], {}, 0, 0;
    }

    method Pop() returns (block: int)
      requires pool > 0 && Linked(head, mem, free, pool, blockSize)
      modifies `head, `free
      ensures old(free) == [] ==> block == 0 && free == [] && head == old(head)
      ensures old(free) != [] ==> block == Slot(pool, blockSize, old(free)[0]) && block > 0 && free == old(free)[1..]
      ensures Linked(head, mem, free, pool, blockSize)
    {
      block := 0;
      if free != [] {
        SlotPositive(free[0]);
      }
      if head != 0 {
        block := head;
        head := mem[head];
        free := free[1..];
      }
    }

    lemma SlotPositive(i: nat)
      requires pool > 0
      ensures Slot(pool, blockSize, i) > 0
    {
      SlotInRange(pool, blockSize, i, i + 1);
    }

    // A block for one object, or none when the pool is used up and no new-handler helps.
    method Allocate(size: nat) returns (block: Option<int>)
      requires Valid() && size <= objectSize
      modifies this
      ensures Valid()
      ensures block == None <==> |old(out)| == maxObjects
      ensures block == None ==> out == old(out) && free == old(free) && poolIndex == old(poolIndex)
      ensures block.Some? ==>
                var s := if old(free) != [] then old(free)[0] else old(poolIndex);
                && s < maxObjects && s !in old(out) && out == old(out) + {s}
                && block.value == Slot(pool, blockSize, s)
      ensures block.Some? ==> free == if old(free) != [] then old(free)[1..] else []
      ensures block.Some? ==> poolIndex == old(poolIndex) + if old(free) != [] then 0 else 1
      ensures granted == old(granted) + if block.Some? then 1 else 0
      ensures mem == old(mem) && released == old(released)
    {
      hide Linked, BlockSize;
      if free != [] {
        TakeFree(free, out, poolIndex);
      } else {
        TakeFresh(free, out, poolIndex);
      }
      PartitionSize(free, out, poolIndex);
      ghost var was := free;
      var b := Pop();
      if b == 0 {
        if poolIndex < maxObjects {
          b := Slot(pool, blockSize, poolIndex);
          Account(poolIndex);
          poolIndex := poolIndex + 1;
        } else {
          return None;
        }
      } else {
        Account(was[0]);
      }
      return Some(b);
    }

    // The counters of one allocation, which wrap.
    method Account(ghost s: nat)
      requires Counted() && s !in out
      modifies `blocksInUse, `allocations, `granted, `out
      ensures Counted() && out == old(out) + {s} && granted == old(granted) + 1
    {
      NextModulo(|out|);
      NextModulo(granted);
      blocksInUse := (blocksInUse + 1) % UINT32;
      allocations := (allocations + 1) % UINT32;
      out, granted := out + {s}, granted + 1;
    }

    // The caller returns a block it holds.
    method Deallocate(block: int, ghost s: nat)
      requires Valid() && s in out && block == Slot(pool, blockSize, s)
      modifies this
      ensures Valid()
      ensures out == old(out) - {s} && free == [s] + old(free) && poolIndex == old(poolIndex)
      ensures granted == old(granted) && released == old(released) + 1
    {
      GiveBack(free, out, poolIndex, s);
      hide Partition, Linked, BlockSize, Slot;
      Push(block, s);
      NextModulo(|out| - 1);
      NextModulo(released);
      blocksInUse := (blocksInUse + UINT32 - 1) % UINT32;
      deallocations := (deallocations + 1) % UINT32;
      out, released := out - {s}, released + 1;
    }

    method Push(block: int, ghost s: nat)
      requires Linked(head, mem, free, pool, blockSize) && block == Slot(pool, blockSize, s) && s !in free
      requires blockSize > 0
      modifies `mem, `head, `free
      ensures free == [s] + old(free) && Linked(head, mem, free, pool, blockSize)
    {
      ghost var mem' := mem[block := head];
      forall t | t in free
        ensures Slot(pool, blockSize, t) != block
      {
        WriteElsewhere(pool, blockSize, s, t, 0);
      }
      LinkedFrame(head, mem, mem', free, pool, blockSize);
      assert ([s] + free)[1..] == free;
      mem := mem[block := head];
      head := block;
      free := [s] + free;
    }

    // A caller writes inside a block it holds: the free list is not affected.
    method Write(ghost s: nat, block: int, offset: nat, v: int)
      requires Valid() && s in out && block == Slot(pool, blockSize, s) && offset < objectSize
      modifies `mem
      ensures Valid() && mem == old(mem)[block + offset := v]
    {
      forall t | t in free
        ensures Slot(pool, blockSize, t) != block + offset
      {
        WriteElsewhere(pool, blockSize, s, t, offset);
      }
      LinkedFrame(head, mem, mem[block + offset := v], free, pool, blockSize);
      hide Linked, Partition, Slot, BlockSize;
      mem := mem[block + offset := v];
    }

    // Outstanding blocks are in the pool, on block boundaries, and do not overlap.
    lemma OutstandingBlocks(a: nat, b: nat)
      requires Valid() && a in out && b in out && a != b
      ensures pool <= Slot(pool, blockSize, a) && Slot(pool, blockSize, a) + objectSize <= pool + maxObjects * blockSize
      ensures (Slot(pool, blockSize, a) - pool) % blockSize == 0
      ensures Slot(pool, blockSize, a) + objectSize <= Slot(pool, blockSize, b)
           || Slot(pool, blockSize, b) + objectSize <= Slot(pool, blockSize, a)
    {
      hide Linked;
      assert a < poolIndex;
      SlotInRange(pool, blockSize, a, maxObjects);
      SlotAligned(pool, blockSize, a);
      if a < b {
        SlotsApart(pool, blockSize, a, b);
      } else {
        SlotsApart(pool, blockSize, b, a);
      }
    }

    // The free list has no repeated block, shares none with the callers, and together
    // they are the first poolIndex slots; the counters agree with them.
    lemma FreeAndOutstanding()
      requires Valid()
      ensures forall i, j | 0 <= i < j < |free| :: Slot(pool, blockSize, free[i]) != Slot(pool, blockSize, free[j])
      ensures forall i | 0 <= i < |free| :: Slot(pool, blockSize, free[i]) !in Outstanding()
      ensures |free| + |out| == poolIndex <= maxObjects
      ensures maxObjects < UINT32 ==> blocksInUse == |out|
      ensures (allocations - deallocations) % UINT32 == blocksInUse
    {
      forall s: nat, t: nat | s != t
        ensures Slot(pool, blockSize, s) != Slot(pool, blockSize, t)
      {
        WriteElsewhere(pool, blockSize, s, t, 0);
      }
      PartitionSize(free, out, poolIndex);
      Difference(granted, released);
      hide Linked, Slot, BlockSize;
    }
  }

  lemma NextModulo(n: nat)
    ensures (n % UINT32 + 1) % UINT32 == (n + 1) % UINT32
    ensures ((n + 1) % UINT32 + UINT32 - 1) % UINT32 == n % UINT32
  {}

  lemma Difference(a: nat, b: nat)
    requires a >= b
    ensures (a % UINT32 - b % UINT32) % UINT32 == (a - b) % UINT32
  {}

  function Elements(s: seq<nat>): set<nat> {
    set x | x in s
  }

  lemma {:induction false} DistinctSize(s: seq<nat>)
    requires forall i, j | 0 <= i < j < |s| :: s[i] != s[j]
    ensures |Elements(s)| == |s|
  {
    if s != [] {
      var r := s[1..];
      DistinctSize(r);
      assert forall i | 0 <= i < |r| :: r[i] == s[i + 1];
      assert Elements(s) == Elements(r) + {s[0]};
      assert s[0] !in Elements(r);
    }
  }

  function Below(n: nat): (s: set<nat>)
    ensures forall i: nat :: i in s <==> i < n
    ensures |s| == n
  {
    if n == 0 then {} else Below(n - 1) + {n - 1}
  }

  lemma PartitionSize(free: seq<nat>, out: set<nat>, index: nat)
    requires Partition(free, out, index)
    ensures |free| + |out| == index
  {
    var f := Elements(free);
    DistinctSize(free);
    assert f + out == Below(index);
    assert f !! out;
    assert |f + out| == |f| + |out|;
  }

  // ---------------------------------------------------------------------------
  // AllocatorPool: the pool is an array of Objects times sizeof(T) bytes
  // ---------------------------------------------------------------------------

  ghost predicate StorageHolds(size: nat, objects: nat) {
    forall i | 0 <= i < objects :: Slot(0, BlockSize(size), i) + BlockSize(size) <= size * objects
  }

  // The blocks fit in the array exactly when a pointer fits in an object.
  lemma StorageHoldsIff(size: nat, objects: nat)
    ensures StorageHolds(size, objects) <==> objects == 0 || size >= LINK_SIZE
  {
    if objects > 0 {
      var b := BlockSize(size);
      if size >= LINK_SIZE {
        forall i | 0 <= i < objects
          ensures Slot(0, b, i) + b <= size * objects
        {
          SlotInRange(0, b, i, objects);
          assert objects * b == size * objects;
        }
      } else {
        LastBlock(b, objects);
        Scaled(size, b, objects);
      }
    }
  }

  lemma LastBlock(b: nat, objects: nat)
    requires objects > 0
    ensures Slot(0, b, objects - 1) + b == b * objects
  {}

  lemma Scaled(a: nat, b: nat, n: nat)
    requires a < b && n > 0
    ensures a * n < b * n
  {}

  // One byte-sized object: its block is eight bytes long in an array of one.
  lemma StorageExample()
    ensures !StorageHolds(1, 1)
  {
    StorageHoldsIff(1, 1);
  }
}
