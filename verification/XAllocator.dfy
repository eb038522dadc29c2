// xallocator: the registry of allocators, one for each block size; the accounting of
// one allocator's heap blocks under concurrent calls; and xmalloc, xfree and xrealloc.

module XRegistry {
  import opened Options
  const MAX_ALLOCATORS: nat := 15

  datatype Alloc = Alloc(id: nat, blockSize: nat)

  type Slots = seq<Option<Alloc>>

  // The first allocator of that size, up to the first empty slot.
  function Find(s: Slots, size: nat): Option<Alloc> {
    if s == [] || s[0].None? then None
    else if s[0].value.blockSize == size then s[0]
    else Find(s[1..], size)
  }

  // The slots with an allocator put into the first empty one, if there is one.
  function Inserted(s: Slots, a: Alloc): Slots {
    if s == [] then []
    else if s[0].None? then [Some(a)] + s[1..]
    else [s[0]] + Inserted(s[1..], a)
  }

  predicate HasRoom(s: Slots) {
    None in s
  }

  // No allocator comes after an empty slot.
  ghost predicate Dense(s: Slots) {
    forall i, j | 0 <= i < j < |s| && s[j].Some? :: s[i].Some?
  }

  ghost predicate OnePerSize(s: Slots) {
    forall i, j | 0 <= i < j < |s| && s[i].Some? && s[j].Some? :: s[i].value.blockSize != s[j].value.blockSize
  }

  // The search finds what is registered, and nothing else.
  lemma {:induction false} FindFinds(s: Slots, size: nat)
    requires Dense(s)
    ensures Find(s, size).Some? ==> Find(s, size) in s && Find(s, size).value.blockSize == size
    ensures Find(s, size).None? <==> forall i | 0 <= i < |s| && s[i].Some? :: s[i].value.blockSize != size
  {
    if s != [] && s[0].Some? && s[0].value.blockSize != size {
      var r := s[1..];
      assert forall i | 0 <= i < |r| :: r[i] == s[i + 1];
      FindFinds(r, size);
      assert Find(s, size) == Find(r, size);
      assert forall i | 1 <= i < |s| :: s[i] == r[i - 1];
    }
  }

  // Insertion changes one slot: the first empty one.
  lemma {:induction false} InsertedAt(s: Slots, a: Alloc) returns (k: nat)
    requires HasRoom(s)
    ensures k < |s| && s[k].None? && (forall i | 0 <= i < k :: s[i].Some?)
    ensures Inserted(s, a) == s[k := Some(a)]
  {
    if s[0].None? {
      k := 0;
    } else {
      assert s == [s[0]] + s[1..];
      k := InsertedAt(s[1..], a);
      k := k + 1;
    }
  }

  lemma InsertKeeps(s: Slots, a: Alloc)
    requires Dense(s) && OnePerSize(s) && HasRoom(s) && Find(s, a.blockSize).None?
    ensures Dense(Inserted(s, a)) && OnePerSize(Inserted(s, a)) && Some(a) in Inserted(s, a)
    ensures forall x | x in s && x.Some? :: x in Inserted(s, a)
    ensures forall x | x in Inserted(s, a) && x.Some? :: x in s || x == Some(a)
  {
    FindFinds(s, a.blockSize);
    var k := InsertedAt(s, a);
    var t := s[k := Some(a)];
    assert t[k] == Some(a);
    forall x | x in s && x.Some?
      ensures x in t
    {
      var i :| 0 <= i < |s| && s[i] == x;
      assert t[i] == x;
    }
    hide Find, Inserted;
  }

  class Registry {
    const slots: array<Option<Alloc>>

    constructor ()
      ensures fresh(slots) && slots.Length == MAX_ALLOCATORS
      ensures forall i | 0 <= i < slots.Length :: slots[i].None?
    {
      slots := new Option<Alloc>[MAX_ALLOCATORS](_ => None);
    }

    method FindAllocator(size: nat) returns (found: Option<Alloc>)
      ensures found == Find(slots[..], size)
    {
      var i := 0;
      while i < slots.Length
        invariant 0 <= i <= slots.Length
        invariant Find(slots[..], size) == Find(slots[i..], size)
      {
        if slots[i].None? {
          break;
        }
        if slots[i].value.blockSize == size {
          return slots[i];
        }
        assert slots[i..][1..] == slots[i + 1..];
        i := i + 1;
      }
      return None;
    }

    method InsertAllocator(a: Alloc) returns (inserted: bool)
      modifies slots
      ensures inserted <==> exists k | 0 <= k < slots.Length :: old(slots[..])[k].None?
      ensures inserted ==> exists k | 0 <= k < slots.Length ::
                && slots[..] == old(slots[..])[k := Some(a)] && old(slots[..])[k].None?
                && forall i | 0 <= i < k :: old(slots[..])[i].Some?
      ensures slots[..] == if inserted then Inserted(old(slots[..]), a) else old(slots[..])
    {
      ghost var s := slots[..];
      var i := 0;
      while i < slots.Length
        invariant 0 <= i <= slots.Length && slots[..] == s
        invariant forall k | 0 <= k < i :: s[k].Some?
      {
        if slots[i].None? {
          assert s[i].None?;
          ghost var k := InsertedAt(s, a);
          slots[i] := Some(a);
          assert slots[..] == s[i := Some(a)];
          return true;
        }
        i := i + 1;
      }
      return false;
    }
  }

  // ---------------------------------------------------------------------------
  // Any number of threads in xallocator_get_allocator
  // ---------------------------------------------------------------------------

  datatype Pc =
    | Wanting(size: nat)
    | Missing(size: nat)                  // not found: it will make one, without the lock
    | Made(made: Alloc)                   // about to look again, and insert
    | Losing(made: Alloc, existing: Alloc) // another one was there: it deletes its own
    | Done(size: nat, result: Alloc)

  // live are the allocators made and not deleted.
  datatype State = State(slots: Slots, live: set<nat>, next: nat, threads: map<nat, Pc>, faulted: bool)

  datatype Op = Call(t: nat, size: nat) | Go(t: nat)

  ghost predicate Enabled(s: State, op: Op) {
    !s.faulted && if op.Call? then op.t !in s.threads else op.t in s.threads && !s.threads[op.t].Done?
  }

  function Goto(s: State, t: nat, pc: Pc): State {
    s.(threads := s.threads[t := pc])
  }

  function Advance(s: State, t: nat, pc: Pc): State {
    match pc
    case Wanting(size) =>
      var f := Find(s.slots, size);
      Goto(s, t, if f.Some? then Done(size, f.value) else Missing(size))
    case Missing(size) =>
      Goto(s, t, Made(Alloc(s.next, size))).(next := s.next + 1, live := s.live + {s.next})
    case Made(a) =>
      var f := Find(s.slots, a.blockSize);
      if f.Some? then Goto(s, t, Losing(a, f.value))
      else if HasRoom(s.slots) then Goto(s, t, Done(a.blockSize, a)).(slots := Inserted(s.slots, a))
      else s.(faulted := true)
    case Losing(a, e) => Goto(s, t, Done(a.blockSize, e)).(live := s.live - {a.id})
    case Done(_, _) => s
  }

  function Step(s: State, op: Op): State {
    if op.Call? then Goto(s, op.t, Wanting(op.size))
    else if op.t in s.threads then Advance(s, op.t, s.threads[op.t]) else s
  }

  ghost predicate Run(s: State, ops: seq<Op>)
    decreases ops
  {
    ops == [] || (Enabled(s, ops[0]) && Run(Step(s, ops[0]), ops[1..]))
  }

  function After(s: State, ops: seq<Op>): State
    decreases ops
  {
    if ops == [] then s else After(Step(s, ops[0]), ops[1..])
  }

  const EMPTY := State(seq(MAX_ALLOCATORS, _ => None), {}, 0, map[], false)

  predicate Holds(pc: Pc) {
    pc.Made? || pc.Losing?
  }

  // Registered allocators are alive, and no thread is about to delete one.
  ghost predicate Owned(s: State) {
    && (forall x | x in s.slots && x.Some? :: x.value.id in s.live)
    && (forall i | i in s.live :: i < s.next)
    && (forall t | t in s.threads && Holds(s.threads[t]) ::
          var a := s.threads[t].made;
          a.id in s.live && forall x | x in s.slots && x.Some? :: x.value.id != a.id)
    && (forall t, u | t in s.threads && u in s.threads && t != u && Holds(s.threads[t]) && Holds(s.threads[u]) ::
          s.threads[t].made.id != s.threads[u].made.id)
  }

  // Results are registered, with the size asked for.
  ghost predicate Answered(s: State) {
    forall t | t in s.threads ::
      match s.threads[t]
      case Done(size, a) => Some(a) in s.slots && a.blockSize == size
      case Losing(a, e) => Some(e) in s.slots && e.blockSize == a.blockSize
      case _ => true
  }

  ghost predicate Inv(s: State) {
    Dense(s.slots) && OnePerSize(s.slots) && Owned(s) && Answered(s)
  }

  lemma CallInv(s: State, t: nat, size: nat)
    requires Inv(s) && t !in s.threads
    ensures Inv(Goto(s, t, Wanting(size)))
  {
    hide Dense, OnePerSize;
  }

  lemma LookupInv(s: State, t: nat)
    requires Inv(s) && t in s.threads && s.threads[t].Wanting?
    ensures Inv(Advance(s, t, s.threads[t]))
  {
    FindFinds(s.slots, s.threads[t].size);
    hide Dense, OnePerSize, Find;
  }

  lemma MakeInv(s: State, t: nat)
    requires Inv(s) && t in s.threads && s.threads[t].Missing?
    ensures Inv(Advance(s, t, s.threads[t]))
  {
    hide Dense, OnePerSize;
  }

  lemma InsertInv(s: State, t: nat)
    requires Inv(s) && t in s.threads && s.threads[t].Made?
    ensures Inv(Advance(s, t, s.threads[t]))
  {
    var a := s.threads[t].made;
    FindFinds(s.slots, a.blockSize);
    if Find(s.slots, a.blockSize).None? && HasRoom(s.slots) {
      InsertKeeps(s.slots, a);
    }
    hide Dense, OnePerSize, Find, Inserted, HasRoom;
  }

  lemma DeleteInv(s: State, t: nat)
    requires Inv(s) && t in s.threads && s.threads[t].Losing?
    ensures Inv(Advance(s, t, s.threads[t]))
  {
    hide Dense, OnePerSize;
  }

  lemma StepInv(s: State, op: Op)
    requires Inv(s) && Enabled(s, op)
    ensures Inv(Step(s, op))
  {
    hide Inv, Advance;
    match op {
      case Call(t, size) => CallInv(s, t, size);
      case Go(t) =>
        match s.threads[t] {
          case Wanting(_) => LookupInv(s, t);
          case Missing(_) => MakeInv(s, t);
          case Made(_) => InsertInv(s, t);
          case Losing(_, _) => DeleteInv(s, t);
          case Done(_, _) =>
        }
    }
  }

  lemma {:induction false} RunInv(s: State, ops: seq<Op>)
    requires Inv(s) && Run(s, ops)
    ensures Inv(After(s, ops))
    decreases ops
  {
    hide Inv, Step, Enabled;
    if ops != [] {
      StepInv(s, ops[0]);
      RunInv(Step(s, ops[0]), ops[1..]);
    }
  }

  // The size a call asked for, wherever it is.
  function SizeOf(pc: Pc): nat {
    match pc
    case Wanting(size) => size
    case Missing(size) => size
    case Made(a) => a.blockSize
    case Losing(a, _) => a.blockSize
    case Done(size, _) => size
  }

  lemma {:induction false} SizeStays(s: State, ops: seq<Op>, t: nat)
    requires Run(s, ops) && t in s.threads
    ensures t in After(s, ops).threads && SizeOf(After(s, ops).threads[t]) == SizeOf(s.threads[t])
    decreases ops
  {
    if ops != [] {
      var u := Step(s, ops[0]);
      assert t in u.threads && SizeOf(u.threads[t]) == SizeOf(s.threads[t]) by {
        hide Find, Inserted, HasRoom, Run, After;
      }
      hide Step, Enabled, SizeOf;
      SizeStays(u, ops[1..], t);
    }
  }

  // What a call returns has the size it asked for.
  lemma CallGetsItsSize(before: seq<Op>, t: nat, size: nat, later: seq<Op>)
    requires Run(EMPTY, before)
    requires !After(EMPTY, before).faulted && t !in After(EMPTY, before).threads
    requires Run(Step(After(EMPTY, before), Call(t, size)), later)
    ensures Enabled(After(EMPTY, before), Call(t, size))
    ensures var s := After(Step(After(EMPTY, before), Call(t, size)), later);
      && t in s.threads
      && (s.threads[t].Done? ==> s.threads[t].result.blockSize == size && Some(s.threads[t].result) in s.slots)
  {
    assert Inv(EMPTY);
    RunInv(EMPTY, before);
    var u := After(EMPTY, before);
    hide Run, After;
    StepInv(u, Call(t, size));
    SizeStays(Step(u, Call(t, size)), later, t);
    RunInv(Step(u, Call(t, size)), later);
    hide Dense, OnePerSize, Owned, Step;
    assert SizeOf(Wanting(size)) == size;
    assert Step(u, Call(t, size)).threads[t] == Wanting(size) by {
      StartsWanting(u, t, size);
    }
  }

  lemma StartsWanting(s: State, t: nat, size: nat)
    ensures t in Step(s, Call(t, size)).threads && Step(s, Call(t, size)).threads[t] == Wanting(size)
  {}

  // The registry has its fifteen slots, and a call fails only when none of them is empty
  // or holds its size.
  ghost predicate FullIfFaulted(s: State) {
    |s.slots| == MAX_ALLOCATORS && (s.faulted ==> forall i | 0 <= i < |s.slots| :: s.slots[i].Some?)
  }

  lemma {:induction false} FaultOnlyWhenFull(s: State, ops: seq<Op>)
    requires FullIfFaulted(s) && Run(s, ops)
    ensures FullIfFaulted(After(s, ops))
    decreases ops
  {
    if ops != [] {
      FullStep(s, ops[0]);
      hide FullIfFaulted, Step, Enabled;
      FaultOnlyWhenFull(Step(s, ops[0]), ops[1..]);
    }
  }

  lemma FullStep(s: State, op: Op)
    requires FullIfFaulted(s) && Enabled(s, op)
    ensures FullIfFaulted(Step(s, op))
  {
    hide Find;
    if op.Go? && s.threads[op.t].Made? && HasRoom(s.slots) {
      var k := InsertedAt(s.slots, s.threads[op.t].made);
    }
    hide Inserted;
  }

  // A slot is empty, or holds an allocator of that size.
  ghost predicate Serves(slots: Slots, size: nat) {
    exists i :: 0 <= i < |slots| && (slots[i].None? || slots[i].value.blockSize == size)
  }

  function StepsLeft(pc: Pc): nat {
    match pc
    case Wanting(_) => 4
    case Missing(_) => 3
    case Made(_) => 2
    case Losing(_, _) => 1
    case Done(_, _) => 0
  }

  lemma GoesOn(s: State, t: nat)
    requires Inv(s) && !s.faulted && t in s.threads && !s.threads[t].Done?
    requires Serves(s.slots, SizeOf(s.threads[t]))
    ensures var u := Step(s, Go(t));
      && !u.faulted && t in u.threads && StepsLeft(u.threads[t]) < StepsLeft(s.threads[t])
      && Serves(u.slots, SizeOf(u.threads[t]))
  {
    var size := SizeOf(s.threads[t]);
    FindFinds(s.slots, size);
    hide Dense, OnePerSize, Owned, Answered, Find;
    var i :| 0 <= i < |s.slots| && (s.slots[i].None? || s.slots[i].value.blockSize == size);
    if s.threads[t].Made? && Find(s.slots, size).None? {
      assert s.slots[i].None?;
      var k := InsertedAt(s.slots, s.threads[t].made);
      assert Inserted(s.slots, s.threads[t].made)[k].value.blockSize == size;
    }
    hide Inserted;
  }

  // From every reachable state a call finishes on its own, within four steps, if its size
  // is registered or a slot is empty.
  lemma {:induction false} CallFinishes(s: State, t: nat) returns (ops: seq<Op>)
    requires Inv(s) && !s.faulted && t in s.threads && Serves(s.slots, SizeOf(s.threads[t]))
    ensures Run(s, ops) && |ops| <= StepsLeft(s.threads[t]) && forall op | op in ops :: op == Go(t)
    ensures t in After(s, ops).threads && After(s, ops).threads[t].Done?
    decreases StepsLeft(s.threads[t])
  {
    hide Inv, Serves, Advance;
    if s.threads[t].Done? {
      ops := [];
    } else {
      GoesOn(s, t);
      StepInv(s, Go(t));
      var u := Step(s, Go(t));
      hide Step;
      var rest := CallFinishes(u, t);
      ops := [Go(t)] + rest;
      assert ops[1..] == rest;
    }
  }
  // In every run the registry is a dense prefix with one allocator for each size, and
  // each call returns the registered one of its size, which is alive; so two calls for
  // one size return the same allocator. A call is fatal only when all slots are taken.
  lemma RegistryCorrect(ops: seq<Op>, t: nat, u: nat)
    requires Run(EMPTY, ops)
    ensures var s := After(EMPTY, ops);
      && Dense(s.slots) && OnePerSize(s.slots) && |s.slots| == MAX_ALLOCATORS
      && (s.faulted ==> forall i | 0 <= i < |s.slots| :: s.slots[i].Some?)
      && (t in s.threads && s.threads[t].Done? ==>
            Some(s.threads[t].result) in s.slots && s.threads[t].result.blockSize == s.threads[t].size
            && s.threads[t].result.id in s.live)
      && (t in s.threads && u in s.threads && s.threads[t].Done? && s.threads[u].Done? ==>
            (s.threads[t].size == s.threads[u].size ==> s.threads[t].result == s.threads[u].result))
  {
    assert Inv(EMPTY);
    RunInv(EMPTY, ops);
    FaultOnlyWhenFull(EMPTY, ops);
    hide Run, After;
  }
}

// The blocks of one heap-backed allocator, under concurrent xmalloc and xfree calls.
module XAccounting {
  import opened PoolAllocator

  // missed: the calls that found the free list empty; obtained: those that have a new
  // block not yet accounted for.
  datatype State = State(
    free: seq<nat>, held: set<nat>, missed: set<nat>, obtained: map<nat, nat>,
    blockCnt: nat, blocksInUse: nat, allocations: nat, deallocations: nat)

  datatype Op =
    | Pop(t: nat)               // Pop, and AccountAlloc(false) if it gave a block
    | New(t: nat, block: nat)   // a block from the heap, without the lock
    | Account(t: nat)           // AccountAlloc(true)
    | Free(block: nat)          // Deallocate

  // The heap does not hand out a block that is still in use somewhere.
  ghost predicate Enabled(s: State, op: Op) {
    match op
    case Pop(t) => t !in s.missed && t !in s.obtained
    case New(t, b) => t in s.missed && b !in s.free && b !in s.held && b !in s.obtained.Values
    case Account(t) => t in s.obtained
    case Free(b) => b in s.held
  }

  function Inc(n: nat): nat {
    (n + 1) % UINT32
  }

  function Dec(n: nat): nat {
    (n + UINT32 - 1) % UINT32
  }

  function Step(s: State, op: Op): State {
    match op
    case Pop(t) =>
      if s.free == [] then s.(missed := s.missed + {t})
      else s.(free := s.free[1..], held := s.held + {s.free[0]},
              blocksInUse := Inc(s.blocksInUse), allocations := Inc(s.allocations))
    case New(t, b) => s.(missed := s.missed - {t}, obtained := s.obtained[t := b])
    case Account(t) =>
      if t in s.obtained then
        s.(obtained := s.obtained - {t}, held := s.held + {s.obtained[t]}, blockCnt := Inc(s.blockCnt),
           blocksInUse := Inc(s.blocksInUse), allocations := Inc(s.allocations))
      else s
    case Free(b) =>
      s.(free := [b] + s.free, held := s.held - {b},
         blocksInUse := Dec(s.blocksInUse), deallocations := Inc(s.deallocations))
  }

  ghost predicate Run(s: State, ops: seq<Op>)
    decreases ops
  {
    ops == [] || (Enabled(s, ops[0]) && Run(Step(s, ops[0]), ops[1..]))
  }

  function After(s: State, ops: seq<Op>): State
    decreases ops
  {
    if ops == [] then s else After(Step(s, ops[0]), ops[1..])
  }

  const EMPTY := State([], {}, {}, map[], 0, 0, 0, 0)

  // No block is in two places.
  ghost predicate Apart(s: State) {
    && (forall i, j | 0 <= i < j < |s.free| :: s.free[i] != s.free[j])
    && (forall b | b in s.free :: b !in s.held)
    && (forall t | t in s.obtained :: s.obtained[t] !in s.free && s.obtained[t] !in s.held)
    && (forall t, u | t in s.obtained && u in s.obtained && t != u :: s.obtained[t] != s.obtained[u])
  }

  ghost predicate Counted(s: State) {
    && s.blockCnt == (|s.held| + |s.free|) % UINT32
    && s.blocksInUse == |s.held| % UINT32
    && (s.allocations - s.deallocations) % UINT32 == s.blocksInUse
  }

  lemma StepApart(s: State, op: Op)
    requires Apart(s) && Enabled(s, op)
    ensures Apart(Step(s, op))
  {
    if op.Pop? && s.free != [] {
      assert forall b :: b in s.free <==> b == s.free[0] || b in s.free[1..];
    }
  }

  lemma Turns(q: int, z: int)
    ensures (q * UINT32 + z) % UINT32 == z % UINT32
  {}

  // Reducing an operand first makes no difference to a sum or difference.
  lemma ModSum(x: int, y: int)
    ensures (x % UINT32 + y) % UINT32 == (x + y) % UINT32
    ensures (y - x % UINT32) % UINT32 == (y - x) % UINT32
  {
    Turns(x / UINT32, x % UINT32 + y);
    Turns(-(x / UINT32), y - x % UINT32);
  }

  lemma IncMod(n: nat)
    ensures Inc(n % UINT32) == (n + 1) % UINT32
  {
    ModSum(n, 1);
  }

  lemma DecMod(n: nat)
    ensures Dec((n + 1) % UINT32) == n % UINT32
  {
    ModSum(n + 1, UINT32 - 1);
    Turns(1, n);
  }

  lemma IncDifference(a: nat, d: nat)
    ensures (Inc(a) - d) % UINT32 == Inc((a - d) % UINT32)
  {
    ModSum(a + 1, 0 - d);
    ModSum(a - d, 1);
  }

  lemma DecDifference(a: nat, d: nat)
    ensures (a - Inc(d)) % UINT32 == Dec((a - d) % UINT32)
  {
    ModSum(d + 1, a);
    ModSum(a - d, UINT32 - 1);
    Turns(1, a - d - 1);
  }

  lemma StepCounted(s: State, op: Op)
    requires Apart(s) && Counted(s) && Enabled(s, op)
    ensures Counted(Step(s, op))
  {
    hide Inc, Dec;
    match op {
      case Pop(t) => PopCounted(s, t);
      case New(t, b) =>
      case Account(t) => AccountCounted(s, t);
      case Free(b) => FreeCounted(s, b);
    }
  }

  lemma PopCounted(s: State, t: nat)
    requires Apart(s) && Counted(s)
    ensures Counted(Step(s, Pop(t)))
  {
    hide Inc, Dec;
    if s.free != [] {
      IncMod(|s.held|);
      IncDifference(s.allocations, s.deallocations);
      assert s.free[0] !in s.held;
    }
    hide Apart;
  }

  lemma AccountCounted(s: State, t: nat)
    requires Apart(s) && Counted(s) && t in s.obtained
    ensures Counted(Step(s, Account(t)))
  {
    hide Inc, Dec;
    IncMod(|s.held|);
    IncMod(|s.held| + |s.free|);
    IncDifference(s.allocations, s.deallocations);
    assert s.obtained[t] !in s.held;
    hide Apart;
  }

  lemma FreeCounted(s: State, b: nat)
    requires Counted(s) && b in s.held
    ensures Counted(Step(s, Free(b)))
  {
    hide Inc, Dec;
    DecMod(|s.held| - 1);
    DecDifference(s.allocations, s.deallocations);
  }

  lemma {:induction false} RunCounted(s: State, ops: seq<Op>)
    requires Apart(s) && Counted(s) && Run(s, ops)
    ensures Apart(After(s, ops)) && Counted(After(s, ops))
    decreases ops
  {
    hide Apart, Counted, Step, Enabled;
    if ops != [] {
      StepApart(s, ops[0]);
      StepCounted(s, ops[0]);
      RunCounted(Step(s, ops[0]), ops[1..]);
    }
  }

  lemma Reachable(ops: seq<Op>)
    requires Run(EMPTY, ops)
    ensures Apart(After(EMPTY, ops)) && Counted(After(EMPTY, ops))
  {
    assert Apart(EMPTY) && Counted(EMPTY);
    RunCounted(EMPTY, ops);
  }

  // In every interleaving, an xmalloc that is not disturbed takes the first free block
  // into use, or else a new one, and an xfree puts its block first on the free list.
  lemma MallocAndFree(before: seq<Op>, t: nat, b: nat)
    requires Run(EMPTY, before)
    requires var s := After(EMPTY, before);
      t !in s.missed && t !in s.obtained && b !in s.free && b !in s.held && b !in s.obtained.Values
    ensures var s := After(EMPTY, before);
      var ops := if s.free != [] then [Pop(t)] else [Pop(t), New(t, b), Account(t)];
      var u, got := After(s, ops), if s.free != [] then s.free[0] else b;
      && Run(s, ops) && u.held == s.held + {got} && got !in s.held
      && u.free == (if s.free != [] then s.free[1..] else [])
      && u.missed == s.missed && u.obtained == s.obtained
      && u.blockCnt == (s.blockCnt + if s.free != [] then 0 else 1) % UINT32
    ensures var s := After(EMPTY, before);
      forall x | x in s.held ::
        Enabled(s, Free(x)) && Step(s, Free(x)).free == [x] + s.free && Step(s, Free(x)).held == s.held - {x}
  {
    Reachable(before);
    var s := After(EMPTY, before);
    hide After, Run;
    if s.free != [] {
      One(s, Pop(t));
    } else {
      Slow(s, t, b);
    }
  }

  lemma One(s: State, op: Op)
    requires Enabled(s, op)
    ensures Run(s, [op]) && After(s, [op]) == Step(s, op)
  {
    assert [op][1..] == [];
    assert Run(Step(s, op), []) && After(Step(s, op), []) == Step(s, op);
  }

  // The slow path of xmalloc.
  lemma Slow(s: State, t: nat, b: nat)
    requires s.free == [] && t !in s.missed && t !in s.obtained && b !in s.held && b !in s.obtained.Values
    ensures var ops := [Pop(t), New(t, b), Account(t)]; var u := After(s, ops);
      && Run(s, ops) && u.held == s.held + {b} && u.free == [] && u.blockCnt == (s.blockCnt + 1) % UINT32
      && u.missed == s.missed && u.obtained == s.obtained
  {
    var s1 := Step(s, Pop(t));
    var s2 := Step(s1, New(t, b));
    assert s1.missed - {t} == s.missed;
    assert s2.obtained - {t} == s.obtained;
    One(s2, Account(t));
    assert [New(t, b), Account(t)][1..] == [Account(t)];
    assert [Pop(t), New(t, b), Account(t)][1..] == [New(t, b), Account(t)];
  }

  // In every interleaving, whenever the lock is free, the block count is the number of
  // blocks in use plus the length of the free list, all counters modulo 2^32.
  lemma BlockCountBalances(ops: seq<Op>)
    requires Run(EMPTY, ops)
    ensures var s := After(EMPTY, ops);
      && s.blockCnt == (s.blocksInUse + |s.free|) % UINT32
      && s.blocksInUse == |s.held| % UINT32
      && s.blocksInUse == (s.allocations - s.deallocations) % UINT32
      && Apart(s)
  {
    Reachable(ops);
    hide Run, After, Apart;
  }
}

// xmalloc, xfree and xrealloc on the caller's memory.
module XMemory {
  import opened XAllocSize
  import Pool = PoolAllocator

  type Byte = bv8

  // A block in use: the size of its allocator, and the caller's part of it.
  datatype Cell = Cell(blockSize: nat, bytes: seq<Byte>)

  function Overhead(): nat {
    BLOCK_HEADER_SIZE + BLOCK_FOOTER_SIZE
  }

  // The requests whose block size does not overflow.
  predicate Fits(size: nat) {
    size + Overhead() <= HALF
  }

  lemma BlockHoldsRequest(size: nat)
    requires Fits(size)
    ensures BlockSizeFor(size) >= size + Overhead()
  {
    BlockSizeLeastIff(size);
  }

  // For larger requests the block of the allocator chosen, which is never smaller than a
  // link, does not hold the request with its header and footer: nothing is promised.
  lemma BlockHoldsIff(size: nat)
    requires size <= SIZE_MAX
    ensures Pool.BlockSize(BlockSizeFor(size)) >= size + Overhead() <==> Fits(size)
  {
    if Fits(size) {
      BlockHoldsRequest(size);
    } else {
      RoundedSmall((size + Overhead()) % (SIZE_MAX + 1));
    }
    hide Rounded;
  }

  class XMemory {
    var held: map<int, Cell>
    var free: map<nat, seq<int>>

    ghost predicate Valid()
      reads this
    {
      && 0 !in held
      && (forall p | p in held :: held[p].blockSize >= Overhead() && |held[p].bytes| == held[p].blockSize - Overhead())
      && (forall b, i | b in free && 0 <= i < |free[b]| :: free[b][i] != 0 && free[b][i] !in held)
      && (forall b, i, j | b in free && 0 <= i < j < |free[b]| :: free[b][i] != free[b][j])
      && (forall b, c, i, j | b in free && c in free && b != c && 0 <= i < |free[b]| && 0 <= j < |free[c]| ::
            free[b][i] != free[c][j])
    }

    // heap is the address a new block would have; junk is what the block contains.
    method XMalloc(size: nat, heap: int, junk: nat -> Byte) returns (p: int)
      requires Valid() && Fits(size)
      requires heap != 0 && heap !in held && forall b | b in free :: heap !in free[b]
      modifies this
      ensures Valid()
      ensures p != 0 && p !in old(held) && held.Keys == old(held).Keys + {p}
      ensures forall q | q in old(held) :: q in held && held[q] == old(held)[q]
      ensures held[p].blockSize == BlockSizeFor(size) && |held[p].bytes| >= size
      ensures var b := BlockSizeFor(size);
              if b in old(free) && old(free)[b] != [] then
                p == old(free)[b][0] && free == old(free)[b := old(free)[b][1..]]
              else p == heap && free == old(free)
    {
      BlockHoldsRequest(size);
      var blockSize := BlockSizeFor(size);
      hide Fits, BlockSizeFor;
      if blockSize in free && free[blockSize] != [] {
        p := free[blockSize][0];
        free := free[blockSize := free[blockSize][1..]];
      } else {
        p := heap;
      }
      held := held[p := Cell(blockSize, seq(blockSize - Overhead(), junk))];
    }

    method XFree(p: int)
      requires Valid() && (p == 0 || p in held)
      modifies this
      ensures Valid() && held == old(held) - {p}
      ensures p != 0 ==> var b := old(held)[p].blockSize;
                free == old(free)[b := [p] + if b in old(free) then old(free)[b] else []]
      ensures p == 0 ==> free == old(free)
    {
      if p == 0 {
        return;
      }
      var b := held[p].blockSize;
      var list := if b in free then free[b] else [];
      free := free[b := [p] + list];
      held := held - {p};
    }

    // The caller's bytes are kept, as many as fit in the new request.
    method XRealloc(oldMem: int, size: nat, heap: int, junk: nat -> Byte) returns (p: int)
      requires Valid() && Fits(size) && (oldMem == 0 || oldMem in held)
      requires heap != 0 && heap !in held && forall b | b in free :: heap !in free[b]
      modifies this
      ensures Valid()
      ensures oldMem != 0 && size == 0 ==> p == 0 && held == old(held) - {oldMem}
      ensures oldMem == 0 || size > 0 ==>
                && p in held && p !in old(held) && held.Keys == old(held).Keys + {p} - {oldMem}
                && held[p].blockSize == BlockSizeFor(size) && |held[p].bytes| >= size
      ensures oldMem != 0 && size > 0 ==>
                forall i | 0 <= i < size && i < |old(held)[oldMem].bytes| ::
                  held[p].bytes[i] == old(held)[oldMem].bytes[i]
      ensures oldMem != 0 ==>
                var b := old(held)[oldMem].blockSize; b in free && free[b] != [] && free[b][0] == oldMem
      ensures forall q | q in old(held) && q != oldMem :: q in held && held[q] == old(held)[q]
    {
      hide BlockSizeFor, Fits;
      if oldMem == 0 {
        p := XMalloc(size, heap, junk);
      } else if size == 0 {
        XFree(oldMem);
        p := 0;
      } else {
        p := XMalloc(size, heap, junk);
        var oldSize := |held[oldMem].bytes|;
        Copy(oldMem, p, if oldSize < size then oldSize else size);
        XFree(oldMem);
      }
    }

    // memcpy of the first n bytes.
    method Copy(from: int, to: int, n: nat)
      requires Valid() && from in held && to in held && from != to
      requires n <= |held[from].bytes| && n <= |held[to].bytes|
      modifies `held
      ensures Valid() && held.Keys == old(held).Keys
      ensures held[to].blockSize == old(held)[to].blockSize && |held[to].bytes| == |old(held)[to].bytes|
      ensures forall i | 0 <= i < |held[to].bytes| ::
                held[to].bytes[i] == if i < n then old(held)[from].bytes[i] else old(held)[to].bytes[i]
      ensures forall q | q in held && q != to :: held[q] == old(held)[q]
    {
      var c := held[to];
      held := held[to := c.(bytes := held[from].bytes[..n] + c.bytes[n..])];
    }
  }
}
