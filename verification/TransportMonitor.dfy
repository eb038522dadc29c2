// TransportMonitor: the map of unacknowledged messages, its capacity bound, and the
// multi-pass drain of expired entries.

module MonitorKeys {
  import opened Packets

  type Key = int

  // (remoteId << 16) | seqNum
  function MakeKey(id: Id, s: SeqNum): Key {
    id * 0x1_0000 + s
  }

  function KeyId(k: Key): Id {
    k / 0x1_0000 % 0x1_0000
  }

  function KeySeq(k: Key): SeqNum {
    k % 0x1_0000
  }

  ghost predicate IsKey(k: Key) {
    0 <= k < 0x1_0000_0000
  }

  lemma KeyFromParts(k: Key)
    requires IsKey(k)
    ensures MakeKey(KeyId(k), KeySeq(k)) == k
  {}

  // A key names its id and sequence number.
  lemma KeyParts(id: Id, s: SeqNum)
    ensures KeyId(MakeKey(id, s)) == id && KeySeq(MakeKey(id, s)) == s
  {}

  lemma MakeKeyInjective(i: Id, s: SeqNum, j: Id, t: SeqNum)
    ensures MakeKey(i, s) == MakeKey(j, t) <==> i == j && s == t
  {}

  // Keys are ordered by id, and then by sequence number.
  lemma KeyOrder(i: Id, s: SeqNum, j: Id, t: SeqNum)
    ensures MakeKey(i, s) < MakeKey(j, t) <==> i < j || (i == j && s < t)
  {
    assert i < j ==> (i + 1) * 0x1_0000 <= j * 0x1_0000;
    assert j < i ==> (j + 1) * 0x1_0000 <= i * 0x1_0000;
  }

  ghost predicate Rising(s: seq<Key>) {
    forall i, j | 0 <= i < j < |s| :: s[i] < s[j]
  }

  function Elements(s: seq<Key>): set<Key> {
    set k | k in s
  }

  lemma {:induction false} RisingCount(s: seq<Key>)
    requires Rising(s)
    ensures |Elements(s)| == |s|
  {
    if s != [] {
      var p := s[..|s| - 1];
      RisingCount(p);
      assert s == p + [s[|s| - 1]];
      assert Elements(s) == Elements(p) + {s[|s| - 1]};
      assert s[|s| - 1] !in Elements(p);
    }
  }

  lemma {:induction false} LeastExists(s: set<Key>) returns (k: Key)
    requires s != {}
    ensures k in s && forall j | j in s :: k <= j
  {
    assert (forall x :: x !in s) ==> s == {};
    var x :| x in s;
    if s == {x} {
      k := x;
    } else {
      var m := LeastExists(s - {x});
      k := if x < m then x else m;
      assert forall j | j in s :: j == x || j in s - {x};
    }
  }

  lemma HasLeast(s: set<Key>)
    requires s != {}
    ensures exists k :: k in s && forall j | j in s :: k <= j
  {
    var m := LeastExists(s);
  }

  // The first key of an ordered map's key set.
  function Least(s: set<Key>): (k: Key)
    requires s != {}
    ensures k in s && forall j | j in s :: k <= j
  {
    HasLeast(s);
    var k :| k in s && forall j | j in s :: k <= j;
    k
  }
}

module TransportMonitors {
  import opened Options
  import opened Packets
  import opened MonitorKeys

  const MAX_TIMER_EXPIRED: nat := 16

  // The most entries the map may hold.
  type Cap = n: nat | n > 0 witness 100

  datatype TimeoutData = TimeoutData(remoteId: Id, seqNum: SeqNum, timeStamp: int)

  type Pending = map<Key, TimeoutData>

  predicate Expired(d: TimeoutData, now: int, timeout: int) {
    now - d.timeStamp > timeout
  }

  function ExpiredKeys(p: Pending, now: int, timeout: int): set<Key> {
    set k | k in p && Expired(p[k], now, timeout)
  }

  // The keys an acknowledgement carrying only a sequence number may stand for.
  function Matching(p: Pending, s: SeqNum): set<Key> {
    set k | k in p && p[k].seqNum == s
  }

  // The entry an acknowledgement removes: by exact key, or without a remote id the
  // first entry in key order with that sequence number.
  function Acknowledged(p: Pending, s: SeqNum, id: Id): Option<Key> {
    if id != 0 then (if MakeKey(id, s) in p then Some(MakeKey(id, s)) else None)
    else if Matching(p, s) == {} then None else Some(Least(Matching(p, s)))
  }

  ghost predicate WellKeyed(p: Pending) {
    forall k | k in p :: k == MakeKey(p[k].remoteId, p[k].seqNum)
  }

  function Count(s: seq<Key>, k: Key): nat {
    if s == [] then 0 else Count(s[..|s| - 1], k) + if s[|s| - 1] == k then 1 else 0
  }

  lemma CountSnoc(s: seq<Key>, x: Key, k: Key)
    ensures Count(s + [x], k) == Count(s, k) + if x == k then 1 else 0
  {
    assert (s + [x])[..|s|] == s;
  }

  function One(b: bool): nat {
    if b then 1 else 0
  }

  // Every fresh add of a key is pending, or in a batch whose report is owed, or was
  // ended by one success or timeout.
  ghost predicate Balanced(added: seq<Key>, pending: set<Key>, owed: set<Key>, successes: seq<Key>,
                           timeouts: seq<Key>)
  {
    forall k :: Count(added, k) == One(k in pending) + One(k in owed) + Count(successes, k) + Count(timeouts, k)
  }

  lemma BalancedSteps(added: seq<Key>, pending: set<Key>, owed: set<Key>, successes: seq<Key>, timeouts: seq<Key>,
                      x: Key)
    requires Balanced(added, pending, owed, successes, timeouts)
    ensures x !in pending ==> Balanced(added + [x], pending + {x}, owed, successes, timeouts)
    ensures x in pending ==> Balanced(added, pending - {x}, owed, successes + [x], timeouts)
    ensures x in owed ==> Balanced(added, pending, owed - {x}, successes, timeouts + [x])
  {
    forall k
      ensures Count(added + [x], k) == Count(added, k) + if x == k then 1 else 0
      ensures Count(successes + [x], k) == Count(successes, k) + if x == k then 1 else 0
      ensures Count(timeouts + [x], k) == Count(timeouts, k) + if x == k then 1 else 0
    {
      CountSnoc(added, x, k);
      CountSnoc(successes, x, k);
      CountSnoc(timeouts, x, k);
    }
  }

  lemma BalancedSweep(added: seq<Key>, pending: set<Key>, successes: seq<Key>, timeouts: seq<Key>, items: set<Key>)
    requires Balanced(added, pending, {}, successes, timeouts) && items <= pending
    ensures Balanced(added, pending - items, items, successes, timeouts)
  {}

  // The monitor's map, with its history: accepted adds of a key that was not pending,
  // and the SUCCESS and TIMEOUT statuses fired, each oldest first.
  datatype Monitor = Monitor(pending: Pending, added: seq<Key>, successes: seq<Key>, timeouts: seq<Key>)

  // The map after an Add, which has no effect when the map is full.
  function Admit(p: Pending, cap: Cap, s: SeqNum, id: Id, now: int): Pending {
    if |p| >= cap then p else p[MakeKey(id, s) := TimeoutData(id, s, now)]
  }

  function AddTo(m: Monitor, cap: Cap, s: SeqNum, id: Id, now: int): Monitor {
    var key := MakeKey(id, s);
    m.(pending := Admit(m.pending, cap, s, id, now),
       added := if |m.pending| >= cap || key in m.pending then m.added else m.added + [key])
  }

  function RemoveFrom(m: Monitor, s: SeqNum, id: Id): Monitor {
    var k := Acknowledged(m.pending, s, id);
    if k.None? then m else m.(pending := m.pending - {k.value}, successes := m.successes + [k.value])
  }

  // The cap is never exceeded, and every accepted fresh add is still pending, or in
  // a batch whose report is owed, or has been reported once, as a success or as a
  // timeout.
  ghost predicate Sound(m: Monitor, cap: Cap, owed: set<Key>) {
    && |m.pending| <= cap
    && WellKeyed(m.pending)
    && (forall k | k in owed :: IsKey(k))
    && Balanced(m.added, m.pending.Keys, owed, m.successes, m.timeouts)
  }

  lemma AddKeepsSound(m: Monitor, cap: Cap, owed: set<Key>, s: SeqNum, id: Id, now: int)
    requires Sound(m, cap, owed)
    ensures Sound(AddTo(m, cap, s, id, now), cap, owed)
  {
    hide Balanced, WellKeyed, MakeKey, IsKey;
    var key := MakeKey(id, s);
    if |m.pending| < cap {
      var p := m.pending[key := TimeoutData(id, s, now)];
      MapSet(m.pending, key, TimeoutData(id, s, now));
      KeyedSet(m.pending, id, s, now);
      BalancedSteps(m.added, m.pending.Keys, owed, m.successes, m.timeouts, key);
      assert p.Keys == m.pending.Keys + {key};
      assert key in m.pending ==> p.Keys == m.pending.Keys;
    }
  }

  lemma KeyedSet(p: Pending, id: Id, s: SeqNum, now: int)
    requires WellKeyed(p)
    ensures WellKeyed(p[MakeKey(id, s) := TimeoutData(id, s, now)])
  {}

  lemma RemoveKeepsSound(m: Monitor, cap: Cap, owed: set<Key>, s: SeqNum, id: Id)
    requires Sound(m, cap, owed)
    ensures Sound(RemoveFrom(m, s, id), cap, owed)
  {
    var k := Acknowledged(m.pending, s, id);
    if k.Some? {
      AcknowledgedPending(m.pending, s, id);
      MapLess(m.pending, k.value);
      BalancedSteps(m.added, m.pending.Keys, owed, m.successes, m.timeouts, k.value);
      hide Balanced, Acknowledged;
      assert (m.pending - {k.value}).Keys == m.pending.Keys - {k.value};
    }
  }

  // Moving entries to the batch leaves them owed.
  lemma SweepKeepsSound(m: Monitor, cap: Cap, items: seq<Key>)
    requires Sound(m, cap, {}) && Rising(items) && Elements(items) <= m.pending.Keys
    ensures Sound(m.(pending := m.pending - Elements(items)), cap, Elements(items))
    ensures |m.pending - Elements(items)| + |items| <= cap
  {
    var p := m.pending - Elements(items);
    RisingCount(items);
    assert forall k | k in Elements(items) :: k in m.pending && IsKey(k);
    BalancedSweep(m.added, m.pending.Keys, m.successes, m.timeouts, Elements(items));
    hide Balanced, Elements;
    assert p.Keys == m.pending.Keys - Elements(items);
    assert p.Keys + Elements(items) == m.pending.Keys;
    assert |p.Keys + Elements(items)| == |p.Keys| + |Elements(items)|;
  }

  lemma FireKeepsSound(m: Monitor, cap: Cap, owed: set<Key>, key: Key)
    requires Sound(m, cap, owed) && key in owed
    ensures Sound(m.(timeouts := m.timeouts + [key]), cap, owed - {key})
    ensures IsKey(key)
  {
    BalancedSteps(m.added, m.pending.Keys, owed, m.successes, m.timeouts, key);
    hide Balanced;
  }

  // What Process leaves: expired entries go unless their subscriber re-added them.
  ghost predicate Drained(p: Pending, q: Pending, now: int, timeout: int, readd: set<Key>) {
    && (forall k :: k in q <==> k in p && (Expired(p[k], now, timeout) ==> k in readd))
    && (forall k | k in q :: q[k] == if Expired(p[k], now, timeout) then p[k].(timeStamp := now) else p[k])
  }

  class TransportMonitor {
    const timeout: int
    const cap: Cap
    var pending: Pending
    ghost var added: seq<Key>
    ghost var successes: seq<Key>
    ghost var timeouts: seq<Key>

    ghost function State(): Monitor
      reads this
    {
      Monitor(pending, added, successes, timeouts)
    }

    ghost predicate Valid()
      reads this
    {
      timeout >= 0 && Sound(State(), cap, {})
    }

    constructor (timeout: int, cap: Cap)
      requires timeout >= 0
      ensures Valid() && State() == Monitor(map[], [], [], []) && this.timeout == timeout && this.cap == cap
    {
      this.timeout, this.cap, pending := timeout, cap, map[];
      added, successes, timeouts := [], [], [];
    }

    method Add(s: SeqNum, id: Id, now: int, ghost owed: set<Key> := {}) returns (ok: bool)
      modifies `pending, `added
      ensures ok <==> |old(pending)| < cap
      ensures pending == if ok then old(pending)[MakeKey(id, s) := TimeoutData(id, s, now)] else old(pending)
      ensures added == if ok && MakeKey(id, s) !in old(pending) then old(added) + [MakeKey(id, s)] else old(added)
      ensures State() == AddTo(old(State()), cap, s, id, now)
      ensures old(Sound(State(), cap, owed)) ==> Sound(State(), cap, owed)
    {
      hide Sound;
      if Sound(State(), cap, owed) {
        AddKeepsSound(State(), cap, owed, s, id, now);
      }
      var capSize := 0;
      var key := MakeKey(id, s);
      if |pending| >= cap {
        capSize := |pending|;
      } else {
        added := if key in pending then added else added + [key];
        pending := pending[key := TimeoutData(id, s, now)];
      }
      return !(capSize > 0);
    }

    // Reports the key whose SUCCESS status is fired, if any.
    method Remove(s: SeqNum, id: Id) returns (reported: Option<Key>)
      requires Valid()
      modifies `pending, `successes
      ensures Valid()
      ensures id != 0 ==> reported == if MakeKey(id, s) in old(pending) then Some(MakeKey(id, s)) else None
      ensures id == 0 ==> (reported == None <==> forall k | k in old(pending) :: old(pending)[k].seqNum != s)
      ensures id == 0 && reported.Some? ==>
                && reported.value in old(pending) && old(pending)[reported.value].seqNum == s
                && forall k | k in old(pending) && old(pending)[k].seqNum == s :: reported.value <= k
      ensures pending == if reported.Some? then old(pending) - {reported.value} else old(pending)
      ensures successes == old(successes) + if reported.Some? then [reported.value] else []
      ensures State() == RemoveFrom(old(State()), s, id)
    {
      RemoveKeepsSound(State(), cap, {}, s, id);
      hide Sound;
      if id != 0 {
        reported := if MakeKey(id, s) in pending then Some(MakeKey(id, s)) else None;
      } else {
        reported := ScanFor(s);
      }
      if reported.Some? {
        pending := pending - {reported.value};
        successes := successes + [reported.value];
      }
    }

    // The scan for an acknowledgement without a remote id.
    method ScanFor(s: SeqNum) returns (found: Option<Key>)
      ensures found == None <==> forall k | k in pending :: pending[k].seqNum != s
      ensures found.Some? ==> found.value in pending && pending[found.value].seqNum == s
      ensures found.Some? ==> forall k | k in pending && pending[k].seqNum == s :: found.value <= k
      ensures found == Acknowledged(pending, s, 0)
    {
      found := None;
      var rest := pending.Keys;
      while rest != {}
        invariant rest <= pending.Keys
        invariant Matching(pending, s) <= rest
        invariant forall k | k in pending && pending[k].seqNum == s :: k in rest
      {
        var it := Least(rest);
        if pending[it].seqNum == s {
          assert it in Matching(pending, s);
          return Some(it);
        }
        rest := rest - {it};
      }
    }

    // One pass of Process under the lock: up to sixteen expired entries, in key order,
    // are moved to the batch.
    method Sweep(now: int) returns (items: seq<Key>, remaining: nat)
      modifies `pending
      ensures forall k | k in items :: k in old(pending) && now - old(pending)[k].timeStamp > timeout && k !in pending
      ensures forall k | k in pending :: k in old(pending) && pending[k] == old(pending)[k]
      ensures forall k | k in old(pending) && k !in items :: k in pending
      ensures forall k | k in pending && now - pending[k].timeStamp > timeout ::
                |items| == MAX_TIMER_EXPIRED && forall i | 0 <= i < |items| :: items[i] < k
      ensures Rising(items) && |items| <= MAX_TIMER_EXPIRED
      ensures IsBatch(items, ExpiredKeys(old(pending), now, timeout))
      ensures pending == old(pending) - Elements(items)
      ensures remaining == if |ExpiredKeys(old(pending), now, timeout)| > |items| then |pending| else 0
    {
      ghost var all := ExpiredKeys(pending, now, timeout);
      ghost var was := pending;
      items, remaining := [], 0;
      var rest := pending.Keys;
      assert pending == was - Elements(items);
      while rest != {}
        invariant rest <= was.Keys
        invariant pending == was - Elements(items)
        invariant Elements(items) == all - rest && Rising(items)
        invariant forall i, k | 0 <= i < |items| && k in rest :: items[i] < k
        invariant |items| <= MAX_TIMER_EXPIRED && remaining == 0
      {
        var it := Least(rest);
        assert it in pending && pending[it] == was[it];
        if Expired(pending[it], now, timeout) {
          if |items| >= MAX_TIMER_EXPIRED {
            remaining := |pending|;
            FullBatch(items, all, rest, it);
            SweptAges(was, pending, items, now, timeout);
            return;
          }
          assert Elements(items + [it]) == Elements(items) + {it};
          items := items + [it];
          pending := pending - {it};
        }
        rest := rest - {it};
      }
      WholeBatch(items, all);
      SweptAges(was, pending, items, now, timeout);
    }

    // One TIMEOUT callback, fired without the lock; the subscriber may re-add the key.
    method FireTimeout(key: Key, now: int, again: bool, ghost owed: set<Key>)
      requires Sound(State(), cap, owed) && key in owed && |pending| < cap
      modifies `pending, `added, `timeouts
      ensures Sound(State(), cap, owed - {key})
      ensures pending == if again then old(pending)[key := TimeoutData(KeyId(key), KeySeq(key), now)] else old(pending)
      ensures timeouts == old(timeouts) + [key]
    {
      FireKeepsSound(State(), cap, owed, key);
      hide Sound;
      timeouts := timeouts + [key];
      if again {
        KeyFromParts(key);
        var added := Add(KeySeq(key), KeyId(key), now, owed - {key});
      }
    }

    // The first i entries of a batch have been reported.
    ghost predicate Firing(items: seq<Key>, i: nat, base: Pending, log: seq<Key>, now: int, readd: set<Key>)
      reads this
    {
      && i <= |items| && Rising(items)
      && (forall k | k in items :: k !in base)
      && |pending| + |items| - i <= cap
      && ReAdded(base, pending, items[..i], now, readd)
      && Sound(State(), cap, Elements(items[i..]))
      && timeouts == log + items[..i]
    }

    method FireNext(items: seq<Key>, i: nat, now: int, readd: set<Key>, ghost base: Pending, ghost log: seq<Key>)
      requires Firing(items, i, base, log, now, readd) && i < |items|
      modifies `pending, `added, `timeouts
      ensures Firing(items, i + 1, base, log, now, readd)
    {
      hide Sound, Elements, ReAdded;
      NextOwed(items, i);
      assert items[..i + 1] == items[..i] + [items[i]];
      ghost var before := pending;
      FireTimeout(items[i], now, items[i] in readd, Elements(items[i..]));
      ReAddNext(base, before, pending, items, i, now, readd);
    }

    // The callbacks of one pass: the subscriber is told of each entry of the batch and
    // re-adds those that readd selects.
    method Report(items: seq<Key>, now: int, readd: set<Key>)
      requires Sound(State(), cap, Elements(items)) && Rising(items) && |pending| + |items| <= cap
      requires forall k | k in items :: k !in pending
      modifies `pending, `added, `timeouts
      ensures Sound(State(), cap, {})
      ensures ReAdded(old(pending), pending, items, now, readd)
      ensures timeouts == old(timeouts) + items
    {
      assert items[0..] == items && items[..0] == [];
      assert forall k | k in items :: k in Elements(items);
      ReAddedNone(pending, now, readd);
      hide Firing;
      assert Firing(items, 0, pending, timeouts, now, readd) by { FiringStarts(items, now, readd); }
      var i := 0;
      while i < |items|
        invariant 0 <= i <= |items|
        invariant Firing(items, i, old(pending), old(timeouts), now, readd)
      {
        FireNext(items, i, now, readd, old(pending), old(timeouts));
        i := i + 1;
      }
      FiringEnds(items, now, readd, old(pending), old(timeouts));
    }

    // Part of the way through Process, which started from was and log.
    ghost predicate Partway(was: Pending, log: seq<Key>, reported: seq<Key>, now: int, readd: set<Key>)
      reads this
    {
      && Valid() && WellKeyed(was)
      && Draining(was, pending, reported, now, timeout, readd)
      && timeouts == log + reported
    }

    lemma PartwayStarts(now: int, readd: set<Key>)
      requires Valid()
      ensures Partway(pending, timeouts, [], now, readd)
    {
      DrainingStarts(pending, now, timeout, readd);
      assert timeouts == timeouts + [];
      assert WellKeyed(pending);
    }

    lemma PartwayEnds(was: Pending, log: seq<Key>, reported: seq<Key>, now: int, readd: set<Key>)
      requires Partway(was, log, reported, now, readd)
      requires pending == map[] || ExpiredKeys(pending, now, timeout) == {}
      ensures Valid()
      ensures Rising(reported) && Elements(reported) == ExpiredKeys(was, now, timeout)
      ensures |reported| == |ExpiredKeys(was, now, timeout)|
      ensures timeouts == log + reported
      ensures Drained(was, pending, now, timeout, readd)
      ensures ExpiredKeys(pending, now, timeout) == {}
    {
      hide ExpiredKeys, Elements, Rising, Drained, Draining, Sound;
      DrainingDone(was, pending, reported, now, timeout, readd);
    }

    // Drains every expired entry over as many passes as it takes, all at the clock value
    // now; readd is the set of keys the subscriber re-adds when told of their timeout.
    method Process(now: int, readd: set<Key>) returns (reported: seq<Key>, passes: nat)
      requires Valid()
      modifies `pending, `added, `timeouts
      ensures Valid()
      ensures Rising(reported) && Elements(reported) == ExpiredKeys(old(pending), now, timeout)
      ensures timeouts == old(timeouts) + reported
      ensures Drained(old(pending), pending, now, timeout, readd)
      ensures ExpiredKeys(pending, now, timeout) == {}
      ensures forall k :: k in reported <==> k in old(pending) && now - old(pending)[k].timeStamp > timeout
      ensures forall k :: k in pending <==>
                k in old(pending) && (now - old(pending)[k].timeStamp > timeout ==> k in readd)
      ensures forall k | k in pending :: now - pending[k].timeStamp <= timeout
      ensures passes == |reported| / MAX_TIMER_EXPIRED + 1
      ensures passes == |ExpiredKeys(old(pending), now, timeout)| / MAX_TIMER_EXPIRED + 1
    {
      hide Partway, Draining, Drained, Sound, ExpiredKeys, Elements, Rising, Valid;
      reported, passes := [], 0;
      ghost var was, log := pending, timeouts;
      PartwayStarts(now, readd);
      while true
        invariant Partway(was, log, reported, now, readd)
        invariant |reported| == MAX_TIMER_EXPIRED * passes
        decreases |ExpiredKeys(was, now, timeout)| - |reported|
      {
        passes := passes + 1;
        if pending == map[] {
          break;
        }
        var items, remaining := ProcessPass(now, readd, was, log, reported);
        reported := reported + items;
        if |items| != MAX_TIMER_EXPIRED {
          break;
        }
      }
      PartwayEnds(was, log, reported, now, readd);
      DrainedAges(was, pending, reported, now, timeout, readd);
    }

    // One turn of Process's loop: the locked sweep, then its callbacks.
    method ProcessPass(now: int, readd: set<Key>, ghost was: Pending, ghost log: seq<Key>, ghost reported: seq<Key>)
      returns (items: seq<Key>, remaining: nat)
      requires Partway(was, log, reported, now, readd)
      modifies `pending, `added, `timeouts
      ensures Partway(was, log, reported + items, now, readd)
      ensures |items| <= MAX_TIMER_EXPIRED
      ensures |items| < MAX_TIMER_EXPIRED ==> ExpiredKeys(pending, now, timeout) == {}
      ensures |reported + items| <= |ExpiredKeys(was, now, timeout)|
    {
      hide Draining, Sound, ExpiredKeys, Elements, IsBatch, ReAdded, WellKeyed, Rising;
      ghost var p, before := pending, State();
      items, remaining := Sweep(now);
      assert State() == before.(pending := p - Elements(items));
      BatchPending(p, items, now, timeout);
      SweptGone(p, items);
      SweepKeepsSound(before, cap, items);
      Report(items, now, readd);
      DrainPass(was, p, pending, reported, items, now, timeout, readd);
      DrainingCount(was, pending, reported + items, now, timeout, readd);
      assert timeouts == log + (reported + items);
    }

    lemma FiringStarts(items: seq<Key>, now: int, readd: set<Key>)
      requires Sound(State(), cap, Elements(items)) && Rising(items) && |pending| + |items| <= cap
      requires forall k | k in items :: k !in pending
      ensures Firing(items, 0, pending, timeouts, now, readd)
    {
      assert items[0..] == items && items[..0] == [];
      assert forall k | k in items :: k in Elements(items);
      ReAddedNone(pending, now, readd);
    }

    lemma FiringEnds(items: seq<Key>, now: int, readd: set<Key>, base: Pending, log: seq<Key>)
      requires Firing(items, |items|, base, log, now, readd)
      ensures Sound(State(), cap, {})
      ensures ReAdded(base, pending, items, now, readd)
      ensures timeouts == log + items
    {
      assert items[..|items|] == items && items[|items|..] == [];
      NoElements();
    }
  }

  // What Process promises, in terms of the entries' ages.
  lemma DrainedAges(was: Pending, p: Pending, reported: seq<Key>, now: int, timeout: int, readd: set<Key>)
    requires Elements(reported) == ExpiredKeys(was, now, timeout)
    requires Drained(was, p, now, timeout, readd) && ExpiredKeys(p, now, timeout) == {}
    ensures forall k :: k in reported <==> k in was && now - was[k].timeStamp > timeout
    ensures forall k :: k in p <==> k in was && (now - was[k].timeStamp > timeout ==> k in readd)
    ensures forall k | k in p :: now - p[k].timeStamp <= timeout
  {
    assert forall k :: k in reported <==> k in Elements(reported);
    assert forall k :: k in ExpiredKeys(was, now, timeout) <==> k in was && now - was[k].timeStamp > timeout;
    assert forall k | k in p :: k !in ExpiredKeys(p, now, timeout);
  }

  lemma NoElements()
    ensures Elements([]) == {}
  {}

  // The map after the callbacks for done, from the map before them.
  ghost predicate ReAdded(base: Pending, q: Pending, done: seq<Key>, now: int, readd: set<Key>) {
    && (forall k :: k in q <==> k in base || (k in done && k in readd))
    && (forall k | k in q :: q[k] == if k in base then base[k] else TimeoutData(KeyId(k), KeySeq(k), now))
  }

  lemma ReAddedNone(base: Pending, now: int, readd: set<Key>)
    ensures ReAdded(base, base, [], now, readd)
  {}

  lemma NextOwed(items: seq<Key>, i: nat)
    requires Rising(items) && i < |items|
    ensures items[i] in Elements(items[i..]) && Elements(items[i + 1..]) == Elements(items[i..]) - {items[i]}
    ensures items[i] !in items[..i]
  {
    assert items[i..] == [items[i]] + items[i + 1..];
  }

  lemma ReAddNext(base: Pending, p: Pending, q: Pending, items: seq<Key>, i: nat, now: int, readd: set<Key>)
    requires i < |items| && items[i] !in base && items[i] !in items[..i]
    requires ReAdded(base, p, items[..i], now, readd)
    requires q == if items[i] in readd then p[items[i] := TimeoutData(KeyId(items[i]), KeySeq(items[i]), now)] else p
    ensures ReAdded(base, q, items[..i + 1], now, readd)
  {
    assert items[..i + 1] == items[..i] + [items[i]];
  }

  // reported lists, in order, the first of the keys in all; those to come are larger.
  ghost predicate ToldInOrder(all: set<Key>, reported: seq<Key>) {
    && Rising(reported) && Elements(reported) <= all
    && (forall r, e | r in reported && e in all && e !in reported :: r < e)
  }

  // The map once the keys in reported have expired: re-added ones carry the time now.
  ghost predicate Holding(was: Pending, p: Pending, reported: seq<Key>, now: int, readd: set<Key>) {
    && (forall k :: k in p <==> k in was && (k in reported ==> k in readd))
    && (forall k | k in p :: p[k] == if k in reported then was[k].(timeStamp := now) else was[k])
  }

  // Part of the way through Process.
  ghost predicate Draining(was: Pending, p: Pending, reported: seq<Key>, now: int, timeout: int, readd: set<Key>) {
    && ToldInOrder(ExpiredKeys(was, now, timeout), reported)
    && ExpiredKeys(p, now, timeout) == ExpiredKeys(was, now, timeout) - Elements(reported)
    && Holding(was, p, reported, now, readd)
  }

  lemma DrainingStarts(was: Pending, now: int, timeout: int, readd: set<Key>)
    ensures Draining(was, was, [], now, timeout, readd)
  {}

  lemma BatchPending(p: Pending, items: seq<Key>, now: int, timeout: int)
    requires IsBatch(items, ExpiredKeys(p, now, timeout))
    ensures Rising(items) && Elements(items) <= p.Keys && |items| <= MAX_TIMER_EXPIRED
  {}

  lemma SweptGone(p: Pending, items: seq<Key>)
    ensures forall k | k in items :: k !in p - Elements(items)
  {
    assert forall k | k in items :: k in Elements(items);
  }

  // A batch in terms of the entries' ages.
  lemma SweptAges(was: Pending, p: Pending, items: seq<Key>, now: int, timeout: int)
    requires IsBatch(items, ExpiredKeys(was, now, timeout)) && p == was - Elements(items)
    ensures forall k | k in items :: k in was && now - was[k].timeStamp > timeout && k !in p
    ensures forall k | k in p :: k in was && p[k] == was[k]
    ensures forall k | k in was && k !in items :: k in p
    ensures forall k | k in p && now - p[k].timeStamp > timeout ::
              |items| == MAX_TIMER_EXPIRED && forall i | 0 <= i < |items| :: items[i] < k
    ensures Rising(items) && |items| <= MAX_TIMER_EXPIRED
  {
    var all := ExpiredKeys(was, now, timeout);
    assert forall k :: k in items <==> k in Elements(items);
    RisingCount(items);
    if |items| < MAX_TIMER_EXPIRED {
      SameSize(Elements(items), all);
    }
    hide Rising;
    assert forall k | k in p && Expired(p[k], now, timeout) :: k in all - Elements(items);
  }

  // A pass adds its batch to the reported keys.
  lemma DrainPass(was: Pending, p: Pending, q: Pending, reported: seq<Key>, items: seq<Key>, now: int,
                  timeout: int, readd: set<Key>)
    requires timeout >= 0 && WellKeyed(was)
    requires Draining(was, p, reported, now, timeout, readd)
    requires IsBatch(items, ExpiredKeys(p, now, timeout))
    requires ReAdded(p - Elements(items), q, items, now, readd)
    ensures Draining(was, q, reported + items, now, timeout, readd)
    ensures |items| < MAX_TIMER_EXPIRED ==> ExpiredKeys(q, now, timeout) == {}
  {
    var all := ExpiredKeys(was, now, timeout);
    var left := ExpiredKeys(p, now, timeout);
    assert forall k | k in items :: k in Elements(items);
    assert forall k | k in items :: k in all && k !in Elements(reported);
    assert Elements(reported + items) == Elements(reported) + Elements(items);
    assert all - Elements(reported + items) == left - Elements(items);
    assert forall k | k in items :: k in was && k !in reported;
    assert |items| < MAX_TIMER_EXPIRED ==> |items| == |left|;
    assert Rising(items) && Elements(items) <= left;
    hide ExpiredKeys, ReAdded, WellKeyed, ToldInOrder, Holding, Elements;
    DrainOrder(all, reported, items);
    DrainContents(was, p, q, reported, items, now, readd);
    DrainExpired(p, q, items, now, timeout, readd);
    if |items| < MAX_TIMER_EXPIRED {
      RisingCount(items);
      SameSize(Elements(items), left);
    }
  }

  lemma DrainOrder(all: set<Key>, reported: seq<Key>, items: seq<Key>)
    requires ToldInOrder(all, reported) && IsBatch(items, all - Elements(reported))
    ensures ToldInOrder(all, reported + items)
  {
    assert Elements(reported + items) == Elements(reported) + Elements(items);
    var left := all - Elements(reported);
    assert forall k | k in items :: k in Elements(items) && k in left;
    RisingConcat(reported, items);
    forall r, e | r in reported + items && e in all && e !in reported + items
      ensures r < e
    {
      if r in items {
        var i :| 0 <= i < |items| && items[i] == r;
        assert e in left - Elements(items);
      }
    }
  }

  lemma RisingConcat(a: seq<Key>, b: seq<Key>)
    requires Rising(a) && Rising(b)
    requires forall x, y | x in a && y in b :: x < y
    ensures Rising(a + b)
  {
    forall i, j | 0 <= i < j < |a + b|
      ensures (a + b)[i] < (a + b)[j]
    {
      if i < |a| <= j {
        assert a[i] in a && b[j - |a|] in b;
      }
    }
  }

  // What the map holds after the pass, in terms of the map Process started from.
  lemma DrainContents(was: Pending, p: Pending, q: Pending, reported: seq<Key>, items: seq<Key>, now: int,
                      readd: set<Key>)
    requires WellKeyed(was)
    requires forall k | k in items :: k in was && k !in reported
    requires Holding(was, p, reported, now, readd)
    requires ReAdded(p - Elements(items), q, items, now, readd)
    ensures Holding(was, q, reported + items, now, readd)
  {
    var base := p - Elements(items);
    assert forall k :: k in base <==> k in p && k !in items;
    assert forall k :: k in reported + items <==> k in reported || k in items;
    forall k | k in q
      ensures q[k] == if k in reported + items then was[k].(timeStamp := now) else was[k]
    {
      if k in items {
        KeyParts(was[k].remoteId, was[k].seqNum);
      } else {
        assert q[k] == base[k] == p[k];
      }
    }
  }

  // Re-added entries carry the current time, so the pass leaves nothing newly expired.
  lemma DrainExpired(p: Pending, q: Pending, items: seq<Key>, now: int, timeout: int, readd: set<Key>)
    requires timeout >= 0 && ReAdded(p - Elements(items), q, items, now, readd)
    ensures ExpiredKeys(q, now, timeout) == ExpiredKeys(p, now, timeout) - Elements(items)
  {
    var base := p - Elements(items);
    forall k
      ensures k in ExpiredKeys(q, now, timeout) <==> k in ExpiredKeys(p, now, timeout) && k !in Elements(items)
    {
      assert k in base <==> k in p && k !in Elements(items);
      if k in base {
        assert k in q && q[k] == base[k] == p[k];
      } else if k in q {
        assert q[k].timeStamp == now;
      }
    }
  }

  lemma SameSize(a: set<Key>, b: set<Key>)
    requires a <= b && |a| == |b|
    ensures a == b
  {
    assert b == a + (b - a);
  }

  lemma DrainingCount(was: Pending, p: Pending, reported: seq<Key>, now: int, timeout: int, readd: set<Key>)
    requires Draining(was, p, reported, now, timeout, readd)
    ensures |reported| <= |ExpiredKeys(was, now, timeout)|
  {
    var all := ExpiredKeys(was, now, timeout);
    RisingCount(reported);
    assert all == Elements(reported) + (all - Elements(reported));
  }

  lemma DrainingDone(was: Pending, p: Pending, reported: seq<Key>, now: int, timeout: int, readd: set<Key>)
    requires Draining(was, p, reported, now, timeout, readd)
    requires p == map[] || ExpiredKeys(p, now, timeout) == {}
    ensures Elements(reported) == ExpiredKeys(was, now, timeout) && Rising(reported)
    ensures |reported| == |ExpiredKeys(was, now, timeout)|
    ensures ExpiredKeys(p, now, timeout) == {}
    ensures Drained(was, p, now, timeout, readd)
  {
    assert ExpiredKeys(p, now, timeout) == {};
    NoneLeft(ExpiredKeys(was, now, timeout), Elements(reported));
    RisingCount(reported);
    assert forall k :: k in reported <==> k in Elements(reported);
  }

  lemma NoneLeft(all: set<Key>, told: set<Key>)
    requires told <= all && all - told == {}
    ensures told == all
  {
    assert all == told + (all - told);
  }

  // items are the first sixteen of all in key order, or the whole of it.
  ghost predicate IsBatch(items: seq<Key>, all: set<Key>) {
    && Rising(items) && Elements(items) <= all
    && |items| == (if |all| < MAX_TIMER_EXPIRED then |all| else MAX_TIMER_EXPIRED)
    && (forall i, e | 0 <= i < |items| && e in all - Elements(items) :: items[i] < e)
  }

  lemma FullBatch(items: seq<Key>, all: set<Key>, rest: set<Key>, it: Key)
    requires Rising(items) && Elements(items) == all - rest && |items| == MAX_TIMER_EXPIRED
    requires forall i, k | 0 <= i < |items| && k in rest :: items[i] < k
    requires it in rest && it in all
    ensures IsBatch(items, all) && |all| > |items|
  {
    RisingCount(items);
    assert all == Elements(items) + (all * rest);
    assert it in all * rest;
    assert forall e | e in all - Elements(items) :: e in rest;
  }

  lemma WholeBatch(items: seq<Key>, all: set<Key>)
    requires Rising(items) && Elements(items) == all && |items| <= MAX_TIMER_EXPIRED
    ensures IsBatch(items, all) && |all| == |items|
  {
    RisingCount(items);
  }

  lemma AcknowledgedPending(p: Pending, s: SeqNum, id: Id)
    requires Acknowledged(p, s, id).Some?
    ensures Acknowledged(p, s, id).value in p
  {
    if id == 0 {
      assert Least(Matching(p, s)) in Matching(p, s);
    }
  }

  lemma MapSet(p: Pending, k: Key, d: TimeoutData)
    ensures |p[k := d]| == |p| + if k in p then 0 else 1
  {
    assert p[k := d].Keys == p.Keys + {k};
  }

  lemma MapLess(p: Pending, k: Key)
    requires k in p
    ensures |p - {k}| == |p| - 1
  {
    assert (p - {k}).Keys == p.Keys - {k};
  }
}

// The monitor under calls from any number of threads: adds and acknowledgements may come
// at any moment, also between the sweep of a batch and its callbacks.
module MonitorRuns {
  import opened Options
  import opened Packets
  import opened MonitorKeys
  import opened TransportMonitors

  // batch holds the expired entries whose TIMEOUT is not reported yet.
  datatype State = State(monitor: Monitor, batch: seq<Key>)

  datatype Op =
    | Add(seqNum: SeqNum, id: Id, now: int)
    | Remove(seqNum: SeqNum, id: Id)
    | Sweep(now: int) // one locked pass of Process, once the last batch is reported
    | Fire            // the next TIMEOUT of the batch

  datatype Config = Config(timeout: int, cap: Cap)

  ghost predicate Enabled(s: State, op: Op) {
    match op
    case Add(_, _, _) => true
    case Remove(_, _) => true
    case Sweep(_) => s.batch == []
    case Fire => s.batch != []
  }

  // The first sixteen of the keys, in key order.
  function FirstKeys(all: set<Key>, n: nat): (s: seq<Key>)
    ensures Rising(s) && Elements(s) <= all
    ensures |s| == if |all| < n then |all| else n
    ensures forall x, y | x in s && y in all && y !in s :: x < y
    decreases n
  {
    if n == 0 || all == {} then []
    else
      var k := Least(all);
      FirstKeysNext(all, k, FirstKeys(all - {k}, n - 1));
      [k] + FirstKeys(all - {k}, n - 1)
  }

  lemma FirstKeysNext(all: set<Key>, k: Key, s: seq<Key>)
    requires k in all && (forall j | j in all :: k <= j)
    requires Rising(s) && Elements(s) <= all - {k}
    requires forall x, y | x in s && y in all - {k} && y !in s :: x < y
    ensures Rising([k] + s) && Elements([k] + s) <= all
    ensures forall x, y | x in [k] + s && y in all && y !in [k] + s :: x < y
  {
    assert forall x | x in s :: x in Elements(s);
    RisingConcat([k], s);
    assert forall x | x in [k] + s :: x == k || x in s;
  }

  // A sweep is the class's: the batch is that of IsBatch.
  lemma FirstKeysAreBatch(all: set<Key>)
    ensures IsBatch(FirstKeys(all, MAX_TIMER_EXPIRED), all)
  {
    var s := FirstKeys(all, MAX_TIMER_EXPIRED);
    forall i, e | 0 <= i < |s| && e in all - Elements(s)
      ensures s[i] < e
    {
      assert s[i] in s && e !in s;
    }
  }

  function Step(s: State, op: Op, c: Config): State {
    match op
    case Add(seqNum, id, now) => s.(monitor := AddTo(s.monitor, c.cap, seqNum, id, now))
    case Remove(seqNum, id) => s.(monitor := RemoveFrom(s.monitor, seqNum, id))
    case Sweep(now) =>
      var items := FirstKeys(ExpiredKeys(s.monitor.pending, now, c.timeout), MAX_TIMER_EXPIRED);
      State(s.monitor.(pending := s.monitor.pending - Elements(items)), items)
    case Fire =>
      if s.batch == [] then s
      else State(s.monitor.(timeouts := s.monitor.timeouts + [s.batch[0]]), s.batch[1..])
  }

  ghost predicate Run(s: State, ops: seq<Op>, c: Config)
    decreases ops
  {
    ops == [] || (Enabled(s, ops[0]) && Run(Step(s, ops[0], c), ops[1..], c))
  }

  function After(s: State, ops: seq<Op>, c: Config): State
    decreases ops
  {
    if ops == [] then s else After(Step(s, ops[0], c), ops[1..], c)
  }

  const EMPTY := State(Monitor(map[], [], [], []), [])

  ghost predicate Inv(s: State, c: Config) {
    Sound(s.monitor, c.cap, Elements(s.batch)) && Rising(s.batch)
  }

  lemma StepInv(s: State, op: Op, c: Config)
    requires Inv(s, c) && Enabled(s, op)
    ensures Inv(Step(s, op, c), c)
  {
    hide Sound, Rising, Elements, AddTo, RemoveFrom;
    match op {
      case Add(seqNum, id, now) => AddKeepsSound(s.monitor, c.cap, Elements(s.batch), seqNum, id, now);
      case Remove(seqNum, id) => RemoveKeepsSound(s.monitor, c.cap, Elements(s.batch), seqNum, id);
      case Sweep(now) => SweepInv(s, now, c);
      case Fire => FireInv(s, c);
    }
  }

  lemma SweepInv(s: State, now: int, c: Config)
    requires Inv(s, c) && s.batch == []
    ensures Inv(Step(s, Sweep(now), c), c)
  {
    NoElements();
    var all := ExpiredKeys(s.monitor.pending, now, c.timeout);
    assert all <= s.monitor.pending.Keys;
    hide Sound, Rising, Elements, ExpiredKeys, FirstKeys;
    SweepKeepsSound(s.monitor, c.cap, FirstKeys(all, MAX_TIMER_EXPIRED));
  }

  lemma FireInv(s: State, c: Config)
    requires Inv(s, c) && s.batch != []
    ensures Inv(Step(s, Fire, c), c)
  {
    NextOwed(s.batch, 0);
    assert s.batch[0..] == s.batch;
    assert Rising(s.batch[1..]);
    hide Sound, Rising, Elements;
    FireKeepsSound(s.monitor, c.cap, Elements(s.batch), s.batch[0]);
  }

  lemma {:induction false} RunInv(s: State, ops: seq<Op>, c: Config)
    requires Inv(s, c) && Run(s, ops, c)
    ensures Inv(After(s, ops, c), c)
    decreases ops
  {
    hide Inv, Step, Enabled;
    if ops != [] {
      StepInv(s, ops[0], c);
      RunInv(Step(s, ops[0], c), ops[1..], c);
    }
  }

  lemma Reachable(ops: seq<Op>, c: Config)
    requires Run(EMPTY, ops, c)
    ensures Inv(After(EMPTY, ops, c), c)
  {
    assert Inv(EMPTY, c) by {
      NoElements();
    }
    RunInv(EMPTY, ops, c);
  }

  // In every run the map stays within its cap, and each fresh add of a key has come to
  // exactly one of: pending, its timeout about to be reported, SUCCESS, or TIMEOUT.
  lemma EveryAddAccountedFor(ops: seq<Op>, c: Config, k: Key)
    requires Run(EMPTY, ops, c)
    ensures var s := After(EMPTY, ops, c); var m := s.monitor;
      && |m.pending| <= c.cap
      && Count(m.added, k) == One(k in m.pending) + One(k in s.batch) + Count(m.successes, k) + Count(m.timeouts, k)
  {
    Reachable(ops, c);
    hide Run, After, Count, Rising;
    var s := After(EMPTY, ops, c);
    assert k in Elements(s.batch) <==> k in s.batch;
  }

  // The entry of a key ends in a SUCCESS, and nothing else changes.
  ghost predicate Succeeds(s: State, u: State, k: Key) {
    && u.monitor.pending == s.monitor.pending - {k} && u.monitor.successes == s.monitor.successes + [k]
    && u.monitor.added == s.monitor.added && u.monitor.timeouts == s.monitor.timeouts && u.batch == s.batch
  }

  // In every run, an acknowledgement of a pending message ends one entry in a SUCCESS:
  // that of its id and number or, without an id, the one of the least id that has its
  // number. An acknowledgement of anything else changes nothing.
  lemma AckEndsOne(ops: seq<Op>, c: Config, seqNum: SeqNum, id: Id)
    requires Run(EMPTY, ops, c)
    ensures var s := After(EMPTY, ops, c); var p, u := s.monitor.pending, Step(s, Remove(seqNum, id), c);
      && (id != 0 && MakeKey(id, seqNum) in p ==> Succeeds(s, u, MakeKey(id, seqNum)))
      && (id != 0 && MakeKey(id, seqNum) !in p ==> u == s)
      && (id == 0 && (exists i: Id :: MakeKey(i, seqNum) in p) ==>
            exists i: Id :: MakeKey(i, seqNum) in p && Succeeds(s, u, MakeKey(i, seqNum))
                            && forall j: Id | MakeKey(j, seqNum) in p :: i <= j)
      && (id == 0 && (forall i: Id :: MakeKey(i, seqNum) !in p) ==> u == s)
  {
    Reachable(ops, c);
    var s := After(EMPTY, ops, c);
    hide After, Run, Rising, Balanced;
    var p, u := s.monitor.pending, Step(s, Remove(seqNum, id), c);
    if id == 0 {
      forall i: Id
        ensures MakeKey(i, seqNum) in p <==> MakeKey(i, seqNum) in Matching(p, seqNum)
      {
        if MakeKey(i, seqNum) in p {
          MakeKeyInjective(i, seqNum, p[MakeKey(i, seqNum)].remoteId, p[MakeKey(i, seqNum)].seqNum);
        }
      }
      assert forall k | k in Matching(p, seqNum) :: k == MakeKey(p[k].remoteId, seqNum);
      if Matching(p, seqNum) != {} {
        var k := Least(Matching(p, seqNum));
        var i := p[k].remoteId;
        assert k == MakeKey(i, seqNum) && Succeeds(s, u, k);
        forall j: Id | MakeKey(j, seqNum) in p
          ensures i <= j
        {
          KeyOrder(j, seqNum, i, seqNum);
        }
      }
    }
  }

  // While there is room an added message is pending from then on, with the time of its
  // latest add; a full map refuses it, new or not.
  lemma AddTracks(s: State, seqNum: SeqNum, id: Id, now: int, c: Config)
    ensures var key, p, u := MakeKey(id, seqNum), s.monitor.pending, Step(s, Add(seqNum, id, now), c);
      && (|p| >= c.cap ==> u == s)
      && (|p| < c.cap ==>
            && u.monitor.pending == p[key := TimeoutData(id, seqNum, now)] && u.batch == s.batch
            && u.monitor.added == s.monitor.added + (if key in p then [] else [key])
            && u.monitor.successes == s.monitor.successes && u.monitor.timeouts == s.monitor.timeouts)
  {
    hide MakeKey;
  }

  // A sweep moves entries older than the timeout to the batch, in key order: all of them,
  // or the first sixteen. Each TIMEOUT told is of the next of the batch.
  lemma SweepTakesFirst(s: State, c: Config, now: int)
    ensures var p, u := s.monitor.pending, Step(s, Sweep(now), c); var q := u.monitor.pending;
      && Rising(u.batch) && |u.batch| <= 16
      && (forall k | k in u.batch :: k in p && k !in q && now - p[k].timeStamp > c.timeout)
      && (forall k | k in q :: k in p && q[k] == p[k])
      && (forall k | k in p && k !in u.batch :: k in q)
      && (forall k | k in q && now - q[k].timeStamp > c.timeout :: |u.batch| == 16 && forall b | b in u.batch :: b < k)
      && u.monitor.successes == s.monitor.successes && u.monitor.timeouts == s.monitor.timeouts
    ensures s.batch != [] ==>
              Step(s, Fire, c) == State(s.monitor.(timeouts := s.monitor.timeouts + [s.batch[0]]), s.batch[1..])
  {
    var p := s.monitor.pending;
    var all := ExpiredKeys(p, now, c.timeout);
    FirstOf(all);
    var items := FirstKeys(all, MAX_TIMER_EXPIRED);
    hide Rising, FirstKeys, AddTo, RemoveFrom;
    assert forall k | k in p - Elements(items) :: k !in items;
  }

  lemma FirstOf(all: set<Key>)
    ensures var items := FirstKeys(all, MAX_TIMER_EXPIRED);
      && Rising(items) && |items| <= 16
      && (forall k :: k in items <==> k in Elements(items))
      && (forall k | k in items :: k in all)
      && (forall k | k in all && k !in items :: |items| == 16 && forall b | b in items :: b < k)
  {
    var items := FirstKeys(all, MAX_TIMER_EXPIRED);
    assert forall k :: k in items <==> k in Elements(items);
    RisingCount(items);
    hide FirstKeys, Rising;
    if |items| < 16 {
      SameSize(Elements(items), all);
    }
  }
}
