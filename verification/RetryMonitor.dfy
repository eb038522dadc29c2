// RetryMonitor: the store of packets that may need retransmission, its retry budget,
// and its cooperation with the TransportMonitor. Whole calls are steps here; the
// interleaved protocol is in RetryProtocol.dfy.

module RetryStore {
  import opened Options
  import opened Packets
  import opened MonitorKeys
  import opened TransportMonitors

  datatype RetryEntry = RetryEntry(packet: Packet, attemptsRemaining: int, isSent: bool)

  type Store = map<Key, RetryEntry>

  function HeaderKey(h: Header): Key {
    MakeKey(h.id, h.seqNum)
  }

  // The two maps, and every packet handed to the transport so far.
  datatype Link = Link(pending: Pending, store: Store, wire: seq<Packet>)

  // TransportMonitor::Add with a header's key.
  function AddPending(p: Pending, h: Header, now: int, cap: Cap): Pending {
    Admit(p, cap, h.seqNum, h.id, now)
  }

  // SendWithRetry; sent is what the transport's Send returns.
  function Submit(l: Link, p: Packet, maxRetries: int, now: int, cap: Cap, sent: int): Link {
    var key := HeaderKey(p.header);
    if |l.pending| >= cap then l.(store := l.store - {key})
    else Link(AddPending(l.pending, p.header, now, cap),
              if sent != 0 then l.store - {key} else l.store[key := RetryEntry(p, maxRetries, true)],
              l.wire + [p])
  }

  // The SUCCESS status of a key.
  function Confirm(l: Link, key: Key): Link {
    l.(store := l.store - {key})
  }

  // The TIMEOUT status of a key, whose entry the monitor has already erased.
  function TimeOut(l: Link, key: Key, now: int, cap: Cap): Link {
    if key !in l.store then l
    else
      var e := l.store[key];
      if e.attemptsRemaining <= 0 then l.(store := l.store - {key})
      else if !e.isSent then l.(pending := AddPending(l.pending, e.packet.header, now, cap))
      else if |l.pending| >= cap then l.(store := l.store - {key})
      else Link(AddPending(l.pending, e.packet.header, now, cap),
                l.store[key := e.(attemptsRemaining := e.attemptsRemaining - 1)],
                l.wire + [e.packet])
  }

  // ---------------------------------------------------------------------------
  // The retry budget
  // ---------------------------------------------------------------------------

  // The timeouts an entry can still take: its retries, then the one that erases it.
  function Lives(e: RetryEntry): nat {
    (if e.attemptsRemaining > 0 then e.attemptsRemaining else 0) + 1
  }

  function TotalLives(s: Store): nat {
    if s == map[] then 0
    else
      var k := Least(s.Keys);
      LessSmaller(s, k);
      Lives(s[k]) + TotalLives(s - {k})
  }

  lemma LessSmaller(s: Store, k: Key)
    requires k in s
    ensures |s - {k}| < |s|
  {
    assert (s - {k}).Keys == s.Keys - {k};
  }

  lemma {:induction false} TotalLess(s: Store, k: Key)
    requires k in s
    ensures TotalLives(s) == Lives(s[k]) + TotalLives(s - {k})
    decreases |s|
  {
    var j := Least(s.Keys);
    if j != k {
      LessSmaller(s, j);
      TotalLess(s - {j}, k);
      var t := s - {k};
      assert j in t && t.Keys == s.Keys - {k};
      LeastUnique(t.Keys, j);
      assert t - {j} == s - {j} - {k};
      assert TotalLives(t) == Lives(t[j]) + TotalLives(t - {j});
    }
  }

  lemma LeastUnique(s: set<Key>, k: Key)
    requires k in s && forall j | j in s :: k <= j
    ensures Least(s) == k
  {}

  lemma TotalSet(s: Store, k: Key, e: RetryEntry)
    ensures TotalLives(s[k := e]) == Lives(e) + TotalLives(s - {k})
  {
    TotalLess(s[k := e], k);
    assert s[k := e] - {k} == s - {k};
  }

  lemma TotalErase(s: Store, k: Key)
    ensures TotalLives(s - {k}) <= TotalLives(s)
    ensures k in s ==> TotalLives(s - {k}) < TotalLives(s)
  {
    if k in s {
      TotalLess(s, k);
    } else {
      assert s - {k} == s;
    }
  }

  // A timeout costs a stored entry one of its lives, whichever branch it takes, once
  // its first send is over.
  lemma TimeOutCosts(l: Link, key: Key, now: int, cap: Cap)
    requires key in l.store && l.store[key].isSent
    ensures TotalLives(TimeOut(l, key, now, cap).store) < TotalLives(l.store)
  {
    var e := l.store[key];
    TotalErase(l.store, key);
    TotalLess(l.store, key);
    TotalSet(l.store, key, e.(attemptsRemaining := e.attemptsRemaining - 1));
  }

  lemma TimeOutUnknown(l: Link, key: Key, now: int, cap: Cap)
    requires key !in l.store
    ensures TimeOut(l, key, now, cap) == l
  {}

  lemma SubmitAdds(l: Link, p: Packet, maxRetries: int, now: int, cap: Cap, sent: int)
    ensures TotalLives(Submit(l, p, maxRetries, now, cap, sent).store)
         <= TotalLives(l.store) + Lives(RetryEntry(p, maxRetries, true))
  {
    var key := HeaderKey(p.header);
    TotalErase(l.store, key);
    TotalSet(l.store, key, RetryEntry(p, maxRetries, true));
  }

  // ---------------------------------------------------------------------------
  // The class
  // ---------------------------------------------------------------------------

  datatype Status = SUCCESS | TIMEOUT

  class RetryMonitor {
    const monitor: TransportMonitor
    const maxRetries: int
    var retryStore: Store
    ghost var wire: seq<Packet>

    ghost function State(): Link
      reads this, monitor
    {
      Link(monitor.pending, retryStore, wire)
    }

    constructor (monitor: TransportMonitor, maxRetries: int := 3)
      ensures this.monitor == monitor && this.maxRetries == maxRetries
      ensures retryStore == map[] && wire == []
    {
      this.monitor, this.maxRetries, retryStore, wire := monitor, maxRetries, map[], [];
    }

    // sent is what the transport's Send returns, if it comes to that.
    method SendWithRetry(os: Bytes, header: Header, now: int, sent: int) returns (result: int)
      modifies this, monitor`pending, monitor`added
      ensures var key, p := MakeKey(header.id, header.seqNum), Packet(header, os);
        var room := |old(monitor.pending)| < monitor.cap;
        && monitor.pending == (if room then old(monitor.pending)[key := TimeoutData(header.id, header.seqNum, now)]
                               else old(monitor.pending))
        && wire == (if room then old(wire) + [p] else old(wire))
        && retryStore == if room && sent == 0 then old(retryStore)[key := RetryEntry(p, maxRetries, true)]
                         else old(retryStore) - {key}
      ensures State() == Submit(old(State()), Packet(header, os), maxRetries, now, monitor.cap, sent)
      ensures result == if |old(monitor.pending)| >= monitor.cap then -1 else sent
    {
      var key := MakeKey(header.id, header.seqNum);
      hide MakeKey;
      ghost var store := retryStore;
      retryStore := retryStore[key := RetryEntry(Packet(header, os), maxRetries, false)];
      var added := monitor.Add(header.seqNum, header.id, now);
      if !added {
        retryStore := retryStore - {key};
        assert retryStore == store - {key};
        return -1;
      }
      wire := wire + [Packet(header, os)];
      result := sent;
      if result != 0 {
        retryStore := retryStore - {key};
        assert retryStore == store - {key};
      } else if key in retryStore {
        retryStore := retryStore[key := retryStore[key].(isSent := true)];
        assert retryStore == store[key := RetryEntry(Packet(header, os), maxRetries, true)];
      }
    }

    // The subscriber of TransportMonitor::OnSendStatus.
    method OnStatusChanged(id: Id, seqNum: SeqNum, status: Status, now: int)
      modifies this, monitor`pending, monitor`added
      ensures MakeKey(id, seqNum) !in old(retryStore) ==>
                retryStore == old(retryStore) && wire == old(wire) && monitor.pending == old(monitor.pending)
      ensures MakeKey(id, seqNum) in old(retryStore) ==>
                var key, room := MakeKey(id, seqNum), |old(monitor.pending)| < monitor.cap;
                var e := old(retryStore)[key];
                var over := status == SUCCESS || e.attemptsRemaining <= 0;
                && wire == old(wire) + (if !over && e.isSent && room then [e.packet] else [])
                && monitor.pending == (if over || !room then old(monitor.pending) else
                                         old(monitor.pending)[HeaderKey(e.packet.header) :=
                                           TimeoutData(e.packet.header.id, e.packet.header.seqNum, now)])
                && retryStore == (if over || (e.isSent && !room) then old(retryStore) - {key}
                                  else if !e.isSent then old(retryStore)
                                  else old(retryStore)[key := e.(attemptsRemaining := e.attemptsRemaining - 1)])
      ensures State() == match status
                         case SUCCESS => Confirm(old(State()), MakeKey(id, seqNum))
                         case TIMEOUT => TimeOut(old(State()), MakeKey(id, seqNum), now, monitor.cap)
    {
      var key := MakeKey(id, seqNum);
      hide MakeKey;
      if key !in retryStore {
        assert retryStore - {key} == retryStore;
        return;
      }
      var e := retryStore[key];
      if status == SUCCESS || e.attemptsRemaining <= 0 {
        retryStore := retryStore - {key};
      } else if e.isSent {
        Retry(key, now);
      } else {
        var added := monitor.Add(e.packet.header.seqNum, e.packet.header.id, now);
      }
    }

    // The budget is spent under the lock; the packet goes out after it is released.
    method Retry(key: Key, now: int)
      requires key in retryStore && retryStore[key].isSent && retryStore[key].attemptsRemaining > 0
      modifies this, monitor`pending, monitor`added
      ensures State() == TimeOut(old(State()), key, now, monitor.cap)
    {
      hide MakeKey;
      ghost var store := retryStore;
      var e := retryStore[key];
      retryStore := retryStore[key := e.(attemptsRemaining := e.attemptsRemaining - 1)];
      var added := monitor.Add(e.packet.header.seqNum, e.packet.header.id, now);
      if added {
        wire := wire + [e.packet];
      } else {
        retryStore := retryStore - {key};
        assert retryStore == store - {key};
      }
    }
  }
}

module RetryRuns {
  import opened Options
  import MR = MonitorRuns
  import opened Packets
  import opened MonitorKeys
  import opened TransportMonitors
  import opened RetryStore

  // batch holds the expired entries whose callbacks Process still owes.
  datatype State = State(link: Link, batch: seq<Key>)

  datatype Op =
    | Send(packet: Packet, now: int, sent: int)
    | Ack(seqNum: SeqNum, id: Id)
    | Sweep(items: seq<Key>)
    | Callback(now: int)

  datatype Config = Config(maxRetries: int, cap: Cap)

  // One thread runs Process, so a sweep waits for the callbacks of the one before.
  ghost predicate Enabled(s: State, op: Op) {
    match op
    case Send(_, _, _) => true
    case Ack(_, _) => true
    case Sweep(items) => s.batch == [] && Elements(items) <= s.link.pending.Keys
    case Callback(_) => s.batch != []
  }

  function Step(s: State, op: Op, c: Config): State {
    match op
    case Send(p, now, sent) => s.(link := Submit(s.link, p, c.maxRetries, now, c.cap, sent))
    case Ack(seqNum, id) => s.(link := AckLink(s.link, seqNum, id))
    case Sweep(items) => State(s.link.(pending := s.link.pending - Elements(items)), items)
    case Callback(now) =>
      if s.batch == [] then s
      else State(TimeOut(s.link, s.batch[0], now, c.cap), s.batch[1..])
  }

  // TransportMonitor::Remove, with its SUCCESS callback.
  function AckLink(l: Link, seqNum: SeqNum, id: Id): Link {
    var k := Acknowledged(l.pending, seqNum, id);
    if k.None? then l
    else Confirm(l.(pending := l.pending - {k.value}), MakeKey(l.pending[AckKey(l, seqNum, id)].remoteId, seqNum))
  }

  function AckKey(l: Link, seqNum: SeqNum, id: Id): (k: Key)
    requires Acknowledged(l.pending, seqNum, id).Some?
    ensures k in l.pending && Some(k) == Acknowledged(l.pending, seqNum, id)
    ensures l.pending[k].seqNum == seqNum || id != 0
  {
    AcknowledgedPending(l.pending, seqNum, id);
    Acknowledged(l.pending, seqNum, id).value
  }

  ghost predicate Run(s: State, ops: seq<Op>, c: Config)
    decreases ops
  {
    ops == [] || (Enabled(s, ops[0]) && Run(Step(s, ops[0], c), ops[1..], c))
  }

  function After(s: State, ops: seq<Op>, c: Config): State
    decreases ops
  {
    if ops == [] then s else After(Step(s, ops[0], c), ops[1..], c)
  }

  const EMPTY := State(Link(map[], map[], []), [])

  // ---------------------------------------------------------------------------
  // No leak
  // ---------------------------------------------------------------------------

  // Entries are filed under their own key, and their first send is over.
  ghost predicate Filed(s: Store) {
    forall k | k in s :: s[k].isSent && k == HeaderKey(s[k].packet.header)
  }

  // Every stored key is pending, or its timeout is about to be reported.
  ghost predicate Tracked(s: State) {
    forall k | k in s.link.store :: k in s.link.pending || k in s.batch
  }

  ghost predicate Inv(s: State) {
    Filed(s.link.store) && Tracked(s) && WellKeyed(s.link.pending)
  }

  lemma SendKeeps(s: State, p: Packet, now: int, sent: int, c: Config)
    requires Inv(s)
    ensures Inv(Step(s, Send(p, now, sent), c))
  {
    KeyedSet(s.link.pending, p.header.id, p.header.seqNum, now);
    hide MakeKey;
  }

  lemma AckKeeps(s: State, seqNum: SeqNum, id: Id, c: Config)
    requires Inv(s)
    ensures Inv(Step(s, Ack(seqNum, id), c))
  {
    if Acknowledged(s.link.pending, seqNum, id).Some? {
      var k := AckKey(s.link, seqNum, id);
      AckedOwnKey(s.link.pending, seqNum, id, k);
      hide Acknowledged, MakeKey;
    }
  }

  // The status of an acknowledged entry names that entry's key.
  lemma AckedOwnKey(p: Pending, seqNum: SeqNum, id: Id, k: Key)
    requires WellKeyed(p) && k in p && Acknowledged(p, seqNum, id) == Some(k)
    ensures MakeKey(p[k].remoteId, seqNum) == k
  {
    if id != 0 {
      MakeKeyInjective(id, seqNum, p[k].remoteId, p[k].seqNum);
    } else {
      assert k in Matching(p, seqNum);
    }
  }

  lemma SweepKeeps(s: State, items: seq<Key>, c: Config)
    requires Inv(s) && s.batch == []
    ensures Inv(Step(s, Sweep(items), c))
  {
    hide MakeKey;
  }

  lemma CallbackKeeps(s: State, now: int, c: Config)
    requires Inv(s) && s.batch != []
    ensures Inv(Step(s, Callback(now), c))
  {
    var k := s.batch[0];
    assert forall j | j in s.batch :: j == k || j in s.batch[1..];
    if k in s.link.store {
      var h := s.link.store[k].packet.header;
      KeyedSet(s.link.pending, h.id, h.seqNum, now);
    }
    hide MakeKey;
  }

  lemma StepKeepsInv(s: State, op: Op, c: Config)
    requires Inv(s) && Enabled(s, op)
    ensures Inv(Step(s, op, c))
  {
    hide Inv;
    match op {
      case Send(p, now, sent) => SendKeeps(s, p, now, sent, c);
      case Ack(seqNum, id) => AckKeeps(s, seqNum, id, c);
      case Sweep(items) => SweepKeeps(s, items, c);
      case Callback(now) => CallbackKeeps(s, now, c);
    }
  }

  lemma {:induction false} RunKeepsInv(s: State, ops: seq<Op>, c: Config)
    requires Inv(s) && Run(s, ops, c)
    ensures Inv(After(s, ops, c))
    decreases ops
  {
    if ops != [] {
      StepKeepsInv(s, ops[0], c);
      RunKeepsInv(Step(s, ops[0], c), ops[1..], c);
    }
  }

  // No leak: in every run, between calls, whatever is stored is pending too.
  lemma NoLeak(ops: seq<Op>, c: Config)
    requires Run(EMPTY, ops, c)
    ensures var s := After(EMPTY, ops, c);
      && (forall k | k in s.link.store :: k in s.link.pending || k in s.batch)
      && (s.batch == [] ==> s.link.store.Keys <= s.link.pending.Keys)
  {
    assert Inv(EMPTY);
    RunKeepsInv(EMPTY, ops, c);
  }

  // ---------------------------------------------------------------------------
  // What a submission and a timeout do
  // ---------------------------------------------------------------------------

  // With room, a submission transmits its packet and tracks it; sent, it is stored with
  // the whole budget.
  lemma SendTracks(s: State, p: Packet, now: int, sent: int, c: Config)
    ensures var key, u := HeaderKey(p.header), Step(s, Send(p, now, sent), c).link;
      && Enabled(s, Send(p, now, sent))
      && (|s.link.pending| < c.cap ==>
            u.wire == s.link.wire + [p] && key in u.pending && u.pending[key].timeStamp == now)
      && (|s.link.pending| < c.cap && sent == 0 ==>
            key in u.store && u.store[key] == RetryEntry(p, c.maxRetries, true))
      && (|s.link.pending| >= c.cap || sent != 0 ==> key !in u.store)
      && (|s.link.pending| >= c.cap ==> u.wire == s.link.wire && u.pending == s.link.pending)
  {
    hide MakeKey;
  }

  // In every run, a timeout of a stored message with attempts left retransmits its packet,
  // for one attempt, and tracks it again, if there is room; any other erases it.
  lemma TimeoutRetries(ops: seq<Op>, now: int, c: Config)
    requires Run(EMPTY, ops, c)
    requires var s := After(EMPTY, ops, c); s.batch != [] && s.batch[0] in s.link.store
    ensures var s := After(EMPTY, ops, c);
      var key, e, u := s.batch[0], s.link.store[s.batch[0]], Step(s, Callback(now), c);
      && Enabled(s, Callback(now)) && u.batch == s.batch[1..]
      && (e.attemptsRemaining > 0 && |s.link.pending| < c.cap ==>
            && u.link.wire == s.link.wire + [e.packet] && HeaderKey(e.packet.header) == key
            && key in u.link.pending && u.link.pending[key].timeStamp == now
            && u.link.store == s.link.store[key := RetryEntry(e.packet, e.attemptsRemaining - 1, true)])
      && (e.attemptsRemaining <= 0 || |s.link.pending| >= c.cap ==>
            u.link.wire == s.link.wire && u.link.pending == s.link.pending && u.link.store == s.link.store - {key})
  {
    assert Inv(EMPTY);
    RunKeepsInv(EMPTY, ops, c);
    hide Run, After, MakeKey, Tracked, WellKeyed;
  }

  // ---------------------------------------------------------------------------
  // An acknowledged message is not sent again
  // ---------------------------------------------------------------------------

  // The packets handed to the transport after the first n have other keys.
  ghost predicate Silent(wire: seq<Packet>, n: nat, key: Key) {
    n <= |wire| && forall i | n <= i < |wire| :: HeaderKey(wire[i].header) != key
  }

  lemma SilentStep(s: State, op: Op, key: Key, n: nat, c: Config)
    requires Inv(s) && Enabled(s, op) && key !in s.link.store && Silent(s.link.wire, n, key)
    requires op.Send? ==> HeaderKey(op.packet.header) != key
    ensures var u := Step(s, op, c); key !in u.link.store && Silent(u.link.wire, n, key)
  {
    hide MakeKey, Acknowledged;
  }

  lemma {:induction false} SilentRun(s: State, ops: seq<Op>, key: Key, n: nat, c: Config)
    requires Inv(s) && Run(s, ops, c) && key !in s.link.store && Silent(s.link.wire, n, key)
    requires forall op | op in ops && op.Send? :: HeaderKey(op.packet.header) != key
    ensures var u := After(s, ops, c); key !in u.link.store && Silent(u.link.wire, n, key)
    decreases ops
  {
    if ops != [] {
      assert ops[0] in ops;
      StepKeepsInv(s, ops[0], c);
      SilentStep(s, ops[0], key, n, c);
      hide Inv, Silent, Step, Enabled;
      SilentRun(Step(s, ops[0], c), ops[1..], key, n, c);
    }
  }

  // In every run, once a pending message is acknowledged by id and number, nothing with
  // its key is stored or handed to the transport until it is submitted anew.
  lemma AckSilences(before: seq<Op>, seqNum: SeqNum, id: Id, later: seq<Op>, c: Config)
    requires Run(EMPTY, before, c) && id != 0
    requires MakeKey(id, seqNum) in After(EMPTY, before, c).link.pending
    requires Run(Step(After(EMPTY, before, c), Ack(seqNum, id), c), later, c)
    requires forall op | op in later && op.Send? :: HeaderKey(op.packet.header) != MakeKey(id, seqNum)
    ensures var s := After(EMPTY, before, c); var t := Step(s, Ack(seqNum, id), c); var u := After(t, later, c);
      && t.link.pending == s.link.pending - {MakeKey(id, seqNum)} && MakeKey(id, seqNum) !in u.link.store
      && |s.link.wire| <= |u.link.wire|
      && forall i | |s.link.wire| <= i < |u.link.wire| :: HeaderKey(u.link.wire[i].header) != MakeKey(id, seqNum)
  {
    assert Inv(EMPTY);
    RunKeepsInv(EMPTY, before, c);
    hide Run, After;
    AckThenSilent(After(EMPTY, before, c), seqNum, id, later, c);
  }

  lemma AckThenSilent(s: State, seqNum: SeqNum, id: Id, later: seq<Op>, c: Config)
    requires Inv(s) && id != 0 && MakeKey(id, seqNum) in s.link.pending
    requires Run(Step(s, Ack(seqNum, id), c), later, c)
    requires forall op | op in later && op.Send? :: HeaderKey(op.packet.header) != MakeKey(id, seqNum)
    ensures var t := Step(s, Ack(seqNum, id), c); var u := After(t, later, c);
      && t.link.pending == s.link.pending - {MakeKey(id, seqNum)} && MakeKey(id, seqNum) !in u.link.store
      && Silent(u.link.wire, |s.link.wire|, MakeKey(id, seqNum))
  {
    var t, key := Step(s, Ack(seqNum, id), c), MakeKey(id, seqNum);
    assert AckKey(s.link, seqNum, id) == key;
    AckedOwnKey(s.link.pending, seqNum, id, key);
    StepKeepsInv(s, Ack(seqNum, id), c);
    hide MakeKey, Inv, Run, After;
    assert key !in t.link.store && t.link.wire == s.link.wire;
    hide Step;
    SilentRun(t, later, key, |s.link.wire|, c);
  }

  // ---------------------------------------------------------------------------
  // Retries end
  // ---------------------------------------------------------------------------

  // Whether a step reports the timeout of a stored key; whether it is a submission.
  function Told(s: State, op: Op): nat {
    if op.Callback? && s.batch != [] && s.batch[0] in s.link.store then 1 else 0
  }

  function Sent(op: Op): nat {
    if op.Send? then 1 else 0
  }

  function StoredTimeouts(s: State, ops: seq<Op>, c: Config): nat
    decreases ops
  {
    if ops == [] then 0 else Told(s, ops[0]) + StoredTimeouts(Step(s, ops[0], c), ops[1..], c)
  }

  function Sends(ops: seq<Op>): nat {
    if ops == [] then 0 else Sent(ops[0]) + Sends(ops[1..])
  }

  // What one submission may cost: its retries, then the timeout that erases it.
  function Budget(maxRetries: int): nat {
    (if maxRetries > 0 then maxRetries else 0) + 1
  }

  lemma StepBudget(s: State, op: Op, c: Config)
    requires Inv(s) && Enabled(s, op)
    ensures TotalLives(Step(s, op, c).link.store) + Told(s, op)
         <= TotalLives(s.link.store) + if op.Send? then Budget(c.maxRetries) else 0
  {
    hide TotalLives, TimeOut, Acknowledged, MakeKey;
    match op {
      case Send(p, now, sent) => SubmitAdds(s.link, p, c.maxRetries, now, c.cap, sent);
      case Ack(seqNum, id) =>
        if Acknowledged(s.link.pending, seqNum, id).Some? {
          TotalErase(s.link.store, MakeKey(s.link.pending[AckKey(s.link, seqNum, id)].remoteId, seqNum));
        }
      case Sweep(items) =>
      case Callback(now) =>
        if s.batch[0] in s.link.store {
          TimeOutCosts(s.link, s.batch[0], now, c.cap);
        } else {
          TimeOutUnknown(s.link, s.batch[0], now, c.cap);
        }
    }
  }

  // In every run the timeouts of stored keys are paid for by the submissions.
  lemma {:induction false} RunBudget(s: State, ops: seq<Op>, c: Config)
    requires Inv(s) && Run(s, ops, c)
    ensures TotalLives(After(s, ops, c).link.store) + StoredTimeouts(s, ops, c)
         <= TotalLives(s.link.store) + Sends(ops) * Budget(c.maxRetries)
    decreases ops
  {
    if ops != [] {
      var op, t := ops[0], Step(s, ops[0], c);
      StepKeepsInv(s, op, c);
      StepBudget(s, op, c);
      RunBudget(t, ops[1..], c);
      hide Step, TotalLives, Inv, Enabled, Budget, Told;
      SendsHead(ops, Budget(c.maxRetries));
    }
  }

  lemma SendsHead(ops: seq<Op>, n: nat)
    requires ops != []
    ensures Sends(ops) * n == (if ops[0].Send? then n else 0) + Sends(ops[1..]) * n
  {
    var m := Sends(ops[1..]);
    assert Sends(ops) == Sent(ops[0]) + m;
    hide Sends;
    OneMore(m, n);
  }

  lemma OneMore(m: nat, n: nat)
    ensures (1 + m) * n == n + m * n
  {}

  // ---------------------------------------------------------------------------
  // Full timeouts empty the store
  // ---------------------------------------------------------------------------

  // The entries of one batch time out, and the subscriber is told of each.
  datatype Batch = Batch(items: seq<Key>, now: int)

  function Callbacks(l: Link, items: seq<Key>, now: int, cap: Cap): Link
    decreases items
  {
    if items == [] then l else Callbacks(TimeOut(l, items[0], now, cap), items[1..], now, cap)
  }

  function AfterBatch(l: Link, b: Batch, cap: Cap): Link {
    Callbacks(l.(pending := l.pending - Elements(b.items)), b.items, b.now, cap)
  }

  function AfterBatches(l: Link, bs: seq<Batch>, cap: Cap): Link
    decreases bs
  {
    if bs == [] then l else AfterBatches(AfterBatch(l, bs[0], cap), bs[1..], cap)
  }

  // The batches are pending when they are swept, and no larger than the code's.
  ghost predicate Swept(l: Link, bs: seq<Batch>, cap: Cap)
    decreases bs
  {
    bs == [] ||
    (&& |bs[0].items| <= MAX_TIMER_EXPIRED && Elements(bs[0].items) <= l.pending.Keys
     && Swept(AfterBatch(l, bs[0], cap), bs[1..], cap))
  }

  function ToldKeys(bs: seq<Batch>): set<Key> {
    if bs == [] then {} else Elements(bs[0].items) + ToldKeys(bs[1..])
  }

  function BatchOps(b: Batch): seq<Op> {
    [Sweep(b.items)] + seq(|b.items|, _ => Callback(b.now))
  }

  function BatchesOps(bs: seq<Batch>): seq<Op> {
    if bs == [] then [] else BatchOps(bs[0]) + BatchesOps(bs[1..])
  }

  // Batches are a run: each is a sweep and its callbacks.
  lemma {:induction false} BatchesAreRun(s: State, bs: seq<Batch>, c: Config)
    requires s.batch == [] && Swept(s.link, bs, c.cap)
    ensures Run(s, BatchesOps(bs), c) && After(s, BatchesOps(bs), c) == State(AfterBatches(s.link, bs, c.cap), [])
    decreases bs
  {
    if bs != [] {
      var t := State(AfterBatch(s.link, bs[0], c.cap), []);
      BatchIsRun(s, bs[0], c);
      BatchesAreRun(t, bs[1..], c);
      hide AfterBatch, BatchOps, Run, After;
      RunAppend(s, BatchOps(bs[0]), BatchesOps(bs[1..]), c);
    }
  }

  lemma BatchIsRun(s: State, b: Batch, c: Config)
    requires s.batch == [] && Elements(b.items) <= s.link.pending.Keys
    ensures Run(s, BatchOps(b), c) && After(s, BatchOps(b), c) == State(AfterBatch(s.link, b, c.cap), [])
  {
    assert BatchOps(b)[1..] == seq(|b.items|, _ => Callback(b.now));
    CallbacksAreRun(Step(s, Sweep(b.items), c), b.now, c);
  }

  lemma {:induction false} RunAppend(s: State, x: seq<Op>, y: seq<Op>, c: Config)
    requires Run(s, x, c) && Run(After(s, x, c), y, c)
    ensures Run(s, x + y, c) && After(s, x + y, c) == After(After(s, x, c), y, c)
    decreases x
  {
    hide Step, Enabled;
    if x == [] {
      assert x + y == y;
    } else {
      assert (x + y)[1..] == x[1..] + y;
      RunAppend(Step(s, x[0], c), x[1..], y, c);
    }
  }

  lemma {:induction false} CallbacksAreRun(s: State, now: int, c: Config)
    ensures Run(s, seq(|s.batch|, _ => Callback(now)), c)
    ensures After(s, seq(|s.batch|, _ => Callback(now)), c)
         == State(Callbacks(s.link, s.batch, now, c.cap), [])
    decreases |s.batch|
  {
    if s.batch != [] {
      var t := Step(s, Callback(now), c);
      assert seq(|s.batch|, _ => Callback(now))[1..] == seq(|t.batch|, _ => Callback(now));
      CallbacksAreRun(t, now, c);
    }
  }

  ghost predicate Within(s: Store, n: int) {
    forall k | k in s :: s[k].attemptsRemaining <= n
  }

  // An entry that is left has lost an attempt of at most n.
  predicate Lowered(e: RetryEntry, n: int) {
    n > 0 && e.attemptsRemaining <= n - 1
  }

  // ToldKeys of its keys, the store's entries lose an attempt; rest are the keys still to be
  // told.
  lemma {:induction false} CallbacksLower(l: Link, items: seq<Key>, rest: set<Key>, now: int, cap: Cap, n: int)
    requires Filed(l.store) && Within(l.store, n)
    requires forall k | k in l.store && k !in items && k !in rest :: Lowered(l.store[k], n)
    ensures var q := Callbacks(l, items, now, cap).store;
      Filed(q) && Within(q, n) && (forall k | k in q && k !in rest :: Lowered(q[k], n))
    decreases items
  {
    if items != [] {
      var k := items[0];
      var m := TimeOut(l, k, now, cap);
      assert forall j | j in items :: j == k || j in items[1..];
      hide MakeKey;
      TimeOutLowers(l, k, now, cap, n);
      CallbacksLower(m, items[1..], rest, now, cap, n);
    }
  }

  lemma TimeOutLowers(l: Link, k: Key, now: int, cap: Cap, n: int)
    requires Filed(l.store) && Within(l.store, n)
    ensures var q := TimeOut(l, k, now, cap).store;
      && Filed(q) && Within(q, n)
      && (forall j | j in q && j != k :: j in l.store && q[j] == l.store[j])
      && (k in q ==> Lowered(q[k], n))
  {
    hide MakeKey;
  }

  lemma {:induction false} BatchesLower(l: Link, bs: seq<Batch>, cap: Cap, n: int)
    requires Filed(l.store) && Within(l.store, n)
    requires forall k | k in l.store && k !in ToldKeys(bs) :: Lowered(l.store[k], n)
    ensures var q := AfterBatches(l, bs, cap).store;
      Filed(q) && forall k | k in q :: Lowered(q[k], n)
    decreases bs
  {
    if bs != [] {
      var b := bs[0];
      assert forall k | k in Elements(b.items) :: k in b.items;
      CallbacksLower(l.(pending := l.pending - Elements(b.items)), b.items, ToldKeys(bs[1..]), b.now, cap, n);
      BatchesLower(AfterBatch(l, b, cap), bs[1..], cap, n);
    }
  }

  // Full timeouts, one after the other: the batches of each tell of every stored key.
  ghost predicate FullTimeouts(l: Link, rounds: seq<seq<Batch>>, cap: Cap)
    decreases rounds
  {
    rounds == [] ||
    (&& Swept(l, rounds[0], cap) && l.store.Keys <= ToldKeys(rounds[0])
     && FullTimeouts(AfterBatches(l, rounds[0], cap), rounds[1..], cap))
  }

  function AfterTimeouts(l: Link, rounds: seq<seq<Batch>>, cap: Cap): Link
    decreases rounds
  {
    if rounds == [] then l else AfterTimeouts(AfterBatches(l, rounds[0], cap), rounds[1..], cap)
  }

  // Without new sends, one full timeout more than the largest budget empties the store.
  lemma {:induction false} StoreEmpties(l: Link, rounds: seq<seq<Batch>>, cap: Cap, n: int)
    requires Filed(l.store) && Within(l.store, n) && FullTimeouts(l, rounds, cap)
    requires |rounds| >= Budget(n)
    ensures AfterTimeouts(l, rounds, cap).store == map[]
    decreases rounds
  {
    BatchesLower(l, rounds[0], cap, n);
    var m := AfterBatches(l, rounds[0], cap);
    if n > 0 {
      StoreEmpties(m, rounds[1..], cap, n - 1);
    } else {
      assert forall k :: k !in m.store;
      StaysEmpty(m, rounds[1..], cap);
    }
  }

  lemma {:induction false} StaysEmpty(l: Link, rounds: seq<seq<Batch>>, cap: Cap)
    requires l.store == map[]
    ensures AfterTimeouts(l, rounds, cap).store == map[]
    decreases rounds
  {
    if rounds != [] {
      BatchesStayEmpty(l, rounds[0], cap);
      StaysEmpty(AfterBatches(l, rounds[0], cap), rounds[1..], cap);
    }
  }

  lemma {:induction false} BatchesStayEmpty(l: Link, bs: seq<Batch>, cap: Cap)
    requires l.store == map[]
    ensures AfterBatches(l, bs, cap).store == map[]
    decreases bs
  {
    if bs != [] {
      CallbacksStayEmpty(l.(pending := l.pending - Elements(bs[0].items)), bs[0].items, bs[0].now, cap);
      BatchesStayEmpty(AfterBatch(l, bs[0], cap), bs[1..], cap);
    }
  }

  lemma {:induction false} CallbacksStayEmpty(l: Link, items: seq<Key>, now: int, cap: Cap)
    requires l.store == map[]
    ensures Callbacks(l, items, now, cap).store == map[]
    decreases items
  {
    if items != [] {
      CallbacksStayEmpty(TimeOut(l, items[0], now, cap), items[1..], now, cap);
    }
  }

  // ---------------------------------------------------------------------------
  // Process is such a series of batches
  // ---------------------------------------------------------------------------

  // The batch that one pass of Process takes.
  function NextBatch(l: Link, now: int, timeout: int): Batch {
    Batch(MR.FirstKeys(ExpiredKeys(l.pending, now, timeout), MAX_TIMER_EXPIRED), now)
  }

  lemma TimeOutExpires(l: Link, k: Key, now: int, timeout: int, cap: Cap)
    requires Filed(l.store) && timeout >= 0 && k !in ExpiredKeys(l.pending, now, timeout)
    ensures var m := TimeOut(l, k, now, cap);
      ExpiredKeys(m.pending, now, timeout) == ExpiredKeys(l.pending, now, timeout) && Filed(m.store)
  {
    hide MakeKey;
  }

  lemma {:induction false} CallbacksExpire(l: Link, items: seq<Key>, now: int, timeout: int, cap: Cap)
    requires Filed(l.store) && timeout >= 0
    requires forall k | k in items :: k !in ExpiredKeys(l.pending, now, timeout)
    ensures var m := Callbacks(l, items, now, cap);
      ExpiredKeys(m.pending, now, timeout) == ExpiredKeys(l.pending, now, timeout) && Filed(m.store)
    decreases items
  {
    if items != [] {
      TimeOutExpires(l, items[0], now, timeout, cap);
      hide TimeOut, ExpiredKeys, Filed;
      CallbacksExpire(TimeOut(l, items[0], now, cap), items[1..], now, timeout, cap);
    }
  }

  // A pass leaves expired what it has not reported.
  lemma BatchExpires(l: Link, b: Batch, timeout: int, cap: Cap)
    requires Filed(l.store) && timeout >= 0
    ensures var m := AfterBatch(l, b, cap);
      && Filed(m.store)
      && ExpiredKeys(m.pending, b.now, timeout) == ExpiredKeys(l.pending, b.now, timeout) - Elements(b.items)
  {
    var swept := l.(pending := l.pending - Elements(b.items));
    assert ExpiredKeys(swept.pending, b.now, timeout) == ExpiredKeys(l.pending, b.now, timeout) - Elements(b.items);
    CallbacksExpire(swept, b.items, b.now, timeout, cap);
  }

  lemma BatchSize(all: set<Key>, items: seq<Key>)
    requires Elements(items) <= all && Rising(items)
    ensures |all - Elements(items)| == |all| - |items|
  {
    RisingCount(items);
    assert all == Elements(items) + (all - Elements(items));
  }

  // Process at the clock value now: passes of up to sixteen until one is not full.
  function ProcessBatches(l: Link, now: int, timeout: int, cap: Cap): seq<Batch>
    requires Filed(l.store) && timeout >= 0
    decreases |ExpiredKeys(l.pending, now, timeout)|
  {
    var b := NextBatch(l, now, timeout);
    BatchExpires(l, b, timeout, cap);
    BatchSize(ExpiredKeys(l.pending, now, timeout), b.items);
    if |b.items| < MAX_TIMER_EXPIRED then [b]
    else [b] + ProcessBatches(AfterBatch(l, b, cap), now, timeout, cap)
  }

  // Its batches can be swept, and tell of exactly the expired keys.
  lemma {:induction false} ProcessTells(l: Link, now: int, timeout: int, cap: Cap)
    requires Filed(l.store) && timeout >= 0
    ensures var bs := ProcessBatches(l, now, timeout, cap);
      Swept(l, bs, cap) && ToldKeys(bs) == ExpiredKeys(l.pending, now, timeout)
    decreases |ExpiredKeys(l.pending, now, timeout)|
  {
    var b, all := NextBatch(l, now, timeout), ExpiredKeys(l.pending, now, timeout);
    BatchExpires(l, b, timeout, cap);
    BatchSize(all, b.items);
    assert all <= l.pending.Keys;
    hide ExpiredKeys, AfterBatch, Filed, Elements, Rising;
    var bs := ProcessBatches(l, now, timeout, cap);
    if |b.items| < MAX_TIMER_EXPIRED {
      AllOfThem(all, b.items);
      assert bs[1..] == [];
    } else {
      ProcessTells(AfterBatch(l, b, cap), now, timeout, cap);
      assert bs[1..] == ProcessBatches(AfterBatch(l, b, cap), now, timeout, cap);
    }
  }

  lemma AllOfThem(all: set<Key>, items: seq<Key>)
    requires Elements(items) <= all && |all - Elements(items)| == 0
    ensures Elements(items) == all
  {
    assert all - Elements(items) == {};
  }

  // One call of Process when everything stored has expired is a full timeout.
  lemma ProcessIsFullTimeout(l: Link, now: int, timeout: int, cap: Cap)
    requires Filed(l.store) && timeout >= 0 && l.store.Keys <= ExpiredKeys(l.pending, now, timeout)
    ensures FullTimeouts(l, [ProcessBatches(l, now, timeout, cap)], cap)
  {
    ProcessTells(l, now, timeout, cap);
    hide Swept, ToldKeys, ExpiredKeys, ProcessBatches, AfterBatches;
    assert [ProcessBatches(l, now, timeout, cap)][1..] == [];
  }
}
