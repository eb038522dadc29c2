// The two models of the retry protocol agree: calls that do not overlap do, critical
// section by critical section, what the whole-call functions say.

module RetryAgreement {
  import opened Packets
  import opened MonitorKeys
  import opened TransportMonitors
  import opened RetryStore
  import RetryRuns
  import RP = RetryProtocol

  function StoreOf(m: map<Key, RP.Entry>): Store {
    map k | k in m :: RetryEntry(m[k].packet, m[k].attemptsRemaining, m[k].isSent)
  }

  function PacketsOf(wire: seq<RP.Tx>): seq<Packet> {
    seq(|wire|, i requires 0 <= i < |wire| => wire[i].packet)
  }

  // The same pending keys, entries and transmissions.
  ghost predicate Agrees(s: RP.State, l: Link) {
    l.pending.Keys == s.pending && l.store == StoreOf(s.store) && l.wire == PacketsOf(s.wire)
  }

  lemma PacketsSnoc(wire: seq<RP.Tx>, t: RP.Tx)
    ensures PacketsOf(wire + [t]) == PacketsOf(wire) + [t.packet]
  {}

  lemma StoreSet(m: map<Key, RP.Entry>, k: Key, e: RP.Entry)
    ensures StoreOf(m[k := e]) == StoreOf(m)[k := RetryEntry(e.packet, e.attemptsRemaining, e.isSent)]
  {}

  lemma StoreLess(m: map<Key, RP.Entry>, k: Key)
    ensures StoreOf(m - {k}) == StoreOf(m) - {k}
  {}

  // A whole SendWithRetry, with nothing in between.
  function SendOps(s: RP.State, p: Packet, c: RP.Config, ok: bool): seq<RP.Op> {
    var go := RP.Advance(s.next, ok);
    if |s.pending| < c.cap then [RP.Submit(p), go, go, go] else [RP.Submit(p), go, go]
  }

  lemma SendAgrees(s: RP.State, l: Link, p: Packet, c: RP.Config, now: int, sent: int)
    requires Agrees(s, l) && s.next !in s.acts
    ensures var ops := SendOps(s, p, c, sent == 0);
      && RP.Run(s, ops, c)
      && Agrees(RP.After(s, ops, c), Submit(l, p, c.maxRetries, now, c.cap, sent))
      && RP.After(s, ops, c).acts == s.acts
  {
    hide MakeKey;
    assert |l.pending| == |s.pending|;
    if |s.pending| < c.cap {
      AcceptedSend(s, p, c, sent == 0);
      AcceptedAgrees(s, l, p, c, now, sent);
    } else {
      RefusedSend(s, p, c, sent == 0);
      RefusedAgrees(s, l, p, c, now, sent);
    }
  }

  // The state after an accepted send: what the steps add up to.
  function Accepted(s: RP.State, p: Packet, c: RP.Config, ok: bool): RP.State {
    var key := HeaderKey(p.header);
    s.(pending := s.pending + {key},
       store := if ok then s.store[key := RP.Entry(|s.subs|, p, c.maxRetries, true)] else s.store - {key},
       next := s.next + 1, subs := s.subs + [p], decided := s.decided + [0],
       wire := s.wire + [RP.Tx(|s.subs|, 0, p)], orphans := s.orphans - {key})
  }

  // The call after its first, second and third step.
  function Stored(s: RP.State, p: Packet, c: RP.Config): RP.State {
    var key := HeaderKey(p.header);
    s.(store := s.store[key := RP.Entry(|s.subs|, p, c.maxRetries, false)], next := s.next + 1,
       subs := s.subs + [p], decided := s.decided + [0], orphans := s.orphans - {key},
       acts := s.acts[s.next := RP.Inserted(RP.Tx(|s.subs|, 0, p))])
  }

  function Tracked(s: RP.State, p: Packet, c: RP.Config): RP.State {
    Stored(s, p, c).(pending := s.pending + {HeaderKey(p.header)},
                     acts := s.acts[s.next := RP.Added(RP.Tx(|s.subs|, 0, p))])
  }

  function SentOut(s: RP.State, p: Packet, c: RP.Config, ok: bool): RP.State {
    Tracked(s, p, c).(wire := s.wire + [RP.Tx(|s.subs|, 0, p)],
                      acts := s.acts[s.next := RP.Sent(HeaderKey(p.header), ok)])
  }

  lemma StoreStep(s: RP.State, p: Packet, c: RP.Config)
    ensures RP.Step(s, RP.Submit(p), c) == Stored(s, p, c)
  {
    hide HeaderKey;
  }

  lemma TrackStep(s: RP.State, p: Packet, c: RP.Config, ok: bool)
    requires |s.pending| < c.cap
    ensures RP.Step(Stored(s, p, c), RP.Advance(s.next, ok), c) == Tracked(s, p, c)
  {
    hide HeaderKey;
    var key := HeaderKey(p.header);
    assert s.orphans - {key} - {key} == s.orphans - {key};
    var s1 := Stored(s, p, c);
    assert s1.acts[s.next := RP.Added(RP.Tx(|s.subs|, 0, p))] == Tracked(s, p, c).acts;
  }

  lemma SendStep(s: RP.State, p: Packet, c: RP.Config, ok: bool)
    ensures RP.Step(Tracked(s, p, c), RP.Advance(s.next, ok), c) == SentOut(s, p, c, ok)
  {
    hide HeaderKey;
    var s2 := Tracked(s, p, c);
    assert s2.acts[s.next := RP.Sent(HeaderKey(p.header), ok)] == SentOut(s, p, c, ok).acts;
  }

  lemma EndStep(s: RP.State, p: Packet, c: RP.Config, ok: bool)
    requires s.next !in s.acts
    ensures RP.Step(SentOut(s, p, c, ok), RP.Advance(s.next, ok), c) == Accepted(s, p, c, ok)
  {
    hide HeaderKey;
    var key, s3 := HeaderKey(p.header), SentOut(s, p, c, ok);
    assert s3.acts - {s.next} == s.acts;
    assert s3.store - {key} == s.store - {key};
    assert s3.orphans - {key} == s.orphans - {key};
  }

  lemma AcceptedSend(s: RP.State, p: Packet, c: RP.Config, ok: bool)
    requires s.next !in s.acts && |s.pending| < c.cap
    ensures RP.Run(s, SendOps(s, p, c, ok), c) && RP.After(s, SendOps(s, p, c, ok), c) == Accepted(s, p, c, ok)
  {
    StoreStep(s, p, c);
    TrackStep(s, p, c, ok);
    SendStep(s, p, c, ok);
    EndStep(s, p, c, ok);
    assert s.next in Stored(s, p, c).acts && s.next in Tracked(s, p, c).acts && s.next in SentOut(s, p, c, ok).acts;
    hide RP.Step, Stored, Tracked, SentOut, Accepted, HeaderKey;
    var go := RP.Advance(s.next, ok);
    RP.Chain(SentOut(s, p, c, ok), go, [], Accepted(s, p, c, ok), c);
    RP.Chain(Tracked(s, p, c), go, [go], SentOut(s, p, c, ok), c);
    RP.Chain(Stored(s, p, c), go, [go, go], Tracked(s, p, c), c);
    RP.Chain(s, RP.Submit(p), [go, go, go], Stored(s, p, c), c);
  }

  lemma AcceptedAgrees(s: RP.State, l: Link, p: Packet, c: RP.Config, now: int, sent: int)
    requires Agrees(s, l) && |l.pending| < c.cap
    ensures Agrees(Accepted(s, p, c, sent == 0), Submit(l, p, c.maxRetries, now, c.cap, sent))
  {
    hide MakeKey, StoreOf, PacketsOf;
    var key := HeaderKey(p.header);
    StoreSet(s.store, key, RP.Entry(|s.subs|, p, c.maxRetries, true));
    StoreLess(s.store, key);
    PacketsSnoc(s.wire, RP.Tx(|s.subs|, 0, p));
    assert AddPending(l.pending, p.header, now, c.cap).Keys == l.pending.Keys + {key};
  }

  function Refused(s: RP.State, p: Packet): RP.State {
    var key := HeaderKey(p.header);
    s.(store := s.store - {key}, next := s.next + 1, subs := s.subs + [p], decided := s.decided + [0],
       orphans := s.orphans - {key})
  }

  lemma RefusedSend(s: RP.State, p: Packet, c: RP.Config, ok: bool)
    requires s.next !in s.acts && |s.pending| >= c.cap
    ensures RP.Run(s, SendOps(s, p, c, ok), c) && RP.After(s, SendOps(s, p, c, ok), c) == Refused(s, p)
  {
    hide MakeKey, HeaderKey;
    var id, go, key, t := s.next, RP.Advance(s.next, ok), HeaderKey(p.header), RP.Tx(|s.subs|, 0, p);
    var s1 := RP.Step(s, RP.Submit(p), c);
    assert s1.acts == s.acts[id := RP.Inserted(t)];
    var s2 := RP.Step(s1, go, c);
    assert s2.acts == s.acts[id := RP.Rejected(key)] && s2.acts - {id} == s.acts;
    assert s2.store - {key} == s.store - {key};
    RP.Chain(s2, go, [], Refused(s, p), c);
    RP.Chain(s1, go, [go], s2, c);
    RP.Chain(s, RP.Submit(p), [go, go], s1, c);
  }

  lemma RefusedAgrees(s: RP.State, l: Link, p: Packet, c: RP.Config, now: int, sent: int)
    requires Agrees(s, l) && |l.pending| >= c.cap
    ensures Agrees(Refused(s, p), Submit(l, p, c.maxRetries, now, c.cap, sent))
  {
    hide MakeKey, StoreOf, PacketsOf;
    StoreLess(s.store, HeaderKey(p.header));
  }

  // ---------------------------------------------------------------------------
  // A whole timeout callback
  // ---------------------------------------------------------------------------

  // The steps of the callback with this id, from its critical section to its end.
  function TimeoutOps(s: RP.State, id: nat, key: Key, c: RP.Config): seq<RP.Op> {
    var go := RP.Advance(id, true);
    if key !in s.store || s.store[key].attemptsRemaining <= 0 then [go]
    else if !s.store[key].isSent then [go, go]
    else [go, go, go]
  }

  lemma TimeoutAgrees(s: RP.State, l: Link, id: nat, key: Key, c: RP.Config, now: int)
    requires Agrees(s, l) && RP.BudgetKept(s, c)
    requires id in s.acts && s.acts[id] == RP.GotTimeout(key)
    ensures var ops := TimeoutOps(s, id, key, c);
      && RP.Run(s, ops, c)
      && Agrees(RP.After(s, ops, c), TimeOut(l, key, now, c.cap))
      && RP.After(s, ops, c).acts == s.acts - {id}
  {
    hide MakeKey;
    assert |l.pending| == |s.pending|;
    if key !in s.store || s.store[key].attemptsRemaining <= 0 {
      FinalTimeout(s, l, id, key, c, now);
    } else if !s.store[key].isSent {
      EarlyTimeout(s, l, id, key, c, now);
    } else {
      RetryTimeout(s, l, id, key, c, now);
    }
  }

  lemma FinalTimeout(s: RP.State, l: Link, id: nat, key: Key, c: RP.Config, now: int)
    requires Agrees(s, l) && id in s.acts && s.acts[id] == RP.GotTimeout(key)
    requires key !in s.store || s.store[key].attemptsRemaining <= 0
    ensures RP.Run(s, [RP.Advance(id, true)], c)
    ensures var u := RP.After(s, [RP.Advance(id, true)], c);
      Agrees(u, TimeOut(l, key, now, c.cap)) && u.acts == s.acts - {id}
  {
    hide MakeKey;
    StoreLess(s.store, key);
    var u := RP.Step(s, RP.Advance(id, true), c);
    RP.Chain(s, RP.Advance(id, true), [], u, c);
    assert RP.After(u, [], c) == u;
    hide PacketsOf;
  }

  lemma EarlyTimeout(s: RP.State, l: Link, id: nat, key: Key, c: RP.Config, now: int)
    requires Agrees(s, l) && RP.BudgetKept(s, c) && |l.pending| == |s.pending|
    requires id in s.acts && s.acts[id] == RP.GotTimeout(key)
    requires key in s.store && s.store[key].attemptsRemaining > 0 && !s.store[key].isSent
    ensures var ops := [RP.Advance(id, true), RP.Advance(id, true)]; var u := RP.After(s, ops, c);
      RP.Run(s, ops, c) && Agrees(u, TimeOut(l, key, now, c.cap)) && u.acts == s.acts - {id}
  {
    hide MakeKey;
    var go := RP.Advance(id, true);
    assert HeaderKey(s.store[key].packet.header) == key;
    hide RP.BudgetKept;
    var s1 := s.(acts := s.acts[id := RP.Rereg(key)]);
    assert RP.Step(s, go, c) == s1 by { hide HeaderKey; }
    var s2 := RP.Finish(RP.Reregister(s1, key, c), id);
    RP.Chain(s1, go, [], s2, c);
    RP.Chain(s, go, [go], s1, c);
    Reregistered(s1, l, key, c, now);
    assert s1.acts - {id} == s.acts - {id};
    hide RP.Reregister, TimeOut, StoreOf, PacketsOf, HeaderKey, RP.Step;
  }

  lemma Reregistered(s: RP.State, l: Link, key: Key, c: RP.Config, now: int)
    requires Agrees(s, l) && |l.pending| == |s.pending| && key in s.store
    requires s.store[key].attemptsRemaining > 0 && !s.store[key].isSent
    requires HeaderKey(s.store[key].packet.header) == key
    ensures Agrees(RP.Reregister(s, key, c), TimeOut(l, key, now, c.cap))
    ensures RP.Reregister(s, key, c).acts == s.acts
  {
    hide MakeKey, PacketsOf;
  }

  lemma RetryTimeout(s: RP.State, l: Link, id: nat, key: Key, c: RP.Config, now: int)
    requires Agrees(s, l) && RP.BudgetKept(s, c) && |l.pending| == |s.pending|
    requires id in s.acts && s.acts[id] == RP.GotTimeout(key)
    requires key in s.store && s.store[key].attemptsRemaining > 0 && s.store[key].isSent
    ensures var ops := [RP.Advance(id, true), RP.Advance(id, true), RP.Advance(id, true)]; var u := RP.After(s, ops, c);
      RP.Run(s, ops, c) && Agrees(u, TimeOut(l, key, now, c.cap)) && u.acts == s.acts - {id}
  {
    hide MakeKey;
    var go, e := RP.Advance(id, true), s.store[key];
    assert HeaderKey(e.packet.header) == key;
    var t := RP.Tx(e.sub, s.decided[e.sub] + 1, e.packet);
    var v := RP.Spend(s, key);
    var s1 := v.(acts := s.acts[id := RP.Retrying(t)]);
    assert RP.Step(s, go, c) == s1 by { hide HeaderKey; }
    hide RP.BudgetKept;
    RetryEnds(s, s1, l, id, key, t, c, now);
    RP.Chain(s, go, [go, go], s1, c);
  }

  lemma RetryEnds(s: RP.State, s1: RP.State, l: Link, id: nat, key: Key, t: RP.Tx, c: RP.Config, now: int)
    requires Agrees(s, l) && |l.pending| == |s.pending| && id in s.acts && key in s.store
    requires s.store[key].attemptsRemaining > 0 && s.store[key].isSent
    requires t.packet == s.store[key].packet && HeaderKey(t.packet.header) == key
    requires s1 == RP.Spend(s, key).(acts := s.acts[id := RP.Retrying(t)])
    ensures var go := RP.Advance(id, true); var u := RP.After(s1, [go, go], c);
      RP.Run(s1, [go, go], c) && Agrees(u, TimeOut(l, key, now, c.cap)) && u.acts == s.acts - {id}
  {
    hide MakeKey, Agrees, TimeOut;
    RetryTail(s1, id, key, t, c);
    var u := RetryEnd(s1, id, key, t, c);
    RetryEndActs(s, s1, id, key, t, c);
    if |s.pending| < c.cap {
      ResentAgrees(s, u, l, key, t, c, now);
    } else {
      DroppedAgrees(s, u, l, key, c, now);
    }
  }

  // Where the rest of a retry leads.
  function RetryEnd(s1: RP.State, id: nat, key: Key, t: RP.Tx, c: RP.Config): RP.State {
    if |s1.pending| < c.cap then RP.Finish(RP.Transmit(RP.Track(s1, key), t), id)
    else RP.Finish(RP.Erase(s1, key), id)
  }

  lemma RetryTail(s1: RP.State, id: nat, key: Key, t: RP.Tx, c: RP.Config)
    requires id in s1.acts && s1.acts[id] == RP.Retrying(t) && RP.TxKey(t) == key
    ensures var go := RP.Advance(id, true);
      RP.Run(s1, [go, go], c) && RP.After(s1, [go, go], c) == RetryEnd(s1, id, key, t, c)
  {
    hide HeaderKey;
    var go := RP.Advance(id, true);
    var s2 := if |s1.pending| < c.cap then RP.Goto(RP.Track(s1, key), id, RP.RetryAdded(t))
              else RP.Goto(s1, id, RP.RetryRejected(key));
    assert s2.acts - {id} == s1.acts - {id};
    RP.Chain(s2, go, [], RetryEnd(s1, id, key, t, c), c);
    RP.Chain(s1, go, [go], s2, c);
  }

  lemma RetryEndActs(s: RP.State, s1: RP.State, id: nat, key: Key, t: RP.Tx, c: RP.Config)
    requires key in s.store && s1 == RP.Spend(s, key).(acts := s.acts[id := RP.Retrying(t)])
    ensures var u := RetryEnd(s1, id, key, t, c); var e := s.store[key];
      && u.acts == s.acts - {id}
      && u.pending == (if |s.pending| < c.cap then s.pending + {key} else s.pending)
      && u.wire == (if |s.pending| < c.cap then s.wire + [t] else s.wire)
      && u.store == if |s.pending| < c.cap then s.store[key := e.(attemptsRemaining := e.attemptsRemaining - 1)]
                    else s.store - {key}
  {
    assert s1.acts - {id} == s.acts - {id};
    assert s1.store - {key} == s.store - {key};
  }

  lemma ResentAgrees(s: RP.State, u: RP.State, l: Link, key: Key, t: RP.Tx, c: RP.Config, now: int)
    requires Agrees(s, l) && |l.pending| < c.cap && key in s.store
    requires s.store[key].attemptsRemaining > 0 && s.store[key].isSent
    requires t.packet == s.store[key].packet && HeaderKey(t.packet.header) == key
    requires u.pending == s.pending + {key} && u.wire == s.wire + [t]
    requires var e := s.store[key]; u.store == s.store[key := e.(attemptsRemaining := e.attemptsRemaining - 1)]
    ensures Agrees(u, TimeOut(l, key, now, c.cap))
  {
    var e := s.store[key];
    StoreSet(s.store, key, e.(attemptsRemaining := e.attemptsRemaining - 1));
    PacketsSnoc(s.wire, t);
    assert key in l.store && l.store[key] == RetryEntry(e.packet, e.attemptsRemaining, e.isSent);
    hide MakeKey, StoreOf, PacketsOf;
  }

  lemma DroppedAgrees(s: RP.State, u: RP.State, l: Link, key: Key, c: RP.Config, now: int)
    requires Agrees(s, l) && |l.pending| >= c.cap && key in s.store
    requires s.store[key].attemptsRemaining > 0 && s.store[key].isSent
    requires u.pending == s.pending && u.wire == s.wire && u.store == s.store - {key}
    ensures Agrees(u, TimeOut(l, key, now, c.cap))
  {
    StoreLess(s.store, key);
    assert key in l.store && l.store[key].attemptsRemaining > 0 && l.store[key].isSent;
    hide MakeKey, StoreOf, PacketsOf;
  }

  // A whole SUCCESS callback.
  lemma AckAgrees(s: RP.State, l: Link, id: nat, key: Key, c: RP.Config, ok: bool)
    requires Agrees(s, l) && id in s.acts && s.acts[id] == RP.GotAck(key)
    ensures var ops := [RP.Advance(id, ok)]; var u := RP.After(s, ops, c);
      RP.Run(s, ops, c) && Agrees(u, Confirm(l, key)) && u.acts == s.acts - {id}
  {
    hide HeaderKey;
    StoreLess(s.store, key);
    var u := RP.Finish(RP.Erase(s, key), id);
    RP.Chain(s, RP.Advance(id, ok), [], u, c);
    assert RP.After(u, [], c) == u;
    hide StoreOf, PacketsOf;
  }

  // The monitor's part of a callback: it takes the key out, and the call begins.
  lemma TakenOut(s: RP.State, l: Link, key: Key, c: RP.Config)
    requires Agrees(s, l) && s.next !in s.acts && key in s.pending
    ensures var u := RP.Step(s, RP.Acknowledge(key), c);
      && RP.Enabled(s, RP.Acknowledge(key)) && Agrees(u, l.(pending := l.pending - {key}))
      && s.next in u.acts && u.acts[s.next] == RP.GotAck(key) && u.acts - {s.next} == s.acts
    ensures var u := RP.Step(s, RP.Expire(key), c);
      && RP.Enabled(s, RP.Expire(key)) && Agrees(u, l.(pending := l.pending - {key}))
      && s.next in u.acts && u.acts[s.next] == RP.GotTimeout(key) && u.acts - {s.next} == s.acts
  {
    hide StoreOf, PacketsOf;
    assert (l.pending - {key}).Keys == l.pending.Keys - {key};
    assert s.acts[s.next := RP.GotAck(key)] - {s.next} == s.acts;
    assert s.acts[s.next := RP.GotTimeout(key)] - {s.next} == s.acts;
  }

  // A whole acknowledgement, from the monitor's map to the erased entry.
  lemma AcknowledgeAgrees(s: RP.State, l: Link, seqNum: SeqNum, id: Id, c: RP.Config)
    requires Agrees(s, l) && s.next !in s.acts && WellKeyed(l.pending)
    requires Acknowledged(l.pending, seqNum, id).Some?
    ensures var ops := [RP.Acknowledge(Acknowledged(l.pending, seqNum, id).value), RP.Advance(s.next, true)];
      var u := RP.After(s, ops, c);
      RP.Run(s, ops, c) && Agrees(u, RetryRuns.AckLink(l, seqNum, id)) && u.acts == s.acts
  {
    var key := RetryRuns.AckKey(l, seqNum, id);
    RetryRuns.AckedOwnKey(l.pending, seqNum, id, key);
    hide Acknowledged, MakeKey, WellKeyed;
    TakenOut(s, l, key, c);
    var u := RP.Step(s, RP.Acknowledge(key), c);
    hide Agrees, RP.Step;
    AckAgrees(u, l.(pending := l.pending - {key}), s.next, key, c, true);
    RP.Chain(s, RP.Acknowledge(key), [RP.Advance(s.next, true)], u, c);
  }
}
