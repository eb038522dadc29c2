// A dispatch from the sender to the handler: the path the protocol provides, step by
// step, from any state a run can be in.

module EndToEnd {
  import opened Packets
  import opened MonitorKeys
  import opened RetryStore
  import opened DuplicateFilter
  import opened Dispatching
  import opened Delivery
  import RP = RetryProtocol
  import RA = RetryAgreement

  // The steps of one sender's protocol as steps of the whole system.
  function Lift(i: nat, ops: seq<RP.Op>): seq<Op> {
    seq(|ops|, k requires 0 <= k < |ops| => Protocol(i, ops[k]))
  }

  function WithLink(w: World, i: nat, l: RP.State): World
    requires i < |w.senders|
  {
    w.(senders := w.senders[i := w.senders[i].(link := l)])
  }

  lemma {:induction false} LiftRun(w: World, i: nat, ops: seq<RP.Op>, c: Config)
    requires i < |w.senders| && RP.Run(w.senders[i].link, ops, c.retry)
    requires forall op | op in ops :: !op.Submit?
    ensures Run(w, Lift(i, ops), c)
    ensures After(w, Lift(i, ops), c) == WithLink(w, i, RP.After(w.senders[i].link, ops, c.retry))
    decreases ops
  {
    hide RP.Step, RP.Enabled;
    if ops == [] {
      assert w.senders[i := w.senders[i]] == w.senders;
    } else {
      var l := RP.Step(w.senders[i].link, ops[0], c.retry);
      var u := WithLink(w, i, l);
      assert Step(w, Protocol(i, ops[0]), c) == u;
      assert Lift(i, ops)[1..] == Lift(i, ops[1..]);
      assert ops[0] in ops;
      LiftRun(u, i, ops[1..], c);
      assert WithLink(u, i, RP.After(l, ops[1..], c.retry)) == WithLink(w, i, RP.After(l, ops[1..], c.retry));
    }
  }

  lemma {:induction false} Concat(w: World, a: seq<Op>, b: seq<Op>, c: Config)
    ensures After(w, a + b, c) == After(After(w, a, c), b, c)
    ensures Run(w, a, c) && Run(After(w, a, c), b, c) ==> Run(w, a + b, c)
    decreases a
  {
    hide Step, Enabled;
    if a == [] {
      assert a + b == b;
    } else {
      Concat(Step(w, a[0], c), a[1..], b, c);
      assert (a + b)[0] == a[0] && (a + b)[1..] == a[1..] + b;
    }
  }

  // The call is numbered, and its packet handed to SendWithRetry.
  lemma DispatchSubmit(w: World, i: nat, id: Id, payload: Bytes, c: Config)
    requires i < |w.senders| && forall n | n in w.senders[i].waiting :: n < |w.senders[i].dispatched|
    ensures var n := |w.senders[i].dispatched|; var ops := [Dispatch(i, id, payload), Submit(i, n)];
      var u := After(w, ops, c); var p := Packet(Header(HEADER_MARKER, id, n % 0x1_0000, 0), payload);
      && Run(w, ops, c) && |u.senders| == |w.senders|
      && u.senders[i].link == RP.Step(w.senders[i].link, RP.Submit(p), c.retry)
      && u.history == w.history && u.channels == w.channels && u.handled == w.handled
  {
    hide RP.Step;
    var n := |w.senders[i].dispatched|;
    var ops := [Dispatch(i, id, payload), Submit(i, n)];
    var u := Step(w, ops[0], c);
    var v := Step(u, ops[1], c);
    assert ops[1..] == [ops[1]] && ops[1..][1..] == [];
    assert After(v, [], c) == v;
    assert Run(v, [], c);
    assert After(u, [ops[1]], c) == v && Run(u, [ops[1]], c);
  }

  function Sent(n: nat, id: Id, payload: Bytes): Packet {
    Packet(Header(HEADER_MARKER, id, n % 0x1_0000, 0), payload)
  }

  // The same receiver, and one sender's protocol in state l.
  ghost predicate Reached(w: World, i: nat, u: World, l: RP.State) {
    && i < |u.senders| && |u.senders| == |w.senders| && u.senders[i].link == l
    && u.history == w.history && u.channels == w.channels && u.handled == w.handled
  }

  // The whole of an accepted dispatch, up to the end of SendWithRetry.
  lemma SendOff(w: World, i: nat, id: Id, payload: Bytes, c: Config) returns (ops: seq<Op>)
    requires Inv(w, c) && i < |w.senders| && |w.senders[i].link.pending| < c.retry.cap
    ensures Run(w, ops, c) && forall op | op in ops :: !op.Deliver?
    ensures var s := w.senders[i];
      Reached(w, i, After(w, ops, c), RA.Accepted(s.link, Sent(|s.dispatched|, id, payload), c.retry, true))
  {
    var s := w.senders[i];
    var n, l, go := |s.dispatched|, s.link, RP.Advance(s.link.next, true);
    var p := Sent(n, id, payload);
    var start := [Dispatch(i, id, payload), Submit(i, n)];
    assert SenderOk(s, c.retry);
    assert l.next !in l.acts by { hide RP.BudgetKept, RP.AttemptsDistinct, RP.Cover; }
    hide Inv, SenderOk, RP.Inv, RP.Step, RA.Accepted;
    DispatchSubmit(w, i, id, payload, c);
    var u := After(w, start, c);
    RA.AcceptedSend(l, p, c.retry, true);
    ThreeMore(l, p, go, c.retry);
    ops := Lift(i, [go, go, go]);
    hide RP.Run, RP.After;
    LiftRun(u, i, [go, go, go], c);
    Concat(w, start, ops, c);
    hide Run, After;
    assert forall op | op in ops :: op.Protocol?;
    ops := start + ops;
  }

  lemma ThreeMore(l: RP.State, p: Packet, go: RP.Op, c: RP.Config)
    requires RP.Run(l, [RP.Submit(p), go, go, go], c)
    ensures var m := RP.Step(l, RP.Submit(p), c);
      RP.Run(m, [go, go, go], c) && RP.After(m, [go, go, go], c) == RP.After(l, [RP.Submit(p), go, go, go], c)
  {
    hide RP.Step;
    assert [RP.Submit(p), go, go, go][1..] == [go, go, go];
  }

  // The number is not among the last size accepted for the id.
  ghost predicate Unseen(w: World, id: Id, s: SeqNum, size: nat) {
    var a := HistoryOf(w.history, id);
    id == ACK_REMOTE_ID || forall k | 0 <= k < |a| && |a| - k <= size :: a[k] != s
  }

  // A packet on the wire, handed over twice: its handler is invoked the first time only.
  lemma Arrives(w: World, i: nat, j: nat, c: Config)
    requires Inv(w, c) && i < |w.senders| && j < |w.senders[i].link.wire|
    requires var p := w.senders[i].link.wire[j].packet;
      p.header.id in w.channels && Unseen(w, p.header.id, p.header.seqNum, c.size)
    ensures var u := Step(w, Deliver(i, j), c); var h := w.senders[i].link.wire[j].packet.header;
      && u.handled == w.handled + [Handled(h.id, h.seqNum, w.senders[i].link.wire[j].packet.payload,
                                           |HistoryOf(w.history, h.id)|)]
      && (h.id != ACK_REMOTE_ID && c.size > 0 ==> Step(u, Deliver(i, j), c).handled == u.handled)
  {
    var u := Step(w, Deliver(i, j), c);
    StepInv(w, Deliver(i, j), c);
    DeliverStep(w, i, j, c);
    hide Inv, Step;
    DeliverStep(u, i, j, c);
    var h := w.senders[i].link.wire[j].packet.header;
    var a, b := HistoryOf(w.history, h.id), HistoryOf(u.history, h.id);
    assert h.id != ACK_REMOTE_ID ==> b[|a|] == h.seqNum;
  }

  lemma ThenDeliver(w: World, ops: seq<Op>, i: nat, j: nat, c: Config)
    requires Run(w, ops, c) && Enabled(After(w, ops, c), Deliver(i, j))
    ensures var u := After(w, ops, c); var v := Step(u, Deliver(i, j), c);
      && Run(w, ops + [Deliver(i, j)], c) && After(w, ops + [Deliver(i, j)], c) == v
      && After(w, ops + [Deliver(i, j), Deliver(i, j)], c) == Step(v, Deliver(i, j), c)
  {
    hide Step, Enabled;
    var op := Deliver(i, j);
    var u := After(w, ops, c);
    One(u, op, c);
    Concat(w, ops, [op], c);
    One(Step(u, op, c), op, c);
    Concat(u, [op], [op], c);
    assert [op] + [op] == [op, op];
    Concat(w, ops, [op, op], c);
  }

  lemma One(w: World, op: Op, c: Config)
    ensures After(w, [op], c) == Step(w, op, c) && (Enabled(w, op) ==> Run(w, [op], c))
  {
    hide Step, Enabled;
    assert [op][1..] == [];
    assert After(Step(w, op, c), [], c) == Step(w, op, c) && Run(Step(w, op, c), [], c);
  }

  // ---------------------------------------------------------------------------
  // Lost transmissions
  // ---------------------------------------------------------------------------

  // A sent entry with attempts left, whose key is pending.
  ghost predicate Retryable(l: RP.State, key: Key, p: Packet, left: int) {
    && key in l.pending && key in l.store && HeaderKey(p.header) == key
    && l.store[key].packet == p && l.store[key].isSent && l.store[key].attemptsRemaining == left
  }

  // An entry's timeout is told, and its retry is not disturbed.
  lemma RetryOnce(l: RP.State, key: Key, p: Packet, left: int, c: RP.Config)
    requires RP.Inv(l, c) && Retryable(l, key, p, left) && left > 0
    ensures var go := RP.Advance(l.next, true); var ops := [RP.Expire(key), go, go, go];
      var u := RP.After(l, ops, c);
      && RP.Run(l, ops, c) && Retryable(u, key, p, left - 1)
      && |u.wire| == |l.wire| + 1 && l.wire <= u.wire && u.wire[|l.wire|].packet == p
  {
    hide HeaderKey;
    var go, e := RP.Advance(l.next, true), l.store[key];
    var t := RP.Tx(e.sub, l.decided[e.sub] + 1, p);
    var m := RP.Step(l, RP.Expire(key), c);
    var s1 := RP.Spend(m, key).(acts := m.acts[l.next := RP.Retrying(t)]);
    assert RP.Step(m, go, c) == s1;
    assert |s1.pending| < c.cap;
    hide RP.Inv;
    RA.RetryTail(s1, l.next, key, t, c);
    RP.Chain(m, go, [go, go], s1, c);
    RP.Chain(l, RP.Expire(key), [go, go, go], m, c);
    hide RP.Run, RP.After;
  }

  // As many retries as there are attempts left, if need be.
  lemma {:induction false} Retries(l: RP.State, key: Key, p: Packet, left: int, k: nat, c: RP.Config)
    returns (ops: seq<RP.Op>)
    requires RP.Inv(l, c) && Retryable(l, key, p, left) && k <= left
    ensures RP.Run(l, ops, c) && forall op | op in ops :: !op.Submit?
    ensures var u := RP.After(l, ops, c);
      |u.wire| == |l.wire| + k && l.wire <= u.wire && forall x | |l.wire| <= x < |u.wire| :: u.wire[x].packet == p
    decreases k
  {
    if k == 0 {
      ops := [];
    } else {
      var go := RP.Advance(l.next, true);
      var one := [RP.Expire(key), go, go, go];
      RetryOnce(l, key, p, left, c);
      hide RP.Inv, Retryable, RP.Step, RP.Enabled;
      RP.RunInv(l, one, c);
      var u := RP.After(l, one, c);
      var rest := Retries(u, key, p, left - 1, k - 1, c);
      LinkConcat(l, one, rest, c);
      ops := one + rest;
    }
  }

  lemma {:induction false} LinkConcat(l: RP.State, a: seq<RP.Op>, b: seq<RP.Op>, c: RP.Config)
    ensures RP.After(l, a + b, c) == RP.After(RP.After(l, a, c), b, c)
    ensures RP.Run(l, a, c) && RP.Run(RP.After(l, a, c), b, c) ==> RP.Run(l, a + b, c)
    decreases a
  {
    hide RP.Step, RP.Enabled;
    if a == [] {
      assert a + b == b;
    } else {
      LinkConcat(RP.Step(l, a[0], c), a[1..], b, c);
      assert (a + b)[0] == a[0] && (a + b)[1..] == a[1..] + b;
    }
  }

  lemma AcceptedRetryable(l: RP.State, p: Packet, c: RP.Config)
    ensures Retryable(RA.Accepted(l, p, c, true), HeaderKey(p.header), p, c.maxRetries)
  {
    hide HeaderKey;
  }

  // A dispatch and k retries of it, none of which has arrived yet.
  lemma SendAndRetry(w: World, i: nat, id: Id, payload: Bytes, k: nat, c: Config) returns (ops: seq<Op>)
    requires Inv(w, c) && i < |w.senders| && |w.senders[i].link.pending| < c.retry.cap
    requires k == 0 || k <= c.retry.maxRetries
    ensures Run(w, ops, c) && forall op | op in ops :: !op.Deliver?
    ensures var s, u := w.senders[i], After(w, ops, c); var x := |s.link.wire| + k;
      && i < |u.senders| && u.history == w.history && u.channels == w.channels && u.handled == w.handled
      && |u.senders[i].link.wire| == x + 1 && s.link.wire <= u.senders[i].link.wire
      && (forall y | |s.link.wire| <= y <= x ::
            u.senders[i].link.wire[y].packet == Sent(|s.dispatched|, id, payload))
  {
    var s := w.senders[i];
    var p := Sent(|s.dispatched|, id, payload);
    hide Inv, Retryable;
    ops := SendOff(w, i, id, payload, c);
    var u := After(w, ops, c);
    if k > 0 {
      RunInv(w, ops, c);
      LinkOk(u, i, c);
      AcceptedRetryable(s.link, p, c.retry);
      var more := Retries(u.senders[i].link, HeaderKey(p.header), p, c.retry.maxRetries, k, c.retry);
      hide Run, After, RP.Run, RP.After, RP.Inv, HeaderKey;
      LiftRun(u, i, more, c);
      Concat(w, ops, Lift(i, more), c);
      ops := ops + Lift(i, more);
    }
  }

  lemma LinkOk(w: World, i: nat, c: Config)
    requires Inv(w, c) && i < |w.senders|
    ensures RP.Inv(w.senders[i].link, c.retry)
  {
    assert SenderOk(w.senders[i], c.retry);
    hide RP.Inv;
  }

  // In every run: while the monitor has room, a dispatch whose id has a handler and whose
  // number is not remembered gets through if any of its 1 + maxRetries transmissions
  // does. The first k may be lost: the next is an identical packet, it invokes the handler
  // with the payload, and a second copy of it invokes nothing.
  lemma AnyTransmissionSuffices(senders: nat, before: seq<Op>, c: Config, i: nat, id: Id, payload: Bytes, k: nat)
    returns (later: seq<Op>)
    requires Run(Initial(senders), before, c) && (k == 0 || k <= c.retry.maxRetries)
    requires var w := After(Initial(senders), before, c);
      && i < |w.senders| && |w.senders[i].link.pending| < c.retry.cap && id in w.channels
      && Unseen(w, id, |w.senders[i].dispatched| % 0x1_0000, c.size)
    ensures var w := After(Initial(senders), before, c); var s := w.senders[i];
      var arrival := Deliver(i, |s.link.wire| + k);
      && Run(w, later + [arrival], c)
      && (forall op | op in later :: !op.Deliver?)
      && After(w, later + [arrival], c).handled
         == w.handled + [Handled(id, |s.dispatched| % 0x1_0000, payload, |HistoryOf(w.history, id)|)]
      && (id != ACK_REMOTE_ID && c.size > 0 ==>
            After(w, later + [arrival, arrival], c).handled == After(w, later + [arrival], c).handled)
  {
    Reachable(senders, before, c);
    var w := After(Initial(senders), before, c);
    hide After, Run, Inv, Step;
    later := SendAndRetry(w, i, id, payload, k, c);
    RunInv(w, later, c);
    var u, j := After(w, later, c), |w.senders[i].link.wire| + k;
    Arrives(u, i, j, c);
    ThenDeliver(w, later, i, j, c);
  }
}
