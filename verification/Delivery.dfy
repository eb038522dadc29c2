// End to end: dispatchers number the packets, the retry protocol sends them over a
// channel that loses, duplicates, delays and reorders, and a participant filters what
// arrives before it invokes a handler.

module Dispatching {
  import opened Packets

  function NextSeq(s: SeqNum): SeqNum {
    (s + 1) % 0x1_0000
  }

  // The packet of the n-th dispatch, counted from 0.
  function Numbered(n: nat, id: Id, payload: Bytes): Packet {
    Packet(Header(HEADER_MARKER, id, n % 0x1_0000, 0), payload)
  }

  lemma NextNumber(n: nat)
    ensures NextSeq(n % 0x1_0000) == (n + 1) % 0x1_0000
  {}

  // Two dispatches with one number are whole turns of the counter apart.
  lemma SameNumber(m: nat, n: nat)
    requires m < n && m % 0x1_0000 == n % 0x1_0000
    ensures n - m >= 0x1_0000
  {}

  // The stream a call is serialized into.
  class OutStream {
    var content: Bytes

    constructor (content: Bytes)
      ensures this.content == content
    {
      this.content := content;
    }
  }

  // The static counter that all dispatchers of a process share; sent are the packets any
  // of them has numbered.
  class SequenceCounter {
    var seqNum: SeqNum
    ghost var sent: seq<Packet>

    ghost predicate Valid()
      reads this
    {
      && seqNum == |sent| % 0x1_0000
      && forall n | 0 <= n < |sent| :: sent[n] == Numbered(n, sent[n].header.id, sent[n].payload)
    }

    constructor ()
      ensures Valid() && sent == []
    {
      seqNum, sent := 0, [];
    }

    method FetchAdd(id: Id, ghost payload: Bytes) returns (s: SeqNum)
      requires Valid()
      modifies this
      ensures Valid() && s == |old(sent)| % 0x1_0000
      ensures sent == old(sent) + [Packet(Header(HEADER_MARKER, id, s, 0), payload)]
    {
      s := seqNum;
      seqNum := NextSeq(seqNum);
      NextNumber(|sent|);
      sent := sent + [Numbered(|sent|, id, payload)];
    }
  }

  class Dispatcher {
    const counter: SequenceCounter
    var connected: bool
    ghost var sent: seq<Packet>

    constructor (counter: SequenceCounter)
      ensures this.counter == counter && !connected && sent == []
    {
      this.counter, connected, sent := counter, false, [];
    }

    method SetTransport(present: bool)
      modifies `connected
      ensures connected == present
    {
      connected := present;
    }

    // err is what the transport's Send returns. The number is the process's count of
    // dispatches, whichever dispatchers made them.
    method Dispatch(os: OutStream, id: Id, err: int) returns (result: int, outSeqNum: SeqNum)
      requires counter.Valid()
      modifies this`sent, counter, os
      ensures counter.Valid()
      ensures connected ==>
                var p := Packet(Header(HEADER_MARKER, id, |old(counter.sent)| % 0x1_0000, 0), old(os.content));
                && counter.sent == old(counter.sent) + [p] && sent == old(sent) + [p]
                && result == err && outSeqNum == p.header.seqNum && os.content == []
      ensures !connected ==>
                && result == -1 && sent == old(sent) && os.content == old(os.content)
                && counter.sent == old(counter.sent) && counter.seqNum == old(counter.seqNum)
    {
      outSeqNum := 0;
      if connected {
        outSeqNum := counter.FetchAdd(id, os.content);
        sent := sent + [Packet(Header(HEADER_MARKER, id, outSeqNum, 0), os.content)];
        result := err;
        os.content := [];
        return;
      }
      return -1, outSeqNum;
    }
  }
}

module Delivery {
  import opened Packets
  import opened MonitorKeys
  import opened TransportMonitors
  import opened RetryStore
  import opened DuplicateFilter
  import opened Participants
  import opened Dispatching
  import RP = RetryProtocol

  // One sending process, with one counter: its dispatched packets, those not yet handed to
  // SendWithRetry, and its retry protocol.
  datatype Sender = Sender(dispatched: seq<Packet>, waiting: set<nat>, link: RP.State)

  // A handler invocation, and the place its number took among those accepted for its id.
  datatype Handled = Handled(id: Id, seqNum: SeqNum, payload: Bytes, at: nat)

  datatype World = World(senders: seq<Sender>, history: map<Id, Accepted>, channels: set<Id>, handled: seq<Handled>)

  datatype Config = Config(retry: RP.Config, size: nat)

  datatype Op =
    | Dispatch(i: nat, id: Id, payload: Bytes)
    | Submit(i: nat, n: nat)
    | Protocol(i: nat, op: RP.Op)
    | Deliver(i: nat, j: nat)
    | Register(id: Id)

  // The channel may hand over any transmission, at any later time, any number of times.
  ghost predicate Enabled(w: World, op: Op) {
    match op
    case Dispatch(i, _, _) => i < |w.senders|
    case Submit(i, n) => i < |w.senders| && n in w.senders[i].waiting
    case Protocol(i, o) => i < |w.senders| && !o.Submit? && RP.Enabled(w.senders[i].link, o)
    case Deliver(i, j) => i < |w.senders| && j < |w.senders[i].link.wire|
    case Register(_) => true
  }

  function HistoryOf(h: map<Id, Accepted>, id: Id): Accepted {
    if id in h then h[id] else []
  }

  function Receive(w: World, p: Packet, size: nat): World {
    var id := p.header.id;
    var a := HistoryOf(w.history, id);
    w.(history := w.history[id := Filtered(a, id, p, size)],
       handled := if Fate(a, p, size, w.channels).Invoked?
                  then w.handled + [Handled(id, p.header.seqNum, p.payload, |a|)] else w.handled)
  }

  function NextSender(s: Sender, op: Op, c: RP.Config): Sender {
    match op
    case Dispatch(_, id, payload) =>
      s.(dispatched := s.dispatched + [Numbered(|s.dispatched|, id, payload)],
         waiting := s.waiting + {|s.dispatched|})
    case Submit(_, n) =>
      if n < |s.dispatched| then
        s.(waiting := s.waiting - {n}, link := RP.Step(s.link, RP.Submit(s.dispatched[n]), c))
      else s
    case Protocol(_, o) => s.(link := RP.Step(s.link, o, c))
    case _ => s
  }

  function Step(w: World, op: Op, c: Config): World {
    match op
    case Register(id) => w.(channels := w.channels + {id})
    case Deliver(i, j) =>
      if i < |w.senders| && j < |w.senders[i].link.wire| then
        Receive(w, w.senders[i].link.wire[j].packet, c.size)
      else w
    case _ =>
      if op.i < |w.senders| then w.(senders := w.senders[op.i := NextSender(w.senders[op.i], op, c.retry)]) else w
  }

  ghost predicate Run(w: World, ops: seq<Op>, c: Config)
    decreases ops
  {
    ops == [] || (Enabled(w, ops[0]) && Run(Step(w, ops[0], c), ops[1..], c))
  }

  function After(w: World, ops: seq<Op>, c: Config): World
    decreases ops
  {
    if ops == [] then w else After(Step(w, ops[0], c), ops[1..], c)
  }

  function Initial(senders: nat): World {
    World(seq(senders, _ => Sender([], {}, RP.EMPTY)), map[], {}, [])
  }

  // ---------------------------------------------------------------------------
  // Senders put only dispatched packets on the wire
  // ---------------------------------------------------------------------------

  ghost predicate SenderOk(s: Sender, c: RP.Config) {
    && (forall n | 0 <= n < |s.dispatched| ::
          s.dispatched[n] == Numbered(n, s.dispatched[n].header.id, s.dispatched[n].payload))
    && (forall n | n in s.waiting :: n < |s.dispatched|)
    && (forall p | p in s.link.subs :: p in s.dispatched)
    && RP.Inv(s.link, c)
  }

  lemma DispatchOk(s: Sender, op: Op, c: RP.Config)
    requires SenderOk(s, c) && op.Dispatch?
    ensures SenderOk(NextSender(s, op, c), c)
  {
    hide RP.Inv;
  }

  lemma SubmitOk(s: Sender, op: Op, c: RP.Config)
    requires SenderOk(s, c) && op.Submit? && op.n in s.waiting
    ensures SenderOk(NextSender(s, op, c), c)
  {
    RP.StepInv(s.link, RP.Submit(s.dispatched[op.n]), c);
    SubsAfterSubmit(s.link, s.dispatched[op.n], c);
    hide RP.Inv, RP.Step, Numbered;
  }

  lemma SubsAfterSubmit(l: RP.State, p: Packet, c: RP.Config)
    ensures RP.Step(l, RP.Submit(p), c).subs == l.subs + [p]
  {
    hide HeaderKey;
  }

  lemma ProtocolOk(s: Sender, op: Op, c: RP.Config)
    requires SenderOk(s, c) && op.Protocol? && !op.op.Submit? && RP.Enabled(s.link, op.op)
    ensures SenderOk(NextSender(s, op, c), c)
  {
    RP.StepInv(s.link, op.op, c);
    SubsAfterOther(s.link, op.op, c);
    hide RP.Inv, RP.Step, Numbered;
  }

  lemma SubsAfterOther(l: RP.State, op: RP.Op, c: RP.Config)
    requires !op.Submit?
    ensures RP.Step(l, op, c).subs == l.subs
  {
    hide HeaderKey;
    if op.Advance? && op.id in l.acts && l.acts[op.id].GotTimeout? {
      SubsAfterTimeout(l, op.id);
    }
    hide RP.OnTimeout;
  }

  lemma SubsAfterTimeout(l: RP.State, id: nat)
    requires id in l.acts && l.acts[id].GotTimeout?
    ensures RP.OnTimeout(l, id, l.acts[id].key).subs == l.subs
  {
    hide HeaderKey;
  }

  lemma WireDispatched(s: Sender, c: RP.Config, j: nat)
    requires SenderOk(s, c) && j < |s.link.wire|
    ensures s.link.wire[j].packet in s.dispatched
    ensures s.link.wire[j].packet.header.marker == HEADER_MARKER
  {
    hide RP.Cover, RP.ActsOk, RP.BudgetKept;
    assert s.link.wire[j] in s.link.wire;
    assert s.link.wire[j].packet in s.link.subs;
  }

  // ---------------------------------------------------------------------------
  // The receiver
  // ---------------------------------------------------------------------------

  ghost predicate Dispatched(senders: seq<Sender>, p: Packet) {
    exists i :: 0 <= i < |senders| && p in senders[i].dispatched
  }

  function PacketOf(h: Handled): Packet {
    Packet(Header(HEADER_MARKER, h.id, h.seqNum, 0), h.payload)
  }

  // Every invocation is of a dispatched packet.
  ghost predicate Authentic(w: World) {
    forall h | h in w.handled :: Dispatched(w.senders, PacketOf(h))
  }

  // Each invocation has its own place among the numbers accepted for its id.
  ghost predicate Placed(w: World) {
    && (forall x | 0 <= x < |w.handled| && w.handled[x].id != ACK_REMOTE_ID ::
          var a := HistoryOf(w.history, w.handled[x].id);
          w.handled[x].at < |a| && a[w.handled[x].at] == w.handled[x].seqNum)
    && (forall x, y | 0 <= x < y < |w.handled| && w.handled[x].id == w.handled[y].id != ACK_REMOTE_ID ::
          w.handled[x].at < w.handled[y].at)
  }

  ghost predicate HistoriesSpaced(w: World, size: nat) {
    forall id | id in w.history :: Spaced(w.history[id], size)
  }

  lemma ReceivePlaced(w: World, p: Packet, size: nat)
    requires Placed(w)
    ensures Placed(Receive(w, p, size))
  {
    var id := p.header.id;
    var a := HistoryOf(w.history, id);
    var u := Receive(w, p, size);
    var b := HistoryOf(u.history, id);
    assert a <= b;
    assert u.handled != w.handled && id != ACK_REMOTE_ID ==> b == a + [p.header.seqNum];
    hide Fate, Filtered, Offer, Recent;
  }

  lemma ReceiveSpaced(w: World, p: Packet, size: nat)
    requires HistoriesSpaced(w, size)
    ensures HistoriesSpaced(Receive(w, p, size), size)
  {
    var a := HistoryOf(w.history, p.header.id);
    assert Spaced(a, size);
    OfferKeepsSpaced(a, p.header.seqNum, size);
    hide Spaced, Offer, Fate;
  }

  lemma ReceiveAuthentic(w: World, p: Packet, size: nat)
    requires Authentic(w) && Dispatched(w.senders, p)
    requires p == Packet(Header(HEADER_MARKER, p.header.id, p.header.seqNum, 0), p.payload)
    ensures Authentic(Receive(w, p, size))
  {
    hide Dispatched, Fate, Filtered;
  }

  // ---------------------------------------------------------------------------
  // Every run
  // ---------------------------------------------------------------------------

  ghost predicate SendersOk(w: World, c: Config) {
    forall i | 0 <= i < |w.senders| :: SenderOk(w.senders[i], c.retry)
  }

  ghost predicate Inv(w: World, c: Config) {
    SendersOk(w, c) && Authentic(w) && Placed(w) && HistoriesSpaced(w, c.size)
  }

  lemma NextSenderOk(s: Sender, op: Op, c: RP.Config)
    requires SenderOk(s, c)
    requires op.Dispatch? || (op.Submit? && op.n in s.waiting)
          || (op.Protocol? && !op.op.Submit? && RP.Enabled(s.link, op.op))
    ensures SenderOk(NextSender(s, op, c), c)
    ensures s.dispatched <= NextSender(s, op, c).dispatched
  {
    hide SenderOk, RP.Step, RP.Enabled;
    match op {
      case Dispatch(_, _, _) => DispatchOk(s, op, c);
      case Submit(_, _) => SubmitOk(s, op, c);
      case Protocol(_, _) => ProtocolOk(s, op, c);
    }
  }

  lemma StillDispatched(w: World, i: nat, s: Sender)
    requires Authentic(w) && i < |w.senders| && w.senders[i].dispatched <= s.dispatched
    ensures Authentic(w.(senders := w.senders[i := s]))
  {
    var u := w.senders[i := s];
    forall h | h in w.handled
      ensures Dispatched(u, PacketOf(h))
    {
      var p := PacketOf(h);
      var j :| 0 <= j < |w.senders| && p in w.senders[j].dispatched;
      assert p in u[j].dispatched;
    }
  }

  lemma StepInv(w: World, op: Op, c: Config)
    requires Inv(w, c) && Enabled(w, op)
    ensures Inv(Step(w, op, c), c)
  {
    if op.Deliver? {
      DeliverInv(w, op.i, op.j, c);
    } else if !op.Register? {
      SenderStepInv(w, op, c);
    } else {
      hide SenderOk, Spaced, Dispatched;
    }
  }

  lemma DeliverInv(w: World, i: nat, j: nat, c: Config)
    requires Inv(w, c) && i < |w.senders| && j < |w.senders[i].link.wire|
    ensures Inv(Receive(w, w.senders[i].link.wire[j].packet, c.size), c)
  {
    hide Authentic, Placed, HistoriesSpaced;
    var p := w.senders[i].link.wire[j].packet;
    PacketDispatched(w.senders[i], c.retry, j);
    assert Dispatched(w.senders, p);
    hide SenderOk, Dispatched, Fate, Filtered;
    ReceivePlaced(w, p, c.size);
    ReceiveSpaced(w, p, c.size);
    ReceiveAuthentic(w, p, c.size);
  }

  lemma PacketDispatched(s: Sender, c: RP.Config, j: nat)
    requires SenderOk(s, c) && j < |s.link.wire|
    ensures var p := s.link.wire[j].packet;
      p in s.dispatched && p == Packet(Header(HEADER_MARKER, p.header.id, p.header.seqNum, 0), p.payload)
  {
    WireDispatched(s, c, j);
    hide RP.Inv;
    var n :| 0 <= n < |s.dispatched| && s.dispatched[n] == s.link.wire[j].packet;
  }

  lemma SenderStepInv(w: World, op: Op, c: Config)
    requires Inv(w, c) && Enabled(w, op) && !op.Deliver? && !op.Register?
    ensures Inv(Step(w, op, c), c)
  {
    hide SenderOk, NextSender, Placed, HistoriesSpaced, Authentic, RP.Enabled;
    var s := w.senders[op.i];
    NextSenderOk(s, op, c.retry);
    StillDispatched(w, op.i, NextSender(s, op, c.retry));
    SamePlaces(w, Step(w, op, c), c.size);
  }

  lemma SamePlaces(w: World, u: World, size: nat)
    requires u.history == w.history && u.handled == w.handled
    ensures Placed(w) ==> Placed(u)
    ensures HistoriesSpaced(w, size) ==> HistoriesSpaced(u, size)
  {
    hide HistoryOf, Spaced;
  }

  lemma {:induction false} RunInv(w: World, ops: seq<Op>, c: Config)
    requires Inv(w, c) && Run(w, ops, c)
    ensures Inv(After(w, ops, c), c)
    decreases ops
  {
    hide Inv, Step, Enabled;
    if ops != [] {
      StepInv(w, ops[0], c);
      RunInv(Step(w, ops[0], c), ops[1..], c);
    }
  }

  lemma Reachable(senders: nat, ops: seq<Op>, c: Config)
    requires Run(Initial(senders), ops, c)
    ensures Inv(After(Initial(senders), ops, c), c)
  {
    assert RP.Inv(RP.EMPTY, c.retry);
    hide RP.Inv, After, Run;
    assert Inv(Initial(senders), c);
    RunInv(Initial(senders), ops, c);
  }

  // ---------------------------------------------------------------------------
  // The main results
  // ---------------------------------------------------------------------------

  // A handler is invoked only with a payload some sender dispatched under that id and
  // sequence number.
  lemma HandledWasDispatched(senders: nat, ops: seq<Op>, c: Config, h: Handled)
    requires Run(Initial(senders), ops, c) && h in After(Initial(senders), ops, c).handled
    ensures Dispatched(After(Initial(senders), ops, c).senders,
                       Packet(Header(HEADER_MARKER, h.id, h.seqNum, 0), h.payload))
  {
    Reachable(senders, ops, c);
    hide After, Run, Dispatched;
  }

  // The ids that have a handler are those registered.
  lemma {:induction false} ChannelsAreRegistered(w: World, ops: seq<Op>, c: Config)
    ensures forall id :: id in After(w, ops, c).channels <==> id in w.channels || Register(id) in ops
    decreases ops
  {
    if ops != [] {
      var u := Step(w, ops[0], c);
      assert forall id :: id in u.channels <==> id in w.channels || ops[0] == Register(id) by {
        hide NextSender, Fate, Filtered;
      }
      hide Step;
      ChannelsAreRegistered(u, ops[1..], c);
      assert ops == [ops[0]] + ops[1..];
    }
  }

  // In every run, handing over a transmission invokes the handler of its id with its
  // payload, once, if there is one and the number is not among the last size accepted
  // for the id. Otherwise no handler is invoked. A number not seen is remembered either way.
  lemma DeliveryInvokes(senders: nat, ops: seq<Op>, c: Config, i: nat, j: nat)
    requires Run(Initial(senders), ops, c) && Enabled(After(Initial(senders), ops, c), Deliver(i, j))
    ensures var w := After(Initial(senders), ops, c); var u := Step(w, Deliver(i, j), c);
      var p := w.senders[i].link.wire[j].packet;
      var id, s, a := p.header.id, p.header.seqNum, HistoryOf(w.history, p.header.id);
      var seen := id != ACK_REMOTE_ID && exists k | 0 <= k < |a| && |a| - k <= c.size :: a[k] == s;
      && u.handled == w.handled + (if !seen && id in w.channels then [Handled(id, s, p.payload, |a|)] else [])
      && HistoryOf(u.history, id) == (if seen || id == ACK_REMOTE_ID then a else a + [s])
      && (forall k | k != id :: HistoryOf(u.history, k) == HistoryOf(w.history, k))
      && u.senders == w.senders && u.channels == w.channels
  {
    Reachable(senders, ops, c);
    hide After, Run, Inv, Step;
    DeliverStep(After(Initial(senders), ops, c), i, j, c);
  }

  lemma DeliverStep(w: World, i: nat, j: nat, c: Config)
    requires Inv(w, c) && Enabled(w, Deliver(i, j))
    ensures var u := Step(w, Deliver(i, j), c);
      var p := w.senders[i].link.wire[j].packet;
      var id, s, a := p.header.id, p.header.seqNum, HistoryOf(w.history, p.header.id);
      var seen := id != ACK_REMOTE_ID && exists k | 0 <= k < |a| && |a| - k <= c.size :: a[k] == s;
      && u.handled == w.handled + (if !seen && id in w.channels then [Handled(id, s, p.payload, |a|)] else [])
      && HistoryOf(u.history, id) == (if seen || id == ACK_REMOTE_ID then a else a + [s])
      && (forall k | k != id :: HistoryOf(u.history, k) == HistoryOf(w.history, k))
      && u.senders == w.senders && u.channels == w.channels
  {
    WireDispatched(w.senders[i], c.retry, j);
    var p := w.senders[i].link.wire[j].packet;
    RecentIff(HistoryOf(w.history, p.header.id), p.header.seqNum, c.size);
    hide Recent, SenderOk, Authentic, Placed, HistoriesSpaced;
  }

  // Two invocations for one id and number are places apart in the list of numbers
  // accepted for the id: at least size others were accepted in between.
  lemma HandledTwiceIsFarApart(senders: nat, ops: seq<Op>, c: Config, x: nat, y: nat)
    requires Run(Initial(senders), ops, c) && x < y < |After(Initial(senders), ops, c).handled|
    requires var w := After(Initial(senders), ops, c);
      && w.handled[x].id == w.handled[y].id != ACK_REMOTE_ID
      && w.handled[x].seqNum == w.handled[y].seqNum
    ensures var w := After(Initial(senders), ops, c); var a := HistoryOf(w.history, w.handled[x].id);
      && w.handled[x].at < w.handled[y].at < |a|
      && a[w.handled[x].at] == a[w.handled[y].at] == w.handled[x].seqNum
      && w.handled[y].at - w.handled[x].at - 1 >= c.size
  {
    Reachable(senders, ops, c);
    hide After, Run, Authentic, SendersOk;
    var w := After(Initial(senders), ops, c);
    assert Spaced(HistoryOf(w.history, w.handled[x].id), c.size);
  }

  // At most once: while no more than size + 1 numbers have been accepted for an id, no
  // number of that id is handled twice.
  lemma AtMostOnce(senders: nat, ops: seq<Op>, c: Config, x: nat, y: nat)
    requires Run(Initial(senders), ops, c) && x < y < |After(Initial(senders), ops, c).handled|
    requires var w := After(Initial(senders), ops, c);
      && w.handled[x].id == w.handled[y].id != ACK_REMOTE_ID
      && |HistoryOf(w.history, w.handled[x].id)| <= c.size + 1
    ensures var w := After(Initial(senders), ops, c); w.handled[x].seqNum != w.handled[y].seqNum
  {
    var w := After(Initial(senders), ops, c);
    if w.handled[x].seqNum == w.handled[y].seqNum {
      HandledTwiceIsFarApart(senders, ops, c, x, y);
      assert false;
    }
  }

  lemma {:induction false} SendersStay(w: World, ops: seq<Op>, c: Config)
    ensures |After(w, ops, c).senders| == |w.senders|
    decreases ops
  {
    if ops != [] {
      assert |Step(w, ops[0], c).senders| == |w.senders| by { hide NextSender, Fate, Filtered; }
      hide Step;
      SendersStay(Step(w, ops[0], c), ops[1..], c);
    }
  }

  // With one sender and no more dispatches than there are numbers, an invocation's
  // number says which dispatch it carries out.
  lemma OneSenderExactCall(ops: seq<Op>, c: Config, h: Handled)
    requires Run(Initial(1), ops, c)
    requires var w := After(Initial(1), ops, c); h in w.handled && |DispatchesOf(w, 0)| <= 0x1_0000
    ensures var d := DispatchesOf(After(Initial(1), ops, c), 0);
      h.seqNum < |d| && d[h.seqNum] == Packet(Header(HEADER_MARKER, h.id, h.seqNum, 0), h.payload)
  {
    SendersStay(Initial(1), ops, c);
    Reachable(1, ops, c);
    var w := After(Initial(1), ops, c);
    hide After, Run, Placed, HistoriesSpaced, SenderOk;
    assert Dispatched(w.senders, PacketOf(h));
    assert PacketOf(h) in w.senders[0].dispatched;
    NumberIsPlace(w.senders[0], c.retry, PacketOf(h));
  }

  lemma NumberIsPlace(s: Sender, c: RP.Config, p: Packet)
    requires SenderOk(s, c) && p in s.dispatched && |s.dispatched| <= 0x1_0000
    ensures p.header.seqNum < |s.dispatched| && s.dispatched[p.header.seqNum] == p
  {
    hide RP.Inv;
    var n :| 0 <= n < |s.dispatched| && s.dispatched[n] == p;
    assert n == n % 0x1_0000;
  }

  function DispatchesOf(w: World, i: nat): seq<Packet> {
    if i < |w.senders| then w.senders[i].dispatched else []
  }
}
