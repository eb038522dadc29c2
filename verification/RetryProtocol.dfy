// The retry protocol with every critical section as its own step: any number of
// SendWithRetry calls, acknowledgements and timeouts in progress at once.

module RetryProtocol {
  import opened Packets
  import opened MonitorKeys
  import opened TransportMonitors
  import opened RetryStore

  // An entry of m_retryStore, and the submission it came from.
  datatype Entry = Entry(sub: nat, packet: Packet, attemptsRemaining: int, isSent: bool)

  // The transmission of a packet: attempt 0 is the first send of its submission, the
  // others are its retransmissions, counted from 1.
  datatype Tx = Tx(sub: nat, attempt: nat, packet: Packet)

  // A call in progress, at a point where it holds no lock.
  datatype Act =
    | Inserted(tx: Tx)                // SendWithRetry has stored its entry
    | Rejected(key: Key)              // its Add was refused
    | Added(tx: Tx)                   // its Add succeeded
    | Sent(key: Key, ok: bool)        // its Send has returned
    | GotAck(key: Key)                // OnStatusChanged(SUCCESS)
    | GotTimeout(key: Key)            // OnStatusChanged(TIMEOUT)
    | Retrying(tx: Tx)                // it has spent an attempt
    | RetryRejected(key: Key)         // the retry's Add was refused
    | RetryAdded(tx: Tx)              // the retry's Add succeeded
    | Rereg(key: Key)                 // the first send was not over: add the key again

  function TxKey(t: Tx): Key {
    HeaderKey(t.packet.header)
  }

  function KeyOf(a: Act): Key {
    match a
    case Inserted(t) => TxKey(t)
    case Added(t) => TxKey(t)
    case Retrying(t) => TxKey(t)
    case RetryAdded(t) => TxKey(t)
    case _ => a.key
  }

  // acts are the calls in progress. subs are the packets submitted so far, decided
  // counts the retransmissions decided for each, wire is every packet handed to the
  // transport. A key is in orphans if its re-registration was refused while it was stored
  // and not pending, and nothing has stored, erased or added it since.
  datatype State = State(
    pending: set<Key>, store: map<Key, Entry>, acts: map<nat, Act>, next: nat,
    subs: seq<Packet>, decided: seq<nat>, wire: seq<Tx>, orphans: set<Key>)

  datatype Op =
    | Submit(packet: Packet)
    | Acknowledge(key: Key)
    | Expire(key: Key)
    | Advance(id: nat, ok: bool) // ok is the result of Send, where that is the step

  datatype Config = Config(maxRetries: int, cap: Cap)

  const EMPTY := State({}, map[], map[], 0, [], [], [], {})

  ghost predicate Enabled(s: State, op: Op) {
    match op
    case Submit(_) => true
    case Acknowledge(key) => key in s.pending
    case Expire(key) => key in s.pending
    case Advance(id, _) => id in s.acts
  }

  function Start(s: State, a: Act): State {
    s.(acts := s.acts[s.next := a], next := s.next + 1)
  }

  function Goto(s: State, id: nat, a: Act): State {
    s.(acts := s.acts[id := a])
  }

  function Finish(s: State, id: nat): State {
    s.(acts := s.acts - {id})
  }

  function Erase(s: State, key: Key): State {
    s.(store := s.store - {key}, orphans := s.orphans - {key})
  }

  // TransportMonitor::Add where there is room.
  function Track(s: State, key: Key): State {
    s.(pending := s.pending + {key}, orphans := s.orphans - {key})
  }

  function Transmit(s: State, t: Tx): State {
    s.(wire := s.wire + [t])
  }

  function Insert(s: State, p: Packet, c: Config): State {
    var key := HeaderKey(p.header);
    s.(store := s.store[key := Entry(|s.subs|, p, c.maxRetries, false)],
       subs := s.subs + [p], decided := s.decided + [0], orphans := s.orphans - {key})
  }

  function Mark(s: State, key: Key): State {
    if key in s.store then s.(store := s.store[key := s.store[key].(isSent := true)]) else s
  }

  function Spend(s: State, key: Key): State
    requires key in s.store
  {
    var e := s.store[key];
    s.(store := s.store[key := e.(attemptsRemaining := e.attemptsRemaining - 1)],
       decided := if e.sub < |s.decided| then s.decided[e.sub := s.decided[e.sub] + 1] else s.decided)
  }

  // The re-registration's result is ignored.
  function Reregister(s: State, key: Key, c: Config): State {
    if |s.pending| < c.cap then Track(s, key)
    else if key in s.store && key !in s.pending then s.(orphans := s.orphans + {key})
    else s
  }

  // The critical section of OnStatusChanged for a timeout.
  function OnTimeout(s: State, id: nat, key: Key): State {
    if key !in s.store then Finish(s, id)
    else
      var e := s.store[key];
      if e.attemptsRemaining <= 0 then Finish(Erase(s, key), id)
      else if !e.isSent then Goto(s, id, Rereg(HeaderKey(e.packet.header)))
      else
        var n := if e.sub < |s.decided| then s.decided[e.sub] + 1 else 1;
        Goto(Spend(s, key), id, Retrying(Tx(e.sub, n, e.packet)))
  }

  function Step(s: State, op: Op, c: Config): State {
    match op
    case Submit(p) => Start(Insert(s, p, c), Inserted(Tx(|s.subs|, 0, p)))
    case Acknowledge(key) => Start(s.(pending := s.pending - {key}), GotAck(key))
    case Expire(key) => Start(s.(pending := s.pending - {key}), GotTimeout(key))
    case Advance(id, ok) => if id in s.acts then Go(s, id, s.acts[id], ok, c) else s
  }

  function Go(s: State, id: nat, a: Act, ok: bool, c: Config): State {
    match a
    case Inserted(t) =>
      if |s.pending| < c.cap then Goto(Track(s, TxKey(t)), id, Added(t)) else Goto(s, id, Rejected(TxKey(t)))
    case Rejected(key) => Finish(Erase(s, key), id)
    case Added(t) => Goto(Transmit(s, t), id, Sent(TxKey(t), ok))
    case Sent(key, good) => if good then Finish(Mark(s, key), id) else Finish(Erase(s, key), id)
    case GotAck(key) => Finish(Erase(s, key), id)
    case GotTimeout(key) => OnTimeout(s, id, key)
    case Retrying(t) =>
      if |s.pending| < c.cap then Goto(Track(s, TxKey(t)), id, RetryAdded(t)) else Goto(s, id, RetryRejected(TxKey(t)))
    case RetryRejected(key) => Finish(Erase(s, key), id)
    case RetryAdded(t) => Finish(Transmit(s, t), id)
    case Rereg(key) => Finish(Reregister(s, key, c), id)
  }

  ghost predicate Run(s: State, ops: seq<Op>, c: Config)
    decreases ops
  {
    ops == [] || (Enabled(s, ops[0]) && Run(Step(s, ops[0], c), ops[1..], c))
  }

  function After(s: State, ops: seq<Op>, c: Config): State
    decreases ops
  {
    if ops == [] then s else After(Step(s, ops[0], c), ops[1..], c)
  }

  // ---------------------------------------------------------------------------
  // The budget of each stored entry
  // ---------------------------------------------------------------------------

  function Most(maxRetries: int): nat {
    if maxRetries > 0 then maxRetries else 0
  }

  ghost predicate Within(subs: seq<Packet>, decided: seq<nat>, m: int) {
    |decided| == |subs| && (forall g | 0 <= g < |decided| :: decided[g] <= Most(m))
  }

  ghost predicate Budgeted(store: map<Key, Entry>, subs: seq<Packet>, decided: seq<nat>, m: int) {
    forall k | k in store ::
      && store[k].sub < |subs| == |decided| && store[k].packet == subs[store[k].sub]
      && HeaderKey(store[k].packet.header) == k
      && store[k].attemptsRemaining + decided[store[k].sub] == m
  }

  ghost predicate BudgetKept(s: State, c: Config) {
    Within(s.subs, s.decided, c.maxRetries) && Budgeted(s.store, s.subs, s.decided, c.maxRetries)
  }

  lemma InsertBudget(s: State, p: Packet, c: Config)
    requires BudgetKept(s, c)
    ensures BudgetKept(Insert(s, p, c), c)
  {
    hide HeaderKey;
    var t := Insert(s, p, c);
    assert forall g | 0 <= g < |s.decided| :: t.decided[g] == s.decided[g];
    assert forall g | 0 <= g < |s.subs| :: t.subs[g] == s.subs[g];
    assert t.decided[|s.subs|] == 0 && t.subs[|s.subs|] == p;
  }

  lemma SpendBudget(s: State, key: Key, c: Config)
    requires BudgetKept(s, c)
    requires key in s.store && s.store[key].attemptsRemaining > 0
    ensures BudgetKept(Spend(s, key), c)
  {
    hide HeaderKey;
    var t := Spend(s, key);
    var g := s.store[key].sub;
    assert forall k | k in s.store && s.store[k].sub == g :: k == key;
    assert forall h | 0 <= h < |s.decided| :: t.decided[h] == s.decided[h] + if h == g then 1 else 0;
  }

  lemma StepBudget(s: State, op: Op, c: Config)
    requires BudgetKept(s, c) && Enabled(s, op)
    ensures BudgetKept(Step(s, op, c), c)
  {
    hide HeaderKey;
    match op {
      case Submit(p) => InsertBudget(s, p, c);
      case Acknowledge(_) =>
      case Expire(_) =>
      case Advance(id, ok) => GoBudget(s, id, ok, c);
    }
  }

  lemma GoBudget(s: State, id: nat, ok: bool, c: Config)
    requires BudgetKept(s, c) && id in s.acts
    ensures BudgetKept(Go(s, id, s.acts[id], ok, c), c)
  {
    hide HeaderKey;
    var a := s.acts[id];
    if a.GotTimeout? && a.key in s.store && s.store[a.key].attemptsRemaining > 0 {
      SpendBudget(s, a.key, c);
      hide Spend;
    }
    hide Within;
  }

  // ---------------------------------------------------------------------------
  // Every transmission is a distinct attempt of its submission
  // ---------------------------------------------------------------------------

  predicate HasTx(a: Act) {
    a.Inserted? || a.Added? || a.Retrying? || a.RetryAdded?
  }

  predicate SameAttempt(t: Tx, u: Tx) {
    t.sub == u.sub && t.attempt == u.attempt
  }

  ghost predicate Known(t: Tx, subs: seq<Packet>, decided: seq<nat>) {
    t.sub < |subs| && t.sub < |decided| && t.packet == subs[t.sub] && t.attempt <= decided[t.sub]
  }

  ghost predicate Fresh(t: Tx, wire: seq<Tx>) {
    forall u | u in wire :: !SameAttempt(u, t)
  }

  ghost predicate WireOk(wire: seq<Tx>, subs: seq<Packet>, decided: seq<nat>) {
    && (forall t | t in wire :: Known(t, subs, decided))
    && (forall i, j | 0 <= i < j < |wire| :: !SameAttempt(wire[i], wire[j]))
  }

  ghost predicate ActsOk(acts: map<nat, Act>, wire: seq<Tx>, subs: seq<Packet>, decided: seq<nat>) {
    && (forall a | a in acts && HasTx(acts[a]) :: Known(acts[a].tx, subs, decided) && Fresh(acts[a].tx, wire))
    && (forall a, b | a in acts && b in acts && a != b && HasTx(acts[a]) && HasTx(acts[b]) ::
          !SameAttempt(acts[a].tx, acts[b].tx))
  }

  ghost predicate AttemptsDistinct(s: State) {
    && |s.subs| == |s.decided|
    && WireOk(s.wire, s.subs, s.decided)
    && ActsOk(s.acts, s.wire, s.subs, s.decided)
  }

  // Submissions and decisions only extend what is known.
  lemma KnownStays(t: Tx, s: State, u: State)
    requires Known(t, s.subs, s.decided) && s.subs <= u.subs && |s.decided| <= |u.decided|
    requires forall g | 0 <= g < |s.decided| :: s.decided[g] <= u.decided[g]
    ensures Known(t, u.subs, u.decided)
  {}

  // A call starts or goes on with an attempt that no other transmission has.
  lemma NewAttempt(s: State, u: State, id: nat, a: Act)
    requires AttemptsDistinct(s) && HasTx(a)
    requires u.acts == s.acts[id := a] && u.wire == s.wire
    requires |u.subs| == |u.decided| && s.subs <= u.subs && |s.decided| <= |u.decided|
    requires forall g | 0 <= g < |s.decided| :: s.decided[g] <= u.decided[g]
    requires Known(a.tx, u.subs, u.decided) && Fresh(a.tx, s.wire)
    requires forall b | b in s.acts && b != id && HasTx(s.acts[b]) :: !SameAttempt(s.acts[b].tx, a.tx)
    ensures AttemptsDistinct(u)
  {
    forall t | t in s.wire
      ensures Known(t, u.subs, u.decided)
    {
      KnownStays(t, s, u);
    }
    forall b | b in s.acts && HasTx(s.acts[b])
      ensures Known(s.acts[b].tx, u.subs, u.decided)
    {
      KnownStays(s.acts[b].tx, s, u);
    }
    hide Known, Fresh;
  }

  // A call without an attempt starts or goes on, or a call ends.
  lemma NoAttempt(s: State, u: State, id: nat)
    requires AttemptsDistinct(s)
    requires u.wire == s.wire && u.subs == s.subs && u.decided == s.decided
    requires u.acts == s.acts - {id} || (id in u.acts && !HasTx(u.acts[id]) && u.acts == s.acts[id := u.acts[id]])
    ensures AttemptsDistinct(u)
  {
    hide Known, Fresh, WireOk, SameAttempt;
  }

  // The packet of a call goes out, and the call keeps no attempt.
  lemma AttemptOnWire(s: State, u: State, id: nat)
    requires AttemptsDistinct(s) && id in s.acts && HasTx(s.acts[id])
    requires u.wire == s.wire + [s.acts[id].tx] && u.subs == s.subs && u.decided == s.decided
    requires u.acts == s.acts - {id} || (id in u.acts && !HasTx(u.acts[id]) && u.acts == s.acts[id := u.acts[id]])
    ensures AttemptsDistinct(u)
  {
    hide Known;
    var t := s.acts[id].tx;
    assert forall i | 0 <= i < |s.wire| :: s.wire[i] in s.wire;
    assert WireOk(u.wire, u.subs, u.decided);
    hide WireOk;
    forall b | b in u.acts && HasTx(u.acts[b])
      ensures Fresh(u.acts[b].tx, u.wire)
    {
      assert b != id && !SameAttempt(t, s.acts[b].tx);
    }
    hide Fresh;
  }

  lemma SubmitAttempt(s: State, p: Packet, c: Config)
    requires AttemptsDistinct(s) && s.next !in s.acts
    ensures AttemptsDistinct(Step(s, Submit(p), c))
  {
    var u := Step(s, Submit(p), c);
    var a := Inserted(Tx(|s.subs|, 0, p));
    assert u.subs[|s.subs|] == p && u.decided[|s.subs|] == 0;
    assert forall g | 0 <= g < |s.decided| :: s.decided[g] == u.decided[g];
    NewAttempt(s, u, s.next, a);
  }

  lemma DecideAttempt(s: State, id: nat, key: Key, c: Config)
    requires AttemptsDistinct(s) && BudgetKept(s, c) && id in s.acts
    requires key in s.store && s.store[key].attemptsRemaining > 0 && s.store[key].isSent
    ensures AttemptsDistinct(OnTimeout(s, id, key))
  {
    hide HeaderKey;
    var e := s.store[key];
    var u := OnTimeout(s, id, key);
    var t := Tx(e.sub, s.decided[e.sub] + 1, e.packet);
    assert u.decided[e.sub] == t.attempt;
    assert forall g | 0 <= g < |s.decided| :: s.decided[g] <= u.decided[g];
    NewAttempt(s, u, id, Retrying(t));
  }

  lemma GoAttempts(s: State, id: nat, ok: bool, c: Config)
    requires AttemptsDistinct(s) && BudgetKept(s, c) && id in s.acts
    ensures AttemptsDistinct(Go(s, id, s.acts[id], ok, c))
  {
    var a, u := s.acts[id], Go(s, id, s.acts[id], ok, c);
    if a.GotTimeout? && a.key in s.store && s.store[a.key].attemptsRemaining > 0 && s.store[a.key].isSent {
      DecideAttempt(s, id, a.key, c);
    } else if a.Added? || a.RetryAdded? {
      AttemptOnWire(s, u, id);
    } else if (a.Inserted? || a.Retrying?) && |s.pending| < c.cap {
      SameTx(s, u, id);
    } else {
      hide AttemptsDistinct, BudgetKept, HeaderKey;
      NoAttempt(s, u, id);
    }
  }

  // A call goes on with the attempt it has.
  lemma SameTx(s: State, u: State, id: nat)
    requires AttemptsDistinct(s) && id in s.acts && HasTx(s.acts[id])
    requires u.wire == s.wire && u.subs == s.subs && u.decided == s.decided
    requires id in u.acts && HasTx(u.acts[id]) && u.acts[id].tx == s.acts[id].tx
    requires u.acts == s.acts[id := u.acts[id]]
    ensures AttemptsDistinct(u)
  {
    NewAttempt(s, u, id, u.acts[id]);
  }

  lemma StepAttempts(s: State, op: Op, c: Config)
    requires AttemptsDistinct(s) && BudgetKept(s, c) && Enabled(s, op) && IdsFresh(s)
    ensures AttemptsDistinct(Step(s, op, c))
  {
    hide AttemptsDistinct, BudgetKept, HeaderKey;
    match op {
      case Submit(p) => SubmitAttempt(s, p, c);
      case Acknowledge(_) => NoAttempt(s, Step(s, op, c), s.next);
      case Expire(_) => NoAttempt(s, Step(s, op, c), s.next);
      case Advance(id, ok) => GoAttempts(s, id, ok, c);
    }
  }

  ghost predicate IdsFresh(s: State) {
    forall a | a in s.acts :: a < s.next
  }

  // A step of a call changes that call only: it goes on or ends.
  lemma GoFrame(s: State, id: nat, ok: bool, c: Config)
    requires id in s.acts
    ensures var u := Go(s, id, s.acts[id], ok, c);
      && u.next == s.next
      && (u.acts == s.acts - {id} || (id in u.acts && u.acts == s.acts[id := u.acts[id]]))
  {
    hide HeaderKey;
    if s.acts[id].GotTimeout? {
      TimeoutFrame(s, id);
    }
    hide OnTimeout;
  }

  lemma TimeoutFrame(s: State, id: nat)
    requires id in s.acts && s.acts[id].GotTimeout?
    ensures var u := OnTimeout(s, id, s.acts[id].key);
      && u.next == s.next
      && (u.acts == s.acts - {id} || (id in u.acts && u.acts == s.acts[id := u.acts[id]]))
  {
    hide HeaderKey;
  }

  lemma StepIds(s: State, op: Op, c: Config)
    requires IdsFresh(s) && Enabled(s, op)
    ensures IdsFresh(Step(s, op, c))
  {
    hide HeaderKey;
    if op.Advance? {
      GoFrame(s, op.id, op.ok, c);
      hide Go;
    }
  }

  // ---------------------------------------------------------------------------
  // Nothing stored is forgotten, but for refused re-registrations
  // ---------------------------------------------------------------------------

  // The calls that will still add or erase the key.
  predicate Guards(a: Act) {
    match a
    case Sent(_, ok) => !ok
    case Added(_) => false
    case RetryAdded(_) => false
    case _ => true
  }

  ghost predicate Guarded(acts: map<nat, Act>, k: Key) {
    exists a :: a in acts && Guards(acts[a]) && KeyOf(acts[a]) == k
  }

  ghost predicate Covered(s: State, k: Key) {
    k in s.pending || k in s.orphans || Guarded(s.acts, k)
  }

  ghost predicate Cover(s: State) {
    && (forall k | k in s.store :: Covered(s, k))
    && (forall k | k in s.orphans :: k in s.store && k !in s.pending)
  }

  // A step that concerns one key leaves the others covered.
  lemma CoverStep(s: State, u: State, id: nat, key: Key)
    requires Cover(s)
    requires forall k | k in u.store && k != key :: k in s.store
    requires forall k | k in s.store && k != key :: k in u.store
    requires forall k | k != key :: k in s.pending <==> k in u.pending
    requires forall k | k != key :: k in s.orphans <==> k in u.orphans
    requires id in s.acts ==> KeyOf(s.acts[id]) == key
    requires u.acts == s.acts - {id} || (id in u.acts && u.acts == s.acts[id := u.acts[id]])
    requires key in u.store ==> Covered(u, key)
    requires key in u.orphans ==> key in u.store && key !in u.pending
    ensures Cover(u)
  {
    hide KeyOf, Guards;
    forall k | k in u.store && k != key && Guarded(s.acts, k)
      ensures Guarded(u.acts, k)
    {
      var a :| a in s.acts && Guards(s.acts[a]) && KeyOf(s.acts[a]) == k;
      assert a != id && a in u.acts && u.acts[a] == s.acts[a];
    }
    hide Guarded;
  }

  lemma GuardedBy(acts: map<nat, Act>, id: nat)
    requires id in acts && Guards(acts[id])
    ensures Guarded(acts, KeyOf(acts[id]))
  {}

  lemma StartCover(s: State, u: State, key: Key)
    requires Cover(s) && s.next !in s.acts
    requires s.next in u.acts && u.acts == s.acts[s.next := u.acts[s.next]]
    requires Guards(u.acts[s.next]) && KeyOf(u.acts[s.next]) == key
    requires (forall k | k != key :: k in s.store <==> k in u.store)
    requires (forall k | k != key :: k in s.pending <==> k in u.pending)
    requires (forall k | k != key :: k in s.orphans <==> k in u.orphans)
    requires key !in u.orphans
    ensures Cover(u)
  {
    GuardedBy(u.acts, s.next);
    hide KeyOf, Guards, Guarded;
    CoverStep(s, u, s.next, key);
  }

  lemma GoCover(s: State, id: nat, ok: bool, c: Config)
    requires Cover(s) && BudgetKept(s, c) && id in s.acts
    ensures Cover(Go(s, id, s.acts[id], ok, c))
  {
    hide Go, OnTimeout, HeaderKey, Cover, BudgetKept;
    if s.acts[id].GotTimeout? {
      TimeoutCover(s, id, c);
      GoTimeout(s, id, ok, c);
    } else if Guards(s.acts[id]) {
      GuardCover(s, id, ok, c);
    } else {
      PassiveCover(s, id, ok, c);
    }
  }

  lemma GoTimeout(s: State, id: nat, ok: bool, c: Config)
    requires id in s.acts && s.acts[id].GotTimeout?
    ensures Go(s, id, s.acts[id], ok, c) == OnTimeout(s, id, s.acts[id].key)
  {}

  // What a key's guard does: it adds the key, erases it, hands over, or orphans it.
  lemma GuardCover(s: State, id: nat, ok: bool, c: Config)
    requires Cover(s) && id in s.acts && Guards(s.acts[id]) && !s.acts[id].GotTimeout?
    ensures Cover(Go(s, id, s.acts[id], ok, c))
  {
    hide HeaderKey;
    var a, u := s.acts[id], Go(s, id, s.acts[id], ok, c);
    if id in u.acts && Guards(u.acts[id]) {
      GuardedBy(u.acts, id);
    }
    hide Guarded;
    CoverStep(s, u, id, KeyOf(a));
  }

  // The other calls change neither what is stored nor what is tracked.
  lemma PassiveCover(s: State, id: nat, ok: bool, c: Config)
    requires Cover(s) && id in s.acts && !Guards(s.acts[id])
    ensures Cover(Go(s, id, s.acts[id], ok, c))
  {
    hide HeaderKey;
    var a, u := s.acts[id], Go(s, id, s.acts[id], ok, c);
    var key := KeyOf(a);
    if Guarded(s.acts, key) {
      var b :| b in s.acts && Guards(s.acts[b]) && KeyOf(s.acts[b]) == key;
      assert b in u.acts && u.acts[b] == s.acts[b];
    }
    hide Guarded;
    CoverStep(s, u, id, key);
  }

  lemma TimeoutCover(s: State, id: nat, c: Config)
    requires Cover(s) && BudgetKept(s, c) && id in s.acts && s.acts[id].GotTimeout?
    ensures Cover(OnTimeout(s, id, s.acts[id].key))
  {
    var key := s.acts[id].key;
    var u := OnTimeout(s, id, key);
    hide HeaderKey;
    if id in u.acts {
      assert KeyOf(u.acts[id]) == key;
      GuardedBy(u.acts, id);
    }
    hide Guarded;
    CoverStep(s, u, id, key);
  }

  lemma StepCover(s: State, op: Op, c: Config)
    requires Cover(s) && BudgetKept(s, c) && IdsFresh(s) && Enabled(s, op)
    ensures Cover(Step(s, op, c))
  {
    hide HeaderKey, BudgetKept;
    var u := Step(s, op, c);
    match op {
      case Submit(p) => StartCover(s, u, HeaderKey(p.header));
      case Acknowledge(key) => StartCover(s, u, key);
      case Expire(key) => StartCover(s, u, key);
      case Advance(id, ok) => GoCover(s, id, ok, c);
    }
  }

  // ---------------------------------------------------------------------------
  // Every run
  // ---------------------------------------------------------------------------

  ghost predicate Inv(s: State, c: Config) {
    BudgetKept(s, c) && AttemptsDistinct(s) && Cover(s) && IdsFresh(s) && |s.pending| <= c.cap
  }

  lemma StepInv(s: State, op: Op, c: Config)
    requires Inv(s, c) && Enabled(s, op)
    ensures Inv(Step(s, op, c), c)
  {
    hide BudgetKept, AttemptsDistinct, Cover, IdsFresh, HeaderKey;
    StepBudget(s, op, c);
    StepAttempts(s, op, c);
    StepCover(s, op, c);
    StepIds(s, op, c);
  }

  lemma {:induction false} RunInv(s: State, ops: seq<Op>, c: Config)
    requires Inv(s, c) && Run(s, ops, c)
    ensures Inv(After(s, ops, c), c)
    decreases ops
  {
    hide Inv, Step, Enabled;
    if ops != [] {
      StepInv(s, ops[0], c);
      RunInv(Step(s, ops[0], c), ops[1..], c);
    }
  }

  lemma Reachable(ops: seq<Op>, c: Config)
    requires Run(EMPTY, ops, c)
    ensures Inv(After(EMPTY, ops, c), c)
  {
    assert Inv(EMPTY, c);
    RunInv(EMPTY, ops, c);
  }

  // A stored entry keeps its attempts plus the retransmissions decided for its
  // submission equal to the budget, and holds the packet as submitted.
  lemma BudgetConserved(ops: seq<Op>, c: Config, k: Key)
    requires Run(EMPTY, ops, c) && k in After(EMPTY, ops, c).store
    ensures var s := After(EMPTY, ops, c); var e := s.store[k];
      && e.sub < |s.subs| == |s.decided| && e.packet == s.subs[e.sub] && HeaderKey(e.packet.header) == k
      && e.attemptsRemaining + s.decided[e.sub] == c.maxRetries
  {
    Reachable(ops, c);
    hide HeaderKey, After, Run;
  }

  function CountOf(wire: seq<Tx>, g: nat): nat {
    if wire == [] then 0
    else CountOf(wire[..|wire| - 1], g) + if wire[|wire| - 1].sub == g then 1 else 0
  }

  lemma {:induction false} CountBound(wire: seq<Tx>, g: nat, m: nat) returns (used: set<nat>)
    requires forall i, j | 0 <= i < j < |wire| :: !SameAttempt(wire[i], wire[j])
    requires forall t | t in wire && t.sub == g :: t.attempt <= m
    ensures |used| == CountOf(wire, g) <= m + 1
    ensures forall n :: n in used <==> exists i :: 0 <= i < |wire| && wire[i].sub == g && wire[i].attempt == n
  {
    used := Attempts(wire, g);
    assert used <= UpTo(m);
    CountAttempts(wire, g);
    SubsetSize(used, UpTo(m));
  }

  function Attempts(wire: seq<Tx>, g: nat): set<nat> {
    set i | 0 <= i < |wire| && wire[i].sub == g :: wire[i].attempt
  }

  lemma {:induction false} CountAttempts(wire: seq<Tx>, g: nat)
    requires forall i, j | 0 <= i < j < |wire| :: !SameAttempt(wire[i], wire[j])
    ensures |Attempts(wire, g)| == CountOf(wire, g)
  {
    if wire != [] {
      var w, t := wire[..|wire| - 1], wire[|wire| - 1];
      CountAttempts(w, g);
      assert wire == w + [t];
      AttemptsSnoc(w, t, g);
      forall i | 0 <= i < |w| && t.sub == g && w[i].sub == g
        ensures w[i].attempt != t.attempt
      {
        assert !SameAttempt(wire[i], wire[|w|]);
      }
    }
  }

  lemma AttemptsSnoc(w: seq<Tx>, t: Tx, g: nat)
    ensures Attempts(w + [t], g) == Attempts(w, g) + if t.sub == g then {t.attempt} else {}
  {
    var v := w + [t];
    assert v[|w|] == t;
    forall n | n in Attempts(w, g)
      ensures n in Attempts(v, g)
    {
      var i :| 0 <= i < |w| && w[i].sub == g && w[i].attempt == n;
      assert v[i] == w[i];
    }
  }

  function UpTo(m: nat): (s: set<nat>)
    ensures forall n: nat :: n in s <==> n <= m
    ensures |s| == m + 1
  {
    if m == 0 then {0} else UpTo(m - 1) + {m}
  }

  lemma SubsetSize<T>(a: set<T>, b: set<T>)
    requires a <= b
    ensures |a| <= |b|
  {
    assert b == a + (b - a);
  }

  // Each submission goes out at most once for its first send and once per retry, and
  // every transmission carries the submitted header and payload unchanged.
  lemma PhysicalSends(ops: seq<Op>, c: Config, g: nat)
    requires Run(EMPTY, ops, c) && g < |After(EMPTY, ops, c).subs|
    ensures var s := After(EMPTY, ops, c);
      && CountOf(s.wire, g) <= 1 + Most(c.maxRetries)
      && (forall i | 0 <= i < |s.wire| && s.wire[i].sub == g :: s.wire[i].packet == s.subs[g])
  {
    Reachable(ops, c);
    hide HeaderKey, After, Run, ActsOk, Cover, Budgeted;
    var s := After(EMPTY, ops, c);
    assert forall i | 0 <= i < |s.wire| :: s.wire[i] in s.wire;
    var used := CountBound(s.wire, g, Most(c.maxRetries));
  }

  // With no call in progress, the stored keys nobody tracks are exactly those whose
  // re-registration was refused while they were stored and not pending.
  lemma LeakExactly(ops: seq<Op>, c: Config, k: Key)
    requires Run(EMPTY, ops, c) && After(EMPTY, ops, c).acts == map[]
    ensures var s := After(EMPTY, ops, c); k in s.store && k !in s.pending <==> k in s.orphans
  {
    Reachable(ops, c);
    hide HeaderKey, After, Run, BudgetKept, AttemptsDistinct;
  }

  // Every re-registration finds room.
  ghost predicate RoomToRereg(s: State, ops: seq<Op>, c: Config)
    decreases ops
  {
    ops == [] ||
    (var op := ops[0];
     && (op.Advance? && op.id in s.acts && s.acts[op.id].Rereg? ==> |s.pending| < c.cap)
     && RoomToRereg(Step(s, op, c), ops[1..], c))
  }

  lemma StepNoOrphans(s: State, op: Op, c: Config)
    requires s.orphans == {} && Enabled(s, op)
    requires op.Advance? && op.id in s.acts && s.acts[op.id].Rereg? ==> |s.pending| < c.cap
    ensures Step(s, op, c).orphans == {}
  {
    hide HeaderKey;
    if op.Advance? && s.acts[op.id].GotTimeout? {
      TimeoutNoOrphans(s, op.id);
    }
    hide OnTimeout;
  }

  lemma TimeoutNoOrphans(s: State, id: nat)
    requires s.orphans == {} && id in s.acts && s.acts[id].GotTimeout?
    ensures OnTimeout(s, id, s.acts[id].key).orphans == {}
  {
    hide HeaderKey;
  }

  lemma {:induction false} NoOrphans(s: State, ops: seq<Op>, c: Config)
    requires s.orphans == {} && Run(s, ops, c) && RoomToRereg(s, ops, c)
    ensures After(s, ops, c).orphans == {}
    decreases ops
  {
    hide Step, Enabled;
    if ops != [] {
      StepNoOrphans(s, ops[0], c);
      NoOrphans(Step(s, ops[0], c), ops[1..], c);
    }
  }

  // A run in which every re-registration finds room leaks nothing: with no call in
  // progress every stored key is pending.
  lemma RoomMeansNoLeak(ops: seq<Op>, c: Config)
    requires Run(EMPTY, ops, c) && RoomToRereg(EMPTY, ops, c) && After(EMPTY, ops, c).acts == map[]
    ensures var s := After(EMPTY, ops, c); s.store.Keys <= s.pending
  {
    NoOrphans(EMPTY, ops, c);
    var s := After(EMPTY, ops, c);
    forall k | k in s.store
      ensures k in s.pending
    {
      LeakExactly(ops, c, k);
    }
  }

  // ---------------------------------------------------------------------------
  // The leak: a timeout during the first send, whose re-registration is refused
  // ---------------------------------------------------------------------------

  ghost predicate Stuck(s: State, k: Key) {
    k in s.store && k !in s.pending && forall a | a in s.acts :: KeyOf(s.acts[a]) != k
  }

  lemma GoStuck(s: State, id: nat, ok: bool, c: Config, k: Key)
    requires Stuck(s, k) && BudgetKept(s, c) && id in s.acts
    ensures var u := Go(s, id, s.acts[id], ok, c); Stuck(u, k) && u.store[k] == s.store[k]
  {
    hide Go, BudgetKept, KeyOf;
    assert KeyOf(s.acts[id]) != k;
    GoFrame(s, id, ok, c);
    GoElsewhere(s, id, ok, c, k);
    GoKey(s, id, ok, c);
  }

  // A call concerns one key from start to end, and touches no other.
  lemma GoKey(s: State, id: nat, ok: bool, c: Config)
    requires BudgetKept(s, c) && id in s.acts
    ensures var u := Go(s, id, s.acts[id], ok, c); id in u.acts ==> KeyOf(u.acts[id]) == KeyOf(s.acts[id])
  {
    hide HeaderKey;
    if s.acts[id].GotTimeout? {
      TimeoutKey(s, id, c);
    }
    hide OnTimeout, BudgetKept;
  }

  lemma TimeoutKey(s: State, id: nat, c: Config)
    requires BudgetKept(s, c) && id in s.acts && s.acts[id].GotTimeout?
    ensures var u := OnTimeout(s, id, s.acts[id].key); id in u.acts ==> KeyOf(u.acts[id]) == s.acts[id].key
  {
    hide HeaderKey;
  }

  lemma GoElsewhere(s: State, id: nat, ok: bool, c: Config, k: Key)
    requires id in s.acts && KeyOf(s.acts[id]) != k && k in s.store && k !in s.pending
    ensures var u := Go(s, id, s.acts[id], ok, c);
      k in u.store && u.store[k] == s.store[k] && k !in u.pending
  {
    hide HeaderKey;
    if s.acts[id].GotTimeout? {
      TimeoutElsewhere(s, id, k);
    }
    hide OnTimeout;
  }

  lemma TimeoutElsewhere(s: State, id: nat, k: Key)
    requires id in s.acts && s.acts[id].GotTimeout? && s.acts[id].key != k && k in s.store && k !in s.pending
    ensures var u := OnTimeout(s, id, s.acts[id].key);
      k in u.store && u.store[k] == s.store[k] && k !in u.pending
  {
    hide HeaderKey;
  }

  // Such an entry outlives every run in which its key is not submitted again.
  lemma {:induction false} StuckForever(s: State, ops: seq<Op>, c: Config, k: Key)
    requires Stuck(s, k) && Inv(s, c) && Run(s, ops, c)
    requires forall op | op in ops && op.Submit? :: HeaderKey(op.packet.header) != k
    ensures var u := After(s, ops, c); k in u.store && u.store[k] == s.store[k] && k !in u.pending
    decreases ops
  {
    if ops != [] {
      var op := ops[0];
      StepInv(s, op, c);
      assert op in ops;
      StepStuck(s, op, c, k);
      hide Inv, Step, Enabled, HeaderKey;
      StuckForever(Step(s, op, c), ops[1..], c, k);
    }
  }

  lemma StepStuck(s: State, op: Op, c: Config, k: Key)
    requires Stuck(s, k) && Inv(s, c) && Enabled(s, op)
    requires op.Submit? ==> HeaderKey(op.packet.header) != k
    ensures Stuck(Step(s, op, c), k) && Step(s, op, c).store[k] == s.store[k]
  {
    hide HeaderKey;
    if op.Advance? {
      GoStuck(s, op.id, op.ok, c, k);
    } else {
      hide Inv;
    }
  }

  function LeakStart(p: Packet, q: Packet): seq<Op> {
    [Submit(p), Advance(0, true), Expire(HeaderKey(p.header))] + [Submit(q), Advance(2, true)]
  }

  function LeakMid(): seq<Op> {
    [Advance(1, true), Advance(1, true)]
  }

  function LeakEnd(): seq<Op> {
    [Advance(0, true), Advance(0, true), Advance(2, true), Advance(2, true)]
  }

  lemma RunAppend(s: State, x: seq<Op>, y: seq<Op>, c: Config)
    requires Run(s, x, c) && Run(After(s, x, c), y, c)
    ensures Run(s, x + y, c) && After(s, x + y, c) == After(After(s, x, c), y, c)
    decreases x
  {
    hide Step, Enabled;
    if x == [] {
      assert x + y == y;
    } else {
      assert (x + y)[1..] == x[1..] + y && (x + y)[0] == x[0];
      RunAppend(Step(s, x[0], c), x[1..], y, c);
    }
  }

  // Room for one pending message, and two submissions: the first one's timeout takes
  // its place away while it is still being sent, and the second one takes it.
  lemma LeakExample(p: Packet, q: Packet, maxRetries: int)
    requires maxRetries > 0 && HeaderKey(p.header) != HeaderKey(q.header)
    ensures var c := Config(maxRetries, 1); var k := HeaderKey(p.header);
      && Run(EMPTY, LeakStart(p, q) + (LeakMid() + LeakEnd()), c)
      && var s := After(EMPTY, LeakStart(p, q) + (LeakMid() + LeakEnd()), c);
      s.acts == map[] && Stuck(s, k) && s.store[k].isSent
  {
    hide HeaderKey, LeakStart, LeakMid, LeakEnd, Midway, Orphaned, Stuck;
    var c := Config(maxRetries, 1);
    LeakFirst(p, q, c);
    LeakMiddle(p, q, c);
    LeakLast(p, q, c);
    RunAppend(Midway(p, q, c), LeakMid(), LeakEnd(), c);
    RunAppend(EMPTY, LeakStart(p, q), LeakMid() + LeakEnd(), c);
  }

  function Midway(p: Packet, q: Packet, c: Config): State {
    var k, j := HeaderKey(p.header), HeaderKey(q.header);
    State({j}, map[k := Entry(0, p, c.maxRetries, false), j := Entry(1, q, c.maxRetries, false)],
          map[0 := Added(Tx(0, 0, p)), 1 := GotTimeout(k), 2 := Added(Tx(1, 0, q))], 3,
          [p, q], [0, 0], [], {})
  }

  // The first message is on its way when its entry times out.
  function FirstExpired(p: Packet, c: Config): State {
    var k := HeaderKey(p.header);
    State({}, map[k := Entry(0, p, c.maxRetries, false)],
          map[0 := Added(Tx(0, 0, p)), 1 := GotTimeout(k)], 2, [p], [0], [], {})
  }

  lemma FirstExpires(p: Packet, c: Config, rest: seq<Op>)
    requires c.maxRetries > 0 && c.cap == 1
    ensures var ops := [Submit(p), Advance(0, true), Expire(HeaderKey(p.header))] + rest;
      && (Run(FirstExpired(p, c), rest, c) ==> Run(EMPTY, ops, c))
      && After(EMPTY, ops, c) == After(FirstExpired(p, c), rest, c)
  {
    hide HeaderKey;
    var k := HeaderKey(p.header);
    var s1 := State({}, map[k := Entry(0, p, c.maxRetries, false)], map[0 := Inserted(Tx(0, 0, p))], 1,
                    [p], [0], [], {});
    var s2 := s1.(pending := {k}, acts := map[0 := Added(Tx(0, 0, p))]);
    var ops := [Submit(p), Advance(0, true), Expire(k)] + rest;
    assert ops == [ops[0]] + ([ops[1]] + ([ops[2]] + rest));
    Chain(s2, ops[2], rest, FirstExpired(p, c), c);
    Chain(s1, ops[1], [ops[2]] + rest, s2, c);
    Chain(EMPTY, ops[0], [ops[1]] + ([ops[2]] + rest), s1, c);
  }

  lemma SecondAdded(p: Packet, q: Packet, c: Config)
    requires c.maxRetries > 0 && c.cap == 1 && HeaderKey(p.header) != HeaderKey(q.header)
    ensures Run(FirstExpired(p, c), [Submit(q), Advance(2, true)], c)
    ensures After(FirstExpired(p, c), [Submit(q), Advance(2, true)], c) == Midway(p, q, c)
  {
    hide HeaderKey;
    var k := HeaderKey(p.header);
    var s3, m := FirstExpired(p, c), Midway(p, q, c);
    var s4 := m.(pending := {}, acts := m.acts[2 := Inserted(Tx(1, 0, q))]);
    assert m.acts == s4.acts[2 := Added(Tx(1, 0, q))];
    Chain(s3, Submit(q), [Advance(2, true)], s4, c);
    Chain(s4, Advance(2, true), [], m, c);
  }

  lemma LeakFirst(p: Packet, q: Packet, c: Config)
    requires c.maxRetries > 0 && c.cap == 1 && HeaderKey(p.header) != HeaderKey(q.header)
    ensures Run(EMPTY, LeakStart(p, q), c) && After(EMPTY, LeakStart(p, q), c) == Midway(p, q, c)
  {
    hide HeaderKey, Midway, FirstExpired;
    SecondAdded(p, q, c);
    FirstExpires(p, c, [Submit(q), Advance(2, true)]);
  }

  lemma Chain(s: State, op: Op, ops: seq<Op>, t: State, c: Config)
    requires Enabled(s, op) && Step(s, op, c) == t
    ensures Run(t, ops, c) ==> Run(s, [op] + ops, c)
    ensures After(s, [op] + ops, c) == After(t, ops, c)
  {
    assert ([op] + ops)[1..] == ops;
  }

  function Orphaned(p: Packet, q: Packet, c: Config): State {
    Midway(p, q, c).(acts := map[0 := Added(Tx(0, 0, p)), 2 := Added(Tx(1, 0, q))], orphans := {HeaderKey(p.header)})
  }

  // The callback sees that the first send is not over, and its re-registration fails.
  lemma LeakMiddle(p: Packet, q: Packet, c: Config)
    requires c.maxRetries > 0 && c.cap == 1 && HeaderKey(p.header) != HeaderKey(q.header)
    ensures Run(Midway(p, q, c), LeakMid(), c) && After(Midway(p, q, c), LeakMid(), c) == Orphaned(p, q, c)
  {
    hide HeaderKey;
    var s0 := Midway(p, q, c);
    var s1 := s0.(acts := s0.acts[1 := Rereg(HeaderKey(p.header))]);
    Chain(s0, Advance(1, true), [Advance(1, true)], s1, c);
    Chain(s1, Advance(1, true), [], Orphaned(p, q, c), c);
  }

  // Both first sends succeed.
  lemma LeakLast(p: Packet, q: Packet, c: Config)
    requires c.maxRetries > 0 && c.cap == 1 && HeaderKey(p.header) != HeaderKey(q.header)
    ensures Run(Orphaned(p, q, c), LeakEnd(), c)
    ensures var k := HeaderKey(p.header); var s := After(Orphaned(p, q, c), LeakEnd(), c);
      s.acts == map[] && Stuck(s, k) && s.store[k].isSent
  {
    hide HeaderKey;
    var k, j := HeaderKey(p.header), HeaderKey(q.header);
    var a2 := Added(Tx(1, 0, q));
    var s2 := Orphaned(p, q, c);
    var s3 := s2.(acts := map[0 := Sent(k, true), 2 := a2], wire := [Tx(0, 0, p)]);
    var s4 := s3.(acts := map[2 := a2], store := s3.store[k := Entry(0, p, c.maxRetries, true)]);
    var s5 := s4.(acts := map[2 := Sent(j, true)], wire := [Tx(0, 0, p), Tx(1, 0, q)]);
    var s6 := s5.(acts := map[], store := s5.store[j := Entry(1, q, c.maxRetries, true)]);
    var ops := LeakEnd();
    Chain(s2, ops[0], ops[1..], s3, c);
    Chain(s3, ops[1], ops[2..], s4, c);
    Chain(s4, ops[2], ops[3..], s5, c);
    Chain(s5, ops[3], ops[4..], s6, c);
  }
}
