// The stdlib worker thread: a two-level queue with a full policy, and its shutdown.

module WorkerThread {
  import opened Options
  datatype Priority = NORMAL | HIGH
  datatype FullPolicy = DROP | FAULT | TIMEOUT

  // A delegate message; id stands for its delegate and arguments.
  datatype Msg = Msg(priority: Priority, id: nat)

  // A queued message: a delegate to invoke, or the order to exit.
  datatype Item = Work(msg: Msg) | Exit

  // What a dispatch comes to. Waiting: it blocks until there is room.
  datatype Verdict = Accepted | Refused | Faulted | Waiting

  datatype Queues = Queues(high: seq<Msg>, normal: seq<Item>, exit: bool)

  datatype Limits = Limits(maxQueueSize: nat, fullPolicy: FullPolicy)

  function Size(q: Queues): nat {
    |q.high| + |q.normal|
  }

  predicate Full(q: Queues, l: Limits) {
    l.maxQueueSize > 0 && Size(q) >= l.maxQueueSize
  }

  function Push(q: Queues, m: Msg): Queues {
    if m.priority == HIGH then q.(high := q.high + [m]) else q.(normal := q.normal + [Work(m)])
  }

  // The verdict of DispatchDelegate's critical section, up to where it may block.
  function Judge(q: Queues, l: Limits): Verdict {
    if Full(q, l) && l.fullPolicy == DROP then Refused
    else if Full(q, l) && l.fullPolicy == FAULT then Faulted
    else if Full(q, l) && !q.exit then Waiting
    else if q.exit then Refused
    else Accepted
  }

  // The worker's choice: the oldest HIGH message, or else the oldest NORMAL one.
  function Front(q: Queues): Item
    requires Size(q) > 0
  {
    if q.high != [] then Work(q.high[0]) else q.normal[0]
  }

  function Popped(q: Queues): Queues
    requires Size(q) > 0
  {
    if q.high != [] then q.(high := q.high[1..]) else q.(normal := q.normal[1..])
  }

  function Closed(q: Queues): Queues {
    q.(exit := true, normal := q.normal + [Exit])
  }

  class Thread {
    const limits: Limits
    var highQueue: seq<Msg>
    var normalQueue: seq<Item>
    var exit: bool
    var created: bool

    ghost function State(): Queues
      reads this
    {
      Queues(highQueue, normalQueue, exit)
    }

    constructor (limits: Limits)
      ensures this.limits == limits && State() == Queues([], [], false) && !created
    {
      this.limits := limits;
      highQueue, normalQueue, exit, created := [], [], false, false;
    }

    method CreateThread()
      modifies this
      ensures created
      ensures State() == old(State()).(exit := if old(created) then old(exit) else false)
    {
      if !created {
        exit := false;
        created := true;
      }
    }

    // The early check of DispatchDelegate; an uncreated thread is an exception.
    method MayDispatch() returns (allowed: bool, threw: bool)
      ensures allowed == (!exit && created) && threw == (!exit && !created)
    {
      if exit {
        return false, false;
      }
      return created, !created;
    }

    // DispatchDelegate under the lock. What is not accepted, fatal or waiting is refused.
    method DispatchDelegate(m: Msg) returns (verdict: Verdict)
      modifies this
      ensures created == old(created) && exit == old(exit)
      ensures var room := limits.maxQueueSize == 0 || |old(highQueue)| + |old(normalQueue)| < limits.maxQueueSize;
        && (verdict == Accepted <==> room && !exit)
        && (verdict == Faulted <==> !room && limits.fullPolicy == FAULT)
        && (verdict == Waiting <==> !room && !exit && limits.fullPolicy == TIMEOUT)
      ensures highQueue == old(highQueue) + if verdict == Accepted && m.priority == HIGH then [m] else []
      ensures normalQueue == old(normalQueue) + if verdict == Accepted && m.priority == NORMAL then [Work(m)] else []
      ensures verdict == Judge(old(State()), limits)
      ensures State() == if verdict == Accepted then Push(old(State()), m) else old(State())
    {
      if limits.maxQueueSize > 0 && |highQueue| + |normalQueue| >= limits.maxQueueSize {
        if limits.fullPolicy == DROP {
          return Refused;
        }
        if limits.fullPolicy == FAULT {
          return Faulted;
        }
        if !exit {
          return Waiting;
        }
      }
      if exit {
        return Refused;
      }
      Enqueue(m);
      return Accepted;
    }

    // The end of a blocked dispatch: room or exit woke it, or its time is up.
    method Resume(m: Msg) returns (verdict: Verdict)
      modifies this
      ensures var room := limits.maxQueueSize == 0 || |old(highQueue)| + |old(normalQueue)| < limits.maxQueueSize;
        verdict == if room && !old(exit) then Accepted else Refused
      ensures highQueue == old(highQueue) + if verdict == Accepted && m.priority == HIGH then [m] else []
      ensures normalQueue == old(normalQueue) + if verdict == Accepted && m.priority == NORMAL then [Work(m)] else []
      ensures exit == old(exit)
      ensures State() == if verdict == Accepted then Push(old(State()), m) else old(State())
      ensures created == old(created)
    {
      var hasSpace := !(limits.maxQueueSize > 0 && |highQueue| + |normalQueue| >= limits.maxQueueSize) || exit;
      if !hasSpace {
        return Refused;
      }
      if exit {
        return Refused;
      }
      Enqueue(m);
      return Accepted;
    }

    method Enqueue(m: Msg)
      modifies this
      ensures State() == Push(old(State()), m) && created == old(created)
    {
      if m.priority == HIGH {
        highQueue := highQueue + [m];
      } else {
        normalQueue := normalQueue + [Work(m)];
      }
    }

    // Process, under the lock, once it is awake: the next message, if there is one.
    method Take() returns (item: Option<Item>, stop: bool)
      modifies this
      ensures created == old(created)
      ensures exit == old(exit)
      ensures old(highQueue) == [] && old(normalQueue) == [] ==>
                item == None && stop == exit && highQueue == [] && normalQueue == []
      ensures old(highQueue) != [] ==>
                !stop && item.Some? && item.value.Work? && old(highQueue) == [item.value.msg] + highQueue
                && normalQueue == old(normalQueue)
      ensures old(highQueue) == [] && old(normalQueue) != [] ==>
                !stop && item.Some? && old(normalQueue) == [item.value] + normalQueue && highQueue == []
      ensures Size(old(State())) > 0 ==> item == Some(Front(old(State()))) && State() == Popped(old(State()))
    {
      if |highQueue| == 0 && |normalQueue| == 0 {
        return None, exit;
      }
      if |highQueue| != 0 {
        item := Some(Work(highQueue[0]));
        highQueue := highQueue[1..];
      } else {
        item := Some(normalQueue[0]);
        normalQueue := normalQueue[1..];
      }
      stop := false;
    }

    // ExitThread's first critical section. The exit message bypasses the limit.
    method BeginExit()
      modifies this
      ensures created == old(created)
      ensures highQueue == old(highQueue) && exit == (created || old(exit))
      ensures normalQueue == old(normalQueue) + if created then [Exit] else []
      ensures State() == if created then Closed(old(State())) else old(State())
    {
      if !created {
        return;
      }
      exit := true;
      normalQueue := normalQueue + [Exit];
    }

    // Its second one, after the join.
    method EndExit()
      modifies this
      ensures State() == Queues([], [], old(exit)) && !created
    {
      created := false;
      highQueue, normalQueue := [], [];
    }
  }
}

module WorkerRuns {
  import opened Options
  import opened WorkerThread

  datatype Worker = Idle | Holding(item: Item) | Stopped

  datatype Exiter = NotYet | Joining | Joined

  // A producer inside DispatchDelegate: past the early check, or blocked.
  datatype Producer = Checked(msg: Msg) | Blocked(msg: Msg)

  // accepted holds the messages whose dispatch returned true, in the order of their
  // pushes; invoked those the worker has invoked.
  datatype State = State(
    queues: Queues, producers: map<nat, Producer>, worker: Worker, exiter: Exiter,
    accepted: seq<Msg>, invoked: seq<Msg>, faulted: bool)

  datatype Op =
    | Call(p: nat, msg: Msg) // a dispatch begins, and passes or fails its early check
    | Lock(p: nat)              // it enters its critical section
    | Wake(p: nat)              // a blocked one finds room, or that the thread exits
    | TimeUp(p: nat)            // or its time is up
    | Pop | Invoke              // the worker takes a message, and acts on it
    | StopEmpty                 // it finds nothing left and that the thread exits
    | ExitThread | Join

  function Initial(): State {
    State(Queues([], [], false), map[], Idle, NotYet, [], [], false)
  }

  ghost predicate Enabled(s: State, op: Op, l: Limits) {
    && !s.faulted
    && match op
       case Call(p, _) => p !in s.producers
       case Lock(p) => p in s.producers && s.producers[p].Checked?
       case Wake(p) => p in s.producers && s.producers[p].Blocked? && (!Full(s.queues, l) || s.queues.exit)
       case TimeUp(p) => p in s.producers && s.producers[p].Blocked? && Full(s.queues, l) && !s.queues.exit
       case Pop => s.worker == Idle && Size(s.queues) > 0
       case Invoke => s.worker.Holding?
       case StopEmpty => s.worker == Idle && Size(s.queues) == 0 && s.queues.exit
       case ExitThread => s.exiter == NotYet
       case Join => s.exiter == Joining && s.worker == Stopped
  }

  // A dispatch ends with a verdict, or blocks.
  function Settle(s: State, p: nat, m: Msg, v: Verdict): State {
    match v
    case Accepted =>
      s.(producers := s.producers - {p}, queues := Push(s.queues, m), accepted := s.accepted + [m])
    case Refused => s.(producers := s.producers - {p})
    case Faulted => s.(producers := s.producers - {p}, faulted := true)
    case Waiting => s.(producers := s.producers[p := Blocked(m)])
  }

  function Step(s: State, op: Op, l: Limits): State {
    match op
    case Call(p, m) => if s.queues.exit then s else s.(producers := s.producers[p := Checked(m)])
    case Lock(p) => if p in s.producers then Settle(s, p, s.producers[p].msg, Judge(s.queues, l)) else s
    case Wake(p) =>
      if p in s.producers then Settle(s, p, s.producers[p].msg, if s.queues.exit then Refused else Accepted) else s
    case TimeUp(p) => s.(producers := s.producers - {p})
    case Pop =>
      if Size(s.queues) > 0 then s.(worker := Holding(Front(s.queues)), queues := Popped(s.queues)) else s
    case Invoke =>
      if s.worker == Holding(Exit) then s.(worker := Stopped)
      else if s.worker.Holding? then s.(worker := Idle, invoked := s.invoked + [s.worker.item.msg])
      else s
    case StopEmpty => s.(worker := Stopped)
    case ExitThread => s.(queues := Closed(s.queues), exiter := Joining)
    case Join => s.(queues := Queues([], [], s.queues.exit), exiter := Joined)
  }

  ghost predicate Run(s: State, ops: seq<Op>, l: Limits)
    decreases ops
  {
    ops == [] || (Enabled(s, ops[0], l) && Run(Step(s, ops[0], l), ops[1..], l))
  }

  function After(s: State, ops: seq<Op>, l: Limits): State
    decreases ops
  {
    if ops == [] then s else After(Step(s, ops[0], l), ops[1..], l)
  }

  // ---------------------------------------------------------------------------
  // Messages by priority
  // ---------------------------------------------------------------------------

  function Only(s: seq<Msg>, p: Priority): seq<Msg> {
    if s == [] then []
    else Only(s[..|s| - 1], p) + if s[|s| - 1].priority == p then [s[|s| - 1]] else []
  }

  lemma OnlySnoc(s: seq<Msg>, m: Msg, p: Priority)
    ensures Only(s + [m], p) == Only(s, p) + if m.priority == p then [m] else []
  {
    assert (s + [m])[..|s|] == s;
  }

  // The delegate messages among queued ones.
  function Works(s: seq<Item>): seq<Msg> {
    if s == [] then [] else (if s[0].Work? then [s[0].msg] else []) + Works(s[1..])
  }

  lemma Assoc(a: seq<Msg>, b: seq<Msg>, c: seq<Msg>)
    ensures a + (b + c) == (a + b) + c
  {}

  lemma WorksCons(x: Item, s: seq<Item>)
    ensures Works([x] + s) == (if x.Work? then [x.msg] else []) + Works(s)
  {
    assert ([x] + s)[1..] == s;
  }

  lemma {:induction false} WorksSnoc(s: seq<Item>, x: Item)
    ensures Works(s + [x]) == Works(s) + if x.Work? then [x.msg] else []
  {
    var last := if x.Work? then [x.msg] else [];
    if s == [] {
      WorksCons(x, []);
      assert s + [x] == [x] + [];
    } else {
      var y, r := s[0], s[1..];
      WorksSnoc(r, x);
      WorksCons(y, r);
      WorksCons(y, r + [x]);
      hide Works;
      assert s == [y] + r && s + [x] == [y] + (r + [x]);
      Assoc(if y.Work? then [y.msg] else [], Works(r), last);
    }
  }

  // What the worker has taken: the invoked messages and the one it holds.
  function Taken(s: State): seq<Msg> {
    if s.worker.Holding? && s.worker.item.Work? then s.invoked + [s.worker.item.msg] else s.invoked
  }

  // ---------------------------------------------------------------------------
  // The invariant
  // ---------------------------------------------------------------------------

  // Each priority's messages are taken in the order they were accepted.
  ghost predicate Ordered(s: State) {
    && Only(s.accepted, HIGH) == Only(Taken(s), HIGH) + s.queues.high
    && Only(s.accepted, NORMAL) == Only(Taken(s), NORMAL) + Works(s.queues.normal)
  }

  ghost predicate AllWork(s: seq<Item>) {
    forall i | 0 <= i < |s| :: s[i].Work? && s[i].msg.priority == NORMAL
  }

  predicate Exiting(w: Worker) {
    w == Stopped || w == Holding(Exit)
  }

  // The exit message is the last of all.
  ghost predicate ExitLast(s: State) {
    && (s.queues.exit <==> s.exiter != NotYet)
    && (!s.queues.exit ==> AllWork(s.queues.normal) && !Exiting(s.worker))
    && (Exiting(s.worker) ==> Size(s.queues) == 0)
    && (s.queues.exit && !Exiting(s.worker) ==>
          var n := s.queues.normal; n != [] && n[|n| - 1] == Exit && AllWork(n[..|n| - 1]))
    && (s.exiter == Joined ==> s.worker == Stopped)
  }

  ghost predicate Sorted(s: State) {
    forall i | 0 <= i < |s.queues.high| :: s.queues.high[i].priority == HIGH
  }

  // The limit is exceeded by the exit message only.
  ghost predicate Bounded(s: State, l: Limits) {
    l.maxQueueSize > 0 ==> Size(s.queues) <= l.maxQueueSize + if s.queues.exit then 1 else 0
  }

  ghost predicate Inv(s: State, l: Limits) {
    Ordered(s) && ExitLast(s) && Sorted(s) && Bounded(s, l)
  }

  lemma AcceptInv(s: State, m: Msg, u: State, l: Limits)
    requires Inv(s, l) && !s.queues.exit && !Full(s.queues, l)
    requires u.queues == Push(s.queues, m) && u.accepted == s.accepted + [m]
    requires u.worker == s.worker && u.exiter == s.exiter && u.invoked == s.invoked
    ensures Inv(u, l)
  {
    assert Taken(u) == Taken(s);
    OnlySnoc(s.accepted, m, HIGH);
    OnlySnoc(s.accepted, m, NORMAL);
    WorksSnoc(s.queues.normal, Work(m));
    hide Works, Only, Taken;
  }

  lemma QuietInv(s: State, u: State, l: Limits)
    requires Inv(s, l) && u.queues == s.queues && u.accepted == s.accepted
    requires u.worker == s.worker && u.exiter == s.exiter && u.invoked == s.invoked
    ensures Inv(u, l)
  {
    assert Taken(u) == Taken(s);
    hide Works, Only, Taken, AllWork;
  }

  lemma PopHighOrder(s: State, u: State)
    requires Ordered(s) && Sorted(s) && s.worker == Idle && s.queues.high != []
    requires u.worker == Holding(Work(s.queues.high[0])) && u.queues == s.queues.(high := s.queues.high[1..])
    requires u.accepted == s.accepted && u.invoked == s.invoked
    ensures Ordered(u)
  {
    hide Works, Only;
    var m, r := s.queues.high[0], s.queues.high[1..];
    OnlySnoc(s.invoked, m, HIGH);
    OnlySnoc(s.invoked, m, NORMAL);
    assert s.queues.high == [m] + r;
    Assoc(Only(s.invoked, HIGH), [m], r);
    assert Only(s.invoked, NORMAL) + [] == Only(s.invoked, NORMAL);
  }

  lemma PopNormalOrder(s: State, u: State)
    requires Ordered(s) && s.worker == Idle && s.queues.high == [] && s.queues.normal != []
    requires u.worker == Holding(s.queues.normal[0]) && u.queues == s.queues.(normal := s.queues.normal[1..])
    requires u.accepted == s.accepted && u.invoked == s.invoked
    requires s.queues.normal[0].Work? ==> s.queues.normal[0].msg.priority == NORMAL
    ensures Ordered(u)
  {
    hide Works, Only;
    var x, r := s.queues.normal[0], s.queues.normal[1..];
    WorksCons(x, r);
    assert s.queues.normal == [x] + r;
    if x.Work? {
      OnlySnoc(s.invoked, x.msg, HIGH);
      OnlySnoc(s.invoked, x.msg, NORMAL);
      Assoc(Only(s.invoked, NORMAL), [x.msg], Works(r));
      assert Only(s.invoked, HIGH) + [] == Only(s.invoked, HIGH);
    } else {
      assert [] + Works(r) == Works(r);
    }
  }

  // Taking the first of the queued messages leaves the exit message last.
  lemma PopExitLast(s: State, u: State)
    requires ExitLast(s) && s.worker == Idle && s.queues.high == [] && s.queues.normal != []
    requires u.worker == Holding(s.queues.normal[0]) && u.queues == s.queues.(normal := s.queues.normal[1..])
    requires u.exiter == s.exiter
    ensures ExitLast(u)
    ensures s.queues.normal[0].Work? ==> s.queues.normal[0].msg.priority == NORMAL
  {
    var n := s.queues.normal;
    assert forall i | 1 <= i < |n| :: n[1..][i - 1] == n[i];
    if s.queues.exit {
      assert forall i | 0 <= i < |n| - 1 :: n[..|n| - 1][i] == n[i];
    }
  }

  lemma PopInv(s: State, l: Limits)
    requires Inv(s, l) && s.worker == Idle && Size(s.queues) > 0
    ensures Inv(Step(s, Pop, l), l)
  {
    hide AllWork, Ordered;
    var u := Step(s, Pop, l);
    if s.queues.high != [] {
      PopHighOrder(s, u);
      PopHighRest(s, l);
    } else {
      PopExitLast(s, u);
      PopNormalOrder(s, u);
      hide ExitLast;
    }
  }

  lemma PopHighRest(s: State, l: Limits)
    requires ExitLast(s) && Sorted(s) && Bounded(s, l) && s.worker == Idle && s.queues.high != []
    ensures var u := Step(s, Pop, l); ExitLast(u) && Sorted(u) && Bounded(u, l)
  {
    hide AllWork;
    var h := s.queues.high;
    assert forall i | 0 <= i < |h| - 1 :: h[1..][i] == h[i + 1];
  }

  // Only what is taken, accepted and queued matters to the order.
  lemma SameOrder(s: State, u: State)
    requires Ordered(s) && Taken(u) == Taken(s) && u.accepted == s.accepted
    requires u.queues.high == s.queues.high && Works(u.queues.normal) == Works(s.queues.normal)
    ensures Ordered(u)
  {
    hide Taken, Works, Only;
  }

  lemma InvokeInv(s: State, l: Limits)
    requires Inv(s, l) && s.worker.Holding?
    ensures Inv(Step(s, Invoke, l), l)
  {
    hide Works, Only, AllWork, Ordered;
    SameOrder(s, Step(s, Invoke, l));
  }

  lemma ExitInv(s: State, l: Limits)
    requires Inv(s, l) && s.exiter == NotYet
    ensures Inv(Step(s, ExitThread, l), l)
  {
    hide Works, Only, Ordered;
    var u := Step(s, ExitThread, l);
    WorksSnoc(s.queues.normal, Exit);
    assert Works(s.queues.normal) + [] == Works(s.queues.normal);
    SameOrder(s, u);
    hide AllWork, Taken;
    var n := u.queues.normal;
    assert n[..|n| - 1] == s.queues.normal;
  }

  lemma StopInv(s: State, l: Limits)
    requires Inv(s, l)
    ensures s.exiter == Joining && s.worker == Stopped ==> Inv(Step(s, Join, l), l)
    ensures s.worker == Idle && Size(s.queues) == 0 && s.queues.exit ==> Inv(Step(s, StopEmpty, l), l)
  {
    assert Taken(Step(s, Join, l)) == Taken(s);
    hide Works, Only, Taken;
  }

  lemma StepInv(s: State, op: Op, l: Limits)
    requires Inv(s, l) && Enabled(s, op, l)
    ensures Inv(Step(s, op, l), l)
  {
    hide Inv;
    var u := Step(s, op, l);
    match op {
      case Call(_, _) => QuietInv(s, u, l);
      case Lock(p) =>
        if Judge(s.queues, l) == Accepted {
          AcceptInv(s, s.producers[p].msg, u, l);
        } else {
          QuietInv(s, u, l);
        }
      case Wake(p) => if s.queues.exit { QuietInv(s, u, l); } else { AcceptInv(s, s.producers[p].msg, u, l); }
      case TimeUp(_) => QuietInv(s, u, l);
      case Pop => PopInv(s, l);
      case Invoke => InvokeInv(s, l);
      case StopEmpty => StopInv(s, l);
      case ExitThread => ExitInv(s, l);
      case Join => StopInv(s, l);
    }
  }

  lemma {:induction false} RunInv(s: State, ops: seq<Op>, l: Limits)
    requires Inv(s, l) && Run(s, ops, l)
    ensures Inv(After(s, ops, l), l)
    decreases ops
  {
    hide Inv, Step, Enabled;
    if ops != [] {
      StepInv(s, ops[0], l);
      RunInv(Step(s, ops[0], l), ops[1..], l);
    }
  }

  lemma Reachable(ops: seq<Op>, l: Limits)
    requires Run(Initial(), ops, l)
    ensures Inv(After(Initial(), ops, l), l)
  {
    assert Inv(Initial(), l);
    RunInv(Initial(), ops, l);
  }

  // ---------------------------------------------------------------------------
  // The main results
  // ---------------------------------------------------------------------------

  // HIGH and NORMAL are each first in, first out.
  lemma FifoPerPriority(ops: seq<Op>, l: Limits, p: Priority)
    requires Run(Initial(), ops, l)
    ensures var s := After(Initial(), ops, l); Only(s.invoked, p) <= Only(s.accepted, p)
  {
    Reachable(ops, l);
    var s := After(Initial(), ops, l);
    if s.worker.Holding? && s.worker.item.Work? {
      OnlySnoc(s.invoked, s.worker.item.msg, p);
    }
    hide Only, Works, After, Run;
  }

  // When the worker is about to take a NORMAL message, or the order to exit, every HIGH
  // message accepted so far has been invoked.
  lemma NormalWaitsForHigh(ops: seq<Op>, l: Limits)
    requires Run(Initial(), ops, l)
    requires var s := After(Initial(), ops, l);
      s.worker == Idle && Size(s.queues) > 0 && (Front(s.queues) == Exit || Front(s.queues).msg.priority == NORMAL)
    ensures var s := After(Initial(), ops, l); Only(s.invoked, HIGH) == Only(s.accepted, HIGH)
  {
    Reachable(ops, l);
    hide Only, Works, After, Run;
  }

  lemma QueueBounded(ops: seq<Op>, l: Limits)
    requires Run(Initial(), ops, l) && l.maxQueueSize > 0
    ensures var s := After(Initial(), ops, l);
      Size(s.queues) <= l.maxQueueSize + if s.exiter == NotYet then 0 else 1
  {
    Reachable(ops, l);
    hide Only, Works, After, Run;
  }

  // Every message is of one priority or the other.
  lemma {:induction false} OnlyCounts(s: seq<Msg>, m: Msg)
    ensures multiset(s)[m] == multiset(Only(s, m.priority))[m]
  {
    if s != [] {
      var t, x := s[..|s| - 1], s[|s| - 1];
      assert s == t + [x];
      OnlyCounts(t, m);
      OnlySnoc(t, x, m.priority);
    }
  }

  lemma SameMultiset(a: seq<Msg>, b: seq<Msg>)
    requires Only(a, HIGH) == Only(b, HIGH) && Only(a, NORMAL) == Only(b, NORMAL)
    ensures multiset(a) == multiset(b)
  {
    hide Only;
    forall m: Msg
      ensures multiset(a)[m] == multiset(b)[m]
    {
      OnlyCounts(a, m);
      OnlyCounts(b, m);
      assert m.priority == HIGH || m.priority == NORMAL;
    }
  }

  // Once ExitThread has joined the worker, each message whose dispatch returned true
  // has been invoked exactly as often, in order within its priority, and no other was.
  lemma AllInvokedBeforeJoin(ops: seq<Op>, l: Limits)
    requires Run(Initial(), ops, l) && After(Initial(), ops, l).worker == Stopped
    ensures var s := After(Initial(), ops, l);
      && Only(s.invoked, HIGH) == Only(s.accepted, HIGH)
      && Only(s.invoked, NORMAL) == Only(s.accepted, NORMAL)
      && multiset(s.invoked) == multiset(s.accepted)
  {
    Reachable(ops, l);
    hide After, Run;
    StoppedAll(After(Initial(), ops, l), l);
  }

  lemma StoppedAll(s: State, l: Limits)
    requires Inv(s, l) && s.worker == Stopped
    ensures Only(s.invoked, HIGH) == Only(s.accepted, HIGH)
    ensures Only(s.invoked, NORMAL) == Only(s.accepted, NORMAL)
    ensures multiset(s.invoked) == multiset(s.accepted)
  {
    assert Works(s.queues.normal) == [];
    hide Only, Works, AllWork;
    SameMultiset(s.invoked, s.accepted);
  }

  lemma {:induction false} AcceptedGrows(s: State, ops: seq<Op>, l: Limits)
    ensures s.accepted <= After(s, ops, l).accepted
    decreases ops
  {
    if ops != [] {
      AcceptedGrows(Step(s, ops[0], l), ops[1..], l);
    }
  }

  // A dispatch that finds room before the exit has its message accepted, for every
  // limit and policy, and it stays accepted whatever follows.
  lemma RoomMeansAccepted(before: seq<Op>, p: nat, later: seq<Op>, l: Limits)
    requires Run(Initial(), before, l)
    requires var s := After(Initial(), before, l);
      && !s.faulted && !s.queues.exit && p in s.producers
      && (l.maxQueueSize == 0 || |s.queues.high| + |s.queues.normal| < l.maxQueueSize)
    ensures var s := After(Initial(), before, l);
      var op, m := if s.producers[p].Checked? then Lock(p) else Wake(p), s.producers[p].msg;
      && Enabled(s, op, l) && !Step(s, op, l).faulted
      && s.accepted + [m] <= After(Step(s, op, l), later, l).accepted
      && Step(s, op, l).queues.high == s.queues.high + (if m.priority == HIGH then [m] else [])
      && Step(s, op, l).queues.normal == s.queues.normal + (if m.priority == NORMAL then [Work(m)] else [])
  {
    var s := After(Initial(), before, l);
    AcceptedGrows(Step(s, if s.producers[p].Checked? then Lock(p) else Wake(p), l), later, l);
    hide After, Run;
  }

  // A dispatch that begins before the exit reaches the lock; one that begins after it is
  // refused by the early check.
  lemma CallEnters(s: State, p: nat, m: Msg, l: Limits)
    requires !s.faulted && p !in s.producers
    ensures Enabled(s, Call(p, m), l)
    ensures var u := Step(s, Call(p, m), l);
      && u.queues == s.queues && u.accepted == s.accepted && u.worker == s.worker && u.exiter == s.exiter
      && u.producers == if s.queues.exit then s.producers else s.producers[p := Checked(m)]
  {}

  // What becomes of a dispatch that finds no room: dropped, fatal, or blocked until
  // there is room, the thread exits or its time is up.
  lemma NoRoom(s: State, p: nat, l: Limits)
    requires !s.faulted && p in s.producers && s.producers[p].Checked?
    requires 0 < l.maxQueueSize <= |s.queues.high| + |s.queues.normal|
    ensures var u := Step(s, Lock(p), l);
      && u.accepted == s.accepted && u.queues == s.queues && u.worker == s.worker && u.exiter == s.exiter
      && (u.faulted <==> l.fullPolicy == FAULT)
      && (p in u.producers <==> l.fullPolicy == TIMEOUT && !s.queues.exit)
      && (p in u.producers ==>
            && u.producers[p] == Blocked(s.producers[p].msg) && !Enabled(u, Wake(p), l) && Enabled(u, TimeUp(p), l)
            && p !in Step(u, TimeUp(p), l).producers && Step(u, TimeUp(p), l).accepted == s.accepted)
  {}

  // Exit releases every blocked dispatch, and refuses it.
  lemma ExitReleases(s: State, p: nat, l: Limits)
    requires !s.faulted && s.queues.exit && p in s.producers && s.producers[p].Blocked?
    ensures Enabled(s, Wake(p), l) && Step(s, Wake(p), l) == s.(producers := s.producers - {p})
  {}

  // A run is fatal only by a full queue whose policy is FAULT.
  lemma {:induction false} FaultOnlyByPolicy(s: State, ops: seq<Op>, l: Limits)
    requires Run(s, ops, l) && !s.faulted && After(s, ops, l).faulted
    ensures l.fullPolicy == FAULT && l.maxQueueSize > 0
    decreases ops
  {
    if ops != [] && !Step(s, ops[0], l).faulted {
      FaultOnlyByPolicy(Step(s, ops[0], l), ops[1..], l);
    }
  }

  // After ExitThread's first section nothing more is accepted.
  lemma {:induction false} NoneAcceptedAfterExit(s: State, ops: seq<Op>, l: Limits)
    requires s.queues.exit && Run(s, ops, l)
    ensures After(s, ops, l).accepted == s.accepted && After(s, ops, l).queues.exit
    decreases ops
  {
    if ops != [] {
      NoneAcceptedAfterExit(Step(s, ops[0], l), ops[1..], l);
    }
  }

  // From every reachable state after that section the worker, on its own, stops within
  // two steps for each message left: the join ends.
  lemma {:induction false} WorkerDrains(s: State, l: Limits) returns (ops: seq<Op>)
    requires Inv(s, l) && s.queues.exit && !s.faulted
    ensures Run(s, ops, l) && After(s, ops, l).worker == Stopped
    ensures |ops| <= Left(s) && forall op | op in ops :: op == Pop || op == Invoke
    decreases Left(s)
  {
    if s.worker == Stopped {
      ops := [];
    } else {
      var op := if s.worker == Idle then Pop else Invoke;
      assert s.worker == Idle ==> Size(s.queues) > 0;
      StepInv(s, op, l);
      LeftFalls(s, op, l);
      var rest := WorkerDrains(Step(s, op, l), l);
      ops := [op] + rest;
      assert ops[1..] == rest;
    }
  }

  // Two steps for each queued message, one for a message held.
  function Left(s: State): nat {
    2 * Size(s.queues) + if s.worker.Holding? then 1 else 0
  }

  lemma LeftFalls(s: State, op: Op, l: Limits)
    requires Enabled(s, op, l) && (op == Pop || op == Invoke)
    ensures Left(Step(s, op, l)) < Left(s) && Step(s, op, l).queues.exit == s.queues.exit && !Step(s, op, l).faulted
  {}
}
