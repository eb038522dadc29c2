// The asynchronous DuckDB proxy: calls from any thread become tasks of one worker.
// DuckDB itself is an opaque state with step functions.

module DuckTasks {
  import opened Options
  type Engine(0)
  type Value(==, 0)
  type Rows(0)

  type Stmt = nat

  datatype Task = Bind(stmt: Stmt, index: nat, value: Value) | Execute(stmt: Stmt) | Query(sql: string)

  // What a task leaves for its caller. ErrorResult is a query result that reports an
  // error, Raised an exception.
  datatype Answer = Void | Result(rows: Rows) | ErrorResult(error: string) | Raised(error: string)

  // The engine, which statements were prepared successfully, and what a parameter
  // holds before it is bound.
  datatype Duck = Duck(
    execute: (Engine, Stmt, seq<Value>) -> (Engine, Answer),
    query: (Engine, string) -> (Engine, Answer),
    prepared: Stmt -> bool,
    unbound: Value)

  // The engine's state, and each statement's parameters.
  datatype Db = Db(engine: Engine, params: map<Stmt, seq<Value>>)

  function ParamsOf(params: map<Stmt, seq<Value>>, stmt: Stmt): seq<Value> {
    if stmt in params then params[stmt] else []
  }

  // vector::resize.
  function Resized(s: seq<Value>, n: nat, fill: Value): (r: seq<Value>)
    ensures |r| == n
  {
    if n <= |s| then s[..n] else s + seq(n - |s|, _ => fill)
  }

  function Bound(s: seq<Value>, index: nat, v: Value, fill: Value): (r: seq<Value>)
    requires index > 0
    ensures |r| == if |s| < index then index else |s|
    ensures forall i | 0 <= i < |r| :: r[i] == if i == index - 1 then v else if i < |s| then s[i] else fill
  {
    (if |s| < index then Resized(s, index, fill) else s)[index - 1 := v]
  }

  predicate InRange(t: Task) {
    t.Bind? ==> 1 <= t.index <= 1000
  }

  // The effect of a task on the worker.
  function Perform(duck: Duck, db: Db, t: Task): (Db, Answer) {
    match t
    case Bind(stmt, index, v) =>
      if index > 0 && duck.prepared(stmt) then
        (db.(params := db.params[stmt := Bound(ParamsOf(db.params, stmt), index, v, duck.unbound)]), Void)
      else (db, Void)
    case Execute(stmt) =>
      var r := duck.execute(db.engine, stmt, ParamsOf(db.params, stmt));
      (db.(engine := r.0), r.1)
    case Query(sql) =>
      var r := duck.query(db.engine, sql);
      (db.(engine := r.0), r.1)
  }

  // The state after some tasks, one after the other.
  function Replay(duck: Duck, db: Db, tasks: seq<Task>): Db {
    if tasks == [] then db else Perform(duck, Replay(duck, db, tasks[..|tasks| - 1]), tasks[|tasks| - 1]).0
  }

  // The answer of the i-th task, after those before it.
  function AnswerAt(duck: Duck, db: Db, tasks: seq<Task>, i: nat): Answer
    requires i < |tasks|
  {
    Perform(duck, Replay(duck, db, tasks[..i]), tasks[i]).1
  }

  lemma ReplaySnoc(duck: Duck, db: Db, tasks: seq<Task>, t: Task)
    ensures Replay(duck, db, tasks + [t]) == Perform(duck, Replay(duck, db, tasks), t).0
    ensures AnswerAt(duck, db, tasks + [t], |tasks|) == Perform(duck, Replay(duck, db, tasks), t).1
  {
    assert (tasks + [t])[..|tasks|] == tasks;
  }

  // Later tasks do not change the answer of an earlier one.
  lemma AnswerPrefix(duck: Duck, db: Db, s: seq<Task>, t: seq<Task>, i: nat)
    requires s <= t && i < |s|
    ensures AnswerAt(duck, db, s, i) == AnswerAt(duck, db, t, i)
  {
    assert s[..i] == t[..i] && s[i] == t[i];
  }

  // ---------------------------------------------------------------------------
  // What Execute sees
  // ---------------------------------------------------------------------------

  // The value last bound at an index of a statement.
  function LastBound(tasks: seq<Task>, stmt: Stmt, index: nat): Option<Value> {
    if tasks == [] then None
    else
      var t := tasks[|tasks| - 1];
      if t.Bind? && t.stmt == stmt && t.index == index then Some(t.value)
      else LastBound(tasks[..|tasks| - 1], stmt, index)
  }

  // The largest index bound, or 0.
  function Highest(tasks: seq<Task>, stmt: Stmt): nat {
    if tasks == [] then 0
    else
      var t, h := tasks[|tasks| - 1], Highest(tasks[..|tasks| - 1], stmt);
      if t.Bind? && t.stmt == stmt && t.index > h then t.index else h
  }

  // Execute is given the values last bound at each index up to the largest one, and
  // the unbound value in between.
  lemma {:induction false} ExecuteSeesLastBinds(duck: Duck, e: Engine, tasks: seq<Task>, stmt: Stmt)
    requires duck.prepared(stmt) && forall t | t in tasks :: InRange(t)
    ensures var p := ParamsOf(Replay(duck, Db(e, map[]), tasks).params, stmt);
      && |p| == Highest(tasks, stmt)
      && forall i | 0 <= i < |p| ::
           p[i] == var b := LastBound(tasks, stmt, i + 1); if b.Some? then b.value else duck.unbound
  {
    if tasks != [] {
      var r, t := tasks[..|tasks| - 1], tasks[|tasks| - 1];
      ExecuteSeesLastBinds(duck, e, r, stmt);
      HighestBounds(r, stmt);
      assert t in tasks && InRange(t);
      var db := Replay(duck, Db(e, map[]), r);
      ParamsAfter(duck, db, t, stmt);
      hide Perform;
    }
  }

  lemma ParamsAfter(duck: Duck, db: Db, t: Task, stmt: Stmt)
    requires duck.prepared(stmt) && InRange(t)
    ensures ParamsOf(Perform(duck, db, t).0.params, stmt)
         == if t.Bind? && t.stmt == stmt then Bound(ParamsOf(db.params, stmt), t.index, t.value, duck.unbound)
            else ParamsOf(db.params, stmt)
  {}

  lemma {:induction false} HighestBounds(tasks: seq<Task>, stmt: Stmt)
    ensures forall i | i > Highest(tasks, stmt) :: LastBound(tasks, stmt, i) == None
  {
    if tasks != [] {
      HighestBounds(tasks[..|tasks| - 1], stmt);
    }
  }

  // ---------------------------------------------------------------------------
  // One engine, one task after the other
  // ---------------------------------------------------------------------------

  predicate Binds(t: Task, stmt: Stmt, index: nat) {
    t.Bind? && t.stmt == stmt && t.index == index
  }

  // p holds what the first n tasks bound last to the statement: as many values as the
  // largest index bound, in each place the last one bound there or the unbound value.
  ghost predicate LastBinds(duck: Duck, tasks: seq<Task>, n: nat, stmt: Stmt, p: seq<Value>)
    requires n <= |tasks|
  {
    && (!duck.prepared(stmt) ==> p == [])
    && (duck.prepared(stmt) ==>
          && (forall j | 0 <= j < n && tasks[j].Bind? && tasks[j].stmt == stmt :: tasks[j].index <= |p|)
          && (p != [] ==> exists j | 0 <= j < n :: Binds(tasks[j], stmt, |p|)))
    && (forall k | 0 <= k < |p| :: Holds(duck, tasks, n, stmt, k, p[k]))
  }

  ghost predicate Holds(duck: Duck, tasks: seq<Task>, n: nat, stmt: Stmt, k: nat, v: Value)
    requires n <= |tasks|
  {
    || (exists j | 0 <= j < n :: Binds(tasks[j], stmt, k + 1) && tasks[j].value == v
          && forall m | j < m < n :: !Binds(tasks[m], stmt, k + 1))
    || (v == duck.unbound && forall j | 0 <= j < n :: !Binds(tasks[j], stmt, k + 1))
  }

  lemma {:induction false} UnpreparedEmpty(duck: Duck, e: Engine, tasks: seq<Task>, stmt: Stmt)
    requires !duck.prepared(stmt)
    ensures stmt !in Replay(duck, Db(e, map[]), tasks).params
  {
    if tasks != [] {
      UnpreparedEmpty(duck, e, tasks[..|tasks| - 1], stmt);
    }
  }

  lemma {:induction false} LastBoundHolds(duck: Duck, tasks: seq<Task>, n: nat, stmt: Stmt, k: nat, v: Value)
    requires n <= |tasks|
    requires v == var b := LastBound(tasks[..n], stmt, k + 1); if b.Some? then b.value else duck.unbound
    ensures Holds(duck, tasks, n, stmt, k, v)
  {
    if n > 0 {
      assert tasks[..n][..n - 1] == tasks[..n - 1];
      if !Binds(tasks[n - 1], stmt, k + 1) {
        LastBoundHolds(duck, tasks, n - 1, stmt, k, v);
      }
    }
  }

  lemma {:induction false} HighestIsBound(tasks: seq<Task>, n: nat, stmt: Stmt)
    requires n <= |tasks|
    ensures var h := Highest(tasks[..n], stmt);
      && (forall j | 0 <= j < n && tasks[j].Bind? && tasks[j].stmt == stmt :: tasks[j].index <= h)
      && (h > 0 ==> exists j | 0 <= j < n :: Binds(tasks[j], stmt, h))
  {
    if n > 0 {
      assert tasks[..n][..n - 1] == tasks[..n - 1];
      HighestIsBound(tasks, n - 1, stmt);
      var h := Highest(tasks[..n], stmt);
      assert Binds(tasks[n - 1], stmt, h) || h == Highest(tasks[..n - 1], stmt);
    }
  }

  lemma ParamsLastBinds(duck: Duck, e: Engine, tasks: seq<Task>, n: nat, stmt: Stmt)
    requires n <= |tasks| && forall t | t in tasks :: InRange(t)
    ensures LastBinds(duck, tasks, n, stmt, ParamsOf(Replay(duck, Db(e, map[]), tasks[..n]).params, stmt))
  {
    hide Holds, Highest, LastBound, Replay, InRange;
    var p := ParamsOf(Replay(duck, Db(e, map[]), tasks[..n]).params, stmt);
    if duck.prepared(stmt) {
      ExecuteSeesLastBinds(duck, e, tasks[..n], stmt);
      HighestIsBound(tasks, n, stmt);
      forall k | 0 <= k < |p|
        ensures Holds(duck, tasks, n, stmt, k, p[k])
      {
        LastBoundHolds(duck, tasks, n, stmt, k, p[k]);
      }
    } else {
      UnpreparedEmpty(duck, e, tasks[..n], stmt);
    }
  }

  // The engine before and after a task, and the answer it leaves.
  ghost predicate Turn(duck: Duck, t: Task, p: seq<Value>, e: Engine, f: Engine, a: Answer) {
    match t
    case Query(sql) => (f, a) == duck.query(e, sql)
    case Execute(stmt) => (f, a) == duck.execute(e, stmt, p)
    case Bind(_, _, _) => f == e && a == Void
  }

  lemma PerformTurn(duck: Duck, db: Db, t: Task)
    ensures var r := Perform(duck, db, t);
      Turn(duck, t, if t.Execute? then ParamsOf(db.params, t.stmt) else [], db.engine, r.0.engine, r.1)
  {}

  // The engines between the tasks: each task turns the one before it into the one
  // after it.
  lemma {:induction false} EngineChain(duck: Duck, e0: Engine, tasks: seq<Task>)
    returns (e: seq<Engine>, p: seq<seq<Value>>)
    requires forall t | t in tasks :: InRange(t)
    ensures |e| == |tasks| + 1 && |p| == |tasks| && e[0] == e0
    ensures e[|tasks|] == Replay(duck, Db(e0, map[]), tasks).engine
    ensures forall i | 0 <= i < |tasks| :: tasks[i].Execute? ==> LastBinds(duck, tasks, i, tasks[i].stmt, p[i])
    ensures forall i | 0 <= i < |tasks| ::
              Turn(duck, tasks[i], p[i], e[i], e[i + 1], AnswerAt(duck, Db(e0, map[]), tasks, i))
  {
    hide LastBinds, Turn, InRange, Perform;
    var db0 := Db(e0, map[]);
    e := seq(|tasks| + 1, i requires 0 <= i <= |tasks| => Replay(duck, db0, tasks[..i]).engine);
    p := seq(|tasks|, i requires 0 <= i < |tasks| =>
             if tasks[i].Execute? then ParamsOf(Replay(duck, db0, tasks[..i]).params, tasks[i].stmt) else []);
    assert tasks[..|tasks|] == tasks;
    forall i | 0 <= i < |tasks|
      ensures tasks[i].Execute? ==> LastBinds(duck, tasks, i, tasks[i].stmt, p[i])
      ensures Turn(duck, tasks[i], p[i], e[i], e[i + 1], AnswerAt(duck, db0, tasks, i))
    {
      if tasks[i].Execute? {
        ParamsLastBinds(duck, e0, tasks, i, tasks[i].stmt);
      }
      assert tasks[..i + 1] == tasks[..i] + [tasks[i]];
      ReplaySnoc(duck, db0, tasks[..i], tasks[i]);
      PerformTurn(duck, Replay(duck, db0, tasks[..i]), tasks[i]);
    }
  }

  // ---------------------------------------------------------------------------
  // The prepared statement's proxy
  // ---------------------------------------------------------------------------

  class PreparedStatement {
    const success: bool
    const unbound: Value
    var params: seq<Value>

    constructor (success: bool, unbound: Value)
      ensures this.success == success && this.unbound == unbound && params == []
    {
      this.success, this.unbound, params := success, unbound, [];
    }

    // BindValue's checks, before it sends its task.
    method CheckIndex(index: nat) returns (outOfRange: bool)
      ensures outOfRange <==> !(1 <= index <= 1000)
    {
      if index == 0 {
        return true;
      }
      return index > 1000;
    }

    // BindValue's task, on the worker.
    method BindTask(index: nat, v: Value)
      requires index > 0
      modifies this
      ensures params == if success then Bound(old(params), index, v, unbound) else old(params)
    {
      if success {
        if |params| < index {
          params := Resized(params, index, unbound);
        }
        params := params[index - 1 := v];
      }
    }
  }
}

module DuckProxy {
  import opened Options
  import opened DuckTasks
  import WT = WorkerThread
  import WR = WorkerRuns

  // The default worker has an unbounded queue.
  const LIMITS := WT.Limits(0, WT.FAULT)

  datatype Call = Call(task: Task, sync: bool)

  // How a call ended for its caller.
  datatype Outcome = Answered(a: Answer) | Threw(error: string) | OutOfRange | TimedOut | Broken

  // calls are numbered in the order they begin. answers are the results set by the
  // tasks, outcomes what the callers have seen. central: CentralThread is not null.
  datatype State = State(
    work: WR.State, central: bool, calls: seq<Call>, db: Db,
    answers: map<nat, Answer>, outcomes: map<nat, Outcome>)

  datatype Op =
    | Begin(call: Call)
    | Work(op: WR.Op)
    | Return(n: nat)      // a semaphore wait that succeeds, or a future that is ready
    | TimeOut(n: nat)     // a semaphore wait that does not
    | BreakPromise(n: nat) // a future whose task was never queued
    | Detach              // CentralThread becomes null

  function MsgOf(n: nat): WT.Msg {
    WT.Msg(WT.NORMAL, n)
  }

  predicate InFlight(s: State, n: nat) {
    n < |s.calls| && n !in s.outcomes && n !in s.work.producers
  }

  ghost predicate Enabled(s: State, op: Op) {
    match op
    case Begin(_) => true
    case Work(o) => !o.Call? && WR.Enabled(s.work, o, LIMITS)
    case Return(n) => InFlight(s, n) && n in s.answers
    case TimeOut(n) => InFlight(s, n) && n !in s.answers && s.calls[n].sync
    case BreakPromise(n) => InFlight(s, n) && MsgOf(n) !in s.work.accepted && !s.calls[n].sync
    case Detach => true
  }

  // RunSync rethrows an error reported by a query result; RunAsync hands it over.
  function Seen(sync: bool, a: Answer): Outcome {
    if a.Raised? || (sync && a.ErrorResult?) then Threw(a.error) else Answered(a)
  }

  // The worker invokes a message, and so runs what its call asked for.
  function RunTask(s: State, n: nat, duck: Duck): State {
    if n < |s.calls| then
      var r := Perform(duck, s.db, s.calls[n].task);
      s.(db := r.0, answers := s.answers[n := r.1])
    else s
  }

  function BeginCall(s: State, c: Call): State {
    var n := |s.calls|;
    if !InRange(c.task) then s.(calls := s.calls + [c], outcomes := s.outcomes[n := OutOfRange])
    else if s.central then s.(calls := s.calls + [c], work := WR.Step(s.work, WR.Call(n, MsgOf(n)), LIMITS))
    else s.(calls := s.calls + [c])
  }

  function WorkStep(s: State, o: WR.Op, duck: Duck): State {
    var t := if o.Invoke? && s.work.worker.Holding? && s.work.worker.item.Work?
             then RunTask(s, s.work.worker.item.msg.id, duck) else s;
    t.(work := WR.Step(s.work, o, LIMITS))
  }

  function Step(s: State, op: Op, duck: Duck): State {
    match op
    case Begin(c) => BeginCall(s, c)
    case Work(o) => WorkStep(s, o, duck)
    case Return(n) =>
      if n < |s.calls| && n in s.answers then
        s.(outcomes := s.outcomes[n := Seen(s.calls[n].sync, s.answers[n])])
      else s
    case TimeOut(n) => s.(outcomes := s.outcomes[n := TimedOut])
    case BreakPromise(n) => s.(outcomes := s.outcomes[n := Broken])
    case Detach => s.(central := false)
  }

  ghost predicate Run(s: State, ops: seq<Op>, duck: Duck)
    decreases ops
  {
    ops == [] || (Enabled(s, ops[0]) && Run(Step(s, ops[0], duck), ops[1..], duck))
  }

  function After(s: State, ops: seq<Op>, duck: Duck): State
    decreases ops
  {
    if ops == [] then s else After(Step(s, ops[0], duck), ops[1..], duck)
  }

  function Initial(db: Db): State {
    State(WR.Initial(), true, [], db, map[], map[])
  }

  // ---------------------------------------------------------------------------
  // The tasks of queued messages
  // ---------------------------------------------------------------------------

  function TaskOf(calls: seq<Call>, m: WT.Msg): Task {
    if m.id < |calls| then calls[m.id].task else Query("")
  }

  function Tasks(calls: seq<Call>, ms: seq<WT.Msg>): (r: seq<Task>)
    ensures |r| == |ms|
  {
    seq(|ms|, i requires 0 <= i < |ms| => TaskOf(calls, ms[i]))
  }

  // Every message is of a call, no call has two, and all have the default priority.
  ghost predicate Queued(ms: seq<WT.Msg>, calls: seq<Call>) {
    && (forall i | 0 <= i < |ms| :: ms[i] == MsgOf(ms[i].id) && ms[i].id < |calls| && InRange(calls[ms[i].id].task))
    && (forall i, j | 0 <= i < j < |ms| :: ms[i] != ms[j])
  }

  // A call on its way to the queue is not in it yet.
  ghost predicate Arriving(s: State) {
    forall p | p in s.work.producers ::
      && p < |s.calls| && InRange(s.calls[p].task)
      && s.work.producers[p] == WR.Checked(MsgOf(p)) && MsgOf(p) !in s.work.accepted
  }

  // ---------------------------------------------------------------------------
  // The invariant
  // ---------------------------------------------------------------------------

  // The worker's state is that of the invoked tasks one after the other, and each of
  // them left its answer.
  ghost predicate Executed(duck: Duck, db0: Db, db: Db, tasks: seq<Task>, invoked: seq<WT.Msg>,
                           answers: map<nat, Answer>)
  {
    && |tasks| == |invoked|
    && db == Replay(duck, db0, tasks)
    && (forall i | 0 <= i < |invoked| ::
          invoked[i].id in answers && answers[invoked[i].id] == AnswerAt(duck, db0, tasks, i))
    && (forall n | n in answers :: MsgOf(n) in invoked)
  }

  ghost predicate OutcomesOk(s: State) {
    forall n | n in s.outcomes ::
      n < |s.calls| && n !in s.work.producers &&
      match s.outcomes[n]
      case Answered(_) => n in s.answers && s.outcomes[n] == Seen(s.calls[n].sync, s.answers[n])
      case Threw(_) => n in s.answers && s.outcomes[n] == Seen(s.calls[n].sync, s.answers[n])
      case OutOfRange => !InRange(s.calls[n].task) && MsgOf(n) !in s.work.accepted
      case TimedOut => s.calls[n].sync
      case Broken => !s.calls[n].sync && MsgOf(n) !in s.work.accepted
  }

  ghost predicate Inv(s: State, duck: Duck, db0: Db) {
    && WR.Inv(s.work, LIMITS)
    && Queued(s.work.accepted, s.calls) && Arriving(s)
    && Executed(duck, db0, s.db, Tasks(s.calls, s.work.invoked), s.work.invoked, s.answers)
    && OutcomesOk(s)
  }

  lemma {:induction false} AllNormal(ms: seq<WT.Msg>)
    requires forall m | m in ms :: m.priority == WT.NORMAL
    ensures WR.Only(ms, WT.NORMAL) == ms && WR.Only(ms, WT.HIGH) == []
  {
    if ms != [] {
      var r := ms[..|ms| - 1];
      AllNormal(r);
      assert ms == r + [ms[|r|]] && ms[|r|] in ms;
    }
  }

  lemma {:induction false} OnlyAll(ms: seq<WT.Msg>)
    requires WR.Only(ms, WT.HIGH) == []
    ensures WR.Only(ms, WT.NORMAL) == ms
  {
    if ms != [] {
      var r, m := ms[..|ms| - 1], ms[|ms| - 1];
      assert WR.Only(ms, WT.HIGH) == WR.Only(r, WT.HIGH) + if m.priority == WT.HIGH then [m] else [];
      OnlyAll(r);
      assert ms == r + [m];
    }
  }

  // The worker takes the messages in the order they were accepted.
  lemma TakenPrefix(w: WR.State)
    requires WR.Inv(w, LIMITS) && forall m | m in w.accepted :: m.priority == WT.NORMAL
    ensures WR.Taken(w) <= w.accepted && w.invoked <= w.accepted
  {
    AllNormal(w.accepted);
    assert w.invoked <= WR.Taken(w);
    hide WR.Only, WR.Works, WR.Taken;
    OnlyAll(WR.Taken(w));
  }

  lemma AcceptedNormal(s: State)
    requires Queued(s.work.accepted, s.calls)
    ensures forall m | m in s.work.accepted :: m.priority == WT.NORMAL
  {}

  // New calls do not change what queued messages ask for.
  lemma TasksGrow(calls: seq<Call>, c: Call, ms: seq<WT.Msg>)
    requires forall m | m in ms :: m.id < |calls|
    ensures Tasks(calls + [c], ms) == Tasks(calls, ms)
  {
    forall i | 0 <= i < |ms|
      ensures TaskOf(calls + [c], ms[i]) == TaskOf(calls, ms[i])
    {
      assert ms[i] in ms;
    }
  }

  lemma TasksSnoc(calls: seq<Call>, ms: seq<WT.Msg>, m: WT.Msg)
    ensures Tasks(calls, ms + [m]) == Tasks(calls, ms) + [TaskOf(calls, m)]
  {}

  lemma TasksPrefix(calls: seq<Call>, a: seq<WT.Msg>, b: seq<WT.Msg>)
    requires a <= b
    ensures Tasks(calls, a) <= Tasks(calls, b)
  {}

  lemma ExecuteOne(duck: Duck, db0: Db, db: Db, tasks: seq<Task>, t: Task, invoked: seq<WT.Msg>, m: WT.Msg,
                   answers: map<nat, Answer>)
    requires Executed(duck, db0, db, tasks, invoked, answers) && m == MsgOf(m.id) && m !in invoked
    requires forall x | x in invoked :: x == MsgOf(x.id)
    ensures var r := Perform(duck, db, t);
      Executed(duck, db0, r.0, tasks + [t], invoked + [m], answers[m.id := r.1])
  {
    hide Perform;
    ReplaySnoc(duck, db0, tasks, t);
    forall i | 0 <= i < |invoked|
      ensures AnswerAt(duck, db0, tasks, i) == AnswerAt(duck, db0, tasks + [t], i)
      ensures invoked[i].id != m.id
    {
      AnswerPrefix(duck, db0, tasks, tasks + [t], i);
      assert invoked[i] in invoked;
    }
    hide Replay, AnswerAt;
  }

  // ---------------------------------------------------------------------------
  // Steps
  // ---------------------------------------------------------------------------

  // What each worker step does to the messages.
  lemma WorkFrame(w: WR.State, o: WR.Op)
    requires WR.Enabled(w, o, LIMITS) && !o.Call?
    requires forall p | p in w.producers :: w.producers[p].Checked?
    ensures var u := WR.Step(w, o, LIMITS);
      && u.producers == (if o.Lock? then w.producers - {o.p} else w.producers)
      && (u.accepted == w.accepted || (o.Lock? && u.accepted == w.accepted + [w.producers[o.p].msg]))
      && u.invoked == (if o.Invoke? && w.worker.item.Work? then w.invoked + [w.worker.item.msg] else w.invoked)
  {}

  lemma LockKeeps(s: State, u: State, p: nat)
    requires Queued(s.work.accepted, s.calls) && Arriving(s) && OutcomesOk(s) && p in s.work.producers
    requires u.calls == s.calls && u.outcomes == s.outcomes && u.answers == s.answers
    requires u.work.producers == s.work.producers - {p}
    requires u.work.accepted == s.work.accepted || u.work.accepted == s.work.accepted + [s.work.producers[p].msg]
    ensures Queued(u.work.accepted, u.calls) && Arriving(u) && OutcomesOk(u)
  {
    hide InRange;
    var m := MsgOf(p);
    assert s.work.producers[p].msg == m;
    assert forall i | 0 <= i < |s.work.accepted| :: s.work.accepted[i] in s.work.accepted;
    assert forall n | n in s.outcomes :: n != p;
  }

  // The message the worker holds is the next accepted one.
  lemma HeldIsNext(s: State)
    requires WR.Inv(s.work, LIMITS) && Queued(s.work.accepted, s.calls)
    requires s.work.worker.Holding? && s.work.worker.item.Work?
    ensures var m := s.work.worker.item.msg;
      && m == MsgOf(m.id) && m.id < |s.calls| && m !in s.work.invoked
      && s.work.invoked + [m] <= s.work.accepted
  {
    AcceptedNormal(s);
    TakenPrefix(s.work);
    hide WR.Inv;
    var m, k := s.work.worker.item.msg, |s.work.invoked|;
    assert WR.Taken(s.work) == s.work.invoked + [m];
    assert s.work.accepted[k] == m;
    assert forall i | 0 <= i < k :: s.work.accepted[i] == s.work.invoked[i];
  }

  lemma InvokedIds(s: State)
    requires WR.Inv(s.work, LIMITS) && Queued(s.work.accepted, s.calls)
    ensures forall m | m in s.work.invoked :: m == MsgOf(m.id) && m.id < |s.calls|
  {
    AcceptedNormal(s);
    TakenPrefix(s.work);
    hide WR.Inv;
    assert forall i | 0 <= i < |s.work.invoked| :: s.work.accepted[i] == s.work.invoked[i];
  }

  lemma InvokeKeeps(s: State, duck: Duck, db0: Db)
    requires Inv(s, duck, db0) && s.work.worker.Holding? && s.work.worker.item.Work?
    ensures var u := Step(s, Work(WR.Invoke), duck); var i := u.work.invoked;
      && Executed(duck, db0, u.db, Tasks(u.calls, i), i, u.answers)
      && u.calls == s.calls && u.outcomes == s.outcomes
      && (forall n | n in s.answers :: n in u.answers && u.answers[n] == s.answers[n])
  {
    hide WR.Inv, Queued, Arriving, OutcomesOk, Perform, Tasks, WR.Step;
    HeldIsNext(s);
    InvokedIds(s);
    var m := s.work.worker.item.msg;
    assert m.id !in s.answers;
    hide Executed;
    InvokeFrame(s, duck);
    TasksSnoc(s.calls, s.work.invoked, m);
    ExecuteOne(duck, db0, s.db, Tasks(s.calls, s.work.invoked), TaskOf(s.calls, m), s.work.invoked, m, s.answers);
  }

  lemma InvokeFrame(s: State, duck: Duck)
    requires s.work.worker.Holding? && s.work.worker.item.Work? && s.work.worker.item.msg.id < |s.calls|
    ensures var u := Step(s, Work(WR.Invoke), duck); var m := s.work.worker.item.msg;
      var r := Perform(duck, s.db, TaskOf(s.calls, m));
      && u.calls == s.calls && u.outcomes == s.outcomes && u.db == r.0
      && u.answers == s.answers[m.id := r.1] && u.work.invoked == s.work.invoked + [m]
  {
    hide Perform;
  }

  // A step that leaves the messages alone keeps what is said about them.
  lemma SameMessages(s: State, u: State)
    requires u.calls == s.calls && u.outcomes == s.outcomes
    requires u.work.accepted == s.work.accepted && u.work.producers == s.work.producers
    requires forall n | n in s.answers :: n in u.answers && u.answers[n] == s.answers[n]
    ensures Queued(s.work.accepted, s.calls) ==> Queued(u.work.accepted, u.calls)
    ensures Arriving(s) ==> Arriving(u)
    ensures OutcomesOk(s) ==> OutcomesOk(u)
  {
    hide InRange, MsgOf;
  }

  lemma WorkInv(s: State, o: WR.Op, duck: Duck, db0: Db)
    requires Inv(s, duck, db0) && Enabled(s, Work(o))
    ensures Inv(Step(s, Work(o), duck), duck, db0)
  {
    var u := Step(s, Work(o), duck);
    WR.StepInv(s.work, o, LIMITS);
    assert forall p | p in s.work.producers :: s.work.producers[p].Checked?;
    WorkFrame(s.work, o);
    hide WR.Inv, WR.Step, WR.Enabled, Executed, Queued, Arriving, OutcomesOk, Perform;
    if o.Invoke? && s.work.worker.Holding? && s.work.worker.item.Work? {
      InvokeKeeps(s, duck, db0);
      SameMessages(s, u);
    } else if o.Lock? {
      LockKeeps(s, u, o.p);
    } else {
      SameMessages(s, u);
    }
  }

  lemma BeginInv(s: State, c: Call, duck: Duck, db0: Db)
    requires Inv(s, duck, db0)
    ensures Inv(BeginCall(s, c), duck, db0)
  {
    var u := BeginCall(s, c);
    InvokedIds(s);
    TasksGrow(s.calls, c, s.work.invoked);
    BeginWork(s, c);
    BeginMessages(s, c);
    hide WR.Inv, Executed, Queued, Arriving, OutcomesOk, WR.Step;
  }

  lemma BeginWork(s: State, c: Call)
    requires WR.Inv(s.work, LIMITS) && Arriving(s)
    ensures var u := BeginCall(s, c);
      && WR.Inv(u.work, LIMITS)
      && u.work.accepted == s.work.accepted && u.work.invoked == s.work.invoked
      && (u.work.producers == s.work.producers
          || (InRange(c.task) && u.work.producers == s.work.producers[|s.calls| := WR.Checked(MsgOf(|s.calls|))]))
  {
    var n := |s.calls|;
    var w := WR.Step(s.work, WR.Call(n, MsgOf(n)), LIMITS);
    WR.QuietInv(s.work, w, LIMITS);
    hide WR.Inv;
  }

  lemma BeginMessages(s: State, c: Call)
    requires WR.Inv(s.work, LIMITS) && Queued(s.work.accepted, s.calls) && Arriving(s) && OutcomesOk(s)
    ensures var u := BeginCall(s, c); Queued(u.work.accepted, u.calls) && Arriving(u) && OutcomesOk(u)
  {
    BeginWork(s, c);
    var u := BeginCall(s, c);
    assert MsgOf(|s.calls|) !in s.work.accepted;
    assert u.answers == s.answers && u.calls == s.calls + [c];
    assert u.outcomes == if InRange(c.task) then s.outcomes else s.outcomes[|s.calls| := OutOfRange];
    hide WR.Inv, BeginCall, InRange;
  }

  lemma EndInv(s: State, op: Op, duck: Duck, db0: Db)
    requires Inv(s, duck, db0) && Enabled(s, op) && (op.Return? || op.TimeOut? || op.BreakPromise? || op.Detach?)
    ensures Inv(Step(s, op, duck), duck, db0)
  {
    hide WR.Inv, Queued, Executed;
  }

  lemma StepInv(s: State, op: Op, duck: Duck, db0: Db)
    requires Inv(s, duck, db0) && Enabled(s, op)
    ensures Inv(Step(s, op, duck), duck, db0)
  {
    hide Inv;
    match op {
      case Begin(c) => BeginInv(s, c, duck, db0);
      case Work(o) => WorkInv(s, o, duck, db0);
      case _ => EndInv(s, op, duck, db0);
    }
  }

  lemma {:induction false} RunInv(s: State, ops: seq<Op>, duck: Duck, db0: Db)
    requires Inv(s, duck, db0) && Run(s, ops, duck)
    ensures Inv(After(s, ops, duck), duck, db0)
    decreases ops
  {
    hide Inv, Step, Enabled;
    if ops != [] {
      StepInv(s, ops[0], duck, db0);
      RunInv(Step(s, ops[0], duck), ops[1..], duck, db0);
    }
  }

  lemma Reachable(ops: seq<Op>, duck: Duck, db0: Db)
    requires Run(Initial(db0), ops, duck)
    ensures Inv(After(Initial(db0), ops, duck), duck, db0)
  {
    assert WR.Inv(WR.Initial(), LIMITS);
    assert Tasks([], []) == [];
    hide WR.Inv;
    assert Inv(Initial(db0), duck, db0);
    RunInv(Initial(db0), ops, duck, db0);
  }

  // ---------------------------------------------------------------------------
  // The main results
  // ---------------------------------------------------------------------------

  // The order of the operations: that in which their tasks were enqueued.
  function Order(s: State): seq<Task> {
    Tasks(s.calls, s.work.accepted)
  }

  // Every answer, and every exception of an operation, is that of its own task on the
  // state left by all tasks enqueued before it.
  lemma Linearizable(ops: seq<Op>, duck: Duck, db0: Db, n: nat) returns (i: nat)
    requires Run(Initial(db0), ops, duck)
    requires var s := After(Initial(db0), ops, duck);
      n in s.outcomes && (s.outcomes[n].Answered? || s.outcomes[n].Threw?)
    ensures var s := After(Initial(db0), ops, duck);
      && n < |s.calls| && i < |Order(s)| && s.work.accepted[i] == MsgOf(n)
      && Order(s)[i] == s.calls[n].task
      && s.outcomes[n] == Seen(s.calls[n].sync, AnswerAt(duck, db0, Order(s), i))
  {
    Reachable(ops, duck, db0);
    var s := After(Initial(db0), ops, duck);
    hide After, Run;
    assert MsgOf(n) in s.work.invoked;
    i :| 0 <= i < |s.work.invoked| && s.work.invoked[i] == MsgOf(n);
    AcceptedNormal(s);
    TakenPrefix(s.work);
    TasksPrefix(s.calls, s.work.invoked, s.work.accepted);
    AnswerPrefix(duck, db0, Tasks(s.calls, s.work.invoked), Order(s), i);
    hide WR.Inv, Queued, Arriving, AnswerAt;
  }

  // The tasks the worker has invoked ran one after the other on one engine. Each
  // statement is given the engine the task before it left, with the parameters last
  // bound, and what it answers is what is kept for its caller.
  lemma EnginesInOrder(ops: seq<Op>, duck: Duck, e0: Engine)
    returns (t: seq<Task>, e: seq<Engine>, p: seq<seq<Value>>)
    requires Run(Initial(Db(e0, map[])), ops, duck)
    ensures var s := After(Initial(Db(e0, map[])), ops, duck); var w := s.work.invoked;
      && |t| == |p| == |w| && |e| == |w| + 1 && e[0] == e0 && e[|w|] == s.db.engine
      && (forall i | 0 <= i < |w| :: w[i].id < |s.calls| && t[i] == s.calls[w[i].id].task && w[i].id in s.answers)
      && (forall i | 0 <= i < |w| && t[i].Query? ::
            (e[i + 1], s.answers[w[i].id]) == duck.query(e[i], t[i].sql))
      && (forall i | 0 <= i < |w| && t[i].Execute? ::
            && (e[i + 1], s.answers[w[i].id]) == duck.execute(e[i], t[i].stmt, p[i])
            && LastBinds(duck, t, i, t[i].stmt, p[i]))
      && (forall i | 0 <= i < |w| && t[i].Bind? :: e[i + 1] == e[i] && s.answers[w[i].id] == Void)
  {
    Reachable(ops, duck, Db(e0, map[]));
    var s := After(Initial(Db(e0, map[])), ops, duck);
    hide After, Run;
    t := Tasks(s.calls, s.work.invoked);
    InvokedIds(s);
    InvokedInRange(s);
    e, p := EngineChain(duck, e0, t);
    hide WR.Inv, Queued, Arriving, OutcomesOk, AnswerAt, Replay, LastBinds, InRange;
    assert forall i | 0 <= i < |s.work.invoked| :: s.work.invoked[i] in s.work.invoked;
    EachTurn(s.work.invoked, t, e, p, duck, Db(e0, map[]), s.answers);
  }

  lemma EachTurn(w: seq<WT.Msg>, t: seq<Task>, e: seq<Engine>, p: seq<seq<Value>>, duck: Duck, db0: Db,
                 answers: map<nat, Answer>)
    requires |t| == |p| == |w| && |e| == |w| + 1
    requires forall i | 0 <= i < |w| :: w[i].id in answers && answers[w[i].id] == AnswerAt(duck, db0, t, i)
    requires forall i | 0 <= i < |w| :: Turn(duck, t[i], p[i], e[i], e[i + 1], AnswerAt(duck, db0, t, i))
    ensures forall i | 0 <= i < |w| && t[i].Query? :: (e[i + 1], answers[w[i].id]) == duck.query(e[i], t[i].sql)
    ensures forall i | 0 <= i < |w| && t[i].Execute? ::
              (e[i + 1], answers[w[i].id]) == duck.execute(e[i], t[i].stmt, p[i])
    ensures forall i | 0 <= i < |w| && t[i].Bind? :: e[i + 1] == e[i] && answers[w[i].id] == Void
  {
    hide AnswerAt;
    forall i | 0 <= i < |w|
      ensures t[i].Query? ==> (e[i + 1], answers[w[i].id]) == duck.query(e[i], t[i].sql)
      ensures t[i].Execute? ==> (e[i + 1], answers[w[i].id]) == duck.execute(e[i], t[i].stmt, p[i])
    {
      assert Turn(duck, t[i], p[i], e[i], e[i + 1], answers[w[i].id]);
    }
    forall i | 0 <= i < |w| && t[i].Bind?
      ensures e[i + 1] == e[i] && answers[w[i].id] == Void
    {
      assert Turn(duck, t[i], p[i], e[i], e[i + 1], answers[w[i].id]);
    }
  }

  lemma InvokedInRange(s: State)
    requires WR.Inv(s.work, LIMITS) && Queued(s.work.accepted, s.calls)
    ensures forall t | t in Tasks(s.calls, s.work.invoked) :: InRange(t)
  {
    AcceptedNormal(s);
    TakenPrefix(s.work);
    hide WR.Inv, InRange;
    TasksPrefix(s.calls, s.work.invoked, s.work.accepted);
    OrderInRange(s);
  }

  // What a caller sees of its answer: an exception is thrown to every caller, an error
  // inside a result only to RunSync's; everything else is handed over. The other ends
  // are of their own kind of call, and a task that has run can always be returned from.
  lemma WhatCallersSee(ops: seq<Op>, duck: Duck, db0: Db, n: nat)
    requires Run(Initial(db0), ops, duck)
    requires n < |After(Initial(db0), ops, duck).calls|
    ensures var s := After(Initial(db0), ops, duck);
      && (n in s.outcomes && (s.outcomes[n].Answered? || s.outcomes[n].Threw?) ==>
            && n in s.answers
            && match s.answers[n]
               case Void => s.outcomes[n] == Answered(Void)
               case Result(rows) => s.outcomes[n] == Answered(Result(rows))
               case Raised(error) => s.outcomes[n] == Threw(error)
               case ErrorResult(error) =>
                 s.outcomes[n] == if s.calls[n].sync then Threw(error) else Answered(ErrorResult(error)))
      && (n in s.outcomes && s.outcomes[n].TimedOut? ==> s.calls[n].sync)
      && (n in s.outcomes && s.outcomes[n].Broken? ==> !s.calls[n].sync && MsgOf(n) !in s.work.accepted)
      && (n in s.answers && n !in s.outcomes ==> Enabled(s, Return(n)))
  {
    Reachable(ops, duck, db0);
    var s := After(Initial(db0), ops, duck);
    hide After, Run;
    AcceptedNormal(s);
    TakenPrefix(s.work);
    hide WR.Inv, Queued, AnswerAt, Replay, InRange, Tasks;
  }

  ghost predicate Rejected(s: State) {
    && (forall n | 0 <= n < |s.calls| && !InRange(s.calls[n].task) :: n in s.outcomes && s.outcomes[n] == OutOfRange)
    && (forall n | n in s.outcomes :: n < |s.calls|)
  }

  lemma RejectedStep(s: State, op: Op, duck: Duck)
    requires Rejected(s) && Enabled(s, op)
    ensures Rejected(Step(s, op, duck))
  {
    hide InRange, WR.Step, WR.Enabled, Perform;
  }

  lemma {:induction false} RejectedRun(s: State, ops: seq<Op>, duck: Duck)
    requires Rejected(s) && Run(s, ops, duck)
    ensures Rejected(After(s, ops, duck))
    decreases ops
  {
    hide Rejected, Step, Enabled;
    if ops != [] {
      RejectedStep(s, ops[0], duck);
      RejectedRun(Step(s, ops[0], duck), ops[1..], duck);
    }
  }

  // A bind is rejected if and only if its index lies outside 1 to 1000, and then
  // nothing is enqueued for it.
  lemma RejectedIff(ops: seq<Op>, duck: Duck, db0: Db, n: nat)
    requires Run(Initial(db0), ops, duck)
    requires n < |After(Initial(db0), ops, duck).calls|
    ensures var s := After(Initial(db0), ops, duck);
      && (n in s.outcomes && s.outcomes[n] == OutOfRange <==>
            s.calls[n].task.Bind? && (s.calls[n].task.index < 1 || s.calls[n].task.index > 1000))
      && (n in s.outcomes && s.outcomes[n] == OutOfRange ==> MsgOf(n) !in s.work.accepted)
  {
    Reachable(ops, duck, db0);
    RejectedRun(Initial(db0), ops, duck);
    hide After, Run, WR.Inv, Queued, Executed, Arriving;
  }

  // Execute's answer is the engine's for the values last bound at each index by the
  // binds enqueued before it, whoever made them.
  lemma ExecuteAnswer(ops: seq<Op>, duck: Duck, e: Engine, n: nat, stmt: Stmt) returns (i: nat, p: seq<Value>)
    requires Run(Initial(Db(e, map[])), ops, duck) && duck.prepared(stmt)
    requires var s := After(Initial(Db(e, map[])), ops, duck);
      && n in s.outcomes && (s.outcomes[n].Answered? || s.outcomes[n].Threw?)
      && n < |s.calls| && s.calls[n].task == Execute(stmt)
    ensures var s := After(Initial(Db(e, map[])), ops, duck);
      && i < |Order(s)| && s.work.accepted[i] == MsgOf(n)
      && var before := Order(s)[..i];
      && s.outcomes[n] == Seen(s.calls[n].sync, duck.execute(Replay(duck, Db(e, map[]), before).engine, stmt, p).1)
      && |p| == Highest(before, stmt)
      && forall k | 0 <= k < |p| ::
           p[k] == var b := LastBound(before, stmt, k + 1); if b.Some? then b.value else duck.unbound
  {
    var db0 := Db(e, map[]);
    i := Linearizable(ops, duck, db0, n);
    Reachable(ops, duck, db0);
    var s := After(Initial(db0), ops, duck);
    hide After, Run, WR.Inv, Executed, Arriving, OutcomesOk;
    p := ParamsOf(Replay(duck, db0, Order(s)[..i]).params, stmt);
    OrderInRange(s);
    ExecuteSeesLastBinds(duck, e, Order(s)[..i], stmt);
  }

  lemma OrderInRange(s: State)
    requires Queued(s.work.accepted, s.calls)
    ensures forall t | t in Order(s) :: InRange(t)
  {
    hide InRange;
  }

  // No task is enqueued twice, so it takes effect at most once; and when the worker
  // has stopped every enqueued one has taken effect, in order, whether or not its
  // caller had timed out, and nothing else has.
  lemma EnqueuedOnceAndRun(ops: seq<Op>, duck: Duck, db0: Db)
    requires Run(Initial(db0), ops, duck)
    ensures var s := After(Initial(db0), ops, duck);
      && (forall i, j | 0 <= i < j < |s.work.accepted| :: s.work.accepted[i] != s.work.accepted[j])
      && s.work.invoked <= s.work.accepted
      && s.db == Replay(duck, db0, Tasks(s.calls, s.work.invoked))
      && (s.work.worker == WR.Stopped ==> s.work.invoked == s.work.accepted && s.db == Replay(duck, db0, Order(s)))
  {
    Reachable(ops, duck, db0);
    var s := After(Initial(db0), ops, duck);
    hide After, Run;
    AcceptedNormal(s);
    TakenPrefix(s.work);
    if s.work.worker == WR.Stopped {
      StoppedInvokesAll(s);
    }
  }

  // While CentralThread is set and the worker has not been told to exit, a call in
  // range is on its way to the queue or in it.
  ghost predicate AllEnqueued(s: State) {
    && s.central && !s.work.queues.exit
    && forall n | 0 <= n < |s.calls| && InRange(s.calls[n].task) && n !in s.work.producers ::
         MsgOf(n) in s.work.accepted
  }

  predicate KeepsOpen(op: Op) {
    !op.Detach? && op != Work(WR.ExitThread)
  }

  // The unbounded queue of an open worker accepts every dispatch.
  lemma OpenLock(w: WR.State, p: nat)
    requires p in w.producers && !w.queues.exit
    ensures var u := WR.Step(w, WR.Lock(p), LIMITS);
      && u.accepted == w.accepted + [w.producers[p].msg] && u.producers == w.producers - {p} && !u.queues.exit
  {}

  lemma OpenWork(w: WR.State, o: WR.Op)
    requires WR.Enabled(w, o, LIMITS) && !w.queues.exit && !o.ExitThread?
    ensures !WR.Step(w, o, LIMITS).queues.exit
  {}

  lemma OpenBegin(s: State, c: Call)
    requires AllEnqueued(s)
    ensures AllEnqueued(BeginCall(s, c))
  {
    hide InRange, MsgOf;
  }

  lemma OpenStep(s: State, op: Op, duck: Duck)
    requires AllEnqueued(s) && Arriving(s) && Enabled(s, op) && KeepsOpen(op)
    ensures AllEnqueued(Step(s, op, duck))
  {
    hide InRange, Perform;
    if op.Work? {
      WorkFrame(s.work, op.op);
      OpenWork(s.work, op.op);
      if op.op.Lock? {
        OpenLock(s.work, op.op.p);
        assert s.work.producers[op.op.p].msg == MsgOf(op.op.p);
      }
      hide WR.Step, WR.Enabled, MsgOf;
    } else if op.Begin? {
      OpenBegin(s, op.call);
    }
  }

  lemma {:induction false} OpenRun(s: State, ops: seq<Op>, duck: Duck, db0: Db)
    requires Inv(s, duck, db0) && AllEnqueued(s) && Run(s, ops, duck)
    requires forall op | op in ops :: KeepsOpen(op)
    ensures AllEnqueued(After(s, ops, duck))
    decreases ops
  {
    if ops != [] {
      assert ops[0] in ops;
      StepInv(s, ops[0], duck, db0);
      OpenStep(s, ops[0], duck);
      hide Inv, Step, Enabled, AllEnqueued, KeepsOpen;
      OpenRun(Step(s, ops[0], duck), ops[1..], duck, db0);
    }
  }

  // Every call in range that is made while the worker is open is enqueued, whether or
  // not its caller has timed out.
  lemma OpenCallsEnqueued(ops: seq<Op>, duck: Duck, db0: Db, n: nat)
    requires Run(Initial(db0), ops, duck) && forall op | op in ops :: KeepsOpen(op)
    requires var s := After(Initial(db0), ops, duck);
      n < |s.calls| && InRange(s.calls[n].task) && n !in s.work.producers
    ensures MsgOf(n) in After(Initial(db0), ops, duck).work.accepted
  {
    Reachable([], duck, db0);
    OpenRun(Initial(db0), ops, duck, db0);
  }

  // Such a call takes effect exactly once: whatever follows, once the worker has stopped
  // its task has been invoked at one place in the order of the enqueued ones, and has left the
  // answer it has there.
  lemma OpenCallRunsOnce(before: seq<Op>, later: seq<Op>, duck: Duck, db0: Db, n: nat) returns (i: nat)
    requires Run(Initial(db0), before, duck) && forall op | op in before :: KeepsOpen(op)
    requires Run(After(Initial(db0), before, duck), later, duck)
    requires var s := After(Initial(db0), before, duck);
      n < |s.calls| && InRange(s.calls[n].task) && n !in s.work.producers
    requires After(After(Initial(db0), before, duck), later, duck).work.worker == WR.Stopped
    ensures var u := After(After(Initial(db0), before, duck), later, duck); var w := u.work;
      && w.invoked == w.accepted && i < |w.invoked| && w.invoked[i] == MsgOf(n)
      && (forall j | 0 <= j < |w.invoked| && w.invoked[j] == MsgOf(n) :: j == i)
      && n in u.answers && u.answers[n] == AnswerAt(duck, db0, Order(u), i)
      && u.db == Replay(duck, db0, Order(u))
  {
    OpenCallsEnqueued(before, duck, db0, n);
    Reachable(before, duck, db0);
    var s := After(Initial(db0), before, duck);
    RunInv(s, later, duck, db0);
    RunGrows(s, later, duck, db0, n);
    hide After, Run;
    i := StoppedCall(After(s, later, duck), duck, db0, n);
  }

  lemma StoppedCall(u: State, duck: Duck, db0: Db, n: nat) returns (i: nat)
    requires Inv(u, duck, db0) && u.work.worker == WR.Stopped && MsgOf(n) in u.work.accepted
    ensures var w := u.work;
      && w.invoked == w.accepted && i < |w.invoked| && w.invoked[i] == MsgOf(n)
      && (forall j | 0 <= j < |w.invoked| && w.invoked[j] == MsgOf(n) :: j == i)
      && n in u.answers && u.answers[n] == AnswerAt(duck, db0, Order(u), i)
      && u.db == Replay(duck, db0, Order(u))
  {
    StoppedInvokesAll(u);
    hide WR.Inv, Arriving, OutcomesOk, Replay, AnswerAt;
    i :| 0 <= i < |u.work.accepted| && u.work.accepted[i] == MsgOf(n);
  }

  lemma StoppedInvokesAll(u: State)
    requires WR.Inv(u.work, LIMITS) && Queued(u.work.accepted, u.calls) && u.work.worker == WR.Stopped
    ensures u.work.invoked == u.work.accepted
  {
    AcceptedNormal(u);
    WR.StoppedAll(u.work, LIMITS);
    AllNormal(u.work.accepted);
    hide WR.Inv, WR.Only;
    OnlyAll(u.work.invoked);
  }

  // From the end of every run with the worker open, a call whose index, if it binds, lies
  // in 1 to 1000 is enqueued, last, by its own two steps.
  lemma CallEnqueues(before: seq<Op>, call: Call, duck: Duck, db0: Db)
    requires Run(Initial(db0), before, duck)
    requires var s := After(Initial(db0), before, duck); s.central && !s.work.queues.exit
    requires call.task.Bind? ==> 1 <= call.task.index <= 1000
    ensures var s := After(Initial(db0), before, duck); var n := |s.calls|;
      var ops := [Begin(call), Work(WR.Lock(n))]; var u := After(s, ops, duck);
      && Run(s, ops, duck) && u.calls == s.calls + [call]
      && u.work.accepted == s.work.accepted + [MsgOf(n)] && n !in u.work.producers
  {
    Reachable(before, duck, db0);
    NeverFaults(Initial(db0), before, duck);
    var s := After(Initial(db0), before, duck);
    var n := |s.calls|;
    BeginsChecked(s, call, duck);
    var b := Step(s, Begin(call), duck);
    OpenLock(b.work, n);
    LocksIn(b, n, duck);
    hide Step, WR.Step;
    assert [Begin(call), Work(WR.Lock(n))][1..] == [Work(WR.Lock(n))];
    var u := Step(b, Work(WR.Lock(n)), duck);
    assert [Work(WR.Lock(n))][1..] == [];
    assert Run(u, [], duck) && After(u, [], duck) == u;
    assert Run(b, [Work(WR.Lock(n))], duck) && After(b, [Work(WR.Lock(n))], duck) == u;
  }

  lemma BeginsChecked(s: State, call: Call, duck: Duck)
    requires s.central && !s.work.queues.exit && !s.work.faulted && InRange(call.task)
    ensures var n, b := |s.calls|, Step(s, Begin(call), duck);
      && b.calls == s.calls + [call] && b.work == s.work.(producers := s.work.producers[n := WR.Checked(MsgOf(n))])
      && Enabled(s, Begin(call)) && Enabled(b, Work(WR.Lock(n)))
  {}

  lemma LocksIn(b: State, n: nat, duck: Duck)
    ensures var u := Step(b, Work(WR.Lock(n)), duck);
      u.calls == b.calls && u.work == WR.Step(b.work, WR.Lock(n), LIMITS)
  {}

  // The unbounded queue is never a fault.
  lemma {:induction false} NeverFaults(s: State, ops: seq<Op>, duck: Duck)
    requires Run(s, ops, duck) && !s.work.faulted
    ensures !After(s, ops, duck).work.faulted
    decreases ops
  {
    if ops != [] {
      NoFaultStep(s, ops[0], duck);
      hide Step, Enabled;
      NeverFaults(Step(s, ops[0], duck), ops[1..], duck);
    }
  }

  lemma NoFaultStep(s: State, op: Op, duck: Duck)
    requires Enabled(s, op) && !s.work.faulted
    ensures !Step(s, op, duck).work.faulted
  {
    hide InRange, Perform;
  }

  predicate Working(op: Op) {
    op == Work(WR.Pop) || op == Work(WR.Invoke)
  }

  // The worker has nothing left to do.
  predicate AtRest(w: WR.State) {
    !w.worker.Holding? && (w.worker == WR.Idle ==> WT.Size(w.queues) == 0)
  }

  lemma RestInvokedAll(s: State)
    requires WR.Inv(s.work, LIMITS) && Queued(s.work.accepted, s.calls) && AtRest(s.work)
    ensures s.work.invoked == s.work.accepted
  {
    AcceptedNormal(s);
    if s.work.worker == WR.Stopped {
      StoppedInvokesAll(s);
    } else {
      AllNormal(s.work.accepted);
      assert WR.Works(s.work.queues.normal) == [];
      hide WR.Only, WR.Works;
      OnlyAll(s.work.invoked);
    }
  }

  // From every reachable state the worker on its own invokes all that is enqueued.
  lemma {:induction false} QueueDrains(s: State, duck: Duck, db0: Db) returns (ops: seq<Op>)
    requires Inv(s, duck, db0) && !s.work.faulted
    ensures Run(s, ops, duck) && forall op | op in ops :: Working(op)
    ensures var u := After(s, ops, duck);
      && Inv(u, duck, db0) && AtRest(u.work) && u.work.accepted == s.work.accepted
      && u.calls == s.calls && u.outcomes == s.outcomes && u.work.producers == s.work.producers
    decreases WR.Left(s.work)
  {
    if AtRest(s.work) {
      ops := [];
    } else {
      var op := if s.work.worker == WR.Idle then WR.Pop else WR.Invoke;
      assert WR.Enabled(s.work, op, LIMITS);
      WR.LeftFalls(s.work, op, LIMITS);
      StepInv(s, Work(op), duck, db0);
      WorkStays(s, op, duck);
      var u := Step(s, Work(op), duck);
      hide Inv, Step, AtRest, WR.Left, WR.Step, WR.Enabled;
      var rest := QueueDrains(u, duck, db0);
      ops := [Work(op)] + rest;
      assert ops[1..] == rest;
    }
  }

  lemma WorkStays(s: State, op: WR.Op, duck: Duck)
    requires op == WR.Pop || op == WR.Invoke
    ensures var u := Step(s, Work(op), duck);
      && u.work == WR.Step(s.work, op, LIMITS)
      && u.work.accepted == s.work.accepted && u.work.producers == s.work.producers
      && u.calls == s.calls && u.outcomes == s.outcomes
  {
    hide Perform;
  }

  // From the end of every run, then, each enqueued call can be answered: the worker needs
  // no other step to reach it, and its caller, if it is still there, can return.
  lemma EnqueuedCanBeAnswered(before: seq<Op>, duck: Duck, db0: Db, n: nat) returns (more: seq<Op>)
    requires Run(Initial(db0), before, duck)
    requires MsgOf(n) in After(Initial(db0), before, duck).work.accepted
    ensures var s := After(Initial(db0), before, duck); var u := After(s, more, duck);
      && Run(s, more, duck) && (forall op | op in more :: Working(op))
      && n in u.answers && u.outcomes == s.outcomes
      && (n !in s.outcomes ==> Enabled(u, Return(n)))
  {
    Reachable(before, duck, db0);
    NeverFaults(Initial(db0), before, duck);
    var s := After(Initial(db0), before, duck);
    hide Inv;
    more := QueueDrains(s, duck, db0);
    hide Run, After;
    RestAnswers(After(s, more, duck), duck, db0, n);
  }

  lemma RestAnswers(u: State, duck: Duck, db0: Db, n: nat)
    requires Inv(u, duck, db0) && AtRest(u.work) && MsgOf(n) in u.work.accepted
    ensures n in u.answers && (n !in u.outcomes ==> Enabled(u, Return(n)))
  {
    RestInvokedAll(u);
    hide WR.Inv, AnswerAt, Replay, OutcomesOk, InRange;
    var i :| 0 <= i < |u.work.invoked| && u.work.invoked[i] == MsgOf(n);
  }

  // A message that is neither queued nor on its way never comes.
  predicate Gone(s: State, n: nat) {
    n < |s.calls| && n !in s.work.producers && MsgOf(n) !in s.work.accepted
  }

  lemma StepGrows(s: State, op: Op, duck: Duck, n: nat)
    requires Arriving(s) && Enabled(s, op)
    ensures var u := Step(s, op, duck);
      && s.work.accepted <= u.work.accepted && |s.calls| <= |u.calls|
      && (Gone(s, n) ==> Gone(u, n))
  {
    hide InRange, Perform;
    if op.Work? {
      WorkFrame(s.work, op.op);
      assert op.op.Lock? ==> s.work.producers[op.op.p].msg == MsgOf(op.op.p);
      hide WR.Step, WR.Enabled;
    }
  }

  lemma {:induction false} RunGrows(s: State, ops: seq<Op>, duck: Duck, db0: Db, n: nat)
    requires Inv(s, duck, db0) && Run(s, ops, duck)
    ensures var u := After(s, ops, duck);
      && s.work.accepted <= u.work.accepted && (Gone(s, n) ==> Gone(u, n))
    decreases ops
  {
    if ops != [] {
      StepInv(s, ops[0], duck, db0);
      StepGrows(s, ops[0], duck, n);
      hide Inv, Step, Enabled, Gone;
      RunGrows(Step(s, ops[0], duck), ops[1..], duck, db0, n);
    }
  }

  // Once CentralThread is null a call is never enqueued, whatever follows: it is
  // rejected, or times out, or its promise is broken.
  lemma DetachedCallIsLost(before: seq<Op>, call: Call, later: seq<Op>, duck: Duck, db0: Db)
    requires Run(Initial(db0), before, duck) && Detach in before
    requires Run(Step(After(Initial(db0), before, duck), Begin(call), duck), later, duck)
    ensures var n := |After(Initial(db0), before, duck).calls|;
      var u := After(Step(After(Initial(db0), before, duck), Begin(call), duck), later, duck);
      && MsgOf(n) !in u.work.accepted
      && (n in u.outcomes ==>
            u.outcomes[n].OutOfRange? || (u.outcomes[n].TimedOut? && call.sync)
            || (u.outcomes[n].Broken? && !call.sync))
  {
    Reachable(before, duck, db0);
    DetachedStays(Initial(db0), before, duck);
    hide After, Run, Inv, BeginCall;
    LostFrom(After(Initial(db0), before, duck), call, later, duck, db0);
  }

  lemma LostFrom(s: State, call: Call, later: seq<Op>, duck: Duck, db0: Db)
    requires Inv(s, duck, db0) && !s.central && Run(Step(s, Begin(call), duck), later, duck)
    ensures var n, u := |s.calls|, After(Step(s, Begin(call), duck), later, duck);
      && MsgOf(n) !in u.work.accepted
      && (n in u.outcomes ==>
            u.outcomes[n].OutOfRange? || (u.outcomes[n].TimedOut? && call.sync)
            || (u.outcomes[n].Broken? && !call.sync))
  {
    var u, n := Step(s, Begin(call), duck), |s.calls|;
    GoneAtOnce(s, call, duck, db0);
    BeginInv(s, call, duck, db0);
    hide Inv, BeginCall, WR.Step, Perform;
    RunInv(u, later, duck, db0);
    RunGrows(u, later, duck, db0, n);
    CallsStay(u, later, duck);
    LostEnds(After(u, later, duck), duck, db0, n);
    hide After, Run;
  }

  lemma GoneAtOnce(s: State, call: Call, duck: Duck, db0: Db)
    requires Inv(s, duck, db0) && !s.central
    ensures var u := Step(s, Begin(call), duck); Gone(u, |s.calls|) && u.calls == s.calls + [call]
  {
    hide WR.Inv, Executed, InRange, OutcomesOk;
  }

  lemma LostEnds(u: State, duck: Duck, db0: Db, n: nat)
    requires Inv(u, duck, db0) && Gone(u, n)
    ensures n in u.outcomes ==>
              u.outcomes[n].OutOfRange? || (u.outcomes[n].TimedOut? && u.calls[n].sync)
              || (u.outcomes[n].Broken? && !u.calls[n].sync)
  {
    AcceptedNormal(u);
    TakenPrefix(u.work);
    hide WR.Inv, Queued, Arriving, AnswerAt, Replay, Tasks;
  }

  lemma {:induction false} DetachedStays(s: State, ops: seq<Op>, duck: Duck)
    requires Detach in ops || !s.central
    ensures !After(s, ops, duck).central
    decreases ops
  {
    hide Perform, InRange, WR.Step;
    if ops != [] {
      DetachedStays(Step(s, ops[0], duck), ops[1..], duck);
    }
  }

  lemma {:induction false} CallsStay(s: State, ops: seq<Op>, duck: Duck)
    ensures s.calls <= After(s, ops, duck).calls
    decreases ops
  {
    hide Perform, InRange, WR.Step;
    if ops != [] {
      CallsStay(Step(s, ops[0], duck), ops[1..], duck);
    }
  }

  // A call whose dispatch is over, as it is once RunSync has returned or RunAsync has
  // handed out its future, comes before every call that begins later.
  lemma OrderRespectsRealTime(before: seq<Op>, later: seq<Op>, duck: Duck, db0: Db, a: nat, b: nat, i: nat, j: nat)
    requires Run(Initial(db0), before, duck)
    requires Run(After(Initial(db0), before, duck), later, duck)
    requires var s := After(Initial(db0), before, duck); a < |s.calls| && a !in s.work.producers && b >= |s.calls|
    requires var u := After(After(Initial(db0), before, duck), later, duck);
      && i < |u.work.accepted| && u.work.accepted[i] == MsgOf(a)
      && j < |u.work.accepted| && u.work.accepted[j] == MsgOf(b)
    ensures i < j
  {
    Reachable(before, duck, db0);
    var s := After(Initial(db0), before, duck);
    RunInv(s, later, duck, db0);
    RunGrows(s, later, duck, db0, a);
    EarlierFirst(s, After(s, later, duck), duck, db0, a, b, i, j);
  }

  lemma EarlierFirst(s: State, u: State, duck: Duck, db0: Db, a: nat, b: nat, i: nat, j: nat)
    requires Inv(s, duck, db0) && Inv(u, duck, db0) && s.work.accepted <= u.work.accepted
    requires a < |s.calls| && a !in s.work.producers && (Gone(s, a) ==> Gone(u, a)) && b >= |s.calls|
    requires i < |u.work.accepted| && u.work.accepted[i] == MsgOf(a)
    requires j < |u.work.accepted| && u.work.accepted[j] == MsgOf(b)
    ensures i < j
  {
    hide WR.Inv, Executed, Arriving;
    assert !Gone(u, a);
    var k :| 0 <= k < |s.work.accepted| && s.work.accepted[k] == MsgOf(a);
    assert u.work.accepted[k] == MsgOf(a);
    assert forall x | 0 <= x < |s.work.accepted| ::
        u.work.accepted[x] == s.work.accepted[x] && s.work.accepted[x].id < |s.calls|;
  }
}
