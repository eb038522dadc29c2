// The blocking call: DelegateAsyncWait sends a message to the destination thread and
// waits on its semaphore; both threads share the message's lock and waiting flag.

module Semaphores {
  class Semaphore {
    var signaled: bool

    constructor ()
      ensures !signaled
    {
      signaled := false;
    }

    // The moment Wait stops blocking: it has been signaled, or its timeout has expired.
    method Wait(expired: bool) returns (ok: bool)
      requires signaled || expired
      modifies this
      ensures ok == old(signaled) && !signaled
    {
      if signaled {
        signaled := false;
        return true;
      } else {
        return false;
      }
    }

    method Signal()
      modifies this
      ensures signaled
    {
      signaled := true;
    }
  }
}

module AsyncWait {
  import opened Options
  import opened Semaphores

  // How the target ends: with a value, or by an exception.
  datatype Outcome<+V> = Value(v: V) | Threw

  // The data of one call: the message's flag and semaphore, the clone's return value
  // and sync flag, and the return value and success flag of the caller's delegate.
  datatype Call<+V> = Call(
    waiting: bool, signaled: bool, cloneRet: Option<V>, cloneSync: bool, retVal: Option<V>, success: bool)

  // What the source does under the lock once its wait is over.
  function Ended<V>(c: Call<V>, waited: bool): Call<V> {
    c.(waiting := false, success := c.success || waited, retVal := if waited then c.cloneRet else c.retVal)
  }

  // What the destination does under the lock.
  function Invoked<V>(c: Call<V>, o: Outcome<V>): Call<V> {
    if !c.waiting then c
    else if o.Threw? then c.(cloneSync := true)
    else c.(cloneSync := true, cloneRet := Some(o.v), signaled := true)
  }

  class DelegateAsyncWaitMsg {
    const sema: Semaphore
    var invokerWaiting: bool

    constructor ()
      ensures fresh(sema) && !sema.signaled && !invokerWaiting
    {
      sema := new Semaphore();
      invokerWaiting := false;
    }
  }

  // What operator() goes on with: it returns a default value, calls the target itself,
  // or sends a message.
  datatype Route = Nothing | Direct | Remote

  class DelegateAsyncWait<V> {
    const bound: bool
    var sync: bool
    var retVal: Option<V>
    var success: bool

    constructor (bound: bool)
      ensures this.bound == bound && !sync && retVal == None && !success
    {
      this.bound, sync, retVal, success := bound, false, None, false;
    }

    ghost function CallOf(msg: DelegateAsyncWaitMsg, clone: DelegateAsyncWait<V>): Call<V>
      reads this, msg, msg.sema, clone
    {
      Call(msg.invokerWaiting, msg.sema.signaled, clone.retVal, clone.sync, retVal, success)
    }

    // operator(), up to the dispatch: the state is reset; an unbound delegate is left at
    // once and one in sync mode calls its target; otherwise the delegate is cloned and
    // the message made.
    method BeginCall() returns (route: Route, msg: DelegateAsyncWaitMsg?, clone: DelegateAsyncWait?<V>)
      modifies this
      ensures retVal == None && !success && sync == old(sync)
      ensures route == if !bound then Nothing else if sync then Direct else Remote
      ensures route == Remote <==> msg != null && clone != null
      ensures route == Remote ==>
                && fresh(msg) && fresh(msg.sema) && fresh(clone) && clone.bound
                && CallOf(msg, clone) == Call(true, false, None, false, None, false)
    {
      retVal := None;
      success := false;
      msg, clone := null, null;
      if !bound {
        return Nothing, null, null;
      }
      if sync {
        return Direct, null, null;
      }
      var c := new DelegateAsyncWait<V>(bound);
      var m := new DelegateAsyncWaitMsg();
      m.invokerWaiting := true;
      return Remote, m, c;
    }

    // operator(), from the lock to its return.
    method EndCall(msg: DelegateAsyncWaitMsg, clone: DelegateAsyncWait<V>, waited: bool, default: V)
      returns (result: V)
      requires clone != this
      modifies this, msg
      ensures !msg.invokerWaiting && success == (waited || old(success)) && sync == old(sync)
      ensures retVal == if waited then clone.retVal else old(retVal)
      ensures CallOf(msg, clone) == Ended(old(CallOf(msg, clone)), waited)
      ensures result == if retVal.Some? then retVal.value else default
    {
      if waited {
        success := true;
        retVal := clone.retVal;
      }
      msg.invokerWaiting := false;
      result := if retVal.Some? then retVal.value else default;
    }

    // Invoke, called on the clone; o is how the target ends, if it is run.
    method Invoke(msg: DelegateAsyncWaitMsg, source: DelegateAsyncWait<V>, o: Outcome<V>) returns (ran: bool)
      requires source != this
      modifies this, msg.sema
      ensures ran == old(msg.invokerWaiting)
      ensures sync == (ran || old(sync)) && success == old(success)
      ensures retVal == if ran && o.Value? then Some(o.v) else old(retVal)
      ensures msg.sema.signaled == (old(msg.sema.signaled) || (ran && o.Value?))
      ensures source.CallOf(msg, this) == Invoked(old(source.CallOf(msg, this)), o)
    {
      ran := msg.invokerWaiting;
      if ran {
        sync := true;
        match o {
          case Value(v) =>
            retVal := Some(v);
            msg.sema.Signal();
          case Threw =>
        }
      }
    }
  }
}

module AsyncWaitRuns {
  import opened Options
  import opened AsyncWait

  datatype Holder = Nobody | Source | Dest

  // Where the source thread is in operator().
  datatype SourceAt = Dispatching | Waiting | Locking(waited: bool) | Ending(waited: bool) | Unlocking | Returned

  // Where the message is: not sent, queued, or being handled by the destination.
  datatype DestAt = Unsent | Queued | Taken | Entered | Running | Finished | Leaving | Done | Dropped

  // ran holds how each run of the target ended, runs counts its starts.
  datatype State<+V> = State(
    call: Call<V>, lock: Holder, source: SourceAt, dest: DestAt, runs: nat, ran: Option<V>)

  datatype Op<+V> =
    | Dispatch(ok: bool)   // the thread accepts the message or refuses it
    | WaitOk | WaitTimeout // Semaphore::Wait returns true or false
    | SourceLock | SourceEnd | SourceUnlock
    | Take | Drop          // the destination dequeues the message, or exits without it
    | DestLock | Check     // it enters Invoke and looks at the waiting flag
    | Finish(o: Outcome<V>)
    | Signal | DestUnlock

  // The state after BeginCall.
  function Initial<V>(): State<V> {
    State(Call(true, false, None, false, None, false), Nobody, Dispatching, Unsent, 0, None)
  }

  ghost predicate Enabled<V>(s: State<V>, op: Op<V>) {
    match op
    case Dispatch(_) => s.source == Dispatching
    case WaitOk => s.source == Waiting && s.call.signaled
    case WaitTimeout => s.source == Waiting && !s.call.signaled
    case SourceLock => s.source.Locking? && s.lock == Nobody
    case SourceEnd => s.source.Ending?
    case SourceUnlock => s.source == Unlocking
    case Take => s.dest == Queued
    case Drop => s.dest == Queued
    case DestLock => s.dest == Taken && s.lock == Nobody
    case Check => s.dest == Entered
    case Finish(_) => s.dest == Running
    case Signal => s.dest == Finished
    case DestUnlock => s.dest == Leaving
  }

  function Step<V>(s: State<V>, op: Op<V>): State<V> {
    match op
    case Dispatch(ok) =>
      if ok then s.(source := Waiting, dest := Queued) else s.(source := Locking(false))
    case WaitOk => s.(source := Locking(true), call := s.call.(signaled := false))
    case WaitTimeout => s.(source := Locking(false))
    case SourceLock => if s.source.Locking? then s.(lock := Source, source := Ending(s.source.waited)) else s
    case SourceEnd =>
      if s.source.Ending? then s.(call := Ended(s.call, s.source.waited), source := Unlocking) else s
    case SourceUnlock => s.(lock := Nobody, source := Returned)
    case Take => s.(dest := Taken)
    case Drop => s.(dest := Dropped)
    case DestLock => s.(lock := Dest, dest := Entered)
    case Check =>
      if s.call.waiting then s.(dest := Running, runs := s.runs + 1, call := s.call.(cloneSync := true))
      else s.(dest := Leaving)
    case Finish(o) =>
      match o {
        case Value(v) => s.(dest := Finished, ran := Some(v), call := s.call.(cloneRet := Some(v)))
        case Threw => s.(dest := Leaving)
      }
    case Signal => s.(dest := Leaving, call := s.call.(signaled := true))
    case DestUnlock => s.(lock := Nobody, dest := Done)
  }

  ghost predicate Run<V>(s: State<V>, ops: seq<Op<V>>)
    decreases ops
  {
    ops == [] || (Enabled(s, ops[0]) && Run(Step(s, ops[0]), ops[1..]))
  }

  function After<V>(s: State<V>, ops: seq<Op<V>>): State<V>
    decreases ops
  {
    if ops == [] then s else After(Step(s, ops[0]), ops[1..])
  }

  // The destination's steps under the lock do what Invoke does.
  lemma InvokeIsSteps<V>(s: State<V>, o: Outcome<V>)
    requires s.dest == Entered && s.call.waiting
    ensures var ops := [Check, Finish(o)] + (if o.Value? then [Signal] else []);
      Run(s, ops) && After(s, ops).call == Invoked(s.call, o) && After(s, ops).dest == Leaving
  {
    var t := Step(s, Check);
    var u := Step(t, Finish(o));
    var rest: seq<Op<V>> := if o.Value? then [Signal] else [];
    if o.Value? {
      Chain(u, Signal, []);
    }
    Chain(t, Finish(o), rest);
    Chain(s, Check, [Finish(o)] + rest);
    assert [Check, Finish(o)] + rest == [Check] + ([Finish(o)] + rest);
  }

  // ---------------------------------------------------------------------------
  // The invariant
  // ---------------------------------------------------------------------------

  // The lock is held by the thread that is in its critical section.
  ghost predicate LockOk<V>(s: State<V>) {
    && (s.lock == Source <==> s.source.Ending? || s.source == Unlocking)
    && (s.lock == Dest <==> s.dest in {Entered, Running, Finished, Leaving})
  }

  // The source clears the flag in its section, so none may start after it.
  ghost predicate FlagOk<V>(s: State<V>) {
    && (s.call.waiting <==> s.source != Unlocking && s.source != Returned)
    && (s.dest in {Running, Finished} ==> s.call.waiting)
  }

  // The target starts once, from Check, and not before.
  ghost predicate RunsOk<V>(s: State<V>) {
    && s.runs <= 1
    && (s.dest in {Unsent, Queued, Taken, Entered, Dropped} ==> s.runs == 0)
    && (s.dest in {Running, Finished} ==> s.runs == 1)
  }

  predicate HasWaited(s: SourceAt) {
    (s.Locking? || s.Ending?) && s.waited
  }

  // The semaphore is raised, and the wait succeeds, only once the target has finished.
  ghost predicate ValueOk<V>(s: State<V>) {
    && s.call.cloneRet == s.ran
    && (s.ran.Some? ==> s.runs == 1)
    && (s.dest == Finished ==> s.ran.Some?)
    && (s.call.signaled || HasWaited(s.source) ==> s.ran.Some? && s.dest in {Leaving, Done})
    && (s.call.success ==> s.ran.Some? && s.call.retVal == s.ran && s.dest in {Leaving, Done})
    && (!s.call.success ==> s.call.retVal == None)
    && (s.dest in {Running, Unsent, Queued, Taken, Entered, Dropped} ==> s.ran == None)
    && (s.source == Dispatching ==> s.dest == Unsent)
  }

  ghost predicate Inv<V>(s: State<V>) {
    LockOk(s) && FlagOk(s) && RunsOk(s) && ValueOk(s)
  }

  lemma StepInv<V>(s: State<V>, op: Op<V>)
    requires Inv(s) && Enabled(s, op)
    ensures Inv(Step(s, op))
  {}

  lemma {:induction false} RunInv<V>(s: State<V>, ops: seq<Op<V>>)
    requires Inv(s) && Run(s, ops)
    ensures Inv(After(s, ops))
    decreases ops
  {
    hide Inv, Step, Enabled;
    if ops != [] {
      StepInv(s, ops[0]);
      RunInv(Step(s, ops[0]), ops[1..]);
    }
  }

  lemma Reachable<V>(ops: seq<Op<V>>)
    requires Run(Initial(), ops)
    ensures Inv(After(Initial<V>(), ops))
  {
    assert Inv(Initial<V>());
    RunInv(Initial(), ops);
  }

  // ---------------------------------------------------------------------------
  // The main results
  // ---------------------------------------------------------------------------

  lemma RunsAtMostOnce<V>(ops: seq<Op<V>>)
    requires Run(Initial(), ops)
    ensures After(Initial<V>(), ops).runs <= 1
  {
    Reachable(ops);
  }

  // While the target runs, the caller, and so its arguments, are still there.
  lemma CallerStaysWhileRunning<V>(ops: seq<Op<V>>)
    requires Run(Initial(), ops) && After(Initial<V>(), ops).dest == Running
    ensures var s := After(Initial<V>(), ops);
      s.source != Returned && s.source != Unlocking && !s.source.Ending? && s.lock == Dest
  {
    Reachable(ops);
  }

  // Once operator() has returned the target is not running, and it never starts on
  // this message whatever happens next.
  lemma NeverStartsAfterReturn<V>(ops: seq<Op<V>>, later: seq<Op<V>>)
    requires Run(Initial(), ops) && After(Initial<V>(), ops).source == Returned
    requires Run(After(Initial(), ops), later)
    ensures var s := After(Initial<V>(), ops); var t := After(s, later);
      && s.dest != Running && t.dest != Running
      && t.runs == s.runs && t.call.success == s.call.success && t.call.retVal == s.call.retVal
  {
    Reachable(ops);
    StaysReturned(After(Initial(), ops), later);
  }

  lemma {:induction false} StaysReturned<V>(s: State<V>, ops: seq<Op<V>>)
    requires Inv(s) && s.source == Returned && Run(s, ops)
    ensures var t := After(s, ops);
      && s.dest != Running && t.dest != Running && t.source == Returned
      && t.runs == s.runs && t.call.success == s.call.success && t.call.retVal == s.call.retVal
    decreases ops
  {
    if ops != [] {
      StepInv(s, ops[0]);
      ReturnedStep(s, ops[0]);
      StaysReturned(Step(s, ops[0]), ops[1..]);
    }
  }

  lemma ReturnedStep<V>(s: State<V>, op: Op<V>)
    requires Inv(s) && s.source == Returned && Enabled(s, op)
    ensures var t := Step(s, op);
      && t.source == Returned && t.runs == s.runs
      && t.call.success == s.call.success && t.call.retVal == s.call.retVal
  {}

  // m_success holds only if the target ran to its end, and the value is its own;
  // without it the caller is left with no value.
  lemma SuccessMeansFinished<V>(ops: seq<Op<V>>)
    requires Run(Initial(), ops)
    ensures var s := After(Initial<V>(), ops);
      && (s.call.success ==> s.runs == 1 && s.ran.Some? && s.call.retVal == s.ran && s.dest in {Leaving, Done})
      && (!s.call.success ==> s.call.retVal == None)
  {
    Reachable(ops);
  }

  // ---------------------------------------------------------------------------
  // A caller that keeps waiting gets the value
  // ---------------------------------------------------------------------------

  predicate StillWaits(s: SourceAt) {
    s == Dispatching || s == Waiting
  }

  // Once Invoke is over the wait can end if the target left a value.
  ghost predicate ValueSignaled<V>(s: State<V>) {
    StillWaits(s.source) && s.dest in {Leaving, Done} && s.ran.Some? ==> s.call.signaled
  }

  lemma {:induction false} SignalStays<V>(s: State<V>, ops: seq<Op<V>>)
    requires Inv(s) && ValueSignaled(s) && Run(s, ops)
    ensures ValueSignaled(After(s, ops))
    decreases ops
  {
    if ops != [] {
      StepInv(s, ops[0]);
      SignalStep(s, ops[0]);
      SignalStays(Step(s, ops[0]), ops[1..]);
    }
  }

  lemma SignalStep<V>(s: State<V>, op: Op<V>)
    requires Inv(s) && ValueSignaled(s) && Enabled(s, op)
    ensures ValueSignaled(Step(s, op))
  {}

  // In every run, a caller still waiting when the target has ended with a value is woken
  // by it and returns that value, if the destination has left its section.
  lemma WaitingGetsValue<V>(ops: seq<Op<V>>)
    requires Run(Initial(), ops)
    requires var s := After(Initial<V>(), ops); s.source == Waiting && s.ran.Some? && s.dest == Done
    ensures var s := After(Initial<V>(), ops); var end := [WaitOk, SourceLock, SourceEnd, SourceUnlock];
      && Run(s, end) && After(s, end).source == Returned
      && After(s, end).call.success && After(s, end).call.retVal == s.ran
      && !Enabled(s, WaitTimeout)
  {
    Reachable(ops);
    SignalStays(Initial<V>(), ops);
    var s := After(Initial<V>(), ops);
    hide After, Run;
    WokenReturns(s);
  }

  lemma WokenReturns<V>(s: State<V>)
    requires Inv(s) && s.source == Waiting && s.ran.Some? && s.dest == Done && s.call.signaled
    ensures var end := [WaitOk, SourceLock, SourceEnd, SourceUnlock];
      && Run(s, end) && After(s, end).source == Returned
      && After(s, end).call.success && After(s, end).call.retVal == s.ran
  {
    var s1 := Step(s, WaitOk);
    var s2 := Step(s1, SourceLock);
    var s3 := Step(s2, SourceEnd);
    Chain(s3, SourceUnlock, []);
    Chain(s2, SourceEnd, [SourceUnlock]);
    Chain(s1, SourceLock, [SourceEnd, SourceUnlock]);
    Chain(s, WaitOk, [SourceLock, SourceEnd, SourceUnlock]);
  }

  // The steps left before operator() returns, its own and those of the section that it
  // may have to wait for.
  function SourceLeft(s: SourceAt): nat {
    match s
    case Dispatching => 5
    case Waiting => 4
    case Locking(_) => 3
    case Ending(_) => 2
    case Unlocking => 1
    case Returned => 0
  }

  function DestLeft(d: DestAt): nat {
    match d
    case Entered => 4
    case Running => 3
    case Finished => 2
    case Leaving => 1
    case _ => 0
  }

  // What happens next if nobody takes the message.
  function Next<V>(s: State<V>, o: Outcome<V>): Op<V> {
    match s.dest
    case Entered => Check
    case Running => Finish(o)
    case Finished => Signal
    case Leaving => DestUnlock
    case _ =>
      match s.source
      case Dispatching => Dispatch(true)
      case Waiting => if s.call.signaled then WaitOk else WaitTimeout
      case Locking(_) => SourceLock
      case Ending(_) => SourceEnd
      case _ => SourceUnlock
  }

  lemma NextStep<V>(s: State<V>, o: Outcome<V>)
    requires Inv(s) && s.source != Returned
    ensures Enabled(s, Next(s, o))
    ensures var t := Step(s, Next(s, o));
      SourceLeft(t.source) + DestLeft(t.dest) < SourceLeft(s.source) + DestLeft(s.dest)
  {}

  // No deadlock: from every reachable state the call returns within nine steps, provided
  // that a target that is running ends, in whatever way.
  lemma {:induction false} CallReturns<V>(s: State<V>, o: Outcome<V>) returns (ops: seq<Op<V>>)
    requires Inv(s)
    ensures Run(s, ops) && After(s, ops).source == Returned && |ops| <= SourceLeft(s.source) + DestLeft(s.dest)
    decreases SourceLeft(s.source) + DestLeft(s.dest)
  {
    if s.source == Returned {
      ops := [];
    } else {
      NextStep(s, o);
      StepInv(s, Next(s, o));
      hide Inv, Step, Enabled, Next;
      var rest := CallReturns(Step(s, Next(s, o)), o);
      Chain(s, Next(s, o), rest);
      ops := [Next(s, o)] + rest;
    }
  }

  // The destination gets the message's lock before the source does.
  predicate DestFirst<V>(ops: seq<Op<V>>) {
    ops != [] && (ops[0].DestLock? || (!ops[0].SourceLock? && DestFirst(ops[1..])))
  }

  predicate WaitSucceeds<V>(ops: seq<Op<V>>) {
    ops != [] && (ops[0].WaitOk? || WaitSucceeds(ops[1..]))
  }

  predicate InSourceSection(s: SourceAt) {
    s.Ending? || s == Unlocking || s == Returned
  }

  // Nobody has had the lock yet, and the target has not started.
  ghost predicate Unlocked<V>(s: State<V>) {
    Inv(s) && s.lock == Nobody && !InSourceSection(s.source) && s.dest in {Unsent, Queued, Taken, Dropped}
  }

  // The destination has had the lock first: the target starts, or has started.
  ghost predicate Started<V>(s: State<V>) {
    Inv(s) && s.dest in {Entered, Running, Finished, Leaving, Done} && (s.dest != Entered ==> s.runs == 1)
      && (s.dest == Entered ==> s.call.waiting)
  }

  // The source has had it first: the target never starts.
  ghost predicate Forestalled<V>(s: State<V>) {
    Inv(s) && s.runs == 0 && InSourceSection(s.source)
  }

  lemma {:induction false} StartedStays<V>(s: State<V>, ops: seq<Op<V>>)
    requires Started(s) && Run(s, ops)
    ensures Started(After(s, ops))
    decreases ops
  {
    if ops != [] {
      StepInv(s, ops[0]);
      StartedStep(s, ops[0]);
      StartedStays(Step(s, ops[0]), ops[1..]);
    }
  }

  lemma StartedStep<V>(s: State<V>, op: Op<V>)
    requires Started(s) && Enabled(s, op)
    ensures Started(Step(s, op))
  {
    StepInv(s, op);
  }

  lemma {:induction false} ForestalledStays<V>(s: State<V>, ops: seq<Op<V>>)
    requires Forestalled(s) && Run(s, ops)
    ensures Forestalled(After(s, ops))
    decreases ops
  {
    if ops != [] {
      StepInv(s, ops[0]);
      ForestalledStays(Step(s, ops[0]), ops[1..]);
    }
  }

  lemma {:induction false} FirstLockDecides<V>(s: State<V>, ops: seq<Op<V>>)
    requires Unlocked(s) && Run(s, ops)
    ensures var t := After(s, ops);
      if DestFirst(ops) then Started(t) else Forestalled(t) || Unlocked(t)
    decreases ops
  {
    if ops != [] {
      var t := Step(s, ops[0]);
      StepInv(s, ops[0]);
      if ops[0].DestLock? {
        StartedStays(t, ops[1..]);
      } else if ops[0].SourceLock? {
        ForestalledStays(t, ops[1..]);
      } else {
        FirstLockDecides(t, ops[1..]);
      }
    }
  }

  // A call that has returned ran its target exactly if the destination got the lock
  // before the source did, whatever the wait said.
  lemma RanIff<V>(ops: seq<Op<V>>)
    requires Run(Initial(), ops) && After(Initial<V>(), ops).source == Returned
    ensures After(Initial<V>(), ops).runs == if DestFirst(ops) then 1 else 0
  {
    assert Inv(Initial<V>());
    FirstLockDecides(Initial(), ops);
  }

  lemma {:induction false} SuccessIsWaited<V>(s: State<V>, ops: seq<Op<V>>)
    requires Inv(s) && Run(s, ops)
    ensures var t := After(s, ops);
      (HasWaited(t.source) || t.call.success) == (HasWaited(s.source) || s.call.success || WaitSucceeds(ops))
    decreases ops
  {
    if ops != [] {
      StepInv(s, ops[0]);
      SuccessStep(s, ops[0]);
      SuccessIsWaited(Step(s, ops[0]), ops[1..]);
    }
  }

  lemma SuccessStep<V>(s: State<V>, op: Op<V>)
    requires Inv(s) && Enabled(s, op)
    ensures var t := Step(s, op);
      (HasWaited(t.source) || t.call.success) == (HasWaited(s.source) || s.call.success || op.WaitOk?)
  {}

  // The calls that return split three ways. With success the target has run to its end.
  // Without it the target ran all the same if the destination got the lock first, and
  // otherwise never ran and never will.
  lemma ReturnedCalls<V>(ops: seq<Op<V>>)
    requires Run(Initial(), ops) && After(Initial<V>(), ops).source == Returned
    ensures var s := After(Initial<V>(), ops);
      && (s.call.success <==> WaitSucceeds(ops))
      && (s.call.success ==> DestFirst(ops) && s.runs == 1 && s.call.retVal == s.ran && s.ran.Some?)
      && (!s.call.success && DestFirst(ops) ==> s.runs == 1 && s.call.retVal == None && s.dest in {Leaving, Done})
      && (!s.call.success && !DestFirst(ops) ==> s.runs == 0 && s.ran == None && s.call.retVal == None)
  {
    RanIff(ops);
    SuccessIsWaited(Initial(), ops);
    Reachable(ops);
    assert Inv(Initial<V>());
    FirstLockDecides(Initial(), ops);
  }

  // A refused dispatch never runs.
  lemma RefusedNeverRuns<V>(ops: seq<Op<V>>)
    requires Run(Initial(), ops) && ops != [] && ops[0] == Dispatch(false)
    ensures var s := After(Initial<V>(), ops); s.runs == 0 && !s.call.success
  {
    var s := Step(Initial<V>(), Dispatch(false));
    UnsentStays(s, ops[1..]);
    Reachable(ops);
  }

  lemma {:induction false} UnsentStays<V>(s: State<V>, ops: seq<Op<V>>)
    requires s.dest == Unsent && s.source != Dispatching && s.source != Waiting && Run(s, ops)
    ensures After(s, ops).dest == Unsent
    decreases ops
  {
    if ops != [] {
      UnsentStays(Step(s, ops[0]), ops[1..]);
    }
  }

  // A call that timed out may have run all the same: the wait ends while the target
  // is running, and the source only waits for the lock.
  lemma TimedOutYetRan<V>(v: V)
    ensures Run(Initial(), LateStart() + LateEnd(v))
    ensures var s := After(Initial<V>(), LateStart() + LateEnd(v));
      s.source == Returned && !s.call.success && s.call.retVal == None && s.runs == 1 && s.ran == Some(v)
  {
    hide LateStart, LateEnd;
    LateStarts<V>();
    LateEnds(v);
    RunAppend(Initial<V>(), LateStart(), LateEnd(v));
  }

  function LateStart<V>(): seq<Op<V>> {
    [Dispatch(true), Take, DestLock, Check, WaitTimeout]
  }

  function LateEnd<V>(v: V): seq<Op<V>> {
    [Finish(Value(v)), Signal, DestUnlock, SourceLock, SourceEnd, SourceUnlock]
  }

  // The source has given up while the target is running.
  function Late<V>(): State<V> {
    State(Call(true, false, None, true, None, false), Dest, Locking(false), Running, 1, None)
  }

  lemma LateStarts<V>()
    ensures Run(Initial<V>(), LateStart()) && After(Initial<V>(), LateStart()) == Late()
  {
    var s0, ops := Initial<V>(), LateStart<V>();
    var s1 := Step(s0, ops[0]);
    var s2 := Step(s1, ops[1]);
    var s3 := Step(s2, ops[2]);
    var s4 := Step(s3, ops[3]);
    Chain(s4, ops[4], []);
    Chain(s3, ops[3], ops[4..]);
    Chain(s2, ops[2], ops[3..]);
    Chain(s1, ops[1], ops[2..]);
    Chain(s0, ops[0], ops[1..]);
  }

  lemma LateEnds<V>(v: V)
    ensures Run(Late<V>(), LateEnd(v))
    ensures var s := After(Late<V>(), LateEnd(v));
      s.source == Returned && !s.call.success && s.call.retVal == None && s.runs == 1 && s.ran == Some(v)
  {
    var s0, ops := Late<V>(), LateEnd(v);
    var s1 := Step(s0, ops[0]);
    var s2 := Step(s1, ops[1]);
    var s3 := Step(s2, ops[2]);
    var s4 := Step(s3, ops[3]);
    var s5 := Step(s4, ops[4]);
    Chain(s5, ops[5], []);
    Chain(s4, ops[4], ops[5..]);
    Chain(s3, ops[3], ops[4..]);
    Chain(s2, ops[2], ops[3..]);
    Chain(s1, ops[1], ops[2..]);
    Chain(s0, ops[0], ops[1..]);
  }

  lemma Chain<V>(s: State<V>, op: Op<V>, rest: seq<Op<V>>)
    requires Enabled(s, op)
    ensures Run(Step(s, op), rest) ==> Run(s, [op] + rest)
    ensures After(s, [op] + rest) == After(Step(s, op), rest)
  {
    assert ([op] + rest)[1..] == rest;
  }

  lemma {:induction false} RunAppend<V>(s: State<V>, x: seq<Op<V>>, y: seq<Op<V>>)
    requires Run(s, x) && Run(After(s, x), y)
    ensures Run(s, x + y) && After(s, x + y) == After(After(s, x), y)
    decreases x
  {
    hide Step, Enabled;
    if x == [] {
      assert x + y == y;
    } else {
      assert (x + y)[1..] == x[1..] + y;
      RunAppend(Step(s, x[0]), x[1..], y);
    }
  }
}
