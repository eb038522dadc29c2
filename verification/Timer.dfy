// Timers: the deadline arithmetic of CheckExpired, and the intrusive list of timers
// with its lazy removal.

module TimerDeadlines {
  // The clock may be read up to three times in one check.
  datatype Readings = Readings(first: int, second: int, third: int)

  ghost predicate Rising(r: Readings) {
    r.first <= r.second <= r.third
  }

  // The next deadline of a periodic timer that has expired.
  function NextDeadline(expire: int, timeout: int, r: Readings): int {
    if r.second > expire + timeout then r.third else expire + timeout
  }

  // A periodic timer, and how often it has fired.
  datatype Periodic = Periodic(expire: int, fired: nat)

  function Poll(p: Periodic, timeout: int, r: Readings): Periodic {
    if r.first < p.expire then p else Periodic(NextDeadline(p.expire, timeout, r), p.fired + 1)
  }

  function PollAll(p: Periodic, timeout: int, polls: seq<Readings>): Periodic {
    if polls == [] then p else Poll(PollAll(p, timeout, polls[..|polls| - 1]), timeout, polls[|polls| - 1])
  }

  // The clock never goes back, between and within polls.
  ghost predicate ClockRises(start: int, polls: seq<Readings>) {
    && (forall i | 0 <= i < |polls| :: Rising(polls[i]) && start <= polls[i].first)
    && (forall i | 0 < i < |polls| :: polls[i - 1].third <= polls[i].first)
  }

  function Started(start: int, timeout: int): Periodic {
    Periodic(start + timeout, 0)
  }

  // The deadline keeps ahead of the firings.
  lemma {:induction false} DeadlineAhead(start: int, timeout: int, polls: seq<Readings>)
    requires timeout > 0 && ClockRises(start, polls)
    ensures var p := PollAll(Started(start, timeout), timeout, polls);
      && p.expire >= start + (p.fired + 1) * timeout
      && (p.fired > 0 ==> polls != [] && start + p.fired * timeout <= polls[|polls| - 1].first)
  {
    if polls != [] {
      var n := |polls| - 1;
      DeadlineAhead(start, timeout, polls[..n]);
      var p := PollAll(Started(start, timeout), timeout, polls[..n]);
      OneMore(p.fired, timeout);
      OneMore(p.fired + 1, timeout);
      hide PollAll;
    }
  }

  lemma OneMore(n: nat, t: int)
    ensures (n + 1) * t == n * t + t
  {}

  // However starved, a timer never fires more often than its interval allows.
  lemma FiredAtMost(start: int, timeout: int, polls: seq<Readings>)
    requires timeout > 0 && polls != [] && ClockRises(start, polls)
    ensures PollAll(Started(start, timeout), timeout, polls).fired <= (polls[|polls| - 1].first - start) / timeout
  {
    DeadlineAhead(start, timeout, polls);
    var n := PollAll(Started(start, timeout), timeout, polls).fired;
    var elapsed := polls[|polls| - 1].first - start;
    assert elapsed >= 0;
    hide PollAll, ClockRises;
    AtMostQuotient(n, timeout, elapsed);
  }

  lemma AtMostQuotient(n: nat, t: int, x: int)
    requires t > 0 && x >= 0 && (n > 0 ==> n * t <= x)
    ensures n <= x / t
  {
    if n > x / t {
      var q := x / t;
      Scaled(q + 1, n, t);
      OneMore(q, t);
      Division(x, t);
    }
  }

  lemma Division(x: int, t: int)
    requires t > 0 && x >= 0
    ensures x < (x / t) * t + t
  {}

  lemma Scaled(a: int, b: int, t: int)
    requires a <= b && t > 0
    ensures a * t <= b * t
  {}

  // A timer that is starved, whose next deadline has passed too, is due at once: its
  // deadline is the clock value. Any other moves on by exactly one interval. With one
  // clock value for the check the new deadline is within one interval of it.
  lemma DeadlineWithin(expire: int, timeout: int, now: int, r: Readings)
    requires timeout > 0 && now >= expire
    ensures r.second > expire + timeout ==> NextDeadline(expire, timeout, r) == r.third
    ensures r.second <= expire + timeout ==> NextDeadline(expire, timeout, r) == expire + timeout
    ensures r == Readings(now, now, now) && now > expire + timeout ==> NextDeadline(expire, timeout, r) == now
    ensures r == Readings(now, now, now) ==> now <= NextDeadline(expire, timeout, r) <= now + timeout
  {}

  // A starved timer is polled at each of these clock values, each more than an interval
  // after the one before: it fires each time, and its deadline is always the last value.
  lemma {:induction false} StarvedFiresOnceAPoll(start: int, timeout: int, polls: seq<Readings>)
    requires timeout > 0 && polls != []
    requires forall i | 0 <= i < |polls| :: polls[i].first == polls[i].second == polls[i].third
    requires polls[0].first > start + 2 * timeout
    requires forall i | 0 < i < |polls| :: polls[i].first > polls[i - 1].first + timeout
    ensures PollAll(Started(start, timeout), timeout, polls) == Periodic(polls[|polls| - 1].third, |polls|)
  {
    var n := |polls| - 1;
    if n > 0 {
      StarvedFiresOnceAPoll(start, timeout, polls[..n]);
      assert polls[n].first > polls[n - 1].first + timeout;
    } else {
      assert polls[..0] == [];
      assert PollAll(Started(start, timeout), timeout, []) == Started(start, timeout);
    }
  }

  // Each poll comes before the deadline after the one it finds expired.
  ghost predicate Prompt(start: int, timeout: int, polls: seq<Readings>) {
    polls == [] ||
    (var n := |polls| - 1;
     && Prompt(start, timeout, polls[..n])
     && polls[n].second <= PollAll(Started(start, timeout), timeout, polls[..n]).expire + timeout)
  }

  // Polled promptly, a timer does not drift.
  lemma {:induction false} NoDrift(start: int, timeout: int, polls: seq<Readings>)
    requires timeout > 0 && Prompt(start, timeout, polls)
    ensures var p := PollAll(Started(start, timeout), timeout, polls); p.expire == start + (p.fired + 1) * timeout
  {
    if polls != [] {
      var n := |polls| - 1;
      NoDrift(start, timeout, polls[..n]);
      var p := PollAll(Started(start, timeout), timeout, polls[..n]);
      OneMore(p.fired + 1, timeout);
    }
  }
}

module TimerLists {
  import opened TimerDeadlines

  const MAX_TIMER_EXPIRED: nat := 16

  class Timer {
    var timeout: int
    var expireTime: int
    var enabled: bool
    var once: bool
    var next: Timer?

    constructor ()
      ensures !enabled && next == null
    {
      timeout, expireTime, enabled, once, next := 0, 0, false, false, null;
    }

    predicate Expired(now: int)
      reads `enabled, `expireTime
    {
      enabled && now >= expireTime
    }
  }

  function NodeAt(nodes: seq<Timer>, i: int): Timer? {
    if 0 <= i < |nodes| then nodes[i] else null
  }

  // The timers of s that are in on, in order.
  function Kept(s: seq<Timer>, on: set<Timer>): seq<Timer> {
    if s == [] then [] else Kept(s[..|s| - 1], on) + if s[|s| - 1] in on then [s[|s| - 1]] else []
  }

  lemma KeptSnoc(s: seq<Timer>, t: Timer, on: set<Timer>)
    ensures Kept(s + [t], on) == Kept(s, on) + if t in on then [t] else []
  {
    assert (s + [t])[..|s|] == s;
  }

  lemma {:induction false} KeptIn(s: seq<Timer>, on: set<Timer>)
    ensures forall t | t in Kept(s, on) :: t in s && t in on
    ensures forall t | t in s && t in on :: t in Kept(s, on)
  {
    if s != [] {
      KeptIn(s[..|s| - 1], on);
      assert s == s[..|s| - 1] + [s[|s| - 1]];
    }
  }

  lemma {:induction false} KeptAll(s: seq<Timer>, on: set<Timer>)
    requires forall t | t in s :: t in on
    ensures Kept(s, on) == s
  {
    if s != [] {
      KeptAll(s[..|s| - 1], on);
      assert s == s[..|s| - 1] + [s[|s| - 1]];
    }
  }

  // The timers of sub are timers of s, in the same order.
  ghost predicate InOrder(sub: seq<Timer>, s: seq<Timer>) {
    exists at: seq<nat> :: Embeds(sub, s, at)
  }

  ghost predicate Embeds(sub: seq<Timer>, s: seq<Timer>, at: seq<nat>) {
    && |at| == |sub|
    && (forall i | 0 <= i < |sub| :: at[i] < |s| && s[at[i]] == sub[i])
    && (forall i, j | 0 <= i < j < |sub| :: at[i] < at[j])
  }

  lemma EmbedNext(sub: seq<Timer>, s: seq<Timer>, t: Timer)
    requires InOrder(sub, s)
    ensures InOrder(sub, s + [t]) && InOrder(sub + [t], s + [t])
  {
    var at: seq<nat> :| Embeds(sub, s, at);
    assert Embeds(sub, s + [t], at);
    assert Embeds(sub + [t], s + [t], at + [|s|]);
  }

  lemma {:induction false} KeptInOrder(s: seq<Timer>, on: set<Timer>)
    ensures InOrder(Kept(s, on), s)
  {
    if s == [] {
      assert Embeds([], [], []);
    } else {
      var r, t := s[..|s| - 1], s[|s| - 1];
      KeptInOrder(r, on);
      EmbedNext(Kept(r, on), r, t);
      hide InOrder;
      assert s == r + [t];
      assert Kept(s, on) == if t in on then Kept(r, on) + [t] else Kept(r, on);
    }
  }

  class TimerList {
    var head: Timer?
    var timerStopped: bool
    ghost var nodes: seq<Timer>
    ghost var all: set<Timer>

    // The links run through nodes, which has no timer twice, and end.
    ghost predicate Linked()
      reads `head, `nodes, nodes
    {
      && (forall i, j | 0 <= i < j < |nodes| :: nodes[i] != nodes[j])
      && head == NodeAt(nodes, 0)
      && forall i | 0 <= i < |nodes| :: nodes[i].next == NodeAt(nodes, i + 1)
    }

    // Enabled timers are on the list, and disabled ones only until the next sweep.
    ghost predicate Listed()
      reads this, all, nodes
    {
      && (forall t | t in nodes :: t in all)
      && (forall t | t in all && t.enabled :: t in nodes)
      && (forall t | t in nodes && !t.enabled :: timerStopped)
    }

    ghost predicate Valid()
      reads this, all, nodes
    {
      Linked() && Listed()
    }

    constructor ()
      ensures Valid() && nodes == [] && all == {} && !timerStopped
    {
      head, timerStopped, nodes, all := null, false, [], {};
    }

    method Create() returns (t: Timer)
      requires Valid()
      modifies `all
      ensures Valid() && fresh(t) && all == old(all) + {t} && nodes == old(nodes)
    {
      t := new Timer();
      all := all + {t};
    }

    // The search for a timer, from the head.
    method Search(t: Timer) returns (found: bool)
      requires Linked()
      ensures found == (t in nodes)
    {
      var p := head;
      ghost var i := 0;
      while p != null
        invariant 0 <= i <= |nodes| && p == NodeAt(nodes, i)
        invariant forall k | 0 <= k < i :: nodes[k] != t
        decreases |nodes| - i
      {
        if p == t {
          return true;
        }
        p := p.next;
        i := i + 1;
      }
      return false;
    }

    method Start(t: Timer, timeout: int, once: bool, now: int) returns (threw: bool)
      requires Valid() && t in all
      modifies this, t
      ensures Valid() && threw == (timeout <= 0) && all == old(all) && timerStopped == old(timerStopped)
      ensures threw ==> nodes == old(nodes)
      ensures !threw ==>
                && t.enabled && t.timeout == timeout && t.once == once && t.expireTime == now + timeout
                && nodes == if t in old(nodes) then old(nodes) else [t] + old(nodes)
    {
      threw := timeout <= 0;
      if threw {
        return;
      }
      t.timeout := timeout;
      t.once := once;
      t.expireTime := now + timeout;
      t.enabled := true;
      var found := Search(t);
      if !found {
        Prepend(t);
      }
    }

    method Prepend(t: Timer)
      requires Linked() && t !in nodes
      modifies `head, `nodes, t`next
      ensures Linked() && nodes == [t] + old(nodes)
    {
      t.next := head;
      head := t;
      nodes := [t] + nodes;
    }

    method Stop(t: Timer)
      requires Valid() && t in all
      modifies `timerStopped, t`enabled
      ensures Valid() && !t.enabled && timerStopped
    {
      t.enabled := false;
      timerStopped := true;
    }

    // *pp = (*pp)->m_next, where pp is the head or the link of the timer before.
    method Unlink(prev: Timer?, t: Timer, ghost i: nat)
      requires Linked() && i < |nodes| && t == nodes[i] && prev == NodeAt(nodes, i - 1)
      modifies `head, `nodes, nodes`next
      ensures Linked() && nodes == old(nodes[..i] + nodes[i + 1..]) && t.next == null
    {
      var next := t.next;
      if prev == null {
        head := next;
      } else {
        prev.next := next;
      }
      t.next := null;
      nodes := nodes[..i] + nodes[i + 1..];
    }

    // The destructor's walk: unlink the timer, if it is on the list.
    method Remove(t: Timer) returns (ghost at: nat)
      requires Linked()
      modifies `head, `nodes, nodes`next
      ensures Linked() && at <= |old(nodes)|
      ensures at == |old(nodes)| ==> t !in old(nodes) && nodes == old(nodes)
      ensures at < |old(nodes)| ==> old(nodes)[at] == t && nodes == old(nodes)[..at] + old(nodes)[at + 1..]
    {
      var prev: Timer?, p := null, head;
      at := 0;
      while p != null && p != t
        invariant 0 <= at <= |nodes| && p == NodeAt(nodes, at) && prev == NodeAt(nodes, at - 1)
        invariant forall k | 0 <= k < at :: nodes[k] != t
        decreases |nodes| - at
      {
        prev := p;
        p := p.next;
        at := at + 1;
      }
      if p != null {
        Unlink(prev, p, at);
      }
    }

    lemma Distinct()
      requires Linked()
      ensures forall i, j | 0 <= i < j < |nodes| :: nodes[i] != nodes[j]
    {}

    lemma NextNode(i: nat)
      requires Linked() && i < |nodes|
      ensures nodes[i].next == NodeAt(nodes, i + 1)
    {}

    method Destroy(t: Timer)
      requires Valid() && t in all
      modifies `head, `nodes, `all, nodes`next
      ensures Valid() && all == old(all) - {t}
      ensures nodes == Kept(old(nodes), old(all) - {t})
    {
      hide Linked, Kept;
      ghost var was := nodes;
      Distinct();
      ghost var at := Remove(t);
      WithoutOne(was, t, at, all);
      all := all - {t};
      KeptIn(was, all);
    }

    // Part of the way through the sweep: the first done timers of was have been seen.
    ghost predicate Sweeping(prev: Timer?, p: Timer?, i: nat, was: seq<Timer>, done: nat, on: set<Timer>)
      reads this, nodes
    {
      && Linked() && i <= |nodes| && done <= |was|
      && p == NodeAt(nodes, i) && prev == NodeAt(nodes, i - 1)
      && Swept(nodes, i, was, done, on)
    }

    // ProcessTimers' removal of disabled timers: the enabled ones stay, in order.
    method Sweep()
      requires Linked()
      modifies `head, `nodes, nodes`next
      ensures Linked()
      ensures nodes == Kept(old(nodes), old(set t | t in nodes && t.enabled))
    {
      hide Kept, Linked;
      ghost var was, on := nodes, set t | t in nodes && t.enabled;
      FirstNode();
      SweepStarts(nodes, on);
      var prev: Timer?, p := null, head;
      ghost var i: nat, done: nat := 0, 0;
      while p != null
        invariant Sweeping(prev, p, i, was, done, on)
        decreases |was| - done
      {
        SweptNext(nodes, i, was, done, on);
        assert forall k | 0 <= k < |nodes| :: nodes[k] in old(nodes);
        prev, p, i := SweepOne(prev, p, i, was, done, on);
        done := done + 1;
      }
      SweepEnds(nodes, i, was, done, on);
    }

    method CheckExpired(t: Timer, r: Readings) returns (fired: bool)
      requires Valid() && t in nodes
      modifies t`enabled, t`expireTime, `timerStopped
      ensures Valid()
      ensures fired <==> old(t.enabled) && r.first >= old(t.expireTime)
      ensures fired && !t.once ==>
                var next := old(t.expireTime) + t.timeout; t.expireTime == if r.second > next then r.third else next
      ensures t.enabled == (old(t.enabled) && !(fired && t.once))
      ensures t.expireTime ==
                if fired && !t.once then NextDeadline(old(t.expireTime), t.timeout, r) else old(t.expireTime)
      ensures timerStopped == (old(timerStopped) || (fired && t.once))
      ensures old(t.enabled) && !t.once ==> forall n: nat ::
                Poll(Periodic(old(t.expireTime), n), t.timeout, r) == Periodic(t.expireTime, n + if fired then 1 else 0)
    {
      if !t.enabled {
        return false;
      }
      if r.first < t.expireTime {
        return false;
      }
      if t.once {
        t.enabled := false;
        timerStopped := true;
      } else {
        t.expireTime := t.expireTime + t.timeout;
        if r.second > t.expireTime {
          t.expireTime := r.third;
        }
      }
      return true;
    }

    // What a check leaves of a timer that had this deadline: one that fires moves its
    // deadline on, or if it is a one-shot timer is disabled.
    ghost predicate Checked(t: Timer, enabled: bool, expireTime: int, r: Readings)
      reads t
    {
      var fires := enabled && r.first >= expireTime;
      && t.enabled == (enabled && !(fires && t.once))
      && t.expireTime == if fires && !t.once then NextDeadline(expireTime, t.timeout, r) else expireTime
    }

    // The timers whose check, in list order with the readings given, would find them
    // expired.
    ghost function DueTimers(read: nat -> Readings): (due: seq<bool>)
      reads this, nodes
      ensures |due| == |nodes|
    {
      seq(|nodes|, k requires 0 <= k < |nodes| reads this, nodes => nodes[k].Expired(read(k).first))
    }

    // The check of every timer, from the head. Sixteen expired timers with another one
    // after them are a fault.
    method CheckAll(read: nat -> Readings) returns (fired: seq<Timer>, faulted: bool)
      requires Valid()
      modifies `timerStopped, nodes`enabled, nodes`expireTime
      ensures Valid()
      ensures faulted <==> Overflows(nodes, old(DueTimers(read)))
      ensures !faulted ==> fired == Picked(nodes, old(DueTimers(read)))
      ensures !faulted ==> forall k | 0 <= k < |nodes| ::
                Checked(nodes[k], old(nodes[k].enabled), old(nodes[k].expireTime), read(k))
    {
      hide Linked, Picked, Overflows, Listed;
      ghost var due := DueTimers(read);
      fired, faulted := [], false;
      var p: Timer?, k: nat := head, 0;
      PickedNone(nodes, due);
      FirstNode();
      Distinct();
      while p != null
        invariant k <= |nodes| && p == NodeAt(nodes, k) && Valid()
        invariant forall j | k <= j < |nodes| ::
            nodes[j].enabled == old(nodes[j].enabled) && nodes[j].expireTime == old(nodes[j].expireTime)
        invariant forall j | 0 <= j < k ::
            Checked(nodes[j], old(nodes[j].enabled), old(nodes[j].expireTime), read(j))
        invariant fired == Picked(nodes[..k], due[..k]) && !faulted
        invariant k < |nodes| || !Overflows(nodes, due)
        decreases |nodes| - k
      {
        if |fired| >= MAX_TIMER_EXPIRED {
          OverflowsAt(nodes, due, k);
          faulted := true;
          return;
        }
        NextNode(k);
        PickedSnoc(nodes, due, k);
        if k + 1 == |nodes| {
          NoOverflow(nodes, due);
        }
        var expired := CheckExpired(p, read(k));
        if expired {
          fired := fired + [p];
        }
        p := p.next;
        k := k + 1;
      }
      assert nodes[..k] == nodes && due[..k] == due;
    }

    // ProcessTimers' first part: afterwards the list holds the enabled timers only.
    method SweepIfStopped()
      requires Valid()
      modifies `head, `nodes, `timerStopped, nodes`next
      ensures Valid() && !timerStopped
      ensures nodes == Kept(old(nodes), old(set t | t in nodes && t.enabled))
      ensures forall t | t in nodes :: t in old(nodes) && t.enabled
    {
      hide Linked, Kept;
      ghost var was, on := nodes, set t | t in nodes && t.enabled;
      KeptIn(was, on);
      if timerStopped {
        Sweep();
        timerStopped := false;
      } else {
        KeptAll(was, on);
      }
      assert nodes == Kept(was, on);
      assert forall t | t in nodes :: t in was;
    }

    // ProcessTimers under the lock: the sweep and the checks. The callbacks of the fired
    // timers follow in that order.
    method ProcessTimers(read: nat -> Readings) returns (fired: seq<Timer>, faulted: bool)
      requires Valid()
      modifies `head, `nodes, `timerStopped, nodes`next, nodes`enabled, nodes`expireTime
      ensures Valid()
      ensures nodes == Kept(old(nodes), old(set t | t in nodes && t.enabled))
      ensures forall k | 0 <= k < |nodes| :: nodes[k] in old(nodes)
      ensures var s := nodes; !faulted ==>
                forall k | 0 <= k < |s| :: s[k] in fired <==> read(k).first >= old(s[k].expireTime)
      ensures !faulted ==> InOrder(fired, nodes)
      ensures var s := nodes; !faulted ==> forall k | 0 <= k < |s| :: Checked(s[k], true, old(s[k].expireTime), read(k))
      ensures var s := nodes;
        faulted <==> |set k | 0 <= k < |s| - 1 && read(k).first >= old(s[k].expireTime)| >= MAX_TIMER_EXPIRED
    {
      hide Linked, Kept, Picked, Listed, DueTimers;
      SweepIfStopped();
      assert forall k | 0 <= k < |nodes| :: nodes[k] in old(nodes);
      ghost var s, due := nodes, DueTimers(read);
      DuePicked(read);
      DueOverflows(read);
      PickedInOrder(nodes, due);
      hide InOrder, Overflows;
      assert (set k | 0 <= k < |s| - 1 && read(k).first >= s[k].expireTime)
          == set k | 0 <= k < |s| - 1 && read(k).first >= old(s[k].expireTime);
      fired, faulted := CheckAll(read);
      assert Valid() && nodes == s;
    }

    // When the checks overflow, in terms of the deadlines before them.
    lemma DueOverflows(read: nat -> Readings)
      requires forall t | t in nodes :: t.enabled
      ensures Overflows(nodes, DueTimers(read)) <==>
                |set k | 0 <= k < |nodes| - 1 && read(k).first >= nodes[k].expireTime| >= MAX_TIMER_EXPIRED
    {
      var due := DueTimers(read);
      assert forall k | 0 <= k < |nodes| :: nodes[k] in nodes;
      OverflowsIff(nodes, due);
      hide Overflows, Linked;
      assert (set k | 0 <= k < |nodes| - 1 && due[k])
          == set k | 0 <= k < |nodes| - 1 && read(k).first >= nodes[k].expireTime;
    }

    // What the checks pick, in terms of the deadlines before them.
    lemma DuePicked(read: nat -> Readings)
      requires Linked() && forall t | t in nodes :: t.enabled
      ensures forall k | 0 <= k < |nodes| ::
                nodes[k] in Picked(nodes, DueTimers(read)) <==> read(k).first >= nodes[k].expireTime
    {
      var due := DueTimers(read);
      assert forall k | 0 <= k < |nodes| :: nodes[k] in nodes;
      Distinct();
      PickedAt(nodes, due);
      hide Picked, Linked;
    }

    lemma FirstNode()
      requires Linked()
      ensures head == NodeAt(nodes, 0)
    {}

    method SweepOne(prev: Timer?, p: Timer, ghost i: nat, ghost was: seq<Timer>, ghost done: nat, ghost on: set<Timer>)
      returns (prev': Timer?, p': Timer?, ghost i': nat)
      requires Sweeping(prev, p, i, was, done, on) && done < |was| && i < |nodes| && p == was[done] == nodes[i]
      requires p in on <==> p.enabled
      modifies `head, `nodes, nodes`next
      ensures Sweeping(prev', p', i', was, done + 1, on)
    {
      hide Linked, Kept, Swept;
      NextNode(i);
      SweptStep(nodes, i, was, done, on);
      p' := p.next;
      if !p.enabled {
        Unlink(prev, p, i);
        prev', i' := prev, i;
      } else {
        prev', i' := p, i + 1;
      }
    }
  }

  // The elements of s at the places that are true in due.
  function Picked(s: seq<Timer>, due: seq<bool>): seq<Timer>
    requires |s| == |due|
  {
    if s == [] then []
    else Picked(s[..|s| - 1], due[..|s| - 1]) + if due[|s| - 1] then [s[|s| - 1]] else []
  }

  // Of distinct timers, exactly those due are picked.
  lemma {:induction false} PickedAt(s: seq<Timer>, due: seq<bool>)
    requires |s| == |due| && forall i, j | 0 <= i < j < |s| :: s[i] != s[j]
    ensures forall k | 0 <= k < |s| :: s[k] in Picked(s, due) <==> due[k]
    ensures forall t | t in Picked(s, due) :: t in s
    ensures |Picked(s, due)| <= |s|
  {
    if s != [] {
      var n := |s| - 1;
      PickedAt(s[..n], due[..n]);
      assert forall k | 0 <= k < n :: s[..n][k] == s[k] && due[..n][k] == due[k];
      assert s[n] !in s[..n];
    }
  }

  lemma PickedNone(s: seq<Timer>, due: seq<bool>)
    requires |s| == |due|
    ensures Picked(s[..0], due[..0]) == []
    ensures s == [] ==> !Overflows(s, due)
  {}

  lemma NoOverflow(s: seq<Timer>, due: seq<bool>)
    requires |s| == |due| && s != [] && |Picked(s[..|s| - 1], due[..|s| - 1])| < MAX_TIMER_EXPIRED
    ensures !Overflows(s, due)
  {}

  lemma PickedSnoc(s: seq<Timer>, due: seq<bool>, k: nat)
    requires |s| == |due| && k < |s|
    ensures Picked(s[..k + 1], due[..k + 1]) == Picked(s[..k], due[..k]) + if due[k] then [s[k]] else []
  {
    assert s[..k + 1][..k] == s[..k] && due[..k + 1][..k] == due[..k];
  }

  lemma {:induction false} PickedInOrder(s: seq<Timer>, due: seq<bool>)
    requires |s| == |due|
    ensures InOrder(Picked(s, due), s)
  {
    if s == [] {
      assert Embeds([], [], []);
    } else {
      var n := |s| - 1;
      PickedInOrder(s[..n], due[..n]);
      EmbedNext(Picked(s[..n], due[..n]), s[..n], s[n]);
      hide InOrder;
      assert s == s[..n] + [s[n]];
      assert Picked(s, due) == if due[n] then Picked(s[..n], due[..n]) + [s[n]] else Picked(s[..n], due[..n]);
    }
  }

  lemma {:induction false} PickedCount(s: seq<Timer>, due: seq<bool>)
    requires |s| == |due|
    ensures |Picked(s, due)| == |set k | 0 <= k < |s| && due[k]|
  {
    var b := set k | 0 <= k < |s| && due[k];
    if s == [] {
      assert b == {};
    } else {
      var n := |s| - 1;
      PickedCount(s[..n], due[..n]);
      assert |Picked(s, due)| == |Picked(s[..n], due[..n])| + if due[n] then 1 else 0;
      hide Picked;
      var a := set k | 0 <= k < n && due[..n][k];
      assert b == a + if due[n] then {n} else {};
    }
  }

  // Exactly when sixteen of the timers before the last are due.
  lemma OverflowsIff(s: seq<Timer>, due: seq<bool>)
    requires |s| == |due|
    ensures Overflows(s, due) <==> |set k | 0 <= k < |s| - 1 && due[k]| >= MAX_TIMER_EXPIRED
  {
    var b := set k | 0 <= k < |s| - 1 && due[k];
    if s == [] {
      assert b == {};
    } else {
      var n := |s| - 1;
      PickedCount(s[..n], due[..n]);
      assert b == set k | 0 <= k < n && due[..n][k];
    }
  }

  // The room for expired timers is used up before the last timer is reached.
  predicate Overflows(s: seq<Timer>, due: seq<bool>)
    requires |s| == |due|
  {
    s != [] && |Picked(s[..|s| - 1], due[..|s| - 1])| >= MAX_TIMER_EXPIRED
  }

  lemma {:induction false} PickedGrows(s: seq<Timer>, due: seq<bool>, j: nat, k: nat)
    requires |s| == |due| && j <= k <= |s|
    ensures |Picked(s[..j], due[..j])| <= |Picked(s[..k], due[..k])|
    decreases k
  {
    if j < k {
      PickedGrows(s, due, j, k - 1);
      PickedSnoc(s, due, k - 1);
    }
  }

  lemma OverflowsAt(s: seq<Timer>, due: seq<bool>, k: nat)
    requires |s| == |due| && k < |s| && |Picked(s[..k], due[..k])| >= MAX_TIMER_EXPIRED
    ensures Overflows(s, due)
  {
    PickedGrows(s, due, k, |s| - 1);
  }

  // The first i of nodes are what is kept of the first done timers of was, and the
  // others are the rest of was.
  ghost predicate Swept(nodes: seq<Timer>, i: nat, was: seq<Timer>, done: nat, on: set<Timer>) {
    && i <= |nodes| && done <= |was|
    && nodes[..i] == Kept(was[..done], on) && nodes[i..] == was[done..]
    && forall t | t in nodes :: t in was
  }

  lemma SweepStarts(was: seq<Timer>, on: set<Timer>)
    ensures Swept(was, 0, was, 0, on)
  {
    assert was[..0] == [];
  }

  lemma SweptNext(nodes: seq<Timer>, i: nat, was: seq<Timer>, done: nat, on: set<Timer>)
    requires Swept(nodes, i, was, done, on) && i < |nodes|
    ensures done < |was| && nodes[i] == was[done]
  {
    assert nodes[i..][0] == was[done..][0];
  }

  lemma SweptStep(nodes: seq<Timer>, i: nat, was: seq<Timer>, done: nat, on: set<Timer>)
    requires Swept(nodes, i, was, done, on) && i < |nodes| && done < |was|
    ensures was[done] in on ==> Swept(nodes, i + 1, was, done + 1, on)
    ensures was[done] !in on ==> Swept(nodes[..i] + nodes[i + 1..], i, was, done + 1, on)
  {
    SweptNext(nodes, i, was, done, on);
    var t, m := was[done], nodes[..i] + nodes[i + 1..];
    assert nodes[i..][1..] == nodes[i + 1..] && was[done..][1..] == was[done + 1..];
    assert was[..done + 1] == was[..done] + [t];
    KeptSnoc(was[..done], t, on);
    hide Kept;
    assert m[..i] == nodes[..i] && m[i..] == nodes[i + 1..];
    assert nodes[..i + 1] == nodes[..i] + [t];
  }

  lemma SweepEnds(nodes: seq<Timer>, i: nat, was: seq<Timer>, done: nat, on: set<Timer>)
    requires Swept(nodes, i, was, done, on) && NodeAt(nodes, i) == null
    ensures nodes == Kept(was, on)
  {
    assert nodes[i..] == [] && nodes[..i] == nodes;
    assert was[done..] == [] && was[..done] == was;
  }

  // Taking out the one occurrence of a timer keeps the others.
  lemma {:induction false} WithoutOne(s: seq<Timer>, t: Timer, at: nat, all: set<Timer>)
    requires at <= |s| && forall x | x in s :: x in all
    requires forall i, j | 0 <= i < j < |s| :: s[i] != s[j]
    requires if at == |s| then t !in s else s[at] == t
    ensures Kept(s, all - {t}) == if at == |s| then s else s[..at] + s[at + 1..]
  {
    if s != [] {
      var n := |s| - 1;
      assert s == s[..n] + [s[n]];
      if at == n {
        WithoutOne(s[..n], t, n, all);
        assert s[..n] + s[n + 1..] == s[..n];
      } else {
        WithoutOne(s[..n], t, if at == |s| then n else at, all);
      }
    }
  }
}
