// Signal: a list of subscribers whose entries live and die with move-only handles.

module SignalHandles {
  // The shared state of a signal; delegates are its subscribers' copies, by identity.
  class State {
    var alive: bool
    var delegates: seq<nat>

    constructor ()
      ensures alive && delegates == []
    {
      alive, delegates := true, [];
    }
  }

  // list::remove.
  function Removed(s: seq<nat>, c: nat): seq<nat> {
    if s == [] then [] else (if s[0] == c then [] else [s[0]]) + Removed(s[1..], c)
  }

  lemma {:induction false} RemovedAbsent(s: seq<nat>, c: nat)
    requires c !in s
    ensures Removed(s, c) == s
  {
    if s != [] {
      RemovedAbsent(s[1..], c);
      assert s == [s[0]] + s[1..];
    }
  }

  // Of a list without repetition exactly one place goes.
  lemma {:induction false} RemovedAt(s: seq<nat>, c: nat, k: nat)
    requires k < |s| && s[k] == c && forall i, j | 0 <= i < j < |s| :: s[i] != s[j]
    ensures Removed(s, c) == s[..k] + s[k + 1..]
  {
    var r := s[1..];
    if k == 0 {
      assert c !in r by {
        assert forall i | 0 <= i < |r| :: r[i] == s[i + 1];
      }
      RemovedAbsent(r, c);
      assert Removed(s, c) == [] + Removed(r, c);
    } else {
      assert s[0] != c && r[k - 1] == c;
      assert forall i, j | 0 <= i < j < |r| :: r[i] == s[i + 1] && r[j] == s[j + 1];
      RemovedAt(r, c, k - 1);
      assert s[..k] + s[k + 1..] == [s[0]] + (r[..k - 1] + r[k..]);
    }
  }

  // A ScopedConnection and the Connection in it.
  class ScopedConnection {
    var ctx: State?
    var copy: nat
    var connected: bool

    ghost predicate Valid()
      reads this
    {
      connected ==> ctx != null
    }

    constructor ()
      ensures Valid() && !connected
    {
      ctx, copy, connected := null, 0, false;
    }

    constructor Issued(ctx: State, copy: nat)
      ensures Valid() && connected && this.ctx == ctx && this.copy == copy
    {
      this.ctx, this.copy, connected := ctx, copy, true;
    }

    constructor Moved(other: ScopedConnection)
      requires other.Valid()
      modifies other
      ensures Valid() && connected == old(other.connected) && !other.connected && other.Valid()
      ensures connected ==> ctx == old(other.ctx) && copy == old(other.copy)
    {
      ctx, copy, connected := other.ctx, other.copy, other.connected;
      new;
      other.ctx := null;
      other.connected := false;
    }

    method Disconnect()
      requires Valid()
      modifies this, ctx
      ensures Valid() && !connected
      ensures old(connected) && old(ctx.alive) ==> old(ctx).delegates == Removed(old(ctx.delegates), old(copy))
      ensures old(ctx) != null && !(old(connected) && old(ctx.alive)) ==> old(ctx).delegates == old(ctx.delegates)
      ensures old(ctx) != null ==> old(ctx).alive == old(ctx.alive)
    {
      if !connected {
        return;
      }
      RemoveCopy();
      ctx := null;
      connected := false;
    }

    // DisconnectImpl.
    method RemoveCopy()
      requires ctx != null
      modifies ctx`delegates
      ensures ctx.delegates == if ctx.alive then Removed(old(ctx.delegates), copy) else old(ctx.delegates)
    {
      if ctx.alive {
        ctx.delegates := Removed(ctx.delegates, copy);
      }
    }

    // Move assignment.
    method Assign(other: ScopedConnection)
      requires Valid() && other.Valid()
      modifies this, other, ctx
      ensures Valid() && other.Valid()
      ensures other == this ==> connected == old(connected) && copy == old(copy) && ctx == old(ctx)
      ensures other != this ==> connected == old(other.connected) && !other.connected
      ensures other != this && connected ==> ctx == old(other.ctx) && copy == old(other.copy)
      ensures other != this && old(connected) && old(ctx.alive) ==>
                old(ctx).delegates == Removed(old(ctx.delegates), old(copy))
      ensures old(ctx) != null && !(other != this && old(connected) && old(ctx.alive)) ==>
                old(ctx).delegates == old(ctx.delegates)
    {
      if other == this {
        return;
      }
      Disconnect();
      ctx, copy, connected := other.ctx, other.copy, other.connected;
      other.ctx := null;
      other.connected := false;
    }
  }

  class Signal {
    var state: State
    var next: nat

    constructor ()
      ensures fresh(state) && state.alive && state.delegates == []
    {
      state := new State();
      next := 0;
    }

    // Each copy is a new object: next is its identity.
    method Connect() returns (c: ScopedConnection)
      modifies `next, state`delegates
      ensures fresh(c) && c.Valid() && c.connected && c.ctx == state && c.copy == old(next)
      ensures state.delegates == old(state.delegates) + [old(next)] && next == old(next) + 1
    {
      state.delegates := state.delegates + [next];
      c := new ScopedConnection.Issued(state, next);
      next := next + 1;
    }

    method Clear()
      modifies `state, state
      ensures fresh(state) && state.alive && state.delegates == []
      ensures !old(state).alive && old(state).delegates == []
    {
      var oldState := state;
      state := new State();
      oldState.alive := false;
      oldState.delegates := [];
    }

    // The destructor.
    method Destroy()
      modifies state
      ensures !state.alive && state.delegates == []
    {
      state.alive := false;
      state.delegates := [];
    }
  }
}

module SignalRuns {
  import opened SignalHandles

  // The shared state of a signal, its owner, and the copies put into it, oldest first.
  datatype Shared = Shared(owner: nat, alive: bool, delegates: seq<nat>, issued: seq<nat>)

  datatype Handle = Handle(shared: nat, copy: nat, connected: bool)

  // signals gives the shared state of each signal that exists.
  datatype World = World(
    shared: map<nat, Shared>, signals: map<nat, nat>, handles: map<nat, Handle>, nextShared: nat, nextCopy: nat)

  datatype Op =
    | Create(g: nat)
    | Connect(g: nat, h: nat)
    | Disconnect(h: nat)
    | MoveTo(h: nat, to: nat)   // move construction
    | Assign(h: nat, to: nat)   // move assignment
    | Drop(h: nat)              // a handle's destruction
    | Clear(g: nat)
    | Destroy(g: nat)

  ghost predicate Enabled(w: World, op: Op) {
    match op
    case Create(g) => g !in w.signals
    case Connect(g, h) => g in w.signals && h !in w.handles
    case Disconnect(h) => h in w.handles
    case MoveTo(h, to) => h in w.handles && to !in w.handles
    case Assign(h, to) => h in w.handles && to in w.handles
    case Drop(h) => h in w.handles
    case Clear(g) => g in w.signals
    case Destroy(g) => g in w.signals
  }

  const UNCONNECTED := Handle(0, 0, false)

  function Detached(w: World, h: nat): World {
    if h in w.handles && w.handles[h].connected then
      var x := w.handles[h];
      var u := w.(handles := w.handles[h := UNCONNECTED]);
      if x.shared in w.shared && w.shared[x.shared].alive then
        var s := w.shared[x.shared];
        u.(shared := w.shared[x.shared := s.(delegates := Removed(s.delegates, x.copy))])
      else u
    else w
  }

  function Issue(w: World, g: nat, h: nat): World
    requires g in w.signals && w.signals[g] in w.shared
  {
    var i, c := w.signals[g], w.nextCopy;
    var s := w.shared[i];
    w.(shared := w.shared[i := s.(delegates := s.delegates + [c], issued := s.issued + [c])],
       handles := w.handles[h := Handle(i, c, true)], nextCopy := c + 1)
  }

  function Kill(w: World, i: nat): World {
    if i in w.shared then w.(shared := w.shared[i := w.shared[i].(alive := false, delegates := [])]) else w
  }

  function Renew(w: World, g: nat): World {
    w.(shared := w.shared[w.nextShared := Shared(g, true, [], [])], signals := w.signals[g := w.nextShared],
       nextShared := w.nextShared + 1)
  }

  function MoveHandle(w: World, h: nat, to: nat): World {
    if h in w.handles then w.(handles := w.handles[to := w.handles[h]][h := UNCONNECTED]) else w
  }

  function Step(w: World, op: Op): World {
    match op
    case Create(g) => Renew(w, g)
    case Connect(g, h) => if g in w.signals && w.signals[g] in w.shared then Issue(w, g, h) else w
    case Disconnect(h) => Detached(w, h)
    case MoveTo(h, to) => MoveHandle(w, h, to)
    case Assign(h, to) => if h == to then w else MoveHandle(Detached(w, to), h, to)
    case Drop(h) => var u := Detached(w, h); u.(handles := u.handles - {h})
    case Clear(g) => if g in w.signals then Renew(Kill(w, w.signals[g]), g) else w
    case Destroy(g) => if g in w.signals then Kill(w, w.signals[g]).(signals := w.signals - {g}) else w
  }

  ghost predicate Run(w: World, ops: seq<Op>)
    decreases ops
  {
    ops == [] || (Enabled(w, ops[0]) && Run(Step(w, ops[0]), ops[1..]))
  }

  function After(w: World, ops: seq<Op>): World
    decreases ops
  {
    if ops == [] then w else After(Step(w, ops[0]), ops[1..])
  }

  const EMPTY := World(map[], map[], map[], 0, 0)

  // ---------------------------------------------------------------------------
  // Lists and held copies
  // ---------------------------------------------------------------------------

  // The copies of connected handles.
  function Held(handles: map<nat, Handle>): set<nat> {
    set h | h in handles && handles[h].connected :: handles[h].copy
  }

  // Those of s that are in held, in order.
  function Kept(s: seq<nat>, held: set<nat>): seq<nat> {
    if s == [] then [] else (if s[0] in held then [s[0]] else []) + Kept(s[1..], held)
  }

  lemma KeptCons(x: nat, s: seq<nat>, held: set<nat>)
    ensures Kept([x] + s, held) == (if x in held then [x] else []) + Kept(s, held)
  {
    assert ([x] + s)[1..] == s;
  }

  lemma {:induction false} KeptSnoc(s: seq<nat>, c: nat, held: set<nat>)
    ensures Kept(s + [c], held) == Kept(s, held) + if c in held then [c] else []
  {
    if s == [] {
      KeptCons(c, [], held);
      assert s + [c] == [c] + [];
    } else {
      var x, r := s[0], s[1..];
      KeptSnoc(r, c, held);
      KeptCons(x, r + [c], held);
      KeptCons(x, r, held);
      hide Kept;
      assert s + [c] == [x] + (r + [c]) && s == [x] + r;
    }
  }

  lemma RemovedCons(x: nat, s: seq<nat>, c: nat)
    ensures Removed([x] + s, c) == (if x == c then [] else [x]) + Removed(s, c)
  {
    assert ([x] + s)[1..] == s;
  }

  // Letting one copy go removes it from what is kept.
  lemma {:induction false} KeptLess(s: seq<nat>, c: nat, held: set<nat>)
    ensures Removed(Kept(s, held), c) == Kept(s, held - {c})
  {
    if s != [] {
      var x, r := s[0], Kept(s[1..], held);
      KeptLess(s[1..], c, held);
      if x in held {
        RemovedCons(x, r, c);
      } else {
        assert [] + r == r;
      }
      assert Kept(s, held - {c}) == (if x in held && x != c then [x] else []) + Kept(s[1..], held - {c});
      hide Kept, Removed;
    }
  }

  lemma {:induction false} KeptSame(s: seq<nat>, a: set<nat>, b: set<nat>)
    requires forall c | c in s :: c in a <==> c in b
    ensures Kept(s, a) == Kept(s, b)
  {
    if s != [] {
      assert s[0] in s;
      KeptSame(s[1..], a, b);
    }
  }

  // ---------------------------------------------------------------------------
  // The invariant
  // ---------------------------------------------------------------------------

  // A copy has one holder, and was issued into its holder's state.
  ghost predicate OneHolder(w: World) {
    && (forall h | h in w.handles && w.handles[h].connected ::
          var x := w.handles[h];
          x.copy < w.nextCopy && x.shared in w.shared && x.copy in w.shared[x.shared].issued)
    && (forall h, k | h in w.handles && k in w.handles && h != k && w.handles[h].connected && w.handles[k].connected ::
          w.handles[h].copy != w.handles[k].copy)
  }

  // No copy was issued into two states, or twice into one.
  ghost predicate OneState(w: World) {
    && (forall i, c | i in w.shared && c in w.shared[i].issued :: c < w.nextCopy)
    && (forall i, j, c | i in w.shared && j in w.shared && i != j && c in w.shared[i].issued ::
          c !in w.shared[j].issued)
    && (forall i, x, y | i in w.shared && 0 <= x < y < |w.shared[i].issued| ::
          w.shared[i].issued[x] != w.shared[i].issued[y])
  }

  // A live list holds the held copies, in the order of their connection.
  ghost predicate ListsExact(w: World) {
    forall i | i in w.shared ::
      w.shared[i].delegates == if w.shared[i].alive then Kept(w.shared[i].issued, Held(w.handles)) else []
  }

  ghost predicate SignalsOk(w: World) {
    && (forall i | i in w.shared :: i < w.nextShared)
    && (forall g | g in w.signals :: w.signals[g] in w.shared && w.shared[w.signals[g]].alive)
    && (forall g | g in w.signals :: w.shared[w.signals[g]].owner == g)
    && (forall i | i in w.shared && w.shared[i].alive ::
          w.shared[i].owner in w.signals && w.signals[w.shared[i].owner] == i)
  }

  ghost predicate Inv(w: World) {
    OneHolder(w) && OneState(w) && ListsExact(w) && SignalsOk(w)
  }

  // ---------------------------------------------------------------------------
  // Steps
  // ---------------------------------------------------------------------------

  // Lists depend on the handles through the held copies only.
  lemma SameHeld(w: World, u: World)
    requires ListsExact(w) && u.shared == w.shared && Held(u.handles) == Held(w.handles)
    ensures ListsExact(u)
  {
    hide Held, Kept;
  }

  lemma HeldLess(handles: map<nat, Handle>, h: nat)
    requires h in handles && handles[h].connected
    requires forall k | k in handles && k != h && handles[k].connected :: handles[k].copy != handles[h].copy
    ensures Held(handles[h := UNCONNECTED]) == Held(handles) - {handles[h].copy}
  {
    var m := handles[h := UNCONNECTED];
    forall c
      ensures c in Held(m) <==> c in Held(handles) && c != handles[h].copy
    {
      if c in Held(handles) && c != handles[h].copy {
        var k :| k in handles && handles[k].connected && handles[k].copy == c;
        assert k in m && m[k] == handles[k];
      }
    }
  }

  lemma DetachLists(w: World, h: nat)
    requires Inv(w) && h in w.handles && w.handles[h].connected
    ensures ListsExact(Detached(w, h))
  {
    var x, u := w.handles[h], Detached(w, h);
    HeldLess(w.handles, h);
    forall i | i in u.shared && u.shared[i].alive
      ensures u.shared[i].delegates == Kept(u.shared[i].issued, Held(u.handles))
    {
      if i == x.shared {
        KeptLess(w.shared[i].issued, x.copy, Held(w.handles));
      } else {
        KeptSame(w.shared[i].issued, Held(w.handles), Held(w.handles) - {x.copy});
      }
    }
    hide Kept, Held, Removed;
  }

  lemma DetachInv(w: World, h: nat)
    requires Inv(w) && h in w.handles
    ensures Inv(Detached(w, h)) && h in Detached(w, h).handles && !Detached(w, h).handles[h].connected
    ensures Detached(w, h).handles.Keys == w.handles.Keys
  {
    if w.handles[h].connected {
      DetachLists(w, h);
      DetachRest(w, h);
      assert Detached(w, h).handles == w.handles[h := UNCONNECTED];
      hide ListsExact, OneHolder, OneState, SignalsOk, Detached;
    }
  }

  lemma DetachRest(w: World, h: nat)
    requires OneHolder(w) && OneState(w) && SignalsOk(w) && h in w.handles && w.handles[h].connected
    ensures OneHolder(Detached(w, h)) && OneState(Detached(w, h)) && SignalsOk(Detached(w, h))
  {
    hide Removed;
    var u := Detached(w, h);
    assert u.shared.Keys == w.shared.Keys;
    assert forall i | i in w.shared ::
        && u.shared[i].issued == w.shared[i].issued
        && u.shared[i].alive == w.shared[i].alive && u.shared[i].owner == w.shared[i].owner;
    assert OneState(u);
    hide OneState;
    assert SignalsOk(u);
    hide SignalsOk;
  }

  lemma HeldMore(handles: map<nat, Handle>, h: nat, x: Handle)
    requires h !in handles && x.connected
    ensures Held(handles[h := x]) == Held(handles) + {x.copy}
  {
    var m := handles[h := x];
    forall c
      ensures c in Held(m) <==> c in Held(handles) || c == x.copy
    {
      if c in Held(handles) {
        var k :| k in handles && handles[k].connected && handles[k].copy == c;
        assert k in m && m[k] == handles[k];
      }
      if c == x.copy {
        assert m[h].connected && m[h].copy == c;
      }
    }
  }

  lemma IssueLists(w: World, g: nat, h: nat)
    requires Inv(w) && g in w.signals && h !in w.handles
    ensures ListsExact(Issue(w, g, h))
  {
    var i, c, u := w.signals[g], w.nextCopy, Issue(w, g, h);
    HeldMore(w.handles, h, Handle(i, c, true));
    forall j | j in u.shared && u.shared[j].alive
      ensures u.shared[j].delegates == Kept(u.shared[j].issued, Held(u.handles))
    {
      KeptSame(w.shared[j].issued, Held(w.handles), Held(w.handles) + {c});
      KeptSnoc(w.shared[j].issued, c, Held(w.handles) + {c});
    }
    hide Kept, Held;
  }

  lemma IssueInv(w: World, g: nat, h: nat)
    requires Inv(w) && g in w.signals && h !in w.handles
    ensures Inv(Issue(w, g, h))
  {
    IssueLists(w, g, h);
    IssueHolders(w, g, h);
    IssueStates(w, g, h);
    hide ListsExact, OneHolder, OneState;
  }

  lemma IssueHolders(w: World, g: nat, h: nat)
    requires Inv(w) && g in w.signals && h !in w.handles
    ensures OneHolder(Issue(w, g, h))
  {
    hide ListsExact;
    var u := Issue(w, g, h);
    assert forall i, c | i in w.shared && c in w.shared[i].issued :: c in u.shared[i].issued;
    hide OneState;
  }

  lemma IssueStates(w: World, g: nat, h: nat)
    requires Inv(w) && g in w.signals && h !in w.handles
    ensures OneState(Issue(w, g, h))
  {
    hide ListsExact, OneHolder;
    var u, c := Issue(w, g, h), w.nextCopy;
    assert forall i, x | i in u.shared && x in u.shared[i].issued ::
        x in w.shared[i].issued || (x == c && i == w.signals[g]);
    assert forall i | i in w.shared :: c !in w.shared[i].issued;
  }

  lemma MoveInv(w: World, h: nat, to: nat)
    requires Inv(w) && h in w.handles && h != to && (to in w.handles ==> !w.handles[to].connected)
    ensures Inv(MoveHandle(w, h, to))
  {
    var m := MoveHandle(w, h, to).handles;
    forall c
      ensures c in Held(m) <==> c in Held(w.handles)
    {
      if c in Held(w.handles) {
        var k :| k in w.handles && w.handles[k].connected && w.handles[k].copy == c;
        assert if k == h then m[to] == w.handles[h] else m[k] == w.handles[k];
      }
    }
    SameHeld(w, MoveHandle(w, h, to));
    hide ListsExact, OneState, Held;
  }

  lemma DropInv(w: World, h: nat)
    requires Inv(w) && h in w.handles && !w.handles[h].connected
    ensures Inv(w.(handles := w.handles - {h}))
  {
    var m := w.handles - {h};
    forall c
      ensures c in Held(m) <==> c in Held(w.handles)
    {
      if c in Held(w.handles) {
        var k :| k in w.handles && w.handles[k].connected && w.handles[k].copy == c;
        assert m[k] == w.handles[k];
      }
    }
    SameHeld(w, w.(handles := m));
    hide ListsExact, OneState, Held;
  }

  lemma KillRest(w: World, i: nat)
    requires OneHolder(w) && OneState(w) && ListsExact(w)
    ensures OneHolder(Kill(w, i)) && OneState(Kill(w, i)) && ListsExact(Kill(w, i))
  {
    hide Kept, Held;
  }

  lemma RenewRest(w: World, g: nat)
    requires OneHolder(w) && OneState(w) && ListsExact(w)
    requires forall i | i in w.shared :: i < w.nextShared
    ensures OneHolder(Renew(w, g)) && OneState(Renew(w, g)) && ListsExact(Renew(w, g))
  {
    assert Kept([], Held(w.handles)) == [];
    hide Kept, Held;
  }

  lemma SignalInv(w: World, op: Op)
    requires Inv(w) && Enabled(w, op) && (op.Create? || op.Clear? || op.Destroy?)
    ensures Inv(Step(w, op))
  {
    hide OneHolder, OneState, ListsExact;
    if op.Create? {
      RenewRest(w, op.g);
    } else {
      KillRest(w, w.signals[op.g]);
      if op.Clear? {
        RenewRest(Kill(w, w.signals[op.g]), op.g);
      } else {
        SameRest(Kill(w, w.signals[op.g]), op.g);
      }
    }
  }

  lemma SameRest(w: World, g: nat)
    requires OneHolder(w) && OneState(w) && ListsExact(w)
    ensures var u := w.(signals := w.signals - {g}); OneHolder(u) && OneState(u) && ListsExact(u)
  {
    hide Kept, Held;
  }

  lemma StepInv(w: World, op: Op)
    requires Inv(w) && Enabled(w, op)
    ensures Inv(Step(w, op))
  {
    match op {
      case Connect(g, h) => IssueInv(w, g, h);
      case Disconnect(h) => DetachInv(w, h);
      case MoveTo(h, to) => MoveInv(w, h, to);
      case Assign(h, to) =>
        if h != to {
          DetachInv(w, to);
          hide Inv, Detached;
          MoveInv(Detached(w, to), h, to);
        }
      case Drop(h) =>
        DetachInv(w, h);
        hide Inv, Detached;
        DropInv(Detached(w, h), h);
      case _ => SignalInv(w, op);
    }
    hide Inv;
  }

  lemma {:induction false} RunInv(w: World, ops: seq<Op>)
    requires Inv(w) && Run(w, ops)
    ensures Inv(After(w, ops))
    decreases ops
  {
    hide Inv, Step, Enabled;
    if ops != [] {
      StepInv(w, ops[0]);
      RunInv(Step(w, ops[0]), ops[1..]);
    }
  }

  // ---------------------------------------------------------------------------
  // What each operation does to the subscribers
  // ---------------------------------------------------------------------------

  // The subscribers of a signal, as copies.
  function Subscribers(w: World, g: nat): seq<nat> {
    if g in w.signals && w.signals[g] in w.shared then w.shared[w.signals[g]].delegates else []
  }

  // Handle h holds its subscription to signal g.
  predicate Subscribes(w: World, h: nat, g: nat) {
    h in w.handles && w.handles[h].connected && g in w.signals && w.signals[g] == w.handles[h].shared
  }

  // One subscriber goes, the others stay in order.
  ghost predicate LosesOne(s: seq<nat>, t: seq<nat>, c: nat) {
    exists k | 0 <= k < |s| :: s[k] == c && t == s[..k] + s[k + 1..]
  }

  // A connection adds a new subscriber, last, which the handle holds.
  lemma ConnectAdds(ops: seq<Op>, g: nat, h: nat)
    requires Run(EMPTY, ops) && g in After(EMPTY, ops).signals && h !in After(EMPTY, ops).handles
    ensures var w := After(EMPTY, ops); var u := Step(w, Connect(g, h));
      && Enabled(w, Connect(g, h)) && Subscribes(u, h, g)
      && Subscribers(u, g) == Subscribers(w, g) + [u.handles[h].copy]
      && (forall f :: u.handles[h].copy !in Subscribers(w, f))
      && (forall f | f != g :: Subscribers(u, f) == Subscribers(w, f))
  {
    Reachable(ops);
    var w := After(EMPTY, ops);
    hide Run, After;
    forall f
      ensures w.nextCopy !in Subscribers(w, f)
    {
      if g' :| g' in w.signals && g' == f {
        KeptFrom(w.shared[w.signals[f]].issued, Held(w.handles));
      }
    }
    hide Held, Kept;
  }

  lemma {:induction false} KeptFrom(s: seq<nat>, held: set<nat>)
    ensures forall c :: c in Kept(s, held) <==> c in s && c in held
  {
    if s != [] {
      KeptFrom(s[1..], held);
      assert s == [s[0]] + s[1..];
    }
  }

  // Every held subscription is in its signal's list.
  lemma SubscribedIsListed(w: World, h: nat, g: nat)
    requires Inv(w) && Subscribes(w, h, g)
    ensures w.handles[h].copy in Subscribers(w, g)
    ensures forall i, j | 0 <= i < j < |Subscribers(w, g)| :: Subscribers(w, g)[i] != Subscribers(w, g)[j]
  {
    KeptFrom(w.shared[w.signals[g]].issued, Held(w.handles));
    assert w.handles[h].copy in Held(w.handles);
    KeptDistinct(w.shared[w.signals[g]].issued, Held(w.handles));
    hide Kept;
  }

  lemma {:induction false} KeptDistinct(s: seq<nat>, held: set<nat>)
    requires forall i, j | 0 <= i < j < |s| :: s[i] != s[j]
    ensures forall i, j | 0 <= i < j < |Kept(s, held)| :: Kept(s, held)[i] != Kept(s, held)[j]
  {
    if s != [] {
      var r := s[1..];
      assert forall i | 0 <= i < |r| :: r[i] == s[i + 1];
      KeptDistinct(r, held);
      KeptFrom(r, held);
      assert s[0] !in Kept(r, held);
    }
  }

  // Letting a held subscription go takes its copy, and no other, off its signal's list.
  lemma DetachRemoves(w: World, h: nat, g: nat)
    requires Inv(w) && Subscribes(w, h, g)
    ensures var u := Detached(w, h);
      && LosesOne(Subscribers(w, g), Subscribers(u, g), w.handles[h].copy)
      && (forall f | f != g :: Subscribers(u, f) == Subscribers(w, f))
      && u.signals == w.signals && u.handles == w.handles[h := UNCONNECTED]
  {
    SubscribedIsListed(w, h, g);
    DetachSubscribers(w, h, g);
    hide Inv, Detached, Subscribers, Subscribes, Removed, LosesOne;
    RemovedLosesOne(Subscribers(w, g), w.handles[h].copy);
  }

  lemma RemovedLosesOne(s: seq<nat>, c: nat)
    requires c in s && forall i, j | 0 <= i < j < |s| :: s[i] != s[j]
    ensures LosesOne(s, Removed(s, c), c)
  {
    var k: nat :| k < |s| && s[k] == c;
    RemovedAt(s, c, k);
    hide Removed;
  }

  lemma DetachSubscribers(w: World, h: nat, g: nat)
    requires Inv(w) && Subscribes(w, h, g)
    ensures var u := Detached(w, h);
      && Subscribers(u, g) == Removed(Subscribers(w, g), w.handles[h].copy)
      && (forall f | f != g :: Subscribers(u, f) == Subscribers(w, f))
      && u.signals == w.signals && u.handles == w.handles[h := UNCONNECTED]
  {
    hide Removed, OneHolder, OneState, ListsExact;
  }

  lemma OneSignal(w: World, h: nat, g: nat)
    requires Inv(w) && Subscribes(w, h, g)
    ensures forall f :: Subscribes(w, h, f) ==> f == g
  {}

  lemma AliveSubscribes(w: World, h: nat)
    requires Inv(w) && h in w.handles
    ensures var x := w.handles[h];
      x.connected && x.shared in w.shared && w.shared[x.shared].alive ==> exists g :: Subscribes(w, h, g)
  {
    var x := w.handles[h];
    if x.connected && x.shared in w.shared && w.shared[x.shared].alive {
      assert Subscribes(w, h, w.shared[x.shared].owner);
    }
  }

  // One that is not held, or is of a signal that has been cleared or destroyed, takes
  // nothing off any list.
  lemma DetachIdle(w: World, h: nat)
    requires Inv(w) && h in w.handles && forall g :: !Subscribes(w, h, g)
    ensures var u := Detached(w, h);
      && (forall f :: Subscribers(u, f) == Subscribers(w, f))
      && u.signals == w.signals
      && u.handles == if w.handles[h].connected then w.handles[h := UNCONNECTED] else w.handles
  {
    AliveSubscribes(w, h);
    hide Inv;
  }

  // Disconnecting a handle, or destroying it, ends its subscription.
  lemma DisconnectRemoves(ops: seq<Op>, h: nat, g: nat)
    requires Run(EMPTY, ops) && Subscribes(After(EMPTY, ops), h, g)
    ensures var w := After(EMPTY, ops); var u, v := Step(w, Disconnect(h)), Step(w, Drop(h));
      && Enabled(w, Disconnect(h)) && Enabled(w, Drop(h))
      && LosesOne(Subscribers(w, g), Subscribers(u, g), w.handles[h].copy)
      && (forall f | f != g :: Subscribers(u, f) == Subscribers(w, f))
      && h in u.handles && !u.handles[h].connected && h !in v.handles
      && (forall f :: Subscribers(v, f) == Subscribers(u, f))
  {
    Reachable(ops);
    hide Run, After, Inv, LosesOne;
    DetachRemoves(After(EMPTY, ops), h, g);
    hide Detached;
  }

  // A move hands the subscription over, and no list changes by it.
  lemma MoveHandsOver(ops: seq<Op>, h: nat, to: nat)
    requires Run(EMPTY, ops) && h in After(EMPTY, ops).handles && to !in After(EMPTY, ops).handles
    ensures var w := After(EMPTY, ops); var u := Step(w, MoveTo(h, to));
      && Enabled(w, MoveTo(h, to)) && u.handles == w.handles[to := w.handles[h]][h := UNCONNECTED]
      && forall f :: Subscribers(u, f) == Subscribers(w, f)
  {
    hide Run, After;
  }

  // An assignment does the same, after the target has let its own subscription go.
  lemma AssignHandsOver(ops: seq<Op>, h: nat, to: nat)
    requires Run(EMPTY, ops) && h in After(EMPTY, ops).handles && to in After(EMPTY, ops).handles && h != to
    ensures var w := After(EMPTY, ops); var u := Step(w, Assign(h, to));
      && Enabled(w, Assign(h, to)) && u.handles == w.handles[to := w.handles[h]][h := UNCONNECTED]
      && forall f ::
           if Subscribes(w, to, f) then LosesOne(Subscribers(w, f), Subscribers(u, f), w.handles[to].copy)
           else Subscribers(u, f) == Subscribers(w, f)
  {
    Reachable(ops);
    var w := After(EMPTY, ops);
    hide Run, After, Inv;
    AssignStep(w, h, to);
    DetachAny(w, to);
    hide Detached, LosesOne;
    assert Enabled(w, Assign(h, to));
    hide Step, Subscribes;
  }

  // Only the release of the target's own subscription touches the lists.
  lemma AssignStep(w: World, h: nat, to: nat)
    requires h in w.handles && to in w.handles && h != to
    ensures var u, d := Step(w, Assign(h, to)), Detached(w, to);
      && u.handles == w.handles[to := w.handles[h]][h := UNCONNECTED]
      && forall f :: Subscribers(u, f) == Subscribers(d, f)
  {
    hide Removed;
    var d := Detached(w, to).handles;
    assert d[to := d[h]][h := UNCONNECTED] == w.handles[to := w.handles[h]][h := UNCONNECTED];
  }

  lemma DetachAny(w: World, h: nat)
    requires Inv(w) && h in w.handles
    ensures var d := Detached(w, h);
      forall f ::
        if Subscribes(w, h, f) then LosesOne(Subscribers(w, f), Subscribers(d, f), w.handles[h].copy)
        else Subscribers(d, f) == Subscribers(w, f)
  {
    hide LosesOne;
    if g :| Subscribes(w, h, g) {
      DetachRemoves(w, h, g);
      OneSignal(w, h, g);
    } else {
      DetachIdle(w, h);
    }
    hide Inv, Detached, Subscribers, Subscribes;
  }

  // Clear and the destructor empty the list and take every subscription away; the others
  // keep theirs.
  lemma ClearEmpties(ops: seq<Op>, g: nat)
    requires Run(EMPTY, ops) && g in After(EMPTY, ops).signals
    ensures var w := After(EMPTY, ops); var u, v := Step(w, Clear(g)), Step(w, Destroy(g));
      && Enabled(w, Clear(g)) && Enabled(w, Destroy(g))
      && g in u.signals && Subscribers(u, g) == [] && g !in v.signals
      && (forall h :: !Subscribes(u, h, g) && !Subscribes(v, h, g))
      && (forall f | f != g :: Subscribers(u, f) == Subscribers(w, f) && Subscribers(v, f) == Subscribers(w, f))
      && u.handles == w.handles && v.handles == w.handles
  {
    Reachable(ops);
    hide Run, After, Held, Kept;
  }

  // A new signal has no subscribers, and changes no other.
  lemma CreateStartsEmpty(ops: seq<Op>, g: nat)
    requires Run(EMPTY, ops) && g !in After(EMPTY, ops).signals
    ensures var w := After(EMPTY, ops); var u := Step(w, Create(g));
      && Enabled(w, Create(g)) && g in u.signals && Subscribers(u, g) == []
      && (forall f | f != g :: Subscribers(u, f) == Subscribers(w, f)) && u.handles == w.handles
  {
    Reachable(ops);
    hide Run, After, Held, Kept;
  }

  lemma Reachable(ops: seq<Op>)
    requires Run(EMPTY, ops)
    ensures Inv(After(EMPTY, ops))
  {
    assert Inv(EMPTY);
    RunInv(EMPTY, ops);
  }

  // ---------------------------------------------------------------------------
  // The main results
  // ---------------------------------------------------------------------------

  // In every run a signal's subscribers are the copies issued since its last Clear that
  // a handle still holds connected, in connection order, and each has one holder.
  lemma SubscribersExact(ops: seq<Op>, g: nat)
    requires Run(EMPTY, ops) && g in After(EMPTY, ops).signals
    ensures var w := After(EMPTY, ops);
      && w.signals[g] in w.shared
      && var s := w.shared[w.signals[g]];
      && s.delegates == Kept(s.issued, Held(w.handles))
      && (forall x, y | 0 <= x < y < |s.issued| :: s.issued[x] != s.issued[y])
      && (forall h, k | h in w.handles && k in w.handles && h != k
                     && w.handles[h].connected && w.handles[k].connected ::
            w.handles[h].copy != w.handles[k].copy)
  {
    assert Inv(EMPTY);
    RunInv(EMPTY, ops);
    hide Run, After, Held, Kept;
  }

  // A handle of a cleared or destroyed signal changes no list by its disconnection.
  lemma LateDisconnect(ops: seq<Op>, h: nat)
    requires Run(EMPTY, ops)
    requires var w := After(EMPTY, ops);
      h in w.handles && !(exists g :: g in w.signals && w.signals[g] == w.handles[h].shared)
    ensures var w := After(EMPTY, ops); Step(w, Disconnect(h)).shared == w.shared
  {
    assert Inv(EMPTY);
    RunInv(EMPTY, ops);
    var w := After(EMPTY, ops);
    hide Run, After, Held, Kept;
  }
}
