// MulticastDelegate: broadcasts walk the live list, and removals made from inside
// a broadcast only null their cell. The lazy list refines the plain one.

module Multicast {
  import opened Options

  // ---------------------------------------------------------------------------
  // Reference: the plain subscriber list
  // ---------------------------------------------------------------------------

  function EraseFirst<D(==)>(l: seq<D>, d: D): seq<D> {
    if l == [] then [] else if l[0] == d then l[1..] else [l[0]] + EraseFirst(l[1..], d)
  }

  // One delegate goes: the first that is equal.
  lemma {:induction false} ErasesFirst<D>(l: seq<D>, d: D) returns (i: nat)
    ensures i <= |l| && forall k | 0 <= k < i :: l[k] != d
    ensures i == |l| ==> EraseFirst(l, d) == l
    ensures i < |l| ==> l[i] == d && EraseFirst(l, d) == l[..i] + l[i + 1..]
  {
    i := 0;
    if l != [] && l[0] != d {
      i := ErasesFirst(l[1..], d);
      i := i + 1;
      assert l == [l[0]] + l[1..];
    }
  }

  // ---------------------------------------------------------------------------
  // The list of cells
  // ---------------------------------------------------------------------------

  type Cells<D> = seq<Option<D>>

  // The subscribers: the non-null cells, in order.
  function Live<D>(c: Cells<D>): seq<D> {
    if c == [] then [] else (if c[0].Some? then [c[0].value] else []) + Live(c[1..])
  }

  function DropNulls<D>(c: Cells<D>): Cells<D> {
    if c == [] then [] else (if c[0].Some? then [c[0]] else []) + DropNulls(c[1..])
  }

  ghost predicate NoNull<D>(c: Cells<D>) {
    forall i | 0 <= i < |c| :: c[i].Some?
  }

  // The place of the first cell holding d, or |c|.
  function Find<D(==)>(c: Cells<D>, d: D): (i: nat)
    ensures i <= |c|
    ensures i < |c| ==> c[i] == Some(d)
    ensures forall k | 0 <= k < i :: c[k] != Some(d)
  {
    if c == [] || c[0] == Some(d) then 0 else 1 + Find(c[1..], d)
  }

  lemma {:induction false} LiveConcat<D>(a: Cells<D>, b: Cells<D>)
    ensures Live(a + b) == Live(a) + Live(b)
  {
    if a == [] {
      assert a + b == b;
    } else {
      assert (a + b)[1..] == a[1..] + b;
      LiveConcat(a[1..], b);
      var x := if a[0].Some? then [a[0].value] else [];
      assert Live(a) == x + Live(a[1..]) && Live(a + b) == x + Live(a[1..] + b);
    }
  }

  lemma LiveOne<D>(x: Option<D>)
    ensures Live([x]) == if x.Some? then [x.value] else []
  {
    assert [x][1..] == [];
  }

  lemma LiveSplit<D>(c: Cells<D>, i: nat)
    requires i < |c|
    ensures Live(c) == Live(c[..i]) + (if c[i].Some? then [c[i].value] else []) + Live(c[i + 1..])
  {
    hide Live;
    var a, x, b := c[..i], [c[i]], c[i + 1..];
    assert c == a + x + b;
    LiveOne(c[i]);
    LiveConcat(a, x);
    LiveConcat(a + x, b);
  }

  lemma {:induction false} LiveDropNulls<D>(c: Cells<D>)
    ensures Live(DropNulls(c)) == Live(c)
    ensures NoNull(DropNulls(c))
  {
    if c != [] {
      LiveDropNulls(c[1..]);
      LiveConcat(if c[0].Some? then [c[0]] else [], DropNulls(c[1..]));
      assert [c[0]][1..] == [];
    }
  }

  lemma {:induction false} EraseAbsent<D>(c: Cells<D>, d: D)
    requires forall k | 0 <= k < |c| :: c[k] != Some(d)
    ensures d !in Live(c)
    ensures EraseFirst(Live(c), d) == Live(c)
  {
    if c != [] {
      assert forall k | 0 <= k < |c| - 1 :: c[1..][k] == c[k + 1];
      EraseAbsent(c[1..], d);
      EraseSkips(if c[0].Some? then [c[0].value] else [], Live(c[1..]), d);
    }
  }

  lemma {:induction false} EraseSkips<D>(a: seq<D>, b: seq<D>, d: D)
    requires d !in a
    ensures EraseFirst(a + b, d) == a + EraseFirst(b, d)
  {
    if a == [] {
      assert a + b == b;
    } else {
      assert (a + b)[1..] == a[1..] + b;
      EraseSkips(a[1..], b, d);
    }
  }

  // Nulling, or erasing, the first matching cell removes the first match.
  lemma FindErases<D>(c: Cells<D>, d: D)
    requires Find(c, d) < |c|
    ensures var i := Find(c, d);
      && EraseFirst(Live(c), d) == Live(c[i := None])
      && EraseFirst(Live(c), d) == Live(c[..i] + c[i + 1..])
  {
    var i := Find(c, d);
    LiveSplit(c, i);
    var n := c[i := None];
    LiveSplit(n, i);
    assert n[..i] == c[..i] && n[i + 1..] == c[i + 1..];
    LiveConcat(c[..i], c[i + 1..]);
    EraseAbsent(c[..i], d);
    EraseSkips(Live(c[..i]), [d] + Live(c[i + 1..]), d);
    assert Live(c) == Live(c[..i]) + ([d] + Live(c[i + 1..]));
    assert Live(c[..i]) + [] + Live(c[i + 1..]) == Live(c[..i]) + Live(c[i + 1..]);
  }

  lemma {:induction false} LiveNulled<D>(c: Cells<D>)
    requires forall i | 0 <= i < |c| :: c[i].None?
    ensures Live(c) == []
  {
    if c != [] { LiveNulled(c[1..]); }
  }

  // ---------------------------------------------------------------------------
  // The container's own methods
  // ---------------------------------------------------------------------------

  class MulticastDelegate<D(==)> {
    var delegates: Cells<D>
    var broadcastCount: nat
    var cleanup: bool

    ghost predicate Valid()
      reads this
    {
      && (!cleanup ==> NoNull(delegates))
      && (broadcastCount == 0 ==> !cleanup)
    }

    constructor ()
      ensures Valid() && delegates == [] && broadcastCount == 0
    {
      delegates, broadcastCount, cleanup := [], 0, false;
    }

    method PushBack(d: D)
      requires Valid()
      modifies `delegates
      ensures Valid()
      ensures delegates == old(delegates) + [Some(d)]
      ensures Live(delegates) == old(Live(delegates)) + [d]
    {
      LiveConcat(delegates, [Some(d)]);
      assert [Some(d)][1..] == [];
      delegates := delegates + [Some(d)];
    }

    method Remove(d: D)
      requires Valid()
      modifies `delegates, `cleanup
      ensures Valid()
      ensures Live(delegates) == EraseFirst(old(Live(delegates)), d)
      ensures broadcastCount > 0 ==> |delegates| == |old(delegates)|
      ensures broadcastCount > 0 ==> forall i | 0 <= i < |delegates| ::
                delegates[i] == if i == Find(old(delegates), d) then None else old(delegates)[i]
      ensures broadcastCount == 0 ==> NoNull(delegates)
      ensures broadcastCount == 0 ==>
                var was, i := old(delegates), Find(old(delegates), d);
                delegates == if i < |was| then was[..i] + was[i + 1..] else was
    {
      var it := 0;
      while it < |delegates| && !(delegates[it].Some? && delegates[it].value == d)
        invariant 0 <= it <= |delegates|
        invariant forall k | 0 <= k < it :: delegates[k] != Some(d)
      {
        it := it + 1;
      }
      if it != |delegates| {
        assert it == Find(delegates, d);
        FindErases(delegates, d);
        if broadcastCount > 0 {
          delegates := delegates[it := None];
          cleanup := true;
        } else {
          delegates := delegates[..it] + delegates[it + 1..];
        }
      } else {
        EraseAbsent(delegates, d);
      }
    }

    method Clear()
      requires Valid()
      modifies `delegates, `cleanup
      ensures Valid()
      ensures Live(delegates) == []
      ensures broadcastCount > 0 ==>
                |delegates| == |old(delegates)| && forall i | 0 <= i < |delegates| :: delegates[i] == None
      ensures broadcastCount == 0 ==> delegates == []
    {
      if broadcastCount > 0 {
        var i := 0;
        while i < |delegates|
          invariant 0 <= i <= |delegates| == |old(delegates)|
          invariant forall k | 0 <= k < i :: delegates[k].None?
        {
          delegates := delegates[i := None];
          i := i + 1;
        }
        LiveNulled(delegates);
        cleanup := true;
      } else {
        delegates := [];
      }
    }

    // BroadcastGuard's constructor.
    method Enter()
      requires Valid()
      modifies `broadcastCount
      ensures Valid() && broadcastCount == old(broadcastCount) + 1
    {
      broadcastCount := broadcastCount + 1;
    }

    // BroadcastGuard's destructor, run on return and on a throw alike.
    method Leave()
      requires cleanup || NoNull(delegates)
      requires broadcastCount > 0
      modifies this
      ensures Valid() && broadcastCount == old(broadcastCount) - 1
      ensures Live(delegates) == old(Live(delegates))
      ensures broadcastCount == 0 ==> NoNull(delegates)
      ensures broadcastCount > 0 ==> delegates == old(delegates)
    {
      broadcastCount := broadcastCount - 1;
      if broadcastCount == 0 {
        Cleanup();
      }
    }

    method Cleanup()
      requires cleanup || NoNull(delegates)
      modifies `delegates, `cleanup
      ensures Live(delegates) == old(Live(delegates))
      ensures NoNull(delegates) && !cleanup
    {
      if !cleanup {
        return;
      }
      var kept: Cells<D> := [];
      var i := 0;
      while i < |delegates|
        invariant 0 <= i <= |delegates|
        invariant delegates == old(delegates)
        invariant kept + DropNulls(delegates[i..]) == DropNulls(delegates)
      {
        if delegates[i].Some? {
          kept := kept + [delegates[i]];
        }
        assert delegates[i..][1..] == delegates[i + 1..];
        i := i + 1;
      }
      assert kept == DropNulls(delegates);
      LiveDropNulls(delegates);
      delegates := kept;
      cleanup := false;
    }
  }

  // ---------------------------------------------------------------------------
  // Broadcasts, nested to any depth, with callbacks that add, remove and clear
  // ---------------------------------------------------------------------------

  // An active operator(): where its iterator stands, and whether it is inside the
  // callback there. Its history: the cells it found on entry, the places it has called
  // so far and the delegates called there, and the places it has skipped as null.
  datatype Frame<D> = Frame(pos: nat, inCall: bool, start: Cells<D>, called: seq<nat>, calls: seq<D>, skipped: seq<nat>)

  // Frames are innermost first; trace lists every call made, as the delegate called.
  datatype State<D> = State(cells: Cells<D>, frames: seq<Frame<D>>, cleanup: bool, trace: seq<D>)

  datatype Op<D> =
    | PushBack(d: D)
    | Remove(d: D)
    | Clear
    | Begin      // operator() is entered
    | Visit      // the innermost broadcast looks at the cell under its iterator
    | Return     // ... its callback returns and the iterator advances
    | End        // ... reaches the end of the list
    | Throw      // ... is left by an exception out of its callback

  // A container method runs outside any broadcast or from inside a callback.
  predicate CanCall<D>(s: State<D>) {
    s.frames == [] || s.frames[0].inCall
  }

  predicate Enabled<D>(s: State<D>, op: Op<D>) {
    match op
    case PushBack(_) => CanCall(s)
    case Remove(_) => CanCall(s)
    case Clear => CanCall(s)
    case Begin => CanCall(s)
    case Visit => s.frames != [] && !s.frames[0].inCall && s.frames[0].pos < |s.cells|
    case Return => s.frames != [] && s.frames[0].inCall
    case End => s.frames != [] && !s.frames[0].inCall && s.frames[0].pos >= |s.cells|
    case Throw => s.frames != [] && s.frames[0].inCall
  }

  function Skip<D>(f: Frame<D>): Frame<D> {
    f.(pos := f.pos + 1, skipped := f.skipped + [f.pos])
  }

  function Call<D>(f: Frame<D>, d: D): Frame<D> {
    f.(inCall := true, called := f.called + [f.pos], calls := f.calls + [d])
  }

  function Pop<D>(s: State<D>): State<D>
    requires s.frames != []
  {
    if |s.frames| == 1 then
      State(if s.cleanup then DropNulls(s.cells) else s.cells, [], false, s.trace)
    else
      s.(frames := s.frames[1..])
  }

  function Step<D(==)>(s: State<D>, op: Op<D>): State<D>
    requires Enabled(s, op)
  {
    match op
    case PushBack(d) => s.(cells := s.cells + [Some(d)])
    case Remove(d) =>
      var i := Find(s.cells, d);
      if i == |s.cells| then s
      else if s.frames != [] then s.(cells := s.cells[i := None], cleanup := true)
      else s.(cells := s.cells[..i] + s.cells[i + 1..])
    case Clear =>
      if s.frames != [] then s.(cells := seq(|s.cells|, _ => None), cleanup := true)
      else s.(cells := [])
    case Begin => s.(frames := [Frame(0, false, s.cells, [], [], [])] + s.frames)
    case Visit =>
      var f := s.frames[0];
      var cell := s.cells[f.pos];
      if cell.None? then s.(frames := [Skip(f)] + s.frames[1..])
      else s.(frames := [Call(f, cell.value)] + s.frames[1..], trace := s.trace + [cell.value])
    case Return =>
      var f := s.frames[0];
      s.(frames := [f.(pos := f.pos + 1, inCall := false)] + s.frames[1..])
    case End => Pop(s)
    case Throw => Pop(s)
  }

  ghost predicate Run<D>(s: State<D>, ops: seq<Op<D>>)
    decreases ops
  {
    ops == [] || (Enabled(s, ops[0]) && Run(Step(s, ops[0]), ops[1..]))
  }

  function After<D(==)>(s: State<D>, ops: seq<Op<D>>): State<D>
    requires Run(s, ops)
    decreases ops
  {
    if ops == [] then s else After(Step(s, ops[0]), ops[1..])
  }

  // The same calls on the plain list; broadcasting does not touch it.
  function PlainStep<D(==)>(l: seq<D>, op: Op<D>): seq<D> {
    match op
    case PushBack(d) => l + [d]
    case Remove(d) => EraseFirst(l, d)
    case Clear => []
    case _ => l
  }

  function PlainAfter<D(==)>(l: seq<D>, ops: seq<Op<D>>): seq<D>
    decreases ops
  {
    if ops == [] then l else PlainAfter(PlainStep(l, ops[0]), ops[1..])
  }

  // Inside a frame: the places called lie behind the iterator (or under it during
  // the call), each once and in order, and no live cell behind it was missed.
  ghost predicate WalkOk<D>(c: Cells<D>, f: Frame<D>) {
    && f.pos <= |c| && (f.inCall ==> f.pos < |c| && f.pos in f.called)
    && (forall i | 0 <= i < |f.called| :: f.called[i] < f.pos || (f.inCall && f.called[i] == f.pos))
    && (forall i, j | 0 <= i < j < |f.called| :: f.called[i] < f.called[j])
    && (forall p | 0 <= p < |c| && c[p].Some? && (p < f.pos || (f.inCall && p == f.pos)) :: p in f.called)
  }

  // Since a broadcast's entry cells have only been nulled or added; it has called or
  // skipped each place behind it, not both, and called what was there on entry.
  ghost predicate HistoryOk<D>(c: Cells<D>, f: Frame<D>) {
    && |f.start| <= |c| && |f.calls| == |f.called|
    && (forall p | 0 <= p < |f.start| && c[p].Some? :: c[p] == f.start[p])
    && (forall i | 0 <= i < |f.called| && f.called[i] < |f.start| :: f.start[f.called[i]] == Some(f.calls[i]))
    && (forall p | p in f.skipped :: p < f.pos && p < |c| && c[p].None? && p !in f.called)
    && (forall p | 0 <= p < f.pos :: p in f.called || p in f.skipped)
  }

  ghost predicate FrameOk<D>(c: Cells<D>, f: Frame<D>) {
    WalkOk(c, f) && HistoryOk(c, f)
  }

  ghost predicate Inv<D>(s: State<D>) {
    && (!s.cleanup ==> NoNull(s.cells))
    && (s.frames == [] ==> !s.cleanup)
    && (forall k | 0 <= k < |s.frames| :: FrameOk(s.cells, s.frames[k]))
    && (forall k | 0 < k < |s.frames| :: s.frames[k].inCall)
  }

  // Growing the list or nulling cells keeps every iterator valid.
  lemma FrameSurvives<D>(c: Cells<D>, c': Cells<D>, f: Frame<D>)
    requires FrameOk(c, f) && |c| <= |c'|
    requires forall p | 0 <= p < |c| && c'[p].Some? :: c[p] == c'[p]
    ensures FrameOk(c', f)
  {
    assert WalkOk(c', f);
    assert HistoryOk(c', f) by { hide WalkOk; }
    hide WalkOk, HistoryOk;
  }

  lemma CallerKeepsInv<D>(s: State<D>, c: Cells<D>, flag: bool)
    requires Inv(s) && s.frames != [] && |s.cells| <= |c| && (flag || NoNull(c)) && (s.cleanup ==> flag)
    requires forall p | 0 <= p < |s.cells| && c[p].Some? :: s.cells[p] == c[p]
    ensures Inv(s.(cells := c, cleanup := flag))
  {
    hide FrameOk;
    forall k | 0 <= k < |s.frames|
      ensures FrameOk(c, s.frames[k])
    {
      FrameSurvives(s.cells, c, s.frames[k]);
    }
  }

  lemma SkippedFrameOk<D>(c: Cells<D>, f: Frame<D>)
    requires FrameOk(c, f) && !f.inCall && f.pos < |c| && c[f.pos].None?
    ensures FrameOk(c, Skip(f))
  {
    assert Skip(f).skipped[|f.skipped|] == f.pos;
    assert forall p | p in f.skipped :: p in Skip(f).skipped;
    assert f.pos !in f.called;
    assert WalkOk(c, Skip(f)) by { hide HistoryOk; }
    hide WalkOk;
  }

  lemma CalledFrameOk<D>(c: Cells<D>, f: Frame<D>)
    requires FrameOk(c, f) && !f.inCall && f.pos < |c| && c[f.pos].Some?
    ensures FrameOk(c, Call(f, c[f.pos].value))
  {
    var g := Call(f, c[f.pos].value);
    assert g.called[|f.called|] == f.pos;
    assert forall p | p in f.called :: p in g.called;
    assert WalkOk(c, g) by { hide HistoryOk; }
    hide WalkOk;
  }

  lemma InnermostKeepsInv<D>(s: State<D>, f: Frame<D>, trace: seq<D>)
    requires Inv(s) && s.frames != [] && FrameOk(s.cells, f)
    ensures Inv(s.(frames := [f] + s.frames[1..], trace := trace))
  {
    hide FrameOk;
    var fs := [f] + s.frames[1..];
    assert forall k | 0 < k < |fs| :: fs[k] == s.frames[k];
  }

  lemma VisitKeepsInv<D>(s: State<D>)
    requires Inv(s) && Enabled(s, Visit)
    ensures Inv(Step(s, Visit))
  {
    hide WalkOk, HistoryOk;
    if s.cells[s.frames[0].pos].None? {
      SkippedFrameOk(s.cells, s.frames[0]);
    } else {
      CalledFrameOk(s.cells, s.frames[0]);
    }
    InnermostKeepsInv(s, Step(s, Visit).frames[0], Step(s, Visit).trace);
    hide FrameOk, Inv;
  }

  lemma ReturnedFrameOk<D>(c: Cells<D>, f: Frame<D>)
    requires FrameOk(c, f) && f.inCall && f.pos in f.called
    ensures FrameOk(c, f.(pos := f.pos + 1, inCall := false))
  {
    assert WalkOk(c, f.(pos := f.pos + 1, inCall := false)) by { hide HistoryOk; }
    hide WalkOk;
  }

  lemma ReturnKeepsInv<D>(s: State<D>)
    requires Inv(s) && Enabled(s, Return)
    ensures Inv(Step(s, Return))
  {
    ReturnedFrameOk(s.cells, s.frames[0]);
    InnermostKeepsInv(s, Step(s, Return).frames[0], s.trace);
    hide FrameOk, Inv;
  }

  lemma PopKeepsInv<D>(s: State<D>)
    requires Inv(s) && s.frames != []
    ensures Inv(Pop(s)) && Live(Pop(s).cells) == Live(s.cells)
  {
    LiveDropNulls(s.cells);
    assert forall k | 0 < k < |s.frames| :: s.frames[1..][k - 1] == s.frames[k];
  }

  lemma PushBackRefines<D>(s: State<D>, d: D)
    requires Inv(s)
    ensures Inv(s.(cells := s.cells + [Some(d)]))
    ensures Live(s.cells + [Some(d)]) == Live(s.cells) + [d]
  {
    LiveConcat(s.cells, [Some(d)]);
    LiveOne(Some(d));
    hide Live;
    if s.frames != [] { CallerKeepsInv(s, s.cells + [Some(d)], s.cleanup); }
  }

  lemma RemoveRefines<D>(s: State<D>, d: D)
    requires Inv(s) && Enabled(s, Remove(d))
    ensures Inv(Step(s, Remove(d)))
    ensures Live(Step(s, Remove(d)).cells) == EraseFirst(Live(s.cells), d)
  {
    hide Live, EraseFirst;
    var i := Find(s.cells, d);
    if i == |s.cells| {
      EraseAbsent(s.cells, d);
    } else {
      FindErases(s.cells, d);
      if s.frames != [] { CallerKeepsInv(s, s.cells[i := None], true); }
    }
  }

  lemma ClearRefines<D>(s: State<D>)
    requires Inv(s) && Enabled(s, Clear)
    ensures Inv(Step(s, Clear))
    ensures Live(Step(s, Clear).cells) == []
  {
    if s.frames != [] {
      LiveNulled<D>(seq(|s.cells|, _ => None));
      hide Live;
      CallerKeepsInv(s, seq(|s.cells|, _ => None), true);
    }
  }

  lemma BeginKeepsInv<D>(s: State<D>)
    requires Inv(s) && Enabled(s, Begin)
    ensures Inv(Step(s, Begin))
  {
    FirstFrameOk(s.cells);
    hide FrameOk, WalkOk, HistoryOk;
    var s' := Step(s, Begin);
    assert forall k | 0 < k < |s'.frames| :: s'.frames[k] == s.frames[k - 1];
  }

  lemma FirstFrameOk<D>(c: Cells<D>)
    ensures FrameOk(c, Frame(0, false, c, [], [], []))
  {}

  // Each step keeps the iterators valid and moves the subscribers exactly as the
  // plain list's own operation would.
  lemma StepRefines<D>(s: State<D>, op: Op<D>)
    requires Inv(s) && Enabled(s, op)
    ensures Inv(Step(s, op))
    ensures Live(Step(s, op).cells) == PlainStep(Live(s.cells), op)
  {
    hide Inv, Live, Pop;
    match op
    case PushBack(d) => PushBackRefines(s, d);
    case Remove(d) => RemoveRefines(s, d);
    case Clear => ClearRefines(s);
    case Begin => BeginKeepsInv(s);
    case Visit => VisitKeepsInv(s);
    case Return => ReturnKeepsInv(s);
    case End => PopKeepsInv(s);
    case Throw => PopKeepsInv(s);
  }

  // Over every run of arbitrarily nested broadcasts and callbacks the container's
  // subscribers are those of the plain list.
  lemma {:induction false} RunRefines<D>(s: State<D>, ops: seq<Op<D>>)
    requires Inv(s) && Run(s, ops)
    ensures Inv(After(s, ops))
    ensures Live(After(s, ops).cells) == PlainAfter(Live(s.cells), ops)
    ensures After(s, ops).frames == [] ==> NoNull(After(s, ops).cells)
    decreases ops
  {
    if ops != [] {
      StepRefines(s, ops[0]);
      RunRefines(Step(s, ops[0]), ops[1..]);
    }
  }

  // A broadcast calls the delegate under its iterator if there is one, and then enters
  // the call; it is a current subscriber. Nothing else makes a call.
  lemma CallsAreLive<D>(s: State<D>, op: Op<D>)
    requires Inv(s) && Enabled(s, op)
    ensures op != Visit ==> Step(s, op).trace == s.trace
    ensures op == Visit ==>
              var cell, u := s.cells[s.frames[0].pos], Step(s, op);
              && u.trace == s.trace + (if cell.Some? then [cell.value] else [])
              && u.frames[0].calls == s.frames[0].calls + (if cell.Some? then [cell.value] else [])
              && u.frames[0].inCall == cell.Some?
              && (cell.Some? ==> cell.value in Live(s.cells))
  {
    if op == Visit {
      LiveSplit(s.cells, s.frames[0].pos);
    }
  }

  // A broadcast that runs to the end has called every delegate still subscribed
  // exactly once, in list order: its calls at live places are those places, rising.
  lemma FinishedBroadcastReachedAll<D>(s: State<D>)
    requires Inv(s) && Enabled(s, End)
    ensures var f := s.frames[0];
      && (forall p | 0 <= p < |s.cells| && s.cells[p].Some? :: p in f.called)
      && (forall i, j | 0 <= i < j < |f.called| :: f.called[i] < f.called[j])
      && (forall i | 0 <= i < |f.called| :: f.called[i] < |s.cells|)
  {}

  // ---------------------------------------------------------------------------
  // When a broadcast is the snapshot the class comment promises
  // ---------------------------------------------------------------------------

  // The places of the live cells, rising.
  function LivePlaces<D>(c: Cells<D>): seq<nat> {
    if c == [] then [] else LivePlaces(c[..|c| - 1]) + if c[|c| - 1].Some? then [|c| - 1] else []
  }

  ghost predicate Rising(s: seq<nat>) {
    forall i, j | 0 <= i < j < |s| :: s[i] < s[j]
  }

  lemma LivePlacesSnoc<D>(c: Cells<D>, x: Option<D>)
    ensures LivePlaces(c + [x]) == LivePlaces(c) + if x.Some? then [|c|] else []
  {
    assert (c + [x])[..|c|] == c;
  }

  lemma {:induction false} LivePlacesAre<D>(c: Cells<D>)
    ensures Rising(LivePlaces(c))
    ensures forall p: nat :: p in LivePlaces(c) <==> p < |c| && c[p].Some?
  {
    if c != [] {
      var n := |c| - 1;
      var r, x := c[..n], c[n];
      LivePlacesAre(r);
      LivePlacesSnoc(r, x);
      assert c == r + [x];
      hide LivePlaces;
      RisingSnoc(LivePlaces(r), n);
      hide Rising;
    }
  }

  lemma RisingSnoc(s: seq<nat>, n: nat)
    requires Rising(s) && forall p | p in s :: p < n
    ensures Rising(s + [n])
  {
    assert forall i | 0 <= i < |s| :: s[i] in s;
  }

  // Rising sequences with the same elements are equal.
  lemma {:induction false} RisingSame(s: seq<nat>, t: seq<nat>)
    requires Rising(s) && Rising(t) && forall p: nat :: p in s <==> p in t
    ensures s == t
    decreases |s|
  {
    SameEmptiness(s, t);
    if s != [] {
      var m, n := |s| - 1, |t| - 1;
      LastLargest(s, t);
      LastLargest(t, s);
      RisingInit(s);
      RisingInit(t);
      hide Rising;
      SameInit(s, t);
      RisingSame(Init(s), Init(t));
      assert s == s[..m] + [s[m]] && t == t[..n] + [t[n]];
    }
  }

  // All but the last element.
  function Init(s: seq<nat>): seq<nat>
    requires s != []
  {
    s[..|s| - 1]
  }

  lemma RisingInit(s: seq<nat>)
    requires s != [] && Rising(s)
    ensures Rising(Init(s))
  {}

  lemma SameInit(s: seq<nat>, t: seq<nat>)
    requires s != [] && t != [] && Rising(s) && Rising(t) && s[|s| - 1] == t[|t| - 1]
    requires forall p: nat :: p in s <==> p in t
    ensures forall p: nat :: p in Init(s) <==> p in Init(t)
  {
    InitElements(s);
    InitElements(t);
    hide Rising, Init;
    forall p: nat
      ensures p in Init(s) <==> p in Init(t)
    {
      assert p in Init(s) <==> p in s && p != s[|s| - 1];
      assert p in Init(t) <==> p in t && p != t[|t| - 1];
    }
  }

  lemma SameEmptiness(s: seq<nat>, t: seq<nat>)
    requires forall p: nat :: p in s <==> p in t
    ensures s == [] <==> t == []
  {
    assert s != [] ==> s[0] in s;
    assert t != [] ==> t[0] in t;
  }

  lemma LastLargest(s: seq<nat>, t: seq<nat>)
    requires s != [] && t != [] && Rising(t) && forall p | p in s :: p in t
    ensures s[|s| - 1] <= t[|t| - 1]
  {
    assert s[|s| - 1] in s;
  }

  lemma InitElements(s: seq<nat>)
    requires s != [] && Rising(s)
    ensures forall p: nat :: p in Init(s) <==> p in s && p != s[|s| - 1]
  {
    assert s == Init(s) + [s[|s| - 1]];
  }

  // The delegates at the live places are the subscribers.
  ghost predicate AtPlaces<D>(c: Cells<D>, places: seq<nat>, calls: seq<D>) {
    |calls| == |places| && forall i | 0 <= i < |calls| :: places[i] < |c| && c[places[i]] == Some(calls[i])
  }

  lemma {:induction false} LiveAtPlaces<D>(c: Cells<D>, calls: seq<D>)
    requires AtPlaces(c, LivePlaces(c), calls)
    ensures calls == Live(c)
  {
    if c != [] {
      var n := |c| - 1;
      var r, x := c[..n], c[n];
      assert c == r + [x];
      LiveConcat(r, [x]);
      LiveOne(x);
      LivePlacesSnoc(r, x);
      LivePlacesAre(r);
      hide Live, LivePlaces, Rising;
      AtPlacesInit(r, x, LivePlaces(r), calls);
      LiveAtPlaces(r, if x.Some? then calls[..|calls| - 1] else calls);
    }
  }

  lemma AtPlacesInit<D>(r: Cells<D>, x: Option<D>, places: seq<nat>, calls: seq<D>)
    requires AtPlaces(r + [x], if x.Some? then places + [|r|] else places + [], calls)
    requires forall p | p in places :: p < |r|
    ensures x.None? ==> AtPlaces(r, places, calls)
    ensures x.Some? ==> calls != [] && AtPlaces(r, places, calls[..|calls| - 1])
    ensures x.Some? ==> calls == calls[..|calls| - 1] + [x.value]
  {
    assert forall i | 0 <= i < |places| :: places[i] in places;
    assert forall i | 0 <= i < |places| :: (places + [|r|])[i] == places[i];
    assert (places + [|r|])[|places|] == |r|;
  }

  // At its end a broadcast has called the places live on its entry, no others, exactly
  // if it skipped none of them and skipped every place added since. It has then called
  // the subscribers it found on entry, each once and in order.
  lemma SnapshotIff<D>(s: State<D>)
    requires Inv(s) && Enabled(s, End)
    ensures var f := s.frames[0]; var entry := LivePlaces(f.start);
      f.called == entry <==>
      ((forall p | p in entry :: p !in f.skipped) && (forall p | |f.start| <= p < |s.cells| :: p in f.skipped))
    ensures s.frames[0].called == LivePlaces(s.frames[0].start) ==> s.frames[0].calls == Live(s.frames[0].start)
  {
    var c, f := s.cells, s.frames[0];
    var entry := LivePlaces(f.start);
    assert FrameOk(c, f);
    LivePlacesAre(f.start);
    assert Rising(f.called);
    CalledIsEntry(c, f);
    if f.called == entry {
      assert forall i | 0 <= i < |entry| :: entry[i] in entry;
      hide WalkOk, Live, LivePlaces;
      LiveAtPlaces(f.start, f.calls);
    }
  }

  lemma CalledIsEntry<D>(c: Cells<D>, f: Frame<D>)
    requires FrameOk(c, f) && !f.inCall && f.pos == |c|
    ensures var entry := LivePlaces(f.start);
      f.called == entry <==>
      ((forall p | p in entry :: p !in f.skipped) && (forall p | |f.start| <= p < |c| :: p in f.skipped))
  {
    var entry := LivePlaces(f.start);
    LivePlacesAre(f.start);
    assert forall i | 0 <= i < |f.called| :: f.called[i] in f.called;
    CalledPlaces(c, f);
    hide FrameOk, WalkOk, HistoryOk, LivePlaces;
    if (forall p | p in entry :: p !in f.skipped) && (forall p | |f.start| <= p < |c| :: p in f.skipped) {
      RisingSame(f.called, entry);
    } else {
      hide Rising;
    }
  }

  // The walk has called every place it has not skipped, and of those it found on entry
  // only live ones.
  lemma CalledPlaces<D>(c: Cells<D>, f: Frame<D>)
    requires FrameOk(c, f) && !f.inCall && f.pos == |c|
    ensures Rising(f.called) && |f.start| <= |c|
    ensures forall p: nat :: p in f.called <==> p < |c| && p !in f.skipped
    ensures forall p | p in f.called && p < |f.start| :: f.start[p].Some?
  {
    assert forall p | p in f.called :: p < f.pos;
  }

  // In every run from a container at rest, whatever the callbacks do.
  lemma SnapshotInEveryRun<D>(cells: Cells<D>, ops: seq<Op<D>>)
    requires NoNull(cells) && Run(State(cells, [], false, []), ops)
    requires Enabled(After(State(cells, [], false, []), ops), End)
    ensures var s := After(State(cells, [], false, []), ops); var f := s.frames[0];
      && (f.called == LivePlaces(f.start) <==>
          ((forall p | p in LivePlaces(f.start) :: p !in f.skipped) &&
           (forall p | |f.start| <= p < |s.cells| :: p in f.skipped)))
      && (f.called == LivePlaces(f.start) ==> f.calls == Live(f.start))
  {
    RunRefines(State(cells, [], false, []), ops);
    SnapshotIff(After(State(cells, [], false, []), ops));
    hide Run, After, Live, LivePlaces, Inv;
  }

  // Broadcasts alone, nested or not, leave the cells as they are.
  predicate Mutates<D>(op: Op<D>) {
    op.PushBack? || op.Remove? || op.Clear?
  }

  // How long a nulled cell stays out: while the broadcast it belongs to is active.
  ghost predicate Outlives<D>(s: State<D>, ops: seq<Op<D>>, depth: nat)
    requires Run(s, ops)
    decreases ops
  {
    |s.frames| >= depth && (ops == [] || Outlives(Step(s, ops[0]), ops[1..], depth))
  }

  // A delegate removed before the broadcast at some nesting depth reaches its cell
  // is not called by that broadcast, whatever happens afterwards.
  lemma {:induction false} RemovedBeforeReachedNotCalled<D>(s: State<D>, ops: seq<Op<D>>, depth: nat, p: nat)
    requires Inv(s) && Run(s, ops)
    requires 0 < depth && Outlives(s, ops, depth)
    requires p < |s.cells| && s.cells[p].None?
    requires p !in s.frames[|s.frames| - depth].called
    ensures var t := After(s, ops);
      && |t.frames| >= depth && p < |t.cells| && t.cells[p].None?
      && p !in t.frames[|t.frames| - depth].called
    decreases ops
  {
    hide Step, Enabled, Inv;
    if ops != [] {
      var t := Step(s, ops[0]);
      StepRefines(s, ops[0]);
      NulledStays(s, ops[0], depth, p);
      RemovedBeforeReachedNotCalled(t, ops[1..], depth, p);
    }
  }

  lemma NulledStays<D>(s: State<D>, op: Op<D>, depth: nat, p: nat)
    requires Inv(s) && Enabled(s, op)
    requires 0 < depth <= |s.frames| && depth <= |Step(s, op).frames|
    requires p < |s.cells| && s.cells[p].None?
    requires p !in s.frames[|s.frames| - depth].called
    ensures var t := Step(s, op);
      && p < |t.cells| && t.cells[p].None?
      && p !in t.frames[|t.frames| - depth].called
  {
    hide FrameOk, WalkOk, HistoryOk;
    var t := Step(s, op);
    if op.Remove? && Find(s.cells, op.d) < |s.cells| {
      assert s.cells[Find(s.cells, op.d)].Some?;
    }
  }

  lemma {:induction false} QuietRun<D>(s: State<D>, ops: seq<Op<D>>, depth: nat)
    requires Inv(s) && Run(s, ops) && 0 < depth && Outlives(s, ops, depth)
    requires forall op | op in ops :: !Mutates(op)
    ensures var t := After(s, ops);
      && |t.frames| >= depth && t.cells == s.cells
      && t.frames[|t.frames| - depth].start == s.frames[|s.frames| - depth].start
    decreases ops
  {
    hide Step, Enabled, Inv, Mutates;
    if ops != [] {
      assert ops[0] in ops && forall op | op in ops[1..] :: op in ops;
      StepRefines(s, ops[0]);
      QuietStep(s, ops[0], depth);
      QuietRun(Step(s, ops[0]), ops[1..], depth);
    }
  }

  lemma QuietStep<D>(s: State<D>, op: Op<D>, depth: nat)
    requires Enabled(s, op) && !Mutates(op) && 0 < depth <= |s.frames| && depth <= |Step(s, op).frames|
    ensures var t := Step(s, op);
      && t.cells == s.cells
      && t.frames[|t.frames| - depth].start == s.frames[|s.frames| - depth].start
  {}

  // A broadcast during which no container method is called calls the subscribers it
  // found on entry, each once and in order, whatever broadcasts are nested in it.
  lemma QuietBroadcastIsSnapshot<D>(s: State<D>, ops: seq<Op<D>>)
    requires Inv(s) && Enabled(s, Begin) && Run(Step(s, Begin), ops)
    requires Outlives(Step(s, Begin), ops, |s.frames| + 1)
    requires forall op | op in ops :: !Mutates(op)
    requires var t := After(Step(s, Begin), ops); |t.frames| == |s.frames| + 1 && Enabled(t, End)
    ensures var t := After(Step(s, Begin), ops);
      t.frames[0].called == LivePlaces(s.cells) && t.frames[0].calls == Live(s.cells)
  {
    var b := Step(s, Begin);
    var t := After(b, ops);
    StepRefines(s, Begin);
    assert b.cells == s.cells && b.frames[0].start == s.cells && |b.frames| == |s.frames| + 1;
    hide Step;
    QuietRun(b, ops, |s.frames| + 1);
    RunRefines(b, ops);
    hide Run, After, Outlives;
    SnapshotIff(t);
    LivePlacesAre(s.cells);
    assert FrameOk(t.cells, t.frames[0]);
    hide Live, LivePlaces, Inv;
  }

  // The class comment promises a snapshot; the code does not take one. A delegate
  // added from a callback is called by the same broadcast, and one removed from a
  // callback before its turn is not.
  lemma NoSnapshot()
    ensures var s := State([Some(1), Some(2)], [], false, []);
      var ops := [Begin, Visit, Remove(2), PushBack(3), Return, Visit, Visit];
      Run(s, ops) && After(s, ops).trace == [1, 3]
  {
    var s: State<int> := State([Some(1), Some(2)], [], false, []);
    var ops: seq<Op<int>> := [Begin, Visit, Remove(2), PushBack(3), Return, Visit, Visit];
    var s4 := NoSnapshotFirstHalf();
    var s7 := NoSnapshotSecondHalf();
    hide Step, Enabled, Run, After;
    var x: seq<Op<int>> := [Begin, Visit, Remove(2), PushBack(3)];
    RunConcat(s, x, [Return, Visit, Visit]);
    assert ops == x + [Return, Visit, Visit];
  }

  // The broadcast is inside its first callback.
  const INSIDE_FIRST: Frame<int> := Frame(0, true, [Some(1), Some(2)], [0], [1], [])

  lemma NoSnapshotFirstHalf() returns (t: State<int>)
    ensures t == State([Some(1), None, Some(3)], [INSIDE_FIRST], true, [1])
    ensures var s := State([Some(1), Some(2)], [], false, []);
      Run(s, [Begin, Visit, Remove(2), PushBack(3)]) && After(s, [Begin, Visit, Remove(2), PushBack(3)]) == t
  {
    var s: State<int> := State([Some(1), Some(2)], [], false, []);
    var s1 := Step(s, Begin);
    assert s1.frames == [Frame(0, false, s.cells, [], [], [])];
    var s2 := Step(s1, Visit);
    assert s1.frames[1..] == [] && [] + [0] == [0] && [] + [1] == [1];
    assert s2 == State([Some(1), Some(2)], [INSIDE_FIRST], false, [1]);
    var s3 := Step(s2, Remove(2));
    assert s3 == State([Some(1), None], [INSIDE_FIRST], true, [1]);
    t := Step(s3, PushBack(3));
    hide Step, Enabled;
    RunCons(s3, PushBack(3), []);
    RunCons(s2, Remove(2), [PushBack(3)]);
    RunCons(s1, Visit, [Remove(2), PushBack(3)]);
    RunCons(s, Begin, [Visit, Remove(2), PushBack(3)]);
  }

  lemma NoSnapshotSecondHalf() returns (t: State<int>)
    ensures var s := State([Some(1), None, Some(3)], [INSIDE_FIRST], true, [1]);
      Run(s, [Return, Visit, Visit]) && After(s, [Return, Visit, Visit]) == t
    ensures t.trace == [1, 3]
  {
    var s: State<int> := State([Some(1), None, Some(3)], [INSIDE_FIRST], true, [1]);
    var s1 := Step(s, Return);
    assert s1 == s.(frames := [INSIDE_FIRST.(pos := 1, inCall := false)]);
    var s2 := Step(s1, Visit);
    assert [] + [1] == [1] && s1.frames[1..] == [];
    assert s2 == s.(frames := [INSIDE_FIRST.(pos := 2, inCall := false, skipped := [1])]);
    t := Step(s2, Visit);
    assert t.trace == [1, 3];
    hide Step, Enabled;
    RunCons(s2, Visit, []);
    RunCons(s1, Visit, [Visit]);
    RunCons(s, Return, [Visit, Visit]);
  }

  lemma RunCons<D>(s: State<D>, op: Op<D>, rest: seq<Op<D>>)
    requires Enabled(s, op) && Run(Step(s, op), rest)
    ensures Run(s, [op] + rest) && After(s, [op] + rest) == After(Step(s, op), rest)
  {
    hide Step, Enabled;
    assert ([op] + rest)[1..] == rest;
  }

  lemma {:induction false} RunConcat<D>(s: State<D>, x: seq<Op<D>>, y: seq<Op<D>>)
    requires Run(s, x) && Run(After(s, x), y)
    ensures Run(s, x + y) && After(s, x + y) == After(After(s, x), y)
    decreases x
  {
    hide Step, Enabled;
    if x == [] {
      assert x + y == y;
    } else {
      assert (x + y)[1..] == x[1..] + y;
      RunConcat(Step(s, x[0]), x[1..], y);
    }
  }
}
