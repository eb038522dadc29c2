// RemoteInvokeWait: the send lambda records the sequence number of the message it sent,
// and status callbacks, some of them earlier, decide how the wait ends.

module InvokeWait {
  import opened Options
  import opened Packets

  const EARLY_MAX: nat := 8

  // A status fired by the transport monitor, and whether it is SUCCESS.
  datatype Report = Report(id: Id, seqNum: SeqNum, success: bool)

  // A buffered status.
  datatype Status = Status(seqNum: SeqNum, success: bool)

  datatype Wait = Wait(complete: bool, success: bool, seqSet: bool, expectedSeq: SeqNum, early: seq<Status>)

  const START := Wait(false, false, false, 0, [])

  // ---------------------------------------------------------------------------
  // Reference: the first report about a number
  // ---------------------------------------------------------------------------

  function FirstMatch(s: seq<Status>, n: SeqNum): Option<bool> {
    if s == [] then None else if s[0].seqNum == n then Some(s[0].success) else FirstMatch(s[1..], n)
  }

  predicate Has(s: seq<Status>, i: int, n: SeqNum) {
    0 <= i < |s| && s[i].seqNum == n
  }

  lemma {:induction false} FirstMatchConcat(a: seq<Status>, b: seq<Status>, n: SeqNum)
    ensures FirstMatch(a + b, n) == if FirstMatch(a, n).Some? then FirstMatch(a, n) else FirstMatch(b, n)
  {
    if a == [] {
      assert a + b == b;
    } else {
      assert (a + b)[1..] == a[1..] + b && (a + b)[0] == a[0];
      FirstMatchConcat(a[1..], b, n);
    }
  }

  lemma {:induction false} FirstMatchExists(s: seq<Status>, n: SeqNum)
    ensures FirstMatch(s, n).Some? <==> exists i :: Has(s, i, n)
  {
    if s != [] {
      FirstMatchExists(s[1..], n);
      assert forall i | 1 <= i < |s| && Has(s, i, n) :: Has(s[1..], i - 1, n);
      assert s[0].seqNum == n ==> Has(s, 0, n);
      if FirstMatch(s[1..], n).Some? {
        var i :| Has(s[1..], i, n);
        assert Has(s, i + 1, n);
      }
    }
  }

  // The reports for a remote id, oldest first.
  function Mine(r: seq<Report>, id: Id): seq<Status> {
    if r == [] then []
    else
      var x := r[|r| - 1];
      Mine(r[..|r| - 1], id) + if x.id == id then [Status(x.seqNum, x.success)] else []
  }

  // The early statuses there is room for.
  function Buffered(s: seq<Status>): seq<Status> {
    if |s| <= EARLY_MAX then s else s[..EARLY_MAX]
  }

  // ---------------------------------------------------------------------------
  // The two critical sections
  // ---------------------------------------------------------------------------

  // The status callback.
  function Reported(w: Wait, r: Report, id: Id): Wait {
    if r.id != id then w
    else if !w.seqSet then
      if |w.early| < EARLY_MAX then w.(early := w.early + [Status(r.seqNum, r.success)]) else w
    else if !w.complete && r.seqNum == w.expectedSeq then w.(complete := true, success := r.success)
    else w
  }

  // The send lambda, once the message is sent.
  function SendDone(w: Wait, n: SeqNum): Wait {
    var m := FirstMatch(w.early, n);
    var v := w.(expectedSeq := n, seqSet := true);
    if m.Some? then v.(complete := true, success := m.value) else v
  }

  class InvokeWaitState {
    var complete: bool
    var success: bool
    var seqSet: bool
    var expectedSeq: SeqNum
    const early: array<Status>
    var earlyCnt: nat

    ghost predicate Valid()
      reads this, early
    {
      early.Length == EARLY_MAX && earlyCnt <= EARLY_MAX
    }

    ghost function State(): Wait
      reads this, early
      requires Valid()
    {
      Wait(complete, success, seqSet, expectedSeq, early[..earlyCnt])
    }

    constructor ()
      ensures Valid() && State() == START && fresh(early)
    {
      complete, success, seqSet, expectedSeq, earlyCnt := false, false, false, 0, 0;
      early := new Status[EARLY_MAX](_ => Status(0, false));
    }

    method StatusCallback(remoteId: Id, r: Report) returns (notify: bool)
      requires Valid()
      modifies this, early
      ensures Valid() && State() == Reported(old(State()), r, remoteId)
      ensures seqSet == old(seqSet) && expectedSeq == old(expectedSeq)
      ensures var decides := r.id == remoteId && seqSet && !old(complete) && r.seqNum == expectedSeq;
        && complete == (decides || old(complete)) && success == if decides then r.success else old(success)
      ensures var kept := r.id == remoteId && !seqSet && old(earlyCnt) < EARLY_MAX;
        early[..earlyCnt] == old(early[..earlyCnt]) + if kept then [Status(r.seqNum, r.success)] else []
      ensures notify <==> complete && !old(complete)
    {
      notify := false;
      if r.id != remoteId {
        return;
      }
      if !seqSet {
        if earlyCnt < early.Length {
          early[earlyCnt] := Status(r.seqNum, r.success);
          earlyCnt := earlyCnt + 1;
          assert early[..earlyCnt] == old(early[..earlyCnt]) + [Status(r.seqNum, r.success)];
        }
      } else if !complete && r.seqNum == expectedSeq {
        complete := true;
        success := r.success;
        notify := true;
      }
    }

    method Reconcile(lastSeqNum: SeqNum) returns (notify: bool)
      requires Valid() && !complete
      modifies this
      ensures Valid() && State() == SendDone(old(State()), lastSeqNum)
      ensures seqSet && expectedSeq == lastSeqNum && early[..earlyCnt] == old(early[..earlyCnt])
      ensures !complete ==> success == old(success) && forall i | 0 <= i < earlyCnt :: early[i].seqNum != lastSeqNum
      ensures complete ==> exists i | 0 <= i < earlyCnt ::
                && early[i].seqNum == lastSeqNum && success == early[i].success
                && forall k | 0 <= k < i :: early[k].seqNum != lastSeqNum
      ensures notify <==> complete
    {
      notify := false;
      ghost var s := early[..earlyCnt];
      expectedSeq := lastSeqNum;
      seqSet := true;
      var i := 0;
      while i < earlyCnt
        invariant 0 <= i <= earlyCnt
        invariant FirstMatch(s, lastSeqNum) == FirstMatch(s[i..], lastSeqNum)
        invariant forall k | 0 <= k < i :: early[k].seqNum != lastSeqNum
      {
        assert s[i..][0] == early[i] && s[i..][1..] == s[i + 1..];
        if early[i].seqNum == expectedSeq {
          complete := true;
          success := early[i].success;
          notify := true;
          return;
        }
        i := i + 1;
      }
    }
  }

  // ---------------------------------------------------------------------------
  // Every interleaving: some reports, the send lambda's section, more reports
  // ---------------------------------------------------------------------------

  function ReportAll(w: Wait, r: seq<Report>, id: Id): Wait {
    if r == [] then w else Reported(ReportAll(w, r[..|r| - 1], id), r[|r| - 1], id)
  }

  function After(before: seq<Report>, n: SeqNum, later: seq<Report>, id: Id): Wait {
    ReportAll(SendDone(ReportAll(START, before, id), n), later, id)
  }

  lemma {:induction false} EarlyPhase(r: seq<Report>, id: Id)
    ensures ReportAll(START, r, id) == START.(early := Buffered(Mine(r, id)))
  {
    if r != [] {
      EarlyPhase(r[..|r| - 1], id);
    }
  }

  lemma {:induction false} LatePhase(w: Wait, r: seq<Report>, id: Id)
    requires w.seqSet
    ensures var v := ReportAll(w, r, id); var m := FirstMatch(Mine(r, id), w.expectedSeq);
      && v.seqSet && v.expectedSeq == w.expectedSeq
      && v.complete == (w.complete || m.Some?)
      && v.success == if w.complete then w.success else if m.Some? then m.value else w.success
  {
    if r != [] {
      var q, x := r[..|r| - 1], r[|r| - 1];
      LatePhase(w, q, id);
      var one := if x.id == id then [Status(x.seqNum, x.success)] else [];
      FirstMatchConcat(Mine(q, id), one, w.expectedSeq);
      FirstMatchOne(x, w.expectedSeq);
      hide FirstMatch;
    }
  }

  lemma FirstMatchOne(x: Report, n: SeqNum)
    ensures FirstMatch([Status(x.seqNum, x.success)], n) == if x.seqNum == n then Some(x.success) else None
    ensures FirstMatch([], n) == None
  {
    assert [Status(x.seqNum, x.success)][1..] == [];
  }

  // What the callbacks take notice of.
  function Heard(before: seq<Report>, later: seq<Report>, id: Id): seq<Status> {
    Buffered(Mine(before, id)) + Mine(later, id)
  }

  // complete is set exactly if there is a status, and success says whether it is SUCCESS.
  predicate Follows(w: Wait, first: Option<bool>) {
    w.complete == first.Some? && w.success == (first == Some(true))
  }

  lemma FollowsOne(w: Wait, x: Option<bool>, y: Option<bool>)
    requires Follows(w, x)
    ensures Follows(w, y) <==> x == y
  {
    if x.Some? && y.Some? {
      assert x.value == y.value <==> (x == Some(true) <==> y == Some(true));
    }
  }

  // complete is set exactly when a status for the number has been heard, and success
  // is that of the first one.
  lemma Outcome(before: seq<Report>, n: SeqNum, later: seq<Report>, id: Id)
    ensures Follows(After(before, n, later, id), FirstMatch(Heard(before, later, id), n))
  {
    EarlyPhase(before, id);
    var w := SendDone(ReportAll(START, before, id), n);
    LatePhase(w, later, id);
    FirstMatchConcat(Buffered(Mine(before, id)), Mine(later, id), n);
    hide FirstMatch, Mine, Buffered, ReportAll;
  }

  // Before the number is recorded nothing is decided.
  lemma UndecidedBeforeSend(before: seq<Report>, id: Id)
    ensures !ReportAll(START, before, id).complete && !ReportAll(START, before, id).seqSet
  {
    EarlyPhase(before, id);
  }

  // No acknowledgement is lost while at most eight statuses for the id come before the
  // number is recorded: the outcome is that of the first report for the number.
  lemma NothingLost(before: seq<Report>, n: SeqNum, later: seq<Report>, id: Id)
    requires |Mine(before, id)| <= EARLY_MAX
    ensures Follows(After(before, n, later, id), FirstMatch(Mine(before, id) + Mine(later, id), n))
  {
    Outcome(before, n, later, id);
  }

  predicate Is(r: Report, id: Id, n: SeqNum) {
    r.id == id && r.seqNum == n
  }

  // The first match is that of the first report of the id and number.
  lemma {:induction false} MineFirst(r: seq<Report>, id: Id, n: SeqNum)
    ensures FirstMatch(Mine(r, id), n).None? <==> forall i | 0 <= i < |r| :: !Is(r[i], id, n)
    ensures forall i | 0 <= i < |r| && Is(r[i], id, n) && (forall k | 0 <= k < i :: !Is(r[k], id, n)) ::
              FirstMatch(Mine(r, id), n) == Some(r[i].success)
  {
    if r != [] {
      var q, x := r[..|r| - 1], r[|r| - 1];
      MineFirst(q, id, n);
      var one := if x.id == id then [Status(x.seqNum, x.success)] else [];
      FirstMatchConcat(Mine(q, id), one, n);
      FirstMatchOne(x, n);
      assert forall i | 0 <= i < |q| :: q[i] == r[i];
      hide FirstMatch;
    }
  }

  lemma {:induction false} MineConcat(a: seq<Report>, b: seq<Report>, id: Id)
    ensures Mine(a + b, id) == Mine(a, id) + Mine(b, id)
  {
    if b == [] {
      assert a + b == a;
    } else {
      var m := |b| - 1;
      MineConcat(a, b[..m], id);
      assert (a + b)[..|a + b| - 1] == a + b[..m];
      hide FirstMatch;
    }
  }

  lemma {:induction false} MineCount(r: seq<Report>, id: Id)
    ensures |Mine(r, id)| == |set i | 0 <= i < |r| && r[i].id == id|
  {
    var all := set i | 0 <= i < |r| && r[i].id == id;
    if r == [] {
      assert all == {};
    } else {
      var m := |r| - 1;
      MineCount(r[..m], id);
      assert |Mine(r, id)| == |Mine(r[..m], id)| + if r[m].id == id then 1 else 0;
      hide Mine;
      var less := set i | 0 <= i < m && r[..m][i].id == id;
      assert all == less + if r[m].id == id then {m} else {};
    }
  }

  // The same over the reports as they come: with at most eight for the remote id before
  // the number is recorded, the wait completes exactly if one carries the id and number,
  // and the first that does says whether it succeeded.
  lemma FirstReportDecides(before: seq<Report>, n: SeqNum, later: seq<Report>, id: Id)
    requires |set i | 0 <= i < |before| && before[i].id == id| <= EARLY_MAX
    ensures var r, w := before + later, After(before, n, later, id);
      && (w.complete <==> exists i | 0 <= i < |r| :: Is(r[i], id, n))
      && (forall i | 0 <= i < |r| && Is(r[i], id, n) && (forall k | 0 <= k < i :: !Is(r[k], id, n)) ::
            w.success == r[i].success)
  {
    MineCount(before, id);
    NothingLost(before, n, later, id);
    MineConcat(before, later, id);
    MineFirst(before + later, id, n);
    hide Mine, After, FirstMatch, Is;
  }

  // The early statuses after the eighth, which are dropped.
  predicate Dropped(i: int, early: nat) {
    EARLY_MAX <= i < early
  }

  // Place i is the first, or the first not dropped, that reports the number.
  ghost predicate First(s: seq<Status>, i: int, n: SeqNum) {
    Has(s, i, n) && forall k | 0 <= k < i :: !Has(s, k, n)
  }

  ghost predicate FirstKept(s: seq<Status>, j: int, n: SeqNum, early: nat) {
    Has(s, j, n) && !Dropped(j, early) && forall k | 0 <= k < j && !Dropped(k, early) :: !Has(s, k, n)
  }

  // The outcome is that of the first report for the number exactly when the number is
  // not reported, or its first report is not dropped, or the first report that is not
  // dropped carries the same status.
  lemma ExactIff(before: seq<Report>, n: SeqNum, later: seq<Report>, id: Id)
    ensures var all, early := Mine(before, id) + Mine(later, id), |Mine(before, id)|;
      Follows(After(before, n, later, id), FirstMatch(all, n)) <==>
      ((forall i :: !Has(all, i, n)) ||
       (exists i :: First(all, i, n) && !Dropped(i, early)) ||
       (exists i, j :: First(all, i, n) && FirstKept(all, j, n, early) && all[i].success == all[j].success))
  {
    Outcome(before, n, later, id);
    var a, b := Mine(before, id), Mine(later, id);
    hide Mine, After;
    FirstMatchExists(a + b, n);
    if FirstMatch(a + b, n).Some? {
      var i := FirstPlace(a + b, n);
      ExactFor(a, b, n, i);
      var all := a + b;
      FollowsOne(After(before, n, later, id), FirstMatch(Heard(before, later, id), n), FirstMatch(all, n));
      assert Has(all, i, n) && First(all, i, n);
      assert (exists k :: First(all, k, n) && !Dropped(k, |a|)) <==> !Dropped(i, |a|);
      assert (exists k, j :: First(all, k, n) && FirstKept(all, j, n, |a|) && all[k].success == all[j].success)
          <==> exists j :: FirstKept(all, j, n, |a|) && all[i].success == all[j].success by {
        hide FirstKept;
      }
    } else {
      HeardNone(a, b, n);
    }
  }

  lemma HeardNone(a: seq<Status>, b: seq<Status>, n: SeqNum)
    requires forall i :: !Has(a + b, i, n)
    ensures FirstMatch(Buffered(a) + b, n) == None
  {
    FirstMatchExists(Buffered(a) + b, n);
    HeardPlaces(a, b, n);
  }

  // The case of a number whose first report is at place i.
  lemma ExactFor(a: seq<Status>, b: seq<Status>, n: SeqNum, i: int)
    requires First(a + b, i, n)
    ensures FirstMatch(a + b, n) == Some((a + b)[i].success)
    ensures FirstMatch(Buffered(a) + b, n) == FirstMatch(a + b, n) <==>
      (!Dropped(i, |a|) || exists j :: FirstKept(a + b, j, n, |a|) && (a + b)[i].success == (a + b)[j].success)
    ensures forall k :: First(a + b, k, n) ==> k == i
  {
    FirstMatchAt(a + b, n, i);
    HeardPlaces(a, b, n);
    FirstMatchExists(Buffered(a) + b, n);
    hide FirstMatch, Buffered;
    if j :| Has(a + b, j, n) && !Dropped(j, |a|) {
      var k := FirstKeptPlace(a + b, n, |a|, j);
      HeardFirst(a, b, n, k);
      assert forall x :: FirstKept(a + b, x, n, |a|) ==> x == k;
    }
  }

  lemma {:induction false} FirstPlace(s: seq<Status>, n: SeqNum) returns (i: nat)
    requires exists k :: Has(s, k, n)
    ensures First(s, i, n)
  {
    var k :| Has(s, k, n);
    i := FirstKeptPlace(s, n, 0, k);
  }

  lemma FirstKeptPlace(s: seq<Status>, n: SeqNum, early: nat, j: nat) returns (i: nat)
    requires Has(s, j, n) && !Dropped(j, early)
    ensures FirstKept(s, i, n, early)
    decreases j
  {
    i := j;
    if k :| 0 <= k < j && !Dropped(k, early) && Has(s, k, n) {
      i := FirstKeptPlace(s, n, early, k);
    }
  }

  lemma {:induction false} FirstMatchAt(s: seq<Status>, n: SeqNum, i: nat)
    requires First(s, i, n)
    ensures FirstMatch(s, n) == Some(s[i].success)
    decreases i
  {
    if i > 0 {
      assert !Has(s, 0, n);
      assert forall k | 0 <= k < i - 1 :: Has(s[1..], k, n) ==> Has(s, k + 1, n);
      FirstMatchAt(s[1..], n, i - 1);
    }
  }

  // The first report that is not dropped is the first one heard.
  lemma HeardFirst(a: seq<Status>, b: seq<Status>, n: SeqNum, j: int)
    requires FirstKept(a + b, j, n, |a|)
    ensures FirstMatch(Buffered(a) + b, n) == Some((a + b)[j].success)
  {
    var h, d := Buffered(a) + b, |a| - |Buffered(a)|;
    var i := if j < |Buffered(a)| then j else j - d;
    assert h[i] == (a + b)[j];
    forall k | 0 <= k < i
      ensures !Has(h, k, n)
    {
      var x := if k < |Buffered(a)| then k else k + d;
      assert h[k] == (a + b)[x] && !Has(a + b, x, n);
    }
    FirstMatchAt(h, n, i);
  }

  // In general a reported status is missed exactly when the number is reported only by
  // early statuses after the eighth.
  lemma LostIff(before: seq<Report>, n: SeqNum, later: seq<Report>, id: Id)
    ensures var all := Mine(before, id) + Mine(later, id);
      (FirstMatch(all, n).Some? && !After(before, n, later, id).complete) <==>
      ((exists i :: Has(all, i, n)) &&
       (forall i | Has(all, i, n) :: EARLY_MAX <= i < |Mine(before, id)|))
  {
    Outcome(before, n, later, id);
    var a, b := Mine(before, id), Mine(later, id);
    var heard := Buffered(a) + b;
    FirstMatchExists(a + b, n);
    FirstMatchExists(heard, n);
    hide FirstMatch, Mine, After;
    HeardPlaces(a, b, n);
  }

  lemma HeardPlaces(a: seq<Status>, b: seq<Status>, n: SeqNum)
    ensures (exists i :: Has(Buffered(a) + b, i, n)) <==> (exists i :: Has(a + b, i, n) && !(EARLY_MAX <= i < |a|))
  {
    if i :| Has(Buffered(a) + b, i, n) {
      HeardIsReported(a, b, n, i);
    }
    if i :| Has(a + b, i, n) && !(EARLY_MAX <= i < |a|) {
      ReportedIsHeard(a, b, n, i);
    }
  }

  lemma HeardIsReported(a: seq<Status>, b: seq<Status>, n: SeqNum, i: int)
    requires Has(Buffered(a) + b, i, n)
    ensures exists j :: Has(a + b, j, n) && !(EARLY_MAX <= j < |a|)
  {
    var j := if i < |Buffered(a)| then i else i + (|a| - |Buffered(a)|);
    assert Has(a + b, j, n);
  }

  lemma ReportedIsHeard(a: seq<Status>, b: seq<Status>, n: SeqNum, i: int)
    requires Has(a + b, i, n) && !(EARLY_MAX <= i < |a|)
    ensures exists j :: Has(Buffered(a) + b, j, n)
  {
    assert Has(Buffered(a) + b, if i < |a| then i else i - (|a| - |Buffered(a)|), n);
  }

  // The ninth early status, were it the acknowledgement waited for, is lost.
  lemma NinthLost(id: Id, n: SeqNum, m: SeqNum)
    requires m != n
    ensures !After(seq(8, _ => Report(id, m, true)) + [Report(id, n, true)], n, [], id).complete
  {
    var eight := seq(8, _ => Report(id, m, true));
    var before := eight + [Report(id, n, true)];
    MineRepeated(id, m, 8);
    assert before[..|before| - 1] == eight;
    assert Buffered(Mine(before, id)) == seq(8, _ => Status(m, true));
    Outcome(before, n, [], id);
    FirstMatchExists(seq(8, _ => Status(m, true)), n);
    assert Mine([], id) == [] && Heard(before, [], id) == seq(8, _ => Status(m, true));
  }

  lemma {:induction false} MineRepeated(id: Id, m: SeqNum, k: nat)
    ensures Mine(seq(k, _ => Report(id, m, true)), id) == seq(k, _ => Status(m, true))
  {
    if k > 0 {
      MineRepeated(id, m, k - 1);
      assert seq(k, _ => Report(id, m, true))[..k - 1] == seq(k - 1, _ => Report(id, m, true));
    }
  }

  // The ninth early status is the acknowledgement, and a failure reported later decides.
  lemma EarlyAckOverruled(id: Id, n: SeqNum, m: SeqNum)
    requires m != n
    ensures var before := seq(8, _ => Report(id, m, true)) + [Report(id, n, true)];
      var w := After(before, n, [Report(id, n, false)], id);
      && FirstMatch(Mine(before, id) + Mine([Report(id, n, false)], id), n) == Some(true)
      && w.complete && !w.success
  {
    var eight, last := seq(8, _ => Status(m, true)), Report(id, n, false);
    var before := seq(8, _ => Report(id, m, true)) + [Report(id, n, true)];
    MineRepeated(id, m, 8);
    assert before[..|before| - 1] == seq(8, _ => Report(id, m, true));
    assert Mine(before, id) == eight + [Status(n, true)];
    assert Mine([last], id) == [Status(n, false)] by { assert [last][..0] == []; }
    hide Mine;
    Outcome(before, n, [last], id);
    assert Buffered(eight + [Status(n, true)]) == eight;
    FirstMatchAt(eight + [Status(n, false)], n, 8);
    FirstMatchAt(eight + [Status(n, true)] + [Status(n, false)], n, 8);
  }
}
