// The receiving side of the DataBus: a ring buffer of recently accepted sequence
// numbers per remote id, and the filter built on it.

module DuplicateFilter {
  import opened Packets

  // Everything ever accepted, oldest first.
  type Accepted = seq<SeqNum>

  // The last n entries (all of them if there are fewer).
  function Recent(a: Accepted, n: nat): Accepted {
    if |a| <= n then a else a[|a| - n..]
  }

  // A number is offered: it is kept unless it is among the last n accepted.
  function Offer(a: Accepted, s: SeqNum, n: nat): Accepted {
    if s in Recent(a, n) then a else a + [s]
  }

  function OfferAll(a: Accepted, offers: seq<SeqNum>, n: nat): Accepted
    decreases offers
  {
    if offers == [] then a else OfferAll(Offer(a, offers[0], n), offers[1..], n)
  }

  // Equal entries are more than n places apart.
  ghost predicate Spaced(a: Accepted, n: nat) {
    forall i, j | 0 <= i < j < |a| && a[i] == a[j] :: j - i > n
  }

  lemma RecentHas(a: Accepted, n: nat)
    ensures forall i | 0 <= i < |a| && |a| - i <= n :: a[i] in Recent(a, n)
  {
    forall i | 0 <= i < |a| && |a| - i <= n
      ensures a[i] in Recent(a, n)
    {
      assert Recent(a, n)[if |a| <= n then i else i - (|a| - n)] == a[i];
    }
  }

  lemma RecentIff(a: Accepted, s: SeqNum, n: nat)
    ensures s in Recent(a, n) <==> exists i | 0 <= i < |a| && |a| - i <= n :: a[i] == s
  {
    RecentHas(a, n);
    var d := if |a| <= n then 0 else |a| - n;
    assert forall k | 0 <= k < |Recent(a, n)| :: Recent(a, n)[k] == a[k + d];
  }

  lemma OfferKeepsSpaced(a: Accepted, s: SeqNum, n: nat)
    requires Spaced(a, n)
    ensures Spaced(Offer(a, s, n), n)
  {
    RecentHas(a, n);
  }

  // In every run the remembered numbers are pairwise distinct.
  lemma {:induction false} RunKeepsSpaced(a: Accepted, offers: seq<SeqNum>, n: nat)
    requires Spaced(a, n)
    ensures Spaced(OfferAll(a, offers, n), n)
    ensures a <= OfferAll(a, offers, n)
    decreases offers
  {
    if offers != [] {
      OfferKeepsSpaced(a, offers[0], n);
      RunKeepsSpaced(Offer(a, offers[0], n), offers[1..], n);
    }
  }

  lemma SpacedRecentDistinct(a: Accepted, n: nat)
    requires Spaced(a, n)
    ensures forall i, j | 0 <= i < j < |Recent(a, n)| :: Recent(a, n)[i] != Recent(a, n)[j]
  {
    var r := Recent(a, n);
    forall i, j | 0 <= i < j < |r|
      ensures r[i] != r[j]
    {
      var d := |a| - |r|;
      assert r[i] == a[i + d] && r[j] == a[j + d];
    }
  }

  // A number accepted at place p is refused later exactly as long as fewer than n
  // further numbers have been accepted since its latest acceptance.
  lemma LaterCopyRefused(a: Accepted, n: nat, p: nat)
    requires Spaced(a, n) && p < |a|
    requires forall i | p < i < |a| :: a[i] != a[p]
    ensures Offer(a, a[p], n) == a <==> |a| - 1 - p < n
  {
    var r := Recent(a, n);
    var d := |a| - |r|;
    if |a| - 1 - p < n {
      assert r[p - d] == a[p];
    } else {
      forall i | 0 <= i < |r|
        ensures r[i] != a[p]
      {
        assert r[i] == a[i + d];
      }
      assert |Offer(a, a[p], n)| == |a| + 1;
    }
  }

  // Without the bound on intervening traffic a copy does get through: after n
  // further numbers the first one is accepted again.
  lemma ForgottenCopyAccepted(n: nat, first: SeqNum, between: seq<SeqNum>)
    requires |between| == n && first !in between
    requires forall i, j | 0 <= i < j < n :: between[i] != between[j]
    ensures OfferAll([], [first] + between + [first], n) == [first] + between + [first]
  {
    var a := [first] + between;
    assert forall i, j | 0 <= i < j < |a| :: a[i] != a[j];
    assert [] + a == a;
    FreshRun([], a, n);
    RunConcat([], a, [first], n);
    assert Recent(a, n) == between;
    OfferOne(a, first, n);
  }

  lemma OfferOne(a: Accepted, s: SeqNum, n: nat)
    ensures OfferAll(a, [s], n) == Offer(a, s, n)
  {
    assert [s][1..] == [];
    assert OfferAll(Offer(a, s, n), [], n) == Offer(a, s, n);
  }

  // A concrete run with the default history of eight.
  lemma ForgottenCopyExample()
    ensures OfferAll([], [7] + [0, 1, 2, 3, 4, 5, 6, 8] + [7], 8) == [7] + [0, 1, 2, 3, 4, 5, 6, 8] + [7]
  {
    ForgottenCopyAccepted(8, 7, [0, 1, 2, 3, 4, 5, 6, 8]);
  }

  lemma {:induction false} RunConcat(a: Accepted, x: seq<SeqNum>, y: seq<SeqNum>, n: nat)
    ensures OfferAll(a, x + y, n) == OfferAll(OfferAll(a, x, n), y, n)
    decreases x
  {
    if x == [] {
      assert x + y == y;
    } else {
      assert (x + y)[1..] == x[1..] + y;
      RunConcat(Offer(a, x[0], n), x[1..], y, n);
    }
  }

  lemma {:induction false} FreshRun(a: Accepted, x: seq<SeqNum>, n: nat)
    requires forall i, j | 0 <= i < j < |a + x| :: (a + x)[i] != (a + x)[j]
    ensures OfferAll(a, x, n) == a + x
    decreases x
  {
    if x == [] {
      assert a + x == a;
    } else {
      assert (a + x)[|a|] == x[0];
      forall i | 0 <= i < |a|
        ensures a[i] != x[0]
      {
        assert (a + x)[i] == a[i];
      }
      assert a + x == (a + [x[0]]) + x[1..];
      FreshRun(a + [x[0]], x[1..], n);
    }
  }
}

module SeqHistoryRing {
  import opened Packets
  import opened DuplicateFilter

  // (h + 1) % n for a place h of a ring of n.
  lemma RingNext(h: nat, n: nat)
    requires h < n
    ensures (h + 1) % n == if h + 1 == n then 0 else h + 1
  {
    if h + 1 == n {
      assert n % n == 0;
    }
  }

  // buf, ok and head hold exactly the recent part of a.
  ghost predicate Holds(buf: seq<SeqNum>, ok: seq<bool>, head: nat, a: Accepted, n: nat) {
    && |buf| == |ok| == n && head < n
    && (if |a| < n then
          && head == |a| && buf[..head] == a
          && (forall i | 0 <= i < n :: ok[i] <==> i < head)
        else
          && (forall i | 0 <= i < n :: ok[i])
          && buf[head..] + buf[..head] == Recent(a, n))
  }

  // Scanning the valid places finds what is remembered, whatever the ring's turn.
  lemma ScanFinds(buf: seq<SeqNum>, ok: seq<bool>, head: nat, a: Accepted, n: nat, s: SeqNum)
    requires Holds(buf, ok, head, a, n) && s in Recent(a, n)
    ensures exists i | 0 <= i < n :: ok[i] && buf[i] == s
  {
    var r := Recent(a, n);
    var k :| 0 <= k < |r| && r[k] == s;
    if |a| < n {
      assert r == buf[..head];
      assert ok[k] && buf[k] == s;
    } else {
      assert r == buf[head..] + buf[..head];
      var i := if k < n - head then head + k else k - (n - head);
      assert ok[i] && buf[i] == s;
    }
  }

  lemma ScanSound(buf: seq<SeqNum>, ok: seq<bool>, head: nat, a: Accepted, n: nat, i: nat)
    requires Holds(buf, ok, head, a, n) && i < n && ok[i]
    ensures buf[i] in Recent(a, n)
  {
    var r := Recent(a, n);
    if |a| < n {
      assert r == buf[..head];
      assert r[i] == buf[i];
    } else {
      assert r == buf[head..] + buf[..head];
      assert r[if i >= head then i - head else i + (n - head)] == buf[i];
    }
  }

  lemma Rotate(buf: seq<SeqNum>, ok: seq<bool>, head: nat, a: Accepted, n: nat, s: SeqNum)
    requires Holds(buf, ok, head, a, n)
    ensures Holds(buf[head := s], ok[head := true], (head + 1) % n, a + [s], n)
  {
    RingNext(head, n);
    var after := buf[head := s];
    if |a| < n {
      assert after[..head + 1] == buf[..head] + [s];
      if head + 1 == n {
        assert after[0..] + after[..0] == after == after[..head + 1];
      }
    } else {
      var h := (head + 1) % n;
      assert buf[head..] + buf[..head] == Recent(a, n);
      assert Recent(a + [s], n) == Recent(a, n)[1..] + [s];
      assert after[h..] + after[..h] == (buf[head..] + buf[..head])[1..] + [s];
    }
  }

  class SeqHistory {
    const size: nat
    const buffer: array<SeqNum>
    const valid: array<bool>
    var head: nat
    ghost var accepted: Accepted

    ghost predicate Valid()
      reads this, buffer, valid
    {
      Holds(buffer[..], valid[..], head, accepted, size) && Spaced(accepted, size)
    }

    constructor (n: nat)
      requires n > 0
      ensures Valid() && fresh(buffer) && fresh(valid)
      ensures size == n && accepted == []
    {
      size := n;
      buffer := new SeqNum[n](_ => 0);
      valid := new bool[n](_ => false);
      head := 0;
      accepted := [];
      new;
      assert buffer[..][..0] == [];
    }

    method IsDuplicate(s: SeqNum) returns (dup: bool)
      requires Valid()
      modifies this, buffer, valid
      ensures Valid()
      ensures dup <==> s in Recent(old(accepted), size)
      ensures accepted == Offer(old(accepted), s, size)
    {
      var i := 0;
      while i < size
        invariant 0 <= i <= size
        invariant forall k | 0 <= k < i :: !(valid[..][k] && buffer[..][k] == s)
      {
        if valid[i] && buffer[i] == s {
          ScanSound(buffer[..], valid[..], head, accepted, size, i);
          return true;
        }
        i := i + 1;
      }
      if s in Recent(accepted, size) {
        ScanFinds(buffer[..], valid[..], head, accepted, size, s);
        assert false;
      }
      OfferKeepsSpaced(accepted, s, size);
      Rotate(buffer[..], valid[..], head, accepted, size, s);
      ghost var before, beforeOk := buffer[..], valid[..];
      buffer[head] := s;
      valid[head] := true;
      assert buffer[..] == before[head := s] && valid[..] == beforeOk[head := true];
      head := (head + 1) % size;
      accepted := accepted + [s];
      return false;
    }
  }
}

module Participants {
  import opened Packets
  import opened DuplicateFilter
  import opened SeqHistoryRing

  // What one call of ProcessIncoming did with the packet it read.
  datatype Outcome = Failed(code: int) | BadMarker | Dropped | Invoked(id: Id, payload: Bytes) | NoChannel(id: Id)

  // What a packet does to the history kept for one id.
  function Filtered(a: Accepted, id: Id, p: Packet, n: nat): Accepted {
    if p.header.marker == HEADER_MARKER && p.header.id == id && id != ACK_REMOTE_ID then
      Offer(a, p.header.seqNum, n)
    else a
  }

  // What becomes of a packet, given the history kept for its id.
  function Fate(a: Accepted, p: Packet, n: nat, channels: set<Id>): Outcome {
    if p.header.marker != HEADER_MARKER then BadMarker
    else if p.header.id != ACK_REMOTE_ID && p.header.seqNum in Recent(a, n) then Dropped
    else if p.header.id in channels then Invoked(p.header.id, p.payload)
    else NoChannel(p.header.id)
  }

  ghost predicate Apart(g: SeqHistory, h: SeqHistory) {
    g != h && g.buffer != h.buffer && g.valid != h.valid
  }

  class Participant {
    const size: nat
    var history: map<Id, SeqHistory>
    var channels: set<Id>
    ghost var repr: set<object>

    ghost predicate Owned(h: SeqHistory)
      reads this, repr
    {
      && h in repr && h.buffer in repr && h.valid in repr
      && this !in {h as object, h.buffer, h.valid}
      && h.size == size && h.Valid()
    }

    ghost predicate Valid()
      reads this, repr
    {
      && size > 0
      && (forall id | id in history :: Owned(history[id]))
      && (forall i, j | i in history && j in history && i != j :: Apart(history[i], history[j]))
    }

    ghost function At(id: Id): Accepted
      reads this, repr
      requires Valid()
    {
      if id in history then history[id].accepted else []
    }

    constructor (n: nat)
      requires n > 0
      ensures Valid() && size == n && channels == {} && fresh(repr)
      ensures forall id :: At(id) == []
    {
      size := n;
      history := map[];
      channels := {};
      repr := {};
    }

    method RegisterHandler(id: Id)
      requires Valid()
      modifies `channels
      ensures Valid() && channels == old(channels) + {id}
      ensures forall i :: At(i) == old(At(i))
    {
      channels := channels + {id};
    }

    // result and packet are what the transport's Receive delivers.
    method ProcessIncoming(result: int, p: Packet) returns (code: int, outcome: Outcome)
      requires Valid()
      modifies this, repr
      ensures Valid() && channels == old(channels) && fresh(repr - old(repr))
      ensures result != 0 ==> code == result && outcome == Failed(result)
      ensures result != 0 ==> forall id :: At(id) == old(At(id))
      ensures result == 0 && p.header.marker != HEADER_MARKER ==>
                code == -1 && outcome == BadMarker && forall id :: At(id) == old(At(id))
      ensures result == 0 && p.header.marker == HEADER_MARKER ==>
                var id, a := p.header.id, old(At(p.header.id));
                var seen := id != ACK_REMOTE_ID
                            && exists k | 0 <= k < |a| && |a| - k <= size :: a[k] == p.header.seqNum;
                && code == 0
                && outcome == (if seen then Dropped
                               else if id in channels then Invoked(id, p.payload) else NoChannel(id))
                && At(id) == (if seen || id == ACK_REMOTE_ID then a else a + [p.header.seqNum])
                && forall i | i != id :: At(i) == old(At(i))
      ensures result == 0 ==> outcome == Fate(old(At(p.header.id)), p, size, channels)
      ensures result == 0 ==> forall id :: At(id) == Filtered(old(At(id)), id, p, size)
    {
      RecentIff(At(p.header.id), p.header.seqNum, size);
      if result != 0 {
        return result, Failed(result);
      }
      if p.header.marker != HEADER_MARKER {
        return -1, BadMarker;
      }
      if p.header.id != ACK_REMOTE_ID {
        var dup := FilterDuplicate(p.header.id, p.header.seqNum);
        if dup {
          return 0, Dropped;
        }
      }
      if p.header.id in channels {
        return 0, Invoked(p.header.id, p.payload);
      }
      return 0, NoChannel(p.header.id);
    }

    // The filter's critical section: look the ring up (creating it on first use)
    // and offer the number to it.
    method FilterDuplicate(id: Id, s: SeqNum) returns (dup: bool)
      requires Valid()
      modifies this, repr
      ensures Valid() && channels == old(channels) && fresh(repr - old(repr))
      ensures dup <==> s in Recent(old(At(id)), size)
      ensures forall i :: At(i) == if i == id then Offer(old(At(id)), s, size) else old(At(i))
    {
      if id !in history {
        AddRing(id);
      }
      dup := OfferTo(id, s);
    }

    method AddRing(id: Id)
      requires Valid() && id !in history
      modifies this, repr
      ensures Valid() && channels == old(channels) && fresh(repr - old(repr))
      ensures id in history
      ensures forall i :: At(i) == old(At(i))
    {
      var ring := new SeqHistory(size);
      history := history[id := ring];
      repr := repr + {ring, ring.buffer, ring.valid};
    }

    method OfferTo(id: Id, s: SeqNum) returns (dup: bool)
      requires Valid() && id in history
      modifies repr
      ensures Valid() && channels == old(channels) && repr == old(repr)
      ensures dup <==> s in Recent(old(At(id)), size)
      ensures forall i :: At(i) == if i == id then Offer(old(At(id)), s, size) else old(At(i))
    {
      hide Recent, Offer, Holds, Spaced;
      var h := history[id];
      dup := h.IsDuplicate(s);
      forall i | i in history && i != id
        ensures Owned(history[i]) && history[i].accepted == old(history[i].accepted)
      {
        assert Apart(history[i], h);
      }
    }
  }
}
