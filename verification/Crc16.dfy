// CRC-CCITT: the table-driven and the bit-by-bit routine compute the same value,
// that value is the remainder of a polynomial long division, and no burst of up
// to sixteen bits goes undetected.

module Crc16 {
  import opened Crc16Register
  import Table = Crc16Table

  type Byte = bv8
  type Bits = seq<bool>

  // ---------------------------------------------------------------------------
  // The register, one message bit at a time
  // ---------------------------------------------------------------------------

  function Feed(m: Bits, c: bv16): bv16 {
    if m == [] then c else Feed(m[1..], BitStep(c, m[0]))
  }

  // Message bytes, most significant bit first.
  function ByteBits(b: Byte): (m: Bits)
    ensures |m| == 8
  {
    [b & 0x80 != 0, b & 0x40 != 0, b & 0x20 != 0, b & 0x10 != 0,
     b & 0x08 != 0, b & 0x04 != 0, b & 0x02 != 0, b & 0x01 != 0]
  }

  function MessageBits(msg: seq<Byte>): (m: Bits)
    ensures |m| == 8 * |msg|
  {
    if msg == [] then [] else ByteBits(msg[0]) + MessageBits(msg[1..])
  }

  function Crc(msg: seq<Byte>, c: bv16): bv16 {
    Feed(MessageBits(msg), c)
  }

  lemma {:induction false} FeedConcat(m: Bits, n: Bits, c: bv16)
    ensures Feed(m + n, c) == Feed(n, Feed(m, c))
  {
    hide BitStep;
    if m == [] {
      assert m + n == n;
    } else {
      assert (m + n)[1..] == m[1..] + n;
      FeedConcat(m[1..], n, BitStep(c, m[0]));
    }
  }

  lemma {:induction false} MessageBitsConcat(a: seq<Byte>, b: seq<Byte>)
    ensures MessageBits(a + b) == MessageBits(a) + MessageBits(b)
  {
    hide ByteBits;
    if a == [] {
      assert a + b == b;
    } else {
      assert (a + b)[1..] == a[1..] + b;
      MessageBitsConcat(a[1..], b);
    }
  }

  // A CRC may be continued over the next block from the previous block's value.
  lemma Composes(a: seq<Byte>, b: seq<Byte>, c: bv16)
    ensures Crc(a + b, c) == Crc(b, Crc(a, c))
  {
    MessageBitsConcat(a, b);
    FeedConcat(MessageBits(a), MessageBits(b), c);
    hide Feed, MessageBits;
  }

  // ---------------------------------------------------------------------------
  // The two routines
  // ---------------------------------------------------------------------------

  lemma FeedSnoc(m: Bits, b: bool, c: bv16)
    ensures Feed(m + [b], c) == BitStep(Feed(m, c), b)
  {
    hide BitStep;
    FeedConcat(m, [b], c);
    assert Feed([b], Feed(m, c)) == BitStep(Feed(m, c), b);
  }

  lemma CrcSnoc(msg: seq<Byte>, k: nat, c: bv16)
    requires k < |msg|
    ensures Crc(msg[..k + 1], c) == Feed(ByteBits(msg[k]), Crc(msg[..k], c))
  {
    hide BitStep, ByteBits;
    assert msg[..k + 1] == msg[..k] + [msg[k]];
    Composes(msg[..k], [msg[k]], c);
    assert MessageBits([msg[k]]) == ByteBits(msg[k]) + MessageBits([]);
    assert ByteBits(msg[k]) + MessageBits([]) == ByteBits(msg[k]);
  }

  // The byte's bits are those the data word shows on top, shift after shift.
  lemma ByteBitsOnTop(b: Byte, i: nat)
    requires i < 8
    ensures IsTop(UpN((b as bv16) << 8, i)) == ByteBits(b)[i]
  {
    RawBits(b);
    UpTower((b as bv16) << 8);
    hide Up, UpN, IsTop;
  }

  lemma UpTower(w: bv16)
    ensures UpN(w, 0) == w
    ensures UpN(w, 1) == Up(w)
    ensures UpN(w, 2) == Up(Up(w))
    ensures UpN(w, 3) == Up(Up(Up(w)))
    ensures UpN(w, 4) == Up(Up(Up(Up(w))))
    ensures UpN(w, 5) == Up(Up(Up(Up(Up(w)))))
    ensures UpN(w, 6) == Up(Up(Up(Up(Up(Up(w))))))
    ensures UpN(w, 7) == Up(Up(Up(Up(Up(Up(Up(w)))))))
  {
    assert UpN(w, 0) == w;
    hide Up, UpN;
    UpNext(w, 0);
    UpNext(w, 1);
    UpNext(w, 2);
    UpNext(w, 3);
    UpNext(w, 4);
    UpNext(w, 5);
    UpNext(w, 6);
  }

  lemma RawBits(b: Byte)
    ensures IsTop((b as bv16) << 8) <==> b & 0x80 != 0
    ensures IsTop(Up((b as bv16) << 8)) <==> b & 0x40 != 0
    ensures IsTop(Up(Up((b as bv16) << 8))) <==> b & 0x20 != 0
    ensures IsTop(Up(Up(Up((b as bv16) << 8)))) <==> b & 0x10 != 0
    ensures IsTop(Up(Up(Up(Up((b as bv16) << 8))))) <==> b & 0x08 != 0
    ensures IsTop(Up(Up(Up(Up(Up((b as bv16) << 8)))))) <==> b & 0x04 != 0
    ensures IsTop(Up(Up(Up(Up(Up(Up((b as bv16) << 8))))))) <==> b & 0x02 != 0
    ensures IsTop(Up(Up(Up(Up(Up(Up(Up((b as bv16) << 8)))))))) <==> b & 0x01 != 0
  {}

  lemma LoopStarts(b: Byte, start: bv16, init: bv16)
    ensures UpN((b as bv16) << 8, 0) == (b as bv16) << 8
    ensures Feed([], start) == start && Crc([], init) == init
  {}

  // One turn of the inner loop.
  lemma InnerTurn(b: Byte, i: nat, start: bv16, crc: bv16, data: bv16)
    requires i < 8 && data == UpN((b as bv16) << 8, i) && crc == Feed(ByteBits(b)[..i], start)
    ensures UpN((b as bv16) << 8, i + 1) == Up(data)
    ensures Feed(ByteBits(b)[..i + 1], start) == BitStep(crc, IsTop(data))
  {
    hide *;
    UpNext((b as bv16) << 8, i);
    ByteBitsOnTop(b, i);
    FeedSnoc(ByteBits(b)[..i], ByteBits(b)[i], start);
    assert ByteBits(b)[..i + 1] == ByteBits(b)[..i] + [ByteBits(b)[i]];
  }

  // The loop-based form of Crc16CalcBlock.
  method CalcBlockByLoop(msg: seq<Byte>, init: bv16 := 0xFFFF) returns (crc: bv16)
    ensures crc == Crc(msg, init)
  {
    hide *;
    crc := init;
    var k := 0;
    LoopStarts(0, 0, init);
    assert msg[..0] == [];
    while k < |msg|
      invariant 0 <= k <= |msg|
      invariant crc == Crc(msg[..k], init)
    {
      LoopStarts(msg[k], crc, init);
      assert ByteBits(msg[k])[..0] == [];
      var data := (msg[k] as bv16) << 8;
      ghost var start := crc;
      var i := 8;
      while i > 0
        invariant 0 <= i <= 8
        invariant data == UpN((msg[k] as bv16) << 8, 8 - i)
        invariant crc == Feed(ByteBits(msg[k])[..8 - i], start)
      {
        InnerTurn(msg[k], 8 - i, start, crc, data);
        LoopStep(crc, data);
        LoopRaw(crc, data);
        if (data ^ crc) & 0x8000 != 0 {
          crc := (crc << 1) ^ POLY;
        } else {
          crc := crc << 1;
        }
        data := data << 1;
        i := i - 1;
      }
      CrcSnoc(msg, k, init);
      assert ByteBits(msg[k])[..8] == ByteBits(msg[k]);
      k := k + 1;
    }
    assert msg[..|msg|] == msg;
  }

  // The table-driven form of Crc16CalcBlock.
  method CalcBlockByTable(msg: seq<Byte>, init: bv16 := 0xFFFF) returns (crc: bv16)
    ensures crc == Crc(msg, init)
  {
    hide *;
    crc := init;
    var k := 0;
    LoopStarts(0, 0, init);
    assert msg[..0] == [];
    while k < |msg|
      invariant 0 <= k <= |msg|
      invariant crc == Crc(msg[..k], init)
    {
      CrcSnoc(msg, k, init);
      TableStep(crc, msg[k]);
      crc := Table.Turn(crc, msg[k]);
      k := k + 1;
    }
    assert msg[..|msg|] == msg;
  }

  // The register and the bits still to come, held in one word.
  lemma {:induction false} FeedHeld(c: bv16, w: bv16, n: nat)
    ensures Plus(Feed(TopBits(w, n), c), UpN(w, n)) == ShiftN(Plus(c, w), n)
    decreases n
  {
    hide Plus, Shift, BitStep, Up, IsTop;
    if n > 0 {
      AbsorbTop(c, w);
      assert TopBits(w, n)[1..] == TopBits(Up(w), n - 1);
      FeedHeld(BitStep(c, IsTop(w)), Up(w), n - 1);
    }
  }

  lemma ByteStep(c: bv16, b: Byte)
    ensures Feed(ByteBits(b), c) == Shift8(Plus(c, (b as bv16) << 8))
  {
    var w := (b as bv16) << 8;
    FeedHeld(c, w, 8);
    assert UpN(w, 8) == 0 by {
      UpSum(w, 4, 4);
      UpByFour(w);
      UpByFour(w << 4);
      assert (w << 4) << 4 == 0;
    }
    ShiftNEight(Plus(c, w));
    PlusZero(Feed(TopBits(w, 8), c));
    hide *;
    forall i | 0 <= i < 8
      ensures ByteBits(b)[i] == TopBits(w, 8)[i]
    {
      ByteBitsOnTop(b, i);
      TopBitsAt(w, 8, i);
    }
    assert ByteBits(b) == TopBits(w, 8);
  }

  lemma ShiftNEight(c: bv16)
    ensures ShiftN(c, 8) == Shift8(c)
  {
    hide Shift;
    var d := Shift(Shift(Shift(Shift(c))));
    assert ShiftN(c, 8) == ShiftN(d, 4);
    assert ShiftN(d, 4) == Shift(Shift(Shift(Shift(d))));
  }

  lemma TableStep(c: bv16, b: Byte)
    ensures Feed(ByteBits(b), c) == Table.Turn(c, b)
  {
    ByteStep(c, b);
    Table.TurnMatches(c, b);
    hide *;
  }

  // ---------------------------------------------------------------------------
  // Linearity and injectivity over whole messages
  // ---------------------------------------------------------------------------

  function Xor(m: Bits, n: Bits): (d: Bits)
    requires |m| == |n|
    ensures |d| == |m|
    ensures forall i | 0 <= i < |m| :: d[i] == (m[i] != n[i])
  {
    seq(|m|, i requires 0 <= i < |m| => m[i] != n[i])
  }

  // The difference of two runs is the run of the difference.
  lemma {:induction false} FeedLinear(m: Bits, n: Bits, a: bv16, b: bv16)
    requires |m| == |n|
    ensures Feed(Xor(m, n), Plus(a, b)) == Plus(Feed(m, a), Feed(n, b))
  {
    hide Plus, BitStep;
    if m != [] {
      assert Xor(m, n)[1..] == Xor(m[1..], n[1..]);
      BitStepLinear(a, b, m[0], n[0]);
      FeedLinear(m[1..], n[1..], BitStep(a, m[0]), BitStep(b, n[0]));
    }
  }

  ghost predicate Quiet(m: Bits) {
    forall i | 0 <= i < |m| :: !m[i]
  }

  lemma QuietStep(c: bv16)
    ensures BitStep(c, false) == 0 <==> c == 0
  {
    PlusZero(c);
    ShiftZero();
    if Shift(c) == 0 { ShiftKernel(c); }
    hide Plus, Shift;
  }

  lemma {:induction false} QuietKeepsZero(m: Bits, c: bv16)
    requires Quiet(m)
    ensures Feed(m, c) == 0 <==> c == 0
  {
    hide BitStep;
    if m != [] {
      QuietStep(c);
      QuietKeepsZero(m[1..], BitStep(c, false));
    }
  }

  // Up to sixteen bits, written from the top of a word down.
  function Align(m: Bits): bv16 {
    if m == [] then 0 else Hold(m[0], Align(m[1..]))
  }

  function Below(n: nat): bv16 {
    if n == 0 then 0xFFFF else Down(Below(n - 1))
  }

  lemma BelowOdd(n: nat)
    requires n <= 15
    ensures Below(n) & 1 == 1
  {
    assert Below(1) == 0x7FFF && Below(2) == 0x3FFF && Below(3) == 0x1FFF && Below(4) == 0x0FFF;
    assert Below(5) == 0x07FF && Below(6) == 0x03FF && Below(7) == 0x01FF && Below(8) == 0x00FF;
    assert Below(9) == 0x007F && Below(10) == 0x003F && Below(11) == 0x001F && Below(12) == 0x000F;
    assert Below(13) == 7 && Below(14) == 3 && Below(15) == 1;
  }

  lemma {:induction false} AlignAbove(m: Bits)
    ensures Disjoint(Align(m), Below(|m|))
  {
    if m == [] {
      DisjointZero(Below(0));
    } else {
      hide Hold, Down, Disjoint;
      AlignAbove(m[1..]);
      HoldDisjoint(m[0], Align(m[1..]), Below(|m| - 1));
    }
  }

  lemma AlignEven(m: Bits)
    requires |m| <= 15
    ensures Align(m) & 1 == 0
  {
    hide Align, Below;
    AlignAbove(m);
    BelowOdd(|m|);
    EvenFromMask(Align(m), Below(|m|));
  }

  // Feeding a short message into a register that already holds it clears it,
  // and only the silent message is held as zero.
  lemma {:induction false} AlignAbsorbed(m: Bits)
    requires |m| <= 16
    ensures Feed(m, Align(m)) == 0
    ensures Align(m) == 0 ==> Quiet(m)
  {
    hide BitStep, Hold;
    if m != [] {
      AlignEven(m[1..]);
      HeldBit(m[0], Align(m[1..]));
      AlignAbsorbed(m[1..]);
      assert forall i | 0 < i < |m| :: m[i] == m[1..][i - 1];
    }
  }

  // A register started at zero is zero after at most sixteen bits only if all
  // of them were zero.
  lemma BurstSeen(w: Bits)
    requires |w| <= 16 && Feed(w, 0) == 0
    ensures Quiet(w)
  {
    hide Feed, Plus, Align;
    AlignAbsorbed(w);
    FeedLinear(w, w, Align(w), 0);
    assert Quiet(Xor(w, w));
    PlusZero(0);
    PlusZero(Align(w));
    QuietKeepsZero(Xor(w, w), Align(w));
  }

  lemma ByteBitsInjective(a: Byte, b: Byte)
    requires ByteBits(a) == ByteBits(b)
    ensures a == b
  {
    var x, y := ByteBits(a), ByteBits(b);
    assert x[0] == y[0] && x[1] == y[1] && x[2] == y[2] && x[3] == y[3];
    assert x[4] == y[4] && x[5] == y[5] && x[6] == y[6] && x[7] == y[7];
  }

  lemma {:induction false} BitsDetermineMessage(a: seq<Byte>, b: seq<Byte>)
    requires MessageBits(a) == MessageBits(b)
    ensures a == b
  {
    hide ByteBits;
    assert |a| == |b|;
    if a != [] {
      var x, y := MessageBits(a), MessageBits(b);
      assert ByteBits(a[0]) == x[..8] && ByteBits(b[0]) == y[..8];
      assert MessageBits(a[1..]) == x[8..] && MessageBits(b[1..]) == y[8..];
      ByteBitsInjective(a[0], b[0]);
      BitsDetermineMessage(a[1..], b[1..]);
      assert a == [a[0]] + a[1..] && b == [b[0]] + b[1..];
    }
  }

  // A nonzero message confined to sixteen consecutive bits does not run to zero.
  lemma WindowSeen(d: Bits, p: nat)
    requires forall i | 0 <= i < |d| && !(p <= i < p + 16) :: !d[i]
    requires Feed(d, 0) == 0
    ensures Quiet(d)
  {
    hide Feed;
    var lo := if p < |d| then p else |d|;
    var hi := if p + 16 < |d| then p + 16 else |d|;
    var head, w, tail := d[..lo], d[lo..hi], d[hi..];
    assert d == head + (w + tail);
    FeedConcat(head, w + tail, 0);
    FeedConcat(w, tail, Feed(head, 0));
    QuietKeepsZero(head, 0);
    QuietKeepsZero(tail, Feed(w, 0));
    BurstSeen(w);
    forall i | 0 <= i < |d|
      ensures !d[i]
    {
      if lo <= i < hi { assert d[i] == w[i - lo]; }
    }
  }

  // Two equal-length messages that differ only within sixteen consecutive bits
  // have different CRCs, whatever their length, the position and the initial value.
  lemma BurstDetected(a: seq<Byte>, b: seq<Byte>, init: bv16, p: nat)
    requires |a| == |b| && a != b
    requires forall i | 0 <= i < 8 * |a| && !(p <= i < p + 16) :: MessageBits(a)[i] == MessageBits(b)[i]
    ensures Crc(a, init) != Crc(b, init)
  {
    hide Feed, Plus, MessageBits;
    var d := Xor(MessageBits(a), MessageBits(b));
    FeedLinear(MessageBits(a), MessageBits(b), init, init);
    PlusZero(init);
    PlusZero(Crc(a, init));
    if Crc(a, init) == Crc(b, init) {
      WindowSeen(d, p);
      assert MessageBits(a) == MessageBits(b);
      BitsDetermineMessage(a, b);
    }
  }

  // ---------------------------------------------------------------------------
  // Reference: remainder of a division by x^16 + x^12 + x^5 + 1
  // ---------------------------------------------------------------------------

  // Coefficients of x^15 .. x^0 of the generator; its x^16 is implicit.
  const GENERATOR: Bits :=
    [false, false, false, true, false, false, false, false,
     false, false, true, false, false, false, false, true]

  function WordBits(c: bv16): (m: Bits)
    ensures |m| == 16
  {
    TopBits(c, 16)
  }

  // Adds (in GF(2)) a sixteen-bit polynomial to the leading end of m.
  function AddFront(m: Bits, g: Bits): (r: Bits)
    requires |m| >= |g|
    ensures |r| == |m|
    ensures forall i | 0 <= i < |m| :: r[i] == if i < |g| then m[i] != g[i] else m[i]
  {
    Xor(m[..|g|], g) + m[|g|..]
  }

  // Schoolbook long division: cancel the leading coefficient, go on with the rest.
  function Remainder(m: Bits): Bits
    requires |m| >= 16
    decreases |m|
  {
    if |m| == 16 then m
    else if m[0] then Remainder(AddFront(m[1..], GENERATOR))
    else Remainder(m[1..])
  }

  lemma WordBitsUp(c: bv16, i: nat)
    requires i < 16
    ensures WordBits(Up(c))[i] == (i < 15 && WordBits(c)[i + 1])
  {
    assert UpN(c, i + 1) == UpN(Up(c), i);
    hide Up, UpN, TopBits, IsTop;
    TopBitsAt(Up(c), 16, i);
    if i < 15 {
      TopBitsAt(c, 16, i + 1);
    } else {
      UpSixteen(c);
      NotTopZero();
    }
  }

  lemma NotTopZero()
    ensures !IsTop(0)
  {}

  lemma WordBitsLead(c: bv16)
    ensures WordBits(c)[0] == IsTop(c)
  {
    hide IsTop, Up;
  }

  lemma PolyLow()
    ensures UpN(POLY, 0) == 0x1021 && UpN(POLY, 1) == 0x2042 && UpN(POLY, 2) == 0x4084 && UpN(POLY, 3) == 0x8108
    ensures UpN(POLY, 4) == 0x0210 && UpN(POLY, 5) == 0x0420 && UpN(POLY, 6) == 0x0840 && UpN(POLY, 7) == 0x1080
  {
    UpNext(POLY, 0);
    UpNext(POLY, 1);
    UpNext(POLY, 2);
    UpNext(POLY, 3);
    UpNext(POLY, 4);
    UpNext(POLY, 5);
    UpNext(POLY, 6);
  }

  lemma PolyHigh()
    ensures UpN(POLY, 8) == 0x2100 && UpN(POLY, 9) == 0x4200 && UpN(POLY, 10) == 0x8400 && UpN(POLY, 11) == 0x0800
    ensures UpN(POLY, 12) == 0x1000 && UpN(POLY, 13) == 0x2000 && UpN(POLY, 14) == 0x4000 && UpN(POLY, 15) == 0x8000
  {
    PolyLow();
    UpNext(POLY, 7);
    UpNext(POLY, 8);
    UpNext(POLY, 9);
    UpNext(POLY, 10);
    UpNext(POLY, 11);
    UpNext(POLY, 12);
    UpNext(POLY, 13);
    UpNext(POLY, 14);
  }

  lemma WordBitsPoly(i: nat)
    requires i < 16
    ensures WordBits(POLY)[i] == GENERATOR[i]
  {
    hide UpN, TopBits;
    TopBitsAt(POLY, 16, i);
    PolyLow();
    PolyHigh();
  }

  lemma WordBitsTop(b: bool, i: nat)
    requires i < 16
    ensures WordBits(Top(b))[i] == (b && i == 0)
  {
    TopLinear(b, false);
    TopBitsAt(Top(b), 16, i);
    UpZero(i);
    hide Up, IsTop;
    if i > 0 { UpZero(i - 1); }
  }

  lemma {:induction false} UpZero(n: nat)
    ensures UpN(0, n) == 0 && !IsTop(0)
  {
    assert Up(0) == 0;
    hide Up;
    if n > 0 { UpZero(n - 1); }
  }

  lemma WordBitsShift(c: bv16, i: nat)
    requires i < 16
    ensures WordBits(Shift(c))[i] == ((i < 15 && WordBits(c)[i + 1]) != (WordBits(c)[0] && GENERATOR[i]))
  {
    hide TopBits, Plus, Up, IsTop;
    WordBitsLead(c);
    WordBitsUp(c, i);
    WordBitsPoly(i);
    TopBitsLinear(Up(c), POLY, 16, i);
  }

  lemma WordBitsMixed(c: bv16, b: bool, i: nat)
    requires i < 16
    ensures WordBits(Plus(c, Top(b)))[i] == (WordBits(c)[i] != (b && i == 0))
  {
    TopBitsLinear(c, Top(b), 16, i);
    WordBitsTop(b, i);
    hide TopBits, Plus, Top;
  }

  lemma DivisionStep(m: Bits, c: bv16)
    requires |m| >= 17
    ensures Remainder(AddFront(m, WordBits(c))) == Remainder(AddFront(m[1..], WordBits(BitStep(c, m[0]))))
  {
    hide TopBits, Plus, Top, Shift;
    var x := Plus(c, Top(m[0]));
    var r := AddFront(m, WordBits(c));
    var s := AddFront(m[1..], WordBits(Shift(x)));
    var t := if r[0] then AddFront(r[1..], GENERATOR) else r[1..];
    WordBitsMixed(c, m[0], 0);
    forall i | 0 <= i < |t|
      ensures t[i] == s[i]
    {
      if i < 16 { WordBitsShift(x, i); }
      if i < 15 { WordBitsMixed(c, m[0], i + 1); }
    }
    assert t == s;
  }

  lemma {:induction false} FeedIsRemainder(m: Bits, zeros: Bits, c: bv16)
    requires |zeros| == 16 && Quiet(zeros)
    ensures Remainder(AddFront(m + zeros, WordBits(c))) == WordBits(Feed(m, c))
  {
    hide TopBits, BitStep;
    if m == [] {
      assert m + zeros == zeros;
      assert AddFront(zeros, WordBits(c)) == WordBits(c);
    } else {
      assert (m + zeros)[1..] == m[1..] + zeros;
      DivisionStep(m + zeros, c);
      FeedIsRemainder(m[1..], zeros, BitStep(c, m[0]));
    }
  }

  // The CRC is the remainder of the message, followed by sixteen zero bits and
  // with the initial value added to its leading end, divided by the generator.
  lemma CrcIsRemainder(msg: seq<Byte>, c: bv16)
    ensures WordBits(Crc(msg, c)) == Remainder(AddFront(MessageBits(msg) + seq(16, _ => false), WordBits(c)))
  {
    FeedIsRemainder(MessageBits(msg), seq(16, _ => false), c);
  }
}
