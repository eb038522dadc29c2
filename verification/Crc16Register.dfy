// The sixteen-bit shift register of the CRC-CCITT routine and the word-level facts
// about it: it is linear over exclusive-or and only zero steps to zero.

module Crc16Register {
  const POLY: bv16 := 0x1021

  // Exclusive-or, the addition of polynomials over GF(2).
  function Plus(a: bv16, b: bv16): bv16 {
    a ^ b
  }

  function Up(c: bv16): bv16 {
    c << 1
  }

  predicate IsTop(c: bv16) {
    c & 0x8000 != 0
  }

  function Top(b: bool): bv16 {
    if b then 0x8000 else 0
  }

  // One step of the register when the incoming bit is zero.
  function Shift(c: bv16): bv16 {
    if IsTop(c) then Plus(Up(c), POLY) else Up(c)
  }

  function Shift8(c: bv16): bv16 {
    Shift(Shift(Shift(Shift(Shift(Shift(Shift(Shift(c))))))))
  }

  // One step of the register for a message bit.
  function BitStep(c: bv16, b: bool): bv16 {
    Shift(Plus(c, Top(b)))
  }

  // ---- exclusive-or ----

  lemma PlusAssociates(a: bv16, b: bv16, c: bv16)
    ensures Plus(Plus(a, b), c) == Plus(a, Plus(b, c))
  {}

  lemma PlusCommutes(a: bv16, b: bv16)
    ensures Plus(a, b) == Plus(b, a)
  {}

  lemma PlusZero(a: bv16)
    ensures Plus(a, 0) == a && Plus(0, a) == a && Plus(a, a) == 0
  {}

  lemma PlusSwap(a: bv16, b: bv16, c: bv16, d: bv16)
    ensures Plus(Plus(a, b), Plus(c, d)) == Plus(Plus(a, c), Plus(b, d))
  {
    PlusAssociates(a, b, Plus(c, d));
    PlusAssociates(b, c, d);
    PlusCommutes(b, c);
    PlusAssociates(c, b, d);
    PlusAssociates(a, c, Plus(b, d));
    hide Plus;
  }

  lemma UpLinear(a: bv16, b: bv16)
    ensures Up(Plus(a, b)) == Plus(Up(a), Up(b))
  {}

  lemma IsTopLinear(a: bv16, b: bv16)
    ensures IsTop(Plus(a, b)) <==> IsTop(a) != IsTop(b)
  {}

  lemma TopLinear(x: bool, y: bool)
    ensures Top(x != y) == Plus(Top(x), Top(y))
    ensures IsTop(Top(x)) == x && Up(Top(x)) == 0
  {}

  // ---- linearity and kernel of the step ----

  lemma ShiftLinear(a: bv16, b: bv16)
    ensures Shift(Plus(a, b)) == Plus(Shift(a), Shift(b))
  {
    UpLinear(a, b);
    IsTopLinear(a, b);
    var x, y := Up(a), Up(b);
    PlusSwap(x, POLY, y, POLY);
    PlusZero(POLY);
    PlusZero(Plus(x, y));
    PlusAssociates(x, y, POLY);
    PlusAssociates(x, POLY, y);
    PlusCommutes(y, POLY);
    hide Plus, Up, IsTop;
  }

  lemma BitStepLinear(a: bv16, b: bv16, x: bool, y: bool)
    ensures BitStep(Plus(a, b), x != y) == Plus(BitStep(a, x), BitStep(b, y))
  {
    ShiftLinear(Plus(a, Top(x)), Plus(b, Top(y)));
    TopLinear(x, y);
    PlusSwap(a, b, Top(x), Top(y));
    hide Plus, Shift, Top;
  }

  lemma ShiftKernel(c: bv16)
    requires Shift(c) == 0
    ensures c == 0
  {}

  lemma ShiftZero()
    ensures Shift(0) == 0
  {}

  // The bit loop compares the top bits of the data word and of the register.
  lemma LoopStep(c: bv16, data: bv16)
    ensures BitStep(c, IsTop(data)) == if IsTop(Plus(data, c)) then Plus(Up(c), POLY) else Up(c)
  {
    IsTopLinear(c, Top(IsTop(data)));
    IsTopLinear(data, c);
    UpLinear(c, Top(IsTop(data)));
    TopLinear(IsTop(data), false);
    PlusZero(Up(c));
    hide Plus, Up, IsTop, Top;
  }

  lemma LoopRaw(c: bv16, data: bv16)
    ensures IsTop(Plus(data, c)) <==> (data ^ c) & 0x8000 != 0
    ensures Plus(Up(c), POLY) == (c << 1) ^ POLY
    ensures Up(c) == c << 1 && Up(data) == data << 1
  {}

  // ---- eight steps at once ----

  lemma Shift8Linear(a: bv16, b: bv16)
    ensures Shift8(Plus(a, b)) == Plus(Shift8(a), Shift8(b))
  {
    var a1, b1 := Shift(a), Shift(b);
    var a2, b2 := Shift(a1), Shift(b1);
    var a3, b3 := Shift(a2), Shift(b2);
    var a4, b4 := Shift(a3), Shift(b3);
    var a5, b5 := Shift(a4), Shift(b4);
    var a6, b6 := Shift(a5), Shift(b5);
    var a7, b7 := Shift(a6), Shift(b6);
    ShiftLinear(a, b);
    ShiftLinear(a1, b1);
    ShiftLinear(a2, b2);
    ShiftLinear(a3, b3);
    ShiftLinear(a4, b4);
    ShiftLinear(a5, b5);
    ShiftLinear(a6, b6);
    ShiftLinear(a7, b7);
    hide Plus, Shift;
  }

  lemma ShiftClear(c: bv16)
    requires !IsTop(c)
    ensures Shift(c) == Up(c)
  {}

  lemma Shift8Low(c: bv16)
    ensures Shift8(c & 0x00FF) == c << 8
  {}

  lemma SplitWord(c: bv16, d: bv8)
    ensures Plus(c, (d as bv16) << 8) == Plus(c & 0x00FF, ((c >> 8) ^ (d as bv16)) << 8)
  {}

  // The high byte, mixed with the data byte, is all that eight steps depend on
  // beyond a plain shift.
  lemma SplitStep(c: bv16, d: bv8)
    ensures Shift8(Plus(c, (d as bv16) << 8)) == Plus(c << 8, Shift8(((c >> 8) ^ (d as bv16)) << 8))
  {
    SplitWord(c, d);
    Shift8Low(c);
    Shift8Linear(c & 0x00FF, ((c >> 8) ^ (d as bv16)) << 8);
    hide Plus, Shift8;
  }

  lemma SplitTop(w: bv16)
    ensures Plus(Top(IsTop(w)), w & 0x7FFF) == w
    ensures !IsTop(w & 0x7FFF) && Up(w & 0x7FFF) == Up(w)
  {
    if IsTop(w) {
      assert w & 0x8000 == 0x8000;
      assert (w & 0x8000) ^ (w & 0x7FFF) == w;
    } else {
      assert w & 0x8000 == 0;
      assert (w & 0x8000) ^ (w & 0x7FFF) == w;
    }
  }

  // ---- words read from the top down ----

  function Down(c: bv16): bv16 {
    c >> 1
  }

  function Hold(b: bool, rest: bv16): bv16 {
    Top(b) | Down(rest)
  }

  predicate Disjoint(a: bv16, k: bv16) {
    a & k == 0
  }

  lemma DisjointZero(k: bv16)
    ensures Disjoint(0, k)
  {}

  lemma HoldDisjoint(b: bool, a: bv16, k: bv16)
    requires Disjoint(a, k)
    ensures Disjoint(Hold(b, a), Down(k))
  {
    DownDisjoint(a, k);
    TopDisjoint(b, k);
    Distribute(Top(b), Down(a), Down(k));
    hide Disjoint, Down, Top;
  }

  lemma DownDisjoint(a: bv16, k: bv16)
    requires Disjoint(a, k)
    ensures Disjoint(Down(a), Down(k))
  {
    assert (a >> 1) & (k >> 1) == (a & k) >> 1;
  }

  lemma TopDisjoint(b: bool, k: bv16)
    ensures Disjoint(Top(b), Down(k))
  {}

  lemma Distribute(t: bv16, a: bv16, k: bv16)
    requires Disjoint(t, k) && Disjoint(a, k)
    ensures Disjoint(t | a, k)
  {
    assert (t | a) & k == (t & k) | (a & k);
  }

  lemma EvenFromMask(a: bv16, k: bv16)
    requires Disjoint(a, k) && k & 1 == 1
    ensures a & 1 == 0
  {}

  lemma HeldBit(b: bool, a: bv16)
    requires a & 1 == 0
    ensures BitStep(Hold(b, a), b) == a
    ensures Hold(b, a) == 0 ==> !b && a == 0
  {
    HoldSplit(b, a);
    ShiftClear(Down(a));
    UpDown(a);
    hide Plus, Shift, Hold, Up, Down, IsTop, Top;
  }

  lemma HoldSplit(b: bool, a: bv16)
    ensures Plus(Hold(b, a), Top(b)) == Down(a) && !IsTop(Down(a))
    ensures Hold(b, a) == 0 ==> !b && Down(a) == 0
  {
    if b {
      assert (0x8000 | (a >> 1)) ^ 0x8000 == a >> 1;
      assert (0x8000 | (a >> 1)) != 0;
    } else {
      assert (0 | (a >> 1)) ^ 0 == a >> 1;
    }
  }

  lemma UpDown(a: bv16)
    requires a & 1 == 0
    ensures Up(Down(a)) == a && (Down(a) == 0 ==> a == 0)
  {}

  // ---- reading a word's bits from the top ----

  function UpN(w: bv16, n: nat): bv16
    decreases n
  {
    if n == 0 then w else UpN(Up(w), n - 1)
  }

  lemma {:induction false} UpNext(w: bv16, n: nat)
    ensures UpN(w, n + 1) == Up(UpN(w, n))
    decreases n
  {
    hide Up;
    if n > 0 { UpNext(Up(w), n - 1); }
  }

  function TopBits(w: bv16, n: nat): (m: seq<bool>)
    ensures |m| == n
    decreases n
  {
    if n == 0 then [] else [IsTop(w)] + TopBits(Up(w), n - 1)
  }

  lemma {:induction false} TopBitsAt(w: bv16, n: nat, i: nat)
    requires i < n
    ensures TopBits(w, n)[i] == IsTop(UpN(w, i))
    decreases n
  {
    hide Up, IsTop;
    if i > 0 { TopBitsAt(Up(w), n - 1, i - 1); }
  }

  lemma {:induction false} TopBitsLinear(a: bv16, b: bv16, n: nat, i: nat)
    requires i < n
    ensures TopBits(Plus(a, b), n)[i] == (TopBits(a, n)[i] != TopBits(b, n)[i])
    decreases n
  {
    hide Plus, Up, IsTop;
    IsTopLinear(a, b);
    UpLinear(a, b);
    if i > 0 { TopBitsLinear(Up(a), Up(b), n - 1, i - 1); }
  }

  lemma UpSixteen(w: bv16)
    ensures UpN(w, 16) == 0
  {
    UpByFour(w);
    UpByFour(w << 4);
    UpByFour(w << 8);
    UpByFour(w << 12);
    assert ((w << 4) << 4) == w << 8 && ((w << 8) << 4) == w << 12 && ((w << 12) << 4) == 0;
    hide Up;
    UpSum(w, 4, 4);
    UpSum(w, 8, 4);
    UpSum(w, 12, 4);
  }

  lemma UpByFour(w: bv16)
    ensures UpN(w, 4) == w << 4
  {
    assert UpN(w, 4) == Up(Up(Up(Up(w))));
  }

  lemma {:induction false} UpSum(w: bv16, m: nat, n: nat)
    ensures UpN(w, m + n) == UpN(UpN(w, m), n)
    decreases m
  {
    hide Up;
    if m > 0 { UpSum(Up(w), m - 1, n); }
  }

  function ShiftN(c: bv16, n: nat): bv16
    decreases n
  {
    if n == 0 then c else ShiftN(Shift(c), n - 1)
  }

  lemma AbsorbTop(c: bv16, w: bv16)
    ensures Shift(Plus(c, w)) == Plus(BitStep(c, IsTop(w)), Up(w))
  {
    var t := Top(IsTop(w));
    var rest := w & 0x7FFF;
    SplitTop(w);
    PlusAssociates(c, t, rest);
    ShiftLinear(Plus(c, t), rest);
    ShiftClear(rest);
    hide Plus, Shift, Up, IsTop, Top;
  }
}
