/** The ADS1260 CRC-8 of srcs/DaphneSpiDrivers.cpp: the lookup table and the table-driven checksum,
    against polynomial division by x^8 + x^2 + x + 1 over GF(2). */
module Crc8 {

  type Byte = bv8

  const INITIAL: Byte := 0xFF

  /** One turn of the table builder's inner loop; 0x07 is the low part of the generator. */
  function Step(c: Byte): Byte {
    if c & 0x80 != 0 then (c << 1) ^ 0x07 else c << 1
  }

  /** Addition over GF(2), coefficient by coefficient. */
  function Add(a: Byte, b: Byte): Byte { a ^ b }

  function Steps(c: Byte, n: nat): Byte {
    if n == 0 then c else Step(Steps(c, n - 1))
  }

  function Entry(c: Byte): Byte { Steps(c, 8) }

  function ByteOf(i: nat): Byte
    requires i < 256
  {
    i as bv8
  }

  /** build_crc_table. */
  method BuildTable() returns (table: array<Byte>)
    ensures fresh(table) && table.Length == 256
    ensures forall i :: 0 <= i < 256 ==> table[i] == Entry(ByteOf(i))
  {
    table := new Byte[256](_ => 0);
    for i := 0 to 256
      invariant forall k :: 0 <= k < i ==> table[k] == Entry(ByteOf(k))
    {
      var crc: Byte := ByteOf(i);
      for j := 0 to 8
        invariant crc == Steps(ByteOf(i), j)
      {
        if crc & 0x80 != 0 {
          crc := (crc << 1) ^ 0x07;
        } else {
          crc := crc << 1;
        }
      }
      table[i] := crc;
    }
  }

  /** The checksum register after data, from a given start. */
  function Crc(start: Byte, data: seq<Byte>): Byte {
    if data == [] then start else Entry(Add(Crc(start, data[..|data| - 1]), data[|data| - 1]))
  }

  /** ads1260_crc8_lut. */
  method Lut(table: array<Byte>, data: seq<Byte>) returns (crc: Byte)
    requires table.Length == 256
    requires forall i :: 0 <= i < 256 ==> table[i] == Entry(ByteOf(i))
    ensures crc == Crc(INITIAL, data)
  {
    crc := INITIAL;
    for k := 0 to |data|
      invariant crc == Crc(INITIAL, data[..k])
    {
      var index := crc ^ data[k];
      crc := table[index as int];
      assert data[..k + 1][..k] == data[..k];
    }
    assert data[..|data|] == data;
  }

  // ---- Bit-serial form ----

  /** The bits of a byte, most significant first. */
  function Bits(b: Byte): (r: seq<bool>)
    ensures |r| == 8
  {
    [b & 0x80 != 0, b & 0x40 != 0, b & 0x20 != 0, b & 0x10 != 0, b & 0x08 != 0, b & 0x04 != 0, b & 0x02 != 0, b & 0x01 != 0]
  }

  /** All bits of a message, first byte first. */
  function Stream(data: seq<Byte>): (r: seq<bool>)
    ensures |r| == 8 * |data|
  {
    if data == [] then [] else Stream(data[..|data| - 1]) + Bits(data[|data| - 1])
  }

  /** Shifting one message bit into the register. */
  function Shift(c: Byte, bit: bool): Byte {
    Step(if bit then c ^ 0x80 else c)
  }

  function Register(c: Byte, bits: seq<bool>): Byte {
    if bits == [] then c else Shift(Register(c, bits[..|bits| - 1]), bits[|bits| - 1])
  }

  lemma {:induction false} RegisterSplit(c: Byte, a: seq<bool>, b: seq<bool>)
    ensures Register(c, a + b) == Register(Register(c, a), b)
  {
    if b == [] {
      assert a + b == a;
    } else {
      var n := |b| - 1;
      RegisterSplit(c, a, b[..n]);
      assert (a + b)[..|a + b| - 1] == a + b[..n];
    }
  }

  lemma RegisterFirst(c: Byte, bits: seq<bool>)
    requires bits != []
    ensures Register(c, bits) == Register(Shift(c, bits[0]), bits[1..])
  {
    assert bits == [bits[0]] + bits[1..];
    RegisterSplit(c, [bits[0]], bits[1..]);
    assert [bits[0]][..0] == [];
  }

  function Shift8(c: Byte, b: Byte): Byte {
    Shift(Shift(Shift(Shift(Shift(Shift(Shift(Shift(c, b & 0x80 != 0), b & 0x40 != 0), b & 0x20 != 0), b & 0x10 != 0),
      b & 0x08 != 0), b & 0x04 != 0), b & 0x02 != 0), b & 0x01 != 0)
  }

  lemma EntryUnrolled(c: Byte)
    ensures Entry(c) == Step(Step(Step(Step(Step(Step(Step(Step(c))))))))
  {
    hide Step;
    assert Steps(c, 1) == Step(Steps(c, 0));
    assert Steps(c, 3) == Step(Step(Steps(c, 1)));
    assert Steps(c, 5) == Step(Step(Steps(c, 3)));
    assert Steps(c, 7) == Step(Step(Steps(c, 5)));
  }

  predicate Set(c: Byte, mask: Byte) { c & mask != 0 }

  function Half(c: Byte): Byte { c << 1 }

  function Seven(c: Byte): Byte { c ^ 0x07 }

  lemma StepParts(c: Byte)
    ensures Step(c) == if Set(c, 0x80) then Seven(Half(c)) else Half(c)
  {
  }

  lemma SplitParts(a: Byte, b: Byte)
    ensures Half(Add(a, b)) == Add(Half(a), Half(b))
    ensures Set(Add(a, b), 0x80) == (Set(a, 0x80) != Set(b, 0x80))
  {
    XorParts(a, b, a ^ b);
  }

  lemma XorParts(a: Byte, b: Byte, x: Byte)
    requires x == a ^ b
    ensures x << 1 == (a << 1) ^ (b << 1)
    ensures (x & 0x80 != 0) == ((a & 0x80 != 0) != (b & 0x80 != 0))
  {
  }

  lemma ShiftParts(r: Byte, bit: bool)
    ensures Shift(r, bit) == if Set(r, 0x80) != bit then Seven(Half(r)) else Half(r)
  {
    if bit {
      assert (r ^ 0x80) << 1 == r << 1;
      assert ((r ^ 0x80) & 0x80 != 0) == !(r & 0x80 != 0);
    }
  }

  lemma SevenOut(p: Byte, q: Byte)
    ensures Add(Seven(p), Seven(q)) == Add(p, q)
    ensures Add(Seven(p), q) == Seven(Add(p, q))
    ensures Add(p, Seven(q)) == Seven(Add(p, q))
  {
    assert (p ^ 0x07) ^ (q ^ 0x07) == p ^ q;
    assert (p ^ 0x07) ^ q == (p ^ q) ^ 0x07;
    assert p ^ (q ^ 0x07) == (p ^ q) ^ 0x07;
  }

  /** Stepping with the bits still to come added in is shifting in the first of them. */
  lemma StepAhead(r: Byte, y: Byte)
    ensures Step(Add(r, y)) == Add(Shift(r, Set(y, 0x80)), Half(y))
  {
    hide Step, Add, Set, Half, Seven, Shift;
    StepParts(Add(r, y));
    SplitParts(r, y);
    ShiftParts(r, Set(y, 0x80));
    SevenOut(Half(r), Half(y));
  }

  lemma HalfMoves(y: Byte)
    ensures Set(Half(y), 0x80) == Set(y, 0x40) && Set(Half(y), 0x40) == Set(y, 0x20) && Set(Half(y), 0x20) == Set(y, 0x10)
    ensures Set(Half(y), 0x10) == Set(y, 0x08) && Set(Half(y), 0x08) == Set(y, 0x04) && Set(Half(y), 0x04) == Set(y, 0x02)
    ensures Set(Half(y), 0x02) == Set(y, 0x01) && !Set(Half(y), 0x01)
  {
  }

  lemma NothingLeft(y: Byte)
    requires !Set(y, 0x80) && !Set(y, 0x40) && !Set(y, 0x20) && !Set(y, 0x10)
    requires !Set(y, 0x08) && !Set(y, 0x04) && !Set(y, 0x02) && !Set(y, 0x01)
    ensures forall r :: Add(r, y) == r
  {
  }

  lemma Shift8IsEntry(c: Byte, b: Byte)
    ensures Shift8(c, b) == Entry(Add(c, b))
  {
    EntryUnrolled(Add(c, b));
    Shift8Masks(c, b);
    hide Steps, Entry, Step, Shift, Set, Half, Add, Shift8;
    var y1 := Half(b);
    var y2 := Half(y1);
    var y3 := Half(y2);
    var y4 := Half(y3);
    var y5 := Half(y4);
    var y6 := Half(y5);
    var y7 := Half(y6);
    HalfMoves(b);
    HalfMoves(y1);
    HalfMoves(y2);
    HalfMoves(y3);
    HalfMoves(y4);
    HalfMoves(y5);
    HalfMoves(y6);
    HalfMoves(y7);
    NothingLeft(Half(y7));
    var r1 := Shift(c, Set(b, 0x80));
    var r2 := Shift(r1, Set(y1, 0x80));
    var r3 := Shift(r2, Set(y2, 0x80));
    var r4 := Shift(r3, Set(y3, 0x80));
    var r5 := Shift(r4, Set(y4, 0x80));
    var r6 := Shift(r5, Set(y5, 0x80));
    var r7 := Shift(r6, Set(y6, 0x80));
    StepAhead(c, b);
    StepAhead(r1, y1);
    StepAhead(r2, y2);
    StepAhead(r3, y3);
    StepAhead(r4, y4);
    StepAhead(r5, y5);
    StepAhead(r6, y6);
    StepAhead(r7, y7);
  }

  lemma Shift8Masks(c: Byte, b: Byte)
    ensures Shift8(c, b)
         == Shift(Shift(Shift(Shift(Shift(Shift(Shift(Shift(c, Set(b, 0x80)), Set(b, 0x40)), Set(b, 0x20)), Set(b, 0x10)),
              Set(b, 0x08)), Set(b, 0x04)), Set(b, 0x02)), Set(b, 0x01))
  {
    hide Shift;
  }

  lemma EmptyRegister(c: Byte)
    ensures Register(c, []) == c
  {
  }

  lemma RegisterNext(c: Byte, s: seq<bool>, k: nat)
    requires k < |s|
    ensures Register(c, s[..k + 1]) == Shift(Register(c, s[..k]), s[k])
  {
    assert s[..k + 1][..k] == s[..k];
  }

  lemma RegisterOfBits(c: Byte, b: Byte)
    ensures Register(c, Bits(b)) == Shift8(c, b)
  {
    hide Shift, Register;
    var s := Bits(b);
    EmptyRegister(c);
    assert s[..0] == [] && s[..8] == s;
    RegisterNext(c, s, 0);
    RegisterNext(c, s, 1);
    RegisterNext(c, s, 2);
    RegisterNext(c, s, 3);
    RegisterNext(c, s, 4);
    RegisterNext(c, s, 5);
    RegisterNext(c, s, 6);
    RegisterNext(c, s, 7);
  }

  /** A table look-up does the work of eight bit shifts, so the table-driven checksum is the
      bit-serial one. */
  lemma {:induction false} TableIsBitSerial(c: Byte, data: seq<Byte>)
    ensures Crc(c, data) == Register(c, Stream(data))
  {
    hide Entry, Shift8, Bits, Shift;
    if data != [] {
      var front, last := data[..|data| - 1], data[|data| - 1];
      TableIsBitSerial(c, front);
      RegisterSplit(c, Stream(front), Bits(last));
      RegisterOfBits(Crc(c, front), last);
      Shift8IsEntry(Crc(c, front), last);
    }
  }

  // ---- Division of polynomials over GF(2), as coefficient lists, highest power first ----

  type Poly = seq<bool>

  function Zeros(n: nat): (r: Poly)
    ensures |r| == n && forall i :: 0 <= i < n ==> !r[i]
  {
    seq(n, _ => false)
  }

  /** Addition. */
  function Plus(p: Poly, q: Poly): (r: Poly)
    requires |p| == |q|
    ensures |r| == |p| && forall i :: 0 <= i < |p| ==> r[i] == (p[i] != q[i])
  {
    seq(|p|, i requires 0 <= i < |p| => p[i] != q[i])
  }

  /** x^8 + x^2 + x + 1. */
  const GENERATOR: Poly := [true, false, false, false, false, false, true, true, true]

  predicate InGenerator(j: nat) { j == 0 || 6 <= j <= 8 }

  /** The product of q and the generator. */
  function Times(q: Poly): (r: Poly)
    ensures |r| == |q| + 8
  {
    if q == [] then Zeros(8)
    else Plus(if q[0] then GENERATOR + Zeros(|q| - 1) else Zeros(|q| + 8), [false] + Times(q[1..]))
  }

  lemma TimesAt(q: Poly, j: nat)
    requires q != [] && j < |q| + 8
    ensures Times(q)[j] == ((q[0] && InGenerator(j)) != (j > 0 && Times(q[1..])[j - 1]))
  {
    hide Zeros, Plus, GENERATOR;
    if j < 9 {
      GeneratorAt(j);
    }
  }

  lemma GeneratorAt(j: nat)
    requires j < 9
    ensures |GENERATOR| == 9 && GENERATOR[j] == InGenerator(j)
  {
  }

  /** bits * x^8, with the eight coefficients of c added at the top: what the register divides. */
  function Dividend(c: Byte, bits: seq<bool>): (r: Poly)
    ensures |r| == |bits| + 8
  {
    Plus(bits + Zeros(8), Bits(c) + Zeros(|bits|))
  }

  lemma DividendAt(c: Byte, bits: seq<bool>, j: nat)
    requires j < |bits| + 8
    ensures Dividend(c, bits)[j] == ((j < |bits| && bits[j]) != (j < 8 && Bits(c)[j]))
  {
    hide Zeros, Plus, Bits;
  }

  lemma MaskedShift(c: Byte, bit: bool)
    ensures var d, out := Shift(c, bit), Set(c, 0x80) != bit;
      && Set(d, 0x80) == Set(c, 0x40) && Set(d, 0x40) == Set(c, 0x20) && Set(d, 0x20) == Set(c, 0x10)
      && Set(d, 0x10) == Set(c, 0x08) && Set(d, 0x08) == Set(c, 0x04) && Set(d, 0x04) == (Set(c, 0x02) != out)
      && Set(d, 0x02) == (Set(c, 0x01) != out) && Set(d, 0x01) == out
  {
  }

  lemma BitsAreMasks(c: Byte)
    ensures var b := Bits(c);
      && b[0] == Set(c, 0x80) && b[1] == Set(c, 0x40) && b[2] == Set(c, 0x20) && b[3] == Set(c, 0x10)
      && b[4] == Set(c, 0x08) && b[5] == Set(c, 0x04) && b[6] == Set(c, 0x02) && b[7] == Set(c, 0x01)
  {
  }

  lemma BitsOfShift(c: Byte, bit: bool, j: nat)
    requires j < 8
    ensures Bits(Shift(c, bit))[j] == ((j < 7 && Bits(c)[j + 1]) != ((Bits(c)[0] != bit) && InGenerator(j + 1)))
  {
    MaskedShift(c, bit);
    BitsAreMasks(c);
    BitsAreMasks(Shift(c, bit));
    hide Bits, Shift, Set;
    assert j == 0 || j == 1 || j == 2 || j == 3 || j == 4 || j == 5 || j == 6 || j == 7;
  }

  /** One shift is one step of long division: subtract the generator if the leading coefficient is
      set, then drop that coefficient. */
  lemma DivisionStep(c: Byte, bits: seq<bool>, j: nat)
    requires bits != [] && 0 < j < |bits| + 8
    ensures var out := Bits(c)[0] != bits[0];
            Dividend(Shift(c, bits[0]), bits[1..])[j - 1] == (Dividend(c, bits)[j] != (out && InGenerator(j)))
  {
    DividendAt(c, bits, j);
    DividendAt(Shift(c, bits[0]), bits[1..], j - 1);
    if j < 9 {
      BitsOfShift(c, bits[0], j - 1);
    }
    hide Bits, Shift, Dividend;
  }

  lemma RemainderAt(q: Poly, n: nat, r: Poly, j: nat)
    requires |r| == 8 && |q| == n && j < n + 8
    ensures Plus(Times(q), Zeros(n) + r)[j] == (Times(q)[j] != (j >= n && r[j - n]))
  {
    hide Zeros, Plus, Times;
  }

  /** The register ends up holding the remainder of the division by the generator. */
  lemma {:induction false} RegisterIsRemainder(c: Byte, bits: seq<bool>) returns (q: Poly)
    ensures |q| == |bits|
    ensures Dividend(c, bits) == Plus(Times(q), Zeros(|bits|) + Bits(Register(c, bits)))
    decreases |bits|
  {
    hide Bits, Shift, Register, Dividend, Times, Plus, Zeros;
    var rest := Bits(Register(c, bits));
    if bits == [] {
      q := [];
      EmptyRegister(c);
      forall j | 0 <= j < 8
        ensures Dividend(c, bits)[j] == Plus(Times(q), Zeros(0) + rest)[j]
      {
        DividendAt(c, bits, j);
        RemainderAt(q, 0, rest, j);
        TimesNothing();
      }
    } else {
      var out, c' := Bits(c)[0] != bits[0], Shift(c, bits[0]);
      var q' := RegisterIsRemainder(c', bits[1..]);
      q := [out] + q';
      assert q[1..] == q';
      RegisterFirst(c, bits);
      forall j | 0 <= j < |bits| + 8
        ensures Dividend(c, bits)[j] == Plus(Times(q), Zeros(|bits|) + rest)[j]
      {
        TimesAt(q, j);
        RemainderAt(q, |bits|, rest, j);
        if j == 0 {
          DividendAt(c, bits, 0);
        } else {
          DivisionStep(c, bits, j);
          RemainderAt(q', |bits| - 1, rest, j - 1);
        }
      }
    }
  }

  lemma TimesNothing()
    ensures forall j :: 0 <= j < 8 ==> !Times([])[j]
  {
  }

  /** Quotient and remainder are unique. */
  lemma {:induction false} DivisionIsUnique(p: Poly, q: Poly, r: Poly, s: Poly)
    requires |p| == |q| && |r| == |s| == 8
    requires Plus(Times(p), Zeros(|p|) + r) == Plus(Times(q), Zeros(|q|) + s)
    ensures p == q && r == s
    decreases |p|
  {
    hide Times, Plus, Zeros;
    if p == [] {
      TimesNothing();
      forall i | 0 <= i < 8
        ensures r[i] == s[i]
      {
        RemainderAt(p, 0, r, i);
        RemainderAt(q, 0, s, i);
      }
    } else {
      TimesAt(p, 0);
      TimesAt(q, 0);
      RemainderAt(p, |p|, r, 0);
      RemainderAt(q, |q|, s, 0);
      var left, right := Plus(Times(p[1..]), Zeros(|p| - 1) + r), Plus(Times(q[1..]), Zeros(|q| - 1) + s);
      forall j | 0 <= j < |left|
        ensures left[j] == right[j]
      {
        TimesAt(p, j + 1);
        TimesAt(q, j + 1);
        RemainderAt(p, |p|, r, j + 1);
        RemainderAt(q, |q|, s, j + 1);
        RemainderAt(p[1..], |p| - 1, r, j);
        RemainderAt(q[1..], |q| - 1, s, j);
      }
      DivisionIsUnique(p[1..], q[1..], r, s);
    }
  }

  /** The table-driven checksum of a message is the remainder of message * x^8, with the initial value
      added to its first eight coefficients, divided by x^8 + x^2 + x + 1. */
  lemma ChecksumIsRemainder(data: seq<Byte>) returns (q: Poly)
    ensures |q| == 8 * |data|
    ensures Dividend(INITIAL, Stream(data)) == Plus(Times(q), Zeros(8 * |data|) + Bits(Crc(INITIAL, data)))
  {
    q := RegisterIsRemainder(INITIAL, Stream(data));
    TableIsBitSerial(INITIAL, data);
  }

  /** Bit j of byte i of a message is coefficient 8i + j, most significant first. */
  lemma {:induction false} StreamAt(data: seq<Byte>, i: nat, j: nat)
    requires i < |data| && j < 8
    ensures Stream(data)[8 * i + j] == Bits(data[i])[j]
  {
    hide Bits;
    if i < |data| - 1 {
      StreamAt(data[..|data| - 1], i, j);
    }
  }

  /** The same without reference to the start value: the message with its first eight coefficients complemented and
      eight zeros appended is a multiple of the generator plus the checksum, coefficient by coefficient. */
  lemma ChecksumOfComplement(data: seq<Byte>) returns (q: Poly)
    ensures |q| == 8 * |data|
    ensures forall j :: 0 <= j < 8 * |data| + 8 ==>
              ((j < 8 * |data| && Stream(data)[j]) != (j < 8))
              == (Times(q)[j] != (j >= 8 * |data| && Bits(Crc(INITIAL, data))[j - 8 * |data|]))
  {
    hide Stream, Times, Bits, Crc, Plus, Zeros;
    q := ChecksumIsRemainder(data);
    forall j | 0 <= j < 8 * |data| + 8
      ensures ((j < 8 * |data| && Stream(data)[j]) != (j < 8))
           == (Times(q)[j] != (j >= 8 * |data| && Bits(Crc(INITIAL, data))[j - 8 * |data|]))
    {
      DividendAt(INITIAL, Stream(data), j);
      RemainderAt(q, 8 * |data|, Bits(Crc(INITIAL, data)), j);
      OneBits(j);
    }
  }

  lemma OneBits(j: nat)
    ensures j < 8 ==> Bits(INITIAL)[j]
  {
  }

  // ---- What the checksum detects ----

  /** What the driver accepts: the received checksum is the one of the received bytes. */
  predicate Passes(data: seq<Byte>, crc: Byte) { Crc(INITIAL, data) == crc }

  function Xor(a: seq<Byte>, b: seq<Byte>): (r: seq<Byte>)
    requires |a| == |b|
    ensures |r| == |a|
  {
    if a == [] then [] else Xor(a[..|a| - 1], b[..|b| - 1]) + [Add(a[|a| - 1], b[|b| - 1])]
  }

  /** The flipped bits of message and checksum together, in the order they are sent. */
  function Flips(data: seq<Byte>, crc: Byte, data': seq<Byte>, crc': Byte): (r: seq<bool>)
    requires |data| == |data'|
    ensures |r| == 8 * |data| + 8
  {
    Stream(Xor(data, data')) + Bits(Add(crc, crc'))
  }

  lemma StepLinear(a: Byte, b: Byte)
    ensures Step(Add(a, b)) == Add(Step(a), Step(b))
  {
    hide Step, Add, Set, Half, Seven;
    StepParts(a);
    StepParts(b);
    StepParts(Add(a, b));
    SplitParts(a, b);
    SevenOut(Half(a), Half(b));
  }

  lemma AddLaws(x: Byte, y: Byte, a: Byte, b: Byte)
    ensures Add(Add(x, y), Add(a, b)) == Add(Add(x, a), Add(y, b))
    ensures Add(x, y) == 0 <==> x == y
    ensures Add(x, 0) == x && Add(0, x) == x
    ensures Add(x, y) == Add(x, a) <==> y == a
  {
  }

  lemma {:induction false} StepsLinear(a: Byte, b: Byte, n: nat)
    ensures Steps(Add(a, b), n) == Add(Steps(a, n), Steps(b, n))
  {
    hide Step, Add;
    if n > 0 {
      StepsLinear(a, b, n - 1);
      StepLinear(Steps(a, n - 1), Steps(b, n - 1));
    }
  }

  lemma {:induction false} CrcLinear(s: Byte, t: Byte, a: seq<Byte>, b: seq<Byte>)
    requires |a| == |b|
    ensures Crc(Add(s, t), Xor(a, b)) == Add(Crc(s, a), Crc(t, b))
  {
    hide Steps, Add;
    if a != [] {
      var n := |a| - 1;
      CrcLinear(s, t, a[..n], b[..n]);
      var x, y := Crc(s, a[..n]), Crc(t, b[..n]);
      AddLaws(x, y, a[n], b[n]);
      StepsLinear(Add(x, a[n]), Add(y, b[n]), 8);
      var e := Xor(a, b);
      assert e[..n] == Xor(a[..n], b[..n]) && e[n] == Add(a[n], b[n]);
    }
  }

  lemma {:induction false} StepsZero(c: Byte, n: nat)
    ensures Steps(c, n) == 0 <==> c == 0
  {
    if n > 0 {
      StepsZero(c, n - 1);
    }
  }

  /** A corrupted frame is accepted exactly when its flipped bits leave a zeroed register at zero. */
  lemma AcceptedIffRegisterZero(data: seq<Byte>, crc: Byte, data': seq<Byte>, crc': Byte)
    requires |data| == |data'| && Passes(data, crc)
    ensures Passes(data', crc') <==> Register(0, Flips(data, crc, data', crc')) == 0
    ensures Passes(data', crc') <==> Crc(0, Xor(data, data')) == Add(crc, crc')
  {
    hide Crc, Steps, Shift8, Bits, Register, Stream, Xor, Add;
    var e, ec := Xor(data, data'), Add(crc, crc');
    assert Crc(0, e) == Add(crc, Crc(INITIAL, data')) by {
      CrcLinear(INITIAL, INITIAL, data, data');
      AddLaws(INITIAL, INITIAL, 0, 0);
    }
    RegisterSplit(0, Stream(e), Bits(ec));
    TableIsBitSerial(0, e);
    RegisterOfBits(Crc(0, e), ec);
    Shift8IsEntry(Crc(0, e), ec);
    StepsZero(Add(Crc(0, e), ec), 8);
    AddLaws(Crc(0, e), ec, 0, 0);
    AddLaws(crc, Crc(INITIAL, data'), crc', 0);
  }

  /** The exact condition: corruption goes unnoticed if and only if the pattern of flipped bits is a
      multiple of the generator. */
  lemma AcceptedIffMultiple(data: seq<Byte>, crc: Byte, data': seq<Byte>, crc': Byte)
    requires |data| == |data'| && Passes(data, crc)
    ensures Passes(data', crc') <==> exists q: Poly :: |q| == 8 * |data| && Flips(data, crc, data', crc') == Times(q)
  {
    hide Crc, Bits, Register, Stream, Xor, Times, Plus, Zeros, Dividend, Add;
    var e, ec, n := Xor(data, data'), Add(crc, crc'), 8 * |data|;
    var flips := Flips(data, crc, data', crc');
    AcceptedIffRegisterZero(data, crc, data', crc');
    TableIsBitSerial(0, e);
    var q := RegisterIsRemainder(0, Stream(e));
    if Passes(data', crc') {
      FlipsAreMultipleIff(e, ec, q);
    }
    forall p: Poly | |p| == n && flips == Times(p)
      ensures Passes(data', crc')
    {
      FlipsAreMultipleIff(e, ec, p);
      DivisionIsUnique(p, q, Bits(ec), Bits(Crc(0, e)));
      BitsInjective(ec, Crc(0, e));
    }
  }

  /** The flips are q times the generator exactly when dividing their message part gives q and
      leaves their checksum part. */
  lemma FlipsAreMultipleIff(e: seq<Byte>, ec: Byte, q: Poly)
    requires |q| == 8 * |e|
    ensures Stream(e) + Bits(ec) == Times(q) <==> Dividend(0, Stream(e)) == Plus(Times(q), Zeros(|q|) + Bits(ec))
  {
    hide Times, Plus, Zeros, Dividend, Bits, Stream;
    var whole, top, sum := Stream(e) + Bits(ec), Dividend(0, Stream(e)), Plus(Times(q), Zeros(|q|) + Bits(ec));
    forall j | 0 <= j < |q| + 8
      ensures (whole[j] == Times(q)[j]) == (top[j] == sum[j])
    {
      DividendAt(0, Stream(e), j);
      RemainderAt(q, |q|, Bits(ec), j);
      ZeroBits(j);
    }
    if top == sum {
      assert forall j :: 0 <= j < |whole| ==> whole[j] == Times(q)[j];
    }
    if whole == Times(q) {
      assert forall j :: 0 <= j < |top| ==> top[j] == sum[j];
    }
  }

  lemma ZeroBits(j: nat)
    ensures j < 8 ==> !Bits(0)[j]
  {
  }

  lemma BitsInjective(a: Byte, b: Byte)
    requires Bits(a) == Bits(b)
    ensures a == b
  {
    BitsAreMasks(a);
    BitsAreMasks(b);
    hide Bits;
  }

  /** The number of flipped bits is odd. */
  predicate OddlyMany(bits: seq<bool>) {
    if bits == [] then false else OddlyMany(bits[..|bits| - 1]) != bits[|bits| - 1]
  }

  predicate OddByte(c: Byte) {
    ((Set(c, 0x80) != Set(c, 0x40)) != (Set(c, 0x20) != Set(c, 0x10)))
    != ((Set(c, 0x08) != Set(c, 0x04)) != (Set(c, 0x02) != Set(c, 0x01)))
  }

  lemma ShiftParity(c: Byte, bit: bool)
    ensures OddByte(Shift(c, bit)) == (OddByte(c) != bit)
  {
    MaskedShift(c, bit);
    hide Set, Shift;
  }

  lemma {:induction false} RegisterParity(bits: seq<bool>)
    ensures OddByte(Register(0, bits)) == OddlyMany(bits)
  {
    if bits != [] {
      RegisterParity(bits[..|bits| - 1]);
      ShiftParity(Register(0, bits[..|bits| - 1]), bits[|bits| - 1]);
      hide OddByte, Shift;
    }
  }

  /** Every odd number of flipped bits, anywhere in a message of any length or its checksum, is seen. */
  lemma DetectsOddFlips(data: seq<Byte>, crc: Byte, data': seq<Byte>, crc': Byte)
    requires |data| == |data'| && Passes(data, crc)
    requires OddlyMany(Flips(data, crc, data', crc'))
    ensures !Passes(data', crc')
  {
    AcceptedIffRegisterZero(data, crc, data', crc');
    RegisterParity(Flips(data, crc, data', crc'));
    assert !OddByte(0);
    hide Passes, Flips, Register, OddlyMany;
  }

  /** All flipped bits lie within eight consecutive places, and there is one. */
  ghost predicate Burst(flips: seq<bool>, at: nat) {
    && (exists i :: 0 <= i < |flips| && flips[i])
    && (forall i :: 0 <= i < |flips| && flips[i] ==> at <= i < at + 8)
  }

  function FromBits(w: seq<bool>): Byte
    requires |w| == 8
  {
    (if w[0] then 0x80 else 0) | (if w[1] then 0x40 else 0) | (if w[2] then 0x20 else 0) | (if w[3] then 0x10 else 0)
    | (if w[4] then 0x08 else 0) | (if w[5] then 0x04 else 0) | (if w[6] then 0x02 else 0) | (if w[7] then 0x01 else 0)
  }

  lemma BitsRoundTrip(w: seq<bool>)
    requires |w| == 8
    ensures Bits(FromBits(w)) == w
  {
    BitsAreMasks(FromBits(w));
    hide Bits;
    MasksOfSum(w[0], w[1], w[2], w[3], w[4], w[5], w[6], w[7]);
  }

  lemma MasksOfSum(a: bool, b: bool, c: bool, d: bool, e: bool, f: bool, g: bool, h: bool)
    ensures var p := FromBits([a, b, c, d, e, f, g, h]);
      && Set(p, 0x80) == a && Set(p, 0x40) == b && Set(p, 0x20) == c && Set(p, 0x10) == d
      && Set(p, 0x08) == e && Set(p, 0x04) == f && Set(p, 0x02) == g && Set(p, 0x01) == h
  {
  }

  /** Shifting in zeros keeps a zero register zero and a nonzero one nonzero. */
  lemma {:induction false} RegisterOverZeros(c: Byte, n: nat)
    ensures Register(c, Zeros(n)) == 0 <==> c == 0
  {
    if n > 0 {
      RegisterOverZeros(c, n - 1);
      assert Zeros(n)[..n - 1] == Zeros(n - 1);
      StepsZero(Register(c, Zeros(n - 1)), 1);
      assert Steps(Register(c, Zeros(n - 1)), 0) == Register(c, Zeros(n - 1));
    }
  }

  lemma EightBitsLeaveNonzero(w: seq<bool>, i: nat)
    requires |w| == 8 && i < 8 && w[i]
    ensures Register(0, w) != 0
  {
    hide Bits, Shift8, Register, FromBits, Steps;
    BitsRoundTrip(w);
    RegisterOfBits(0, FromBits(w));
    Shift8IsEntry(0, FromBits(w));
    AddLaws(FromBits(w), 0, 0, 0);
    StepsZero(FromBits(w), 8);
    ZeroBits(i);
  }

  lemma BurstLeavesRegisterNonzero(flips: seq<bool>, at: nat)
    requires |flips| >= 8 && Burst(flips, at)
    ensures Register(0, flips) != 0
  {
    hide Register;
    var p := if at + 8 <= |flips| then at else |flips| - 8;
    var w, rest := flips[p..p + 8], |flips| - p - 8;
    assert flips == (Zeros(p) + w) + Zeros(rest);
    var i :| 0 <= i < |flips| && flips[i];
    EightBitsLeaveNonzero(w, i - p);
    RegisterOverZeros(0, p);
    RegisterSplit(0, Zeros(p), w);
    RegisterSplit(0, Zeros(p) + w, Zeros(rest));
    RegisterOverZeros(Register(0, Zeros(p) + w), rest);
  }

  /** Every burst of at most eight bits, wherever it falls, is seen. */
  lemma DetectsBursts(data: seq<Byte>, crc: Byte, data': seq<Byte>, crc': Byte, at: nat)
    requires |data| == |data'| && Passes(data, crc)
    requires Burst(Flips(data, crc, data', crc'), at)
    ensures !Passes(data', crc')
  {
    hide Passes, Flips, Register, Burst;
    AcceptedIffRegisterZero(data, crc, data', crc');
    BurstLeavesRegisterNonzero(Flips(data, crc, data', crc'), at);
  }

  /** Eight is the limit: for every frame the nine-bit burst that spells out the generator, four
      flipped bits, goes unnoticed. */
  lemma NineBitBurstMissed(data: seq<Byte>, crc: Byte)
    requires data != [] && Passes(data, crc)
    ensures Passes(data[|data| - 1 := Add(data[|data| - 1], 0x01)], Add(crc, 0x07))
  {
    hide Steps, Add;
    var n := |data| - 1;
    var data' := data[n := Add(data[n], 0x01)];
    assert data'[..n] == data[..n];
    var x := Crc(INITIAL, data[..n]);
    AddLaws(x, 0, data[n], 0x01);
    AddLaws(0x01, 0, 0, 0);
    StepsLinear(Add(x, data[n]), 0x01, 8);
    assert Entry(0x01) == 0x07 by { EntryUnrolled(0x01); }
  }

  // ---- The driver's use of it ----

  datatype Reading = Value(v: Byte) | CommandMismatch | DataMismatch | OpcodeMismatch

  const RREG: Byte := 0x20

  /** readRegister after the SPI transfer: rx are the six bytes that came back. */
  method ReadRegister(table: array<Byte>, registerAddress: Byte, rx: seq<Byte>) returns (r: Reading)
    requires table.Length == 256 && |rx| == 6
    requires forall i :: 0 <= i < 256 ==> table[i] == Entry(ByteOf(i))
    ensures r.Value? <==> Passes(rx[1..3], rx[3]) && Passes(rx[4..5], rx[5]) && rx[1] == 0x20 | registerAddress
    ensures r.Value? ==> r.v == rx[4]
    ensures r.CommandMismatch? <==> !Passes(rx[1..3], rx[3])
    ensures r.DataMismatch? <==> Passes(rx[1..3], rx[3]) && !Passes(rx[4..5], rx[5])
  {
    var opCode := RREG | registerAddress;
    assert rx[1..3] == [rx[1], rx[2]] && rx[4..5] == [rx[4]];
    var commandCrc := Lut(table, [rx[1], rx[2]]);
    if commandCrc != rx[3] {
      return CommandMismatch;
    }
    var dataCrc := Lut(table, [rx[4]]);
    if dataCrc != rx[5] {
      return DataMismatch;
    }
    if rx[1] != opCode {
      return OpcodeMismatch;
    }
    r := Value(rx[4]);
  }

  datatype Writing = Written(v: Byte) | CrcMismatch | WriteOpcodeMismatch | ValueMismatch

  const WREG: Byte := 0x40

  /** writeRegister after the SPI transfer: rx are the four bytes that came back. */
  method WriteRegister(table: array<Byte>, registerAddress: Byte, registerValue: Byte, rx: seq<Byte>) returns (r: Writing)
    requires table.Length == 256 && |rx| == 4
    requires forall i :: 0 <= i < 256 ==> table[i] == Entry(ByteOf(i))
    ensures r.Written? <==> Passes(rx[1..3], rx[3]) && rx[1] == 0x40 | registerAddress && rx[2] == registerValue
    ensures r.Written? ==> r.v == registerValue
    ensures r.CrcMismatch? <==> !Passes(rx[1..3], rx[3])
    ensures r.WriteOpcodeMismatch? <==> Passes(rx[1..3], rx[3]) && rx[1] != 0x40 | registerAddress
  {
    var opCode := WREG | registerAddress;
    assert rx[1..3] == [rx[1], rx[2]];
    var crc := Lut(table, [rx[1], rx[2]]);
    if crc != rx[3] {
      return CrcMismatch;
    }
    if rx[1] != opCode {
      return WriteOpcodeMismatch;
    }
    if rx[2] != registerValue {
      return ValueMismatch;
    }
    r := Written(rx[2]);
  }
}
