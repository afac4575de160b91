/** Bit fields of a 32-bit word, as srcs/reg.cpp and srcs/Afe.cpp cut them out with shifts and masks,
    and what that means bit by bit. */
module BitField {

  type Word = bv32

  /** A bit position or a width. */
  type Place = bv8

  predicate Bit(x: Word, i: Place)
    requires i < 32
  {
    (x >> i) & 1 == 1
  }

  function And(x: Word, y: Word): Word { x & y }

  function Or(x: Word, y: Word): Word { x | y }

  function Not(x: Word): Word { !x }

  function Left(x: Word, n: Place): Word
    requires n < 32
  {
    x << n
  }

  function Right(x: Word, n: Place): Word
    requires n < 32
  {
    x >> n
  }

  /** As many ones as the field is wide; a shift by 32 would be undefined in the source, which
      therefore treats that width apart. */
  function Mask(low: Place, high: Place): Word
    requires low <= high < 32
  {
    if high - low + 1 == 32 then 0xFFFFFFFF else (1 << (high - low + 1)) - 1
  }

  function Get(x: Word, low: Place, high: Place): Word
    requires low <= high < 32
  {
    And(Right(x, low), Mask(low, high))
  }

  function Put(x: Word, low: Place, high: Place, v: Word): Word
    requires low <= high < 32
  {
    Or(And(x, Not(Left(Mask(low, high), low))), Left(And(v, Mask(low, high)), low))
  }

  lemma BitOfMask(low: Place, high: Place, i: Place)
    requires low <= high < 32 && i < 32
    ensures Bit(Mask(low, high), i) <==> i <= high - low
  {
  }

  lemma RawLogic(x: Word, y: Word, i: Place)
    requires i < 32
    ensures Bit(x & y, i) <==> Bit(x, i) && Bit(y, i)
    ensures Bit(x | y, i) <==> Bit(x, i) || Bit(y, i)
    ensures Bit(!x, i) <==> !Bit(x, i)
  {
  }

  lemma BitOfLogic(x: Word, y: Word, i: Place)
    requires i < 32
    ensures Bit(And(x, y), i) <==> Bit(x, i) && Bit(y, i)
    ensures Bit(Or(x, y), i) <==> Bit(x, i) || Bit(y, i)
    ensures Bit(Not(x), i) <==> !Bit(x, i)
  {
    hide Bit;
    RawLogic(x, y, i);
  }

  lemma RawLeft(x: Word, n: Place, i: Place)
    requires n <= i < 32
    ensures Bit(x << n, i) <==> Bit(x, i - n)
  {
  }

  lemma BitOfLeft(x: Word, n: Place, i: Place)
    requires n <= i < 32
    ensures Bit(Left(x, n), i) <==> Bit(x, i - n)
  {
    hide Bit;
    RawLeft(x, n, i);
  }

  lemma BitUnderLeft(x: Word, n: Place, i: Place)
    requires i < n < 32
    ensures !Bit(Left(x, n), i)
  {
  }

  lemma RawRight(x: Word, n: Place, i: Place)
    requires n < 32 && i < 32 - n
    ensures Bit(x >> n, i) <==> Bit(x, i + n)
  {
  }

  lemma BitOfRight(x: Word, n: Place, i: Place)
    requires n < 32 && i < 32 - n
    ensures Bit(Right(x, n), i) <==> Bit(x, i + n)
  {
    hide Bit;
    RawRight(x, n, i);
  }

  lemma BitOverRight(x: Word, n: Place, i: Place)
    requires n < 32 && 32 - n <= i < 32
    ensures !Bit(Right(x, n), i)
  {
  }

  /** The bits below n. */
  function Lower(x: Word, n: Place): Word
    requires n < 32
  {
    x & ((1 << n) - 1)
  }

  lemma LowerNext(x: Word, y: Word, n: Place)
    requires n < 31
    requires Lower(x, n) == Lower(y, n) && Bit(x, n) == Bit(y, n)
    ensures Lower(x, n + 1) == Lower(y, n + 1)
  {
  }

  lemma LowerLast(x: Word, y: Word)
    requires Lower(x, 31) == Lower(y, 31) && Bit(x, 31) == Bit(y, 31)
    ensures x == y
  {
  }

  lemma LowerNone(x: Word)
    ensures Lower(x, 0) == 0
  {
  }

  lemma {:induction false} SameLower(x: Word, y: Word, n: Place)
    requires n < 32
    requires forall i: Place :: i < 32 ==> Bit(x, i) == Bit(y, i)
    ensures Lower(x, n) == Lower(y, n)
  {
    hide Bit, Lower;
    if n == 0 {
      LowerNone(x);
      LowerNone(y);
    } else {
      SameLower(x, y, n - 1);
      LowerNext(x, y, n - 1);
    }
  }

  /** A word is determined by its bits. */
  lemma SameBits(x: Word, y: Word)
    requires forall i: Place :: i < 32 ==> Bit(x, i) == Bit(y, i)
    ensures x == y
  {
    hide Bit, Lower;
    SameLower(x, y, 31);
    LowerLast(x, y);
  }

  /** A field is read as its bits, moved to the bottom. */
  lemma BitOfGet(x: Word, low: Place, high: Place, i: Place)
    requires low <= high < 32 && i < 32
    ensures Bit(Get(x, low, high), i) <==> i <= high - low && Bit(x, low + i)
  {
    hide Bit, Mask, And, Right;
    BitOfMask(low, high, i);
    BitOfLogic(Right(x, low), Mask(low, high), i);
    if i < 32 - low {
      BitOfRight(x, low, i);
    } else {
      BitOverRight(x, low, i);
    }
  }

  /** Writing a field sets its bits to the lowest bits of the value and leaves every other bit. */
  lemma BitOfPut(x: Word, low: Place, high: Place, v: Word, i: Place)
    requires low <= high < 32 && i < 32
    ensures Bit(Put(x, low, high, v), i) <==> if low <= i <= high then Bit(v, i - low) else Bit(x, i)
  {
    hide Bit, Mask, And, Or, Not, Left;
    var m := Mask(low, high);
    var kept, added := And(x, Not(Left(m, low))), Left(And(v, m), low);
    BitOfLogic(kept, added, i);
    BitOfLogic(x, Not(Left(m, low)), i);
    BitOfLogic(Left(m, low), 0, i);
    if low <= i {
      BitOfMask(low, high, i - low);
      BitOfLeft(m, low, i);
      BitOfLeft(And(v, m), low, i);
      BitOfLogic(v, m, i - low);
    } else {
      BitUnderLeft(m, low, i);
      BitUnderLeft(And(v, m), low, i);
    }
  }

  /** Bit for bit: low to high of a word have become the bits of v, and no other bit has changed. */
  ghost predicate Overwritten(before: Word, after: Word, low: Place, high: Place, v: Word) {
    forall i: Place :: i < 32 ==> (Bit(after, i) <==> if low <= i <= high then Bit(v, i - low) else Bit(before, i))
  }

  lemma PutOverwrites(x: Word, low: Place, high: Place, v: Word)
    requires low <= high < 32
    ensures Overwritten(x, Put(x, low, high, v), low, high, v)
  {
    hide Bit, Put;
    forall i: Place | i < 32
      ensures Bit(Put(x, low, high, v), i) <==> if low <= i <= high then Bit(v, i - low) else Bit(x, i)
    {
      BitOfPut(x, low, high, v, i);
    }
  }

  predicate Apart(low: Place, high: Place, low': Place, high': Place) { high < low' || high' < low }

  predicate Covers(low: Place, high: Place, i: Place) { low <= i <= high }

  lemma CoversBoth(low: Place, high: Place, low': Place, high': Place, i: Place)
    requires Apart(low, high, low', high') && Covers(low, high, i)
    ensures !Covers(low', high', i)
  {
  }

  lemma SharedPlace(low: Place, high: Place, low': Place, high': Place) returns (i: Place)
    requires low <= high && low' <= high' && !Apart(low, high, low', high')
    ensures Covers(low, high, i) && Covers(low', high', i)
  {
    i := if low < low' then low' else low;
  }

  /** Two ranges are apart exactly if no place lies in both. */
  lemma ApartIff(low: Place, high: Place, low': Place, high': Place)
    requires low <= high && low' <= high'
    ensures Apart(low, high, low', high') <==> forall i: Place :: !(Covers(low, high, i) && Covers(low', high', i))
  {
    if Apart(low, high, low', high') {
      forall i: Place | Covers(low, high, i)
        ensures !Covers(low', high', i)
      {
        CoversBoth(low, high, low', high', i);
      }
    } else {
      var i := SharedPlace(low, high, low', high');
    }
    hide Apart, Covers;
  }

  lemma BitAfterPut(x: Word, low: Place, high: Place, v: Word, i: Place)
    requires low <= high < 32 && i < 32
    ensures Bit(Get(Put(x, low, high, v), low, high), i) == Bit(And(v, Mask(low, high)), i)
  {
    hide Bit, Mask, Get, Put, And;
    BitOfGet(Put(x, low, high, v), low, high, i);
    BitOfMask(low, high, i);
    BitOfLogic(v, Mask(low, high), i);
    if i <= high - low {
      BitOfPut(x, low, high, v, low + i);
    }
  }

  /** Read after write, for every width up to the full 32 bits. */
  lemma GetAfterPut(x: Word, low: Place, high: Place, v: Word)
    requires low <= high < 32
    ensures Get(Put(x, low, high, v), low, high) == And(v, Mask(low, high))
  {
    hide Bit, Mask, Get, Put, And;
    forall i: Place | i < 32
      ensures Bit(Get(Put(x, low, high, v), low, high), i) == Bit(And(v, Mask(low, high)), i)
    {
      BitAfterPut(x, low, high, v, i);
    }
    SameBits(Get(Put(x, low, high, v), low, high), And(v, Mask(low, high)));
  }

  lemma BitApart(x: Word, low: Place, high: Place, v: Word, low': Place, high': Place, i: Place)
    requires low <= high < 32 && low' <= high' < 32 && Apart(low, high, low', high') && i < 32
    ensures Bit(Get(Put(x, low, high, v), low', high'), i) == Bit(Get(x, low', high'), i)
  {
    hide Bit, Mask, Get, Put;
    BitOfGet(Put(x, low, high, v), low', high', i);
    BitOfGet(x, low', high', i);
    if i <= high' - low' {
      BitOfPut(x, low, high, v, low' + i);
    }
  }

  /** A field that does not overlap the written one still reads the same. */
  lemma GetApart(x: Word, low: Place, high: Place, v: Word, low': Place, high': Place)
    requires low <= high < 32 && low' <= high' < 32 && Apart(low, high, low', high')
    ensures Get(Put(x, low, high, v), low', high') == Get(x, low', high')
  {
    hide Bit, Mask, Get, Put;
    forall i: Place | i < 32
      ensures Bit(Get(Put(x, low, high, v), low', high'), i) == Bit(Get(x, low', high'), i)
    {
      BitApart(x, low, high, v, low', high', i);
    }
    SameBits(Get(Put(x, low, high, v), low', high'), Get(x, low', high'));
  }

  /** Writes to fields that do not overlap commute. */
  lemma PutsCommute(x: Word, low: Place, high: Place, v: Word, low': Place, high': Place, v': Word)
    requires low <= high < 32 && low' <= high' < 32 && Apart(low, high, low', high')
    ensures Put(Put(x, low, high, v), low', high', v') == Put(Put(x, low', high', v'), low, high, v)
  {
    hide Bit, Put;
    var a, b := Put(x, low, high, v), Put(x, low', high', v');
    forall i: Place | i < 32
      ensures Bit(Put(a, low', high', v'), i) == Bit(Put(b, low, high, v), i)
    {
      BitOfPut(x, low, high, v, i);
      BitOfPut(x, low', high', v', i);
      BitOfPut(a, low', high', v', i);
      BitOfPut(b, low, high, v, i);
    }
    SameBits(Put(a, low', high', v'), Put(b, low, high, v));
  }

  lemma BitPutShifted(x: Word, low: Place, high: Place, v: Word, i: Place)
    requires low <= high < 32 && i < 32
    ensures var m := Left(Mask(low, high), low);
            Bit(Or(And(x, Not(m)), And(Left(v, low), m)), i) == Bit(Put(x, low, high, v), i)
  {
    hide Bit, Mask, And, Or, Not, Left, Put;
    var m := Left(Mask(low, high), low);
    BitOfPut(x, low, high, v, i);
    BitOfLogic(And(x, Not(m)), And(Left(v, low), m), i);
    BitOfLogic(x, Not(m), i);
    BitOfLogic(Left(v, low), m, i);
    BitOfLogic(m, m, i);
    if low <= i {
      BitOfMask(low, high, i - low);
      BitOfLeft(Mask(low, high), low, i);
      BitOfLeft(v, low, i);
    } else {
      BitUnderLeft(Mask(low, high), low, i);
    }
  }

  /** srcs/Afe.cpp shifts the mask into place first; the outcome is the same. */
  lemma PutShifted(x: Word, low: Place, high: Place, v: Word)
    requires low <= high < 32
    ensures var m := Left(Mask(low, high), low); Or(And(x, Not(m)), And(Left(v, low), m)) == Put(x, low, high, v)
  {
    hide Bit, Mask, And, Or, Not, Left, Put;
    var m := Left(Mask(low, high), low);
    var y := Or(And(x, Not(m)), And(Left(v, low), m));
    forall i: Place | i < 32
      ensures Bit(y, i) == Bit(Put(x, low, high, v), i)
    {
      BitPutShifted(x, low, high, v, i);
    }
    SameBits(y, Put(x, low, high, v));
  }

  lemma BitGetShifted(x: Word, low: Place, high: Place, i: Place)
    requires low <= high < 32 && i < 32
    ensures Bit(Right(And(x, Left(Mask(low, high), low)), low), i) == Bit(Get(x, low, high), i)
  {
    hide Bit, Mask, And, Left, Right, Get;
    var m := Left(Mask(low, high), low);
    BitOfGet(x, low, high, i);
    if i < 32 - low {
      BitOfRight(And(x, m), low, i);
      BitOfLogic(x, m, low + i);
      BitOfLeft(Mask(low, high), low, low + i);
      BitOfMask(low, high, i);
    } else {
      BitOverRight(And(x, m), low, i);
    }
  }

  lemma GetShifted(x: Word, low: Place, high: Place)
    requires low <= high < 32
    ensures Right(And(x, Left(Mask(low, high), low)), low) == Get(x, low, high)
  {
    hide Bit, Mask, And, Left, Right, Get;
    var y := Right(And(x, Left(Mask(low, high), low)), low);
    forall i: Place | i < 32
      ensures Bit(y, i) == Bit(Get(x, low, high), i)
    {
      BitGetShifted(x, low, high, i);
    }
    SameBits(y, Get(x, low, high));
  }

  const LOW16: Word := 0xFFFF

  predicate Narrow(x: Word) { And(x, LOW16) == x }

  lemma BitOfLow16(i: Place)
    requires i < 32
    ensures Bit(LOW16, i) <==> i < 16
  {
  }

  /** Writing a field of a 16-bit register keeps it 16 bits wide. */
  lemma PutNarrow(x: Word, low: Place, high: Place, v: Word)
    requires low <= high < 16 && Narrow(x)
    ensures Narrow(Put(x, low, high, v))
  {
    hide Bit, Mask, And, Put, LOW16;
    var y := Put(x, low, high, v);
    forall i: Place | i < 32
      ensures Bit(And(y, LOW16), i) == Bit(y, i)
    {
      BitOfLogic(y, LOW16, i);
      BitOfLogic(x, LOW16, i);
      BitOfLow16(i);
      BitOfPut(x, low, high, v, i);
    }
    SameBits(And(y, LOW16), y);
  }

  function Wide(v: bv16): Word { v as Word }

  // ---- Order of 16-bit values, byte by byte ----

  predicate AtMost(a: bv16, b: bv16) { a <= b }

  function HighByte(a: bv16): bv8 { (a >> 8) as bv8 }

  function LowByte(a: bv16): bv8 { (a & 0xFF) as bv8 }

  predicate Below8(a: bv8, b: bv8) { a < b }

  lemma RawOrder(a: bv16, b: bv16)
    ensures a <= b <==>
            (a >> 8) as bv8 < (b >> 8) as bv8
            || ((a >> 8) as bv8 == (b >> 8) as bv8 && (a & 0xFF) as bv8 <= (b & 0xFF) as bv8)
  {
  }

  lemma AtMostByBytes(a: bv16, b: bv16)
    ensures AtMost(a, b) <==>
            Below8(HighByte(a), HighByte(b)) || (HighByte(a) == HighByte(b) && !Below8(LowByte(b), LowByte(a)))
  {
    RawOrder(a, b);
  }

  lemma ByteOrder(a: bv8, b: bv8)
    ensures Below8(a, b) <==> a as int < b as int
  {
  }

  lemma TwoBytes(a: bv16)
    ensures a as int == 0x100 * (((a >> 8) as bv8) as int) + ((a & 0xFF) as bv8) as int
  {
  }

  lemma TwoBytesOf(a: bv16) returns (high: int, low: int)
    ensures high == HighByte(a) as int && low == LowByte(a) as int && 0 <= low < 0x100 && a as int == 0x100 * high + low
  {
    TwoBytes(a);
    high, low := HighByte(a) as int, LowByte(a) as int;
  }

  /** The order of the bits is the order of the numbers. */
  lemma AtMostIs(a: bv16, b: bv16)
    ensures AtMost(a, b) <==> a as int <= b as int
  {
    hide AtMost, Below8, HighByte, LowByte;
    AtMostByBytes(a, b);
    var ah, al := TwoBytesOf(a);
    var bh, bl := TwoBytesOf(b);
    ByteOrder(HighByte(a), HighByte(b));
    ByteOrder(LowByte(b), LowByte(a));
    SameByte(HighByte(a), HighByte(b));
  }

  lemma SameByte(a: bv8, b: bv8)
    ensures a == b <==> a as int == b as int
  {
  }

  lemma Below8Transitive(a: bv8, b: bv8, c: bv8)
    ensures Below8(a, b) && Below8(b, c) ==> Below8(a, c)
    ensures !Below8(b, a) && !Below8(c, b) ==> !Below8(c, a)
  {
  }
}
